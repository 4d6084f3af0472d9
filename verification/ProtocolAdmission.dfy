/**
 End-to-end admission: a preparation acknowledgement the matchmaker accepts
 means that the server really admitted the client.
 */
module ProtocolAdmission {
  import opened Wrappers
  import opened Names
  import opened Records
  import opened Store
  import opened GameServer
  import opened Protocol
  import opened ProtocolSafety

  // 1. One game server with its bridge.

  /** Each client is admitted at most once. */
  ghost predicate SingleAdmission(history: seq<Report>)
  {
    forall i, j, c: nat | 0 <= i < j < |history| && Admits(history[i], c) :: !Admits(history[j], c)
  }

  /** Clients forwarded by the bridge are remembered; those waiting in the inbox are new to the server. */
  ghost predicate SeenOk(n: Node)
  {
    && (forall c: nat | EverAdmitted(n.local.history, c) :: c in n.seen)
    && (forall r | r in n.inbox :: r.clientId in n.seen && !EverAdmitted(n.local.history, r.clientId))
    && (forall i, j | 0 <= i < j < |n.inbox| :: n.inbox[i].clientId != n.inbox[j].clientId)
    && SingleAdmission(n.local.history)
  }

  /** Everything the server says about an assignment concerns a record stored under its own key. */
  ghost predicate FromOwnKey(s: string, n: Node)
  {
    && (forall r | r in n.inbox :: KeyServer(r.serverId) == KeyServer(s))
    && (forall r | r in n.local.history && r.PreparedReport? :: KeyServer(r.ack.serverId) == KeyServer(s))
    && (forall r | r in n.channel :: r in n.local.history)
    && (forall op | op in n.publishing && op.PutPrepared? :: PreparedReport(op.ack) in n.local.history)
  }

  ghost predicate NodeOk(s: string, n: Node)
  {
    && n.local.serverId == s
    && LocalOk(n.local) && DistinctLiveIds(n.local)
    && SeenOk(n)
    && FromOwnKey(s, n)
  }

  lemma ForwardOk(s: string, n: Node, listed: seq<AssignmentRecord>)
    requires NodeOk(s, n)
    requires forall r | r in listed :: KeyServer(r.serverId) == KeyServer(s)
    ensures NodeOk(s, Forward(n, listed))
  {
    UnseenRecords(n.seen, listed);
    var m := Forward(n, listed);
    assert SeenOk(m);
    assert FromOwnKey(s, m);
  }

  /** Appending a report that admits nobody keeps what is known about admissions. */
  lemma QuietReport(s: string, n: Node, local: Local, report: Report)
    requires NodeOk(s, n)
    requires LocalOk(local) && DistinctLiveIds(local) && local.serverId == s
    requires local.history == n.local.history + [report] && !report.PreparedReport?
    ensures NodeOk(s, n.(local := local))
    ensures forall c: nat :: EverAdmitted(local.history, c) <==> EverAdmitted(n.local.history, c)
  {
    forall c: nat
      ensures EverAdmitted(local.history, c) <==> EverAdmitted(n.local.history, c)
    {
      AdmittedAppend(n.local.history, report, c);
    }
    assert SingleAdmission(local.history);
    assert forall r | r in local.history :: r in n.local.history || r == report;
  }

  lemma SingleAppend(history: seq<Report>, report: Report)
    requires SingleAdmission(history)
    requires forall c: nat | Admits(report, c) :: !EverAdmitted(history, c)
    ensures SingleAdmission(history + [report])
  {
  }

  lemma ReceiveHistory(n: Node, now: nat)
    requires n.inbox != []
    ensures var h, h' := n.local.history, Register(n.local, n.inbox[0], now).history;
            h' == h ||
            (h' == h + [PreparedReport(Accepted(n.inbox[0]))] &&
             forall c: nat :: EverAdmitted(h', c) <==> c == n.inbox[0].clientId || EverAdmitted(h, c))
  {
    var report := PreparedReport(Accepted(n.inbox[0]));
    forall c: nat
      ensures EverAdmitted(n.local.history + [report], c) <==>
              c == n.inbox[0].clientId || EverAdmitted(n.local.history, c)
    {
      AdmittedAppend(n.local.history, report, c);
    }
  }

  lemma ReceiveSeen(n: Node, now: nat)
    requires SeenOk(n) && n.inbox != []
    ensures SeenOk(NodeStep(n, Receive(now)))
  {
    var m := NodeStep(n, Receive(now));
    ReceiveHistory(n, now);
    assert n.inbox[0] in n.inbox;
    assert forall q | q in m.inbox :: q in n.inbox && q.clientId != n.inbox[0].clientId;
    if m.local.history != n.local.history {
      SingleAppend(n.local.history, PreparedReport(Accepted(n.inbox[0])));
    }
  }

  lemma ReceiveOk(s: string, n: Node, now: nat)
    requires NodeOk(s, n) && n.inbox != []
    ensures NodeOk(s, NodeStep(n, Receive(now)))
    ensures var m := NodeStep(n, Receive(now));
            (forall c: nat | EverAdmitted(n.local.history, c) :: EverAdmitted(m.local.history, c)) &&
            forall c: nat | EverAdmitted(m.local.history, c) && !EverAdmitted(n.local.history, c) :: c in m.local.gate
  {
    var r := n.inbox[0];
    RegisterKeepsOk(n.local, r, now);
    OperationsKeepDistinctIds(n.local, r, 0, now);
    ReceiveSeen(n, now);
    ReceiveHistory(n, now);
    assert r in n.inbox;
    assert FromOwnKey(s, NodeStep(n, Receive(now)));
  }

  lemma {:induction false} DisconnectAllOk(s: string, n: Node, clients: seq<nat>)
    requires NodeOk(s, n)
    ensures NodeOk(s, n.(local := DisconnectAll(n.local, clients)))
    ensures forall c: nat :: EverAdmitted(DisconnectAll(n.local, clients).history, c) <==>
                             EverAdmitted(n.local.history, c)
  {
    if clients != [] {
      var init, last := clients[..|clients| - 1], clients[|clients| - 1];
      DisconnectAllOk(s, n, init);
      DisconnectOk(s, n.(local := DisconnectAll(n.local, init)), last);
    }
  }

  lemma DisconnectOk(s: string, n: Node, client: nat)
    requires NodeOk(s, n)
    ensures NodeOk(s, n.(local := Disconnect(n.local, client)))
    ensures forall c: nat :: EverAdmitted(Disconnect(n.local, client).history, c) <==> EverAdmitted(n.local.history, c)
  {
    if n.local.Tracks(client) {
      DisconnectKeepsOk(n.local, client);
      OperationsKeepDistinctIds(n.local, n.local.assignments[client].record, client, 0);
      QuietReport(s, n, Disconnect(n.local, client), Connection(n.local, client, false));
    }
  }

  lemma ConnectOk(s: string, n: Node, client: nat)
    requires NodeOk(s, n)
    ensures NodeOk(s, n.(local := Connect(n.local, client)))
    ensures forall c: nat :: EverAdmitted(Connect(n.local, client).history, c) <==> EverAdmitted(n.local.history, c)
  {
    if n.local.Tracks(client) {
      ConnectKeepsOk(n.local, client);
      OperationsKeepDistinctIds(n.local, n.local.assignments[client].record, client, 0);
      QuietReport(s, n, Connect(n.local, client), Connection(n.local, client, true));
    }
  }

  lemma AnnounceOk(s: string, n: Node, ready: bool)
    requires NodeOk(s, n)
    ensures NodeOk(s, NodeStep(n, Announce(ready)))
    ensures forall c: nat :: EverAdmitted(NodeStep(n, Announce(ready)).local.history, c) <==>
                             EverAdmitted(n.local.history, c)
  {
    var report := ReadinessReport(n.local.serverId, ready, None);
    var t := n.local.(capacity := n.local.capacity.(ready := ready, certDigest := None));
    QueueNeutral(t, report);
    QuietReport(s, n, SetReady(n.local, ready, None), report);
  }

  /** A local step keeps the invariant; it never forgets an admission, and a new one opens the gate. */
  lemma LocalStepOk(s: string, n: Node, step: LocalStep)
    requires NodeOk(s, n)
    requires (step.Take? ==> n.channel != []) && (step.Receive? ==> n.inbox != [])
    requires step.Poll? ==> forall r | r in step.listed :: KeyServer(r.serverId) == KeyServer(s)
    ensures NodeOk(s, NodeStep(n, step))
    ensures forall c: nat | EverAdmitted(n.local.history, c) :: EverAdmitted(NodeStep(n, step).local.history, c)
    ensures forall c: nat | EverAdmitted(NodeStep(n, step).local.history, c) && !EverAdmitted(n.local.history, c) ::
              c in NodeStep(n, step).local.gate
  {
    match step
    case Poll(listed) => ForwardOk(s, n, listed);
    case Take => assert n.channel[0] in n.channel;
    case Receive(now) =>
      ReceiveOk(s, n, now);
    case Announce(ready) => AnnounceOk(s, n, ready);
    case ClientConnects(client) => ConnectOk(s, n, client);
    case ClientDisconnects(client) => DisconnectOk(s, n, client);
    case ExpireClients(now, timeout) => DisconnectAllOk(s, n, StaleClients(n.local, now, timeout));
    case Flush =>
  }

  // 2. The world.

  /** Some server with this key has admitted the client. */
  ghost predicate AdmittedUnder(nodes: map<string, Node>, key: string, client: nat)
  {
    exists s | s in nodes :: KeyServer(s) == key && EverAdmitted(nodes[s].local.history, client)
  }

  ghost predicate AckOk(nodes: map<string, Node>, ack: AssignmentPrepared)
  {
    ack.prepared ==> AdmittedUnder(nodes, KeyServer(ack.serverId), ack.clientId)
  }

  /** Only bridges write acknowledgements and connections; a wait is one repeated read. */
  ghost predicate ProcOk(nodes: map<string, Node>, p: Proc)
  {
    (forall op | op in p.pending :: !op.PutPrepared? && !op.TouchesActive()) &&
    (p.failed ==> p.pending == []) &&
    (p.goal.WaitPrepared? ==>
       p.failed || p.pending == [AwaitAck(p.goal.record)] ||
       (p.pending == [] && AdmittedUnder(nodes, KeyServer(p.goal.record.serverId), p.goal.record.clientId)))
  }

  ghost predicate BridgeOk(n: Node)
  {
    forall op | op in n.publishing :: !op.AwaitAck? && !op.ListForCancel?
  }

  ghost predicate AcksOk(kv: Kv, nodes: map<string, Node>)
  {
    forall key | key in kv.prepared :: AckOk(nodes, kv.prepared[key])
  }

  ghost predicate Admission(w: World)
  {
    && (forall s | s in w.nodes :: NodeOk(s, w.nodes[s]) && BridgeOk(w.nodes[s]))
    && AcksOk(w.kv, w.nodes)
    && (forall pid | pid in w.procs :: ProcOk(w.nodes, w.procs[pid]))
  }

  /** Servers never forget whom they admitted. */
  ghost predicate Remember(a: map<string, Node>, b: map<string, Node>)
  {
    forall s | s in a ::
      s in b && forall c: nat | EverAdmitted(a[s].local.history, c) :: EverAdmitted(b[s].local.history, c)
  }

  lemma AdmittedStays(a: map<string, Node>, b: map<string, Node>, key: string, client: nat)
    requires Remember(a, b) && AdmittedUnder(a, key, client)
    ensures AdmittedUnder(b, key, client)
  {
    var s :| s in a && KeyServer(s) == key && EverAdmitted(a[s].local.history, client);
    assert s in b && EverAdmitted(b[s].local.history, client);
  }

  lemma AcksStay(kv: Kv, a: map<string, Node>, b: map<string, Node>, procs: map<nat, Proc>)
    requires Remember(a, b) && AcksOk(kv, a) && forall pid | pid in procs :: ProcOk(a, procs[pid])
    ensures AcksOk(kv, b) && forall pid | pid in procs :: ProcOk(b, procs[pid])
  {
    forall key | key in kv.prepared && kv.prepared[key].prepared
      ensures AckOk(b, kv.prepared[key])
    {
      AdmittedStays(a, b, KeyServer(kv.prepared[key].serverId), kv.prepared[key].clientId);
    }
    forall pid | pid in procs
      ensures ProcOk(b, procs[pid])
    {
      var p := procs[pid];
      if p.goal.WaitPrepared? && p.pending == [] && !p.failed {
        AdmittedStays(a, b, KeyServer(p.goal.record.serverId), p.goal.record.clientId);
      }
    }
  }

  lemma {:induction false} CancelEachPlain(records: seq<AssignmentRecord>)
    ensures forall op | op in CancelEach(records) :: op.DropIndex? || op.ProbePrepared?
  {
    if records != [] {
      CancelEachPlain(records[1..]);
    }
  }

  /** A store call that writes no acknowledgement adds none, and none of its follow-ups does. */
  lemma ExecQuiet(kv: Kv, op: Op, writer: nat, listed: seq<AssignmentRecord>)
    requires !op.PutPrepared?
    ensures var e := Exec(kv, op, writer, listed);
            && (!op.TouchesActive() ==> e.kv.active == kv.active)
            && (forall key | key in e.kv.prepared :: key in kv.prepared && e.kv.prepared[key] == kv.prepared[key])
            && (forall x | x in e.more :: !x.PutPrepared? && !x.TouchesActive() && !x.ListForCancel?)
            && (!op.AwaitAck? ==> forall x | x in e.more :: !x.AwaitAck?)
  {
    if op.ListForCancel? {
      CancelEachPlain(listed);
    }
  }

  lemma ExecByProc(kv: Kv, nodes: map<string, Node>, p: Proc, pid: nat, listed: seq<AssignmentRecord>)
    requires AcksOk(kv, nodes) && ProcOk(nodes, p) && p.pending != []
    ensures var e := Exec(kv, p.pending[0], pid, listed);
            AcksOk(e.kv, nodes) && ProcOk(nodes, Proc(p.goal, Continue(e, p.pending[1..]), e.failed))
  {
    assert p.pending[0] in p.pending;
    assert forall x | x in p.pending[1..] :: x in p.pending;
    ExecQuiet(kv, p.pending[0], pid, listed);
    var e := Exec(kv, p.pending[0], pid, listed);
    assert forall x | x in Continue(e, p.pending[1..]) :: x in e.more || x in p.pending[1..];
    if p.goal.WaitPrepared? {
      assert e == ExecAwait(kv, AwaitAck(p.goal.record));
      assert p.pending[1..] == [];
    }
  }

  lemma FaultByProc(kv: Kv, nodes: map<string, Node>, p: Proc)
    requires ProcOk(nodes, p) && p.pending != []
    ensures var e := Fault(kv, p.pending[0]);
            e.kv == kv && ProcOk(nodes, Proc(p.goal, Continue(e, p.pending[1..]), e.failed))
  {
    assert p.pending[0] in p.pending;
    assert forall x | x in p.pending[1..] :: x in p.pending;
  }

  lemma ProgramOk(nodes: map<string, Node>, goal: Goal)
    ensures ProcOk(nodes, Proc(goal, Program(goal), false))
  {
  }

  lemma PublishAck(kv: Kv, nodes: map<string, Node>, s: string, ack: AssignmentPrepared)
    requires AcksOk(kv, nodes) && s in nodes && FromOwnKey(s, nodes[s])
    requires PutPrepared(ack) in nodes[s].publishing
    ensures AcksOk(kv.(prepared := kv.prepared[KeyAssignment(ack.assignmentId) := ack]), nodes)
  {
    var history := nodes[s].local.history;
    assert PreparedReport(ack) in history;
    var i :| 0 <= i < |history| && history[i] == PreparedReport(ack);
    assert ack.prepared ==> Admits(history[i], ack.clientId);
    assert AckOk(nodes, ack);
  }

  lemma ExecByBridge(kv: Kv, nodes: map<string, Node>, s: string, listed: seq<AssignmentRecord>)
    requires AcksOk(kv, nodes) && s in nodes && NodeOk(s, nodes[s]) && BridgeOk(nodes[s])
    requires nodes[s].publishing != []
    ensures var n := nodes[s];
            var e := Exec(kv, n.publishing[0], n.bridge, listed);
            var m := n.(publishing := Continue(e, n.publishing[1..]));
            AcksOk(e.kv, nodes) && NodeOk(s, m) && BridgeOk(m)
  {
    var n := nodes[s];
    var op := n.publishing[0];
    var e := Exec(kv, op, n.bridge, listed);
    assert op in n.publishing;
    assert forall x | x in n.publishing[1..] :: x in n.publishing;
    if op.PutPrepared? {
      PublishAck(kv, nodes, s, op.ack);
    } else {
      ExecQuiet(kv, op, n.bridge, listed);
    }
    assert forall x | x in Continue(e, n.publishing[1..]) :: x in e.more || x in n.publishing;
  }

  lemma FaultByBridge(kv: Kv, s: string, n: Node)
    requires NodeOk(s, n) && BridgeOk(n) && n.publishing != []
    ensures var e := Fault(kv, n.publishing[0]);
            var m := n.(publishing := Continue(e, n.publishing[1..]));
            e.kv == kv && NodeOk(s, m) && BridgeOk(m)
  {
    assert n.publishing[0] in n.publishing;
    assert forall x | x in n.publishing[1..] :: x in n.publishing;
  }

  lemma ListedUnderKey(kv: Kv, s: string, listed: seq<AssignmentRecord>)
    requires KvKeyed(kv) && Lists(kv, s, listed)
    ensures forall r | r in listed :: KeyServer(r.serverId) == KeyServer(s)
  {
    var contents := kv.CellOf(s).Contents();
    assert ContentsUnder(KeyServer(s), contents);
    forall r | r in listed
      ensures KeyServer(r.serverId) == KeyServer(s)
    {
      assert RecordUnder(KeyServer(s), r.assignmentId, contents[r.assignmentId]);
    }
  }

  lemma NodeChanges(w: World, s: string, m: Node, kv: Kv)
    requires Admission(w) && s in w.nodes && NodeOk(s, m) && BridgeOk(m)
    requires forall c: nat | EverAdmitted(w.nodes[s].local.history, c) :: EverAdmitted(m.local.history, c)
    requires AcksOk(kv, w.nodes)
    ensures Admission(w.(kv := kv, nodes := w.nodes[s := m]))
    ensures Remember(w.nodes, w.nodes[s := m])
  {
    AcksStay(kv, w.nodes, w.nodes[s := m], w.procs);
  }

  lemma LocalBridgeOk(n: Node, step: LocalStep)
    requires BridgeOk(n) && (step.Take? ==> n.channel != []) && (step.Receive? ==> n.inbox != [])
    ensures BridgeOk(NodeStep(n, step))
  {
  }

  lemma ProcChanges(w: World, pid: nat, p: Proc, kv: Kv)
    requires Admission(w) && AcksOk(kv, w.nodes) && ProcOk(w.nodes, p)
    ensures Admission(w.(kv := kv, procs := w.procs[pid := p]))
  {
  }

  lemma BridgeOpAdmission(w: World, s: string, listed: seq<AssignmentRecord>)
    requires Admission(w) && Enabled(w, BridgeOp(s, listed))
    ensures Admission(Do(w, BridgeOp(s, listed))) && Remember(w.nodes, Do(w, BridgeOp(s, listed)).nodes)
  {
    ExecByBridge(w.kv, w.nodes, s, listed);
    var e := Exec(w.kv, w.nodes[s].publishing[0], w.nodes[s].bridge, listed);
    NodeChanges(w, s, w.nodes[s].(publishing := Continue(e, w.nodes[s].publishing[1..])), e.kv);
  }

  lemma BridgeFaultAdmission(w: World, s: string)
    requires Admission(w) && Enabled(w, BridgeFault(s))
    ensures Admission(Do(w, BridgeFault(s))) && Remember(w.nodes, Do(w, BridgeFault(s)).nodes)
  {
    FaultByBridge(w.kv, s, w.nodes[s]);
    var e := Fault(w.kv, w.nodes[s].publishing[0]);
    NodeChanges(w, s, w.nodes[s].(publishing := Continue(e, w.nodes[s].publishing[1..])), w.kv);
  }

  /** A step inside one server keeps the invariants; an admission it adds opens that server's gate. */
  lemma LocalAdmission(w: World, s: string, step: LocalStep)
    requires Keyed(w) && Admission(w) && Enabled(w, At(s, step))
    ensures Admission(Do(w, At(s, step))) && Remember(w.nodes, Do(w, At(s, step)).nodes)
    ensures var next := Do(w, At(s, step)).nodes[s].local;
            forall c: nat | EverAdmitted(next.history, c) && !EverAdmitted(w.nodes[s].local.history, c) ::
              c in next.gate
  {
    if step.Poll? {
      ListedUnderKey(w.kv, s, step.listed);
    }
    LocalStepOk(s, w.nodes[s], step);
    LocalBridgeOk(w.nodes[s], step);
    NodeChanges(w, s, NodeStep(w.nodes[s], step), w.kv);
  }

  lemma StepAdmission(w: World, step: Step)
    requires Keyed(w) && Admission(w) && Enabled(w, step)
    ensures Admission(Do(w, step)) && Remember(w.nodes, Do(w, step).nodes)
  {
    match step
    case Spawn(pid, goal) =>
      ProgramOk(w.nodes, goal);
      ProcChanges(w, pid, Proc(goal, Program(goal), false), w.kv);
    case ProcOp(pid, listed) =>
      ExecByProc(w.kv, w.nodes, w.procs[pid], pid, listed);
      ProcChanges(w, pid, Do(w, step).procs[pid], Do(w, step).kv);
    case ProcFault(pid) =>
      FaultByProc(w.kv, w.nodes, w.procs[pid]);
      ProcChanges(w, pid, Do(w, step).procs[pid], w.kv);
    case BridgeOp(s, listed) => BridgeOpAdmission(w, s, listed);
    case BridgeFault(s) => BridgeFaultAdmission(w, s);
    case At(s, local) => LocalAdmission(w, s, local);
    case Age(_) =>
  }

  lemma InitAdmission(w: World)
    requires Init(w)
    ensures Admission(w)
  {
    forall s | s in w.nodes
      ensures NodeOk(s, w.nodes[s]) && BridgeOk(w.nodes[s])
    {
      var n := w.nodes[s];
      assert n.local.serverId == s && n.local.history == [] && n.local.gate == {} && n.local.assignments == map[];
    }
  }

  lemma {:induction false} RunAdmission(worlds: seq<World>, steps: seq<Step>, i: nat)
    requires IsRun(worlds, steps) && i < |worlds|
    ensures Admission(worlds[i])
  {
    if i == 0 {
      InitAdmission(worlds[0]);
    } else {
      RunAdmission(worlds, steps, i - 1);
      AdmissionOneStep(worlds, steps, i - 1);
    }
  }

  lemma AdmissionOneStep(worlds: seq<World>, steps: seq<Step>, i: nat)
    requires IsRun(worlds, steps) && i < |steps| && Admission(worlds[i])
    ensures Admission(worlds[i + 1]) && Remember(worlds[i].nodes, worlds[i + 1].nodes)
  {
    RunKeyed(worlds, steps, i);
    StepAdmission(worlds[i], steps[i]);
  }

  // 3. What the matchmaker may conclude.

  ghost predicate Allowed(w: World, s: string, client: nat)
  {
    s in w.nodes && client in w.nodes[s].local.gate
  }

  ghost predicate Tells(w: World, s: string, client: nat)
  {
    s in w.nodes && EverAdmitted(w.nodes[s].local.history, client)
  }

  /** After each time it admitted the client, the server reported it inactive: it expired or disconnected it. */
  ghost predicate ReportedInactive(w: World, s: string, client: nat)
  {
    Tells(w, s, client) &&
    var history := w.nodes[s].local.history;
    forall k | 0 <= k < |history| && Admits(history[k], client) ::
      exists l | k < l < |history| :: Deactivates(history[l], client)
  }

  /** An admission enters the history together with an open gate. */
  lemma NewAdmissionOpensGate(w: World, step: Step, s: string, client: nat)
    requires Keyed(w) && Admission(w) && Enabled(w, step)
    requires Tells(Do(w, step), s, client) && !Tells(w, s, client)
    ensures Allowed(Do(w, step), s, client)
  {
    if step.At? && step.s == s {
      LocalAdmission(w, s, step.step);
    } else if s in w.nodes {
      LocalUntouched(w, step, s);
    }
  }

  /** An admission on record was, at some earlier moment, an open gate. */
  lemma {:induction false} AdmissionOpenedGate(worlds: seq<World>, steps: seq<Step>, i: nat, s: string, client: nat)
    requires IsRun(worlds, steps) && i < |worlds| && Tells(worlds[i], s, client)
    ensures exists j | 0 <= j <= i :: Allowed(worlds[j], s, client)
  {
    if i > 0 {
      if Tells(worlds[i - 1], s, client) {
        AdmissionOpenedGate(worlds, steps, i - 1, s, client);
      } else {
        GateOpensInRun(worlds, steps, i - 1, s, client);
      }
    }
  }

  lemma GateOpensInRun(worlds: seq<World>, steps: seq<Step>, i: nat, s: string, client: nat)
    requires IsRun(worlds, steps) && i + 1 < |worlds|
    requires !Tells(worlds[i], s, client) && Tells(worlds[i + 1], s, client)
    ensures Allowed(worlds[i + 1], s, client)
  {
    RunAdmission(worlds, steps, i);
    RunKeyed(worlds, steps, i);
    NewAdmissionOpensGate(worlds[i], steps[i], s, client);
  }

  lemma ReportedOrAdmitted(history: seq<Report>, client: nat)
    ensures Admitted(history, client) <==>
            !forall k | 0 <= k < |history| && Admits(history[k], client) ::
               exists l | k < l < |history| :: Deactivates(history[l], client)
  {
  }

  lemma OpenUnlessReported(w: World, s: string, client: nat)
    requires Admission(w) && Tells(w, s, client)
    ensures Allowed(w, s, client) <==> !ReportedInactive(w, s, client)
  {
    assert NodeOk(s, w.nodes[s]);
    ReportedOrAdmitted(w.nodes[s].local.history, client);
  }

  lemma AdmittingServer(w: World, pid: nat) returns (s: string)
    requires Admission(w) && pid in w.procs && w.procs[pid].goal.WaitPrepared? && w.procs[pid].Succeeded()
    ensures var a := w.procs[pid].goal.record;
            && KeyServer(s) == KeyServer(a.serverId) && Tells(w, s, a.clientId)
            && (Allowed(w, s, a.clientId) <==> !ReportedInactive(w, s, a.clientId))
  {
    var a := w.procs[pid].goal.record;
    assert ProcOk(w.nodes, w.procs[pid]);
    s :| s in w.nodes && KeyServer(s) == KeyServer(a.serverId) && EverAdmitted(w.nodes[s].local.history, a.clientId);
    OpenUnlessReported(w, s, a.clientId);
  }

  /**
   End to end: when a wait for preparation has succeeded, some server stored
   under the same key opened its gate to the client earlier; and the gate is
   still open unless that server has reported the client inactive since.
   */
  lemma PreparedMeansAdmitted(worlds: seq<World>, steps: seq<Step>, i: nat, pid: nat)
    requires IsRun(worlds, steps) && i < |worlds|
    requires pid in worlds[i].procs && worlds[i].procs[pid].goal.WaitPrepared? && worlds[i].procs[pid].Succeeded()
    ensures var a := worlds[i].procs[pid].goal.record;
            exists s: string ::
              && KeyServer(s) == KeyServer(a.serverId)
              && (exists j | 0 <= j <= i :: Allowed(worlds[j], s, a.clientId))
              && (Allowed(worlds[i], s, a.clientId) <==> !ReportedInactive(worlds[i], s, a.clientId))
  {
    RunAdmission(worlds, steps, i);
    var s := AdmittingServer(worlds[i], pid);
    AdmissionOpenedGate(worlds, steps, i, s, worlds[i].procs[pid].goal.record.clientId);
  }

  /** With server keys kept apart, the server is the one the assignment names. */
  lemma PreparedMeansAdmittedThere(worlds: seq<World>, steps: seq<Step>, i: nat, pid: nat)
    requires IsRun(worlds, steps) && i < |worlds|
    requires pid in worlds[i].procs && worlds[i].procs[pid].goal.WaitPrepared? && worlds[i].procs[pid].Succeeded()
    requires forall s | s in worlds[i].nodes ::
               KeyServer(s) == KeyServer(worlds[i].procs[pid].goal.record.serverId) ==>
               s == worlds[i].procs[pid].goal.record.serverId
    ensures var a := worlds[i].procs[pid].goal.record;
            && (exists j | 0 <= j <= i :: Allowed(worlds[j], a.serverId, a.clientId))
            && (Allowed(worlds[i], a.serverId, a.clientId) <==> !ReportedInactive(worlds[i], a.serverId, a.clientId))
  {
    RunAdmission(worlds, steps, i);
    var s := AdmittingServer(worlds[i], pid);
    AdmissionOpenedGate(worlds, steps, i, s, worlds[i].procs[pid].goal.record.clientId);
  }

  /** A client that was admitted and is no longer allowed is never allowed again, whatever is polled later. */
  lemma {:induction false} NeverReadmitted(worlds: seq<World>, steps: seq<Step>, i: nat, j: nat, s: string, client: nat)
    requires IsRun(worlds, steps) && i <= j < |worlds|
    requires Tells(worlds[i], s, client) && !Allowed(worlds[i], s, client)
    ensures Tells(worlds[j], s, client) && !Allowed(worlds[j], s, client)
    decreases j
  {
    if i < j {
      NeverReadmitted(worlds, steps, i, j - 1, s, client);
      StaysClosedInRun(worlds, steps, j - 1, s, client);
    }
  }

  lemma StaysClosedInRun(worlds: seq<World>, steps: seq<Step>, i: nat, s: string, client: nat)
    requires IsRun(worlds, steps) && i + 1 < |worlds|
    requires Tells(worlds[i], s, client) && !Allowed(worlds[i], s, client)
    ensures Tells(worlds[i + 1], s, client) && !Allowed(worlds[i + 1], s, client)
  {
    RunAdmission(worlds, steps, i);
    RunKeyed(worlds, steps, i);
    StaysClosed(worlds[i], steps[i], s, client);
  }

  lemma StaysClosed(w: World, step: Step, s: string, client: nat)
    requires Keyed(w) && Admission(w) && Enabled(w, step) && Tells(w, s, client) && !Allowed(w, s, client)
    ensures Tells(Do(w, step), s, client) && !Allowed(Do(w, step), s, client)
  {
    assert NodeOk(s, w.nodes[s]);
    StepAdmission(w, step);
    if step.At? && step.s == s {
      StaysClosedLocally(s, w.nodes[s], step.step, client);
    } else {
      LocalUntouched(w, step, s);
    }
  }

  lemma LocalUntouched(w: World, step: Step, s: string)
    requires Enabled(w, step) && s in w.nodes && !(step.At? && step.s == s)
    ensures s in Do(w, step).nodes && Do(w, step).nodes[s].local == w.nodes[s].local
  {
  }

  lemma StaysClosedLocally(s: string, n: Node, step: LocalStep, client: nat)
    requires NodeOk(s, n) && EverAdmitted(n.local.history, client) && client !in n.local.gate
    requires (step.Take? ==> n.channel != []) && (step.Receive? ==> n.inbox != [])
    ensures client !in NodeStep(n, step).local.gate
  {
    match step
    case Receive(_) => assert n.inbox[0] in n.inbox;
    case ExpireClients(now, timeout) => ExpiryMeans(n.local, now, timeout);
    case _ =>
  }
}

/**
 Agreement of the shared store with the game servers. A server's connection flags
 always follow the reports it has made; and the stored connections, with the
 reports not published yet applied to them, follow those reports too.
 */
module ProtocolReplay {
  import opened Wrappers
  import opened Names
  import opened Records
  import opened Store
  import opened GameServer
  import opened Protocol
  import opened ProtocolSafety
  import opened ProtocolAdmission

  /** The connection report whose store call is next, if any. */
  function InFlight(ops: seq<Op>): seq<Report>
  {
    if ops == [] then []
    else match ops[0]
      case PutActive(c) => [ConnectionReport(c)]
      case DropActive(server, client) => [ConnectionReport(ActiveConnection(server, client, "", false))]
      case _ => []
  }

  /** Everything the server has reported that the store has not applied, oldest first. */
  function Unpublished(n: Node): seq<Report>
  {
    InFlight(n.publishing) + n.channel + n.local.outbox
  }

  predicate Stored(kv: Kv, s: string, client: nat)
  {
    KeyConnection(s, client) in kv.active
  }

  ghost predicate OwnReports(s: string, n: Node)
  {
    && n.local.serverId == s
    && (forall r | r in n.channel + n.local.outbox && r.ConnectionReport? ::
          r.connection.serverId == s)
    && (n.publishing != [] ==>
          (n.publishing[0].PutActive? ==>
             n.publishing[0].connection.serverId == s && n.publishing[0].connection.connected) &&
          (n.publishing[0].DropActive? ==> n.publishing[0].serverId == s))
    && (forall i | 0 < i < |n.publishing| :: !n.publishing[i].TouchesActive())
  }

  /** Stored connections and unpublished reports together amount to all reports ever made. */
  ghost predicate Agrees(kv: Kv, s: string, n: Node)
  {
    forall c: nat :: Replayed(Stored(kv, s, c), Unpublished(n), c) == Replayed(false, n.local.history, c)
  }

  ghost predicate Agreement(w: World)
  {
    forall s | s in w.nodes :: OwnReports(s, w.nodes[s]) && Agrees(w.kv, s, w.nodes[s])
  }

  ghost predicate DistinctServerKeys(nodes: map<string, Node>)
  {
    forall s, t | s in nodes && t in nodes && KeyServer(s) == KeyServer(t) :: s == t
  }

  /** Publishing a connection succeeds, and stored connections do not expire. */
  predicate Reliable(w: World, step: Step)
    requires Enabled(w, step)
  {
    !(step.Age? && step.aging.ExpireActiveKey?) &&
    !(step.BridgeFault? && w.nodes[step.s].publishing[0].TouchesActive())
  }

  // Connection flags.

  ghost predicate FlagsFollow(w: World)
  {
    forall s | s in w.nodes :: ReportsAgree(w.nodes[s].local)
  }

  /** A record from the inbox concerns a client the server has never admitted, hence not a connected one. */
  lemma LocalFlags(s: string, n: Node, step: LocalStep)
    requires ReportsAgree(n.local) && NodeOk(s, n)
    requires (step.Take? ==> n.channel != []) && (step.Receive? ==> n.inbox != [])
    ensures ReportsAgree(NodeStep(n, step).local)
  {
    match step
    case Receive(now) =>
      assert n.inbox[0] in n.inbox;
      assert !n.local.Tracks(n.inbox[0].clientId);
      RegisterKeepsAgreement(n.local, n.inbox[0], now);
    case Announce(ready) =>
      forall c: nat { ReplayedAppend(false, n.local.history, ReadinessReport(n.local.serverId, ready, None), c); }
    case ClientConnects(client) => ConnectKeepsAgreement(n.local, client);
    case ClientDisconnects(client) => DisconnectKeepsAgreement(n.local, client);
    case ExpireClients(now, timeout) => DisconnectAllKeepsAgreement(n.local, StaleClients(n.local, now, timeout));
    case _ =>
  }

  lemma StepFlags(w: World, step: Step)
    requires FlagsFollow(w) && Admission(w) && Enabled(w, step)
    ensures FlagsFollow(Do(w, step))
  {
    KeysKept(w, step);
    forall s | s in w.nodes
      ensures ReportsAgree(Do(w, step).nodes[s].local)
    {
      if step.At? && step.s == s {
        LocalFlags(s, w.nodes[s], step.step);
      } else {
        LocalUntouched(w, step, s);
      }
    }
  }

  /** In every run, with failures of any kind, a client is flagged as connected exactly when its last report says so. */
  lemma {:induction false} FlagsFollowReports(worlds: seq<World>, steps: seq<Step>, i: nat)
    requires IsRun(worlds, steps) && i < |worlds|
    ensures FlagsFollow(worlds[i])
  {
    if i == 0 {
      assert forall s | s in worlds[0].nodes :: worlds[0].nodes[s].local.history == [];
    } else {
      FlagsFollowReports(worlds, steps, i - 1);
      FlagsFollowOneStep(worlds, steps, i - 1);
    }
  }

  lemma FlagsFollowOneStep(worlds: seq<World>, steps: seq<Step>, i: nat)
    requires IsRun(worlds, steps) && i < |steps| && FlagsFollow(worlds[i])
    ensures FlagsFollow(worlds[i + 1])
  {
    RunAdmission(worlds, steps, i);
    StepFlags(worlds[i], steps[i]);
  }

  // Local steps.

  /** The local state has made these further reports, all still in its outbox. */
  ghost predicate Reported(s: string, before: Local, after: Local, reports: seq<Report>)
  {
    && after.serverId == before.serverId
    && after.history == before.history + reports && after.outbox == before.outbox + reports
    && forall r | r in reports && r.ConnectionReport? :: r.connection.serverId == s
  }

  lemma QueuedReports(kv: Kv, s: string, n: Node, m: Node, reports: seq<Report>)
    requires OwnReports(s, n) && Agrees(kv, s, n) && Reported(s, n.local, m.local, reports)
    requires m.publishing == n.publishing && m.channel == n.channel
    ensures OwnReports(s, m) && Agrees(kv, s, m)
  {
    assert m.channel + m.local.outbox == n.channel + n.local.outbox + reports;
    assert Unpublished(m) == Unpublished(n) + reports;
    forall c: nat
      ensures Replayed(Stored(kv, s, c), Unpublished(m), c) == Replayed(false, m.local.history, c)
    {
      ReplayedConcat(Stored(kv, s, c), Unpublished(n), reports, c);
      ReplayedConcat(false, n.local.history, reports, c);
    }
  }

  lemma {:induction false} DisconnectAllReports(s: string, local: Local, clients: seq<nat>)
    returns (reports: seq<Report>)
    requires local.serverId == s
    ensures Reported(s, local, DisconnectAll(local, clients), reports)
  {
    reports := [];
    if clients != [] {
      var init, last := clients[..|clients| - 1], clients[|clients| - 1];
      reports := DisconnectAllReports(s, local, init);
      var before := DisconnectAll(local, init);
      if before.Tracks(last) {
        reports := reports + [Connection(before, last, false)];
      }
    }
  }

  /** What a step other than flushing and taking adds to the reports. */
  lemma LocalReports(s: string, n: Node, step: LocalStep) returns (reports: seq<Report>)
    requires n.local.serverId == s && (step.Receive? ==> n.inbox != []) && !step.Take? && !step.Flush?
    ensures Reported(s, n.local, NodeStep(n, step).local, reports)
  {
    reports := [];
    match step
    case Receive(now) =>
      if n.inbox[0].assignmentId !in n.local.ids {
        reports := [PreparedReport(Accepted(n.inbox[0]))];
      }
    case Announce(ready) => reports := [ReadinessReport(n.local.serverId, ready, None)];
    case ClientConnects(client) =>
      if n.local.Tracks(client) {
        reports := [Connection(n.local, client, true)];
      }
    case ClientDisconnects(client) =>
      if n.local.Tracks(client) {
        reports := [Connection(n.local, client, false)];
      }
    case ExpireClients(now, timeout) =>
      reports := DisconnectAllReports(s, n.local, StaleClients(n.local, now, timeout));
    case Poll(_) =>
  }

  lemma TakenProgram(s: string, n: Node)
    requires OwnReports(s, n) && n.publishing == [] && n.channel != []
    ensures OwnReports(s, NodeStep(n, Take))
  {
    assert n.channel[0] in n.channel + n.local.outbox;
    assert forall r | r in n.channel[1..] + n.local.outbox :: r in n.channel + n.local.outbox;
  }

  lemma TakeAgrees(kv: Kv, s: string, n: Node)
    requires OwnReports(s, n) && Agrees(kv, s, n) && n.publishing == [] && n.channel != []
    ensures OwnReports(s, NodeStep(n, Take)) && Agrees(kv, s, NodeStep(n, Take))
  {
    var m := NodeStep(n, Take);
    var r := n.channel[0];
    var rest := m.channel + m.local.outbox;
    assert n.channel + n.local.outbox == [r] + rest;
    assert Unpublished(n) == [r] + rest && Unpublished(m) == InFlight(ReportProgram(r)) + rest;
    forall c: nat
      ensures Replayed(Stored(kv, s, c), Unpublished(m), c) == Replayed(Stored(kv, s, c), Unpublished(n), c)
    {
      TakenReport(Stored(kv, s, c), r, rest, c);
    }
    TakenProgram(s, n);
  }

  lemma ReplayedCons(stored: bool, report: Report, reports: seq<Report>, client: nat)
    ensures Replayed(stored, [report] + reports, client) == Replayed(Applied(stored, report, client), reports, client)
  {
    assert ([report] + reports)[1..] == reports;
  }

  /** Handing a report to its publication program does not change what will be applied. */
  lemma TakenReport(stored: bool, r: Report, rest: seq<Report>, client: nat)
    ensures Replayed(stored, InFlight(ReportProgram(r)) + rest, client) == Replayed(stored, [r] + rest, client)
  {
    ReplayedCons(stored, r, rest, client);
    if r.ConnectionReport? {
      ReplayedCons(stored, InFlight(ReportProgram(r))[0], rest, client);
    } else {
      assert InFlight(ReportProgram(r)) + rest == rest;
    }
  }

  lemma LocalStepAgrees(kv: Kv, s: string, n: Node, step: LocalStep)
    requires OwnReports(s, n) && Agrees(kv, s, n) && LocalEnabled(kv, s, n, step)
    ensures OwnReports(s, NodeStep(n, step)) && Agrees(kv, s, NodeStep(n, step))
  {
    var m := NodeStep(n, step);
    if step.Take? {
      TakeAgrees(kv, s, n);
    } else if step.Flush? {
      assert Unpublished(m) == Unpublished(n);
      assert n.channel + n.local.outbox == m.channel + m.local.outbox;
    } else {
      var reports := LocalReports(s, n, step);
      QueuedReports(kv, s, n, m, reports);
    }
  }

  // Steps on the store.

  /** A store call that is not about connections leaves the agreement alone. */
  lemma UnrelatedCall(kv: Kv, s: string, n: Node, e: Effect)
    requires OwnReports(s, n) && Agrees(kv, s, n) && n.publishing != [] && !n.publishing[0].TouchesActive()
    requires e.kv.active == kv.active && forall x | x in e.more :: !x.TouchesActive()
    ensures var m := n.(publishing := Continue(e, n.publishing[1..]));
            OwnReports(s, m) && Agrees(e.kv, s, m)
  {
    var m := n.(publishing := Continue(e, n.publishing[1..]));
    assert forall i | 0 <= i < |m.publishing| :: m.publishing[i] in e.more || m.publishing[i] in n.publishing[1..];
    assert forall i | 0 <= i < |m.publishing| :: !m.publishing[i].TouchesActive();
    assert Unpublished(m) == Unpublished(n);
    assert forall c: nat :: Stored(e.kv, s, c) == Stored(kv, s, c);
  }

  /** The call that publishes a connection moves it from the unpublished reports to the store. */
  lemma ConnectionCall(kv: Kv, s: string, n: Node, writer: nat, listed: seq<AssignmentRecord>)
    requires OwnReports(s, n) && Agrees(kv, s, n) && n.publishing != [] && n.publishing[0].TouchesActive()
    ensures var e := Exec(kv, n.publishing[0], writer, listed);
            var m := n.(publishing := Continue(e, n.publishing[1..]));
            OwnReports(s, m) && Agrees(e.kv, s, m)
  {
    var e := Exec(kv, n.publishing[0], writer, listed);
    var m := n.(publishing := Continue(e, n.publishing[1..]));
    var report := InFlight(n.publishing)[0];
    var rest := n.channel + n.local.outbox;
    assert m.publishing == n.publishing[1..];
    assert Unpublished(n) == [report] + rest && Unpublished(m) == rest;
    forall c: nat
      ensures Replayed(Stored(e.kv, s, c), Unpublished(m), c) == Replayed(Stored(kv, s, c), Unpublished(n), c)
    {
      ReplayedCons(Stored(kv, s, c), report, rest, c);
      KeyConnectionDecodes(s, report.connection.clientId, s, c);
      assert Stored(e.kv, s, c) == Applied(Stored(kv, s, c), report, c);
    }
  }

  /** A connection published by one server says nothing about another one. */
  lemma OtherServerUnmoved(kv: Kv, s: string, op: Op, writer: nat, listed: seq<AssignmentRecord>, t: string, m: Node)
    requires op.TouchesActive() && KeyServer(s) != KeyServer(t) && Agrees(kv, t, m)
    requires (op.PutActive? ==> op.connection.serverId == s) && (op.DropActive? ==> op.serverId == s)
    ensures Agrees(Exec(kv, op, writer, listed).kv, t, m)
  {
    var next := Exec(kv, op, writer, listed).kv;
    forall c: nat
      ensures Stored(next, t, c) == Stored(kv, t, c)
    {
      KeyConnectionDecodes(t, c, s, if op.PutActive? then op.connection.clientId else op.client);
    }
  }

  lemma BridgeOpAgreement(w: World, s: string, listed: seq<AssignmentRecord>)
    requires Agreement(w) && Enabled(w, BridgeOp(s, listed)) && DistinctServerKeys(w.nodes)
    ensures Agreement(Do(w, BridgeOp(s, listed)))
  {
    var n := w.nodes[s];
    var op := n.publishing[0];
    var e := Exec(w.kv, op, n.bridge, listed);
    if op.TouchesActive() {
      ConnectionCall(w.kv, s, n, n.bridge, listed);
      forall t | t in w.nodes && t != s
        ensures Agrees(e.kv, t, w.nodes[t])
      {
        OtherServerUnmoved(w.kv, s, op, n.bridge, listed, t, w.nodes[t]);
      }
    } else {
      BridgeCallIsQuiet(w.kv, op, n.bridge, listed);
      UnrelatedCall(w.kv, s, n, e);
      SameConnections(w, e.kv);
    }
  }

  lemma BridgeCallIsQuiet(kv: Kv, op: Op, writer: nat, listed: seq<AssignmentRecord>)
    requires !op.TouchesActive()
    ensures var e := Exec(kv, op, writer, listed);
            e.kv.active == kv.active && forall x | x in e.more :: !x.TouchesActive()
  {
    if !op.PutPrepared? {
      ExecQuiet(kv, op, writer, listed);
    }
  }

  lemma SameConnections(w: World, kv: Kv)
    requires Agreement(w) && kv.active == w.kv.active
    ensures forall s | s in w.nodes :: Agrees(kv, s, w.nodes[s])
  {
    forall s | s in w.nodes
      ensures Agrees(kv, s, w.nodes[s])
    {
      assert Agrees(w.kv, s, w.nodes[s]);
      assert forall c: nat :: Stored(kv, s, c) == Stored(w.kv, s, c);
    }
  }

  lemma BridgeFaultAgreement(w: World, s: string)
    requires Agreement(w) && Enabled(w, BridgeFault(s)) && Reliable(w, BridgeFault(s))
    ensures Agreement(Do(w, BridgeFault(s)))
  {
    UnrelatedCall(w.kv, s, w.nodes[s], Fault(w.kv, w.nodes[s].publishing[0]));
  }

  lemma ProcOpAgreement(w: World, pid: nat, listed: seq<AssignmentRecord>)
    requires Agreement(w) && Admission(w) && Enabled(w, ProcOp(pid, listed))
    ensures Agreement(Do(w, ProcOp(pid, listed)))
  {
    var op := w.procs[pid].pending[0];
    assert ProcOk(w.nodes, w.procs[pid]) && op in w.procs[pid].pending;
    ExecQuiet(w.kv, op, pid, listed);
    SameConnections(w, Exec(w.kv, op, pid, listed).kv);
  }

  lemma LocalAgreement(w: World, s: string, step: LocalStep)
    requires Agreement(w) && Enabled(w, At(s, step))
    ensures Agreement(Do(w, At(s, step)))
  {
    LocalStepAgrees(w.kv, s, w.nodes[s], step);
  }

  lemma AgingAgreement(w: World, aging: Aging)
    requires Agreement(w) && AgingEnabled(w.kv, aging) && !aging.ExpireActiveKey?
    ensures Agreement(w.(kv := AfterAging(w.kv, aging)))
  {
    SameConnections(w, AfterAging(w.kv, aging));
  }

  lemma KeysStayDistinct(w: World, step: Step)
    requires Enabled(w, step)
    ensures DistinctServerKeys(w.nodes) ==> DistinctServerKeys(Do(w, step).nodes)
  {
    KeysKept(w, step);
  }

  lemma StepAgreement(w: World, step: Step)
    requires Agreement(w) && Admission(w) && DistinctServerKeys(w.nodes) && Enabled(w, step) && Reliable(w, step)
    ensures var done := Agreement(Do(w, step)) && DistinctServerKeys(Do(w, step).nodes); done
  {
    KeysKept(w, step);
    KeysStayDistinct(w, step);
    match step
    case Spawn(_, _) =>
    case ProcOp(pid, listed) => ProcOpAgreement(w, pid, listed);
    case ProcFault(_) => SameConnections(w, w.kv);
    case BridgeOp(s, listed) => BridgeOpAgreement(w, s, listed);
    case BridgeFault(s) => BridgeFaultAgreement(w, s);
    case At(s, local) => LocalAgreement(w, s, local);
    case Age(aging) => AgingAgreement(w, aging);
  }

  lemma InitAgreement(w: World)
    requires Init(w)
    ensures Agreement(w)
  {
    forall s | s in w.nodes
      ensures OwnReports(s, w.nodes[s]) && Agrees(w.kv, s, w.nodes[s])
    {
      var n := w.nodes[s];
      assert n.local.serverId == s && n.local.outbox == [] && n.local.history == [];
      assert Unpublished(n) == [];
    }
  }

  ghost predicate ReliableRun(worlds: seq<World>, steps: seq<Step>)
    requires IsRun(worlds, steps)
  {
    DistinctServerKeys(worlds[0].nodes) &&
    forall i {:trigger steps[i]} | 0 <= i < |steps| :: Reliable(worlds[i], steps[i])
  }

  lemma {:induction false} RunAgreement(worlds: seq<World>, steps: seq<Step>, i: nat)
    requires IsRun(worlds, steps) && ReliableRun(worlds, steps) && i < |worlds|
    ensures var done := Agreement(worlds[i]) && DistinctServerKeys(worlds[i].nodes); done
  {
    if i == 0 {
      InitAgreement(worlds[0]);
    } else {
      RunAgreement(worlds, steps, i - 1);
      AgreementOneStep(worlds, steps, i - 1);
    }
  }

  lemma AgreementOneStep(worlds: seq<World>, steps: seq<Step>, i: nat)
    requires IsRun(worlds, steps) && ReliableRun(worlds, steps) && i < |steps|
    requires Agreement(worlds[i]) && DistinctServerKeys(worlds[i].nodes)
    ensures var done := Agreement(worlds[i + 1]) && DistinctServerKeys(worlds[i + 1].nodes); done
  {
    RunAdmission(worlds, steps, i);
    StepAgreement(worlds[i], steps[i]);
  }

  /**
   In every run without lost connection reports, at every moment: a server's
   stored connections, with its unpublished reports applied in order, are
   exactly the clients it tracks as connected.
   */
  lemma StoreAgreesAfterReplay(worlds: seq<World>, steps: seq<Step>, i: nat, s: string, client: nat)
    requires IsRun(worlds, steps) && ReliableRun(worlds, steps) && i < |worlds| && s in worlds[i].nodes
    ensures var n := worlds[i].nodes[s];
            Replayed(Stored(worlds[i].kv, s, client), Unpublished(n), client) <==> n.local.IsConnected(client)
  {
    RunAgreement(worlds, steps, i);
    FlagsFollowReports(worlds, steps, i);
    assert Agrees(worlds[i].kv, s, worlds[i].nodes[s]) && ReportsAgree(worlds[i].nodes[s].local);
  }

  /** Once everything is published, the stored connections of a server are the connected clients. */
  lemma StoreAgreesWhenQuiet(worlds: seq<World>, steps: seq<Step>, i: nat, s: string, client: nat)
    requires IsRun(worlds, steps) && ReliableRun(worlds, steps) && i < |worlds|
    requires s in worlds[i].nodes && Unpublished(worlds[i].nodes[s]) == []
    ensures Stored(worlds[i].kv, s, client) <==> worlds[i].nodes[s].local.IsConnected(client)
  {
    StoreAgreesAfterReplay(worlds, steps, i, s, client);
  }
}

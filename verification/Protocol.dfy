/**
 The coordination protocol as a state machine: matchmaker operations, game
 servers with their bridges, and the shared store, interleaved in any order.
 Every store call is one atomic step.
 */
module Protocol {
  import opened Wrappers
  import opened Names
  import opened Records
  import opened Store
  import opened GameServer

  datatype Index = Index(serverId: string, assignmentId: string)

  datatype Kv = Kv(
    byServer: map<string, Cell>, byClient: map<string, Index>,
    prepared: map<string, AssignmentPrepared>, active: map<string, ActiveConnection>)
  {
    function CellOf(serverId: string): Cell
    {
      var key := KeyServer(serverId);
      if key in byServer then byServer[key] else EMPTY
    }
  }

  // Store operations, cut into atomic calls.

  datatype Draft = Draft(base: Option<nat>, assignments: Assignments)

  datatype Op =
    | UpdateServer(serverId: string, update: Update, attempt: nat, draft: Option<Draft>)
    | PutIndex(client: nat, index: Index)
    | DropIndex(client: nat)
    | FollowIndex(client: nat)
    | PutPrepared(ack: AssignmentPrepared)
    | DropPrepared(assignmentId: string)
    | ProbePrepared(assignmentId: string)
    | ListForCancel(serverId: string)
    | PutActive(connection: ActiveConnection)
    | DropActive(serverId: string, client: nat)
    | AwaitAck(record: AssignmentRecord)
  {
    predicate TouchesActive()
    {
      PutActive? || DropActive?
    }
  }

  function DeleteForServer(serverId: string, assignmentId: string): Op
  {
    UpdateServer(serverId, Remove(assignmentId), 0, None)
  }

  /** What one matchmaker call sets out to do. */
  datatype Goal =
    | Persist(record: AssignmentRecord)
    | Delete(serverId: Option<string>, assignmentId: string, client: nat)
    | DeleteClient(client: nat)
    | DeletePrepared(assignmentId: string)
    | CancelServer(server: string)
    | WaitPrepared(record: AssignmentRecord)

  function IndexOf(a: AssignmentRecord): Op
  {
    PutIndex(a.clientId, Index(a.serverId, a.assignmentId))
  }

  function DeleteClientOps(client: nat): seq<Op>
  {
    [FollowIndex(client), DropIndex(client)]
  }

  function Program(goal: Goal): seq<Op>
  {
    match goal
    case Persist(r) => [UpdateServer(r.serverId, Insert(r), 0, None), IndexOf(r)]
    case Delete(server, id, client) =>
      (if server.Some? then [DeleteForServer(server.value, id)] else []) + [DropIndex(client), DropPrepared(id)]
    case DeleteClient(client) => DeleteClientOps(client)
    case DeletePrepared(id) => [DropPrepared(id)]
    case CancelServer(server) => [ListForCancel(server)]
    case WaitPrepared(r) => [AwaitAck(r)]
  }

  /** Publication of one report; readiness and capacity go to buckets outside this model. */
  function ReportProgram(report: Report): seq<Op>
  {
    match report
    case PreparedReport(ack) =>
      [PutPrepared(ack), DeleteForServer(ack.serverId, ack.assignmentId), DropIndex(ack.clientId)]
    case ConnectionReport(c) =>
      if c.connected then [PutActive(c)] else [DropActive(c.serverId, c.clientId)] + DeleteClientOps(c.clientId)
    case _ => []
  }

  function CancelEach(records: seq<AssignmentRecord>): seq<Op>
  {
    if records == [] then []
    else [DropIndex(records[0].clientId), ProbePrepared(records[0].assignmentId)] + CancelEach(records[1..])
  }

  /** `more` runs before the rest of the caller's program; a failed call abandons that program. */
  datatype Effect = Effect(kv: Kv, more: seq<Op>, failed: bool)

  function NextAttempt(kv: Kv, op: Op): Effect
    requires op.UpdateServer?
  {
    if op.attempt + 1 < MAX_ATTEMPTS then
      Effect(kv, [UpdateServer(op.serverId, op.update, op.attempt + 1, None)], false)
    else Effect(kv, [], true)
  }

  function ExecUpdate(kv: Kv, op: Op, writer: nat): Effect
    requires op.UpdateServer?
  {
    var cell := kv.CellOf(op.serverId);
    if op.draft.None? then
      Effect(kv, [op.(draft := Some(Draft(cell.Revision(), Apply(op.update, cell.Contents()))))], false)
    else if Accepts(cell, op.draft.value.base) then
      Effect(kv.(byServer := kv.byServer[KeyServer(op.serverId) :=
                                           Commit(cell, writer, op.update, op.draft.value.assignments)]), [], false)
    else NextAttempt(kv, op)
  }

  predicate AckMatches(ack: AssignmentPrepared, record: AssignmentRecord)
  {
    ack.serverId == record.serverId && ack.clientId == record.clientId
  }

  function ExecAwait(kv: Kv, op: Op): Effect
    requires op.AwaitAck?
  {
    var key := KeyAssignment(op.record.assignmentId);
    if key in kv.prepared && AckMatches(kv.prepared[key], op.record) then
      Effect(kv, [], !kv.prepared[key].prepared)
    else Effect(kv, [op], false)
  }

  /** `listed` is what a listing call returns. */
  function Exec(kv: Kv, op: Op, writer: nat, listed: seq<AssignmentRecord>): Effect
  {
    match op
    case UpdateServer(_, _, _, _) => ExecUpdate(kv, op, writer)
    case PutIndex(client, index) => Effect(kv.(byClient := kv.byClient[KeyClient(client) := index]), [], false)
    case DropIndex(client) => Effect(kv.(byClient := kv.byClient - {KeyClient(client)}), [], false)
    case FollowIndex(client) =>
      if KeyClient(client) in kv.byClient then
        var index := kv.byClient[KeyClient(client)];
        Effect(kv, [DeleteForServer(index.serverId, index.assignmentId), DropPrepared(index.assignmentId)], false)
      else Effect(kv, [], false)
    case PutPrepared(ack) =>
      Effect(kv.(prepared := kv.prepared[KeyAssignment(ack.assignmentId) := ack]), [], false)
    case DropPrepared(id) => Effect(kv.(prepared := kv.prepared - {KeyAssignment(id)}), [], false)
    case ProbePrepared(id) =>
      Effect(kv, if KeyAssignment(id) in kv.prepared then [DropPrepared(id)] else [], false)
    case ListForCancel(server) =>
      Effect(kv, [UpdateServer(server, Clear, 0, None)] + CancelEach(listed), false)
    case PutActive(c) =>
      Effect(kv.(active := kv.active[KeyConnection(c.serverId, c.clientId) := c]), [], false)
    case DropActive(server, client) =>
      Effect(kv.(active := kv.active - {KeyConnection(server, client)}), [], false)
    case AwaitAck(_) => ExecAwait(kv, op)
  }

  /** An error reply: a refused write counts as a conflict, every other call fails. */
  function Fault(kv: Kv, op: Op): Effect
  {
    if op.UpdateServer? && op.draft.Some? then NextAttempt(kv, op) else Effect(kv, [], true)
  }

  function Continue(effect: Effect, rest: seq<Op>): seq<Op>
  {
    if effect.failed then [] else effect.more + rest
  }

  // The world.

  datatype Proc = Proc(goal: Goal, pending: seq<Op>, failed: bool)
  {
    predicate Succeeded()
    {
      pending == [] && !failed
    }
  }

  /** A game server and its bridge: `inbox` and `channel` are the two queues between them. */
  datatype Node = Node(
    bridge: nat, local: Local, seen: set<nat>, inbox: seq<AssignmentRecord>,
    channel: seq<Report>, publishing: seq<Op>)

  datatype World = World(kv: Kv, nodes: map<string, Node>, procs: map<nat, Proc>)

  /** A step inside one game server or its bridge. */
  datatype LocalStep =
    | Poll(listed: seq<AssignmentRecord>)
    | Take
    | Receive(now: nat)
    | Announce(ready: bool)
    | ClientConnects(client: nat)
    | ClientDisconnects(client: nat)
    | ExpireClients(now: nat, timeout: nat)
    | Flush

  /** What the time-to-live and operators do to a key. */
  datatype Aging =
    | ExpireServerKey(key: string)
    | PurgeServerKey(key: string)
    | ExpireIndexKey(key: string)
    | ExpirePreparedKey(key: string)
    | ExpireActiveKey(key: string)

  datatype Step =
    | Spawn(pid: nat, goal: Goal)
    | ProcOp(pid: nat, listed: seq<AssignmentRecord>)
    | ProcFault(pid: nat)
    | BridgeOp(s: string, listed: seq<AssignmentRecord>)
    | BridgeFault(s: string)
    | At(s: string, step: LocalStep)
    | Age(aging: Aging)

  /** The records currently stored for a server, in some order. */
  predicate Lists(kv: Kv, serverId: string, listed: seq<AssignmentRecord>)
  {
    var contents := kv.CellOf(serverId).Contents();
    (forall r | r in listed :: r.assignmentId in contents && contents[r.assignmentId] == r) &&
    (forall id | id in contents :: contents[id] in listed)
  }

  predicate Enabled(w: World, step: Step)
  {
    match step
    case Spawn(pid, goal) => pid !in w.procs && (goal.Persist? ==> goal.record.Generated())
    case ProcOp(pid, listed) =>
      pid in w.procs && w.procs[pid].pending != [] &&
      (w.procs[pid].pending[0].ListForCancel? ==> Lists(w.kv, w.procs[pid].pending[0].serverId, listed))
    case ProcFault(pid) => pid in w.procs && w.procs[pid].pending != []
    case BridgeOp(s, _) => s in w.nodes && w.nodes[s].publishing != []
    case BridgeFault(s) => s in w.nodes && w.nodes[s].publishing != []
    case At(s, step) => s in w.nodes && LocalEnabled(w.kv, s, w.nodes[s], step)
    case Age(aging) => AgingEnabled(w.kv, aging)
  }

  predicate LocalEnabled(kv: Kv, s: string, n: Node, step: LocalStep)
  {
    match step
    case Poll(listed) => n.publishing == [] && Lists(kv, s, listed)
    case Take => n.publishing == [] && n.channel != []
    case Receive(_) => n.inbox != []
    case _ => true
  }

  predicate AgingEnabled(kv: Kv, aging: Aging)
  {
    aging.ExpireServerKey? || aging.PurgeServerKey? ==> aging.key in kv.byServer
  }

  // What a poll sends on: the first listed record of each client not seen before, in order.

  function ClientsOf(listed: seq<AssignmentRecord>): set<nat>
  {
    set r | r in listed :: r.clientId
  }

  function Unseen(seen: set<nat>, listed: seq<AssignmentRecord>): seq<AssignmentRecord>
  {
    if listed == [] then []
    else
      var before, last := listed[..|listed| - 1], listed[|listed| - 1];
      Unseen(seen, before) + if last.clientId in seen + ClientsOf(before) then [] else [last]
  }

  predicate FirstUnseen(seen: set<nat>, listed: seq<AssignmentRecord>, i: nat)
  {
    i < |listed| && listed[i].clientId !in seen && forall j | 0 <= j < i :: listed[j].clientId != listed[i].clientId
  }

  /** The sent records stand at these positions of the list, in this order. */
  ghost predicate SentFrom(sent: seq<AssignmentRecord>, listed: seq<AssignmentRecord>, positions: seq<nat>)
  {
    && |sent| == |positions|
    && (forall i, j | 0 <= i < j < |positions| :: positions[i] < positions[j])
    && forall k | 0 <= k < |positions| :: positions[k] < |listed| && sent[k] == listed[positions[k]]
  }

  /** Sent are exactly the records at the positions where an unseen client is listed first, in that order. */
  lemma {:induction false} UnseenMeans(seen: set<nat>, listed: seq<AssignmentRecord>) returns (positions: seq<nat>)
    ensures SentFrom(Unseen(seen, listed), listed, positions)
    ensures forall i :: i in positions <==> FirstUnseen(seen, listed, i)
  {
    positions := [];
    if listed != [] {
      var n := |listed| - 1;
      var before := listed[..n];
      assert listed == before + [listed[n]];
      positions := UnseenMeans(seen, before);
      FirstUnseenAmong(seen, listed, n);
      SentFromMore(Unseen(seen, before), before, positions, listed[n]);
      if FirstUnseen(seen, listed, n) {
        positions := positions + [n];
      }
    }
  }

  lemma SentFromMore(sent: seq<AssignmentRecord>, listed: seq<AssignmentRecord>, positions: seq<nat>,
                     r: AssignmentRecord)
    requires SentFrom(sent, listed, positions)
    ensures SentFrom(sent, listed + [r], positions)
    ensures SentFrom(sent + [r], listed + [r], positions + [|listed|])
  {
  }

  lemma FirstUnseenAmong(seen: set<nat>, listed: seq<AssignmentRecord>, n: nat)
    requires n + 1 == |listed|
    ensures forall i: nat | i < n :: FirstUnseen(seen, listed[..n], i) <==> FirstUnseen(seen, listed, i)
    ensures FirstUnseen(seen, listed, n) <==> listed[n].clientId !in seen + ClientsOf(listed[..n])
  {
    assert forall r :: r in listed[..n] <==> exists j :: 0 <= j < n && listed[j] == r;
  }

  /** The records sent are listed ones, of clients that were not seen and are all different. */
  lemma UnseenRecords(seen: set<nat>, listed: seq<AssignmentRecord>)
    ensures forall r | r in Unseen(seen, listed) :: r in listed && r.clientId !in seen
    ensures forall i, j | 0 <= i < j < |Unseen(seen, listed)| ::
              Unseen(seen, listed)[i].clientId != Unseen(seen, listed)[j].clientId
  {
    var positions := UnseenMeans(seen, listed);
    forall k | 0 <= k < |positions|
      ensures FirstUnseen(seen, listed, positions[k])
    {
      assert positions[k] in positions;
    }
  }

  /** The bridge remembers every listed client and forwards the records of those it had not seen. */
  function Forward(n: Node, listed: seq<AssignmentRecord>): Node
  {
    n.(seen := n.seen + ClientsOf(listed), inbox := n.inbox + Unseen(n.seen, listed))
  }

  lemma UnseenNext(seen: set<nat>, listed: seq<AssignmentRecord>, i: nat)
    requires i < |listed|
    ensures ClientsOf(listed[..i + 1]) == ClientsOf(listed[..i]) + {listed[i].clientId}
    ensures Unseen(seen, listed[..i + 1]) ==
            Unseen(seen, listed[..i]) + if listed[i].clientId in seen + ClientsOf(listed[..i]) then [] else [listed[i]]
  {
    assert listed[..i + 1] == listed[..i] + [listed[i]];
    assert listed[..i + 1][..i] == listed[..i];
  }

  /** The bridge's poll: an insertion into the seen set decides what is sent on. */
  class BridgeQueue {
    var seen: set<nat>
    var inbox: seq<AssignmentRecord>

    constructor ()
      ensures seen == {} && inbox == []
    {
      seen, inbox := {}, [];
    }

    method Poll(listed: seq<AssignmentRecord>)
      modifies this
      ensures seen == old(seen) + ClientsOf(listed)
      ensures inbox == old(inbox) + Unseen(old(seen), listed)
    {
      for i := 0 to |listed|
        invariant seen == old(seen) + ClientsOf(listed[..i])
        invariant inbox == old(inbox) + Unseen(old(seen), listed[..i])
      {
        UnseenNext(old(seen), listed, i);
        if listed[i].clientId !in seen {
          seen, inbox := seen + {listed[i].clientId}, inbox + [listed[i]];
        }
      }
      assert listed[..|listed|] == listed;
    }
  }

  function NodeStep(n: Node, step: LocalStep): Node
    requires (step.Take? ==> n.channel != []) && (step.Receive? ==> n.inbox != [])
  {
    match step
    case Poll(listed) => Forward(n, listed)
    case Take => n.(publishing := ReportProgram(n.channel[0]), channel := n.channel[1..])
    case Receive(now) => n.(local := Register(n.local, n.inbox[0], now), inbox := n.inbox[1..])
    case Announce(ready) => n.(local := SetReady(n.local, ready, None))
    case ClientConnects(client) => n.(local := Connect(n.local, client))
    case ClientDisconnects(client) => n.(local := Disconnect(n.local, client))
    case ExpireClients(now, timeout) => n.(local := ExpireUnconnected(n.local, now, timeout))
    case Flush => n.(channel := n.channel + n.local.outbox, local := DrainReports(n.local))
  }

  /** A matchmaker call whose next store call had this effect. */
  function AfterProc(w: World, pid: nat, e: Effect): World
    requires pid in w.procs && w.procs[pid].pending != []
  {
    var p := w.procs[pid];
    w.(kv := e.kv, procs := w.procs[pid := Proc(p.goal, Continue(e, p.pending[1..]), e.failed)])
  }

  /** A bridge publication whose next store call had this effect. */
  function AfterBridge(w: World, s: string, e: Effect): World
    requires s in w.nodes && w.nodes[s].publishing != []
  {
    var n := w.nodes[s];
    w.(kv := e.kv, nodes := w.nodes[s := n.(publishing := Continue(e, n.publishing[1..]))])
  }

  function AfterAging(kv: Kv, aging: Aging): Kv
    requires AgingEnabled(kv, aging)
  {
    match aging
    case ExpireServerKey(key) => kv.(byServer := kv.byServer[key := Drop(kv.byServer[key])])
    case PurgeServerKey(key) => kv.(byServer := kv.byServer[key := Purge(kv.byServer[key])])
    case ExpireIndexKey(key) => kv.(byClient := kv.byClient - {key})
    case ExpirePreparedKey(key) => kv.(prepared := kv.prepared - {key})
    case ExpireActiveKey(key) => kv.(active := kv.active - {key})
  }

  function Do(w: World, step: Step): World
    requires Enabled(w, step)
  {
    match step
    case Spawn(pid, goal) => w.(procs := w.procs[pid := Proc(goal, Program(goal), false)])
    case ProcOp(pid, listed) => AfterProc(w, pid, Exec(w.kv, w.procs[pid].pending[0], pid, listed))
    case ProcFault(pid) => AfterProc(w, pid, Fault(w.kv, w.procs[pid].pending[0]))
    case BridgeOp(s, listed) =>
      AfterBridge(w, s, Exec(w.kv, w.nodes[s].publishing[0], w.nodes[s].bridge, listed))
    case BridgeFault(s) => AfterBridge(w, s, Fault(w.kv, w.nodes[s].publishing[0]))
    case At(s, step) => w.(nodes := w.nodes[s := NodeStep(w.nodes[s], step)])
    case Age(aging) => w.(kv := AfterAging(w.kv, aging))
  }

  ghost predicate Init(w: World)
  {
    w.kv == Kv(map[], map[], map[], map[]) && w.procs == map[] &&
    forall s | s in w.nodes ::
      var n := w.nodes[s];
      n.local == Fresh(s, n.local.capacity) && n.seen == {} && n.inbox == [] && n.channel == [] && n.publishing == []
  }

  ghost predicate IsRun(worlds: seq<World>, steps: seq<Step>)
  {
    |worlds| == |steps| + 1 && Init(worlds[0]) &&
    forall i {:trigger steps[i]} | 0 <= i < |steps| ::
      Enabled(worlds[i], steps[i]) && worlds[i + 1] == Do(worlds[i], steps[i])
  }
}

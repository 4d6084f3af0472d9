/** What every step of every run of the protocol keeps, whatever fails or expires. */
module ProtocolSafety {
  import opened Wrappers
  import opened Names
  import opened Records
  import opened Store
  import opened GameServer
  import opened Protocol

  // 1. Records are stored under the key of their server, indexes name their client.

  ghost predicate RecordUnder(key: string, id: string, r: AssignmentRecord)
  {
    r.assignmentId == id && r.Generated() && KeyServer(r.serverId) == key
  }

  ghost predicate ContentsUnder(key: string, contents: Assignments)
  {
    forall id | id in contents :: RecordUnder(key, id, contents[id])
  }

  ghost predicate NamesClient(assignmentId: string, client: nat)
  {
    exists request :: assignmentId == AssignmentIdOf(request, client)
  }

  lemma NamesOneClient(assignmentId: string, c: nat, d: nat)
    requires NamesClient(assignmentId, c) && NamesClient(assignmentId, d)
    ensures c == d
  {
    var r :| assignmentId == AssignmentIdOf(r, c);
    var q :| assignmentId == AssignmentIdOf(q, d);
    AssignmentIdInjective(r, c, q, d);
  }

  ghost predicate OpKeyed(op: Op)
  {
    match op
    case UpdateServer(s, u, _, d) =>
      (u.Insert? ==> RecordUnder(KeyServer(s), u.record.assignmentId, u.record)) &&
      (d.Some? ==> ContentsUnder(KeyServer(s), d.value.assignments))
    case PutIndex(client, index) => NamesClient(index.assignmentId, client)
    case _ => true
  }

  ghost predicate OpsKeyed(ops: seq<Op>)
  {
    forall op | op in ops :: OpKeyed(op)
  }

  ghost predicate KvKeyed(kv: Kv)
  {
    (forall key | key in kv.byServer :: ContentsUnder(key, kv.byServer[key].Contents())) &&
    (forall c: nat :: KeyClient(c) in kv.byClient ==> NamesClient(kv.byClient[KeyClient(c)].assignmentId, c))
  }

  ghost predicate Keyed(w: World)
  {
    KvKeyed(w.kv) &&
    (forall pid | pid in w.procs :: OpsKeyed(w.procs[pid].pending)) &&
    (forall s | s in w.nodes :: OpsKeyed(w.nodes[s].publishing))
  }

  lemma ApplyUnder(key: string, update: Update, contents: Assignments)
    requires ContentsUnder(key, contents)
    requires update.Insert? ==> RecordUnder(key, update.record.assignmentId, update.record)
    ensures ContentsUnder(key, Apply(update, contents))
  {
  }

  lemma {:induction false} CancelEachKeyed(records: seq<AssignmentRecord>)
    ensures OpsKeyed(CancelEach(records))
  {
    if records != [] {
      CancelEachKeyed(records[1..]);
    }
  }

  lemma UpdateKeyed(kv: Kv, op: Op, writer: nat)
    requires KvKeyed(kv) && op.UpdateServer? && OpKeyed(op)
    ensures KvKeyed(ExecUpdate(kv, op, writer).kv) && OpsKeyed(ExecUpdate(kv, op, writer).more)
  {
    var key := KeyServer(op.serverId);
    assert ContentsUnder(key, kv.CellOf(op.serverId).Contents());
    ApplyUnder(key, op.update, kv.CellOf(op.serverId).Contents());
  }

  lemma ExecKeyed(kv: Kv, op: Op, writer: nat, listed: seq<AssignmentRecord>)
    requires KvKeyed(kv) && OpKeyed(op)
    ensures KvKeyed(Exec(kv, op, writer, listed).kv) && OpsKeyed(Exec(kv, op, writer, listed).more)
  {
    match op
    case UpdateServer(_, _, _, _) => UpdateKeyed(kv, op, writer);
    case PutIndex(_, _) => KeyClientInjective();
    case ListForCancel(_) => CancelEachKeyed(listed);
    case _ =>
  }

  lemma ProgramKeyed(goal: Goal)
    requires goal.Persist? ==> goal.record.Generated()
    ensures OpsKeyed(Program(goal))
  {
    if goal.Persist? {
      var r := goal.record;
      assert r.assignmentId == AssignmentIdOf(r.requestId, r.clientId);
    }
  }

  lemma FaultKeyed(kv: Kv, op: Op)
    requires OpKeyed(op)
    ensures OpsKeyed(Fault(kv, op).more) && Fault(kv, op).kv == kv
  {
  }

  lemma ReportProgramKeyed(report: Report)
    ensures OpsKeyed(ReportProgram(report))
  {
  }

  lemma AfterProcKeyed(w: World, pid: nat, e: Effect)
    requires Keyed(w) && pid in w.procs && w.procs[pid].pending != []
    requires KvKeyed(e.kv) && OpsKeyed(e.more)
    ensures Keyed(AfterProc(w, pid, e))
  {
    var rest := w.procs[pid].pending[1..];
    assert forall op | op in rest :: op in w.procs[pid].pending;
  }

  lemma AfterBridgeKeyed(w: World, s: string, e: Effect)
    requires Keyed(w) && s in w.nodes && w.nodes[s].publishing != []
    requires KvKeyed(e.kv) && OpsKeyed(e.more)
    ensures Keyed(AfterBridge(w, s, e))
  {
    var rest := w.nodes[s].publishing[1..];
    assert forall op | op in rest :: op in w.nodes[s].publishing;
  }

  lemma AgingKeyed(kv: Kv, aging: Aging)
    requires KvKeyed(kv) && AgingEnabled(kv, aging)
    ensures KvKeyed(AfterAging(kv, aging))
  {
    if aging.ExpireServerKey? {
      assert Drop(kv.byServer[aging.key]).Contents() == map[];
    } else if aging.PurgeServerKey? {
      assert Purge(kv.byServer[aging.key]).Contents() == map[];
    }
  }

  lemma StepKeyed(w: World, step: Step)
    requires Keyed(w) && Enabled(w, step)
    ensures Keyed(Do(w, step))
  {
    match step
    case Spawn(pid, goal) =>
      ProgramKeyed(goal);
    case ProcOp(pid, listed) =>
      ExecKeyed(w.kv, w.procs[pid].pending[0], pid, listed);
      AfterProcKeyed(w, pid, Exec(w.kv, w.procs[pid].pending[0], pid, listed));
    case ProcFault(pid) =>
      FaultKeyed(w.kv, w.procs[pid].pending[0]);
      AfterProcKeyed(w, pid, Fault(w.kv, w.procs[pid].pending[0]));
    case BridgeOp(s, listed) =>
      ExecKeyed(w.kv, w.nodes[s].publishing[0], w.nodes[s].bridge, listed);
      AfterBridgeKeyed(w, s, Exec(w.kv, w.nodes[s].publishing[0], w.nodes[s].bridge, listed));
    case BridgeFault(s) =>
      FaultKeyed(w.kv, w.nodes[s].publishing[0]);
      AfterBridgeKeyed(w, s, Fault(w.kv, w.nodes[s].publishing[0]));
    case At(s, local) => LocalStepKeyed(w.nodes[s], local);
    case Age(aging) => AgingKeyed(w.kv, aging);
  }

  lemma LocalStepKeyed(n: Node, step: LocalStep)
    requires OpsKeyed(n.publishing) && NodeStep.requires(n, step)
    ensures OpsKeyed(NodeStep(n, step).publishing)
  {
    if step.Take? {
      ReportProgramKeyed(n.channel[0]);
    }
  }

  lemma KeysKept(w: World, step: Step)
    requires Enabled(w, step)
    ensures Do(w, step).nodes.Keys == w.nodes.Keys
  {
  }

  // What the index resolves to.

  /** Result of the two reads behind a client lookup: the index, then the server's map, possibly much later. */
  function Resolve(atIndex: Kv, atServer: Kv, client: nat): Option<AssignmentRecord>
  {
    if KeyClient(client) !in atIndex.byClient then None
    else
      var index := atIndex.byClient[KeyClient(client)];
      var contents := atServer.CellOf(index.serverId).Contents();
      if index.assignmentId in contents then Some(contents[index.assignmentId]) else None
  }

  /** A client index never resolves to another client's record, whenever the two reads happen. */
  lemma IndexNeverCrosses(first: World, second: World, client: nat)
    requires Keyed(first) && Keyed(second)
    ensures var found := Resolve(first.kv, second.kv, client);
            found.Some? ==> found.value.clientId == client
  {
    var found := Resolve(first.kv, second.kv, client);
    if found.Some? {
      var id := first.kv.byClient[KeyClient(client)].assignmentId;
      var r := found.value;
      assert id == AssignmentIdOf(r.requestId, r.clientId);
      NamesOneClient(id, client, r.clientId);
    }
  }

  lemma InitKeyed(w: World)
    requires Init(w)
    ensures Keyed(w)
  {
  }

  lemma {:induction false} RunKeyed(worlds: seq<World>, steps: seq<Step>, i: nat)
    requires IsRun(worlds, steps) && i < |worlds|
    ensures Keyed(worlds[i])
  {
    if i == 0 {
      InitKeyed(worlds[0]);
    } else {
      RunKeyed(worlds, steps, i - 1);
      StepKeyed(worlds[i - 1], steps[i - 1]);
    }
  }

  /** In every run, at any two moments. */
  lemma IndexNeverCrossesInRuns(worlds: seq<World>, steps: seq<Step>, i: nat, j: nat, client: nat)
    requires IsRun(worlds, steps) && i < |worlds| && j < |worlds|
    ensures var found := Resolve(worlds[i].kv, worlds[j].kv, client);
            found.Some? ==> found.value.clientId == client
  {
    RunKeyed(worlds, steps, i);
    RunKeyed(worlds, steps, j);
    IndexNeverCrosses(worlds[i], worlds[j], client);
  }

  // 2. Compare-and-set: in the whole protocol, too, a key holds the fold of its committed updates.

  ghost predicate DraftsOk(kv: Kv, ops: seq<Op>)
  {
    forall op | op in ops && op.UpdateServer? && op.draft.Some? ::
      DraftOk(kv.CellOf(op.serverId), op.draft.value.base, op.update, op.draft.value.assignments)
  }

  ghost predicate CellsOk(kv: Kv)
  {
    forall key | key in kv.byServer :: CellOk(kv.byServer[key])
  }

  ghost predicate Versioned(w: World)
  {
    CellsOk(w.kv) &&
    (forall pid | pid in w.procs :: DraftsOk(w.kv, w.procs[pid].pending)) &&
    (forall s | s in w.nodes :: DraftsOk(w.kv, w.nodes[s].publishing))
  }

  ghost predicate CellStep(a: Cell, b: Cell)
  {
    a == b || b == Drop(a) || b == Purge(a) || exists w, u, d :: b == Commit(a, w, u, d)
  }

  ghost predicate KvStep(a: Kv, b: Kv)
  {
    forall s: string :: CellStep(a.CellOf(s), b.CellOf(s))
  }

  lemma DraftsSurvive(a: Kv, b: Kv, ops: seq<Op>)
    requires CellsOk(a) && KvStep(a, b) && DraftsOk(a, ops)
    ensures DraftsOk(b, ops)
  {
    forall op | op in ops && op.UpdateServer? && op.draft.Some?
      ensures DraftOk(b.CellOf(op.serverId), op.draft.value.base, op.update, op.draft.value.assignments)
    {
      var x, y := a.CellOf(op.serverId), b.CellOf(op.serverId);
      assert CellOk(x);
      assert CellStep(x, y);
      if x != y {
        DraftSurvives(x, y, op.draft.value.base, op.update, op.draft.value.assignments);
      }
    }
  }

  lemma {:induction false} CancelEachHasNoDrafts(records: seq<AssignmentRecord>)
    ensures forall op | op in CancelEach(records) :: !op.UpdateServer?
  {
    if records != [] {
      CancelEachHasNoDrafts(records[1..]);
    }
  }

  lemma CellSame(a: Kv, b: Kv)
    requires a.byServer == b.byServer
    ensures KvStep(a, b)
  {
  }

  lemma CommitVersioned(kv: Kv, op: Op, writer: nat)
    requires CellsOk(kv) && op.UpdateServer? && DraftsOk(kv, [op])
    requires op.draft.Some? && Accepts(kv.CellOf(op.serverId), op.draft.value.base)
    ensures KvStep(kv, ExecUpdate(kv, op, writer).kv) && CellsOk(ExecUpdate(kv, op, writer).kv)
  {
    var cell, draft := kv.CellOf(op.serverId), op.draft.value;
    var next := ExecUpdate(kv, op, writer).kv;
    assert CellOk(cell);
    assert op in [op];
    CommitIsOnLatest(cell, draft.base, writer, op.update, draft.assignments);
    forall s: string
      ensures CellStep(kv.CellOf(s), next.CellOf(s))
    {
      if KeyServer(s) == KeyServer(op.serverId) {
        assert next.CellOf(s) == Commit(kv.CellOf(s), writer, op.update, draft.assignments);
      }
    }
  }

  lemma ExecVersioned(kv: Kv, op: Op, writer: nat, listed: seq<AssignmentRecord>)
    requires CellsOk(kv) && DraftsOk(kv, [op])
    ensures var e := Exec(kv, op, writer, listed);
            KvStep(kv, e.kv) && CellsOk(e.kv) && DraftsOk(e.kv, e.more)
  {
    var e := Exec(kv, op, writer, listed);
    if op.UpdateServer? && op.draft.Some? && Accepts(kv.CellOf(op.serverId), op.draft.value.base) {
      CommitVersioned(kv, op, writer);
    } else {
      assert e.kv.byServer == kv.byServer;
      CellSame(kv, e.kv);
      if op.ListForCancel? {
        CancelEachHasNoDrafts(listed);
      } else if op.UpdateServer? && op.draft.None? {
        assert CellOk(kv.CellOf(op.serverId));
      }
    }
  }

  lemma AgingVersioned(kv: Kv, aging: Aging)
    requires CellsOk(kv) && AgingEnabled(kv, aging)
    ensures KvStep(kv, AfterAging(kv, aging)) && CellsOk(AfterAging(kv, aging))
  {
    if aging.ExpireServerKey? || aging.PurgeServerKey? {
      DropKeepsOk(kv.byServer[aging.key]);
      assert forall s: string :: CellStep(kv.CellOf(s), AfterAging(kv, aging).CellOf(s));
    } else {
      CellSame(kv, AfterAging(kv, aging));
    }
  }

  lemma OthersSurvive(w: World, kv: Kv)
    requires Versioned(w) && KvStep(w.kv, kv) && CellsOk(kv)
    ensures Versioned(w.(kv := kv))
  {
    forall pid | pid in w.procs
      ensures DraftsOk(kv, w.procs[pid].pending)
    {
      DraftsSurvive(w.kv, kv, w.procs[pid].pending);
    }
    forall s | s in w.nodes
      ensures DraftsOk(kv, w.nodes[s].publishing)
    {
      DraftsSurvive(w.kv, kv, w.nodes[s].publishing);
    }
  }

  lemma AfterProcVersioned(w: World, pid: nat, e: Effect)
    requires Versioned(w) && pid in w.procs && w.procs[pid].pending != []
    requires KvStep(w.kv, e.kv) && CellsOk(e.kv) && DraftsOk(e.kv, e.more)
    ensures Versioned(AfterProc(w, pid, e))
  {
    OthersSurvive(w, e.kv);
    assert forall op | op in w.procs[pid].pending[1..] :: op in w.procs[pid].pending;
  }

  lemma AfterBridgeVersioned(w: World, s: string, e: Effect)
    requires Versioned(w) && s in w.nodes && w.nodes[s].publishing != []
    requires KvStep(w.kv, e.kv) && CellsOk(e.kv) && DraftsOk(e.kv, e.more)
    ensures Versioned(AfterBridge(w, s, e))
  {
    OthersSurvive(w, e.kv);
    assert forall op | op in w.nodes[s].publishing[1..] :: op in w.nodes[s].publishing;
  }

  lemma LocalStepVersioned(w: World, s: string, step: LocalStep)
    requires Versioned(w) && Enabled(w, At(s, step))
    ensures Versioned(Do(w, At(s, step)))
  {
  }

  lemma ProcOpVersioned(w: World, pid: nat, listed: seq<AssignmentRecord>)
    requires Versioned(w) && Enabled(w, ProcOp(pid, listed))
    ensures Versioned(Do(w, ProcOp(pid, listed)))
  {
    var op := w.procs[pid].pending[0];
    ExecVersioned(w.kv, op, pid, listed);
    AfterProcVersioned(w, pid, Exec(w.kv, op, pid, listed));
  }

  lemma ProcFaultVersioned(w: World, pid: nat)
    requires Versioned(w) && Enabled(w, ProcFault(pid))
    ensures Versioned(Do(w, ProcFault(pid)))
  {
    CellSame(w.kv, w.kv);
    AfterProcVersioned(w, pid, Fault(w.kv, w.procs[pid].pending[0]));
  }

  lemma BridgeFaultVersioned(w: World, s: string)
    requires Versioned(w) && Enabled(w, BridgeFault(s))
    ensures Versioned(Do(w, BridgeFault(s)))
  {
    CellSame(w.kv, w.kv);
    AfterBridgeVersioned(w, s, Fault(w.kv, w.nodes[s].publishing[0]));
  }

  lemma BridgeOpVersioned(w: World, s: string, listed: seq<AssignmentRecord>)
    requires Versioned(w) && Enabled(w, BridgeOp(s, listed))
    ensures Versioned(Do(w, BridgeOp(s, listed)))
  {
    var op := w.nodes[s].publishing[0];
    ExecVersioned(w.kv, op, w.nodes[s].bridge, listed);
    AfterBridgeVersioned(w, s, Exec(w.kv, op, w.nodes[s].bridge, listed));
  }

  lemma StepVersioned(w: World, step: Step)
    requires Versioned(w) && Enabled(w, step)
    ensures Versioned(Do(w, step))
  {
    match step
    case Spawn(_, _) =>
    case ProcOp(pid, listed) => ProcOpVersioned(w, pid, listed);
    case ProcFault(pid) => ProcFaultVersioned(w, pid);
    case BridgeOp(s, listed) => BridgeOpVersioned(w, s, listed);
    case BridgeFault(s) => BridgeFaultVersioned(w, s);
    case At(s, local) => LocalStepVersioned(w, s, local);
    case Age(aging) =>
      AgingVersioned(w.kv, aging);
      OthersSurvive(w, AfterAging(w.kv, aging));
  }

  lemma {:induction false} RunVersioned(worlds: seq<World>, steps: seq<Step>, i: nat)
    requires IsRun(worlds, steps) && i < |worlds|
    ensures Versioned(worlds[i])
  {
    if i > 0 {
      RunVersioned(worlds, steps, i - 1);
      StepVersioned(worlds[i - 1], steps[i - 1]);
    }
  }

  /**
   In every run a server's assignments are the fold of the updates committed
   under its key; so an assignment is there exactly when its insert was
   committed and no later commit, expiry or purge discarded it.
   */
  lemma StoredIffCommittedAndKept(worlds: seq<World>, steps: seq<Step>, i: nat, serverId: string, id: string)
    requires IsRun(worlds, steps) && i < |worlds|
    ensures var cell := worlds[i].kv.CellOf(serverId);
            id in cell.Contents() <==> exists k :: InsertedAndKept(cell.log, id, k)
  {
    RunVersioned(worlds, steps, i);
    var cell := worlds[i].kv.CellOf(serverId);
    assert CellOk(cell);
    PresentIff(cell.log, id);
  }
}

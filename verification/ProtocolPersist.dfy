/**
 What a successful persist guarantees: its insert was committed once, and as long as the
 client index names the assignment, the client's lookup finds it unless the insert
 was discarded again.
 */
module ProtocolPersist {
  import opened Wrappers
  import opened Names
  import opened Records
  import opened Store
  import opened GameServer
  import opened Protocol
  import opened ProtocolSafety

  predicate Inserting(op: Op, a: AssignmentRecord)
  {
    op.UpdateServer? && op.serverId == a.serverId && op.update == Insert(a)
  }

  /** How often the call has committed its insert of the record. */
  function CommitCount(kv: Kv, pid: nat, a: AssignmentRecord): nat
  {
    multiset(kv.CellOf(a.serverId).log)[Committed(pid, Insert(a))]
  }

  /** No call among these inserts. */
  predicate InsertsNothing(ops: seq<Op>)
  {
    forall op | op in ops :: op.UpdateServer? ==> !op.update.Insert?
  }

  /** A persist is still inserting, or has committed its insert once, or has failed; no other call inserts. */
  ghost predicate PersistOk(kv: Kv, pid: nat, p: Proc)
  {
    if !p.goal.Persist? then InsertsNothing(p.pending)
    else
      var a := p.goal.record;
      if p.failed then p.pending == [] && CommitCount(kv, pid, a) <= 1
      else
        (StillInserting(p) && CommitCount(kv, pid, a) == 0) ||
        ((p.pending == [IndexOf(a)] || p.pending == []) && CommitCount(kv, pid, a) == 1)
  }

  predicate StillInserting(p: Proc)
  {
    p.goal.Persist? && |p.pending| == 2 &&
    Inserting(p.pending[0], p.goal.record) && p.pending[1] == IndexOf(p.goal.record)
  }

  ghost predicate Persisting(w: World)
  {
    && (forall pid | pid in w.procs :: PersistOk(w.kv, pid, w.procs[pid]))
    && (forall pid: nat, a | pid !in w.procs :: CommitCount(w.kv, pid, a) == 0)
    && forall s | s in w.nodes :: InsertsNothing(w.nodes[s].publishing)
  }

  // What one store call adds to the count.

  predicate Commits(kv: Kv, op: Op)
  {
    op.UpdateServer? && op.draft.Some? && Accepts(kv.CellOf(op.serverId), op.draft.value.base)
  }

  lemma ExecCount(kv: Kv, op: Op, writer: nat, listed: seq<AssignmentRecord>, pid: nat, a: AssignmentRecord)
    ensures var own := Commits(kv, op) && writer == pid && op.update == Insert(a) &&
                       KeyServer(op.serverId) == KeyServer(a.serverId);
            CommitCount(Exec(kv, op, writer, listed).kv, pid, a) == CommitCount(kv, pid, a) + if own then 1 else 0
  {
  }

  lemma AgingCount(kv: Kv, aging: Aging, pid: nat, a: AssignmentRecord)
    requires AgingEnabled(kv, aging)
    ensures CommitCount(AfterAging(kv, aging), pid, a) == CommitCount(kv, pid, a)
  {
  }

  lemma {:induction false} CancelEachInsertsNothing(records: seq<AssignmentRecord>)
    ensures InsertsNothing(CancelEach(records))
  {
    if records != [] {
      CancelEachInsertsNothing(records[1..]);
    }
  }

  lemma CallInsertsNothing(kv: Kv, op: Op, writer: nat, listed: seq<AssignmentRecord>)
    requires InsertsNothing([op])
    ensures InsertsNothing(Exec(kv, op, writer, listed).more) && InsertsNothing(Fault(kv, op).more)
  {
    assert op in [op];
    CancelEachInsertsNothing(listed);
  }

  /** The call that inserts either leaves the insert to be done, or has committed it, or fails. */
  lemma InsertCall(kv: Kv, op: Op, a: AssignmentRecord, writer: nat, listed: seq<AssignmentRecord>)
    requires Inserting(op, a)
    ensures var e := Exec(kv, op, writer, listed);
            if Commits(kv, op) then e.more == [] && !e.failed
            else if e.failed then e.more == []
            else |e.more| == 1 && Inserting(e.more[0], a)
    ensures var e := Fault(kv, op);
            if e.failed then e.more == [] else |e.more| == 1 && Inserting(e.more[0], a)
  {
  }

  lemma InsertingCall(kv: Kv, pid: nat, p: Proc, e: Effect, listed: seq<AssignmentRecord>)
    requires PersistOk(kv, pid, p) && StillInserting(p)
    requires e == Exec(kv, p.pending[0], pid, listed) || e == Fault(kv, p.pending[0])
    ensures var done := PersistOk(e.kv, pid, Proc(p.goal, Continue(e, p.pending[1..]), e.failed)); done
    ensures e.failed ==> CommitCount(e.kv, pid, p.goal.record) == 0
  {
    ExecCount(kv, p.pending[0], pid, listed, pid, p.goal.record);
    InsertCall(kv, p.pending[0], p.goal.record, pid, listed);
    assert p.pending[1..] == [IndexOf(p.goal.record)];
  }

  lemma IndexCall(kv: Kv, pid: nat, p: Proc, e: Effect, listed: seq<AssignmentRecord>)
    requires PersistOk(kv, pid, p) && p.goal.Persist? && p.pending == [IndexOf(p.goal.record)]
    requires e == Exec(kv, p.pending[0], pid, listed) || e == Fault(kv, p.pending[0])
    ensures PersistOk(e.kv, pid, Proc(p.goal, Continue(e, p.pending[1..]), e.failed))
  {
    assert e.kv.byServer == kv.byServer && e.more == [] && Continue(e, p.pending[1..]) == [];
  }

  /** A step of the call itself, or an error reply to it. */
  lemma PersistCall(kv: Kv, pid: nat, p: Proc, e: Effect, listed: seq<AssignmentRecord>)
    requires PersistOk(kv, pid, p) && p.pending != []
    requires e == Exec(kv, p.pending[0], pid, listed) || e == Fault(kv, p.pending[0])
    ensures var done := PersistOk(e.kv, pid, Proc(p.goal, Continue(e, p.pending[1..]), e.failed)); done
  {
    if !p.goal.Persist? {
      assert p.pending[0] in p.pending;
      CallInsertsNothing(kv, p.pending[0], pid, listed);
    } else if StillInserting(p) {
      InsertingCall(kv, pid, p, e, listed);
    } else {
      IndexCall(kv, pid, p, e, listed);
    }
  }

  // Steps.

  /** Only a persist that is still inserting, in a step of its own, can add to its count. */
  lemma StepCount(w: World, step: Step, pid: nat, a: AssignmentRecord)
    requires Persisting(w) && Enabled(w, step)
    requires !(step.ProcOp? && step.pid == pid && StillInserting(w.procs[pid]))
    ensures CommitCount(Do(w, step).kv, pid, a) == CommitCount(w.kv, pid, a)
  {
    match step
    case ProcOp(p, listed) =>
      ExecCount(w.kv, w.procs[p].pending[0], p, listed, pid, a);
      assert w.procs[p].pending[0] in w.procs[p].pending && PersistOk(w.kv, p, w.procs[p]);
    case BridgeOp(s, listed) =>
      ExecCount(w.kv, w.nodes[s].publishing[0], w.nodes[s].bridge, listed, pid, a);
      assert w.nodes[s].publishing[0] in w.nodes[s].publishing;
    case Age(aging) => AgingCount(w.kv, aging, pid, a);
    case _ =>
  }

  lemma StepPersistOk(w: World, step: Step, pid: nat)
    requires Persisting(w) && Enabled(w, step) && pid in Do(w, step).procs
    ensures PersistOk(Do(w, step).kv, pid, Do(w, step).procs[pid])
  {
    match step
    case ProcOp(p, listed) =>
      if p == pid {
        PersistCall(w.kv, p, w.procs[p], Exec(w.kv, w.procs[p].pending[0], p, listed), listed);
      } else {
        UntouchedPersistOk(w, step, pid);
      }
    case ProcFault(p) =>
      if p == pid {
        PersistCall(w.kv, p, w.procs[p], Fault(w.kv, w.procs[p].pending[0]), []);
      } else {
        UntouchedPersistOk(w, step, pid);
      }
    case Spawn(p, goal) =>
      if p != pid {
        UntouchedPersistOk(w, step, pid);
      }
    case _ => UntouchedPersistOk(w, step, pid);
  }

  lemma UntouchedPersistOk(w: World, step: Step, pid: nat)
    requires Persisting(w) && Enabled(w, step)
    requires pid in w.procs && pid in Do(w, step).procs && Do(w, step).procs[pid] == w.procs[pid]
    requires !(step.ProcOp? && step.pid == pid)
    ensures PersistOk(Do(w, step).kv, pid, w.procs[pid])
  {
    if w.procs[pid].goal.Persist? {
      StepCount(w, step, pid, w.procs[pid].goal.record);
    }
  }

  lemma BridgesInsertNothing(w: World, step: Step)
    requires Persisting(w) && Enabled(w, step)
    ensures forall s | s in Do(w, step).nodes :: InsertsNothing(Do(w, step).nodes[s].publishing)
  {
    if step.BridgeOp? || step.BridgeFault? {
      var ops := w.nodes[step.s].publishing;
      assert ops[0] in ops;
      CallInsertsNothing(w.kv, ops[0], w.nodes[step.s].bridge, if step.BridgeOp? then step.listed else []);
    }
  }

  lemma StepPersisting(w: World, step: Step)
    requires Persisting(w) && Enabled(w, step)
    ensures var done := Persisting(Do(w, step)); done
  {
    var next := Do(w, step);
    forall pid | pid in next.procs
      ensures PersistOk(next.kv, pid, next.procs[pid])
    {
      StepPersistOk(w, step, pid);
    }
    forall pid: nat, a | pid !in next.procs
      ensures CommitCount(next.kv, pid, a) == 0
    {
      StepCount(w, step, pid, a);
    }
    BridgesInsertNothing(w, step);
  }

  lemma {:induction false} RunPersisting(worlds: seq<World>, steps: seq<Step>, i: nat)
    requires IsRun(worlds, steps) && i < |worlds|
    ensures var done := Persisting(worlds[i]); done
  {
    if i == 0 {
      InitPersisting(worlds[0]);
    } else {
      RunPersisting(worlds, steps, i - 1);
      PersistingOneStep(worlds, steps, i - 1);
    }
  }

  lemma InitPersisting(w: World)
    requires Init(w)
    ensures Persisting(w)
  {
  }

  lemma PersistingOneStep(worlds: seq<World>, steps: seq<Step>, i: nat)
    requires IsRun(worlds, steps) && i < |steps| && Persisting(worlds[i])
    ensures var done := Persisting(worlds[i + 1]); done
  {
    StepPersisting(worlds[i], steps[i]);
  }

  /** A successful persist has committed its insert, under the server's key, exactly once. */
  lemma PersistedMeansCommitted(worlds: seq<World>, steps: seq<Step>, i: nat, pid: nat)
    requires IsRun(worlds, steps) && i < |worlds|
    requires pid in worlds[i].procs && worlds[i].procs[pid].goal.Persist? && worlds[i].procs[pid].Succeeded()
    ensures CommitCount(worlds[i].kv, pid, worlds[i].procs[pid].goal.record) == 1
  {
    RunPersisting(worlds, steps, i);
    assert PersistOk(worlds[i].kv, pid, worlds[i].procs[pid]);
  }

  lemma StaysFailed(w: World, step: Step, pid: nat, a: AssignmentRecord)
    requires Persisting(w) && Enabled(w, step)
    requires pid in w.procs && w.procs[pid] == Proc(Persist(a), [], true)
    ensures pid in Do(w, step).procs && Do(w, step).procs[pid] == w.procs[pid]
    ensures CommitCount(Do(w, step).kv, pid, a) == CommitCount(w.kv, pid, a)
  {
    StepCount(w, step, pid, a);
  }

  /** A persist whose insert fails has committed nothing, then or later. */
  lemma {:induction false} FailedMeansUncommitted(worlds: seq<World>, steps: seq<Step>, i: nat, j: nat, pid: nat)
    requires IsRun(worlds, steps) && i < j < |worlds|
    requires pid in worlds[i].procs && StillInserting(worlds[i].procs[pid])
    requires pid in worlds[i + 1].procs && worlds[i + 1].procs[pid].failed
    ensures var a := worlds[i].procs[pid].goal.record;
            && pid in worlds[j].procs && worlds[j].procs[pid] == Proc(Persist(a), [], true)
            && CommitCount(worlds[j].kv, pid, a) == 0
    decreases j
  {
    RunPersisting(worlds, steps, j - 1);
    if i + 1 < j {
      FailedMeansUncommitted(worlds, steps, i, j - 1, pid);
      StaysFailed(worlds[j - 1], steps[j - 1], pid, worlds[i].procs[pid].goal.record);
    } else {
      FailedStep(worlds[i], steps[i], pid);
    }
  }

  lemma FailedStep(w: World, step: Step, pid: nat)
    requires Persisting(w) && Enabled(w, step) && pid in w.procs && StillInserting(w.procs[pid])
    requires pid in Do(w, step).procs && Do(w, step).procs[pid].failed
    ensures var a := w.procs[pid].goal.record;
            && Do(w, step).procs[pid] == Proc(Persist(a), [], true)
            && CommitCount(Do(w, step).kv, pid, a) == 0
  {
    var p := w.procs[pid];
    assert PersistOk(w.kv, pid, p) && !p.failed;
    if step.ProcOp? {
      InsertingCall(w.kv, pid, p, Exec(w.kv, p.pending[0], pid, step.listed), step.listed);
    } else {
      InsertingCall(w.kv, pid, p, Fault(w.kv, p.pending[0]), []);
    }
  }

  /** Every insert of the id was followed by a remove of it, a clear, an expiry or a purge. */
  ghost predicate AllDiscarded(log: seq<Change>, id: string)
  {
    forall k | 0 <= k < |log| && Inserts(log[k], id) :: exists j | k < j < |log| :: Discards(log[j], id)
  }

  /**
   After a successful persist, while the client index names the assignment: the
   client's lookup comes back empty exactly when every insert of the id, of which
   there is at least one, has been discarded again; otherwise it yields an
   assignment of that id for that client.
   */
  lemma PersistedMeansFound(worlds: seq<World>, steps: seq<Step>, i: nat, pid: nat)
    requires IsRun(worlds, steps) && i < |worlds|
    requires pid in worlds[i].procs && worlds[i].procs[pid].goal.Persist? && worlds[i].procs[pid].Succeeded()
    requires var a := worlds[i].procs[pid].goal.record;
             KeyClient(a.clientId) in worlds[i].kv.byClient &&
             worlds[i].kv.byClient[KeyClient(a.clientId)] == Index(a.serverId, a.assignmentId)
    ensures var a, kv := worlds[i].procs[pid].goal.record, worlds[i].kv;
            var log, found := kv.CellOf(a.serverId).log, Resolve(kv, kv, a.clientId);
            && (exists k | 0 <= k < |log| :: log[k] == Committed(pid, Insert(a)))
            && (found == None <==> AllDiscarded(log, a.assignmentId))
            && (found.Some? ==> found.value.assignmentId == a.assignmentId && found.value.clientId == a.clientId)
  {
    var a, kv := worlds[i].procs[pid].goal.record, worlds[i].kv;
    PersistedMeansCommitted(worlds, steps, i, pid);
    StoredIffCommittedAndKept(worlds, steps, i, a.serverId, a.assignmentId);
    IndexNeverCrossesInRuns(worlds, steps, i, i, a.clientId);
    FoundIsNamed(worlds, steps, i, a);
    KeptOrDiscarded(kv.CellOf(a.serverId).log, a.assignmentId);
  }

  lemma KeptOrDiscarded(log: seq<Change>, id: string)
    ensures AllDiscarded(log, id) <==> !exists k :: InsertedAndKept(log, id, k)
  {
    forall k: nat | k < |log| && Inserts(log[k], id) && !exists j | k < j < |log| :: Discards(log[j], id)
      ensures InsertedAndKept(log, id, k)
    {
    }
  }

  lemma FoundIsNamed(worlds: seq<World>, steps: seq<Step>, i: nat, a: AssignmentRecord)
    requires IsRun(worlds, steps) && i < |worlds|
    ensures var contents := worlds[i].kv.CellOf(a.serverId).Contents();
            a.assignmentId in contents ==> contents[a.assignmentId].assignmentId == a.assignmentId
  {
    RunKeyed(worlds, steps, i);
  }
}

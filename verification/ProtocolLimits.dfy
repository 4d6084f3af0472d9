/** Where the guarantees of the protocol stop: concrete runs that show each limit. */
module ProtocolLimits {
  import opened Wrappers
  import opened Names
  import opened Provider
  import opened Records
  import opened Store
  import opened GameServer
  import opened Protocol
  import opened ProtocolSafety
  import opened ProtocolAdmission

  function Last<T>(s: seq<T>): T
    requires s != []
  {
    s[|s| - 1]
  }

  ghost predicate Reaches(worlds: seq<World>, steps: seq<Step>, w: World)
  {
    IsRun(worlds, steps) && Last(worlds) == w
  }

  lemma Extend(worlds: seq<World>, steps: seq<Step>, step: Step) returns (worlds': seq<World>, steps': seq<Step>)
    requires IsRun(worlds, steps) && Enabled(Last(worlds), step)
    ensures Reaches(worlds', steps', Do(Last(worlds), step)) && worlds <= worlds'
  {
    worlds', steps' := worlds + [Do(Last(worlds), step)], steps + [step];
    forall i | 0 <= i < |steps'|
      ensures Enabled(worlds'[i], steps'[i]) && worlds'[i + 1] == Do(worlds'[i], steps'[i])
    {
      if i < |steps| {
        assert worlds'[i] == worlds[i] && worlds'[i + 1] == worlds[i + 1] && steps'[i] == steps[i];
      }
    }
  }

  lemma PersistCalls(kv: Kv, a: AssignmentRecord)
    requires kv.CellOf(a.serverId) == EMPTY
    ensures var read := Exec(kv, Program(Persist(a))[0], 0, []);
            var committed := Exec(kv, read.more[0], 0, []);
            && read.kv == kv && |read.more| == 1 && !read.failed
            && committed.more == [] && !committed.failed
            && committed.kv.CellOf(a.serverId).entry.Some? && committed.kv.CellOf(a.serverId).entry.value.Put?
            && committed.kv.CellOf(a.serverId).Contents() == map[a.assignmentId := a]
            && committed.kv.byClient == kv.byClient && committed.kv.prepared == kv.prepared
  {
    var read := Exec(kv, Program(Persist(a))[0], 0, []);
    assert read.more == [UpdateServer(a.serverId, Insert(a), 0, Some(Draft(None, map[a.assignmentId := a])))];
  }

  /** Persisting starts: the record is committed, the client index is not written yet. */
  lemma Committing(w0: World, a: AssignmentRecord) returns (worlds: seq<World>, steps: seq<Step>)
    requires Init(w0) && a.Generated()
    ensures IsRun(worlds, steps) && worlds[0] == w0
    ensures var w := Last(worlds);
            && w.nodes == w0.nodes
            && w.procs == map[0 := Proc(Persist(a), [IndexOf(a)], false)]
            && w.kv.CellOf(a.serverId).entry.Some? && w.kv.CellOf(a.serverId).entry.value.Put?
            && w.kv.CellOf(a.serverId).Contents() == map[a.assignmentId := a]
            && w.kv.byClient == map[] && w.kv.prepared == map[]
  {
    PersistCalls(w0.kv, a);
    var read := Exec(w0.kv, Program(Persist(a))[0], 0, []);
    worlds, steps := [w0], [];
    worlds, steps := Extend(worlds, steps, Spawn(0, Persist(a)));
    assert Last(worlds) == w0.(procs := map[0 := Proc(Persist(a), Program(Persist(a)), false)]);
    worlds, steps := Extend(worlds, steps, ProcOp(0, []));
    assert Program(Persist(a))[1..] == [IndexOf(a)];
    assert Last(worlds) == w0.(procs := map[0 := Proc(Persist(a), read.more + [IndexOf(a)], false)]);
    worlds, steps := Extend(worlds, steps, ProcOp(0, []));
    assert (read.more + [IndexOf(a)])[0] == read.more[0];
    assert (read.more + [IndexOf(a)])[1..] == [IndexOf(a)];
    assert Continue(Exec(w0.kv, read.more[0], 0, []), [IndexOf(a)]) == [IndexOf(a)];
  }

  /** A server that has done nothing yet. */
  predicate Idle(t: string, n: Node)
  {
    n.local == Fresh(t, n.local.capacity) && n.seen == {} && n.inbox == [] && n.channel == [] && n.publishing == []
  }

  function Publishing(n: Node, a: AssignmentRecord): Node
  {
    n.(local := DrainReports(Register(n.local, a, 0)), seen := {a.clientId}, inbox := [], channel := [],
       publishing := ReportProgram(PreparedReport(Accepted(a))))
  }

  /** From the poll that delivers a record to the start of its publication. */
  lemma NodeJourney(t: string, n: Node, a: AssignmentRecord)
    requires Idle(t, n)
    ensures var polled := NodeStep(n, Poll([a]));
            polled.publishing == [] && polled.inbox == [a] &&
            var received := NodeStep(polled, Receive(0));
            received.publishing == [] &&
            var flushed := NodeStep(received, Flush);
            flushed.publishing == [] && flushed.channel == [PreparedReport(Accepted(a))] &&
            NodeStep(flushed, Take) == Publishing(n, a)
  {
    assert [a][..0] == [] && Unseen({}, [a]) == [a] && ClientsOf([a]) == {a.clientId};
    var polled := NodeStep(n, Poll([a]));
    assert polled == n.(seen := {a.clientId}, inbox := [a]);
    var received := NodeStep(polled, Receive(0));
    assert [a][1..] == [];
    assert received == n.(local := Register(n.local, a, 0), seen := {a.clientId}, inbox := []);
    assert received.local.outbox == [PreparedReport(Accepted(a))];
    var flushed := NodeStep(received, Flush);
    assert flushed.channel == [PreparedReport(Accepted(a))];
    assert flushed.channel[1..] == [];
  }

  function WithNode(w: World, t: string, n: Node): World
  {
    w.(nodes := w.nodes[t := n])
  }

  /** The idle server polls the record, registers it and starts to publish its acknowledgement. */
  lemma Delivering(w: World, t: string, a: AssignmentRecord, worlds0: seq<World>, steps0: seq<Step>)
    returns (worlds: seq<World>, steps: seq<Step>)
    requires Reaches(worlds0, steps0, w) && t in w.nodes && Idle(t, w.nodes[t]) && Lists(w.kv, t, [a])
    ensures Reaches(worlds, steps, WithNode(w, t, Publishing(w.nodes[t], a))) && worlds0 <= worlds
  {
    var n := w.nodes[t];
    NodeJourney(t, n, a);
    var polled := NodeStep(n, Poll([a]));
    var received := NodeStep(polled, Receive(0));
    var flushed := NodeStep(received, Flush);
    worlds, steps := LocalStepInRun(w, t, n, Poll([a]), worlds0, steps0);
    worlds, steps := LocalStepInRun(w, t, polled, Receive(0), worlds, steps);
    worlds, steps := LocalStepInRun(w, t, received, Flush, worlds, steps);
    worlds, steps := LocalStepInRun(w, t, flushed, Take, worlds, steps);
  }

  lemma LocalStepInRun(w: World, t: string, n: Node, step: LocalStep, worlds0: seq<World>, steps0: seq<Step>)
    returns (worlds: seq<World>, steps: seq<Step>)
    requires t in w.nodes && Reaches(worlds0, steps0, WithNode(w, t, n)) && LocalEnabled(w.kv, t, n, step)
    ensures Reaches(worlds, steps, WithNode(w, t, NodeStep(n, step))) && worlds0 <= worlds
  {
    worlds, steps := Extend(worlds0, steps0, At(t, step));
    assert w.nodes[t := n][t := NodeStep(n, step)] == w.nodes[t := NodeStep(n, step)];
  }

  /**
   Two servers whose ids share a store key break the end-to-end guarantee, whatever
   other servers there are: the wait for an assignment of one succeeds although only
   the other, to which the store hands the record, ever admits the client.
   */
  lemma SharedKeyBreaksAdmission(w0: World, a: AssignmentRecord, t: string)
    returns (worlds: seq<World>, steps: seq<Step>)
    requires Init(w0) && a.Generated() && t in w0.nodes
    requires a.serverId != t && KeyServer(a.serverId) == KeyServer(t)
    ensures IsRun(worlds, steps) && worlds[0] == w0
    ensures var w := Last(worlds);
            && 1 in w.procs && w.procs[1].goal == WaitPrepared(a) && w.procs[1].Succeeded()
            && !Tells(w, a.serverId, a.clientId)
            && forall j | 0 <= j < |worlds| :: !Allowed(worlds[j], a.serverId, a.clientId)
  {
    worlds, steps := Committing(w0, a);
    var w := Last(worlds);
    assert w.kv.CellOf(t) == w.kv.CellOf(a.serverId);
    worlds, steps := Delivering(w, t, a, worlds, steps);
    worlds, steps := Acknowledging(Last(worlds), t, a, worlds, steps);
    forall j | 0 <= j < |worlds|
      ensures !Allowed(worlds[j], a.serverId, a.clientId)
    {
      if Allowed(worlds[j], a.serverId, a.clientId) {
        AllowedIsTold(worlds, steps, j, a.serverId, a.clientId);
        ToldForGood(worlds, steps, j, |worlds| - 1, a.serverId, a.clientId);
      }
    }
  }

  lemma AllowedIsTold(worlds: seq<World>, steps: seq<Step>, i: nat, s: string, client: nat)
    requires IsRun(worlds, steps) && i < |worlds| && Allowed(worlds[i], s, client)
    ensures Tells(worlds[i], s, client)
  {
    RunAdmission(worlds, steps, i);
    assert NodeOk(s, worlds[i].nodes[s]);
    assert Admitted(worlds[i].nodes[s].local.history, client);
  }

  lemma {:induction false} ToldForGood(worlds: seq<World>, steps: seq<Step>, i: nat, j: nat, s: string, client: nat)
    requires IsRun(worlds, steps) && i <= j < |worlds| && Tells(worlds[i], s, client)
    ensures Tells(worlds[j], s, client)
    decreases j
  {
    if i < j {
      ToldForGood(worlds, steps, i, j - 1, s, client);
      ToldOneStep(worlds, steps, j - 1, s, client);
    }
  }

  lemma ToldOneStep(worlds: seq<World>, steps: seq<Step>, i: nat, s: string, client: nat)
    requires IsRun(worlds, steps) && i < |steps| && Tells(worlds[i], s, client)
    ensures Tells(worlds[i + 1], s, client)
  {
    RunAdmission(worlds, steps, i);
    AdmissionOneStep(worlds, steps, i);
  }

  lemma Acknowledging(w: World, t: string, a: AssignmentRecord, worlds0: seq<World>, steps0: seq<Step>)
    returns (worlds: seq<World>, steps: seq<Step>)
    requires Reaches(worlds0, steps0, w) && t in w.nodes && 1 !in w.procs
    requires w.nodes[t].publishing == ReportProgram(PreparedReport(Accepted(a)))
    ensures IsRun(worlds, steps) && worlds0 <= worlds
    ensures Last(worlds).nodes.Keys == w.nodes.Keys
    ensures forall s | s in w.nodes && s != t :: Last(worlds).nodes[s] == w.nodes[s]
    ensures 1 in Last(worlds).procs && Last(worlds).procs[1] == Proc(WaitPrepared(a), [], false)
  {
    worlds, steps := Extend(worlds0, steps0, BridgeOp(t, []));
    var published := Last(worlds);
    assert published.procs == w.procs && published.nodes.Keys == w.nodes.Keys;
    assert KeyAssignment(a.assignmentId) in published.kv.prepared &&
           published.kv.prepared[KeyAssignment(a.assignmentId)] == Accepted(a);
    worlds, steps := Extend(worlds, steps, Spawn(1, WaitPrepared(a)));
    assert Last(worlds) == published.(procs := w.procs[1 := Proc(WaitPrepared(a), [AwaitAck(a)], false)]);
    assert [AwaitAck(a)][1..] == [];
    worlds, steps := Extend(worlds, steps, ProcOp(1, []));
  }

  /** The set of servers never changes in a run. */
  lemma {:induction false} NodesFixed(worlds: seq<World>, steps: seq<Step>, i: nat)
    requires IsRun(worlds, steps) && i < |worlds|
    ensures worlds[i].nodes.Keys == worlds[0].nodes.Keys
  {
    if i > 0 {
      NodesFixed(worlds, steps, i - 1);
      KeysKept(worlds[i - 1], steps[i - 1]);
    }
  }

  /** In every run from these servers, a wait for the assignment succeeds only if its server admitted the client. */
  ghost predicate WaitIsSafe(w0: World, a: AssignmentRecord)
  {
    forall worlds, steps, pid |
      && IsRun(worlds, steps) && worlds[0] == w0
      && pid in Last(worlds).procs && Last(worlds).procs[pid].goal == WaitPrepared(a)
      && Last(worlds).procs[pid].Succeeded() ::
      exists j | 0 <= j < |worlds| :: Allowed(worlds[j], a.serverId, a.clientId)
  }

  /** Waiting is safe exactly when no other server shares the named server's key. */
  lemma WaitIsSafeIff(w0: World, a: AssignmentRecord)
    requires Init(w0) && a.Generated()
    ensures WaitIsSafe(w0, a) <==>
            forall t | t in w0.nodes && KeyServer(t) == KeyServer(a.serverId) :: t == a.serverId
  {
    if t :| t in w0.nodes && KeyServer(t) == KeyServer(a.serverId) && t != a.serverId {
      var worlds, steps := SharedKeyBreaksAdmission(w0, a, t);
    } else {
      forall worlds, steps, pid |
        && IsRun(worlds, steps) && worlds[0] == w0
        && pid in Last(worlds).procs && Last(worlds).procs[pid].goal == WaitPrepared(a)
        && Last(worlds).procs[pid].Succeeded()
        ensures exists j | 0 <= j < |worlds| :: Allowed(worlds[j], a.serverId, a.clientId)
      {
        NodesFixed(worlds, steps, |worlds| - 1);
        PreparedMeansAdmittedThere(worlds, steps, |worlds| - 1, pid);
      }
    }
  }

  /**
   The two writes behind persisting are not atomic: a cancellation between them
   leaves a client index that resolves to nothing.
   */
  lemma IndexCanDangle(w0: World, a: AssignmentRecord) returns (worlds: seq<World>, steps: seq<Step>)
    requires Init(w0) && a.Generated()
    ensures IsRun(worlds, steps)
    ensures var w := Last(worlds);
            0 in w.procs && w.procs[0].goal == Persist(a) && w.procs[0].Succeeded() &&
            KeyClient(a.clientId) in w.kv.byClient && Resolve(w.kv, w.kv, a.clientId) == None
  {
    worlds, steps := Committing(w0, a);
    worlds, steps := Cancelling(Last(worlds), a, worlds, steps);
    var w := Last(worlds);
    assert w.procs[0].pending == [IndexOf(a)];
    worlds, steps := Extend(worlds, steps, ProcOp(0, []));
  }

  lemma CancelCalls(kv: Kv, a: AssignmentRecord)
    requires kv.CellOf(a.serverId).entry.Some? && kv.CellOf(a.serverId).entry.value.Put?
    ensures var listed := Exec(kv, ListForCancel(a.serverId), 1, [a]);
            var clear := UpdateServer(a.serverId, Clear, 0, None);
            var cleared := [clear, DropIndex(a.clientId), ProbePrepared(a.assignmentId)];
            var read := Exec(kv, cleared[0], 1, []);
            && listed == Effect(kv, cleared, false)
            && read.kv == kv && |read.more| == 1 && !read.failed
            && Exec(kv, read.more[0], 1, []).kv.CellOf(a.serverId).Contents() == map[]
            && !Exec(kv, read.more[0], 1, []).failed
  {
    assert [a][1..] == [];
    assert CancelEach([a]) == [DropIndex(a.clientId), ProbePrepared(a.assignmentId)];
    var read := Exec(kv, UpdateServer(a.serverId, Clear, 0, None), 1, []);
    assert read.more == [UpdateServer(a.serverId, Clear, 0, Some(Draft(kv.CellOf(a.serverId).Revision(), map[])))];
  }

  lemma Cancelling(w: World, a: AssignmentRecord, worlds0: seq<World>, steps0: seq<Step>)
    returns (worlds: seq<World>, steps: seq<Step>)
    requires Reaches(worlds0, steps0, w) && 1 !in w.procs && 0 in w.procs
    requires w.kv.CellOf(a.serverId).entry.Some? && w.kv.CellOf(a.serverId).entry.value.Put?
    requires w.kv.CellOf(a.serverId).Contents() == map[a.assignmentId := a]
    ensures IsRun(worlds, steps)
    ensures 0 in Last(worlds).procs && Last(worlds).procs[0] == w.procs[0]
    ensures Last(worlds).kv.CellOf(a.serverId).Contents() == map[]
  {
    CancelCalls(w.kv, a);
    var cleared := [UpdateServer(a.serverId, Clear, 0, None), DropIndex(a.clientId), ProbePrepared(a.assignmentId)];
    var read := Exec(w.kv, cleared[0], 1, []);
    var goal := CancelServer(a.serverId);
    worlds, steps := Extend(worlds0, steps0, Spawn(1, goal));
    assert Last(worlds) == w.(procs := w.procs[1 := Proc(goal, [ListForCancel(a.serverId)], false)]);
    worlds, steps := Extend(worlds, steps, ProcOp(1, [a]));
    assert [ListForCancel(a.serverId)][1..] == [] && cleared + [] == cleared;
    assert Last(worlds) == w.(procs := w.procs[1 := Proc(goal, cleared, false)]);
    worlds, steps := Extend(worlds, steps, ProcOp(1, []));
    assert Last(worlds) == w.(procs := w.procs[1 := Proc(goal, read.more + cleared[1..], false)]);
    worlds, steps := Extend(worlds, steps, ProcOp(1, []));
  }
}

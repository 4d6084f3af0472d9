/**
 The worker that carries out queued cleanup. The stream delivers each message
 again until it is acknowledged or its delivery budget is spent, in any order
 across messages.
 */
module Lifecycle {
  import opened Wrappers
  import opened States
  import opened Names
  import opened Records
  import opened Store
  import opened Protocol
  import opened StoreCalls

  datatype Work =
    | Unreadable
    | ReleaseAllocation(allocationId: string)
    | DeleteAssignment(serverId: Option<string>, assignmentId: string, client: nat)

  datatype Logged = Logged(from: WorkState, to: WorkState)

  /**
   A queued message: how often it was delivered up to its end, how many of these
   deliveries failed, where it stands, and what the worker logged about them. The
   worker acknowledges a message when it reaches a terminal state. Copies that the
   stream sent meanwhile, because processing took longer than it waits, are processed
   all the same; `late` says how many.
   */
  datatype Job = Job(work: Work, delivered: nat, failed: nat, fate: WorkState, log: seq<Logged>, late: nat)
  {
    function Deliveries(): nat
    {
      delivered + late
    }
  }

  predicate Deliverable(job: Job, maxDeliver: nat)
  {
    job.Deliveries() < maxDeliver
  }

  /** One delivery of a message whose processing succeeds or not. */
  function Deliver(job: Job, ok: bool, maxDeliver: nat): Job
  {
    var n := job.delivered + 1;
    if job.fate.IsTerminal() then job.(late := job.late + 1)
    else if job.work.Unreadable? then job.(delivered := n, fate := Dropped)
    else
      var to := if ok then Succeeded else if n >= maxDeliver then DeadLettered else Retrying;
      Job(job.work, n, job.failed + Bit(!ok), to, job.log + [Logged(Queued, Processing), Logged(Processing, to)], 0)
  }

  function Bit(b: bool): nat
  {
    if b then 1 else 0
  }

  /**
   What holds of every job: one that waits still has deliveries left, so none is
   abandoned, and one that ended succeeded, failed its last delivery, or could not
   be read.
   */
  predicate StandingOk(job: Job, maxDeliver: nat)
  {
    match job.fate
    case Queued => job.delivered == job.failed == 0
    case Retrying => !job.work.Unreadable? && 0 < job.delivered == job.failed < maxDeliver
    case Succeeded => !job.work.Unreadable? && job.delivered == job.failed + 1 <= maxDeliver
    case DeadLettered => !job.work.Unreadable? && job.delivered == job.failed == maxDeliver
    case Dropped => job.work.Unreadable? && job.delivered == 1 && job.failed == 0
    case Processing => false
  }

  /** Each readable delivery was logged as picked up from the queue, then as failed, but for the last one. */
  predicate LogOk(job: Job)
  {
    && |job.log| == 2 * (if job.work.Unreadable? then 0 else job.delivered)
    && (forall i | 0 <= i < |job.log| && i % 2 == 0 :: job.log[i] == Logged(Queued, Processing))
    && (forall i | 0 <= i < |job.log| - 1 && i % 2 == 1 :: job.log[i] == Logged(Processing, Retrying))
    && (job.log != [] ==> job.log[|job.log| - 1] == Logged(Processing, job.fate))
  }

  /** Late copies come after the end and within the budget. */
  predicate LateOk(job: Job, maxDeliver: nat)
  {
    if job.fate.IsTerminal() then job.late == 0 || job.Deliveries() <= maxDeliver else job.late == 0
  }

  predicate JobOk(job: Job, maxDeliver: nat)
  {
    StandingOk(job, maxDeliver) && LateOk(job, maxDeliver) && LogOk(job)
  }

  lemma DeliverKeepsOk(job: Job, ok: bool, maxDeliver: nat)
    requires JobOk(job, maxDeliver) && Deliverable(job, maxDeliver)
    ensures JobOk(Deliver(job, ok, maxDeliver), maxDeliver)
  {
    DeliverKeepsStanding(job, ok, maxDeliver);
    DeliverKeepsLog(job, ok, maxDeliver);
  }

  lemma DeliverKeepsStanding(job: Job, ok: bool, maxDeliver: nat)
    requires StandingOk(job, maxDeliver) && LateOk(job, maxDeliver) && Deliverable(job, maxDeliver)
    ensures var next := Deliver(job, ok, maxDeliver); StandingOk(next, maxDeliver) && LateOk(next, maxDeliver)
  {
  }

  lemma DeliverKeepsLog(job: Job, ok: bool, maxDeliver: nat)
    requires LogOk(job) && StandingOk(job, maxDeliver)
    ensures LogOk(Deliver(job, ok, maxDeliver))
  {
  }

  // Counting.

  datatype Counters = Counters(
    received: nat, invalid: nat, succeeded: nat, failed: nat, deadLettered: nat, released: nat, deleted: nat)
  {
    function Plus(c: Counters): Counters
    {
      Counters(received + c.received, invalid + c.invalid, succeeded + c.succeeded, failed + c.failed,
               deadLettered + c.deadLettered, released + c.released, deleted + c.deleted)
    }

    predicate IsSum(a: Counters, b: Counters)
    {
      && received == a.received + b.received && invalid == a.invalid + b.invalid
      && succeeded == a.succeeded + b.succeeded && failed == a.failed + b.failed
      && deadLettered == a.deadLettered + b.deadLettered
      && released == a.released + b.released && deleted == a.deleted + b.deleted
    }

    /** Between messages, every delivery is accounted for once, and the retry count in a snapshot never saturates. */
    predicate Balanced()
    {
      && received == invalid + succeeded + failed
      && succeeded == released + deleted
      && deadLettered <= failed
    }
  }

  const ZERO := Counters(0, 0, 0, 0, 0, 0, 0)

  /** What the deliveries up to its end contribute to the counters. */
  function CountsOf(job: Job): Counters
  {
    var done := job.fate == Succeeded;
    Counters(job.delivered, Bit(job.fate == Dropped), Bit(done), job.failed, Bit(job.fate == DeadLettered),
             Bit(done && job.work.ReleaseAllocation?), Bit(done && job.work.DeleteAssignment?))
  }

  function Total(jobs: seq<Job>): Counters
  {
    if jobs == [] then ZERO else Total(jobs[..|jobs| - 1]).Plus(CountsOf(jobs[|jobs| - 1]))
  }

  function Sum(counts: seq<Counters>): Counters
  {
    if counts == [] then ZERO else Sum(counts[..|counts| - 1]).Plus(counts[|counts| - 1])
  }

  lemma {:induction false} SumBalances(counts: seq<Counters>)
    requires forall c | c in counts :: c.Balanced()
    ensures Sum(counts).Balanced()
  {
    if counts != [] {
      SumBalances(counts[..|counts| - 1]);
      assert counts[|counts| - 1].Balanced();
    }
  }

  lemma PlusCommutes(a: Counters, b: Counters, c: Counters)
    ensures a.Plus(b).Plus(c) == a.Plus(c).Plus(b)
  {
  }

  /** Changing one job changes the totals by what that job contributes. */
  lemma {:induction false} TotalUpdate(jobs: seq<Job>, i: nat, job: Job) returns (others: Counters)
    requires i < |jobs|
    ensures Total(jobs) == others.Plus(CountsOf(jobs[i]))
    ensures Total(jobs[i := job]) == others.Plus(CountsOf(job))
  {
    var init, last := jobs[..|jobs| - 1], jobs[|jobs| - 1];
    if i == |jobs| - 1 {
      assert jobs[i := job][..|jobs| - 1] == init;
      others := Total(init);
    } else {
      var among := TotalUpdate(init, i, job);
      others := among.Plus(CountsOf(last));
      PlusCommutes(among, CountsOf(last), CountsOf(jobs[i]));
      PlusCommutes(among, CountsOf(last), CountsOf(job));
      assert jobs[i := job] == init[i := job] + [last];
      assert jobs[i := job][..|jobs| - 1] == init[i := job];
    }
  }

  lemma {:induction false} TotalBalance(jobs: seq<Job>, maxDeliver: nat)
    requires maxDeliver >= 1 && forall job | job in jobs :: JobOk(job, maxDeliver)
    ensures Total(jobs).Balanced()
  {
    if jobs != [] {
      TotalBalance(jobs[..|jobs| - 1], maxDeliver);
      assert JobOk(jobs[|jobs| - 1], maxDeliver);
    }
  }

  /** What one delivery adds. */
  function Added(work: Work, ok: bool, exhausted: bool): Counters
  {
    if work.Unreadable? then Counters(1, 1, 0, 0, 0, 0, 0)
    else if ok then Counters(1, 0, 1, 0, 0, Bit(work.ReleaseAllocation?), Bit(work.DeleteAssignment?))
    else Counters(1, 0, 0, 1, Bit(exhausted), 0, 0)
  }

  lemma DeliverCounts(job: Job, ok: bool, maxDeliver: nat)
    requires !job.fate.IsTerminal()
    ensures CountsOf(Deliver(job, ok, maxDeliver)) ==
            CountsOf(job).Plus(Added(job.work, ok, job.delivered + 1 >= maxDeliver))
  {
  }

  /** What each counter counts. */
  lemma AddedMeans(work: Work, ok: bool, exhausted: bool)
    ensures var c, readable := Added(work, ok, exhausted), !work.Unreadable?;
            && c.received == 1 && c.invalid == (if readable then 0 else 1)
            && c.succeeded == (if readable && ok then 1 else 0) && c.failed == (if readable && !ok then 1 else 0)
            && c.deadLettered == (if readable && !ok && exhausted then 1 else 0)
            && c.released == (if work.ReleaseAllocation? && ok then 1 else 0)
            && c.deleted == (if work.DeleteAssignment? && ok then 1 else 0)
  {
  }

  /** A delivery keeps every job in order. */
  lemma DeliverAmong(jobs: seq<Job>, i: nat, ok: bool, maxDeliver: nat)
    requires i < |jobs| && Deliverable(jobs[i], maxDeliver) && forall job | job in jobs :: JobOk(job, maxDeliver)
    ensures forall job | job in jobs[i := Deliver(jobs[i], ok, maxDeliver)] :: JobOk(job, maxDeliver)
  {
    DeliverKeepsOk(jobs[i], ok, maxDeliver);
  }

  lemma AddedBalances(work: Work, ok: bool, exhausted: bool)
    ensures Added(work, ok, exhausted).Balanced()
  {
  }

  /** A delivery adds to the totals what it should, to those of late deliveries if it comes after the end. */
  lemma DeliverTotals(jobs: seq<Job>, i: nat, ok: bool, maxDeliver: nat, late: seq<Counters>, metrics: Counters)
    returns (late': seq<Counters>)
    requires i < |jobs| && LateOk(jobs[i], maxDeliver) && metrics.IsSum(Total(jobs), Sum(late))
    requires forall c | c in late :: c.Balanced()
    ensures forall c | c in late' :: c.Balanced()
    ensures var added := Added(jobs[i].work, ok, jobs[i].Deliveries() + 1 >= maxDeliver);
            metrics.Plus(added).IsSum(Total(jobs[i := Deliver(jobs[i], ok, maxDeliver)]), Sum(late'))
  {
    var job, next := jobs[i], Deliver(jobs[i], ok, maxDeliver);
    var added := Added(job.work, ok, job.Deliveries() + 1 >= maxDeliver);
    var others := TotalUpdate(jobs, i, next);
    if job.fate.IsTerminal() {
      late' := late + [added];
      assert late'[..|late|] == late;
      assert CountsOf(next) == CountsOf(job);
      AddedBalances(job.work, ok, job.Deliveries() + 1 >= maxDeliver);
    } else {
      late' := late;
      DeliverCounts(job, ok, maxDeliver);
    }
  }

  // The worker.

  function Occurrences(schedule: seq<nat>, i: nat): nat
  {
    if schedule == [] then 0
    else Occurrences(schedule[..|schedule| - 1], i) + Bit(i == schedule[|schedule| - 1])
  }

  /** Deliveries after the schedule named the message so many times. */
  function Reached(before: nat, named: nat, maxDeliver: nat): nat
  {
    if before + named <= maxDeliver then before + named else if before <= maxDeliver then maxDeliver else before
  }

  /** The jobs after the schedule, each received as often as it was named and its budget allows. */
  ghost predicate WorkedThrough(before: seq<Job>, schedule: seq<nat>, maxDeliver: nat, after: seq<Job>)
  {
    && |after| == |before|
    && forall i | 0 <= i < |after| ::
         && after[i].work == before[i].work
         && after[i].Deliveries() == Reached(before[i].Deliveries(), Occurrences(schedule, i), maxDeliver)
  }

  lemma NamedOnceMore(schedule: seq<nat>, i: nat, k: nat)
    ensures Occurrences(schedule + [i], k) == Occurrences(schedule, k) + Bit(k == i)
  {
    assert (schedule + [i])[..|schedule|] == schedule;
  }

  lemma WorkedThroughNext(before: seq<Job>, schedule: seq<nat>, maxDeliver: nat, between: seq<Job>, i: nat,
                          after: seq<Job>)
    requires WorkedThrough(before, schedule, maxDeliver, between) && |after| == |between|
    requires forall k | 0 <= k < |after| && k != i :: after[k] == between[k]
    requires i < |after| ==> after[i].work == between[i].work
    requires i < |after| ==> after[i].Deliveries() == Reached(between[i].Deliveries(), 1, maxDeliver)
    ensures WorkedThrough(before, schedule + [i], maxDeliver, after)
  {
    forall k | 0 <= k < |after|
      ensures after[k].work == before[k].work
      ensures after[k].Deliveries() ==
              Reached(before[k].Deliveries(), Occurrences(schedule + [i], k), maxDeliver)
    {
      NamedOnceMore(schedule, i, k);
    }
  }

  class Worker {
    const maxDeliver: nat
    var jobs: seq<Job>
    var received: nat
    var invalid: nat
    var succeeded: nat
    var failed: nat
    var deadLettered: nat
    var released: nat
    var deleted: nat

    /** What each late delivery has added to the counters. */
    ghost var late: seq<Counters>

    function Metrics(): Counters
      reads this
    {
      Counters(received, invalid, succeeded, failed, deadLettered, released, deleted)
    }

    ghost predicate Valid()
      reads this
    {
      && maxDeliver >= 1 && (forall job | job in jobs :: JobOk(job, maxDeliver))
      && Metrics().IsSum(Total(jobs), Sum(late)) && forall c | c in late :: c.Balanced()
    }

    constructor (configured: nat)
      ensures Valid() && jobs == [] && maxDeliver == if configured < 1 then 1 else configured
    {
      maxDeliver := if configured < 1 then 1 else configured;
      jobs, late := [], [];
      received, invalid, succeeded, failed, deadLettered, released, deleted := 0, 0, 0, 0, 0, 0, 0;
    }

    method Enqueue(work: Work)
      requires Valid()
      modifies this
      ensures Valid() && jobs == old(jobs) + [Job(work, 0, 0, Queued, [], 0)]
    {
      var job := Job(work, 0, 0, Queued, [], 0);
      assert (jobs + [job])[..|jobs|] == jobs;
      jobs := jobs + [job];
    }

    /** Counts one delivery. */
    method CountDelivery(work: Work, ok: bool, exhausted: bool)
      modifies `received, `invalid, `succeeded, `failed, `deadLettered, `released, `deleted
      ensures Metrics() == old(Metrics()).Plus(Added(work, ok, exhausted))
    {
      received := received + 1;
      if work.Unreadable? {
        invalid := invalid + 1;
      } else if ok {
        succeeded := succeeded + 1;
        if work.ReleaseAllocation? {
          released := released + 1;
        } else {
          deleted := deleted + 1;
        }
      } else {
        failed := failed + 1;
        if exhausted {
          deadLettered := deadLettered + 1;
        }
      }
    }

    /** One message from the stream. */
    method Receive(i: nat, ok: bool)
      requires Valid() && i < |jobs| && Deliverable(jobs[i], maxDeliver)
      modifies this
      ensures Valid() && jobs == old(jobs)[i := Deliver(old(jobs)[i], ok, maxDeliver)]
      ensures Metrics() == old(Metrics()).Plus(Added(jobs[i].work, ok, old(jobs)[i].Deliveries() + 1 >= maxDeliver))
    {
      var job := jobs[i];
      assert job in jobs;
      DeliverAmong(jobs, i, ok, maxDeliver);
      late := DeliverTotals(jobs, i, ok, maxDeliver, late, Metrics());
      CountDelivery(job.work, ok, job.Deliveries() + 1 >= maxDeliver);
      jobs := jobs[i := Deliver(job, ok, maxDeliver)];
    }

    /** The next message that comes up is received, unless its budget is spent. */
    method TakeUp(ghost before: seq<Job>, ghost schedule: seq<nat>, i: nat)
      requires Valid() && WorkedThrough(before, schedule, maxDeliver, jobs)
      modifies this
      ensures Valid() && WorkedThrough(before, schedule + [i], maxDeliver, jobs)
    {
      ghost var between := jobs;
      if i < |jobs| {
        assert jobs[i] in jobs;
        if Deliverable(jobs[i], maxDeliver) {
          var ok: bool := *;
          Receive(i, ok);
        }
      }
      WorkedThroughNext(before, schedule, maxDeliver, between, i, jobs);
    }

    /**
     Works through any delivery schedule, whatever the stream sends again; it sends no
     message more often than its budget allows. Every message is received each time the
     schedule names it, up to that budget.
     */
    method Run(schedule: seq<nat>)
      requires Valid()
      modifies this
      ensures Valid() && WorkedThrough(old(jobs), schedule, maxDeliver, jobs)
    {
      var n := 0;
      while n < |schedule|
        invariant 0 <= n <= |schedule| && Valid() && WorkedThrough(old(jobs), schedule[..n], maxDeliver, jobs)
      {
        TakeUp(old(jobs), schedule[..n], schedule[n]);
        TakeNext(schedule, n);
        n := n + 1;
      }
      assert schedule[..n] == schedule;
    }
  }

  lemma CountersBalance(worker: Worker)
    requires worker.Valid()
    ensures worker.Metrics().Balanced()
  {
    TotalBalance(worker.jobs, worker.maxDeliver);
    SumBalances(worker.late);
  }

  /** A job ends, in exactly one way, by the time it was delivered as often as its budget allows. */
  lemma EveryJobEnds(job: Job, maxDeliver: nat)
    requires JobOk(job, maxDeliver) && maxDeliver >= 1
    ensures job.Deliveries() <= maxDeliver
    ensures job.Deliveries() == maxDeliver ==> job.fate.IsTerminal()
    ensures var c := CountsOf(job); c.invalid + c.succeeded + c.deadLettered == Bit(job.fate.IsTerminal())
    ensures job.fate == DeadLettered <==> CountsOf(job).failed == maxDeliver
    ensures job.fate == DeadLettered ==> job.late == 0
  {
  }

  // Logged states.

  predicate Contiguous(log: seq<Logged>)
  {
    (log != [] ==> log[0].from == Queued) && forall i | 0 < i < |log| :: log[i].from == log[i - 1].to
  }

  /** The states as logged, taking a redelivery to start from where the last delivery left off. */
  function Reread(log: seq<Logged>): (chain: seq<WorkState>)
    ensures |chain| == |log| + 1
  {
    [Queued] + seq(|log|, i requires 0 <= i < |log| => log[i].to)
  }

  predicate LegalWork(chain: seq<WorkState>)
  {
    forall i | 0 < i < |chain| :: chain[i - 1] != chain[i] && chain[i - 1].CanTransitionTo(chain[i])
  }

  /**
   The worker logs every delivery as starting from `Queued`, so the log of a job is
   unbroken exactly when it was delivered at most once. Read with redelivery as a
   step from `Retrying` to `Processing`, every job follows the state machine, and
   the state machine allows no step from `Retrying` back to `Queued`.
   */
  lemma LoggedChain(job: Job, maxDeliver: nat)
    requires JobOk(job, maxDeliver) && maxDeliver >= 1
    ensures Contiguous(job.log) <==> job.delivered <= 1
    ensures LegalWork(Reread(job.log))
    ensures !job.work.Unreadable? ==> Reread(job.log)[|job.log|] == job.fate
    ensures !Retrying.CanTransitionTo(Queued)
  {
    if job.delivered > 1 {
      assert job.log[2].from == Queued && job.log[1].to == Retrying;
    }
    forall i | 0 < i < |Reread(job.log)|
      ensures var chain := Reread(job.log); chain[i - 1] != chain[i] && chain[i - 1].CanTransitionTo(chain[i])
    {
      assert i > 1 ==> Reread(job.log)[i - 1] == job.log[i - 2].to;
      assert Reread(job.log)[i] == job.log[i - 1].to;
    }
    assert job.log != [] ==> Reread(job.log)[|job.log|] == job.log[|job.log| - 1].to;
  }

  // Deleting twice.

  function DeletionOf(work: Work): Goal
    requires work.DeleteAssignment?
  {
    Delete(work.serverId, work.assignmentId, work.client)
  }

  /** The first `calls` of the calls that delete one assignment, without other writers. */
  function AfterDelete(kv: Kv, work: Work, calls: nat): Kv
    requires work.DeleteAssignment? && calls <= |Program(DeletionOf(work))|
  {
    AfterCalls(kv, Program(DeletionOf(work))[..calls])
  }

  /** A delete job that failed part-way or was delivered again leaves the store as one full run does. */
  lemma DeleteAgain(kv: Kv, work: Work, calls: nat)
    requires work.DeleteAssignment? && calls <= |Program(DeletionOf(work))|
    ensures var all := |Program(DeletionOf(work))|;
            SameValues(AfterDelete(AfterDelete(kv, work, calls), work, all), AfterDelete(kv, work, all))
  {
    var program := Program(DeletionOf(work));
    assert program[..|program|] == program;
    var _, _, _ := DeletePart(kv, DeletionOf(work), calls);
    DeleteMeans(kv, DeletionOf(work));
    DeleteMeans(AfterDelete(kv, work, calls), DeletionOf(work));
  }

  // Erasing at once what failed.

  /** The calls that erase a failed assignment at once, without other writers. */
  function AfterErase(kv: Kv, a: AssignmentRecord): Kv
  {
    AfterCalls(AfterCalls(kv, Program(DeleteClient(a.clientId))), Program(DeletePrepared(a.assignmentId)))
  }

  /** It takes the record exactly when the client's index names it; index and acknowledgement go anyway. */
  lemma EraseMeans(kv: Kv, a: AssignmentRecord)
    ensures var after := AfterErase(kv, a);
            && (a.assignmentId in after.CellOf(a.serverId).Contents() <==>
                a.assignmentId in kv.CellOf(a.serverId).Contents() &&
                !IndexNames(kv, a.clientId, a.serverId, a.assignmentId))
            && KeyClient(a.clientId) !in after.byClient && KeyAssignment(a.assignmentId) !in after.prepared
  {
    var cleared := AfterCalls(kv, Program(DeleteClient(a.clientId)));
    DeleteClientMeans(kv, a.clientId);
    DeletePreparedMeans(cleared, a.assignmentId);
  }

  /** With the deletion queued next, nothing of the assignment is left. */
  lemma ErasedAndDeleted(kv: Kv, a: AssignmentRecord)
    ensures var work := DeleteAssignment(Some(a.serverId), a.assignmentId, a.clientId);
            var after := AfterDelete(AfterErase(kv, a), work, |Program(DeletionOf(work))|);
            && a.assignmentId !in after.CellOf(a.serverId).Contents()
            && KeyClient(a.clientId) !in after.byClient && KeyAssignment(a.assignmentId) !in after.prepared
  {
    var goal := Delete(Some(a.serverId), a.assignmentId, a.clientId);
    assert Program(goal)[..|Program(goal)|] == Program(goal);
    DeleteMeans(AfterErase(kv, a), goal);
  }
}

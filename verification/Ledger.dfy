/**
 The event log of one request's orchestration and what it adds up to: which
 provider allocations were obtained and released, which assignments were
 persisted and deleted, and the state each assignment was logged in.
 */
module Ledger {
  import opened Wrappers
  import opened States
  import opened Provider

  /** Each grant of capacity has a serial of its own; providers may reuse allocation ids. */
  datatype Allocation = Allocation(serial: nat, server: string)

  /** The assignments made in one attempt, for one player or for a lobby; they live on one allocation. */
  datatype Party = Party(ids: seq<nat>, serial: nat, server: string)

  /**
   `Erased` asks the store to forget an assignment at once; the queued events hand
   work to the lifecycle queue, which may refuse it, and nobody tries again.
   */
  datatype Event =
    | Requested(request: AllocationRequest, outcome: Result<Allocation, AllocationError>)
    | Stored(assignment: nat)
    | Moved(assignment: nat, from: AssignmentState, to: AssignmentState)
    | Erased(assignment: nat)
    | DeleteQueued(assignment: nat, accepted: bool)
    | ReleaseQueued(serial: nat, accepted: bool)

  /** A request to the provider, with the allocations that were live when it was made. */
  datatype Ask = Ask(request: AllocationRequest, outcome: Result<Allocation, AllocationError>, live: set<nat>)

  /**
   What a log adds up to: the allocations obtained and not handed to the queue for
   release, the assignments persisted and not handed to it for deletion, those just
   erased, how many serials and assignment ids were used, the logged states and the
   requests made. It is lawful while every serial and id is new, only live
   allocations are released, only pending assignments are erased and deleted, each
   erased first, and every move is a legal step from the logged state.
   */
  datatype Sums = Sums(
    live: set<nat>, pending: set<nat>, erased: set<nat>, serials: nat, ids: nat,
    states: map<nat, AssignmentState>, lawful: bool, asks: seq<Ask>)
  {
    function StateOf(assignment: nat): AssignmentState
    {
      if assignment in states then states[assignment] else Created
    }
  }

  const NOTHING := Sums({}, {}, {}, 0, 0, map[], true, [])

  function Enter(s: Sums, e: Event): Sums
  {
    match e
    case Requested(request, outcome) =>
      var t := s.(asks := s.asks + [Ask(request, outcome, s.live)]);
      if outcome.Err? then t
      else
        var serial := outcome.value.serial;
        t.(live := t.live + {serial}, serials := serial + 1, lawful := t.lawful && serial >= t.serials)
    case Stored(a) => s.(pending := s.pending + {a}, ids := a + 1, lawful := s.lawful && a >= s.ids)
    case Moved(a, from, to) =>
      s.(states := s.states[a := to],
         lawful := s.lawful && s.StateOf(a) == from && from != to && from.CanTransitionTo(to))
    case Erased(a) =>
      s.(erased := s.erased + {a}, lawful := s.lawful && a in s.pending && a !in s.erased)
    case DeleteQueued(a, _) =>
      s.(pending := s.pending - {a}, erased := s.erased - {a}, lawful := s.lawful && a in s.pending && a in s.erased)
    case ReleaseQueued(serial, _) => s.(live := s.live - {serial}, lawful := s.lawful && serial in s.live)
  }

  function Tally(log: seq<Event>): Sums
  {
    if log == [] then NOTHING else Enter(Tally(log[..|log| - 1]), log[|log| - 1])
  }

  lemma TallyAppend(log: seq<Event>, e: Event)
    ensures Tally(log + [e]) == Enter(Tally(log), e)
  {
    assert (log + [e])[..|log|] == log;
  }

  /** The states an assignment went through, as logged, starting from `Created`. */
  function History(log: seq<Event>, assignment: nat): (h: seq<AssignmentState>)
    ensures h != []
  {
    if log == [] then [Created]
    else
      var e := log[|log| - 1];
      History(log[..|log| - 1], assignment) + if e.Moved? && e.assignment == assignment then [e.to] else []
  }

  /**
   A lawful log moves each assignment along one unbroken chain of legal steps
   from `Created`, and every logged step starts where the previous one ended.
   */
  lemma {:induction false} LawfulHistory(log: seq<Event>, a: nat)
    requires Tally(log).lawful
    ensures History(log, a)[0] == Created
    ensures History(log, a)[|History(log, a)| - 1] == Tally(log).StateOf(a)
    ensures LegalChain(History(log, a))
  {
    if log != [] {
      var init, e := log[..|log| - 1], log[|log| - 1];
      LawfulHistory(init, a);
      if e.Moved? && e.assignment == a {
        LegalChainExtend(History(init, a), e.to);
      } else {
        assert History(log, a) == History(init, a);
      }
    }
  }

  /** So no assignment is ever logged in more than six steps, and nothing follows a terminal state. */
  lemma LawfulHistoryIsShort(log: seq<Event>, a: nat)
    requires Tally(log).lawful
    ensures |History(log, a)| - 1 <= 6
    ensures forall i | 0 <= i < |History(log, a)| && History(log, a)[i].IsTerminal() :: i == |History(log, a)| - 1
  {
    LawfulHistory(log, a);
    LegalChainProgress(History(log, a));
  }

  /** Every logged move of a lawful log starts from the state the assignment was in. */
  lemma {:induction false} LawfulMoves(log: seq<Event>, i: nat)
    requires Tally(log).lawful && i < |log| && log[i].Moved?
    ensures var h := History(log[..i], log[i].assignment);
            h[|h| - 1] == log[i].from && log[i].from.CanTransitionTo(log[i].to)
  {
    if i < |log| - 1 {
      var init := log[..|log| - 1];
      assert Tally(init).lawful;
      LawfulMoves(init, i);
      assert init[..i] == log[..i] && init[i] == log[i];
    } else {
      LawfulHistory(log[..i], log[i].assignment);
    }
  }

  // Exactly-once accounting.

  function Grants(serial: nat): Event -> bool
  {
    (e: Event) => e.Requested? && e.outcome.Ok? && e.outcome.value.serial == serial
  }

  function Releases(serial: nat): Event -> bool
  {
    (e: Event) => e.ReleaseQueued? && e.serial == serial
  }

  function Stores(a: nat): Event -> bool
  {
    (e: Event) => e == Stored(a)
  }

  function Erases(a: nat): Event -> bool
  {
    (e: Event) => e == Erased(a)
  }

  function Deletes(a: nat): Event -> bool
  {
    (e: Event) => e.DeleteQueued? && e.assignment == a
  }

  function Count(log: seq<Event>, p: Event -> bool): nat
  {
    if log == [] then 0 else Count(log[..|log| - 1], p) + if p(log[|log| - 1]) then 1 else 0
  }

  /**
   In a lawful log no allocation is granted twice, none is released unless it was
   granted, none is released twice, and the live ones are those still owed a release.
   */
  lemma {:induction false} ReleasedOnce(log: seq<Event>, serial: nat)
    requires Tally(log).lawful
    ensures Count(log, Grants(serial)) <= 1 && (Count(log, Grants(serial)) == 1 ==> serial < Tally(log).serials)
    ensures Count(log, Releases(serial)) == Count(log, Grants(serial)) - if serial in Tally(log).live then 1 else 0
  {
    if log != [] {
      ReleasedOnce(log[..|log| - 1], serial);
    }
  }

  /**
   Likewise each persisted assignment is erased and deleted at most once, in this
   order, and the pending ones are those still owed it.
   */
  lemma {:induction false} DeletedOnce(log: seq<Event>, a: nat)
    requires Tally(log).lawful
    ensures Count(log, Stores(a)) <= 1 && (Count(log, Stores(a)) == 1 ==> a < Tally(log).ids)
    ensures Count(log, Deletes(a)) == Count(log, Stores(a)) - if a in Tally(log).pending then 1 else 0
    ensures Count(log, Erases(a)) == Count(log, Deletes(a)) + if a in Tally(log).erased then 1 else 0
    ensures a in Tally(log).erased ==> a in Tally(log).pending
  {
    if log != [] {
      DeletedOnce(log[..|log| - 1], a);
    }
  }

  predicate AllIn(s: Sums, assignments: seq<nat>, state: AssignmentState)
  {
    forall a | a in assignments :: s.StateOf(a) == state
  }

  // Chains of requests to the provider.

  function Servers(asks: seq<Ask>): seq<string>
  {
    if asks == [] then []
    else
      Servers(asks[..|asks| - 1]) +
      if asks[|asks| - 1].outcome.Ok? then [asks[|asks| - 1].outcome.value.server] else []
  }

  /** The avoid list after each listed server has failed in turn. */
  function Avoiding(avoid: seq<string>, servers: seq<string>): seq<string>
  {
    if servers == [] then avoid
    else
      var a := Avoiding(avoid, servers[..|servers| - 1]);
      if servers[|servers| - 1] in a then a else a + [servers[|servers| - 1]]
  }

  /** Every request repeats the original one, under its own id, avoiding the servers that failed before. */
  ghost predicate AvoidingChain(original: AllocationRequest, asks: seq<Ask>)
    decreases |asks|
  {
    asks == [] ||
    var before, request := asks[..|asks| - 1], asks[|asks| - 1].request;
    && AvoidingChain(original, before)
    && request == original.(requestId := request.requestId,
                            avoidServerIds := Avoiding(original.avoidServerIds, Servers(before)))
  }

  predicate AllGranted(asks: seq<Ask>)
  {
    forall ask | ask in asks :: ask.outcome.Ok?
  }

  lemma {:induction false} AvoidingHolds(avoid: seq<string>, servers: seq<string>)
    ensures forall s | s in avoid || s in servers :: s in Avoiding(avoid, servers)
    ensures forall s | s in Avoiding(avoid, servers) :: s in avoid || s in servers
  {
    if servers != [] {
      var init := servers[..|servers| - 1];
      AvoidingHolds(avoid, init);
      assert servers == init + [servers[|servers| - 1]];
    }
  }
}

/**
 Retry and cleanup of assignments on the matchmaker, for single players and for
 lobbies. The provider behaves nondeterministically; what the store, the clients
 and the game servers answer is fixed beforehand, but arbitrary.
 */
module Orchestration {
  import opened Wrappers
  import opened States
  import opened Provider
  import opened Placement
  import Selection
  import opened Ledger

  /** Where capacity comes from: any provider that honours the avoid list, or a fixed server list. */
  datatype Source = AnyProvider | FixedList(servers: seq<StaticServer>)

  /** What one poll for preparation finds: a drain, a store error, nothing, or an acknowledgement. */
  datatype Poll = Draining | StoreFails | Silent | Acked(serverId: string, client: nat, prepared: bool)

  /**
   What the others will answer: whether the store takes an assignment, whether its
   client can be told that preparation starts, the n-th poll for the assignment, how
   many polls fit before its deadline, whether its grant can be issued and sent, and,
   in the k-th round of watching, whether its client is connected and whether a server
   is unavailable, where `None` is an error. `clients` are the client ids drawn for
   the assignments, and `requestIds` the request ids in the order they are drawn.
   */
  datatype Outside = Outside(
    requestIds: nat -> string, clients: nat -> nat, stores: nat -> bool, notifies: nat -> bool,
    polls: (nat, nat) -> Poll, patience: nat -> nat,
    grants: nat -> bool, delivers: nat -> bool,
    connected: (nat, nat) -> Option<bool>, unavailable: (nat, string) -> Option<bool>)
  {
    predicate Decides(a: nat, server: string, n: nat)
    {
      var poll := polls(a, n);
      poll.Draining? || poll.StoreFails? || (poll.Acked? && poll.serverId == server && poll.client == clients(a))
    }

    /** The n-th poll is the first that decides, in time. */
    ghost predicate DecidedBy(a: nat, server: string, n: nat)
    {
      n < patience(a) && Decides(a, server, n) && forall m | 0 <= m < n :: !Decides(a, server, m)
    }

    /** The game server's own acknowledgement of the assignment arrived in time, and was positive. */
    ghost predicate Acknowledged(a: nat, server: string)
    {
      exists n: nat :: DecidedBy(a, server, n) && polls(a, n) == Acked(server, clients(a), true)
    }

    /** The state in which waiting for preparation leaves the assignment. */
    ghost predicate WaitEnds(a: nat, server: string, state: AssignmentState)
    {
      match state
      case Prepared => Acknowledged(a, server)
      case Rejected => exists n: nat :: DecidedBy(a, server, n) && polls(a, n) == Acked(server, clients(a), false)
      case TimedOut => forall n: nat :: !DecidedBy(a, server, n)
      case Preparing => exists n: nat :: DecidedBy(a, server, n) && !polls(a, n).Acked?
      case _ => false
    }

    lemma FirstDecides(a: nat, server: string, state: AssignmentState)
      requires WaitEnds(a, server, state)
      ensures state == Prepared <==> Acknowledged(a, server)
    {
    }
  }

  /** Whom an attempt is for. */
  datatype Audience = Player | Lobby(size: nat)
  {
    function Size(): nat
    {
      if Player? then 1 else size
    }
  }

  /** `orphans` are the assignments of a lobby that were persisted before the store refused another one. */
  datatype FlowError =
    | Refused(error: AllocationError)
    | NotStored(orphans: Party, refused: nat)
    | NotNotified(party: Party)
    | NotPrepared(party: Party)

  /** The provider's answer respects the avoid list and, for a fixed list, is the static selection. */
  ghost predicate Answers(source: Source, request: AllocationRequest, outcome: Result<Allocation, AllocationError>)
  {
    (outcome.Ok? ==> !request.Avoids(outcome.value.server)) &&
    (source.FixedList? ==>
       match AllocateStatic(source.servers, request)
       case Ok(allocation) => outcome.Ok? && outcome.value.server == allocation.serverId
       case Err(error) => outcome == Err(error))
  }

  lemma StaticAvoids(servers: seq<StaticServer>, request: AllocationRequest)
    requires AllocateStatic(servers, request).Ok?
    ensures !request.Avoids(AllocateStatic(servers, request).value.serverId)
  {
    Selection.MinByIsLeast(Filter(servers, IsAccepted(request)), StaticKeyFor(request));
  }

  // The books.

  ghost predicate Books(s: Sums, nextSerial: nat, nextAssignment: nat)
  {
    && s.lawful && s.erased == {} && s.serials <= nextSerial && s.ids <= nextAssignment
    && (forall x | x in s.live :: x < s.serials)
    && (forall a | a in s.pending :: a < s.ids)
    && (forall a | a in s.states :: a < nextAssignment)
  }

  function Ids(assignments: seq<nat>): set<nat>
  {
    set a | a in assignments
  }

  /**
   From `b` to `s`, exactly these new allocations stayed live and exactly these new
   assignments stayed pending. Without coordination nothing is stored or queued.
   */
  ghost predicate Keeps(coordinated: bool, b: Sums, s: Sums, serials: set<nat>, assignments: set<nat>)
  {
    if coordinated then
      && s.live == b.live + serials && serials !! b.live
      && s.pending == b.pending + assignments && assignments !! b.pending
    else b.live <= s.live && s.pending == b.pending
  }

  /** What one attempt leaves behind in each outcome. */
  ghost predicate AttemptDone(coordinated: bool, b: Sums, s: Sums, request: AllocationRequest,
                              answer: Result<Allocation, AllocationError>, r: Result<Party, FlowError>)
  {
    && s.asks == b.asks + [Ask(request, answer, b.live)]
    && b.serials <= s.serials && b.ids <= s.ids
    && Ends(coordinated, b, s, answer, r)
  }

  ghost predicate Ends(coordinated: bool, b: Sums, s: Sums, answer: Result<Allocation, AllocationError>,
                       r: Result<Party, FlowError>)
  {
    match r
    case Ok(party) =>
      && IsOn(party, answer) && AllIn(s, party.ids, Prepared)
      && Keeps(coordinated, b, s, {party.serial}, Ids(party.ids))
    case Err(Refused(error)) => answer == Err(error) && Keeps(coordinated, b, s, {}, {})
    case Err(NotStored(orphans, _)) =>
      && coordinated && IsOn(orphans, answer) && AllIn(s, orphans.ids, Preparing)
      && Keeps(true, b, s, {orphans.serial}, Ids(orphans.ids))
    case Err(NotNotified(party)) =>
      IsOn(party, answer) && AllIn(s, party.ids, Failed) && Keeps(coordinated, b, s, {}, {})
    case Err(NotPrepared(party)) =>
      IsOn(party, answer) && SomeUnprepared(s, party.ids) && Keeps(coordinated, b, s, {}, {})
  }

  ghost predicate IsOn(party: Party, answer: Result<Allocation, AllocationError>)
  {
    answer == Ok(Allocation(party.serial, party.server))
  }

  ghost predicate SomeUnprepared(s: Sums, assignments: seq<nat>)
  {
    exists a | a in assignments :: s.StateOf(a) in {Preparing, Rejected, TimedOut}
  }

  /** The answers from outside that led to the result of an attempt. */
  ghost predicate Explained(outside: Outside, audience: Audience, requirePrepare: bool, coordinated: bool,
                            r: Result<Party, FlowError>)
  {
    match r
    case Ok(party) =>
      && Told(outside, audience, party.ids)
      && (coordinated ==> AllTaken(outside, party.ids))
      && (requirePrepare ==> forall a | a in party.ids :: outside.Acknowledged(a, party.server))
    case Err(Refused(_)) => true
    case Err(NotStored(orphans, refused)) => AllTaken(outside, orphans.ids) && !outside.stores(refused)
    case Err(NotNotified(party)) => audience.Player? && exists a | a in party.ids :: !outside.notifies(a)
    case Err(NotPrepared(party)) =>
      && requirePrepare && Told(outside, audience, party.ids)
      && (coordinated ==> exists a | a in party.ids :: !outside.Acknowledged(a, party.server))
  }

  /** A player is told that preparation starts; lobby members are sent a message that nobody waits for. */
  predicate Told(outside: Outside, audience: Audience, assignments: seq<nat>)
  {
    audience.Player? ==> forall a | a in assignments :: outside.notifies(a)
  }

  predicate AllTaken(outside: Outside, assignments: seq<nat>)
  {
    forall a | a in assignments :: outside.stores(a)
  }

  ghost predicate AllAnswered(source: Source, asks: seq<Ask>)
    decreases |asks|
  {
    asks == [] ||
    var last := asks[|asks| - 1];
    AllAnswered(source, asks[..|asks| - 1]) && Answers(source, last.request, last.outcome)
  }

  /** The assignments of a party were made after `b` and are all different. */
  ghost predicate FreshParty(b: Sums, party: Party, size: nat, nextAssignment: nat)
  {
    && |party.ids| == size
    && NoDup(party.ids)
    && b.serials <= party.serial
    && forall a | a in party.ids :: b.ids <= a < nextAssignment
  }

  /** What an attempt offers is new and avoids what the request asked to avoid; a player's attempt leaves no orphans. */
  ghost predicate Offers(b: Sums, request: AllocationRequest, r: Result<Party, FlowError>, size: nat,
                         nextAssignment: nat)
  {
    && (r.Ok? ==> FreshParty(b, r.value, size, nextAssignment) && !request.Avoids(r.value.server))
    && (r.Err? && r.error.NotStored? ==>
          |r.error.orphans.ids| < size && b.ids <= r.error.refused < nextAssignment)
  }

  /**
   The retry loop: each attempt repeats the request under an id of its own and
   avoids every server that failed before; every failed attempt gave its
   allocation back before the next one asked; giving up for lack of preparation
   takes the whole budget.
   */
  ghost predicate RetriesDone(coordinated: bool, retries: nat, b: Sums, s: Sums, original: AllocationRequest,
                              asked: seq<Ask>, r: Result<Party, FlowError>)
  {
    && s.asks == b.asks + asked
    && b.serials <= s.serials && b.ids <= s.ids
    && 1 <= |asked| <= retries + 1
    && AvoidingChain(original, asked)
    && AllGranted(asked[..|asked| - 1])
    && (coordinated ==> forall ask | ask in asked :: ask.live == b.live)
    && Ends(coordinated, b, s, asked[|asked| - 1].outcome, r)
    && (r.Err? && r.error.NotPrepared? ==> |asked| == retries + 1)
  }

  lemma ServersAppend(asks: seq<Ask>, ask: Ask)
    ensures Servers(asks + [ask]) == Servers(asks) + if ask.outcome.Ok? then [ask.outcome.value.server] else []
  {
    assert (asks + [ask])[..|asks|] == asks;
  }

  /** One more request extends the chain, whatever its id. */
  lemma ChainAppend(original: AllocationRequest, asks: seq<Ask>, ask: Ask)
    requires AvoidingChain(original, asks)
    requires ask.request == original.(requestId := ask.request.requestId,
                                      avoidServerIds := Avoiding(original.avoidServerIds, Servers(asks)))
    ensures AvoidingChain(original, asks + [ask])
  {
    assert (asks + [ask])[..|asks|] == asks;
  }

  lemma AvoidingAppend(avoid: seq<string>, servers: seq<string>, server: string)
    ensures Avoiding(avoid, servers + [server]) ==
            var a := Avoiding(avoid, servers); if server in a then a else a + [server]
  {
    assert (servers + [server])[..|servers|] == servers;
  }

  lemma AnsweredAppend(source: Source, asks: seq<Ask>, ask: Ask)
    requires AllAnswered(source, asks) && Answers(source, ask.request, ask.outcome)
    ensures AllAnswered(source, asks + [ask])
  {
    assert (asks + [ask])[..|asks|] == asks;
  }

  /** Adding the server of a granted request to the avoid list keeps the request in step with the chain. */
  lemma NextAvoids(original: AllocationRequest, request: AllocationRequest, asks: seq<Ask>, ask: Ask)
    requires request == original.(requestId := request.requestId,
                                  avoidServerIds := Avoiding(original.avoidServerIds, Servers(asks)))
    requires ask.outcome.Ok?
    ensures AvoidAlso(request, ask.outcome.value.server) ==
            original.(requestId := request.requestId,
                      avoidServerIds := Avoiding(original.avoidServerIds, Servers(asks + [ask])))
  {
    ServersAppend(asks, ask);
    AvoidingAppend(original.avoidServerIds, Servers(asks), ask.outcome.value.server);
  }

  /** The head of the retry loop, after the attempts in `asked` have failed in preparation. */
  ghost predicate RetryHead(source: Source, coordinated: bool, b: Sums, s: Sums, original: AllocationRequest,
                            request: AllocationRequest, asked: seq<Ask>)
  {
    && s.asks == b.asks + asked
    && b.serials <= s.serials && b.ids <= s.ids
    && AvoidingChain(original, asked)
    && AllGranted(asked) && AllAnswered(source, asked)
    && request == original.(requestId := request.requestId,
                            avoidServerIds := Avoiding(original.avoidServerIds, Servers(asked)))
    && Keeps(coordinated, b, s, {}, {})
    && (coordinated ==> forall ask | ask in asked :: ask.live == b.live)
  }

  lemma RetryStarts(source: Source, coordinated: bool, b: Sums, original: AllocationRequest)
    ensures RetryHead(source, coordinated, b, b, original, original, [])
  {
    assert b.asks + [] == b.asks;
  }

  lemma RetryUnderAnyId(source: Source, coordinated: bool, b: Sums, s: Sums, original: AllocationRequest,
                        request: AllocationRequest, asked: seq<Ask>, requestId: string)
    requires RetryHead(source, coordinated, b, s, original, request, asked)
    ensures RetryHead(source, coordinated, b, s, original, request.(requestId := requestId), asked)
  {
  }

  lemma EndsOnward(coordinated: bool, b: Sums, s: Sums, t: Sums, answer: Result<Allocation, AllocationError>,
                   r: Result<Party, FlowError>)
    requires Keeps(coordinated, b, s, {}, {}) && Ends(coordinated, s, t, answer, r)
    ensures Ends(coordinated, b, t, answer, r)
  {
  }

  lemma OffersOnward(b: Sums, s: Sums, request: AllocationRequest, r: Result<Party, FlowError>, size: nat, next: nat)
    requires Offers(s, request, r, size, next) && b.serials <= s.serials && b.ids <= s.ids
    ensures Offers(b, request, r, size, next)
  {
  }

  lemma RetryEnds(source: Source, coordinated: bool, retries: nat, b: Sums, s: Sums, t: Sums,
                  original: AllocationRequest, request: AllocationRequest, asked: seq<Ask>,
                  answer: Result<Allocation, AllocationError>, r: Result<Party, FlowError>)
    requires RetryHead(source, coordinated, b, s, original, request, asked) && |asked| <= retries
    requires AttemptDone(coordinated, s, t, request, answer, r) && Answers(source, request, answer)
    requires r.Err? && r.error.NotPrepared? ==> |asked| == retries
    ensures RetriesDone(coordinated, retries, b, t, original, asked + [Ask(request, answer, s.live)], r)
    ensures AllAnswered(source, asked + [Ask(request, answer, s.live)])
  {
    var ask := Ask(request, answer, s.live);
    ChainAppend(original, asked, ask);
    AnsweredAppend(source, asked, ask);
    EndsOnward(coordinated, b, s, t, answer, r);
    assert (asked + [ask])[..|asked|] == asked;
  }

  lemma RetryContinues(source: Source, coordinated: bool, b: Sums, s: Sums, t: Sums, original: AllocationRequest,
                       request: AllocationRequest, asked: seq<Ask>, answer: Result<Allocation, AllocationError>,
                       party: Party)
    requires RetryHead(source, coordinated, b, s, original, request, asked)
    requires AttemptDone(coordinated, s, t, request, answer, Err(NotPrepared(party)))
    requires Answers(source, request, answer)
    ensures RetryHead(source, coordinated, b, t, original, AvoidAlso(request, party.server),
                      asked + [Ask(request, answer, s.live)])
  {
    var ask := Ask(request, answer, s.live);
    ChainAppend(original, asked, ask);
    AnsweredAppend(source, asked, ask);
    EndsOnward(coordinated, b, s, t, answer, Err(NotPrepared(party)));
    NextAvoids(original, request, asked, ask);
  }

  class Flow {
    const requirePrepare: bool
    const coordinated: bool
    const maxRetries: nat
    const source: Source
    const outside: Outside
    var log: seq<Event>
    var nextSerial: nat
    var nextAssignment: nat
    /** How many request ids were drawn. */
    var drawn: nat

    constructor (requirePrepare: bool, coordinated: bool, maxRetries: nat, source: Source, outside: Outside)
      ensures Valid() && Sum() == NOTHING
      ensures this.requirePrepare == requirePrepare && this.coordinated == coordinated
      ensures this.maxRetries == maxRetries && this.source == source && this.outside == outside
    {
      this.requirePrepare, this.coordinated := requirePrepare, coordinated;
      this.maxRetries, this.source, this.outside := maxRetries, source, outside;
      log, nextSerial, nextAssignment, drawn := [], 0, 0, 0;
    }

    ghost function Sum(): Sums
      reads this
    {
      Tally(log)
    }

    ghost predicate Valid()
      reads this
    {
      Books(Sum(), nextSerial, nextAssignment)
    }

    // Single effects.

    method Emit(e: Event)
      modifies this`log
      ensures Sum() == Enter(old(Sum()), e)
    {
      TallyAppend(log, e);
      log := log + [e];
    }

    /** The provider's answer to a request. */
    method AskProvider(request: AllocationRequest, serial: nat) returns (r: Result<Allocation, AllocationError>)
      ensures Answers(source, request, r) && (r.Ok? ==> r.value.serial == serial)
    {
      if source.FixedList? {
        match AllocateStatic(source.servers, request)
        case Ok(allocation) =>
          StaticAvoids(source.servers, request);
          r := Ok(Allocation(serial, allocation.serverId));
        case Err(error) => r := Err(error);
      } else if * {
        r := Err(ProviderFailure);
      } else {
        var server: string := *;
        r := if server in request.avoidServerIds then Err(NoCapacity) else Ok(Allocation(serial, server));
      }
    }

    method Allocate(request: AllocationRequest) returns (r: Result<Allocation, AllocationError>)
      requires Valid()
      modifies this`log, this`nextSerial
      ensures Valid()
      ensures Sum() == Enter(old(Sum()), Requested(request, r))
      ensures Answers(source, request, r)
      ensures r.Ok? ==> r.value.serial >= old(Sum()).serials
    {
      r := AskProvider(request, nextSerial);
      nextSerial := nextSerial + 1;
      Emit(Requested(request, r));
    }

    /** Writes the record to the coordination store, when there is one. */
    method PutAssignment(a: nat) returns (ok: bool)
      requires Valid() && Sum().ids <= a < nextAssignment
      modifies this`log
      ensures Valid()
      ensures Sum() == if ok && coordinated then Enter(old(Sum()), Stored(a)) else old(Sum())
      ensures ok <==> !coordinated || outside.stores(a)
    {
      ok := true;
      if coordinated {
        ok := outside.stores(a);
        if ok {
          Emit(Stored(a));
        }
      }
    }

    method Move(a: nat, from: AssignmentState, to: AssignmentState)
      requires Valid() && a < nextAssignment
      requires Sum().StateOf(a) == from && from != to && from.CanTransitionTo(to)
      modifies this`log
      ensures Valid()
      ensures Sum() == old(Sum()).(states := old(Sum()).states[a := to])
    {
      Emit(Moved(a, from, to));
    }

    /**
     Cleans up after a failed attempt: each of its assignments is erased from the store
     and queued for deletion, and the allocation they share is queued for release, once
     each. A queue that refuses is only logged. Without coordination nothing is queued.
     */
    method QueueCleanup(party: Party, ghost b: Sums)
      requires Valid() && NoDup(party.ids)
      requires Keeps(coordinated, b, Sum(), {party.serial}, Ids(party.ids))
      modifies this`log
      ensures Valid()
      ensures Keeps(coordinated, b, Sum(), {}, {})
      ensures Sum() == old(Sum()).(live := Sum().live, pending := Sum().pending)
    {
      if coordinated {
        ghost var s := Sum();
        var i := 0;
        while i < |party.ids|
          invariant 0 <= i <= |party.ids|
          invariant Books(Sum(), nextSerial, nextAssignment)
          invariant Keeps(true, b, Sum(), {party.serial}, Ids(party.ids[i..]))
          invariant Sum() == s.(pending := Sum().pending)
        {
          assert party.ids[i..] == [party.ids[i]] + party.ids[i + 1..];
          Emit(Erased(party.ids[i]));
          var accepted: bool := *;
          Emit(DeleteQueued(party.ids[i], accepted));
          i := i + 1;
        }
        var accepted: bool := *;
        Emit(ReleaseQueued(party.serial, accepted));
      }
    }

    /**
     Waits for the game server's acknowledgement and returns the state reached: the first
     poll that decides in time settles it. A drain or a store error leaves the logged
     state as it is.
     */
    method WaitPrepared(a: nat, server: string) returns (state: AssignmentState)
      requires Valid() && a < nextAssignment && Sum().StateOf(a) == Preparing
      modifies this`log
      ensures Valid()
      ensures Sum().StateOf(a) == state
      ensures forall other | other != a :: Sum().StateOf(other) == old(Sum().StateOf(other))
      ensures Sum() == old(Sum()).(states := Sum().states)
      ensures if !requirePrepare then state == Prepared
              else if !coordinated then state == Preparing
              else outside.WaitEnds(a, server, state) && (state == Prepared <==> outside.Acknowledged(a, server))
    {
      state := Preparing;
      if !requirePrepare {
        state := Prepared;
      } else if coordinated {
        state := PollPrepared(a, server);
        outside.FirstDecides(a, server, state);
      }
      if state != Preparing {
        Move(a, Preparing, state);
      }
    }

    /** The polling loop up to the deadline. */
    method PollPrepared(a: nat, server: string) returns (state: AssignmentState)
      ensures outside.WaitEnds(a, server, state)
      ensures state in {Preparing, Prepared, Rejected, TimedOut}
    {
      var n := 0;
      while n < outside.patience(a)
        invariant 0 <= n <= outside.patience(a)
        invariant forall m | 0 <= m < n :: !outside.Decides(a, server, m)
      {
        var poll := outside.polls(a, n);
        if poll.Draining? || poll.StoreFails? {
          assert outside.DecidedBy(a, server, n);
          return Preparing;
        } else if poll.Acked? && poll.serverId == server && poll.client == outside.clients(a) {
          assert outside.DecidedBy(a, server, n);
          return if poll.prepared then Prepared else Rejected;
        }
        n := n + 1;
      }
      return TimedOut;
    }

    ghost predicate Confirmed(audience: Audience, r: Result<Party, FlowError>)
    {
      Explained(outside, audience, requirePrepare, coordinated, r)
    }

    // One attempt for one player.

    method CreateAssignment(request: AllocationRequest)
      returns (r: Result<Party, FlowError>, ghost answer: Result<Allocation, AllocationError>)
      requires Valid()
      modifies this`log, this`nextSerial, this`nextAssignment
      ensures Valid()
      ensures Sum().asks == old(Sum()).asks + [Ask(request, answer, old(Sum()).live)]
      ensures Answers(source, request, answer)
      ensures old(Sum()).serials <= Sum().serials && old(Sum()).ids <= Sum().ids
      ensures match r
              case Ok(party) =>
                && IsOn(party, answer) && !request.Avoids(party.server)
                && Keeps(coordinated, old(Sum()), Sum(), {party.serial}, Ids(party.ids))
                && FreshParty(old(Sum()), party, 1, nextAssignment)
                && AllIn(Sum(), party.ids, Persisted) && (coordinated ==> AllTaken(outside, party.ids))
              case Err(error) =>
                && Ends(coordinated, old(Sum()), Sum(), answer, r) && Confirmed(Player, r)
                && (error.Refused? ||
                    (error.NotStored? && error.orphans.ids == [] && old(Sum()).ids <= error.refused < nextAssignment))
    {
      var grant := Allocate(request);
      answer := grant;
      if grant.Err? {
        return Err(Refused(grant.error)), answer;
      }
      var a := nextAssignment;
      nextAssignment := nextAssignment + 1;
      var stored := PutAssignment(a);
      if !stored {
        return Err(NotStored(Party([], grant.value.serial, grant.value.server), a)), answer;
      }
      Move(a, Created, Persisted);
      r := Ok(Party([a], grant.value.serial, grant.value.server));
    }

    /** Creates, notifies the client and waits; every failure after persisting is cleaned up. */
    method AttemptPlayer(request: AllocationRequest)
      returns (r: Result<Party, FlowError>, ghost answer: Result<Allocation, AllocationError>)
      requires Valid()
      modifies this`log, this`nextSerial, this`nextAssignment
      ensures Valid()
      ensures var done := AttemptDone(coordinated, old(Sum()), Sum(), request, answer, r); done
      ensures Answers(source, request, answer)
      ensures Offers(old(Sum()), request, r, 1, nextAssignment) && Confirmed(Player, r)
    {
      ghost var b := Sum();
      r, answer := CreateAssignment(request);
      if r.Ok? {
        assert r.value.ids[0] in r.value.ids;
        r := NotifyAndWait(r.value, b);
      }
    }

    /** Tells the client and waits for the game server; either may fail, which cleans up. */
    method NotifyAndWait(party: Party, ghost b: Sums) returns (r: Result<Party, FlowError>)
      requires Valid() && |party.ids| == 1 && party.ids[0] < nextAssignment && AllIn(Sum(), party.ids, Persisted)
      requires Keeps(coordinated, b, Sum(), {party.serial}, Ids(party.ids))
      requires coordinated ==> AllTaken(outside, party.ids)
      modifies this`log
      ensures Valid()
      ensures Sum().asks == old(Sum()).asks && Sum().serials == old(Sum()).serials && Sum().ids == old(Sum()).ids
      ensures var done := Ends(coordinated, b, Sum(), Ok(Allocation(party.serial, party.server)), r); done
      ensures if r.Ok? then r.value == party else !r.error.NotStored? && !r.error.Refused?
      ensures r.Err? && r.error.NotNotified? <==> !outside.notifies(party.ids[0])
      ensures var done := Confirmed(Player, r); done
    {
      assert party.ids[0] in party.ids;
      if !outside.notifies(party.ids[0]) {
        Move(party.ids[0], Persisted, Failed);
        QueueCleanup(party, b);
        return Err(NotNotified(party));
      }
      Move(party.ids[0], Persisted, Preparing);
      r := WaitOrCleanUp(party, b);
    }

    /** Waits for one assignment, and cleans it up unless it is prepared. */
    method WaitOrCleanUp(party: Party, ghost b: Sums) returns (r: Result<Party, FlowError>)
      requires Valid() && |party.ids| == 1 && party.ids[0] < nextAssignment && AllIn(Sum(), party.ids, Preparing)
      requires Keeps(coordinated, b, Sum(), {party.serial}, Ids(party.ids))
      requires (coordinated ==> AllTaken(outside, party.ids)) && Told(outside, Player, party.ids)
      modifies this`log
      ensures Valid()
      ensures Sum().asks == old(Sum()).asks && Sum().serials == old(Sum()).serials && Sum().ids == old(Sum()).ids
      ensures var done := Ends(coordinated, b, Sum(), Ok(Allocation(party.serial, party.server)), r); done
      ensures r == Ok(party) || r == Err(NotPrepared(party))
      ensures var done := Confirmed(Player, r); done
    {
      assert party.ids[0] in party.ids;
      var state := WaitPrepared(party.ids[0], party.server);
      if state != Prepared {
        QueueCleanup(party, b);
        return Err(NotPrepared(party));
      }
      r := Ok(party);
    }

    // One attempt for a lobby.

    /** Persists one assignment per member and notifies the member; stops at the first that is not stored. */
    method CreateLobbyRecords(size: nat, serial: nat, server: string, ghost b: Sums)
      returns (ok: bool, party: Party, refused: nat)
      requires Valid() && b.ids <= Sum().ids && Keeps(coordinated, b, Sum(), {serial}, {})
      modifies this`log, this`nextSerial, this`nextAssignment
      ensures Valid()
      ensures Sum() == old(Sum()).(pending := Sum().pending, ids := Sum().ids, states := Sum().states)
      ensures old(Sum()).ids <= Sum().ids
      ensures party.serial == serial && party.server == server
      ensures Keeps(coordinated, b, Sum(), {serial}, Ids(party.ids))
      ensures AllIn(Sum(), party.ids, Preparing)
      ensures NoDup(party.ids) && forall a | a in party.ids :: b.ids <= a < nextAssignment
      ensures coordinated ==> AllTaken(outside, party.ids)
      ensures if ok then |party.ids| == size
              else coordinated && |party.ids| < size && !outside.stores(refused) && b.ids <= refused < nextAssignment
    {
      var ids := [];
      ghost var s := Sum();
      while |ids| < size
        invariant |ids| <= size
        invariant Valid() && Sum() == s.(pending := Sum().pending, ids := Sum().ids, states := Sum().states)
        invariant s.ids <= Sum().ids && Keeps(coordinated, b, Sum(), {serial}, Ids(ids))
        invariant AllIn(Sum(), ids, Preparing)
        invariant NoDup(ids) && forall a | a in ids :: b.ids <= a < nextAssignment
        invariant coordinated ==> AllTaken(outside, ids)
      {
        var a := nextAssignment;
        nextAssignment := nextAssignment + 1;
        var stored := PutAssignment(a);
        if !stored {
          return false, Party(ids, serial, server), a;
        }
        Move(a, Created, Persisted);
        Move(a, Persisted, Preparing);
        ids := ids + [a];
      }
      return true, Party(ids, serial, server), 0;
    }

    /** Waits for every member in turn; the first failure cleans up the whole party. */
    method WaitLobbyPrepared(party: Party, ghost b: Sums) returns (ok: bool)
      requires Valid() && NoDup(party.ids) && forall a | a in party.ids :: a < nextAssignment
      requires AllIn(Sum(), party.ids, Preparing)
      requires Keeps(coordinated, b, Sum(), {party.serial}, Ids(party.ids))
      requires coordinated ==> AllTaken(outside, party.ids)
      modifies this`log
      ensures Valid()
      ensures Sum().asks == old(Sum()).asks && Sum().serials == old(Sum()).serials && Sum().ids == old(Sum()).ids
      ensures if ok
              then Keeps(coordinated, b, Sum(), {party.serial}, Ids(party.ids)) && AllIn(Sum(), party.ids, Prepared)
              else Keeps(coordinated, b, Sum(), {}, {}) && SomeUnprepared(Sum(), party.ids)
      ensures Confirmed(Lobby(|party.ids|), if ok then Ok(party) else Err(NotPrepared(party)))
    {
      ghost var s := Sum();
      var i := 0;
      while i < |party.ids|
        invariant 0 <= i <= |party.ids|
        invariant Valid() && Sum() == s.(states := Sum().states)
        invariant AllIn(Sum(), party.ids[..i], Prepared) && AllIn(Sum(), party.ids[i..], Preparing)
        invariant requirePrepare ==> forall a | a in party.ids[..i] :: outside.Acknowledged(a, party.server)
      {
        TakeNext(party.ids, i);
        var state := WaitPrepared(party.ids[i], party.server);
        if state != Prepared {
          QueueCleanup(party, b);
          return false;
        }
        i := i + 1;
      }
      return true;
    }

    method AttemptLobby(size: nat, request: AllocationRequest)
      returns (r: Result<Party, FlowError>, ghost answer: Result<Allocation, AllocationError>)
      requires Valid()
      modifies this`log, this`nextSerial, this`nextAssignment
      ensures Valid()
      ensures var done := AttemptDone(coordinated, old(Sum()), Sum(), request, answer, r); done
      ensures Answers(source, request, answer)
      ensures Offers(old(Sum()), request, r, size, nextAssignment) && Confirmed(Lobby(size), r)
    {
      ghost var b := Sum();
      var grant := Allocate(request);
      answer := grant;
      if grant.Err? {
        return Err(Refused(grant.error)), answer;
      }
      var ok, party, refused := CreateLobbyRecords(size, grant.value.serial, grant.value.server, b);
      if !ok {
        return Err(NotStored(party, refused)), answer;
      }
      ok := WaitLobbyPrepared(party, b);
      r := if ok then Ok(party) else Err(NotPrepared(party));
    }

    // The retry loop.

    /** One round of the retry loop; `next` is the request for the round after a failed preparation. */
    method Attempt(audience: Audience, retries: nat, original: AllocationRequest, request: AllocationRequest,
                   ghost b: Sums, ghost asked: seq<Ask>)
      returns (r: Result<Party, FlowError>, next: AllocationRequest, ghost ask: Ask)
      requires Valid() && RetryHead(source, coordinated, b, Sum(), original, request, asked) && |asked| <= retries
      modifies this`log, this`nextSerial, this`nextAssignment
      ensures Valid() && ask.request == request
      ensures var done := Offers(b, request, r, audience.Size(), nextAssignment); done
      ensures var done := Confirmed(audience, r); done
      ensures if r.Err? && r.error.NotPrepared? && |asked| < retries
              then (var on := RetryHead(source, coordinated, b, Sum(), original, next, asked + [ask]); on)
              else (var done := RetriesDone(coordinated, retries, b, Sum(), original, asked + [ask], r); done)
      ensures AllAnswered(source, asked + [ask])
    {
      ghost var s := Sum();
      ghost var answer;
      match audience {
        case Player => r, answer := AttemptPlayer(request);
        case Lobby(size) => r, answer := AttemptLobby(size, request);
      }
      ask := Ask(request, answer, s.live);
      next := request;
      OffersOnward(b, s, request, r, audience.Size(), nextAssignment);
      if r.Err? && r.error.NotPrepared? && |asked| < retries {
        RetryContinues(source, coordinated, b, s, Sum(), original, request, asked, answer, r.error.party);
      } else {
        RetryEnds(source, coordinated, retries, b, s, Sum(), original, request, asked, answer, r);
      }
      if r.Err? && r.error.NotPrepared? {
        next := AvoidAlso(request, r.error.party.server);
      }
    }

    /** Renames the request for another attempt. */
    method DrawRequestId(request: AllocationRequest) returns (renamed: AllocationRequest)
      modifies this`drawn
      ensures drawn == old(drawn) + 1 && renamed == request.(requestId := outside.requestIds(old(drawn)))
    {
      renamed := request.(requestId := outside.requestIds(drawn));
      drawn := drawn + 1;
    }

    method CreatePreparedWithRetries(audience: Audience, original: AllocationRequest, retries: nat)
      returns (r: Result<Party, FlowError>, ghost asked: seq<Ask>)
      requires Valid()
      modifies this
      ensures Valid()
      ensures var done := RetriesDone(coordinated, retries, old(Sum()), Sum(), original, asked, r); done
      ensures AllAnswered(source, asked)
      ensures var done := Offers(old(Sum()), asked[|asked| - 1].request, r, audience.Size(), nextAssignment); done
      ensures var done := Confirmed(audience, r); done
      ensures drawn == old(drawn) + |asked| - 1
    {
      ghost var b := Sum();
      var request, attempt := original, 0;
      asked := [];
      RetryStarts(source, coordinated, b, original);
      while true
        invariant attempt <= retries && attempt == |asked|
        invariant drawn == old(drawn) + if attempt == 0 then 0 else attempt - 1
        invariant Valid() && RetryHead(source, coordinated, b, Sum(), original, request, asked)
        decreases retries - attempt
      {
        if attempt > 0 {
          ghost var former := request;
          request := DrawRequestId(request);
          RetryUnderAnyId(source, coordinated, b, Sum(), original, former, asked, request.requestId);
        }
        ghost var ask;
        r, request, ask := Attempt(audience, retries, original, request, b, asked);
        asked := asked + [ask];
        if r.Ok? || !r.error.NotPrepared? || attempt == retries {
          return;
        }
        attempt := attempt + 1;
      }
    }
  }
}

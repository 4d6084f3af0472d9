/**
 From a prepared assignment to a connected client: handing out connection grants
 and watching, for a player or a lobby, until everyone is connected, replacing
 the server when it becomes unavailable first.
 */
module Monitoring {
  import opened Wrappers
  import opened States
  import opened Provider
  import opened Placement
  import opened Ledger
  import opened Orchestration

  datatype Granting = Sent | GrantFailed | ClientGone

  /** Everyone's grant was issued and a player's was sent too, or else some member's was not. */
  ghost predicate Granted(outside: Outside, audience: Audience, assignments: seq<nat>, granting: Granting)
  {
    match granting
    case Sent => forall a | a in assignments :: outside.grants(a) && (audience.Player? ==> outside.delivers(a))
    case GrantFailed => exists a | a in assignments :: !outside.grants(a)
    case ClientGone => audience.Player? && exists a | a in assignments :: !outside.delivers(a)
  }

  datatype Check = AllConnected | LookupFailed | Missing(clients: seq<nat>)

  function Unconnected(outside: Outside, round: nat): nat -> bool
  {
    (a: nat) => outside.connected(round, a) == Some(false)
  }

  /**
   What looking up the connections in one round comes to: the first lookup that errs
   ends it; otherwise everyone is connected, or the unconnected ones are missing.
   */
  ghost predicate Checked(outside: Outside, round: nat, assignments: seq<nat>, check: Check)
  {
    match check
    case LookupFailed => exists a | a in assignments :: outside.connected(round, a).None?
    case AllConnected => forall a | a in assignments :: outside.connected(round, a) == Some(true)
    case Missing(clients) =>
      && (forall a | a in assignments :: outside.connected(round, a).Some?)
      && clients == Filter(assignments, Unconnected(outside, round)) && clients != []
  }

  ghost predicate SomeTimedOut(s: Sums, assignments: seq<nat>, clients: seq<nat>)
  {
    forall a | a in assignments :: s.StateOf(a) == if a in clients then TimedOut else Ready
  }

  /** The watched servers that were replaced, each found unavailable in its round. */
  ghost predicate FoundUnavailable(outside: Outside, lost: seq<string>)
  {
    forall k | 0 <= k < |lost| :: outside.unavailable(k, lost[k]) == Some(true)
  }

  lemma FoundAnother(outside: Outside, watched: seq<string>)
    requires watched != [] && FoundUnavailable(outside, watched[..|watched| - 1])
    requires outside.unavailable(|watched| - 1, watched[|watched| - 1]) == Some(true)
    ensures FoundUnavailable(outside, watched)
  {
    forall k | 0 <= k < |watched|
      ensures outside.unavailable(k, watched[k]) == Some(true)
    {
      assert k < |watched| - 1 ==> watched[k] == watched[..|watched| - 1][k];
    }
  }

  datatype Ending =
    | NotWatched
    | Settled(check: Check)
    | GaveUp(serverUnavailable: bool, clients: seq<nat>)
    | NotReplaced(error: FlowError)
    | NotGranted(granting: Granting, party: Party)
  {
    /** Whether the last server watched was found unavailable. */
    predicate LastLost()
    {
      match this
      case NotWatched => false
      case Settled(_) => false
      case GaveUp(serverUnavailable, _) => serverUnavailable
      case NotReplaced(_) => true
      case NotGranted(_, _) => true
    }
  }

  /** The answers from outside that left a server unreplaced. */
  ghost predicate EndExplained(outside: Outside, audience: Audience, ending: Ending)
  {
    match ending
    case NotReplaced(error) => Explained(outside, audience, true, true, Err(error))
    case NotGranted(granting, failed) =>
      !granting.Sent? && |failed.ids| == audience.Size() && Granted(outside, audience, failed.ids, granting)
    case _ => true
  }

  /**
   Replacements so far: `watched` lists the servers watched in order, and each
   request asked to avoid all servers watched before it, while nothing but `live`
   was held.
   */
  ghost predicate Replacements(original: AllocationRequest, live: set<nat>, watched: seq<string>, asked: seq<Ask>)
    decreases |asked|
  {
    && |watched| == |asked| + 1
    && (asked == [] ||
        var last, before := asked[|asked| - 1], watched[..|watched| - 1];
        && Replacements(original, live, before, asked[..|asked| - 1])
        && AvoidsWatched(original, live, before, last)
        && last.outcome.Ok? && last.outcome.value.server == watched[|watched| - 1])
  }

  ghost predicate AvoidsWatched(original: AllocationRequest, live: set<nat>, watched: seq<string>, ask: Ask)
  {
    && ask.live == live
    && ask.request == original.(requestId := ask.request.requestId,
                                avoidServerIds := Avoiding(original.avoidServerIds, watched))
  }

  /** The head of the watching loop: one party is live, on the last server watched; all earlier ones were given back. */
  ghost predicate Watching(b: Sums, start: Sums, s: Sums, original: AllocationRequest, request: AllocationRequest,
                           party: Party, watched: seq<string>, asked: seq<Ask>)
  {
    && s.asks == start.asks + asked
    && Replacements(original, b.live, watched, asked)
    && NoDup(watched) && watched[|watched| - 1] == party.server
    && request == original.(requestId := request.requestId,
                            avoidServerIds := Avoiding(original.avoidServerIds, watched[..|watched| - 1]))
    && NoDup(party.ids) && AllIn(s, party.ids, Ready)
    && Keeps(true, b, s, {party.serial}, Ids(party.ids))
  }

  /** The party on the last server watched was given back; the request avoids that server, too. */
  ghost predicate Replacing(b: Sums, start: Sums, s: Sums, original: AllocationRequest, request: AllocationRequest,
                            watched: seq<string>, asked: seq<Ask>)
  {
    && s.asks == start.asks + asked
    && Replacements(original, b.live, watched, asked) && NoDup(watched)
    && request == original.(requestId := request.requestId,
                            avoidServerIds := Avoiding(original.avoidServerIds, watched))
    && Keeps(true, b, s, {}, {})
  }

  /**
   How watching ended; `lost` lists the watched servers that were found unavailable. A party
   is left live when its clients connected, could not be looked up, or were not stored.
   */
  ghost predicate WatchDone(outside: Outside, b: Sums, start: Sums, s: Sums, original: AllocationRequest,
                            maxRetries: nat, ending: Ending, party: Party, watched: seq<string>, lost: seq<string>,
                            asked: seq<Ask>)
  {
    && s.asks == start.asks + asked && |asked| <= maxRetries
    && NoDup(watched)
    && watched != [] && lost == watched[..|watched| - if ending.LastLost() then 0 else 1]
    && FoundUnavailable(outside, lost)
    && WatchEnds(outside, b, s, original, maxRetries, ending, party, watched, asked)
  }

  ghost predicate WatchEnds(outside: Outside, b: Sums, s: Sums, original: AllocationRequest, maxRetries: nat,
                            ending: Ending, party: Party, watched: seq<string>, asked: seq<Ask>)
  {
    match ending
    case NotWatched => asked == []
    case Settled(check) =>
      && Replacements(original, b.live, watched, asked)
      && watched[|watched| - 1] == party.server
      && !check.Missing? && Checked(outside, |asked|, party.ids, check)
      && Keeps(true, b, s, {party.serial}, Ids(party.ids))
    case GaveUp(serverUnavailable, clients) =>
      && Replacements(original, b.live, watched, asked)
      && (serverUnavailable ==> |asked| == maxRetries)
      && (serverUnavailable <==> outside.unavailable(|asked|, party.server) == Some(true))
      && Checked(outside, |asked|, party.ids, Missing(clients))
      && SomeTimedOut(s, party.ids, clients)
      && Keeps(true, b, s, {}, {})
    case NotReplaced(error) =>
      && OneMoreAsked(b, original, watched, asked)
      && Ends(true, b, s, asked[|asked| - 1].outcome, Err(error))
    case NotGranted(_, failed) =>
      && OneMoreAsked(b, original, watched, asked)
      && IsOn(failed, asked[|asked| - 1].outcome)
      && Keeps(true, b, s, {}, {})
  }

  ghost predicate OneMoreAsked(b: Sums, original: AllocationRequest, watched: seq<string>, asked: seq<Ask>)
  {
    && asked != []
    && Replacements(original, b.live, watched, asked[..|asked| - 1])
    && AvoidsWatched(original, b.live, watched, asked[|asked| - 1])
  }

  /** A replacement that avoids the watched servers extends the chain. */
  lemma ReplacementsAppend(original: AllocationRequest, live: set<nat>, watched: seq<string>, asked: seq<Ask>, ask: Ask)
    requires Replacements(original, live, watched, asked) && NoDup(watched)
    requires AvoidsWatched(original, live, watched, ask)
    requires ask.outcome.Ok? && !ask.request.Avoids(ask.outcome.value.server)
    ensures Replacements(original, live, watched + [ask.outcome.value.server], asked + [ask])
    ensures NoDup(watched + [ask.outcome.value.server])
  {
    AvoidingHolds(original.avoidServerIds, watched);
    assert (asked + [ask])[..|asked|] == asked;
    assert (watched + [ask.outcome.value.server])[..|watched|] == watched;
  }

  /** Sends every member a connection grant; a lobby member's socket is not waited for. */
  method GrantAll(flow: Flow, audience: Audience, party: Party) returns (granting: Granting)
    requires flow.Valid() && AllIn(flow.Sum(), party.ids, Prepared)
    requires NoDup(party.ids) && forall a | a in party.ids :: a < flow.nextAssignment
    modifies flow`log
    ensures flow.Valid() && flow.Sum() == old(flow.Sum()).(states := flow.Sum().states)
    ensures granting.Sent? ==> AllIn(flow.Sum(), party.ids, Ready)
    ensures Granted(flow.outside, audience, party.ids, granting)
  {
    ghost var s := flow.Sum();
    var i := 0;
    while i < |party.ids|
      invariant 0 <= i <= |party.ids|
      invariant flow.Valid() && flow.Sum() == s.(states := flow.Sum().states)
      invariant forall a :: flow.Sum().StateOf(a) == if a in party.ids[..i] then Ready else s.StateOf(a)
      invariant Granted(flow.outside, audience, party.ids[..i], Sent)
    {
      TakeNext(party.ids, i);
      if !flow.outside.grants(party.ids[i]) {
        return GrantFailed;
      } else if audience.Player? && !flow.outside.delivers(party.ids[i]) {
        return ClientGone;
      }
      flow.Move(party.ids[i], Prepared, Ready);
      i := i + 1;
    }
    return Sent;
  }

  /** Looks up every client's connection in turn; the first lookup error ends it. */
  method CheckConnections(flow: Flow, round: nat, party: Party) returns (check: Check)
    ensures Checked(flow.outside, round, party.ids, check)
  {
    var missing := [];
    var i := 0;
    while i < |party.ids|
      invariant 0 <= i <= |party.ids|
      invariant forall a | a in party.ids[..i] :: flow.outside.connected(round, a).Some?
      invariant missing == Filter(party.ids[..i], Unconnected(flow.outside, round))
    {
      var answer := flow.outside.connected(round, party.ids[i]);
      if answer.None? {
        return LookupFailed;
      }
      TakeNext(party.ids, i);
      FilterTake(party.ids, i, Unconnected(flow.outside, round));
      if !answer.value {
        missing := missing + [party.ids[i]];
      }
      i := i + 1;
    }
    assert party.ids[..i] == party.ids;
    if missing == [] {
      NoneMissing(flow.outside, round, party.ids);
      forall a | a in party.ids
        ensures flow.outside.connected(round, a) == Some(true)
      {
        assert flow.outside.connected(round, a).Some? && flow.outside.connected(round, a).value;
      }
      return AllConnected;
    }
    return Missing(missing);
  }

  lemma {:induction false} NoneMissing(outside: Outside, round: nat, assignments: seq<nat>)
    requires Filter(assignments, Unconnected(outside, round)) == []
    ensures forall a | a in assignments && outside.connected(round, a).Some? :: outside.connected(round, a).value
  {
    if assignments != [] {
      NoneMissing(outside, round, assignments[1..]);
    }
  }

  lemma MissingAreMembers(outside: Outside, round: nat, assignments: seq<nat>, clients: seq<nat>)
    requires Checked(outside, round, assignments, Missing(clients)) && NoDup(assignments)
    ensures NoDup(clients) && forall a | a in clients :: a in assignments
  {
    FilterKeepsDistinct(assignments, Unconnected(outside, round));
  }

  /** Logs the unconnected members of a party as timed out. */
  method TimeOut(flow: Flow, party: Party, clients: seq<nat>)
    requires flow.Valid() && AllIn(flow.Sum(), party.ids, Ready) && forall a | a in party.ids :: a < flow.nextAssignment
    requires NoDup(clients) && forall a | a in clients :: a in party.ids
    modifies flow`log
    ensures flow.Valid() && flow.Sum() == old(flow.Sum()).(states := flow.Sum().states)
    ensures SomeTimedOut(flow.Sum(), party.ids, clients)
  {
    ghost var s := flow.Sum();
    var i := 0;
    while i < |clients|
      invariant 0 <= i <= |clients|
      invariant flow.Valid() && flow.Sum() == s.(states := flow.Sum().states)
      invariant SomeTimedOut(flow.Sum(), party.ids, clients[..i])
    {
      TakeNext(clients, i);
      flow.Move(clients[i], Ready, TimedOut);
      i := i + 1;
    }
    assert clients[..i] == clients;
  }

  lemma WatchingGoesOn(b: Sums, start: Sums, s: Sums, t: Sums, original: AllocationRequest, request: AllocationRequest,
                       watched: seq<string>, asked: seq<Ask>, ask: Ask, party: Party)
    requires Replacements(original, b.live, watched, asked) && NoDup(watched) && s.asks == start.asks + asked
    requires AvoidsWatched(original, b.live, watched, ask) && !ask.request.Avoids(party.server)
    requires request == original.(requestId := request.requestId,
                                  avoidServerIds := Avoiding(original.avoidServerIds, watched))
    requires t.asks == s.asks + [ask] && IsOn(party, ask.outcome)
    requires NoDup(party.ids) && AllIn(t, party.ids, Ready) && Keeps(true, b, t, {party.serial}, Ids(party.ids))
    ensures Watching(b, start, t, original, request, party, watched + [party.server], asked + [ask])
  {
    ReplacementsAppend(original, b.live, watched, asked, ask);
    assert (watched + [party.server])[..|watched|] == watched;
  }

  lemma NextRequest(original: AllocationRequest, current: AllocationRequest, before: seq<string>, server: string)
    requires current == original.(requestId := current.requestId,
                                  avoidServerIds := Avoiding(original.avoidServerIds, before))
    ensures AvoidAlso(current, server) ==
            original.(requestId := current.requestId,
                      avoidServerIds := Avoiding(original.avoidServerIds, before + [server]))
  {
    AvoidingAppend(original.avoidServerIds, before, server);
  }

  /** With the party given back, the next request, under any id, replaces its server. */
  lemma GivenBack(b: Sums, start: Sums, held: Sums, s: Sums, original: AllocationRequest, current: AllocationRequest,
                  requestId: string, party: Party, watched: seq<string>, asked: seq<Ask>)
    requires Watching(b, start, held, original, current, party, watched, asked)
    requires s.asks == held.asks && Keeps(true, b, s, {}, {})
    ensures var request := AvoidAlso(current, party.server).(requestId := requestId);
            Replacing(b, start, s, original, request, watched, asked)
  {
    var before := watched[..|watched| - 1];
    assert before + [party.server] == watched;
    NextRequest(original, current, before, party.server);
  }

  /** Without a replacement, watching ends after one more request. */
  lemma EndsUnreplaced(outside: Outside, b: Sums, start: Sums, s: Sums, t: Sums, original: AllocationRequest,
                       maxRetries: nat, party: Party, watched: seq<string>, asked: seq<Ask>, ask: Ask, ending: Ending)
    requires Replacements(original, b.live, watched, asked) && NoDup(watched)
    requires s.asks == start.asks + asked && t.asks == s.asks + [ask] && |asked| < maxRetries
    requires AvoidsWatched(original, b.live, watched, ask)
    requires if ending.NotReplaced? then Ends(true, b, t, ask.outcome, Err(ending.error))
             else ending.NotGranted? && IsOn(ending.party, ask.outcome) && Keeps(true, b, t, {}, {})
    requires FoundUnavailable(outside, watched)
    ensures WatchDone(outside, b, start, t, original, maxRetries, ending, party, watched, watched, asked + [ask])
  {
    assert (asked + [ask])[..|asked|] == asked;
  }

  /** Watching ends with the party live when the check settles it. */
  lemma EndsSettled(outside: Outside, b: Sums, start: Sums, s: Sums, original: AllocationRequest,
                    request: AllocationRequest, maxRetries: nat, party: Party, watched: seq<string>, asked: seq<Ask>,
                    check: Check)
    requires Watching(b, start, s, original, request, party, watched, asked) && |asked| <= maxRetries
    requires FoundUnavailable(outside, watched[..|watched| - 1])
    requires !check.Missing? && Checked(outside, |asked|, party.ids, check)
    ensures WatchDone(outside, b, start, s, original, maxRetries, Settled(check), party, watched,
                      watched[..|watched| - 1], asked)
  {
  }

  /** Watching ends with the party given back when there is no replacing it. */
  lemma EndsGivingUp(outside: Outside, b: Sums, start: Sums, s: Sums, t: Sums, original: AllocationRequest,
                     request: AllocationRequest, maxRetries: nat, party: Party, watched: seq<string>,
                     lost: seq<string>, asked: seq<Ask>, clients: seq<nat>, serverUnavailable: bool)
    requires Watching(b, start, s, original, request, party, watched, asked) && |asked| <= maxRetries
    requires lost == (if serverUnavailable then watched else watched[..|watched| - 1])
    requires FoundUnavailable(outside, lost)
    requires serverUnavailable <==> outside.unavailable(|asked|, party.server) == Some(true)
    requires serverUnavailable ==> |asked| == maxRetries
    requires Checked(outside, |asked|, party.ids, Missing(clients))
    requires t.asks == s.asks && Keeps(true, b, t, {}, {})
    requires SomeTimedOut(t, party.ids, clients)
    ensures WatchDone(outside, b, start, t, original, maxRetries, GaveUp(serverUnavailable, clients), party, watched,
                      lost, asked)
  {
  }

  /** A single attempt is asked for with the request as it is, under any id. */
  lemma SingleAttempt(b: Sums, s: Sums, t: Sums, request: AllocationRequest, asked: seq<Ask>,
                      r: Result<Party, FlowError>)
    requires RetriesDone(true, 0, s, t, request, asked, r) && Keeps(true, b, s, {}, {})
    ensures asked == [asked[0]] && asked[0].live == b.live
    ensures asked[0].request == request.(requestId := asked[0].request.requestId)
    ensures t.asks == s.asks + [asked[0]]
    ensures Ends(true, b, t, asked[0].outcome, r)
  {
    EndsOnward(true, b, s, t, asked[0].outcome, r);
    assert Avoiding(request.avoidServerIds, Servers(asked[..0])) == request.avoidServerIds;
  }

  /** One replacement, prepared and granted or cleaned up again. */
  method Replace(flow: Flow, audience: Audience, request: AllocationRequest, ghost b: Sums)
    returns (r: Result<Party, Ending>, ghost ask: Ask)
    requires flow.Valid() && flow.coordinated && flow.requirePrepare && Keeps(true, b, flow.Sum(), {}, {})
    modifies flow
    ensures flow.Valid() && flow.Sum().asks == old(flow.Sum()).asks + [ask]
    ensures Answers(flow.source, ask.request, ask.outcome)
    ensures ask.live == b.live && ask.request == request.(requestId := ask.request.requestId)
    ensures match r
            case Ok(party) =>
              && IsOn(party, ask.outcome) && !ask.request.Avoids(party.server)
              && NoDup(party.ids) && (forall a | a in party.ids :: a < flow.nextAssignment)
              && |party.ids| == audience.Size() && AllIn(flow.Sum(), party.ids, Ready)
              && Keeps(true, b, flow.Sum(), {party.serial}, Ids(party.ids))
              && flow.Confirmed(audience, Ok(party)) && Granted(flow.outside, audience, party.ids, Sent)
            case Err(ending) =>
              && (if ending.NotReplaced? then Ends(true, b, flow.Sum(), ask.outcome, Err(ending.error))
                  else ending.NotGranted? && IsOn(ending.party, ask.outcome) && Keeps(true, b, flow.Sum(), {}, {}))
              && EndExplained(flow.outside, audience, ending)
  {
    ghost var s := flow.Sum();
    ghost var asked;
    var next;
    next, asked := flow.CreatePreparedWithRetries(audience, request, 0);
    SingleAttempt(b, s, flow.Sum(), request, asked, next);
    ask := asked[0];
    if next.Err? {
      return Err(NotReplaced(next.error)), ask;
    }
    var granting := GrantAll(flow, audience, next.value);
    if !granting.Sent? {
      flow.QueueCleanup(next.value, b);
      return Err(NotGranted(granting, next.value)), ask;
    }
    r := Ok(next.value);
  }

  /** Logs who is missing from a party that was given back and is not replaced. */
  method GiveUp(flow: Flow, party: Party, clients: seq<nat>, serverUnavailable: bool, ghost original: AllocationRequest,
                ghost current: AllocationRequest, ghost b: Sums, ghost start: Sums, ghost held: Sums,
                ghost watched: seq<string>, ghost lost: seq<string>, ghost asked: seq<Ask>)
    returns (ending: Ending)
    requires flow.Valid() && (forall a | a in party.ids :: a < flow.nextAssignment)
    requires Watching(b, start, held, original, current, party, watched, asked) && |asked| <= flow.maxRetries
    requires flow.Sum() == held.(live := flow.Sum().live, pending := flow.Sum().pending)
    requires Keeps(true, b, flow.Sum(), {}, {})
    requires lost == (if serverUnavailable then watched else watched[..|watched| - 1])
    requires FoundUnavailable(flow.outside, lost)
    requires serverUnavailable <==> flow.outside.unavailable(|asked|, party.server) == Some(true)
    requires serverUnavailable ==> |asked| == flow.maxRetries
    requires Checked(flow.outside, |asked|, party.ids, Missing(clients))
    modifies flow`log
    ensures flow.Valid() && ending == GaveUp(serverUnavailable, clients)
    ensures var done := WatchDone(flow.outside, b, start, flow.Sum(), original, flow.maxRetries, ending, party,
                                  watched, lost, asked);
            done
  {
    MissingAreMembers(flow.outside, |asked|, party.ids, clients);
    TimeOut(flow, party, clients);
    EndsGivingUp(flow.outside, b, start, held, flow.Sum(), original, current, flow.maxRetries, party, watched, lost,
                 asked, clients, serverUnavailable);
    ending := GaveUp(serverUnavailable, clients);
  }

  /** Replaces a server that was found unavailable; watching ends when that fails. */
  method ReplaceLost(flow: Flow, audience: Audience, request: AllocationRequest, ghost original: AllocationRequest,
                     ghost party: Party, ghost b: Sums, ghost start: Sums, ghost watched: seq<string>,
                     ghost asked: seq<Ask>)
    returns (r: Result<Party, Ending>, ghost ask: Ask)
    requires flow.Valid() && flow.coordinated && flow.requirePrepare
    requires Replacing(b, start, flow.Sum(), original, request, watched, asked) && |asked| < flow.maxRetries
    requires FoundUnavailable(flow.outside, watched) && AllAnswered(flow.source, asked)
    modifies flow
    ensures flow.Valid() && AllAnswered(flow.source, asked + [ask])
    ensures match r
            case Ok(next) =>
              && (var on := Watching(b, start, flow.Sum(), original, request, next, watched + [next.server],
                                     asked + [ask]);
                  on)
              && |next.ids| == audience.Size() && forall a | a in next.ids :: a < flow.nextAssignment
            case Err(ending) =>
              ending.LastLost() && !ending.GaveUp? && EndExplained(flow.outside, audience, ending) &&
              var done := WatchDone(flow.outside, b, start, flow.Sum(), original, flow.maxRetries, ending, party,
                                    watched, watched, asked + [ask]);
              done
  {
    ghost var s := flow.Sum();
    r, ask := Replace(flow, audience, request, b);
    AnsweredAppend(flow.source, asked, ask);
    if r.Ok? {
      WatchingGoesOn(b, start, s, flow.Sum(), original, request, watched, asked, ask, r.value);
    } else {
      EndsUnreplaced(flow.outside, b, start, s, flow.Sum(), original, flow.maxRetries, party, watched, asked, ask,
                     r.error);
    }
  }

  /**
   The end of a round in which clients were missing: the party is given back, and
   replaced if its server is unavailable and the budget allows it.
   */
  method EndRound(flow: Flow, audience: Audience, original: AllocationRequest, current: AllocationRequest,
                  retriesRemaining: nat, party: Party, clients: seq<nat>,
                  ghost b: Sums, ghost start: Sums, ghost watched: seq<string>, ghost asked: seq<Ask>)
    returns (r: Result<Party, Ending>, request: AllocationRequest, ghost lost: seq<string>, ghost more: seq<Ask>)
    requires flow.Valid() && flow.coordinated && flow.requirePrepare
    requires forall a | a in party.ids :: a < flow.nextAssignment
    requires Watching(b, start, flow.Sum(), original, current, party, watched, asked)
    requires FoundUnavailable(flow.outside, watched[..|watched| - 1]) && AllAnswered(flow.source, asked)
    requires |asked| + retriesRemaining == flow.maxRetries
    requires Checked(flow.outside, |asked|, party.ids, Missing(clients))
    modifies flow
    ensures flow.Valid() && AllAnswered(flow.source, asked + more)
    ensures more != [] ==> request.requestId == flow.outside.requestIds(old(flow.drawn))
    ensures match r
            case Ok(next) =>
              && retriesRemaining > 0 && |more| == 1
              && (var on := Watching(b, start, flow.Sum(), original, request, next, watched + [next.server],
                                     asked + more);
                  on)
              && FoundUnavailable(flow.outside, watched) && |next.ids| == audience.Size()
              && forall a | a in next.ids :: a < flow.nextAssignment
            case Err(ending) =>
              !ending.NotWatched? && EndExplained(flow.outside, audience, ending) &&
              var done := WatchDone(flow.outside, b, start, flow.Sum(), original, flow.maxRetries, ending, party,
                                    watched, lost, asked + more);
              done
  {
    ghost var held := flow.Sum();
    var serverUnavailable := flow.outside.unavailable(flow.maxRetries - retriesRemaining, party.server) == Some(true);
    lost, more, request := if serverUnavailable then watched else watched[..|watched| - 1], [], current;
    assert asked + [] == asked && |watched| == |asked| + 1;
    if serverUnavailable {
      FoundAnother(flow.outside, watched);
    }
    assert FoundUnavailable(flow.outside, lost);
    flow.QueueCleanup(party, b);
    if !serverUnavailable || retriesRemaining == 0 {
      var ending := GiveUp(flow, party, clients, serverUnavailable, original, current, b, start, held, watched, lost,
                           asked);
      return Err(ending), request, lost, more;
    }
    request := flow.DrawRequestId(AvoidAlso(request, party.server));
    GivenBack(b, start, held, flow.Sum(), original, current, request.requestId, party, watched, asked);
    ghost var ask;
    r, ask := ReplaceLost(flow, audience, request, original, party, b, start, watched, asked);
    more := [ask];
  }

  /**
   The watching loop. `b` is the state before the party was obtained and `original`
   the request as it was before preparation, so servers that failed in preparation
   are not among the avoided ones.
   */
  method Watch(flow: Flow, audience: Audience, original: AllocationRequest, first: Party, ghost b: Sums)
    returns (ending: Ending, party: Party, ghost watched: seq<string>, ghost lost: seq<string>, ghost asked: seq<Ask>)
    requires flow.Valid() && NoDup(first.ids) && AllIn(flow.Sum(), first.ids, Ready)
    requires |first.ids| == audience.Size() && forall a | a in first.ids :: a < flow.nextAssignment
    requires flow.coordinated ==> Keeps(true, b, flow.Sum(), {first.serial}, Ids(first.ids))
    modifies flow
    ensures flow.Valid()
    ensures ending.NotWatched? <==> !flow.requirePrepare || !flow.coordinated
    ensures ending.NotWatched? ==> flow.Sum() == old(flow.Sum()) && party == first
    ensures watched != [] && watched[0] == first.server
    ensures AllAnswered(flow.source, asked)
    ensures |party.ids| == audience.Size() && EndExplained(flow.outside, audience, ending)
    ensures var done := WatchDone(flow.outside, b, old(flow.Sum()), flow.Sum(), original, flow.maxRetries, ending,
                                  party, watched, lost, asked);
            done
  {
    party, watched, lost, asked := first, [first.server], [], [];
    if !flow.requirePrepare || !flow.coordinated {
      return NotWatched, party, watched, lost, asked;
    }
    ghost var start := flow.Sum();
    var request, retriesRemaining := original, flow.maxRetries;
    while true
      invariant flow.Valid() && |asked| + retriesRemaining == flow.maxRetries
      invariant watched != [] && watched[0] == first.server
      invariant Watching(b, start, flow.Sum(), original, request, party, watched, asked)
      invariant FoundUnavailable(flow.outside, watched[..|watched| - 1]) && AllAnswered(flow.source, asked)
      invariant |party.ids| == audience.Size() && forall a | a in party.ids :: a < flow.nextAssignment
      decreases retriesRemaining
    {
      var check := CheckConnections(flow, flow.maxRetries - retriesRemaining, party);
      if !check.Missing? {
        lost := watched[..|watched| - 1];
        EndsSettled(flow.outside, b, start, flow.Sum(), original, request, flow.maxRetries, party, watched, asked,
                    check);
        return Settled(check), party, watched, lost, asked;
      }
      ghost var more, before := [], watched;
      var next;
      next, request, lost, more :=
        EndRound(flow, audience, original, request, retriesRemaining, party, check.clients, b, start, watched, asked);
      asked := asked + more;
      if next.Err? {
        return next.error, party, watched, lost, asked;
      }
      retriesRemaining := retriesRemaining - 1;
      party, watched := next.value, watched + [next.value.server];
      assert watched[..|watched| - 1] == before;
    }
  }

  // The whole life of one request.

  datatype Outcome = NotCreated(error: FlowError) | Abandoned(granting: Granting) | Served(ending: Ending)

  /**
   What stays live at the end: the party, when it was granted to nobody or its
   clients connected or could not be looked up or nobody watches; or the
   allocation of a party that could not be stored.
   */
  function Left(outcome: Outcome, party: Party): Option<Party>
  {
    match outcome
    case NotCreated(error) => Orphans(error)
    case Abandoned(_) => Some(party)
    case Served(NotWatched) => Some(party)
    case Served(Settled(_)) => Some(party)
    case Served(GaveUp(_, _)) => None
    case Served(NotReplaced(error)) => Orphans(error)
    case Served(NotGranted(_, _)) => None
  }

  function Orphans(error: FlowError): Option<Party>
  {
    match error
    case NotStored(orphans, _) => Some(orphans)
    case Refused(_) => None
    case NotNotified(_) => None
    case NotPrepared(_) => None
  }

  ghost predicate Leaves(b: Sums, s: Sums, left: Option<Party>)
  {
    match left
    case Some(party) => Keeps(true, b, s, {party.serial}, Ids(party.ids))
    case None => Keeps(true, b, s, {}, {})
  }

  lemma WatchLeaves(outside: Outside, b: Sums, start: Sums, s: Sums, original: AllocationRequest, maxRetries: nat,
                    ending: Ending, party: Party, watched: seq<string>, lost: seq<string>, asked: seq<Ask>)
    requires WatchDone(outside, b, start, s, original, maxRetries, ending, party, watched, lost, asked)
    requires ending.NotWatched? ==> Keeps(true, b, s, {party.serial}, Ids(party.ids))
    ensures Leaves(b, s, Left(Served(ending), party))
  {
  }

  /** The first replacement avoids just the first server watched, on top of what the original request avoids. */
  lemma {:induction false} FirstReplacement(original: AllocationRequest, live: set<nat>, watched: seq<string>,
                                            asked: seq<Ask>)
    requires Replacements(original, live, watched, asked) && asked != []
    ensures AvoidsWatched(original, live, [watched[0]], asked[0])
  {
    if |asked| == 1 {
      assert watched[..|watched| - 1] == [watched[0]];
    } else {
      FirstReplacement(original, live, watched[..|watched| - 1], asked[..|asked| - 1]);
    }
  }

  lemma FirstAsked(outside: Outside, b: Sums, start: Sums, s: Sums, original: AllocationRequest, maxRetries: nat,
                   ending: Ending, party: Party, watched: seq<string>, lost: seq<string>, asked: seq<Ask>)
    requires WatchDone(outside, b, start, s, original, maxRetries, ending, party, watched, lost, asked) && asked != []
    ensures AvoidsWatched(original, b.live, [watched[0]], asked[0])
  {
    if ending.NotReplaced? || ending.NotGranted? {
      var before := asked[..|asked| - 1];
      if before == [] {
        assert watched == [watched[0]];
      } else {
        FirstReplacement(original, b.live, watched, before);
      }
    } else {
      FirstReplacement(original, b.live, watched, asked);
    }
  }

  /** Serves one request from the first attempt to the end of watching. */
  method Assign(flow: Flow, audience: Audience, request: AllocationRequest)
    returns (outcome: Outcome, party: Party, ghost created: Result<Party, FlowError>, ghost middle: Sums,
             ghost prepared: seq<Ask>, ghost watched: seq<string>, ghost replaced: seq<Ask>)
    requires flow.Valid()
    modifies flow
    ensures flow.Valid()
    ensures flow.coordinated ==> Leaves(old(flow.Sum()), flow.Sum(), Left(outcome, party))
    ensures flow.Sum().asks == old(flow.Sum()).asks + prepared + replaced
    ensures var done := RetriesDone(flow.coordinated, if flow.requirePrepare then flow.maxRetries else 0,
                                    old(flow.Sum()), middle, request, prepared, created);
            done
    ensures |replaced| <= flow.maxRetries && NoDup(watched)
    ensures AllAnswered(flow.source, prepared) && AllAnswered(flow.source, replaced)
    ensures flow.Confirmed(audience, created)
    ensures if created.Err? then outcome == NotCreated(created.error) else !outcome.NotCreated?
    ensures created.Ok? ==> |created.value.ids| == |party.ids| == audience.Size()
    ensures outcome.Abandoned? ==>
              !outcome.granting.Sent? && Granted(flow.outside, audience, party.ids, outcome.granting)
    ensures outcome.Abandoned? ==> party == created.value
    ensures outcome.Served? ==>
              && Granted(flow.outside, audience, created.value.ids, Sent)
              && EndExplained(flow.outside, audience, outcome.ending)
    ensures outcome.Served? && outcome.ending.NotWatched? ==> AllIn(flow.Sum(), party.ids, Ready)
    ensures outcome.Served? && outcome.ending.Settled? ==>
              Checked(flow.outside, |replaced|, party.ids, outcome.ending.check)
    ensures replaced != [] ==>
              created.Ok? && AvoidsWatched(request, old(flow.Sum()).live, [created.value.server], replaced[0])
  {
    ghost var b := flow.Sum();
    var retries := if flow.requirePrepare then flow.maxRetries else 0;
    var grant;
    grant, prepared := flow.CreatePreparedWithRetries(audience, request, retries);
    created, middle := grant, flow.Sum();
    watched, replaced := [], [];
    if grant.Err? {
      return NotCreated(grant.error), Party([], 0, ""), created, middle, prepared, watched, replaced;
    }
    party := grant.value;
    var granting := GrantAll(flow, audience, party);
    if !granting.Sent? {
      return Abandoned(granting), party, created, middle, prepared, watched, replaced;
    }
    ghost var start := flow.Sum();
    ghost var lost;
    var ending;
    ending, party, watched, lost, replaced := Watch(flow, audience, request, party, b);
    outcome := Served(ending);
    if replaced != [] {
      FirstAsked(flow.outside, b, start, flow.Sum(), request, flow.maxRetries, ending, party, watched, lost, replaced);
    }
    if flow.coordinated {
      WatchLeaves(flow.outside, b, start, flow.Sum(), request, flow.maxRetries, ending, party, watched, lost, replaced);
    }
  }

  /** Every run keeps to the formal state machine, and releases and deletes at most once what it obtained and stored. */
  lemma RunsAreLawful(flow: Flow, a: nat, serial: nat)
    requires flow.Valid()
    ensures LegalChain(History(flow.log, a)) && |History(flow.log, a)| <= 7
    ensures Count(flow.log, Releases(serial)) <= Count(flow.log, Grants(serial)) <= 1
    ensures Count(flow.log, Erases(a)) == Count(flow.log, Deletes(a)) <= Count(flow.log, Stores(a)) <= 1
    ensures serial in flow.Sum().live <==>
            Count(flow.log, Grants(serial)) == 1 && Count(flow.log, Releases(serial)) == 0
    ensures a in flow.Sum().pending <==>
            Count(flow.log, Stores(a)) == 1 && Count(flow.log, Deletes(a)) == 0
  {
    LawfulHistory(flow.log, a);
    LawfulHistoryIsShort(flow.log, a);
    ReleasedOnce(flow.log, serial);
    DeletedOnce(flow.log, a);
  }

  /**
   The balance of a request served from scratch: every allocation granted was handed
   to the queue for release exactly once, and every assignment persisted was erased
   and handed to it for deletion exactly once, save what the outcome leaves live.
   */
  lemma EverythingGivenBack(flow: Flow, left: Option<Party>, serial: nat, a: nat)
    requires flow.Valid() && Leaves(NOTHING, flow.Sum(), left)
    ensures Count(flow.log, Releases(serial)) ==
            Count(flow.log, Grants(serial)) - if left.Some? && serial == left.value.serial then 1 else 0
    ensures Count(flow.log, Deletes(a)) == Count(flow.log, Erases(a)) ==
            Count(flow.log, Stores(a)) - if left.Some? && a in left.value.ids then 1 else 0
  {
    ReleasedOnce(flow.log, serial);
    DeletedOnce(flow.log, a);
  }
}

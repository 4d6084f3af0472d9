/**
 The retry loop over a fixed list of servers with distinct ids: attempt j tries
 the j-th eligible server by latency rank, players and id, until one prepares the
 assignment, the budget is spent or the list runs out.
 */
module FixedFleet {
  import opened Wrappers
  import opened Provider
  import opened Placement
  import opened Selection
  import opened Ledger
  import opened Orchestration
  import opened Monitoring

  function Id(s: StaticServer): string
  {
    s.id
  }

  function AvoidIds(request: AllocationRequest, servers: seq<string>): AllocationRequest
  {
    request.(avoidServerIds := Avoiding(request.avoidServerIds, servers))
  }

  /** The request id plays no part in the ranking. */
  lemma RankingIgnoresRequestId(servers: seq<StaticServer>, request: AllocationRequest, requestId: string)
    ensures Ranking(servers, request.(requestId := requestId)) == Ranking(servers, request)
  {
    var other := request.(requestId := requestId);
    FilterExt(servers, IsAccepted(request), IsAccepted(other));
    assert StaticKeyFor(request) == StaticKeyFor(other);
  }

  lemma RankPrefix(ranking: seq<StaticServer>, k: nat)
    requires k < |ranking|
    ensures Map(ranking[..k + 1], Id) == Map(ranking[..k], Id) + [ranking[k].id]
  {
  }

  /** Avoiding one more listed server is avoiding it last. */
  lemma AvoidNext(request: AllocationRequest, ranking: seq<StaticServer>, k: nat)
    requires k < |ranking|
    ensures AvoidIds(request, Map(ranking[..k + 1], Id)) ==
            AvoidAlso(AvoidIds(request, Map(ranking[..k], Id)), ranking[k].id)
  {
    AvoidingAppend(request.avoidServerIds, Map(ranking[..k], Id), ranking[k].id);
    RankPrefix(ranking, k);
  }

  /** Avoiding the first servers of the ranking leaves the rest of it. */
  lemma {:induction false} RankingRest(servers: seq<StaticServer>, request: AllocationRequest, k: nat)
    requires DistinctIds(servers) && k <= |Ranking(servers, request)|
    ensures Ranking(servers, AvoidIds(request, Map(Ranking(servers, request)[..k], Id))) ==
            Ranking(servers, request)[k..]
  {
    var ranking := Ranking(servers, request);
    if k == 0 {
      assert AvoidIds(request, []) == request;
    } else {
      RankingRest(servers, request, k - 1);
      AvoidNext(request, ranking, k - 1);
      RankingTail(servers, AvoidIds(request, Map(ranking[..k - 1], Id)));
      assert ranking[k - 1..][1..] == ranking[k..];
    }
  }

  /** What a fixed list answers once the first k of its ranking are avoided. */
  lemma AnswerAt(servers: seq<StaticServer>, original: AllocationRequest, k: nat, request: AllocationRequest,
                 answer: Result<Allocation, AllocationError>)
    requires DistinctIds(servers) && original.Valid() && k <= |Ranking(servers, original)|
    requires request == AvoidIds(original, Map(Ranking(servers, original)[..k], Id)).(requestId := request.requestId)
    requires Answers(FixedList(servers), request, answer)
    ensures if k < |Ranking(servers, original)|
            then answer.Ok? && answer.value.server == Ranking(servers, original)[k].id
            else answer == Err(NoCapacity)
  {
    RankingRest(servers, original, k);
    RankingIgnoresRequestId(servers, AvoidIds(original, Map(Ranking(servers, original)[..k], Id)), request.requestId);
    HeadOfSort(Filter(servers, IsAccepted(request)), StaticKeyFor(request));
  }

  lemma TakeOfMap(ranking: seq<StaticServer>, k: nat)
    requires k <= |ranking|
    ensures Map(ranking[..k], Id) == Map(ranking, Id)[..k]
    ensures k == |ranking| ==> Map(ranking[..k], Id) == Map(ranking, Id)
  {
  }

  /** The servers granted along the chain are the first ones of the ranking. */
  lemma {:induction false} GrantedInRankOrder(servers: seq<StaticServer>, original: AllocationRequest, asked: seq<Ask>)
    requires DistinctIds(servers) && original.Valid()
    requires AvoidingChain(original, asked) && AllGranted(asked)
    requires AllAnswered(FixedList(servers), asked)
    ensures |asked| <= |Ranking(servers, original)|
    ensures Servers(asked) == Map(Ranking(servers, original)[..|asked|], Id)
    decreases |asked|
  {
    if asked != [] {
      var before, last := asked[..|asked| - 1], asked[|asked| - 1];
      GrantedInRankOrder(servers, original, before);
      AnswerAt(servers, original, |before|, last.request, last.outcome);
      RankPrefix(Ranking(servers, original), |before|);
    }
  }

  /** The last request finds a server exactly when the ranking is longer than the attempts before it. */
  lemma LastAnswer(servers: seq<StaticServer>, original: AllocationRequest, asked: seq<Ask>)
    requires DistinctIds(servers) && original.Valid() && asked != []
    requires AvoidingChain(original, asked) && AllGranted(asked[..|asked| - 1])
    requires AllAnswered(FixedList(servers), asked)
    ensures var ranking, last := Ranking(servers, original), asked[|asked| - 1].outcome;
            && Servers(asked) <= Map(ranking, Id)
            && |asked| <= |ranking| + 1
            && if |asked| <= |ranking| then last.Ok? && last.value.server == ranking[|asked| - 1].id
               else last == Err(NoCapacity) && Servers(asked) == Map(ranking, Id)
    ensures |Servers(asked)| == |asked| - if asked[|asked| - 1].outcome.Ok? then 0 else 1
  {
    var ranking := Ranking(servers, original);
    var before, last := asked[..|asked| - 1], asked[|asked| - 1];
    GrantedInRankOrder(servers, original, before);
    AnswerAt(servers, original, |before|, last.request, last.outcome);
    if |asked| <= |ranking| {
      RankPrefix(ranking, |before|);
      TakeOfMap(ranking, |asked|);
    } else {
      TakeOfMap(ranking, |before|);
    }
  }

  lemma DistinctTried(servers: seq<StaticServer>, request: AllocationRequest, tried: seq<string>)
    requires DistinctIds(servers) && tried <= Map(Ranking(servers, request), Id)
    ensures NoDup(tried)
  {
    DistinctRanking(servers, request);
  }

  /**
   The whole loop, when storing and notifying succeed: it tries a duplicate-free
   prefix of the ranking, and it ends for want of capacity exactly when the
   ranking holds no more servers than there are retries.
   */
  lemma RunsOutFirst(servers: seq<StaticServer>, coordinated: bool, retries: nat, b: Sums, s: Sums,
                     original: AllocationRequest, asked: seq<Ask>, r: Result<Party, FlowError>)
    requires DistinctIds(servers) && original.Valid()
    requires RetriesDone(coordinated, retries, b, s, original, asked, r)
    requires AllAnswered(FixedList(servers), asked)
    requires r.Err? ==> r.error.Refused? || r.error.NotPrepared?
    ensures Servers(asked) <= Map(Ranking(servers, original), Id) && NoDup(Servers(asked))
    ensures r.Ok? ==> |asked| <= |Ranking(servers, original)| &&
                      r.value.server == Ranking(servers, original)[|asked| - 1].id
    ensures r.Err? ==> (r.error == Refused(NoCapacity) <==> |Ranking(servers, original)| <= retries)
    ensures r == Err(Refused(NoCapacity)) ==> Servers(asked) == Map(Ranking(servers, original), Id)
    ensures r.Err? && r.error.NotPrepared? ==> |Servers(asked)| == retries + 1
  {
    LastAnswer(servers, original, asked);
    DistinctTried(servers, original, Servers(asked));
  }

  /** With one server of the ranking avoided, the first of the others is picked. */
  lemma AvoidingOne(servers: seq<StaticServer>, original: AllocationRequest, k: nat)
    requires DistinctIds(servers) && k < |Ranking(servers, original)|
    ensures var ranking := Ranking(servers, original);
            ChooseStatic(servers, AvoidAlso(original, ranking[k].id)) ==
            if k > 0 then Some(ranking[0]) else Head(ranking[1..])
  {
    var ranking := Ranking(servers, original);
    var key := StaticKeyFor(original);
    var avoiding := AvoidAlso(original, ranking[k].id);
    DistinctRanking(servers, original);
    FilterFilter(servers, IsAccepted(original), NotStatic(ranking[k].id));
    FilterExt(servers, Both(IsAccepted(original), NotStatic(ranking[k].id)), IsAccepted(avoiding));
    FilterSort(Filter(servers, IsAccepted(original)), key, NotStatic(ranking[k].id));
    assert StaticKeyFor(avoiding) == key;
    HeadOfSort(Filter(servers, IsAccepted(avoiding)), key);
    if k == 0 {
      assert ranking == [ranking[0]] + ranking[1..];
      FilterAll(ranking[1..], NotStatic(ranking[0].id));
    }
  }

  /** The static selection does not look at the request id. */
  lemma ChoiceIgnoresRequestId(servers: seq<StaticServer>, request: AllocationRequest, requestId: string)
    ensures ChooseStatic(servers, request.(requestId := requestId)) == ChooseStatic(servers, request)
  {
    FilterExt(servers, IsAccepted(request), IsAccepted(request.(requestId := requestId)));
    assert StaticKeyFor(request.(requestId := requestId)) == StaticKeyFor(request);
  }

  lemma ReplacementAnswer(servers: seq<StaticServer>, original: AllocationRequest, k: nat, live: set<nat>,
                          replacement: Ask)
    requires DistinctIds(servers) && original.Valid() && k < |Ranking(servers, original)|
    requires AvoidsWatched(original, live, [Ranking(servers, original)[k].id], replacement)
    requires Answers(FixedList(servers), replacement.request, replacement.outcome)
    ensures var first, outcome := Ranking(servers, original)[0].id, replacement.outcome;
            if k > 0 then outcome.Ok? && outcome.value.server == first
            else outcome.Ok? ==> outcome.value.server != first
  {
    var ranking := Ranking(servers, original);
    DistinctRanking(servers, original);
    AvoidingOne(servers, original, k);
    AvoidingAppend(original.avoidServerIds, [], ranking[k].id);
    assert [] + [ranking[k].id] == [ranking[k].id];
    ChoiceIgnoresRequestId(servers, AvoidAlso(original, ranking[k].id), replacement.request.requestId);
  }

  /**
   Watching starts over from the request as it was before preparation. So after a
   preparation over a fixed list, the first replacement is granted a server that
   was tried in preparation exactly when preparation took more than one attempt;
   and then it is the first server tried, which failed to prepare.
   */
  lemma ReplacementReturns(servers: seq<StaticServer>, coordinated: bool, retries: nat, b: Sums, middle: Sums,
                           original: AllocationRequest, prepared: seq<Ask>, created: Result<Party, FlowError>,
                           live: set<nat>, replacement: Ask)
    requires DistinctIds(servers) && original.Valid()
    requires RetriesDone(coordinated, retries, b, middle, original, prepared, created) && created.Ok?
    requires AllAnswered(FixedList(servers), prepared)
    requires AvoidsWatched(original, live, [created.value.server], replacement)
    requires Answers(FixedList(servers), replacement.request, replacement.outcome)
    ensures (replacement.outcome.Ok? && replacement.outcome.value.server in Servers(prepared)) <==> |prepared| > 1
    ensures |prepared| > 1 ==>
              replacement.outcome.value.server == Servers(prepared)[0] != created.value.server
  {
    var ranking := Ranking(servers, original);
    var k := |prepared| - 1;
    LastAnswer(servers, original, prepared);
    DistinctTried(servers, original, Servers(prepared));
    assert Servers(prepared)[0] == ranking[0].id && Servers(prepared)[k] == ranking[k].id;
    ReplacementAnswer(servers, original, k, live, replacement);
  }

  lemma {:induction false} FirstAnswered(source: Source, asks: seq<Ask>)
    requires AllAnswered(source, asks) && asks != []
    ensures Answers(source, asks[0].request, asks[0].outcome)
  {
    if |asks| > 1 {
      FirstAnswered(source, asks[..|asks| - 1]);
    }
  }

  /** A request served from a fixed list: when a server is replaced, the first replacement is as above. */
  method AssignFromList(flow: Flow, audience: Audience, request: AllocationRequest)
    returns (outcome: Outcome, ghost prepared: seq<Ask>, ghost replaced: seq<Ask>)
    requires flow.Valid() && flow.source.FixedList? && DistinctIds(flow.source.servers) && request.Valid()
    modifies flow
    ensures flow.Valid() && flow.Sum().asks == old(flow.Sum()).asks + prepared + replaced
    ensures replaced != [] ==>
              ((replaced[0].outcome.Ok? && replaced[0].outcome.value.server in Servers(prepared)) <==> |prepared| > 1)
  {
    ghost var b := flow.Sum();
    var party;
    ghost var created, middle, watched;
    outcome, party, created, middle, prepared, watched, replaced := Assign(flow, audience, request);
    if replaced != [] {
      FirstAnswered(flow.source, replaced);
      ReplacementReturns(flow.source.servers, flow.coordinated, if flow.requirePrepare then flow.maxRetries else 0, b,
                         middle, request, prepared, created, b.live, replaced[0]);
    }
  }
}

/**
 Placement: the live-capacity selector, the static provider and the lobby
 latency aggregation.
 */
module Placement {
  import opened Wrappers
  import opened Names
  import opened Selection
  import opened Provider

  const NO_LATENCY: u32 := 0xFFFF_FFFF

  /** Smallest measured round trip to a region. */
  function BestRtt(latencies: seq<LatencyReport>, region: string): Option<u32>
  {
    if latencies == [] then None
    else
      var rest := BestRtt(latencies[1..], region);
      if latencies[0].region != region then rest
      else if rest.None? || latencies[0].rttMs < rest.value then Some(latencies[0].rttMs)
      else rest
  }

  function LatencyRank(region: Option<string>, latencies: seq<LatencyReport>): u32
  {
    if region.None? then NO_LATENCY
    else
      var best := BestRtt(latencies, region.value);
      if best.None? then NO_LATENCY else best.value
  }

  /** Every report of a region is at or above the best, and the best is one of them. */
  lemma {:induction false} BestRttIsLeast(latencies: seq<LatencyReport>, region: string)
    ensures BestRtt(latencies, region).None? <==> forall l | l in latencies :: l.region != region
    ensures BestRtt(latencies, region).Some? ==>
              && (exists l | l in latencies :: l.region == region && l.rttMs == BestRtt(latencies, region).value)
              && forall l | l in latencies && l.region == region :: BestRtt(latencies, region).value <= l.rttMs
  {
    if latencies != [] {
      BestRttIsLeast(latencies[1..], region);
      assert latencies[0] in latencies;
    }
  }

  /** The rank of a region is its smallest measured round trip, or the largest number when none was measured. */
  lemma RankMeans(region: Option<string>, latencies: seq<LatencyReport>)
    ensures forall l | l in latencies && region == Some(l.region) :: LatencyRank(region, latencies) <= l.rttMs
    ensures if exists l | l in latencies :: region == Some(l.region)
            then exists l | l in latencies ::
                   region == Some(l.region) && l.rttMs == LatencyRank(region, latencies)
            else LatencyRank(region, latencies) == 4_294_967_295
  {
    if region.Some? {
      BestRttIsLeast(latencies, region.value);
    }
  }

  function CapacityKey(c: ServerCapacity, latencies: seq<LatencyReport>): Key
  {
    Key(LatencyRank(c.region, latencies), c.totalPlayers, c.serverId)
  }

  function KeyFor(request: AllocationRequest): ServerCapacity -> Key
  {
    c => CapacityKey(c, request.latencies)
  }

  // The live-capacity selector.

  predicate AcceptsBase(c: ServerCapacity, request: AllocationRequest)
  {
    c.provider == Static && c.ready && c.game == request.game && c.version == request.version &&
    c.HasPlayerCapacity() && !request.Avoids(c.serverId)
  }

  predicate Eligible(c: ServerCapacity, request: AllocationRequest, drained: set<string>)
  {
    AcceptsBase(c, request) && c.serverId !in drained
  }

  function IsEligible(request: AllocationRequest, drained: set<string>): ServerCapacity -> bool
  {
    c => Eligible(c, request, drained)
  }

  function WithRoomCapacity(): ServerCapacity -> bool
  {
    (c: ServerCapacity) => c.HasRoomCapacity()
  }

  function WithSeatIn(roomKey: string): ServerCapacity -> bool
  {
    (c: ServerCapacity) => c.HasSeatIn(roomKey)
  }

  function ChooseExplicitRoom(candidates: seq<ServerCapacity>, roomKey: string): Option<ServerCapacity>
  {
    if exists c | c in candidates :: c.Advertises(roomKey) then Head(Filter(candidates, WithSeatIn(roomKey)))
    else Head(Filter(candidates, WithRoomCapacity()))
  }

  /** Sorted by the placement key, then filtered. */
  function Candidates(capacities: seq<ServerCapacity>, request: AllocationRequest, drained: set<string>)
    : seq<ServerCapacity>
  {
    Filter(SortBy(capacities, KeyFor(request)), IsEligible(request, drained))
  }

  function ChooseAmong(candidates: seq<ServerCapacity>, room: RoomSelection): Option<ServerCapacity>
  {
    match room
    case Auto => Head(candidates)
    case New => Head(Filter(candidates, WithRoomCapacity()))
    case Code(_) => ChooseExplicitRoom(candidates, room.RoomKey().value)
    case Id(_) => ChooseExplicitRoom(candidates, room.RoomKey().value)
  }

  function ChooseLive(capacities: seq<ServerCapacity>, request: AllocationRequest, drained: set<string>)
    : Option<ServerCapacity>
  {
    ChooseAmong(Candidates(capacities, request, drained), request.room)
  }

  // What the selector chooses, without sorting: the least key among the servers that qualify.

  /** Some eligible server already hosts the room the request names. */
  predicate RoomTaken(capacities: seq<ServerCapacity>, request: AllocationRequest, drained: set<string>)
  {
    request.room.RoomKey().Some? &&
    exists c | c in capacities :: Eligible(c, request, drained) && c.Advertises(request.room.RoomKey().value)
  }

  predicate SuitsRoom(c: ServerCapacity, room: RoomSelection, taken: bool)
  {
    match room
    case Auto => true
    case New => c.HasRoomCapacity()
    case Code(_) => if taken then c.HasSeatIn(room.RoomKey().value) else c.HasRoomCapacity()
    case Id(_) => if taken then c.HasSeatIn(room.RoomKey().value) else c.HasRoomCapacity()
  }

  function Qualifies(request: AllocationRequest, drained: set<string>, taken: bool): ServerCapacity -> bool
  {
    c => Eligible(c, request, drained) && SuitsRoom(c, request.room, taken)
  }

  lemma FindAmongEligible(capacities: seq<ServerCapacity>, request: AllocationRequest, drained: set<string>,
                          suits: ServerCapacity -> bool, taken: bool)
    requires forall c :: suits(c) == SuitsRoom(c, request.room, taken)
    ensures Head(Filter(Filter(SortBy(capacities, KeyFor(request)), IsEligible(request, drained)), suits)) ==
            MinBy(Filter(capacities, Qualifies(request, drained, taken)), KeyFor(request))
  {
    var sorted := SortBy(capacities, KeyFor(request));
    var eligible := IsEligible(request, drained);
    FilterFilter(sorted, eligible, suits);
    FilterExt(sorted, Both(eligible, suits), Qualifies(request, drained, taken));
    SortFilterFirst(capacities, KeyFor(request), Qualifies(request, drained, taken));
  }

  lemma CandidatesTaken(capacities: seq<ServerCapacity>, request: AllocationRequest, drained: set<string>)
    requires request.room.RoomKey().Some?
    ensures (exists c | c in Filter(SortBy(capacities, KeyFor(request)), IsEligible(request, drained)) ::
               c.Advertises(request.room.RoomKey().value)) <==> RoomTaken(capacities, request, drained)
  {
    var sorted := SortBy(capacities, KeyFor(request));
    SortIsSorted(capacities, KeyFor(request));
    assert forall c :: c in sorted <==> c in multiset(sorted);
    assert forall c :: c in capacities <==> c in multiset(capacities);
  }

  /** Sort-filter-find is filter-then-minimum, in every room mode. */
  lemma ChooseLiveIsMinimum(capacities: seq<ServerCapacity>, request: AllocationRequest, drained: set<string>)
    ensures ChooseLive(capacities, request, drained) ==
            MinBy(Filter(capacities, Qualifies(request, drained, RoomTaken(capacities, request, drained))),
                  KeyFor(request))
  {
    var taken := RoomTaken(capacities, request, drained);
    match request.room
    case Auto =>
      var any: ServerCapacity -> bool := c => true;
      FindAmongEligible(capacities, request, drained, any, taken);
      FilterAll(Filter(SortBy(capacities, KeyFor(request)), IsEligible(request, drained)), any);
    case New =>
      FindAmongEligible(capacities, request, drained, WithRoomCapacity(), taken);
    case _ =>
      CandidatesTaken(capacities, request, drained);
      var suits := if taken then WithSeatIn(request.room.RoomKey().value) else WithRoomCapacity();
      FindAmongEligible(capacities, request, drained, suits, taken);
  }

  predicate DistinctServers(capacities: seq<ServerCapacity>)
  {
    forall i, j | 0 <= i < j < |capacities| :: capacities[i].serverId != capacities[j].serverId
  }

  /** The order in which reports are listed does not matter when server ids are distinct. */
  lemma ChooseLivePermutation(a: seq<ServerCapacity>, b: seq<ServerCapacity>, request: AllocationRequest,
                              drained: set<string>)
    requires multiset(a) == multiset(b) && DistinctServers(a)
    ensures ChooseLive(a, request, drained) == ChooseLive(b, request, drained)
  {
    SortPermutation(a, b, KeyFor(request));
  }

  /** The server qualifies, and no qualifying one has a smaller key. */
  ghost predicate IsLeast(c: ServerCapacity, capacities: seq<ServerCapacity>, request: AllocationRequest,
                          drained: set<string>)
  {
    var qualifies := Qualifies(request, drained, RoomTaken(capacities, request, drained));
    && c in capacities && qualifies(c)
    && forall d | d in capacities && qualifies(d) :: KeyLeq(KeyFor(request)(c), KeyFor(request)(d))
  }

  /** Every order of the list gives the same answer. */
  ghost predicate OrderFree(capacities: seq<ServerCapacity>, request: AllocationRequest, drained: set<string>)
  {
    forall other: seq<ServerCapacity> | multiset(other) == multiset(capacities) ::
      ChooseLive(other, request, drained) == ChooseLive(capacities, request, drained)
  }

  lemma LeastInAnyOrder(a: seq<ServerCapacity>, b: seq<ServerCapacity>, request: AllocationRequest,
                        drained: set<string>)
    requires multiset(a) == multiset(b)
    ensures forall c :: IsLeast(c, a, request, drained) <==> IsLeast(c, b, request, drained)
  {
    assert forall c :: c in a <==> c in multiset(a);
    assert forall c :: c in b <==> c in multiset(b);
    assert RoomTaken(a, request, drained) == RoomTaken(b, request, drained);
  }

  /** A least server that is listed first is chosen. */
  lemma ListedFirst(c: ServerCapacity, rest: seq<ServerCapacity>, request: AllocationRequest, drained: set<string>)
    requires IsLeast(c, [c] + rest, request, drained)
    ensures ChooseLive([c] + rest, request, drained) == Some(c)
  {
    var all := [c] + rest;
    var qualifies := Qualifies(request, drained, RoomTaken(all, request, drained));
    ChooseLiveIsMinimum(all, request, drained);
    assert all[1..] == rest;
    FirstOfTies(c, Filter(rest, qualifies), KeyFor(request));
  }

  lemma ChosenInSomeOrder(c: ServerCapacity, capacities: seq<ServerCapacity>, request: AllocationRequest,
                          drained: set<string>)
    requires OrderFree(capacities, request, drained) && IsLeast(c, capacities, request, drained)
    ensures ChooseLive(capacities, request, drained) == Some(c)
  {
    var i :| 0 <= i < |capacities| && capacities[i] == c;
    var rest := capacities[..i] + capacities[i + 1..];
    BringForward(capacities, i);
    LeastInAnyOrder(capacities, [c] + rest, request, drained);
    ListedFirst(c, rest, request, drained);
  }

  /**
   The order of the list is without effect exactly when no two different servers
   tie for the least key among those that qualify.
   */
  lemma OrderFreeIff(capacities: seq<ServerCapacity>, request: AllocationRequest, drained: set<string>)
    ensures OrderFree(capacities, request, drained) <==>
            forall c, d | IsLeast(c, capacities, request, drained) && IsLeast(d, capacities, request, drained) :: c == d
  {
    forall c, d | OrderFree(capacities, request, drained) &&
                  IsLeast(c, capacities, request, drained) && IsLeast(d, capacities, request, drained)
      ensures c == d
    {
      ChosenInSomeOrder(c, capacities, request, drained);
      ChosenInSomeOrder(d, capacities, request, drained);
    }
    if forall c, d | IsLeast(c, capacities, request, drained) && IsLeast(d, capacities, request, drained) :: c == d {
      forall other: seq<ServerCapacity> | multiset(other) == multiset(capacities)
        ensures ChooseLive(other, request, drained) == ChooseLive(capacities, request, drained)
      {
        SameLeastSameChoice(other, capacities, request, drained);
      }
    }
  }

  lemma SameLeastSameChoice(a: seq<ServerCapacity>, b: seq<ServerCapacity>, request: AllocationRequest,
                            drained: set<string>)
    requires multiset(a) == multiset(b)
    requires forall c, d | IsLeast(c, b, request, drained) && IsLeast(d, b, request, drained) :: c == d
    ensures ChooseLive(a, request, drained) == ChooseLive(b, request, drained)
  {
    LeastInAnyOrder(a, b, request, drained);
    ChosenIsLeast(a, request, drained);
    ChosenIsLeast(b, request, drained);
  }

  lemma ChosenIsLeast(a: seq<ServerCapacity>, request: AllocationRequest, drained: set<string>)
    ensures match ChooseLive(a, request, drained)
            case Some(c) => IsLeast(c, a, request, drained)
            case None => forall c :: !IsLeast(c, a, request, drained)
  {
    ChooseLiveMeans(a, request, drained);
  }

  /**
   The selector's input: the reports found under the keys of the capacity bucket,
   each stored under the key of its own server id, for one game and version.
   */
  method ListCapacity(keys: seq<string>, read: string -> Option<ServerCapacity>, game: string, version: string)
    returns (capacities: seq<ServerCapacity>)
    requires NoDup(keys)
    requires forall key | key in keys && read(key).Some? :: KeyServer(read(key).value.serverId) == key
    ensures DistinctServers(capacities)
    ensures forall c :: c in capacities <==>
              c.game == game && c.version == version && exists key | key in keys :: read(key) == Some(c)
  {
    capacities := [];
    for i := 0 to |keys|
      invariant forall j | 0 <= j < |capacities| :: KeyServer(capacities[j].serverId) in keys[..i]
      invariant DistinctServers(capacities)
      invariant forall c :: c in capacities <==>
                  c.game == game && c.version == version && exists key | key in keys[..i] :: read(key) == Some(c)
    {
      TakeNext(keys, i);
      var found := read(keys[i]);
      if found.Some? && found.value.game == game && found.value.version == version {
        capacities := capacities + [found.value];
      }
    }
    assert keys[..|keys|] == keys;
  }

  /** So over what the store lists, the order is without effect. */
  lemma ListedOrderFree(capacities: seq<ServerCapacity>, request: AllocationRequest, drained: set<string>)
    requires DistinctServers(capacities)
    ensures OrderFree(capacities, request, drained)
  {
    forall other: seq<ServerCapacity> | multiset(other) == multiset(capacities)
      ensures ChooseLive(other, request, drained) == ChooseLive(capacities, request, drained)
    {
      ChooseLivePermutation(capacities, other, request, drained);
    }
  }

  function NotServer(serverId: string): ServerCapacity -> bool
  {
    (c: ServerCapacity) => c.serverId != serverId
  }

  function AvoidAlso(request: AllocationRequest, serverId: string): AllocationRequest
  {
    if request.Avoids(serverId) then request
    else request.(avoidServerIds := request.avoidServerIds + [serverId])
  }

  lemma SameCandidates(capacities: seq<ServerCapacity>, request: AllocationRequest, drained: set<string>, s: string)
    ensures Candidates(capacities, AvoidAlso(request, s), drained) == Candidates(capacities, request, drained + {s})
    ensures Candidates(capacities, request, drained + {s}) ==
            Candidates(Filter(capacities, NotServer(s)), request, drained)
  {
    var key := KeyFor(request);
    var sorted := SortBy(capacities, key);
    assert KeyFor(AvoidAlso(request, s)) == key;
    FilterExt(sorted, IsEligible(AvoidAlso(request, s), drained), IsEligible(request, drained + {s}));
    FilterSort(capacities, key, NotServer(s));
    FilterFilter(sorted, NotServer(s), IsEligible(request, drained));
    FilterExt(sorted, Both(NotServer(s), IsEligible(request, drained)), IsEligible(request, drained + {s}));
  }

  /** Avoiding a server, draining it and deleting it from the list give the same answer. */
  lemma AvoidDrainDelete(capacities: seq<ServerCapacity>, request: AllocationRequest, drained: set<string>, s: string)
    ensures ChooseLive(capacities, AvoidAlso(request, s), drained) == ChooseLive(capacities, request, drained + {s})
    ensures ChooseLive(capacities, request, drained + {s}) ==
            ChooseLive(Filter(capacities, NotServer(s)), request, drained)
  {
    SameCandidates(capacities, request, drained, s);
  }

  // Explicit rooms.

  /** The chosen server qualifies, and none that qualifies has a smaller key. */
  lemma ChooseLiveMeans(capacities: seq<ServerCapacity>, request: AllocationRequest, drained: set<string>)
    ensures var taken := RoomTaken(capacities, request, drained);
            match ChooseLive(capacities, request, drained)
            case None => forall c | c in capacities :: !Qualifies(request, drained, taken)(c)
            case Some(chosen) =>
              && chosen in capacities && Qualifies(request, drained, taken)(chosen)
              && forall c | c in capacities && Qualifies(request, drained, taken)(c) ::
                   KeyLeq(KeyFor(request)(chosen), KeyFor(request)(c))
  {
    ChooseLiveIsMinimum(capacities, request, drained);
    MinByIsLeast(Filter(capacities, Qualifies(request, drained, RoomTaken(capacities, request, drained))),
                 KeyFor(request));
  }

  // The choice in the servers' own terms.

  /** Whether the request could be placed on the server, rooms aside. */
  predicate CanServe(c: ServerCapacity, request: AllocationRequest, drained: set<string>)
  {
    && c.provider.Static? && c.ready && c.game == request.game && c.version == request.version
    && (c.totalPlayers < c.maxPlayers || c.totalPlayers == c.maxPlayers == 0)
    && c.serverId !in request.avoidServerIds && c.serverId !in drained
  }

  predicate CanAddRoom(c: ServerCapacity)
  {
    var rooms := |c.rooms| % 4_294_967_296;
    rooms < c.maxRooms || rooms == c.maxRooms == 0
  }

  predicate Hosts(c: ServerCapacity, key: string)
  {
    exists i | 0 <= i < |c.rooms| :: c.rooms[i].key == key
  }

  predicate HostsWithSeat(c: ServerCapacity, key: string)
  {
    exists i | 0 <= i < |c.rooms| ::
      var room := c.rooms[i];
      room.key == key && (room.players < room.maxPlayers || room.players == room.maxPlayers == 0)
  }

  /** The key of the room a request names. */
  function NamedRoom(room: RoomSelection): Option<string>
  {
    match room
    case Auto => None
    case New => None
    case Code(code) => Some("code:" + NormalizeRoomToken(code))
    case Id(id) => Some("id:" + NormalizeRoomToken(id))
  }

  predicate Hosted(capacities: seq<ServerCapacity>, request: AllocationRequest, drained: set<string>)
  {
    NamedRoom(request.room).Some? &&
    exists c | c in capacities :: CanServe(c, request, drained) && Hosts(c, NamedRoom(request.room).value)
  }

  /** A server for the request: with a seat in the room if it is hosted somewhere, else with space for a new one. */
  predicate Fits(c: ServerCapacity, capacities: seq<ServerCapacity>, request: AllocationRequest, drained: set<string>)
  {
    && CanServe(c, request, drained)
    && (request.room.Auto? ||
        if Hosted(capacities, request, drained) then HostsWithSeat(c, NamedRoom(request.room).value)
        else CanAddRoom(c))
  }

  /** The first server is nearer, or as near with fewer players, or as near and full with no larger id. */
  ghost predicate Preferred(rank: u32, players: u32, id: string, rank': u32, players': u32, id': string)
  {
    && rank <= rank'
    && (rank == rank' ==> players <= players')
    && (rank == rank' && players == players' ==> NotAfter(id, id'))
  }

  lemma KeysPreferred(a: Key, b: Key)
    requires KeyLeq(a, b) && a.rank < 4_294_967_296 && b.rank < 4_294_967_296
    requires a.players < 4_294_967_296 && b.players < 4_294_967_296
    ensures Preferred(a.rank, a.players, a.id, b.rank, b.players, b.id)
  {
    LexicographicOrder(a.id, b.id);
  }

  lemma FitsMeans(capacities: seq<ServerCapacity>, request: AllocationRequest, drained: set<string>)
    ensures Hosted(capacities, request, drained) == RoomTaken(capacities, request, drained)
    ensures forall c :: Fits(c, capacities, request, drained) <==>
                        Qualifies(request, drained, RoomTaken(capacities, request, drained))(c)
  {
    forall c: ServerCapacity, key: string
      ensures Hosts(c, key) == c.Advertises(key) && HostsWithSeat(c, key) == c.HasSeatIn(key)
    {
      RoomsMean(c, key);
    }
  }

  lemma RoomsMean(c: ServerCapacity, key: string)
    ensures Hosts(c, key) == c.Advertises(key) && HostsWithSeat(c, key) == c.HasSeatIn(key)
  {
    if c.Advertises(key) {
      var room :| room in c.rooms && room.key == key;
    }
    if c.HasSeatIn(key) {
      var room :| room in c.rooms && room.key == key && room.HasPlayerCapacity();
    }
  }

  /** Nearest first, then least full, then by id: the live choice fits, and nothing that fits is preferred to it. */
  lemma ChosenLive(capacities: seq<ServerCapacity>, request: AllocationRequest, drained: set<string>)
    ensures match ChooseLive(capacities, request, drained)
            case None => forall c | c in capacities :: !Fits(c, capacities, request, drained)
            case Some(chosen) =>
              && chosen in capacities && Fits(chosen, capacities, request, drained)
              && forall c | c in capacities && Fits(c, capacities, request, drained) ::
                   Preferred(LatencyRank(chosen.region, request.latencies), chosen.totalPlayers, chosen.serverId,
                             LatencyRank(c.region, request.latencies), c.totalPlayers, c.serverId)
  {
    FitsMeans(capacities, request, drained);
    ChooseLiveMeans(capacities, request, drained);
    var choice := ChooseLive(capacities, request, drained);
    if choice.Some? {
      forall c | c in capacities && Fits(c, capacities, request, drained)
        ensures Preferred(LatencyRank(choice.value.region, request.latencies), choice.value.totalPlayers,
                          choice.value.serverId, LatencyRank(c.region, request.latencies), c.totalPlayers, c.serverId)
      {
        KeysPreferred(KeyFor(request)(choice.value), KeyFor(request)(c));
      }
    }
  }

  /** A server without a measured region is chosen only when no measured one that fits is any nearer. */
  lemma UnmeasuredLast(capacities: seq<ServerCapacity>, request: AllocationRequest, drained: set<string>,
                       c: ServerCapacity)
    requires c in capacities && Fits(c, capacities, request, drained)
    requires exists l | l in request.latencies :: c.region == Some(l.region) && l.rttMs < 4_294_967_295
    ensures var chosen := ChooseLive(capacities, request, drained);
            chosen.Some? && exists l | l in request.latencies :: chosen.value.region == Some(l.region)
  {
    ChosenLive(capacities, request, drained);
    RankMeans(c.region, request.latencies);
    RankMeans(ChooseLive(capacities, request, drained).value.region, request.latencies);
  }

  /**
   A second copy of a hosted room is started exactly when no server that hosts
   it is eligible while some eligible server has room capacity. Hosts that are
   full, draining or avoided are not looked at, so the rule that a full room is
   not duplicated elsewhere covers eligible hosts only.
   */
  lemma RoomDuplicated(capacities: seq<ServerCapacity>, request: AllocationRequest, drained: set<string>)
    requires request.room.RoomKey().Some?
    requires exists host | host in capacities :: host.Advertises(request.room.RoomKey().value)
    ensures (var chosen := ChooseLive(capacities, request, drained);
             chosen.Some? && !chosen.value.Advertises(request.room.RoomKey().value)) <==>
            (forall host | host in capacities && host.Advertises(request.room.RoomKey().value) ::
               !Eligible(host, request, drained)) &&
            (exists c | c in capacities :: Eligible(c, request, drained) && c.HasRoomCapacity())
  {
    ChooseLiveMeans(capacities, request, drained);
  }

  // The static provider.

  datatype StaticServer = StaticServer(
    id: string, game: string, version: string, endpoint: Endpoint, ready: bool, totalPlayers: u32,
    maxPlayers: u32, maxRooms: u32, region: Option<string>, certDigest: Option<string>,
    metadata: map<string, string>)

  function CapacityOf(s: StaticServer): ServerCapacity
  {
    ServerCapacity(s.id, Static, s.endpoint, s.game, s.version, s.ready, s.totalPlayers, s.maxPlayers,
                   s.maxRooms, s.region, s.certDigest, [], s.metadata)
  }

  predicate AcceptsRequest(s: StaticServer, request: AllocationRequest)
  {
    s.ready && s.game == request.game && s.version == request.version &&
    s.totalPlayers < AtLeastOne(s.maxPlayers) && s.id !in request.avoidServerIds
  }

  function IsAccepted(request: AllocationRequest): StaticServer -> bool
  {
    s => AcceptsRequest(s, request)
  }

  function StaticKeyFor(request: AllocationRequest): StaticServer -> Key
  {
    (s: StaticServer) => Key(LatencyRank(s.region, request.latencies), s.totalPlayers, s.id)
  }

  function ChooseStatic(servers: seq<StaticServer>, request: AllocationRequest): Option<StaticServer>
  {
    MinBy(Filter(servers, IsAccepted(request)), StaticKeyFor(request))
  }

  function AllocateStatic(servers: seq<StaticServer>, request: AllocationRequest)
    : Result<ServerAllocation, AllocationError>
  {
    if !request.Valid() then Err(InvalidRequest)
    else match ChooseStatic(servers, request)
      case None => Err(NoCapacity)
      case Some(s) =>
        Ok(ServerAllocation("static:" + s.id + ":" + request.playerId, s.id, Static, s.endpoint,
                            s.game, s.version, s.certDigest, s.metadata))
  }

  /** Whether a configured server could take the request. */
  predicate StaticServes(s: StaticServer, request: AllocationRequest)
  {
    && s.ready && s.game == request.game && s.version == request.version
    && (s.totalPlayers < s.maxPlayers || s.totalPlayers == s.maxPlayers == 0)
    && s.id !in request.avoidServerIds
  }

  ghost predicate StaticPreferred(a: StaticServer, b: StaticServer, request: AllocationRequest)
  {
    Preferred(LatencyRank(a.region, request.latencies), a.totalPlayers, a.id,
              LatencyRank(b.region, request.latencies), b.totalPlayers, b.id)
  }

  /** The static choice likewise: nearest first, then least full, then by id. */
  lemma ChosenStatic(servers: seq<StaticServer>, request: AllocationRequest)
    ensures match ChooseStatic(servers, request)
            case None => forall s | s in servers :: !StaticServes(s, request)
            case Some(chosen) =>
              && chosen in servers && StaticServes(chosen, request)
              && forall s | s in servers && StaticServes(s, request) :: StaticPreferred(chosen, s, request)
  {
    MinByIsLeast(Filter(servers, IsAccepted(request)), StaticKeyFor(request));
    var choice := ChooseStatic(servers, request);
    if choice.Some? {
      forall s | s in servers && StaticServes(s, request)
        ensures StaticPreferred(choice.value, s, request)
      {
        assert s in Filter(servers, IsAccepted(request));
        KeysPreferred(StaticKeyFor(request)(choice.value), StaticKeyFor(request)(s));
      }
    }
  }

  /** The ranking lists exactly the servers that could take the request, preferred ones first. */
  lemma RankedByPreference(servers: seq<StaticServer>, request: AllocationRequest)
    ensures forall s :: s in Ranking(servers, request) <==> s in servers && StaticServes(s, request)
    ensures forall i, j | 0 <= i < j < |Ranking(servers, request)| ::
              StaticPreferred(Ranking(servers, request)[i], Ranking(servers, request)[j], request)
  {
    var accepted, key := Filter(servers, IsAccepted(request)), StaticKeyFor(request);
    var ranking := Ranking(servers, request);
    SortIsSorted(accepted, key);
    forall s
      ensures s in ranking <==> s in servers && StaticServes(s, request)
    {
      assert s in ranking <==> s in multiset(ranking);
      assert s in accepted <==> s in multiset(accepted);
    }
    forall i, j | 0 <= i < j < |ranking|
      ensures StaticPreferred(ranking[i], ranking[j], request)
    {
      KeysPreferred(key(ranking[i]), key(ranking[j]));
    }
  }

  /** An allocation describes the chosen server, for the game and version asked for; it fails only as it must. */
  lemma StaticAllocation(servers: seq<StaticServer>, request: AllocationRequest)
    ensures match AllocateStatic(servers, request)
            case Ok(allocation) =>
              request.Valid() && exists s | s in servers ::
                && ChooseStatic(servers, request) == Some(s)
                && allocation.serverId == s.id && allocation.endpoint == s.endpoint && allocation.provider.Static?
                && allocation.game == request.game && allocation.version == request.version
                && allocation.certDigest == s.certDigest && allocation.metadata == s.metadata
                && allocation.allocationId == "static:" + s.id + ":" + request.playerId
            case Err(InvalidRequest) => !request.Valid()
            case Err(NoCapacity) => request.Valid() && forall s | s in servers :: !StaticServes(s, request)
            case Err(ProviderFailure) => false
  {
    ChosenStatic(servers, request);
  }

  function MapOption<T, U>(o: Option<T>, f: T -> U): Option<U>
  {
    match o case None => None case Some(x) => Some(f(x))
  }

  /**
   On the same servers the live selector and the static provider pick the same
   one. A configured server lists no rooms, so this holds in every room mode.
   */
  lemma SelectorsAgree(servers: seq<StaticServer>, request: AllocationRequest)
    ensures ChooseLive(Map(servers, CapacityOf), request, {}) == MapOption(ChooseStatic(servers, request), CapacityOf)
  {
    var capacities := Map(servers, CapacityOf);
    var taken := RoomTaken(capacities, request, {});
    assert !taken;
    var qualifies := Qualifies(request, {}, taken);
    ChooseLiveIsMinimum(capacities, request, {});
    FilterMap(servers, CapacityOf, qualifies);
    forall s: StaticServer
      ensures qualifies(CapacityOf(s)) == AcceptsRequest(s, request)
    {
    }
    FilterExt(servers, Compose(qualifies, CapacityOf), IsAccepted(request));
    MinByMap(Filter(servers, IsAccepted(request)), CapacityOf, KeyFor(request), StaticKeyFor(request));
  }

  // Retrying over a fixed list.

  predicate DistinctIds(servers: seq<StaticServer>)
  {
    forall i, j | 0 <= i < j < |servers| :: servers[i].id != servers[j].id
  }

  /** The eligible servers in the order the retry loop is meant to visit them. */
  function Ranking(servers: seq<StaticServer>, request: AllocationRequest): seq<StaticServer>
  {
    SortBy(Filter(servers, IsAccepted(request)), StaticKeyFor(request))
  }

  function NotStatic(id: string): StaticServer -> bool
  {
    (s: StaticServer) => s.id != id
  }

  lemma RankingTail(servers: seq<StaticServer>, request: AllocationRequest)
    requires DistinctIds(servers)
    requires Ranking(servers, request) != []
    ensures Ranking(servers, AvoidAlso(request, Ranking(servers, request)[0].id)) == Ranking(servers, request)[1..]
  {
    var ranking := Ranking(servers, request);
    var first := ranking[0];
    var accepted := Filter(servers, IsAccepted(request));
    var key := StaticKeyFor(request);
    assert StaticKeyFor(AvoidAlso(request, first.id)) == key;
    FilterFilter(servers, IsAccepted(request), NotStatic(first.id));
    FilterExt(servers, Both(IsAccepted(request), NotStatic(first.id)), IsAccepted(AvoidAlso(request, first.id)));
    FilterSort(accepted, key, NotStatic(first.id));
    SortIsSorted(accepted, key);
    DistinctRanking(servers, request);
    assert ranking == [first] + ranking[1..];
    FilterAll(ranking[1..], NotStatic(first.id));
  }

  lemma DistinctRanking(servers: seq<StaticServer>, request: AllocationRequest)
    requires DistinctIds(servers)
    ensures DistinctIds(Ranking(servers, request))
  {
    var key := StaticKeyFor(request);
    var accepted := Filter(servers, IsAccepted(request));
    var ranking := Ranking(servers, request);
    FilterDistinct(servers, IsAccepted(request), key);
    SortIsSorted(accepted, key);
    DistinctKeysPermute(accepted, ranking, key);
    forall i, j | 0 <= i < j < |ranking|
      ensures ranking[i].id != ranking[j].id
    {
      assert ranking[i] in multiset(accepted) && ranking[j] in multiset(accepted);
      assert ranking[i] in servers && ranking[j] in servers;
      assert key(ranking[i]) != key(ranking[j]);
    }
  }

  // Lobby latency aggregation.

  /** Sorted list of the best report per region, as an ordered map holds it. */
  function Record(best: seq<LatencyReport>, latency: LatencyReport): seq<LatencyReport>
  {
    if best == [] then [latency]
    else if best[0].region == latency.region then
      (if latency.rttMs < best[0].rttMs then [latency] + best[1..] else best)
    else if StringLeq(latency.region, best[0].region) then [latency] + best
    else [best[0]] + Record(best[1..], latency)
  }

  predicate OnePerRegion(best: seq<LatencyReport>)
  {
    forall i, j | 0 <= i < j < |best| ::
      StringLeq(best[i].region, best[j].region) && best[i].region != best[j].region
  }

  function Better(a: Option<u32>, b: Option<u32>): Option<u32>
  {
    if a.None? then b else if b.None? || a.value <= b.value then a else b
  }

  lemma {:induction false} RecordKeepsBest(best: seq<LatencyReport>, latency: LatencyReport, region: string)
    requires OnePerRegion(best)
    ensures BestRtt(Record(best, latency), region) == Better(BestRtt(best, region), BestRtt([latency], region))
  {
    assert [latency][1..] == [];
    if best != [] {
      if best[0].region == latency.region {
        BestRttIsLeast(best[1..], best[0].region);
        assert ([latency] + best[1..])[1..] == best[1..];
        forall l | l in best[1..]
          ensures l.region != best[0].region
        {
        }
      } else if StringLeq(latency.region, best[0].region) {
        assert ([latency] + best)[1..] == best;
      } else {
        RecordKeepsBest(best[1..], latency, region);
        assert ([best[0]] + Record(best[1..], latency))[1..] == Record(best[1..], latency);
      }
    }
  }

  lemma {:induction false} RecordOnePerRegion(best: seq<LatencyReport>, latency: LatencyReport)
    requires OnePerRegion(best)
    ensures OnePerRegion(Record(best, latency))
    ensures forall l | l in Record(best, latency) :: l in best || l == latency
  {
    if best != [] {
      StringTotal(latency.region, best[0].region);
      if best[0].region == latency.region {
      } else if StringLeq(latency.region, best[0].region) {
        var r := [latency] + best;
        forall i, j | 0 <= i < j < |r|
          ensures StringLeq(r[i].region, r[j].region) && r[i].region != r[j].region
        {
          if i == 0 && j > 1 {
            StringTransitive(latency.region, best[0].region, best[j - 1].region);
            StringTotal(best[0].region, best[j - 1].region);
          }
        }
      } else {
        var t := Record(best[1..], latency);
        RecordOnePerRegion(best[1..], latency);
        forall j | 0 <= j < |t|
          ensures StringLeq(best[0].region, t[j].region) && best[0].region != t[j].region
        {
          assert t[j] in t;
        }
      }
    }
  }

  lemma {:induction false} BestRttAppend(a: seq<LatencyReport>, b: seq<LatencyReport>, region: string)
    ensures BestRtt(a + b, region) == Better(BestRtt(a, region), BestRtt(b, region))
  {
    if a == [] {
      assert a + b == b;
    } else {
      BestRttAppend(a[1..], b, region);
      assert (a + b)[1..] == a[1..] + b;
    }
  }

  /** One report per region, and every region keeps the rank it has over all members' reports. */
  method AggregateLatencies(reports: seq<LatencyReport>) returns (best: seq<LatencyReport>)
    ensures OnePerRegion(best)
    ensures forall l | l in best :: l in reports
    ensures forall region :: BestRtt(best, region) == BestRtt(reports, region)
  {
    best := [];
    for i := 0 to |reports|
      invariant OnePerRegion(best)
      invariant forall l | l in best :: l in reports[..i]
      invariant forall region :: BestRtt(best, region) == BestRtt(reports[..i], region)
    {
      var latency := reports[i];
      forall region
        ensures BestRtt(Record(best, latency), region) == BestRtt(reports[..i + 1], region)
      {
        RecordKeepsBest(best, latency, region);
        BestRttAppend(reports[..i], [latency], region);
        assert reports[..i + 1] == reports[..i] + [latency];
      }
      RecordOnePerRegion(best, latency);
      best := Record(best, latency);
    }
    assert reports[..|reports|] == reports;
  }

  /** Lists with the same best round trips place every request on the same server. */
  lemma SameRanksSamePlacement(capacities: seq<ServerCapacity>, servers: seq<StaticServer>, request: AllocationRequest,
                               a: seq<LatencyReport>, b: seq<LatencyReport>, drained: set<string>)
    requires forall region :: BestRtt(a, region) == BestRtt(b, region)
    ensures ChooseLive(capacities, request.(latencies := a), drained) ==
            ChooseLive(capacities, request.(latencies := b), drained)
    ensures ChooseStatic(servers, request.(latencies := a)) == ChooseStatic(servers, request.(latencies := b))
  {
    var ra, rb := request.(latencies := a), request.(latencies := b);
    SortKeyExt(capacities, KeyFor(ra), KeyFor(rb));
    FilterExt(SortBy(capacities, KeyFor(ra)), IsEligible(ra, drained), IsEligible(rb, drained));
    FilterExt(servers, IsAccepted(ra), IsAccepted(rb));
    MinKeyExt(Filter(servers, IsAccepted(ra)), StaticKeyFor(ra), StaticKeyFor(rb));
  }
}

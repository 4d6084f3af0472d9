/** Provider contract: requests, allocations, capacity reports and room selection. */
module Provider {
  import opened Names
  import opened Wrappers

  datatype ProviderKind = Static | Edgegap | Gameflow

  datatype Endpoint = Endpoint(publicIp: string, port: nat)

  datatype Room = Room(key: string, hidden: bool, players: u32, maxPlayers: u32)
  {
    predicate HasPlayerCapacity()
    {
      players < AtLeastOne(maxPlayers)
    }
  }

  datatype LatencyReport = LatencyReport(region: string, rttMs: u32, transport: string)

  /** Capacity report of a server; the optional CPU estimate plays no part in placement. */
  datatype ServerCapacity = ServerCapacity(
    serverId: string, provider: ProviderKind, endpoint: Endpoint, game: string, version: string,
    ready: bool, totalPlayers: u32, maxPlayers: u32, maxRooms: u32, region: Option<string>,
    certDigest: Option<string>, rooms: seq<Room>, metadata: map<string, string>)
  {
    predicate HasPlayerCapacity()
    {
      totalPlayers < AtLeastOne(maxPlayers)
    }

    /** The room count is cast to 32 bits before it is compared. */
    predicate HasRoomCapacity()
    {
      |rooms| % 0x1_0000_0000 < AtLeastOne(maxRooms)
    }

    predicate Advertises(roomKey: string)
    {
      exists room | room in rooms :: room.key == roomKey
    }

    predicate HasSeatIn(roomKey: string)
    {
      exists room | room in rooms :: room.key == roomKey && room.HasPlayerCapacity()
    }
  }

  datatype RoomSelection = Auto | New | Code(code: string) | Id(id: string)
  {
    function RoomKey(): Option<string>
    {
      match this
      case Auto => None
      case New => None
      case Code(code) => Some("code:" + NormalizeRoomToken(code))
      case Id(id) => Some("id:" + NormalizeRoomToken(id))
    }
  }

  datatype AllocationRequest = AllocationRequest(
    requestId: string, game: string, version: string, playerId: string, lobbyId: Option<string>,
    room: RoomSelection, latencies: seq<LatencyReport>, avoidServerIds: seq<string>)
  {
    predicate Valid()
    {
      ValidToken(game) && ValidToken(version)
    }

    predicate Avoids(serverId: string)
    {
      serverId in avoidServerIds
    }
  }

  datatype ServerAllocation = ServerAllocation(
    allocationId: string, serverId: string, provider: ProviderKind, endpoint: Endpoint,
    game: string, version: string, certDigest: Option<string>, metadata: map<string, string>)

  datatype AllocationError = InvalidRequest | NoCapacity | ProviderFailure

  function AtLeastOne(n: u32): u32
  {
    if n == 0 then 1 else n
  }

  /** A token is 1 to 64 characters, all of them from a single-byte alphabet. */
  predicate ValidToken(value: string)
  {
    0 < |value| <= 64 &&
    forall c | c in value :: IsAsciiAlphanumeric(c) || c in " _-."
  }

  /** Letters, digits, space, dash, underscore and dot, by code. */
  predicate TokenChar(c: char)
  {
    var code := c as int;
    48 <= code <= 57 || 65 <= code <= 90 || 97 <= code <= 122 || code in {32, 45, 95, 46}
  }

  lemma ValidTokens(value: string)
    ensures ValidToken(value) <==> value != "" && |value| < 65 && forall i | 0 <= i < |value| :: TokenChar(value[i])
  {
    assert forall c :: c in " _-." <==> c == ' ' || c == '_' || c == '-' || c == '.';
    assert forall c :: TokenChar(c) <==> IsAsciiAlphanumeric(c) || c in " _-.";
  }

  // Text normalisation.

  predicate IsWhitespace(c: char)
  {
    '\U{0009}' <= c <= '\U{000D}' || c == ' ' || c == '\U{0085}' || c == '\U{00A0}' ||
    c == '\U{1680}' || '\U{2000}' <= c <= '\U{200A}' || c == '\U{2028}' || c == '\U{2029}' ||
    c == '\U{202F}' || c == '\U{205F}' || c == '\U{3000}'
  }

  function TrimStart(s: string): string
  {
    if s != [] && IsWhitespace(s[0]) then TrimStart(s[1..]) else s
  }

  function TrimEnd(s: string): string
  {
    if s != [] && IsWhitespace(s[|s| - 1]) then TrimEnd(s[..|s| - 1]) else s
  }

  function Trim(s: string): string
  {
    TrimEnd(TrimStart(s))
  }

  function Upper(c: char): char
  {
    if 'a' <= c <= 'z' then (c as int - 'a' as int + 'A' as int) as char else c
  }

  function ToUpper(s: string): string
  {
    Map(s, Upper)
  }

  function NormalizeRoomToken(value: string): string
  {
    var normalized := Filter(Trim(value), c => IsAsciiAlphanumeric(c) || c == '-' || c == '_');
    if normalized == [] then "unknown" else ToUpper(normalized)
  }

  lemma {:induction false} FilterTrimStart(s: string, keep: char -> bool)
    requires forall c :: IsWhitespace(c) ==> !keep(c)
    ensures Filter(TrimStart(s), keep) == Filter(s, keep)
  {
    if s != [] && IsWhitespace(s[0]) {
      FilterTrimStart(s[1..], keep);
    }
  }

  lemma {:induction false} FilterTrimEnd(s: string, keep: char -> bool)
    requires forall c :: IsWhitespace(c) ==> !keep(c)
    ensures Filter(TrimEnd(s), keep) == Filter(s, keep)
  {
    if s != [] && IsWhitespace(s[|s| - 1]) {
      var init, last := s[..|s| - 1], s[|s| - 1..];
      FilterTrimEnd(init, keep);
      FilterAppend(init, last, keep);
      assert s == init + last;
      assert Filter(last, keep) == [];
    }
  }

  /** Trimming first makes no difference to a filter that drops white space. */
  lemma FilterTrim(s: string, keep: char -> bool)
    requires forall c :: IsWhitespace(c) ==> !keep(c)
    ensures Filter(Trim(s), keep) == Filter(s, keep)
  {
    FilterTrimStart(s, keep);
    FilterTrimEnd(TrimStart(s), keep);
  }

  /** A room code and a room id never select the same room. */
  lemma CodeAndIdRoomsApart(code: string, id: string)
    ensures Code(code).RoomKey() != Id(id).RoomKey()
  {
    assert Code(code).RoomKey().value[0] == 'c';
    assert Id(id).RoomKey().value[0] == 'i';
  }

  /** What is left of a room token: its letters, digits, dashes and underscores, in upper case. */
  function RoomToken(value: string): string
  {
    ToUpper(Filter(value, c => IsAsciiAlphanumeric(c) || c == '-' || c == '_'))
  }

  lemma NormalizedToken(value: string)
    ensures NormalizeRoomToken(value) == if RoomToken(value) == "" then "unknown" else RoomToken(value)
    ensures RoomToken(value) != "unknown"
  {
    FilterTrim(value, c => IsAsciiAlphanumeric(c) || c == '-' || c == '_');
    if RoomToken(value) != "" {
      assert RoomToken(value)[0] != 'u';
    }
  }

  /** Two spellings select the same room exactly when they agree up to case and dropped characters. */
  lemma RoomKeySpelling(a: string, b: string)
    ensures Code(a).RoomKey() == Code(b).RoomKey() <==> RoomToken(a) == RoomToken(b)
    ensures Id(a).RoomKey() == Id(b).RoomKey() <==> RoomToken(a) == RoomToken(b)
  {
    NormalizedToken(a);
    NormalizedToken(b);
    if Code(a).RoomKey() == Code(b).RoomKey() {
      DropPrefix("code:", NormalizeRoomToken(a), NormalizeRoomToken(b));
    }
    if Id(a).RoomKey() == Id(b).RoomKey() {
      DropPrefix("id:", NormalizeRoomToken(a), NormalizeRoomToken(b));
    }
  }
}

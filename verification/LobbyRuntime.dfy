/** The in-memory lobby runtime: creating, joining by code, readying up and handing over to assignment. */
module LobbyRuntime {
  import opened Wrappers
  import opened Names
  import opened Provider

  datatype LobbyMember = LobbyMember(
    playerId: string, displayName: string, team: Option<string>, ready: bool, latencies: seq<LatencyReport>,
    metadata: map<string, string>)

  datatype Lobby = Lobby(
    id: string, joinCode: string, owner: string, members: seq<LobbyMember>, game: string, version: string,
    maxPlayers: u32, ready: bool, metadata: map<string, string>)

  datatype Identity = Identity(playerId: string, displayName: string)

  datatype LobbyError = UnknownCode(code: string) | NoLobby(id: string) | Full(id: string) | NotMember(playerId: string)

  const U64_MAX: nat := 0xFFFF_FFFF_FFFF_FFFF

  function SaturatingInc(n: nat): nat
  {
    if n >= U64_MAX then n else n + 1
  }

  // Names.

  function LobbyIdOf(n: nat): string
  {
    "lobby-" + Decimal(n)
  }

  /** At least four upper-case hexadecimal digits. */
  function JoinCodeOf(n: nat): string
  {
    Pad(Render(n, 16, 'A'), 4)
  }

  function TeamOf(position: nat): string
  {
    "team-" + Decimal(position % 2 + 1)
  }

  lemma NamesDistinct(a: nat, b: nat)
    ensures LobbyIdOf(a) == LobbyIdOf(b) ==> a == b
    ensures JoinCodeOf(a) == JoinCodeOf(b) ==> a == b
  {
    ValueOfRender(a, 10, 'a');
    ValueOfRender(b, 10, 'a');
    ValueOfPad(a, 4, 16, 'A');
    ValueOfPad(b, 4, 16, 'A');
    assert LobbyIdOf(a)[6..] == Decimal(a) && LobbyIdOf(b)[6..] == Decimal(b);
  }

  /** What the names say: the counter, in decimal, and in at least four hexadecimal digits. */
  lemma NamesRead(n: nat)
    ensures LobbyIdOf(n)[..6] == "lobby-" && Value(LobbyIdOf(n)[6..], 10, 'a') == n
    ensures |JoinCodeOf(n)| >= 4 && Value(JoinCodeOf(n), 16, 'A') == n
    ensures n < 16 ==> |JoinCodeOf(n)| == 4
  {
    ValueOfRender(n, 10, 'a');
    ValueOfPad(n, 4, 16, 'A');
    assert LobbyIdOf(n)[6..] == Decimal(n);
  }

  function NormalizeJoinCode(code: string): string
  {
    ToUpper(Filter(Trim(code), c => IsAsciiAlphanumeric(c)))
  }

  /** The text spells the code in any letter case, with punctuation or white space anywhere. */
  predicate Spells(text: string, code: string)
  {
    if text == [] then code == []
    else if !IsAsciiAlphanumeric(text[0]) then Spells(text[1..], code)
    else code != [] && Upper(text[0]) == code[0] && Spells(text[1..], code[1..])
  }

  lemma {:induction false} FilterSpells(text: string, code: string)
    ensures ToUpper(Filter(text, c => IsAsciiAlphanumeric(c))) == code <==> Spells(text, code)
  {
    var keep := (c: char) => IsAsciiAlphanumeric(c);
    if text != [] {
      if !keep(text[0]) {
        FilterSpells(text[1..], code);
      } else {
        var rest := Filter(text[1..], keep);
        assert Filter(text, keep) == [text[0]] + rest;
        assert ToUpper([text[0]] + rest) == [Upper(text[0])] + ToUpper(rest);
        if code != [] {
          FilterSpells(text[1..], code[1..]);
          assert code == [code[0]] + code[1..];
        }
      }
    }
  }

  lemma NormalizedSpells(text: string, code: string)
    ensures NormalizeJoinCode(text) == code <==> Spells(text, code)
  {
    FilterTrim(text, c => IsAsciiAlphanumeric(c));
    FilterSpells(text, code);
  }

  // Lobbies.

  predicate IsFull(lobby: Lobby)
  {
    |lobby.members| >= lobby.maxPlayers
  }

  predicate AllReady(members: seq<LobbyMember>)
  {
    forall m | m in members :: m.ready
  }

  predicate HasMember(members: seq<LobbyMember>, playerId: string)
  {
    exists m | m in members :: m.playerId == playerId
  }

  /** Members are distinct and fill the two teams in turn; `ready` says the lobby is full and everyone is ready. */
  ghost predicate LobbyOk(lobby: Lobby)
  {
    && 1 <= |lobby.members| <= lobby.maxPlayers
    && lobby.members[0].playerId == lobby.owner
    && (forall i, j | 0 <= i < j < |lobby.members| :: lobby.members[i].playerId != lobby.members[j].playerId)
    && (forall i | 0 <= i < |lobby.members| :: lobby.members[i].team == Some(TeamOf(i)))
    && (lobby.ready <==> IsFull(lobby) && AllReady(lobby.members))
  }

  function InTeam(members: seq<LobbyMember>, team: string): nat
  {
    if members == [] then 0
    else InTeam(members[..|members| - 1], team) + if members[|members| - 1].team == Some(team) then 1 else 0
  }

  lemma TeamsDiffer()
    ensures TeamOf(0) != TeamOf(1)
  {
    ValueOfRender(1, 10, 'a');
    ValueOfRender(2, 10, 'a');
    assert TeamOf(0)[5..] == Decimal(1) && TeamOf(1)[5..] == Decimal(2);
  }

  /** The teams of a lobby differ by at most one player. */
  lemma {:induction false} TeamsBalanced(members: seq<LobbyMember>)
    requires forall i | 0 <= i < |members| :: members[i].team == Some(TeamOf(i))
    ensures InTeam(members, TeamOf(0)) == InTeam(members, TeamOf(1)) + |members| % 2
    ensures InTeam(members, TeamOf(0)) + InTeam(members, TeamOf(1)) == |members|
  {
    TeamsDiffer();
    if members != [] {
      var n := |members| - 1;
      TeamsBalanced(members[..n]);
      assert TeamOf(n) == TeamOf(n % 2);
    }
  }

  /** The lobby with one more member, who takes the team whose turn it is. */
  function Joined(lobby: Lobby, player: Identity, latencies: seq<LatencyReport>): Lobby
  {
    var team := TeamOf(|lobby.members|);
    var member := LobbyMember(player.playerId, player.displayName, Some(team), false, latencies, map[]);
    lobby.(members := lobby.members + [member])
  }

  lemma JoinKeepsOk(lobby: Lobby, player: Identity, latencies: seq<LatencyReport>)
    requires LobbyOk(lobby) && !IsFull(lobby) && !HasMember(lobby.members, player.playerId)
    ensures LobbyOk(Joined(lobby, player, latencies))
  {
    var next := Joined(lobby, player, latencies);
    var member := next.members[|lobby.members|];
    assert member in next.members && !member.ready;
    forall i | 0 <= i < |lobby.members|
      ensures lobby.members[i].playerId != player.playerId
    {
      assert lobby.members[i] in lobby.members;
    }
  }

  /** The first member with the id, or the number of members. */
  function Position(members: seq<LobbyMember>, playerId: string): (i: nat)
    ensures i <= |members|
    ensures i < |members| ==> members[i].playerId == playerId
    ensures i == |members| <==> !HasMember(members, playerId)
  {
    if members == [] then 0
    else if members[0].playerId == playerId then
      assert members[0] in members; 0
    else
      assert members == [members[0]] + members[1..];
      1 + Position(members[1..], playerId)
  }

  /** The lobby after the member at a position has said whether they are ready. */
  function Readied(lobby: Lobby, i: nat, ready: bool): Lobby
    requires i < |lobby.members|
  {
    var members := lobby.members[i := lobby.members[i].(ready := ready)];
    lobby.(members := members, ready := |members| >= lobby.maxPlayers && AllReady(members))
  }

  lemma ReadyKeepsOk(lobby: Lobby, i: nat, ready: bool)
    requires LobbyOk(lobby) && i < |lobby.members|
    ensures LobbyOk(Readied(lobby, i, ready))
  {
  }

  /** Just this member's readiness was recorded, as said, and the lobby's own readiness with it. */
  predicate SaidReady(was: Lobby, lobby: Lobby, playerId: string, ready: bool)
  {
    && lobby == was.(members := lobby.members, ready := lobby.ready)
    && |lobby.members| == |was.members|
    && forall k | 0 <= k < |was.members| ::
         lobby.members[k] == if was.members[k].playerId == playerId then was.members[k].(ready := ready)
                             else was.members[k]
  }

  lemma ReadiedMeans(lobby: Lobby, i: nat, ready: bool)
    requires LobbyOk(lobby) && i < |lobby.members|
    ensures SaidReady(lobby, Readied(lobby, i, ready), lobby.members[i].playerId, ready)
  {
  }

  /** Just one member was added, not ready yet, in the team with fewer players, with the latencies sent. */
  predicate Entered(was: Lobby, lobby: Lobby, player: Identity, latencies: seq<LatencyReport>)
  {
    var team := if |was.members| % 2 == 0 then "team-1" else "team-2";
    lobby == was.(members := was.members + [LobbyMember(player.playerId, player.displayName, Some(team), false,
                                                        latencies, map[])])
  }

  lemma TeamNames(position: nat)
    ensures TeamOf(position) == if position % 2 == 0 then "team-1" else "team-2"
  {
    assert Decimal(1) == "1" && Decimal(2) == "2";
  }

  type Lobbies = map<string, Lobby>

  type Codes = map<string, string>

  /** The two maps are inverse to each other: the n-th code leads to the n-th lobby, which bears that code. */
  ghost predicate Indexed(count: nat, codes: Codes, lobbies: Lobbies)
  {
    && (forall code | code in codes :: exists n :: NthCode(n, count, code))
    && (forall id | id in lobbies :: exists n :: NthId(n, count, id))
    && (forall n | 1 <= n <= count :: Bears(n, codes, lobbies))
  }

  predicate NthCode(n: nat, count: nat, code: string)
  {
    1 <= n <= count && code == JoinCodeOf(n)
  }

  predicate NthId(n: nat, count: nat, id: string)
  {
    1 <= n <= count && id == LobbyIdOf(n)
  }

  predicate Bears(n: nat, codes: Codes, lobbies: Lobbies)
  {
    && JoinCodeOf(n) in codes && codes[JoinCodeOf(n)] == LobbyIdOf(n)
    && LobbyIdOf(n) in lobbies
    && lobbies[LobbyIdOf(n)].id == LobbyIdOf(n) && lobbies[LobbyIdOf(n)].joinCode == JoinCodeOf(n)
  }

  lemma IndexedInsert(count: nat, codes: Codes, lobbies: Lobbies, lobby: Lobby)
    requires count <= U64_MAX && Indexed(count, codes, lobbies)
    requires lobby.id == LobbyIdOf(SaturatingInc(count)) && lobby.joinCode == JoinCodeOf(SaturatingInc(count))
    ensures Indexed(SaturatingInc(count), codes[lobby.joinCode := lobby.id], lobbies[lobby.id := lobby])
    ensures lobby.id !in lobbies <==> count < U64_MAX
    ensures lobby.joinCode !in codes <==> count < U64_MAX
  {
    var next := SaturatingInc(count);
    var codes', lobbies' := codes[lobby.joinCode := lobby.id], lobbies[lobby.id := lobby];
    forall n: nat
      ensures LobbyIdOf(n) == lobby.id ==> n == next
      ensures JoinCodeOf(n) == lobby.joinCode ==> n == next
    {
      NamesDistinct(n, next);
    }
    forall n | 1 <= n <= next
      ensures Bears(n, codes', lobbies')
    {
      if n != next {
        assert Bears(n, codes, lobbies);
      }
    }
    forall code | code in codes'
      ensures exists n :: NthCode(n, next, code)
    {
      if code == lobby.joinCode {
        assert NthCode(next, next, code);
      } else {
        var n :| NthCode(n, count, code);
        assert NthCode(n, next, code);
      }
    }
    forall id | id in lobbies'
      ensures exists n :: NthId(n, next, id)
    {
      if id == lobby.id {
        assert NthId(next, next, id);
      } else {
        var n :| NthId(n, count, id);
        assert NthId(n, next, id);
      }
    }
    if count == U64_MAX {
      assert Bears(next, codes, lobbies);
    }
  }

  lemma IndexedUpdate(count: nat, codes: Codes, lobbies: Lobbies, lobby: Lobby)
    requires Indexed(count, codes, lobbies)
    requires lobby.id in lobbies && lobbies[lobby.id].joinCode == lobby.joinCode
    ensures Indexed(count, codes, lobbies[lobby.id := lobby])
  {
    var lobbies' := lobbies[lobby.id := lobby];
    forall n | 1 <= n <= count
      ensures Bears(n, codes, lobbies')
    {
      assert Bears(n, codes, lobbies);
    }
  }

  lemma OwnId(count: nat, codes: Codes, lobbies: Lobbies, id: string)
    requires Indexed(count, codes, lobbies) && id in lobbies
    ensures lobbies[id].id == id
  {
    var n :| NthId(n, count, id);
    assert Bears(n, codes, lobbies);
  }

  /** What the maps hold is found again: an id under its lobby's code, and a code under its lobby. */
  lemma CodesInvert(count: nat, codes: Codes, lobbies: Lobbies)
    requires Indexed(count, codes, lobbies)
    ensures forall id | id in lobbies ::
              lobbies[id].id == id && lobbies[id].joinCode in codes && codes[lobbies[id].joinCode] == id
    ensures forall code | code in codes :: codes[code] in lobbies && lobbies[codes[code]].joinCode == code
  {
    forall id | id in lobbies
      ensures lobbies[id].id == id && lobbies[id].joinCode in codes && codes[lobbies[id].joinCode] == id
    {
      var n :| NthId(n, count, id);
      assert Bears(n, codes, lobbies);
    }
    forall code | code in codes
      ensures codes[code] in lobbies && lobbies[codes[code]].joinCode == code
    {
      var n :| NthCode(n, count, code);
      assert Bears(n, codes, lobbies);
    }
  }

  /** A lobby fit for assignment. */
  ghost predicate Complete(lobby: Lobby)
  {
    && LobbyOk(lobby) && |lobby.members| == lobby.maxPlayers
    && forall k | 0 <= k < |lobby.members| :: lobby.members[k].ready
  }

  /** Each lobby marked as assigning was handed over once, complete. */
  ghost predicate HandedOk(assigning: set<string>, handed: seq<Lobby>)
  {
    && (forall lobby | lobby in handed :: Complete(lobby) && lobby.id in assigning)
    && (forall id | id in assigning :: exists i :: 0 <= i < |handed| && handed[i].id == id)
    && (forall i, j | 0 <= i < j < |handed| :: handed[i].id != handed[j].id)
  }

  lemma HandOver(assigning: set<string>, handed: seq<Lobby>, lobby: Lobby)
    requires HandedOk(assigning, handed) && lobby.id !in assigning && Complete(lobby)
    ensures HandedOk(assigning + {lobby.id}, handed + [lobby])
  {
    forall id | id in assigning + {lobby.id}
      ensures exists i :: 0 <= i < |handed + [lobby]| && (handed + [lobby])[i].id == id
    {
      if id == lobby.id {
        assert (handed + [lobby])[|handed|].id == id;
      } else {
        var i :| 0 <= i < |handed| && handed[i].id == id;
        assert (handed + [lobby])[i].id == id;
      }
    }
  }

  class Runtime {
    var nextLobbyId: nat
    var nextJoinCode: nat
    var lobbies: Lobbies
    var codeToLobby: Codes
    var assigningLobbies: set<string>
    /** The lobbies handed over to assignment, as they were at that time. */
    ghost var handed: seq<Lobby>

    ghost predicate Valid()
      reads this
    {
      && nextLobbyId == nextJoinCode <= U64_MAX
      && Indexed(nextLobbyId, codeToLobby, lobbies)
      && (forall id | id in lobbies :: LobbyOk(lobbies[id]))
      && HandedOk(assigningLobbies, handed)
    }

    constructor ()
      ensures Valid() && lobbies == map[] && codeToLobby == map[] && assigningLobbies == {} && handed == []
    {
      nextLobbyId, nextJoinCode := 0, 0;
      lobbies, codeToLobby, assigningLobbies, handed := map[], map[], {}, [];
    }

    /** The new lobby gets an id and a code of its own exactly while the counters are not saturated. */
    method CreateLobby(owner: Identity, game: string, version: string, maxPlayers: u32, latencies: seq<LatencyReport>)
      returns (lobby: Lobby)
      requires Valid()
      modifies this`nextLobbyId, this`nextJoinCode, this`lobbies, this`codeToLobby
      ensures Valid()
      ensures lobbies == old(lobbies)[lobby.id := lobby] && codeToLobby == old(codeToLobby)[lobby.joinCode := lobby.id]
      ensures lobby.id !in old(lobbies) <==> old(nextLobbyId) < U64_MAX
      ensures lobby.joinCode !in old(codeToLobby) <==> old(nextLobbyId) < U64_MAX
      ensures lobby.owner == owner.playerId && lobby.metadata == map[]
      ensures lobby.members ==
              [LobbyMember(owner.playerId, owner.displayName, Some("team-1"), false, latencies, map[])]
      ensures !lobby.ready && lobby.maxPlayers == AtLeastOne(maxPlayers)
      ensures lobby.game == game && lobby.version == version
    {
      var count := nextLobbyId;
      nextLobbyId, nextJoinCode := SaturatingInc(nextLobbyId), SaturatingInc(nextJoinCode);
      var id, joinCode := LobbyIdOf(nextLobbyId), JoinCodeOf(nextJoinCode);
      var member := LobbyMember(owner.playerId, owner.displayName, Some("team-1"), false, latencies, map[]);
      lobby := Lobby(id, joinCode, owner.playerId, [member], game, version, AtLeastOne(maxPlayers), false, map[]);
      IndexedInsert(count, codeToLobby, lobbies, lobby);
      assert LobbyOk(lobby) by {
        assert TeamOf(0) == "team-1";
        assert member in lobby.members;
      }
      codeToLobby := codeToLobby[joinCode := id];
      lobbies := lobbies[id := lobby];
    }

    method ReplaceLobby(lobby: Lobby)
      requires Valid() && lobby.id in lobbies && lobbies[lobby.id].joinCode == lobby.joinCode && LobbyOk(lobby)
      modifies this`lobbies
      ensures Valid() && lobbies == old(lobbies)[lobby.id := lobby]
    {
      IndexedUpdate(nextLobbyId, codeToLobby, lobbies, lobby);
      lobbies := lobbies[lobby.id := lobby];
    }

    /** Any spelling of a code finds the lobby that was printed with it, and no other. */
    method JoinLobbyByCode(text: string, player: Identity, latencies: seq<LatencyReport>)
      returns (r: Result<Lobby, LobbyError>)
      requires Valid()
      modifies this`lobbies
      ensures Valid()
      ensures r.Ok? ==> r.value.id in old(lobbies) && Spells(text, r.value.joinCode)
      ensures r.Ok? ==>
                var was := old(lobbies)[r.value.id];
                && lobbies == old(lobbies)[r.value.id := r.value]
                && if HasMember(was.members, player.playerId) then r.value == was
                   else !IsFull(was) && Entered(was, r.value, player, latencies)
      ensures r.Err? ==> lobbies == old(lobbies) && JoinRefused(r.error, text, player)
    {
      var code := NormalizeJoinCode(text);
      NormalizedSpells(text, code);
      CodesInvert(nextLobbyId, codeToLobby, lobbies);
      if code !in codeToLobby {
        forall id | id in lobbies
          ensures !Spells(text, lobbies[id].joinCode)
        {
          NormalizedSpells(text, lobbies[id].joinCode);
        }
        return Err(UnknownCode(code));
      }
      var id := codeToLobby[code];
      if id !in lobbies {
        return Err(NoLobby(id));
      }
      var lobby := lobbies[id];
      if !HasMember(lobby.members, player.playerId) {
        if |lobby.members| >= lobby.maxPlayers {
          return Err(Full(id));
        }
        JoinKeepsOk(lobby, player, latencies);
        TeamNames(|lobby.members|);
        var team := "team-" + Decimal(|lobby.members| % 2 + 1);
        var member := LobbyMember(player.playerId, player.displayName, Some(team), false, latencies, map[]);
        lobby := lobby.(members := lobby.members + [member]);
        ReplaceLobby(lobby);
      }
      r := Ok(lobby);
    }

    /** Joining fails only for a text that spells no lobby's code, or for a full lobby; a code never leads nowhere. */
    ghost predicate JoinRefused(error: LobbyError, text: string, player: Identity)
      reads this
    {
      match error
      case UnknownCode(_) => forall id | id in lobbies :: !Spells(text, lobbies[id].joinCode)
      case Full(id) =>
        && id in lobbies && Spells(text, lobbies[id].joinCode)
        && IsFull(lobbies[id]) && !HasMember(lobbies[id].members, player.playerId)
      case _ => false
    }

    /** Marks a ready lobby as being assigned, unless it already is. */
    method MarkAssigning(lobby: Lobby) returns (assign: bool)
      requires Valid() && LobbyOk(lobby)
      modifies this`assigningLobbies, this`handed
      ensures Valid()
      ensures assign <==> Complete(lobby) && lobby.id !in old(assigningLobbies)
      ensures assigningLobbies == old(assigningLobbies) + (if assign then {lobby.id} else {})
      ensures handed == old(handed) + if assign then [lobby] else []
    {
      assign := lobby.ready && lobby.id !in assigningLobbies;
      if assign {
        HandOver(assigningLobbies, handed, lobby);
        assigningLobbies := assigningLobbies + {lobby.id};
        handed := handed + [lobby];
      }
    }

    ghost predicate ReadyRefused(error: LobbyError, lobbyId: string, playerId: string)
      reads this
    {
      if lobbyId in lobbies then error == NotMember(playerId) && !HasMember(lobbies[lobbyId].members, playerId)
      else error == NoLobby(lobbyId)
    }

    /**
     Records whether a member is ready. `assign` is raised the first time the lobby is
     full with everyone ready, and never again for that id.
     */
    method SetReady(lobbyId: string, playerId: string, ready: bool) returns (r: Result<Lobby, LobbyError>, assign: bool)
      requires Valid()
      modifies this`lobbies, this`assigningLobbies, this`handed
      ensures Valid()
      ensures r.Ok? ==>
                var lobby := r.value;
                && lobbyId in old(lobbies) && lobby.id == lobbyId && lobbies == old(lobbies)[lobbyId := lobby]
                && HasMember(old(lobbies)[lobbyId].members, playerId)
                && SaidReady(old(lobbies)[lobbyId], lobby, playerId, ready)
                && (lobby.ready <==> |lobby.members| == lobby.maxPlayers &&
                                     forall k | 0 <= k < |lobby.members| :: lobby.members[k].ready)
      ensures r.Err? ==> lobbies == old(lobbies) && ReadyRefused(r.error, lobbyId, playerId)
      ensures assign <==> r.Ok? && r.value.ready && lobbyId !in old(assigningLobbies)
      ensures assigningLobbies == old(assigningLobbies) + (if assign then {lobbyId} else {})
      ensures handed == old(handed) + if assign then [r.value] else []
    {
      if lobbyId !in lobbies {
        return Err(NoLobby(lobbyId)), false;
      }
      var lobby := lobbies[lobbyId];
      var i := Position(lobby.members, playerId);
      if i == |lobby.members| {
        return Err(NotMember(playerId)), false;
      }
      OwnId(nextLobbyId, codeToLobby, lobbies, lobbyId);
      ReadyKeepsOk(lobby, i, ready);
      ReadiedMeans(lobby, i, ready);
      var members := lobby.members[i := lobby.members[i].(ready := ready)];
      lobby := lobby.(members := members, ready := |members| >= lobby.maxPlayers && AllReady(members));
      ReplaceLobby(lobby);
      assign := MarkAssigning(lobby);
      r := Ok(lobby);
    }
  }
}

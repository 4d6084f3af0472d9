/** From a complete lobby to its members' assignment records and the context each client gets on the game server. */
module LobbyContext {
  import opened Wrappers
  import opened Names
  import opened Provider
  import opened Records
  import opened LobbyRuntime
  import GameServer

  /** Client ids drawn for the members, by player id. */
  type Clients = map<string, nat>

  function ClientOf(clients: Clients, playerId: string): Option<nat>
  {
    if playerId in clients then Some(clients[playerId]) else None
  }

  function RosterEntry(clients: Clients): LobbyMember -> RosterMember
  {
    (m: LobbyMember) => RosterMember(m.playerId, ClientOf(clients, m.playerId), m.team, m.metadata)
  }

  function Metadata(lobby: Lobby): map<string, string>
  {
    map["game" := lobby.game, "version" := lobby.version, "lobby_id" := lobby.id, "join_code" := lobby.joinCode]
  }

  /** One record per member that has a client id, in the order of the members. */
  method CreateRecords(lobby: Lobby, requestId: string, allocation: ServerAllocation, clients: Clients)
    returns (records: seq<AssignmentRecord>)
    requires forall m | m in lobby.members :: m.playerId in clients
    ensures |records| == |lobby.members|
    ensures forall i | 0 <= i < |records| :: IsRecordOf(records[i], lobby, i, requestId, allocation, clients)
  {
    var roster := Map(lobby.members, RosterEntry(clients));
    records := [];
    var i := 0;
    while i < |lobby.members|
      invariant 0 <= i <= |lobby.members| && |records| == i
      invariant forall k | 0 <= k < i :: IsRecordOf(records[k], lobby, k, requestId, allocation, clients)
    {
      var member := lobby.members[i];
      assert member in lobby.members;
      var client := clients[member.playerId];
      records := records + [AssignmentRecord(
        AssignmentIdOf(requestId, client), requestId, allocation.allocationId, allocation.serverId, client,
        member.playerId, Some(lobby.id), member.team, roster, Metadata(lobby), allocation.metadata)];
      i := i + 1;
    }
  }

  /** The record belongs to the member at the position, and everything else in it is the lobby's. */
  ghost predicate IsRecordOf(record: AssignmentRecord, lobby: Lobby, i: nat, requestId: string,
                             allocation: ServerAllocation, clients: Clients)
  {
    && i < |lobby.members|
    && ClientOf(clients, lobby.members[i].playerId) == Some(record.clientId)
    && record.playerId == lobby.members[i].playerId && record.team == lobby.members[i].team
    && record.Generated() && record.requestId == requestId
    && record.allocationId == allocation.allocationId && record.serverId == allocation.serverId
    && record.lobbyId == Some(lobby.id)
    && record.roster == Map(lobby.members, RosterEntry(clients))
    && record.matchMetadata == Metadata(lobby) && record.metadata == allocation.metadata
  }

  /** No two members drew the same client id. */
  predicate DistinctClients(members: seq<LobbyMember>, clients: Clients)
  {
    forall i, j | 0 <= i < j < |members| ::
      ClientOf(clients, members[i].playerId) != ClientOf(clients, members[j].playerId)
  }

  /** The context names the member, and the lobby it shares with the others. */
  ghost predicate OwnContext(record: AssignmentRecord, member: LobbyMember, lobby: Lobby)
  {
    var context := GameServer.ContextForAssignment(record, record.clientId);
    && context.clientId == record.clientId
    && context.playerId == member.playerId && context.team == member.team
    && context.lobbyId == Some(lobby.id) && context.roster == record.roster
    && (context.rosterMember.Some? && context.rosterMember.value.metadata == member.metadata)
    && context.matchMetadata == map["game" := lobby.game, "version" := lobby.version, "lobby_id" := lobby.id,
                                    "join_code" := lobby.joinCode]
    && context.assignmentMetadata == record.metadata
  }

  lemma FirstGetsContext(record: AssignmentRecord, lobby: Lobby, i: nat, first: nat, requestId: string,
                         allocation: ServerAllocation, clients: Clients)
    requires LobbyOk(lobby) && IsRecordOf(record, lobby, i, requestId, allocation, clients)
    requires first <= i && ClientOf(clients, lobby.members[first].playerId) == Some(record.clientId)
    requires forall k | 0 <= k < first :: ClientOf(clients, lobby.members[k].playerId) != Some(record.clientId)
    ensures GameServer.ContextForAssignment(record, record.clientId).playerId == lobby.members[first].playerId
    ensures first == i ==> OwnContext(record, lobby.members[i], lobby)
  {
    GameServer.ContextMeans(record, record.clientId, first);
  }

  /** With distinct client ids every client gets its own player id and team, and assignment ids never clash. */
  lemma EveryoneGetsTheirContext(lobby: Lobby, records: seq<AssignmentRecord>, requestId: string,
                                 allocation: ServerAllocation, clients: Clients)
    requires LobbyOk(lobby) && |records| == |lobby.members| && DistinctClients(lobby.members, clients)
    requires forall i | 0 <= i < |records| :: IsRecordOf(records[i], lobby, i, requestId, allocation, clients)
    ensures forall i | 0 <= i < |records| :: OwnContext(records[i], lobby.members[i], lobby)
    ensures forall i, j | 0 <= i < j < |records| ::
              records[i].assignmentId != records[j].assignmentId && records[i].clientId != records[j].clientId
  {
    forall i | 0 <= i < |records|
      ensures OwnContext(records[i], lobby.members[i], lobby)
    {
      FirstGetsContext(records[i], lobby, i, i, requestId, allocation, clients);
    }
    forall i, j | 0 <= i < j < |records|
      ensures records[i].assignmentId != records[j].assignmentId && records[i].clientId != records[j].clientId
    {
      if records[i].assignmentId == records[j].assignmentId {
        AssignmentIdInjective(requestId, records[i].clientId, requestId, records[j].clientId);
      }
    }
  }

  /** And only then: when two members draw the same client id, the later one gets an earlier one's player id. */
  lemma {:induction false} SharedClientMisleads(lobby: Lobby, records: seq<AssignmentRecord>, requestId: string,
                             allocation: ServerAllocation, clients: Clients, i: nat, j: nat)
    requires LobbyOk(lobby) && |records| == |lobby.members|
    requires forall k | 0 <= k < |records| :: IsRecordOf(records[k], lobby, k, requestId, allocation, clients)
    requires i < j < |records| && records[i].clientId == records[j].clientId
    ensures !OwnContext(records[j], lobby.members[j], lobby)
    decreases i
  {
    if k :| 0 <= k < i && ClientOf(clients, lobby.members[k].playerId) == Some(records[j].clientId) {
      SharedClientMisleads(lobby, records, requestId, allocation, clients, k, j);
    } else {
      FirstGetsContext(records[j], lobby, j, i, requestId, allocation, clients);
    }
  }
}

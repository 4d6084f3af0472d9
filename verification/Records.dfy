/** Assignment records, acknowledgements and game-server reports. */
module Records {
  import opened Names
  import opened Wrappers
  import opened Provider

  datatype RosterMember = RosterMember(
    playerId: string, clientId: Option<nat>, team: Option<string>, metadata: map<string, string>)

  datatype AssignmentRecord = AssignmentRecord(
    assignmentId: string, requestId: string, allocationId: string, serverId: string, clientId: nat,
    playerId: string, lobbyId: Option<string>, team: Option<string>, roster: seq<RosterMember>,
    matchMetadata: map<string, string>, metadata: map<string, string>)
  {
    /** The matchmaker derives the assignment id from the request and the client. */
    predicate Generated()
    {
      assignmentId == AssignmentIdOf(requestId, clientId)
    }

    function RosterMemberForClient(client: nat): Option<RosterMember>
    {
      Head(Filter(roster, (m: RosterMember) => m.clientId == Some(client)))
    }
  }

  datatype AssignmentPrepared = AssignmentPrepared(
    assignmentId: string, serverId: string, clientId: nat, prepared: bool, reason: Option<string>)

  function Accepted(record: AssignmentRecord): AssignmentPrepared
  {
    AssignmentPrepared(record.assignmentId, record.serverId, record.clientId, true, None)
  }

  datatype ActiveConnection = ActiveConnection(serverId: string, clientId: nat, playerId: string, connected: bool)

  datatype Report =
    | ReadinessReport(serverId: string, ready: bool, certDigest: Option<string>)
    | CapacityReport(capacity: ServerCapacity)
    | PreparedReport(ack: AssignmentPrepared)
    | ConnectionReport(connection: ActiveConnection)
}

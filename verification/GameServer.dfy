/**
 Admission state of one game server: what each operation does to it, what every
 history of operations keeps, and the mutable class that implements it.
 */
module GameServer {
  import opened Wrappers
  import opened Provider
  import opened Records

  datatype Tracked = Tracked(record: AssignmentRecord, receivedAt: nat, connected: bool)

  /** `history` lists every report ever queued; `outbox` is its undrained tail. */
  datatype Local = Local(
    serverId: string, capacity: ServerCapacity, gate: set<nat>, ids: set<string>, assignments: map<nat, Tracked>,
    outbox: seq<Report>, history: seq<Report>)
  {
    predicate Tracks(client: nat)
    {
      client in assignments
    }

    predicate IsConnected(client: nat)
    {
      client in assignments && assignments[client].connected
    }
  }

  function Fresh(serverId: string, capacity: ServerCapacity): Local
  {
    Local(serverId, capacity, {}, {}, map[], [], [])
  }

  function Queue(s: Local, report: Report): Local
  {
    s.(outbox := s.outbox + [report], history := s.history + [report])
  }

  function SetReady(s: Local, ready: bool, certDigest: Option<string>): Local
  {
    Queue(s.(capacity := s.capacity.(ready := ready, certDigest := certDigest)),
          ReadinessReport(s.serverId, ready, certDigest))
  }

  function PublishCapacity(s: Local, capacity: ServerCapacity): Local
  {
    Queue(s.(capacity := capacity), CapacityReport(capacity))
  }

  function Register(s: Local, record: AssignmentRecord, now: nat): Local
  {
    if record.assignmentId in s.ids then s
    else
      Queue(s.(ids := s.ids + {record.assignmentId},
               gate := s.gate + {record.clientId},
               assignments := s.assignments[record.clientId := Tracked(record, now, false)]),
            PreparedReport(Accepted(record)))
  }

  function Connection(s: Local, client: nat, connected: bool): Report
    requires s.Tracks(client)
  {
    ConnectionReport(ActiveConnection(s.serverId, client, s.assignments[client].record.playerId, connected))
  }

  function Connect(s: Local, client: nat): Local
  {
    if !s.Tracks(client) then s
    else
      Queue(s.(assignments := s.assignments[client := s.assignments[client].(connected := true)]),
            Connection(s, client, true))
  }

  function Disconnect(s: Local, client: nat): Local
  {
    if !s.Tracks(client) then s
    else
      Queue(s.(assignments := s.assignments - {client},
               ids := s.ids - {s.assignments[client].record.assignmentId},
               gate := s.gate - {client}),
            Connection(s, client, false))
  }

  predicate IsStale(t: Tracked, now: nat, timeout: nat)
  {
    !t.connected && (if now < t.receivedAt then 0 else now - t.receivedAt) >= timeout
  }

  function Least(s: set<nat>): (m: nat)
    requires s != {}
    ensures m in s && forall x | x in s :: m <= x
  {
    assert exists m :: m in s && forall x | x in s :: m <= x by {
      var least := FindLeast(s);
    }
    var m :| m in s && forall x | x in s :: m <= x;
    m
  }

  lemma {:induction false} FindLeast(s: set<nat>) returns (least: nat)
    requires s != {}
    ensures least in s && forall x | x in s :: least <= x
  {
    least :| least in s;
    var rest := s - {least};
    assert forall x | x in s :: x == least || x in rest;
    if rest != {} {
      var among := FindLeast(rest);
      if among < least {
        least := among;
      }
    }
  }

  function Ascending(s: set<nat>): (r: seq<nat>)
    ensures forall x :: x in r <==> x in s
    ensures forall i, j | 0 <= i < j < |r| :: r[i] < r[j]
  {
    if s == {} then [] else [Least(s)] + Ascending(s - {Least(s)})
  }

  function IsStaleIn(assignments: map<nat, Tracked>, now: nat, timeout: nat): nat -> bool
  {
    client => client in assignments && IsStale(assignments[client], now, timeout)
  }

  lemma {:induction false} FilterAscending(s: seq<nat>, p: nat -> bool)
    requires forall i, j | 0 <= i < j < |s| :: s[i] < s[j]
    ensures forall i, j | 0 <= i < j < |Filter(s, p)| :: Filter(s, p)[i] < Filter(s, p)[j]
  {
    if s != [] {
      FilterAscending(s[1..], p);
      var rest := Filter(s[1..], p);
      forall x | x in rest
        ensures s[0] < x
      {
        assert x in s[1..];
      }
      var all := Filter(s, p);
      assert all == if p(s[0]) then [s[0]] + rest else rest;
      forall i, j | 0 <= i < j < |all|
        ensures all[i] < all[j]
      {
        if p(s[0]) {
          assert all[j] == rest[j - 1] && rest[j - 1] in rest;
          assert i > 0 ==> all[i] == rest[i - 1];
        }
      }
    }
  }

  function StaleClients(s: Local, now: nat, timeout: nat): (stale: seq<nat>)
    ensures forall i, j | 0 <= i < j < |stale| :: stale[i] < stale[j]
    ensures forall c :: c in stale <==> s.Tracks(c) && IsStale(s.assignments[c], now, timeout)
  {
    FilterAscending(Ascending(s.assignments.Keys), IsStaleIn(s.assignments, now, timeout));
    Filter(Ascending(s.assignments.Keys), IsStaleIn(s.assignments, now, timeout))
  }

  function DisconnectAll(s: Local, clients: seq<nat>): Local
  {
    if clients == [] then s
    else Disconnect(DisconnectAll(s, clients[..|clients| - 1]), clients[|clients| - 1])
  }

  /** Expiry drops each stale client exactly as a disconnect would. */
  function ExpireUnconnected(s: Local, now: nat, timeout: nat): Local
  {
    DisconnectAll(s, StaleClients(s, now, timeout))
  }

  function DrainReports(s: Local): Local
  {
    s.(outbox := [])
  }

  // What a history of reports says about a client.

  predicate Admits(report: Report, client: nat)
  {
    report.PreparedReport? && report.ack.prepared && report.ack.clientId == client
  }

  predicate Deactivates(report: Report, client: nat)
  {
    report.ConnectionReport? && report.connection.clientId == client && !report.connection.connected
  }

  predicate Activates(report: Report, client: nat)
  {
    report.ConnectionReport? && report.connection.clientId == client && report.connection.connected
  }

  predicate EverAdmitted(history: seq<Report>, client: nat)
  {
    exists i | 0 <= i < |history| :: Admits(history[i], client)
  }

  /** A preparation report for the client that no inactive report follows. */
  ghost predicate Admitted(history: seq<Report>, client: nat)
  {
    exists i | 0 <= i < |history| ::
      Admits(history[i], client) && forall j | i < j < |history| :: !Deactivates(history[j], client)
  }

  function Applied(connected: bool, report: Report, client: nat): bool
  {
    Activates(report, client) || (connected && !Deactivates(report, client))
  }

  /** Whether the client counts as connected once the reports are applied in order. */
  function Replayed(connected: bool, reports: seq<Report>, client: nat): bool
    decreases |reports|
  {
    if reports == [] then connected else Replayed(Applied(connected, reports[0], client), reports[1..], client)
  }

  lemma {:induction false} ReplayedConcat(connected: bool, a: seq<Report>, b: seq<Report>, client: nat)
    ensures Replayed(connected, a + b, client) == Replayed(Replayed(connected, a, client), b, client)
    decreases |a|
  {
    if a == [] {
      assert a + b == b;
    } else {
      ReplayedConcat(Applied(connected, a[0], client), a[1..], b, client);
      assert (a + b)[1..] == a[1..] + b;
    }
  }

  lemma ReplayedAppend(connected: bool, reports: seq<Report>, report: Report, client: nat)
    ensures Replayed(connected, reports + [report], client) ==
            Applied(Replayed(connected, reports, client), report, client)
  {
    ReplayedConcat(connected, reports, [report], client);
    assert [report][1..] == [];
  }

  lemma AdmittedAppend(history: seq<Report>, report: Report, client: nat)
    ensures Admitted(history + [report], client) <==>
            Admits(report, client) || (!Deactivates(report, client) && Admitted(history, client))
    ensures EverAdmitted(history + [report], client) <==> Admits(report, client) || EverAdmitted(history, client)
  {
    var h := history + [report];
    assert h[..|history|] == history;
    assert forall i | 0 <= i < |history| :: h[i] == history[i];
    assert h[|history|] == report;
    if Admitted(history, client) && !Deactivates(report, client) {
      var i :| 0 <= i < |history| && Admits(history[i], client) &&
               forall j | i < j < |history| :: !Deactivates(history[j], client);
      assert Admits(h[i], client);
    }
    if EverAdmitted(history, client) {
      var i :| 0 <= i < |history| && Admits(history[i], client);
      assert Admits(h[i], client);
    }
  }

  /**
   The gate is the key set of the assignments and a function of the report
   history; the ids of live assignments are known.
   */
  ghost predicate LocalOk(s: Local)
  {
    && s.gate == s.assignments.Keys
    && (forall c | c in s.assignments ::
          s.assignments[c].record.clientId == c && s.assignments[c].record.assignmentId in s.ids)
    && (forall c: nat :: c in s.gate <==> Admitted(s.history, c))
    && (forall r | r in s.history && r.PreparedReport? :: r.ack.prepared)
    && |s.outbox| <= |s.history|
    && s.outbox == s.history[|s.history| - |s.outbox|..]
  }

  lemma QueueKeepsTail(s: Local, report: Report)
    requires |s.outbox| <= |s.history| && s.outbox == s.history[|s.history| - |s.outbox|..]
    ensures var t := Queue(s, report);
            |t.outbox| <= |t.history| && t.outbox == t.history[|t.history| - |t.outbox|..]
  {
  }

  lemma QueueNeutral(s: Local, report: Report)
    requires LocalOk(s)
    requires forall c: nat :: !Admits(report, c) && !Deactivates(report, c)
    requires report.PreparedReport? ==> report.ack.prepared
    ensures LocalOk(Queue(s, report))
  {
    QueueKeepsTail(s, report);
    forall c: nat
      ensures Admitted(s.history + [report], c) <==> Admitted(s.history, c)
    {
      AdmittedAppend(s.history, report, c);
    }
  }

  lemma RegisterKeepsOk(s: Local, record: AssignmentRecord, now: nat)
    requires LocalOk(s)
    ensures var done := LocalOk(Register(s, record, now)); done
  {
    if record.assignmentId !in s.ids {
      var report := PreparedReport(Accepted(record));
      QueueKeepsTail(s, report);
      forall c: nat
        ensures Admitted(s.history + [report], c) <==> c == record.clientId || Admitted(s.history, c)
      {
        AdmittedAppend(s.history, report, c);
      }
    }
  }

  lemma ConnectKeepsOk(s: Local, client: nat)
    requires LocalOk(s)
    ensures LocalOk(Connect(s, client))
  {
    if s.Tracks(client) {
      var t := s.(assignments := s.assignments[client := s.assignments[client].(connected := true)]);
      assert t.assignments.Keys == s.assignments.Keys;
      QueueNeutral(t, Connection(s, client, true));
    }
  }

  /** Live assignments have ids of their own. */
  ghost predicate DistinctLiveIds(s: Local)
  {
    forall c, d | c in s.assignments && d in s.assignments && c != d ::
      s.assignments[c].record.assignmentId != s.assignments[d].record.assignmentId
  }

  lemma OperationsKeepDistinctIds(s: Local, record: AssignmentRecord, client: nat, now: nat)
    requires LocalOk(s) && DistinctLiveIds(s)
    ensures DistinctLiveIds(Register(s, record, now))
    ensures DistinctLiveIds(Connect(s, client))
    ensures DistinctLiveIds(Disconnect(s, client))
  {
  }

  lemma DisconnectKeepsOk(s: Local, client: nat)
    requires LocalOk(s) && DistinctLiveIds(s)
    ensures LocalOk(Disconnect(s, client))
  {
    if s.Tracks(client) {
      var report := Connection(s, client, false);
      var t := s.(assignments := s.assignments - {client},
                  ids := s.ids - {s.assignments[client].record.assignmentId},
                  gate := s.gate - {client});
      assert t.assignments.Keys == s.assignments.Keys - {client};
      QueueKeepsTail(t, report);
      forall c: nat
        ensures Admitted(s.history + [report], c) <==> c != client && Admitted(s.history, c)
      {
        AdmittedAppend(s.history, report, c);
      }
    }
  }

  lemma {:induction false} DisconnectAllKeepsOk(s: Local, clients: seq<nat>)
    requires LocalOk(s) && DistinctLiveIds(s)
    ensures LocalOk(DisconnectAll(s, clients)) && DistinctLiveIds(DisconnectAll(s, clients))
    ensures DisconnectAll(s, clients).assignments.Keys == s.assignments.Keys - (set c | c in clients)
    ensures forall c | c in DisconnectAll(s, clients).assignments ::
              DisconnectAll(s, clients).assignments[c] == s.assignments[c]
  {
    if clients != [] {
      var init, last := clients[..|clients| - 1], clients[|clients| - 1];
      DisconnectAllKeepsOk(s, init);
      DisconnectKeepsOk(DisconnectAll(s, init), last);
      assert clients == init + [last];
    }
  }

  function RecordsOf(assignments: map<nat, Tracked>, clients: seq<nat>): seq<AssignmentRecord>
    requires forall c | c in clients :: c in assignments
  {
    seq(|clients|, i requires 0 <= i < |clients| => assignments[clients[i]].record)
  }

  lemma NextStale(s: Local, stale: seq<nat>, i: nat)
    requires LocalOk(s) && DistinctLiveIds(s) && NoDup(stale) && i < |stale|
    requires forall c | c in stale :: s.Tracks(c)
    ensures DisconnectAll(s, stale[..i]).Tracks(stale[i])
    ensures s.Tracks(stale[i]) && DisconnectAll(s, stale[..i]).assignments[stale[i]] == s.assignments[stale[i]]
    ensures DisconnectAll(s, stale[..i + 1]) == Disconnect(DisconnectAll(s, stale[..i]), stale[i])
  {
    DisconnectAllKeepsOk(s, stale[..i]);
    assert stale[i] !in stale[..i];
    assert stale[i] in stale;
    assert stale[..i + 1][..i] == stale[..i];
  }

  /** Expiry removes exactly the stale clients; connected clients are never expired. */
  lemma ExpiryMeans(s: Local, now: nat, timeout: nat)
    requires LocalOk(s) && DistinctLiveIds(s)
    ensures LocalOk(ExpireUnconnected(s, now, timeout))
    ensures forall c: nat :: c in ExpireUnconnected(s, now, timeout).gate <==>
                             c in s.gate && !IsStale(s.assignments[c], now, timeout)
    ensures forall c | s.IsConnected(c) :: ExpireUnconnected(s, now, timeout).IsConnected(c)
  {
    DisconnectAllKeepsOk(s, StaleClients(s, now, timeout));
  }

  /** An assignment received at some time keeps its client's gate open exactly until the timeout has passed. */
  lemma ReceivedExpires(s: Local, record: AssignmentRecord, receivedAt: nat, now: nat, timeout: nat)
    requires LocalOk(s) && DistinctLiveIds(s) && record.assignmentId !in s.ids
    ensures var t := Register(s, record, receivedAt);
            record.clientId in ExpireUnconnected(t, now, timeout).gate <==> timeout > 0 && now < receivedAt + timeout
  {
    RegisterKeepsOk(s, record, receivedAt);
    OperationsKeepDistinctIds(s, record, 0, receivedAt);
    ExpiryMeans(Register(s, record, receivedAt), now, timeout);
  }

  /** A client that connected is never expired. */
  lemma ConnectedStays(s: Local, client: nat, now: nat, timeout: nat)
    requires LocalOk(s) && DistinctLiveIds(s) && s.Tracks(client)
    ensures Connect(s, client).IsConnected(client)
    ensures ExpireUnconnected(Connect(s, client), now, timeout).IsConnected(client)
    ensures client in ExpireUnconnected(Connect(s, client), now, timeout).gate
  {
    ConnectKeepsOk(s, client);
    OperationsKeepDistinctIds(s, s.assignments[client].record, client, 0);
    ExpiryMeans(Connect(s, client), now, timeout);
  }

  /** The whole visit of a client, as it is reported; afterwards only the reports are left. */
  lemma VisitReported(s: Local, record: AssignmentRecord, now: nat)
    requires LocalOk(s) && record.assignmentId !in s.ids && !s.Tracks(record.clientId)
    ensures var arrived := Connect(Register(s, record, now), record.clientId);
            var gone := Disconnect(arrived, record.clientId);
            && arrived.assignments == s.assignments[record.clientId := Tracked(record, now, true)]
            && arrived.gate == s.gate + {record.clientId} && arrived.ids == s.ids + {record.assignmentId}
            && gone.assignments == s.assignments && gone.gate == s.gate && gone.ids == s.ids
            && gone.capacity == s.capacity && gone.serverId == s.serverId
            && gone.outbox == s.outbox + [
                 PreparedReport(AssignmentPrepared(record.assignmentId, record.serverId, record.clientId, true, None)),
                 ConnectionReport(ActiveConnection(s.serverId, record.clientId, record.playerId, true)),
                 ConnectionReport(ActiveConnection(s.serverId, record.clientId, record.playerId, false))]
  {
    var arrived := Connect(Register(s, record, now), record.clientId);
    var gone := Disconnect(arrived, record.clientId);
    assert gone.assignments == s.assignments && gone.ids == s.ids && gone.gate == s.gate;
    assert |gone.outbox| == |s.outbox| + 3;
  }

  /** Capacity and readiness are kept and reported as published. */
  lemma CapacityReported(s: Local, capacity: ServerCapacity, ready: bool, certDigest: Option<string>)
    ensures var t := SetReady(PublishCapacity(s, capacity), ready, certDigest);
            && t.capacity == capacity.(ready := ready, certDigest := certDigest)
            && t.outbox == s.outbox + [CapacityReport(capacity), ReadinessReport(s.serverId, ready, certDigest)]
            && t.assignments == s.assignments && t.gate == s.gate && t.ids == s.ids
  {
    var t := SetReady(PublishCapacity(s, capacity), ready, certDigest);
    assert |t.outbox| == |s.outbox| + 2;
  }

  /** Replaying all connection reports gives the tracked connection flags. */
  ghost predicate ReportsAgree(s: Local)
  {
    forall c: nat :: Replayed(false, s.history, c) <==> s.IsConnected(c)
  }

  /**
   Registering keeps reports and flags in agreement exactly when it does not
   replace the assignment of a connected client: the replacement starts out
   unconnected and no report says so.
   */
  lemma RegisterKeepsAgreement(s: Local, record: AssignmentRecord, now: nat)
    requires ReportsAgree(s)
    ensures ReportsAgree(Register(s, record, now)) <==>
            record.assignmentId in s.ids || !s.IsConnected(record.clientId)
  {
    var t := Register(s, record, now);
    if record.assignmentId !in s.ids {
      forall c: nat
        ensures Replayed(false, t.history, c) == Replayed(false, s.history, c)
        ensures t.IsConnected(c) <==> c != record.clientId && s.IsConnected(c)
      {
        ReplayedAppend(false, s.history, PreparedReport(Accepted(record)), c);
      }
      assert Replayed(false, t.history, record.clientId) == s.IsConnected(record.clientId);
    }
  }

  lemma ConnectKeepsAgreement(s: Local, client: nat)
    requires ReportsAgree(s)
    ensures ReportsAgree(Connect(s, client))
  {
    if s.Tracks(client) {
      forall c: nat { ReplayedAppend(false, s.history, Connection(s, client, true), c); }
    }
  }

  lemma DisconnectKeepsAgreement(s: Local, client: nat)
    requires ReportsAgree(s)
    ensures ReportsAgree(Disconnect(s, client))
  {
    if s.Tracks(client) {
      forall c: nat { ReplayedAppend(false, s.history, Connection(s, client, false), c); }
    }
  }

  lemma {:induction false} DisconnectAllKeepsAgreement(s: Local, clients: seq<nat>)
    requires ReportsAgree(s)
    ensures ReportsAgree(DisconnectAll(s, clients))
  {
    if clients != [] {
      DisconnectAllKeepsAgreement(s, clients[..|clients| - 1]);
      DisconnectKeepsAgreement(DisconnectAll(s, clients[..|clients| - 1]), clients[|clients| - 1]);
    }
  }

  ghost predicate IdsAreLive(s: Local)
  {
    forall id | id in s.ids :: exists c | c in s.assignments :: s.assignments[c].record.assignmentId == id
  }

  /** An id outlives its assignment exactly when a tracked client is registered again under a new id. */
  lemma StaleIdIff(s: Local, record: AssignmentRecord, now: nat)
    requires LocalOk(s) && DistinctLiveIds(s) && IdsAreLive(s)
    ensures IdsAreLive(Register(s, record, now)) <==> record.assignmentId in s.ids || !s.Tracks(record.clientId)
  {
    var t := Register(s, record, now);
    if record.assignmentId !in s.ids {
      if s.Tracks(record.clientId) {
        var former := s.assignments[record.clientId].record.assignmentId;
        assert former in t.ids;
        forall c | c in t.assignments
          ensures t.assignments[c].record.assignmentId != former
        {
        }
      } else {
        forall id | id in t.ids
          ensures exists c | c in t.assignments :: t.assignments[c].record.assignmentId == id
        {
          if id == record.assignmentId {
            assert t.assignments[record.clientId].record.assignmentId == id;
          } else {
            var c :| c in s.assignments && s.assignments[c].record.assignmentId == id;
            assert t.assignments[c].record.assignmentId == id;
          }
        }
      }
    }
  }

  /** Only registering leaves stale ids behind: connecting keeps the ids, and disconnecting forgets just its own. */
  lemma ConnectionsKeepIdsLive(s: Local, client: nat)
    requires LocalOk(s) && DistinctLiveIds(s) && IdsAreLive(s)
    ensures IdsAreLive(Connect(s, client)) && IdsAreLive(Disconnect(s, client))
  {
    forall id | id in s.ids
      ensures id in Disconnect(s, client).ids ==> exists c | c in Disconnect(s, client).assignments ::
                Disconnect(s, client).assignments[c].record.assignmentId == id
      ensures exists c | c in Connect(s, client).assignments ::
                Connect(s, client).assignments[c].record.assignmentId == id
    {
      var c :| c in s.assignments && s.assignments[c].record.assignmentId == id;
      assert Connect(s, client).assignments[c].record.assignmentId == id;
      if c != client {
        assert Disconnect(s, client).assignments[c] == s.assignments[c];
      }
    }
  }

  // Validation.

  datatype PlayerContext = PlayerContext(
    clientId: nat, playerId: string, lobbyId: Option<string>, team: Option<string>,
    rosterMember: Option<RosterMember>, roster: seq<RosterMember>,
    matchMetadata: map<string, string>, assignmentMetadata: map<string, string>)

  function ContextForAssignment(record: AssignmentRecord, client: nat): PlayerContext
  {
    var member := record.RosterMemberForClient(client);
    PlayerContext(
      client,
      if member.Some? then member.value.playerId else record.playerId,
      record.lobbyId,
      if member.Some? && member.value.team.Some? then member.value.team else record.team,
      member, record.roster, record.matchMetadata, record.metadata)
  }

  datatype Validation = Accept(record: AssignmentRecord, context: PlayerContext) | Reject

  function ValidateConnection(s: Local, client: nat): Validation
  {
    if s.Tracks(client) then
      Accept(s.assignments[client].record, ContextForAssignment(s.assignments[client].record, client))
    else Reject
  }

  /** The validator, the connection gate and the report history give the same verdict. */
  lemma ValidatorAgreesWithGate(s: Local, client: nat)
    requires LocalOk(s)
    ensures ValidateConnection(s, client).Accept? <==> client in s.gate
    ensures ValidateConnection(s, client).Accept? <==> Admitted(s.history, client)
    ensures ValidateConnection(s, client).Accept? ==> ValidateConnection(s, client).record.clientId == client
  {
  }

  /** A registered client is accepted with its own record until it disconnects. */
  lemma RegisteredIsAccepted(s: Local, record: AssignmentRecord, now: nat)
    requires record.assignmentId !in s.ids
    ensures var t := Register(s, record, now);
            && ValidateConnection(t, record.clientId) ==
               Accept(record, ContextForAssignment(record, record.clientId))
            && ValidateConnection(Connect(t, record.clientId), record.clientId) ==
               ValidateConnection(t, record.clientId)
            && ValidateConnection(Disconnect(t, record.clientId), record.clientId) == Reject
  {
  }

  /** The roster entry that first names the client decides player and team; everything else is the record's. */
  lemma ContextMeans(record: AssignmentRecord, client: nat, i: nat)
    requires i < |record.roster| && record.roster[i].clientId == Some(client)
    requires forall k | 0 <= k < i :: record.roster[k].clientId != Some(client)
    ensures var entry := record.roster[i];
            ContextForAssignment(record, client) ==
            PlayerContext(client, entry.playerId, record.lobbyId,
                          if entry.team.Some? then entry.team else record.team,
                          Some(entry), record.roster, record.matchMetadata, record.metadata)
  {
    FirstSatisfying(record.roster, (m: RosterMember) => m.clientId == Some(client), i);
  }

  /** Off the roster, the record itself names player and team. */
  lemma ContextOffRoster(record: AssignmentRecord, client: nat)
    requires forall m | m in record.roster :: m.clientId != Some(client)
    ensures ContextForAssignment(record, client) ==
            PlayerContext(client, record.playerId, record.lobbyId, record.team,
                          None, record.roster, record.matchMetadata, record.metadata)
  {
    NoneSatisfying(record.roster, (m: RosterMember) => m.clientId == Some(client));
  }

  // The implementation.

  datatype PeerId = Netcode(client: nat) | OtherPeer

  /** Allow-list shared with the synchronous connection handler. */
  class ConnectionGate {
    var allowed: set<nat>

    constructor ()
      ensures allowed == {}
    {
      allowed := {};
    }

    method AllowClient(client: nat)
      modifies this
      ensures allowed == old(allowed) + {client}
    {
      allowed := allowed + {client};
    }

    method RevokeClient(client: nat)
      modifies this
      ensures allowed == old(allowed) - {client}
    {
      allowed := allowed - {client};
    }

    /** Whether the handler lets the client in. */
    predicate IsClientAllowed(client: nat)
      reads this
    {
      client in allowed
    }
  }

  class ServerState {
    const serverId: string
    const gate: ConnectionGate
    var capacity: ServerCapacity
    var assignmentIds: set<string>
    var assignments: map<nat, Tracked>
    var outbox: seq<Report>
    ghost var history: seq<Report>

    ghost function Model(): Local
      reads this, gate
    {
      Local(serverId, capacity, gate.allowed, assignmentIds, assignments, outbox, history)
    }

    ghost predicate Valid()
      reads this, gate
    {
      LocalOk(Model()) && DistinctLiveIds(Model())
    }

    constructor (serverId: string, capacity: ServerCapacity)
      ensures Valid() && fresh(gate)
      ensures Model() == Fresh(serverId, capacity)
    {
      this.serverId := serverId;
      this.capacity := capacity;
      gate := new ConnectionGate();
      assignmentIds, assignments, outbox, history := {}, map[], [], [];
    }

    method QueueReport(report: Report)
      modifies this`outbox, this`history
      ensures Model() == Queue(old(Model()), report)
    {
      outbox, history := outbox + [report], history + [report];
    }

    method SetServerReady(ready: bool, certDigest: Option<string>)
      requires Valid()
      modifies this
      ensures Valid() && Model() == SetReady(old(Model()), ready, certDigest)
    {
      capacity := capacity.(ready := ready, certDigest := certDigest);
      QueueNeutral(Model(), ReadinessReport(serverId, ready, certDigest));
      QueueReport(ReadinessReport(serverId, ready, certDigest));
    }

    method PublishServerCapacity(newCapacity: ServerCapacity)
      requires Valid()
      modifies this
      ensures Valid() && Model() == PublishCapacity(old(Model()), newCapacity)
    {
      capacity := newCapacity;
      QueueNeutral(Model(), CapacityReport(newCapacity));
      QueueReport(CapacityReport(newCapacity));
    }

    method RegisterAssignment(record: AssignmentRecord, now: nat)
      requires Valid()
      modifies this, gate
      ensures Valid() && Model() == Register(old(Model()), record, now)
    {
      RegisterKeepsOk(Model(), record, now);
      OperationsKeepDistinctIds(Model(), record, 0, now);
      if record.assignmentId in assignmentIds {
        return;
      }
      assignmentIds := assignmentIds + {record.assignmentId};
      gate.AllowClient(record.clientId);
      assignments := assignments[record.clientId := Tracked(record, now, false)];
      QueueReport(PreparedReport(Accepted(record)));
    }

    method ClientConnected(client: nat) returns (known: bool)
      requires Valid()
      modifies this
      ensures Valid() && Model() == Connect(old(Model()), client)
      ensures known == (client in old(gate.allowed))
    {
      ConnectKeepsOk(Model(), client);
      if client !in assignments {
        return false;
      }
      var report := ConnectionReport(ActiveConnection(serverId, client, assignments[client].record.playerId, true));
      assignments := assignments[client := assignments[client].(connected := true)];
      QueueReport(report);
      return true;
    }

    /** Removes a tracked client, revokes the gate and queues an inactive report. */
    method RemoveClient(client: nat) returns (record: AssignmentRecord)
      requires Valid() && client in assignments
      modifies this, gate
      ensures Valid() && Model() == Disconnect(old(Model()), client)
      ensures record == old(assignments[client].record)
    {
      DisconnectKeepsOk(Model(), client);
      OperationsKeepDistinctIds(Model(), assignments[client].record, client, 0);
      record := assignments[client].record;
      assignments := assignments - {client};
      assignmentIds := assignmentIds - {record.assignmentId};
      gate.RevokeClient(client);
      QueueReport(ConnectionReport(ActiveConnection(serverId, client, record.playerId, false)));
    }

    method ClientDisconnected(client: nat) returns (known: bool)
      requires Valid()
      modifies this, gate
      ensures Valid() && Model() == Disconnect(old(Model()), client)
      ensures known == (client in old(gate.allowed))
    {
      known := client in assignments;
      if known {
        var _ := RemoveClient(client);
      }
    }

    /** First collects the stale clients in order, then removes them one by one. */
    method ExpireUnconnectedAssignments(now: nat, timeout: nat) returns (expired: seq<AssignmentRecord>)
      requires Valid()
      modifies this, gate
      ensures Valid() && Model() == ExpireUnconnected(old(Model()), now, timeout)
      ensures var stale := StaleClients(old(Model()), now, timeout);
              expired == RecordsOf(old(assignments), stale)
    {
      var stale := StaleClientsOf(now, timeout);
      expired := RemoveAll(stale);
    }

    method RemoveAll(stale: seq<nat>) returns (expired: seq<AssignmentRecord>)
      requires Valid() && NoDup(stale)
      requires forall c | c in stale :: c in assignments
      modifies this, gate
      ensures Valid() && Model() == DisconnectAll(old(Model()), stale)
      ensures expired == RecordsOf(old(assignments), stale)
    {
      ghost var before := Model();
      expired := [];
      for i := 0 to |stale|
        invariant Valid() && Model() == DisconnectAll(before, stale[..i])
        invariant expired == RecordsOf(before.assignments, stale)[..i]
      {
        NextStale(before, stale, i);
        var record := RemoveClient(stale[i]);
        expired := expired + [record];
      }
      assert stale[..|stale|] == stale;
    }

    method StaleClientsOf(now: nat, timeout: nat) returns (stale: seq<nat>)
      ensures stale == StaleClients(Model(), now, timeout)
    {
      var order := Ascending(assignments.Keys);
      stale := [];
      for i := 0 to |order|
        invariant stale == Filter(order[..i], IsStaleIn(assignments, now, timeout))
      {
        FilterTake(order, i, IsStaleIn(assignments, now, timeout));
        assert order[i] in order;
        if IsStale(assignments[order[i]], now, timeout) {
          stale := stale + [order[i]];
        }
      }
      assert order[..|order|] == order;
    }

    /** The connection request handler; only Netcode peers carry a client id. */
    method HandleRequest(peer: PeerId) returns (denied: bool)
      requires Valid()
      ensures denied <==> !(peer.Netcode? && Admitted(history, peer.client))
    {
      denied := !peer.Netcode? || !gate.IsClientAllowed(peer.client);
    }

    method DrainAllReports() returns (reports: seq<Report>)
      requires Valid()
      modifies this
      ensures Valid() && Model() == DrainReports(old(Model()))
      ensures reports == old(outbox)
    {
      reports := outbox;
      outbox := [];
    }
  }
}

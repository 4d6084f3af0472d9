/**
 What each whole call on the coordination store does to it when no other writer
 interferes: persisting, deleting, cancelling and publishing.
 */
module StoreCalls {
  import opened Wrappers
  import opened Names
  import opened Records
  import opened Store
  import opened GameServer
  import opened Protocol

  /** One store call on its own; an update reads and then writes. */
  function Alone(kv: Kv, op: Op): Kv
    requires op.UpdateServer? ==> op.draft.None?
  {
    var effect := Exec(kv, op, 0, []);
    if op.UpdateServer? then Exec(effect.kv, effect.more[0], 0, []).kv else effect.kv
  }

  predicate Undrafted(ops: seq<Op>)
  {
    forall op | op in ops :: op.UpdateServer? ==> op.draft.None?
  }

  function AloneEach(kv: Kv, ops: seq<Op>): Kv
    requires Undrafted(ops)
    decreases |ops|
  {
    if ops == [] then kv else AloneEach(Alone(kv, ops[0]), ops[1..])
  }

  /** A call with what it finds to do. */
  function AfterCall(kv: Kv, op: Op): Kv
    requires op.UpdateServer? ==> op.draft.None?
  {
    if op.FollowIndex? || op.ProbePrepared? then AloneEach(kv, Exec(kv, op, 0, []).more) else Alone(kv, op)
  }

  function AfterCalls(kv: Kv, ops: seq<Op>): Kv
    requires Undrafted(ops)
    decreases |ops|
  {
    if ops == [] then kv else AfterCalls(AfterCall(kv, ops[0]), ops[1..])
  }

  lemma FirstCall(kv: Kv, a: Op, rest: seq<Op>)
    requires Undrafted([a]) && Undrafted(rest)
    ensures a in [a] && Undrafted([a] + rest)
    ensures AfterCalls(kv, [a] + rest) == AfterCalls(AfterCall(kv, a), rest)
  {
    assert a in [a] && ([a] + rest)[1..] == rest;
  }

  lemma OneCall(kv: Kv, a: Op)
    requires Undrafted([a])
    ensures a in [a] && AfterCalls(kv, [a]) == AfterCall(kv, a)
  {
    assert a in [a] && [a][1..] == [];
  }

  lemma TwoCalls(kv: Kv, a: Op, b: Op)
    requires Undrafted([a]) && Undrafted([b])
    ensures a in [a] && b in [b]
    ensures Undrafted([a, b]) && AfterCalls(kv, [a, b]) == AfterCall(AfterCall(kv, a), b)
  {
    assert a in [a] && b in [b] && [a, b][1..] == [b];
    OneCall(AfterCall(kv, a), b);
  }

  lemma ThreeCalls(kv: Kv, a: Op, b: Op, c: Op)
    requires Undrafted([a]) && Undrafted([b]) && Undrafted([c])
    ensures a in [a] && b in [b] && c in [c]
    ensures Undrafted([a, b, c]) && AfterCalls(kv, [a, b, c]) == AfterCall(AfterCall(AfterCall(kv, a), b), c)
  {
    assert a in [a] && b in [b] && c in [c] && [a, b, c][1..] == [b, c];
    TwoCalls(AfterCall(kv, a), b, c);
  }

  lemma AloneTwo(kv: Kv, a: Op, b: Op)
    requires Undrafted([a]) && Undrafted([b])
    ensures a in [a] && b in [b]
    ensures Undrafted([a, b]) && AloneEach(kv, [a, b]) == Alone(Alone(kv, a), b)
  {
    assert a in [a] && b in [b] && [a, b][1..] == [b] && [b][1..] == [];
    assert AloneEach(Alone(kv, a), [b]) == AloneEach(Alone(Alone(kv, a), b), []);
  }

  // Single calls.

  /** From one store to another, the records under the server's key are these, and the other keys keep theirs. */
  ghost predicate OnlyUnder(before: Kv, after: Kv, server: string, contents: Assignments)
  {
    forall other: string ::
      after.CellOf(other).Contents() ==
      if KeyServer(other) == KeyServer(server) then contents else before.CellOf(other).Contents()
  }

  ghost predicate SameRecords(before: Kv, after: Kv)
  {
    forall server: string :: after.CellOf(server).Contents() == before.CellOf(server).Contents()
  }

  /** The stores hold the same values, whatever their revisions. */
  ghost predicate SameValues(a: Kv, b: Kv)
  {
    SameRecords(a, b) && a.byClient == b.byClient && a.prepared == b.prepared && a.active == b.active
  }

  lemma UpdateAlone(kv: Kv, server: string, update: Update)
    ensures var after := Alone(kv, UpdateServer(server, update, 0, None));
            && after == kv.(byServer := after.byServer)
            && OnlyUnder(kv, after, server, Apply(update, kv.CellOf(server).Contents()))
  {
    var cell := kv.CellOf(server);
    var read := Exec(kv, UpdateServer(server, update, 0, None), 0, []);
    var op := UpdateServer(server, update, 0, Some(Draft(cell.Revision(), Apply(update, cell.Contents()))));
    assert read == Effect(kv, [op], false);
    assert Accepts(cell, cell.Revision());
    var next := Commit(cell, 0, update, Apply(update, cell.Contents()));
    assert Exec(kv, op, 0, []).kv == kv.(byServer := kv.byServer[KeyServer(server) := next]);
  }

  predicate IndexNames(kv: Kv, client: nat, server: string, id: string)
  {
    var key := KeyClient(client);
    && key in kv.byClient && kv.byClient[key].assignmentId == id
    && KeyServer(kv.byClient[key].serverId) == KeyServer(server)
  }

  /** What following a client's index takes: the record it names, and that record's acknowledgement. */
  lemma FollowMeans(kv: Kv, client: nat)
    ensures var after := AfterCall(kv, FollowIndex(client));
            && after.byClient == kv.byClient && after.active == kv.active
            && if KeyClient(client) in kv.byClient then
                 var index := kv.byClient[KeyClient(client)];
                 && OnlyUnder(kv, after, index.serverId, kv.CellOf(index.serverId).Contents() - {index.assignmentId})
                 && after.prepared == kv.prepared - {KeyAssignment(index.assignmentId)}
               else after == kv
  {
    if KeyClient(client) in kv.byClient {
      var index := kv.byClient[KeyClient(client)];
      var remove, drop := DeleteForServer(index.serverId, index.assignmentId), DropPrepared(index.assignmentId);
      assert Exec(kv, FollowIndex(client), 0, []).more == [remove, drop];
      AloneTwo(kv, remove, drop);
      UpdateAlone(kv, index.serverId, Remove(index.assignmentId));
    }
  }

  // Whole programs.

  /** Persisting stores the record and points its client's index at it. */
  lemma PersistMeans(kv: Kv, a: AssignmentRecord)
    ensures Undrafted(Program(Persist(a)))
    ensures var after := AfterCalls(kv, Program(Persist(a)));
            && OnlyUnder(kv, after, a.serverId, kv.CellOf(a.serverId).Contents()[a.assignmentId := a])
            && after.byClient == kv.byClient[KeyClient(a.clientId) := Index(a.serverId, a.assignmentId)]
            && after.prepared == kv.prepared && after.active == kv.active
  {
    TwoCalls(kv, UpdateServer(a.serverId, Insert(a), 0, None), PutIndex(a.clientId, Index(a.serverId, a.assignmentId)));
    UpdateAlone(kv, a.serverId, Insert(a));
  }

  /** What the first calls of a deletion take: the record, then the client index, then the acknowledgement. */
  ghost predicate Deleted(before: Kv, after: Kv, goal: Goal, record: bool, index: bool, ack: bool)
    requires goal.Delete?
  {
    && (if record && goal.serverId.Some?
        then OnlyUnder(before, after, goal.serverId.value,
                       before.CellOf(goal.serverId.value).Contents() - {goal.assignmentId})
        else SameRecords(before, after))
    && after.byClient == (if index then before.byClient - {KeyClient(goal.client)} else before.byClient)
    && after.prepared == (if ack then before.prepared - {KeyAssignment(goal.assignmentId)} else before.prepared)
    && after.active == before.active
  }

  lemma DeletePartHere(kv: Kv, goal: Goal, calls: nat)
    requires goal.Delete? && goal.serverId.Some? && calls <= 3
    ensures |Program(goal)| == 3 && Undrafted(Program(goal)[..calls])
    ensures Deleted(kv, AfterCalls(kv, Program(goal)[..calls]), goal, calls >= 1, calls >= 2, calls >= 3)
  {
    var remove := DeleteForServer(goal.serverId.value, goal.assignmentId);
    var index, ack := DropIndex(goal.client), DropPrepared(goal.assignmentId);
    assert Program(goal) == [remove, index, ack];
    UpdateAlone(kv, goal.serverId.value, Remove(goal.assignmentId));
    if calls == 1 {
      assert Program(goal)[..1] == [remove];
      OneCall(kv, remove);
    } else if calls == 2 {
      assert Program(goal)[..2] == [remove, index];
      TwoCalls(kv, remove, index);
    } else if calls == 3 {
      assert Program(goal)[..3] == [remove, index, ack];
      ThreeCalls(kv, remove, index, ack);
    }
  }

  lemma DeletePartAnywhere(kv: Kv, goal: Goal, calls: nat)
    requires goal.Delete? && goal.serverId.None? && calls <= 2
    ensures |Program(goal)| == 2 && Undrafted(Program(goal)[..calls])
    ensures Deleted(kv, AfterCalls(kv, Program(goal)[..calls]), goal, false, calls >= 1, calls >= 2)
  {
    var index, ack := DropIndex(goal.client), DropPrepared(goal.assignmentId);
    assert Program(goal) == [index, ack];
    if calls == 1 {
      assert Program(goal)[..1] == [index];
      OneCall(kv, index);
    } else if calls == 2 {
      assert Program(goal)[..2] == [index, ack];
      TwoCalls(kv, index, ack);
    }
  }

  /** Deleting an assignment takes its record, if its server is given, and its client index and acknowledgement. */
  lemma DeleteMeans(kv: Kv, goal: Goal)
    requires goal.Delete?
    ensures Undrafted(Program(goal))
    ensures Deleted(kv, AfterCalls(kv, Program(goal)), goal, true, true, true)
  {
    assert Program(goal)[..|Program(goal)|] == Program(goal);
    var _, _, _ := DeletePart(kv, goal, |Program(goal)|);
  }

  /** Any first part of a deletion takes nothing but what the whole one takes. */
  lemma DeletePart(kv: Kv, goal: Goal, calls: nat) returns (record: bool, index: bool, ack: bool)
    requires goal.Delete? && calls <= |Program(goal)|
    ensures Undrafted(Program(goal)[..calls])
    ensures Deleted(kv, AfterCalls(kv, Program(goal)[..calls]), goal, record, index, ack)
    ensures calls == |Program(goal)| ==> record && index && ack
  {
    if goal.serverId.Some? {
      DeletePartHere(kv, goal, calls);
      record, index, ack := calls >= 1, calls >= 2, calls >= 3;
    } else {
      DeletePartAnywhere(kv, goal, calls);
      record, index, ack := true, calls >= 1, calls >= 2;
    }
  }

  /** Deleting for a client takes what its index names, and the index. */
  lemma DeleteClientMeans(kv: Kv, client: nat)
    ensures Undrafted(Program(DeleteClient(client)))
    ensures var after := AfterCalls(kv, Program(DeleteClient(client)));
            && after.byClient == kv.byClient - {KeyClient(client)} && after.active == kv.active
            && if KeyClient(client) in kv.byClient then
                 var index := kv.byClient[KeyClient(client)];
                 && OnlyUnder(kv, after, index.serverId, kv.CellOf(index.serverId).Contents() - {index.assignmentId})
                 && after.prepared == kv.prepared - {KeyAssignment(index.assignmentId)}
               else SameRecords(kv, after) && after.prepared == kv.prepared
  {
    TwoCalls(kv, FollowIndex(client), DropIndex(client));
    FollowMeans(kv, client);
  }

  lemma DeletePreparedMeans(kv: Kv, id: string)
    ensures Undrafted(Program(DeletePrepared(id)))
    ensures AfterCalls(kv, Program(DeletePrepared(id))) == kv.(prepared := kv.prepared - {KeyAssignment(id)})
  {
    OneCall(kv, DropPrepared(id));
  }

  // Cancelling.

  function ClientKeys(records: seq<AssignmentRecord>): set<string>
  {
    set r | r in records :: KeyClient(r.clientId)
  }

  function AckKeys(records: seq<AssignmentRecord>): set<string>
  {
    set r | r in records :: KeyAssignment(r.assignmentId)
  }

  function Without(kv: Kv, clients: set<string>, acks: set<string>): Kv
  {
    kv.(byClient := kv.byClient - clients, prepared := kv.prepared - acks)
  }

  lemma WithoutBoth(kv: Kv, clients: set<string>, acks: set<string>, client: string, ack: string)
    ensures Without(Without(kv, {client}, {ack}), clients, acks) == Without(kv, {client} + clients, {ack} + acks)
    ensures Without(kv, {}, {}) == kv
  {
    assert kv.byClient - {client} - clients == kv.byClient - ({client} + clients);
    assert kv.prepared - {ack} - acks == kv.prepared - ({ack} + acks);
    assert kv.byClient - {} == kv.byClient && kv.prepared - {} == kv.prepared;
  }

  lemma CancelOne(kv: Kv, r: AssignmentRecord)
    ensures AfterCall(AfterCall(kv, DropIndex(r.clientId)), ProbePrepared(r.assignmentId)) ==
            Without(kv, {KeyClient(r.clientId)}, {KeyAssignment(r.assignmentId)})
  {
    ProbeMeans(AfterCall(kv, DropIndex(r.clientId)), r.assignmentId);
  }

  lemma KeysNext(r: AssignmentRecord, rest: seq<AssignmentRecord>)
    ensures ClientKeys([r] + rest) == {KeyClient(r.clientId)} + ClientKeys(rest)
    ensures AckKeys([r] + rest) == {KeyAssignment(r.assignmentId)} + AckKeys(rest)
  {
  }

  lemma {:induction false} CancelEachUndrafted(records: seq<AssignmentRecord>)
    ensures Undrafted(CancelEach(records))
  {
    if records != [] {
      CancelEachUndrafted(records[1..]);
    }
  }

  lemma CancelFirst(kv: Kv, r: AssignmentRecord, rest: seq<AssignmentRecord>)
    ensures Undrafted(CancelEach([r] + rest)) && Undrafted(CancelEach(rest))
    ensures AfterCalls(kv, CancelEach([r] + rest)) ==
            AfterCalls(Without(kv, {KeyClient(r.clientId)}, {KeyAssignment(r.assignmentId)}), CancelEach(rest))
  {
    var drop, probe := DropIndex(r.clientId), ProbePrepared(r.assignmentId);
    CancelEachUndrafted([r] + rest);
    CancelEachUndrafted(rest);
    CancelOne(kv, r);
    FirstCall(AfterCall(kv, drop), probe, CancelEach(rest));
    FirstCall(kv, drop, [probe] + CancelEach(rest));
    assert ([r] + rest)[1..] == rest;
    assert CancelEach([r] + rest) == [drop] + ([probe] + CancelEach(rest));
  }

  lemma {:induction false} CancelEachMeans(kv: Kv, records: seq<AssignmentRecord>)
    ensures Undrafted(CancelEach(records))
    ensures AfterCalls(kv, CancelEach(records)) == Without(kv, ClientKeys(records), AckKeys(records))
    decreases |records|
  {
    if records == [] {
      WithoutBoth(kv, {}, {}, "", "");
    } else {
      var r, rest := records[0], records[1..];
      assert records == [r] + rest;
      CancelFirst(kv, r, rest);
      CancelEachMeans(Without(kv, {KeyClient(r.clientId)}, {KeyAssignment(r.assignmentId)}), rest);
      KeysNext(r, rest);
      WithoutBoth(kv, ClientKeys(rest), AckKeys(rest), KeyClient(r.clientId), KeyAssignment(r.assignmentId));
    }
  }

  lemma ProbeMeans(kv: Kv, id: string)
    ensures AfterCall(kv, ProbePrepared(id)) == kv.(prepared := kv.prepared - {KeyAssignment(id)})
  {
    if KeyAssignment(id) in kv.prepared {
      assert Exec(kv, ProbePrepared(id), 0, []).more == [DropPrepared(id)] && [DropPrepared(id)][1..] == [];
      assert AloneEach(kv, [DropPrepared(id)]) == AloneEach(Alone(kv, DropPrepared(id)), []);
    } else {
      assert kv.prepared - {KeyAssignment(id)} == kv.prepared;
    }
  }

  /** Cancelling a server's assignments leaves none under its key, nor the index or acknowledgement of any it listed. */
  lemma CancelMeans(kv: Kv, server: string, listed: seq<AssignmentRecord>)
    ensures Program(CancelServer(server)) == [ListForCancel(server)]
    ensures var calls := Exec(kv, ListForCancel(server), 0, listed).more;
            && Undrafted(calls)
            && var after := AfterCalls(kv, calls);
               && OnlyUnder(kv, after, server, map[])
               && after.byClient == kv.byClient - ClientKeys(listed)
               && after.prepared == kv.prepared - AckKeys(listed) && after.active == kv.active
  {
    var clear := UpdateServer(server, Clear, 0, None);
    var calls := Exec(kv, ListForCancel(server), 0, listed).more;
    assert calls == [clear] + CancelEach(listed) && calls[1..] == CancelEach(listed);
    UpdateAlone(kv, server, Clear);
    CancelEachMeans(AfterCall(kv, clear), listed);
  }

  // Publishing.

  /**
   Publishing a positive or negative acknowledgement stores it and consumes the
   assignment: its record and its client index are gone, so that no later poll or
   drain finds them. It is stored first, so that a failure loses no acknowledgement.
   */
  lemma AcknowledgementPublished(kv: Kv, ack: AssignmentPrepared)
    ensures Undrafted(ReportProgram(PreparedReport(ack))) && ReportProgram(PreparedReport(ack))[0] == PutPrepared(ack)
    ensures var after := AfterCalls(kv, ReportProgram(PreparedReport(ack)));
            && after.prepared == kv.prepared[KeyAssignment(ack.assignmentId) := ack]
            && OnlyUnder(kv, after, ack.serverId, kv.CellOf(ack.serverId).Contents() - {ack.assignmentId})
            && after.byClient == kv.byClient - {KeyClient(ack.clientId)} && after.active == kv.active
  {
    var put, remove, drop :=
      PutPrepared(ack), DeleteForServer(ack.serverId, ack.assignmentId), DropIndex(ack.clientId);
    ThreeCalls(kv, put, remove, drop);
    UpdateAlone(AfterCall(kv, put), ack.serverId, Remove(ack.assignmentId));
  }

  /** Publishing an active connection stores it under its server and client, and nothing else. */
  lemma ConnectionPublished(kv: Kv, c: ActiveConnection)
    requires c.connected
    ensures Undrafted(ReportProgram(ConnectionReport(c)))
    ensures AfterCalls(kv, ReportProgram(ConnectionReport(c))) ==
            kv.(active := kv.active[KeyConnection(c.serverId, c.clientId) := c])
  {
    OneCall(kv, PutActive(c));
  }

  /** Publishing an inactive one takes the connection, the client's index, and what that names. */
  lemma DisconnectionPublished(kv: Kv, c: ActiveConnection)
    requires !c.connected
    ensures Undrafted(ReportProgram(ConnectionReport(c)))
    ensures var after := AfterCalls(kv, ReportProgram(ConnectionReport(c)));
            && after.active == kv.active - {KeyConnection(c.serverId, c.clientId)}
            && after.byClient == kv.byClient - {KeyClient(c.clientId)}
            && if KeyClient(c.clientId) in kv.byClient then
                 var index := kv.byClient[KeyClient(c.clientId)];
                 && OnlyUnder(kv, after, index.serverId, kv.CellOf(index.serverId).Contents() - {index.assignmentId})
                 && after.prepared == kv.prepared - {KeyAssignment(index.assignmentId)}
               else SameRecords(kv, after) && after.prepared == kv.prepared
  {
    var drop := DropActive(c.serverId, c.clientId);
    DeleteClientMeans(AfterCall(kv, drop), c.clientId);
    FirstCall(kv, drop, DeleteClientOps(c.clientId));
  }
}

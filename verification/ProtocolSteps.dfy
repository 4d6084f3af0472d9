/** What the steps of the state machine do: inside a game server and its bridge, on failures, and as keys age. */
module ProtocolSteps {
  import opened Wrappers
  import opened Names
  import opened Records
  import opened Store
  import opened GameServer
  import opened Protocol
  import opened ProtocolAdmission

  /** Clients of the server connect and leave as they say, and each time it is reported. */
  lemma ClientsComeAndGo(s: string, n: Node, client: nat)
    requires NodeOk(s, n) && n.local.Tracks(client)
    ensures var report := ActiveConnection(s, client, n.local.assignments[client].record.playerId, true);
            var arrived := NodeStep(n, ClientConnects(client)).local;
            && arrived.IsConnected(client) && arrived.gate == n.local.gate
            && arrived.outbox == n.local.outbox + [ConnectionReport(report)]
    ensures var report := ActiveConnection(s, client, n.local.assignments[client].record.playerId, false);
            var gone := NodeStep(n, ClientDisconnects(client)).local;
            && !gone.Tracks(client) && gone.gate == n.local.gate - {client}
            && gone.outbox == n.local.outbox + [ConnectionReport(report)]
  {
  }

  /** Strangers change nothing. */
  lemma StrangersIgnored(n: Node, client: nat)
    requires !n.local.Tracks(client)
    ensures NodeStep(n, ClientConnects(client)) == n && NodeStep(n, ClientDisconnects(client)) == n
  {
  }

  /** A client that was received and did not connect loses its place exactly when its time is up. */
  lemma ReceivedInTime(s: string, n: Node, receivedAt: nat, now: nat, timeout: nat)
    requires NodeOk(s, n) && n.inbox != [] && n.inbox[0].assignmentId !in n.local.ids
    ensures var received := NodeStep(n, Receive(receivedAt));
            && n.inbox[0].clientId in received.local.gate && received.inbox == n.inbox[1..]
            && (n.inbox[0].clientId in NodeStep(received, ExpireClients(now, timeout)).local.gate <==>
                timeout > 0 && now < receivedAt + timeout)
  {
    ReceivedExpires(n.local, n.inbox[0], receivedAt, now, timeout);
  }

  /** A report made goes to the channel, then to the store calls that publish it; none is lost or overtaken. */
  lemma ReportsTravelInOrder(n: Node, ready: bool)
    ensures var reported := NodeStep(n, Announce(ready));
            var flushed := NodeStep(reported, Flush);
            && reported.local.outbox == n.local.outbox + [ReadinessReport(n.local.serverId, ready, None)]
            && reported.local.capacity.ready == ready
            && flushed.channel == n.channel + n.local.outbox + [ReadinessReport(n.local.serverId, ready, None)]
            && flushed.local.outbox == []
            && flushed.channel != []
            && var taken := NodeStep(flushed, Take);
               taken.channel == flushed.channel[1..] && taken.publishing == ReportProgram(flushed.channel[0])
  {
    assert n.channel + (n.local.outbox + [ReadinessReport(n.local.serverId, ready, None)]) ==
           n.channel + n.local.outbox + [ReadinessReport(n.local.serverId, ready, None)];
  }

  // Waiting.

  /** A wait reads again until an acknowledgement names both its server and its client; then it has ended. */
  lemma WaitDecides(kv: Kv, a: AssignmentRecord)
    ensures Program(WaitPrepared(a)) == [AwaitAck(a)]
    ensures var key := KeyAssignment(a.assignmentId);
            Exec(kv, AwaitAck(a), 0, []) ==
            if key in kv.prepared && kv.prepared[key].serverId == a.serverId && kv.prepared[key].clientId == a.clientId
            then Effect(kv, [], !kv.prepared[key].prepared)
            else Effect(kv, [AwaitAck(a)], false)
  {
  }

  // Failures.

  predicate Writing(op: Op)
  {
    op.UpdateServer? && op.draft.Some?
  }

  /** A failed publication is given up with the rest of its calls, unless a refused write may be tried again. */
  lemma FailedPublication(w: World, s: string)
    requires Enabled(w, BridgeFault(s))
    requires Writing(w.nodes[s].publishing[0]) ==> w.nodes[s].publishing[0].attempt >= 15
    ensures Do(w, BridgeFault(s)).nodes[s] == w.nodes[s].(publishing := []) && Do(w, BridgeFault(s)).kv == w.kv
  {
  }

  /** The same for a matchmaker call, which then has failed. */
  lemma FailedCall(w: World, pid: nat)
    requires Enabled(w, ProcFault(pid))
    requires Writing(w.procs[pid].pending[0]) ==> w.procs[pid].pending[0].attempt >= 15
    ensures var next := Do(w, ProcFault(pid));
            next.procs[pid] == Proc(w.procs[pid].goal, [], true) && next.kv == w.kv
  {
  }

  /** An update whose write is refused again and again. */
  function Refused(kv: Kv, op: Op, times: nat): Effect
    requires op.UpdateServer? && op.attempt == 0
  {
    if times == 0 then Effect(kv, [op], false)
    else
      var before := Refused(kv, op, times - 1);
      if before.failed || before.more == [] || !before.more[0].UpdateServer? then before
      else
        var read := Exec(kv, before.more[0].(draft := None), 0, []);
        if read.more == [] then read else Fault(kv, read.more[0])
  }

  /** An update fails at its sixteenth refused write, and no earlier. */
  lemma {:induction false} SixteenAttempts(kv: Kv, op: Op, times: nat)
    requires op.UpdateServer? && op.attempt == 0 && op.draft.None? && times <= 16
    ensures Refused(kv, op, times) ==
            if times < 16 then Effect(kv, [op.(attempt := times)], false) else Effect(kv, [], true)
  {
    if times > 0 {
      SixteenAttempts(kv, op, times - 1);
    }
  }

  // Ageing.

  ghost predicate Emptied(before: Kv, after: Kv, key: string)
  {
    && after == before.(byServer := after.byServer) && after.byServer.Keys == before.byServer.Keys
    && key in after.byServer && after.byServer[key].Contents() == map[]
    && forall other | other in before.byServer && other != key :: after.byServer[other] == before.byServer[other]
  }

  /** What expires or is purged is gone, and nothing else is. */
  lemma AgedIsGone(kv: Kv, aging: Aging)
    requires AgingEnabled(kv, aging)
    ensures var next := AfterAging(kv, aging);
            match aging
            case ExpireServerKey(key) => Emptied(kv, next, key) && next.byServer[key].Revision() == None
            case PurgeServerKey(key) => Emptied(kv, next, key) && next.byServer[key].Revision() != None
            case ExpireIndexKey(key) => next == kv.(byClient := kv.byClient - {key})
            case ExpirePreparedKey(key) => next == kv.(prepared := kv.prepared - {key})
            case ExpireActiveKey(key) => next == kv.(active := kv.active - {key})
  {
  }
}

/**
 Draining a game server: the cleanup the drain queues by itself, next to that of a
 request still waiting on the server.
 */
module Drain {
  import opened Wrappers
  import opened States
  import opened Provider
  import opened Records
  import opened Store
  import opened Protocol
  import opened ProtocolSafety
  import opened Ledger
  import opened Orchestration
  import opened Lifecycle

  function AllocationsOf(records: seq<AssignmentRecord>): set<string>
  {
    set r | r in records :: r.allocationId
  }

  lemma AllocationsNext(records: seq<AssignmentRecord>, i: nat)
    requires i < |records|
    ensures AllocationsOf(records[..i + 1]) == AllocationsOf(records[..i]) + {records[i].allocationId}
  {
    assert records[..i + 1] == records[..i] + [records[i]];
  }

  /** Jobs that release each of these allocations once. */
  ghost predicate ReleasesEach(releases: seq<Work>, allocations: set<string>)
  {
    && NoDup(releases) && |releases| == |allocations|
    && forall work :: work in releases <==> work.ReleaseAllocation? && work.allocationId in allocations
  }

  /** One release for each allocation, however many of the cancelled assignments are on it. */
  method QueueReleases(listed: seq<AssignmentRecord>) returns (releases: seq<Work>)
    ensures ReleasesEach(releases, AllocationsOf(listed))
  {
    releases := [];
    var released: set<string> := {};
    for i := 0 to |listed|
      invariant released == AllocationsOf(listed[..i])
      invariant ReleasesEach(releases, released)
    {
      AllocationsNext(listed, i);
      var id := listed[i].allocationId;
      if id !in released {
        released, releases := released + {id}, releases + [ReleaseAllocation(id)];
      }
    }
    assert listed[..|listed|] == listed;
  }

  /**
   Queues the deletion of every cancelled assignment and one release for each
   allocation they are on; a queue that refuses is only logged.
   */
  method QueueDrainCleanup(server: string, listed: seq<AssignmentRecord>)
    returns (deletions: seq<Work>, releases: seq<Work>)
    ensures |deletions| == |listed|
    ensures forall i | 0 <= i < |listed| ::
              deletions[i] == DeleteAssignment(Some(server), listed[i].assignmentId, listed[i].clientId)
    ensures ReleasesEach(releases, AllocationsOf(listed))
  {
    deletions := [];
    for i := 0 to |listed|
      invariant |deletions| == i && forall k | 0 <= k < i ::
                  deletions[k] == DeleteAssignment(Some(server), listed[k].assignmentId, listed[k].clientId)
    {
      deletions := deletions + [DeleteAssignment(Some(server), listed[i].assignmentId, listed[i].clientId)];
    }
    releases := QueueReleases(listed);
  }

  /** In every run a drain finds exactly the assignments that were committed under the server's key and kept. */
  lemma DrainFindsStored(worlds: seq<World>, steps: seq<Step>, i: nat, server: string, id: string)
    requires IsRun(worlds, steps) && i < |steps| && steps[i].ProcOp?
    requires worlds[i].procs[steps[i].pid].pending[0] == ListForCancel(server)
    ensures (exists r | r in steps[i].listed :: r.assignmentId == id) <==>
            exists k :: InsertedAndKept(worlds[i].kv.CellOf(server).log, id, k)
  {
    StoredIffCommittedAndKept(worlds, steps, i, server, id);
    RunKeyed(worlds, steps, i);
    var contents := worlds[i].kv.CellOf(server).Contents();
    assert Lists(worlds[i].kv, server, steps[i].listed);
    if id in contents {
      assert contents[id] in steps[i].listed;
    }
  }

  /** From the given poll on, every poll for the assignment finds the drain. */
  ghost predicate DrainSeenFrom(outside: Outside, a: nat, poll: nat)
  {
    poll < outside.patience(a) && forall n: nat | poll <= n :: outside.polls(a, n).Draining?
  }

  /** The server's positive acknowledgement was polled before the drain was. */
  ghost predicate AcknowledgedBefore(outside: Outside, a: nat, server: string, poll: nat)
  {
    exists n: nat ::
      n < poll && outside.DecidedBy(a, server, n) && outside.polls(a, n) == Acked(server, outside.clients(a), true)
  }

  lemma DrainDecides(outside: Outside, a: nat, server: string, poll: nat)
    requires DrainSeenFrom(outside, a, poll)
    ensures outside.Acknowledged(a, server) <==> AcknowledgedBefore(outside, a, server, poll)
  {
    if outside.Acknowledged(a, server) {
      var n: nat :| outside.DecidedBy(a, server, n) && outside.polls(a, n) == Acked(server, outside.clients(a), true);
      assert n < poll;
    }
  }

  function GrantsAmong(asks: seq<Ask>, serial: nat): nat
  {
    if asks == [] then 0
    else
      var outcome := asks[|asks| - 1].outcome;
      GrantsAmong(asks[..|asks| - 1], serial) + if outcome.Ok? && outcome.value.serial == serial then 1 else 0
  }

  lemma GrantsAmongAppend(asks: seq<Ask>, ask: Ask, serial: nat)
    ensures GrantsAmong(asks + [ask], serial) ==
            GrantsAmong(asks, serial) + if ask.outcome.Ok? && ask.outcome.value.serial == serial then 1 else 0
  {
    assert (asks + [ask])[..|asks|] == asks;
  }

  /** What was granted shows in the requests a log adds up to. */
  lemma {:induction false} GrantsShow(log: seq<Event>, serial: nat)
    ensures Count(log, Grants(serial)) == GrantsAmong(Tally(log).asks, serial)
  {
    if log != [] {
      var init, e := Tally(log[..|log| - 1]), log[|log| - 1];
      GrantsShow(log[..|log| - 1], serial);
      if e.Requested? {
        GrantsAmongAppend(init.asks, Ask(e.request, e.outcome, init.live), serial);
      }
    }
  }

  /** How often the release of an allocation was queued: by its request, and by the drain. */
  function ReleasesQueued(log: seq<Event>, serial: nat, drained: seq<Work>, allocationId: string): nat
  {
    Count(log, Releases(serial)) + multiset(drained)[ReleaseAllocation(allocationId)]
  }

  lemma DrainReleases(releases: seq<Work>, allocations: set<string>, id: string)
    requires ReleasesEach(releases, allocations)
    ensures multiset(releases)[ReleaseAllocation(id)] == if id in allocations then 1 else 0
  {
    NoDupMultiset(releases);
    assert ReleaseAllocation(id) in releases <==> ReleaseAllocation(id) in multiset(releases);
  }

  /** What waiting for one assignment leaves live, and when it succeeds. */
  lemma WaitLeaves(outside: Outside, b: Sums, s: Sums, party: Party, r: Result<Party, FlowError>)
    requires |party.ids| == 1 && (r == Ok(party) || r == Err(NotPrepared(party)))
    requires Ends(true, b, s, Ok(Allocation(party.serial, party.server)), r)
    requires Explained(outside, Player, true, true, r)
    ensures s.live == if r.Ok? then b.live + {party.serial} else b.live
    ensures r.Ok? <==> outside.Acknowledged(party.ids[0], party.server)
  {
    assert party.ids[0] in party.ids;
  }

  /** A party that waited was released by its request exactly when it was not acknowledged before the drain. */
  lemma WaitReleases(before: seq<Event>, after: seq<Event>, outside: Outside, b: Sums, party: Party,
                     r: Result<Party, FlowError>, poll: nat)
    requires |party.ids| == 1 && (r == Ok(party) || r == Err(NotPrepared(party)))
    requires Ends(true, b, Tally(after), Ok(Allocation(party.serial, party.server)), r)
    requires Explained(outside, Player, true, true, r) && DrainSeenFrom(outside, party.ids[0], poll)
    requires Tally(after).lawful && Tally(after).asks == Tally(before).asks
    requires Count(before, Grants(party.serial)) == 1 && party.serial !in b.live
    ensures Count(after, Releases(party.serial)) ==
            if AcknowledgedBefore(outside, party.ids[0], party.server, poll) then 0 else 1
    ensures r.Ok? <==> AcknowledgedBefore(outside, party.ids[0], party.server, poll)
  {
    WaitLeaves(outside, b, Tally(after), party, r);
    GrantsShow(before, party.serial);
    GrantsShow(after, party.serial);
    ReleasedOnce(after, party.serial);
    DrainDecides(outside, party.ids[0], party.server, poll);
  }

  /** A player's request waiting on a drained server releases its allocation unless it was acknowledged before. */
  method WaitOnDrained(flow: Flow, party: Party, poll: nat, ghost b: Sums) returns (r: Result<Party, FlowError>)
    requires flow.Valid() && flow.coordinated && flow.requirePrepare
    requires |party.ids| == 1 && party.ids[0] < flow.nextAssignment && AllIn(flow.Sum(), party.ids, Preparing)
    requires Keeps(true, b, flow.Sum(), {party.serial}, Ids(party.ids)) && AllTaken(flow.outside, party.ids)
    requires Told(flow.outside, Player, party.ids)
    requires Count(flow.log, Grants(party.serial)) == 1
    requires DrainSeenFrom(flow.outside, party.ids[0], poll)
    modifies flow
    ensures flow.Valid()
    ensures Count(flow.log, Releases(party.serial)) ==
            if AcknowledgedBefore(flow.outside, party.ids[0], party.server, poll) then 0 else 1
    ensures r.Ok? <==> AcknowledgedBefore(flow.outside, party.ids[0], party.server, poll)
  {
    ghost var before := flow.log;
    r := flow.WaitOrCleanUp(party, b);
    WaitReleases(before, flow.log, flow.outside, b, party, r, poll);
  }

  /**
   The drain next to that request: the release of the allocation is queued by the
   drain exactly when it still found an assignment on it stored, and by the request
   exactly when the server's acknowledgement had not been polled before the drain; so
   it is queued twice exactly when both hold. When only the first does, the allocation
   is released although the request goes on with it.
   */
  method DrainNextToWait(flow: Flow, party: Party, listed: seq<AssignmentRecord>, allocationId: string, poll: nat,
                         ghost b: Sums)
    returns (r: Result<Party, FlowError>, deletions: seq<Work>, releases: seq<Work>)
    requires flow.Valid() && flow.coordinated && flow.requirePrepare
    requires |party.ids| == 1 && party.ids[0] < flow.nextAssignment && AllIn(flow.Sum(), party.ids, Preparing)
    requires Keeps(true, b, flow.Sum(), {party.serial}, Ids(party.ids)) && AllTaken(flow.outside, party.ids)
    requires Told(flow.outside, Player, party.ids)
    requires Count(flow.log, Grants(party.serial)) == 1
    requires DrainSeenFrom(flow.outside, party.ids[0], poll)
    modifies flow
    ensures flow.Valid()
    ensures var found, acknowledged :=
              allocationId in AllocationsOf(listed), AcknowledgedBefore(flow.outside, party.ids[0], party.server, poll);
            && ReleasesQueued(flow.log, party.serial, releases, allocationId) ==
               (if found then 1 else 0) + (if acknowledged then 0 else 1)
            && (r.Ok? <==> acknowledged)
  {
    deletions, releases := QueueDrainCleanup(party.server, listed);
    r := WaitOnDrained(flow, party, poll, b);
    DrainReleases(releases, AllocationsOf(listed), allocationId);
  }
}

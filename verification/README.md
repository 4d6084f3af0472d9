# Lightyear matchmaker: verified model

This project models how the matchmaker gives one Lightyear client id a place on a
game server, from choosing capacity to the client being admitted and connected,
and proves properties of that hand-over. It is written for Dafny 4.11;
`dafny verify dfyconfig.toml` checks all of it.

| file | what it models |
|---|---|
| `Names.dfy`, `Records.dfy`, `Provider.dfy`, `States.dfy`, `Wrappers.dfy` | names and store keys, records and reports, the provider contract, lifecycle states, small shared definitions |
| `Selection.dfy`, `Placement.dfy` | the live-capacity selector, the static provider, lobby latency aggregation |
| `Store.dfy` | one key of the assignment bucket and the compare-and-set loop |
| `GameServer.dfy` | the game server's admission state: functions on a value, and a class that updates in place |
| `Protocol.dfy`, `ProtocolSteps.dfy`, `ProtocolSafety.dfy`, `ProtocolAdmission.dfy`, `ProtocolPersist.dfy`, `ProtocolReplay.dfy`, `ProtocolLimits.dfy` | matchmaker calls, store, game servers and bridges as one state machine with every store call an atomic step, and what holds in all its runs |
| `Ledger.dfy`, `Orchestration.dfy`, `Monitoring.dfy`, `FixedFleet.dfy` | preparation retries, cleanup and connection monitoring for players and lobbies, with a log of every effect |
| `StoreCalls.dfy` | what persisting, deleting, cancelling and publishing do to the store when nobody interferes |
| `Lifecycle.dfy` | the worker that carries out queued releases and deletions, and what the immediate erasure and the queued deletion leave |
| `Drain.dfy` | draining a game server next to a request that waits on it |
| `LobbyRuntime.dfy`, `LobbyContext.dfy` | the in-memory lobbies, and the way from a complete lobby to each client's context on the game server |
| `Edgegap.dfy` | the Edgegap provider's sessions |

How to read the model:

- The protocol (`Protocol.dfy`) interleaves any number of matchmaker calls, game
  servers and bridges. A store call can be answered with an error at any point;
  an error reply to a write means that nothing was written. Expiry and purging of
  keys are steps of their own. They are allowed in the safety results; the
  agreement result excludes the expiry of connections and failed connection
  publications (`ProtocolReplay.Reliable`).
- A log is one request's. That an allocation is released once, or a record deleted
  once, is said of that log; `Drain.dfy` counts a drain's own releases as well.
- `Orchestration.dfy` and `Monitoring.dfy` treat the provider and the queue as
  nondeterministic and log every request with its answer, and every release,
  deletion and state change. Everything else from outside is fixed beforehand by an
  arbitrary `Outside`: the ids drawn, which assignments the store takes, which clients can be told,
  what polls and lookups find, how many polls fit before a deadline, which grants can
  be issued and sent. So the contracts say which answers led to an outcome.
  `Sums` is what a log adds up to. It is *lawful* while only live allocations are
  released, only pending assignments are deleted, and every logged state change is
  a legal step from the state last logged; every method keeps it lawful. The solo
  and the lobby variants differ in what one attempt does and share the loops
  around it.
- A clause `var done := P; done` states `P`; in this form the verifier treats `P`
  as a whole.
- Random request and client ids are arbitrary values, or counters where the
  source relies on them being fresh.

What the proofs brought to light:

- Waiting for preparation guarantees admission on the server the assignment names
  exactly when no other server's id has the same store key
  (`ProtocolLimits.WaitIsSafeIff`). When one does, another server's acknowledgement
  is not the danger the code's comment describes (both ids are compared); but the
  other server picks up the record and acknowledges it under the record's own
  server id (`ProtocolLimits.SharedKeyBreaksAdmission`).
- The two writes of persisting are not atomic. A cancellation between them leaves a
  client index that resolves to nothing although persisting succeeded
  (`ProtocolLimits.IndexCanDangle`). The insert itself is committed once, and
  while the index names the assignment, the lookup comes back empty exactly when
  every insert of the id was discarded again
  (`ProtocolPersist.PersistedMeansFound`).
- The order of the capacity list matters exactly when two different servers tie for
  the least key among those that qualify (`Placement.OrderFreeIff`). The store lists
  one report per server key, so such a list never reaches the selector
  (`Placement.ListedOrderFree`).
- `docs/runtime-model.md` says that a full room is not duplicated elsewhere. The
  selector looks only at eligible hosts: a hosted room is started a second time
  exactly when none of its hosts is eligible and another server has room
  (`Placement.RoomDuplicated`).
- `docs/state-machines.md` lets a connected assignment only become disconnected;
  the code also lets it become deleted (`States.DeletedFromAnywhere`). The model
  follows the code.
- Watching starts over from the request as it was before preparation. Over a fixed
  list, the first replacement goes to a server tried in preparation exactly when
  preparation took more than one attempt, and then it is the first server tried,
  which had failed to prepare (`FixedFleet.ReplacementReturns`).
- Draining a server queues releases by itself. Next to a request waiting on the
  server, an allocation's release is queued twice exactly when the drain still found
  an assignment on it stored and no acknowledgement was polled before the drain; and
  when one was, the allocation is released although the request goes on with it
  (`Drain.DrainNextToWait`).
- Erasing a failed assignment at once takes its record exactly when the client's
  index names it; the deletion queued next takes it in any case
  (`Lifecycle.EraseMeans`, `Lifecycle.ErasedAndDeleted`).
- A grant that cannot be issued or sent after preparation leaves its allocation
  and assignments live with nobody watching them (`Monitoring.Left`), and so does an
  assignment that could not be persisted, together with the lobby members
  persisted before it.
- The worker logs each redelivery as starting from `queued` although the job's
  last logged state is `retrying`, a step its own state machine does not allow
  (`Lifecycle.LoggedChain`). A message whose processing outlasts the stream's
  patience is processed again after it has ended; the counters then count the copy
  as well and still balance (`Lifecycle.CountersBalance`).
- Registering a client again under a new assignment id leaves the old id behind
  (`GameServer.StaleIdIff`), and replacing a connected client's assignment puts
  reports and flags out of step (`GameServer.RegisterKeepsAgreement`).
- A failed poll leaves an Edgegap session behind, and an allocation with an empty
  session id cannot be released (`Edgegap.EdgegapProvider.Allocate`).

## Model

| member | source | states |
|---|---|---|
| `ProtocolAdmission.PreparedMeansAdmittedThere` | crates/lightyear_matchmaker_server/src/lib.rs:1010-1096 | In every run, when a wait for preparation has succeeded and server keys are kept apart, the named server had opened its gate to the client at an earlier moment, and the gate is still open exactly when not every admission was followed by a report that the client is inactive |
| `ProtocolAdmission.PreparedMeansAdmitted` | crates/lightyear_matchmaker_server/src/lib.rs:1034-1062 | The same for arbitrary server ids: some server stored under the same key admitted the client |
| `ProtocolAdmission.NeverReadmitted` | crates/lightyear_matchmaker_bevy_server/src/lib.rs:578-598 | With the bridge's seen-set, a client that was admitted and is no longer allowed on a server stays disallowed there for the rest of the run |
| `ProtocolAdmission.AdmissionOpenedGate` | crates/lightyear_matchmaker_bevy_server/src/lib.rs:830-843 | An admission on a server's record was, at some earlier moment of the run, an open gate |
| `ProtocolAdmission.RunAdmission` | crates/lightyear_matchmaker_nats/src/lib.rs:602-621 | In every run, each stored positive acknowledgement comes from a server under its key that admitted the client, and each server's gate matches its report history |
| `ProtocolLimits.SharedKeyBreaksAdmission` | crates/lightyear_matchmaker_nats/src/names.rs:82-97 | For any two server ids with one key, whatever other servers run, there is a run in which the wait succeeds although the named server never admits the client and has no report that admits it |
| `ProtocolLimits.WaitIsSafeIff` | crates/lightyear_matchmaker_server/src/lib.rs:1010-1096 | In every run from given servers a wait for an assignment succeeds only if its server admitted the client, exactly when no other of these servers has the same store key |
| `ProtocolLimits.IndexCanDangle` | crates/lightyear_matchmaker_nats/src/lib.rs:254-270 | A cancellation between the two writes of persisting leaves a client index that resolves to nothing, although persisting succeeded |
| `ProtocolPersist.PersistedMeansCommitted` | crates/lightyear_matchmaker_nats/src/lib.rs:254-270 | In every run a persist that succeeded has committed its own insert, under the server it names, exactly once |
| `ProtocolPersist.FailedMeansUncommitted` | crates/lightyear_matchmaker_nats/src/lib.rs:254-270 | In every run a persist whose insert failed has committed nothing, at that moment or any later one |
| `ProtocolPersist.PersistedMeansFound` | crates/lightyear_matchmaker_nats/src/lib.rs:311-325 | In every run, after a successful persist and while the client index names the assignment, the lookup is empty exactly when every insert of the id was discarded again, and otherwise yields that id for that client |
| `ProtocolSafety.IndexNeverCrossesInRuns` | crates/lightyear_matchmaker_nats/src/lib.rs:311-325 | Looking up a client through its index never yields another client's record, even when the two reads are any number of steps apart |
| `ProtocolSafety.StoredIffCommittedAndKept` | crates/lightyear_matchmaker_nats/src/lib.rs:631-685 | In every run an assignment is stored exactly when its insert was committed and no later commit, expiry or purge discarded it |
| `ProtocolReplay.StoreAgreesAfterReplay` | crates/lightyear_matchmaker_bevy_server/src/lib.rs:1114-1128 | At every moment of a run in which no connection report is lost and server keys are distinct, for any client, the stored connections of a server with its unpublished reports applied in order say what the server's connection flag says |
| `ProtocolReplay.StoreAgreesWhenQuiet` | crates/lightyear_matchmaker_nats/src/lib.rs:610-619 | In such a run, once nothing is unpublished, a client is stored as connected exactly when the server tracks it as connected |
| `ProtocolReplay.FlagsFollowReports` | crates/lightyear_matchmaker_bevy_server/src/lib.rs:880-961 | In every run, with failures of any kind, a server flags a client as connected exactly when its last connection report about the client says so |
| `Protocol.BridgeQueue.Poll` | crates/lightyear_matchmaker_bevy_server/src/lib.rs:583-598 | One poll remembers every listed client and appends to the inbox what the unseen clients contribute |
| `Protocol.UnseenMeans` | crates/lightyear_matchmaker_bevy_server/src/lib.rs:583-598 | Sent on are exactly the records at the positions where a client not seen before is listed first, in list order |
| `StoreCalls.AcknowledgementPublished` | crates/lightyear_matchmaker_nats/src/lib.rs:606-609 | Publishing an acknowledgement stores it under its key and consumes the assignment: its record and its client index are gone |
| `StoreCalls.ConnectionPublished` | crates/lightyear_matchmaker_nats/src/lib.rs:610-612 | Publishing an active connection stores it under its server and client and changes nothing else |
| `StoreCalls.DisconnectionPublished` | crates/lightyear_matchmaker_nats/src/lib.rs:613-618 | Publishing an inactive one takes the connection, the client's index, and the record and acknowledgement the index names |
| `StoreCalls.PersistMeans` | crates/lightyear_matchmaker_nats/src/lib.rs:254-270 | Persisting stores the record under its server and points its client's index at it |
| `StoreCalls.DeleteMeans` | crates/lightyear_matchmaker_nats/src/lib.rs:277-293 | Deleting takes the record, if its server is given, the client index and the acknowledgement, and nothing else |
| `StoreCalls.DeleteClientMeans` | crates/lightyear_matchmaker_nats/src/lib.rs:296-308 | Deleting for a client takes the index, and the record and acknowledgement it names |
| `StoreCalls.CancelMeans` | crates/lightyear_matchmaker_nats/src/lib.rs:505-530 | Cancelling leaves no record under the server's key, nor the index or acknowledgement of any it listed |
| `ProtocolSteps.ClientsComeAndGo` | crates/lightyear_matchmaker_bevy_server/src/lib.rs:880-921 | In the state machine a tracked client that connects is flagged and reported, and one that leaves loses its gate and is reported |
| `ProtocolSteps.ReceivedInTime` | crates/lightyear_matchmaker_bevy_server/src/lib.rs:923-961 | A received client is allowed at once and, without connecting, exactly until the timeout after its arrival |
| `ProtocolSteps.ReportsTravelInOrder` | crates/lightyear_matchmaker_bevy_server/src/lib.rs:1114-1128 | Reports go from the outbox to the channel to their publication in the order they were made |
| `ProtocolSteps.WaitDecides` | crates/lightyear_matchmaker_server/src/lib.rs:1037-1078 | A read of the acknowledgement ends the wait exactly when it names both the server and the client; then a negative one fails it |
| `ProtocolSteps.FailedPublication` | crates/lightyear_matchmaker_bevy_server/src/lib.rs:583-590 | A failed publication is given up with the rest of its calls |
| `ProtocolSteps.SixteenAttempts` | crates/lightyear_matchmaker_nats/src/lib.rs:631-685 | An update fails at its sixteenth refused write and no earlier |
| `Store.Bucket.UpdateServerAssignments` | crates/lightyear_matchmaker_nats/src/lib.rs:631-685 | Next to any writers: success means one commit, the last change, applied to the value just before it; failure means none, and that a read failed or all 16 attempts were used, the attempts being covered by changes of others and error replies |
| `Store.CommitIsOnLatest` | crates/lightyear_matchmaker_nats/src/lib.rs:652-680 | An accepted draft applies its update to exactly the value it replaces, so the value stays the fold of the committed updates |
| `Store.AcceptsMeans` | crates/lightyear_matchmaker_nats/src/lib.rs:656-668 | A key can be created exactly while it holds no value and updated exactly while its revision is the one read |
| `Store.DraftSurvives` | crates/lightyear_matchmaker_nats/src/lib.rs:637-651 | No change by anybody makes a draft in flight wrong: it is still right or will be refused |
| `Store.PresentIff` | crates/lightyear_matchmaker_nats/src/lib.rs:352-366 | An assignment is present exactly when an insert of it is followed by no remove, clear, expiry or purge |
| `Store.InsertedRecordStays` | crates/lightyear_matchmaker_nats/src/lib.rs:254-270 | Until inserted anew or discarded, the stored record is the one that was inserted |
| `GameServer.RegisterKeepsOk` | crates/lightyear_matchmaker_bevy_server/src/lib.rs:830-843 | Registering keeps the gate equal to the tracked clients and to what the report history says: allowed exactly after a preparation report that no inactive report follows |
| `GameServer.DisconnectKeepsOk` | crates/lightyear_matchmaker_bevy_server/src/lib.rs:899-921 | So does disconnecting |
| `GameServer.ConnectKeepsOk` | crates/lightyear_matchmaker_bevy_server/src/lib.rs:880-896 | So does connecting |
| `GameServer.ExpiryMeans` | crates/lightyear_matchmaker_bevy_server/src/lib.rs:923-961 | Expiry takes exactly the stale clients off the gate and no connected client is ever expired |
| `GameServer.ReceivedExpires` | crates/lightyear_matchmaker_bevy_server/src/lib.rs:927-935 | An assignment keeps its client's gate open exactly while less than the timeout has passed since it was received |
| `GameServer.ConnectedStays` | crates/lightyear_matchmaker_bevy_server/src/lib.rs:923-935 | A client that connected keeps its gate, whatever the timeout |
| `GameServer.VisitReported` | crates/lightyear_matchmaker_bevy_server/src/lib.rs:830-921 | Registering, connecting and disconnecting a new client leaves the server as before but for three reports, which name server, assignment, client and player |
| `GameServer.CapacityReported` | crates/lightyear_matchmaker_bevy_server/src/lib.rs:815-828 | Capacity and readiness are kept and reported as published |
| `GameServer.StaleIdIff` | crates/lightyear_matchmaker_bevy_server/src/lib.rs:831-837 | An assignment id outlives its assignment exactly when a tracked client is registered under a new id |
| `GameServer.ConnectionsKeepIdsLive` | crates/lightyear_matchmaker_bevy_server/src/lib.rs:880-921 | Connecting and disconnecting leave no stale assignment ids behind |
| `GameServer.RegisterKeepsAgreement` | crates/lightyear_matchmaker_bevy_server/src/lib.rs:830-843 | Registering keeps connection reports and flags in agreement exactly when it does not replace a connected client's assignment |
| `GameServer.ValidatorAgreesWithGate` | crates/lightyear_matchmaker_bevy_server/src/lib.rs:970-987 | The validator accepts a client exactly when the gate allows it and the report history admits it, and with that client's own record |
| `GameServer.RegisteredIsAccepted` | crates/lightyear_matchmaker_bevy_server/src/lib.rs:970-987 | A registered client is accepted with its own record until it disconnects |
| `GameServer.ContextMeans` | crates/lightyear_matchmaker_bevy_server/src/lib.rs:989-1010 | The roster entry that first names the client gives player and team, falling back to the record's team; the rest of the context is the record's |
| `GameServer.ServerState.HandleRequest` | crates/lightyear_matchmaker_bevy_server/src/lib.rs:383-397 | A connection request is denied exactly when the peer is not a Netcode peer or the report history does not admit its client |
| `GameServer.ServerState.RegisterAssignment` | crates/lightyear_matchmaker_bevy_server/src/lib.rs:830-843 | The in-place update changes map, ids, gate and outbox as the function does, and keeps the invariant |
| `GameServer.ServerState.ClientConnected` | crates/lightyear_matchmaker_bevy_server/src/lib.rs:880-896 | Likewise for a connecting client, saying whether it was known |
| `GameServer.ServerState.ClientDisconnected` | crates/lightyear_matchmaker_bevy_server/src/lib.rs:899-921 | Likewise for a disconnecting client |
| `GameServer.ServerState.ExpireUnconnectedAssignments` | crates/lightyear_matchmaker_bevy_server/src/lib.rs:923-961 | Likewise for expiry, returning the tracked records of exactly the stale clients in ascending client order; who is stale is stated by ReceivedExpires and ConnectedStays |
| `GameServer.ServerState.DrainAllReports` | crates/lightyear_matchmaker_bevy_server/src/lib.rs:964-968 | Hands out the outbox in order and empties it |
| `Orchestration.Flow.AttemptPlayer` | crates/lightyear_matchmaker_server/src/lib.rs:501-558 | One attempt leaves one live allocation and one pending assignment in state prepared, or nothing, or the one allocation whose assignment the store refused; it succeeds only if the client was told and the server acknowledged in time, and each failure has its cause |
| `Orchestration.Flow.NotifyAndWait` | crates/lightyear_matchmaker_server/src/lib.rs:501-558 | A persisted assignment ends prepared and kept, or failed or unprepared and cleaned up; failed exactly when the client could not be told, prepared only when acknowledged in time, unprepared only when not |
| `Orchestration.Flow.AttemptLobby` | crates/lightyear_matchmaker_server/src/lib.rs:647-683 | The same for a lobby, all of whose assignments share the allocation; storing stops at the first the store refuses |
| `Orchestration.Flow.CreateLobbyRecords` | crates/lightyear_matchmaker_server/src/lib.rs:688-765 | Either one fresh assignment per member is stored and preparing, or a proper part of them, exactly when the store refuses the next |
| `Orchestration.Flow.WaitLobbyPrepared` | crates/lightyear_matchmaker_server/src/lib.rs:767-780 | All members are prepared, each acknowledged in time by the party's server, or some is not and the whole party is cleaned up |
| `Orchestration.Flow.QueueCleanup` | crates/lightyear_matchmaker_server/src/lib.rs:1447-1482 | Each assignment of the party is erased and then queued for deletion once, and the allocation they share is queued for release once; a queue that refuses changes nothing else |
| `Lifecycle.EraseMeans` | crates/lightyear_matchmaker_server/src/lib.rs:1544-1581 | The immediate erasure takes the stored record exactly when the client's index names it, and client index and acknowledgement in any case |
| `Lifecycle.ErasedAndDeleted` | crates/lightyear_matchmaker_nats/src/lib.rs:277-308 | After the immediate erasure and the queued deletion no record, client index or acknowledgement of the assignment is left |
| `Orchestration.Flow.WaitPrepared` | crates/lightyear_matchmaker_server/src/lib.rs:1010-1096 | Moves only the awaited assignment: to prepared or rejected as the first deciding poll in time says, to timed out when none decides in time, and not at all when a drain or a store error decides |
| `Orchestration.Flow.PollPrepared` | crates/lightyear_matchmaker_server/src/lib.rs:1037-1078 | The loop stops at the first poll that finds a drain, a store error or an acknowledgement naming this server and this client; acknowledgements for others are passed over |
| `Orchestration.Flow.CreatePreparedWithRetries` | crates/lightyear_matchmaker_server/src/lib.rs:484-562 | Requests form a chain that avoids each server that failed, each retry under a request id drawn for it; every failed attempt gave its allocation back before the next request; at most one allocation is kept, or lost when the store refused an assignment; giving up takes the whole budget; a prepared party has one assignment per member, each stored and acknowledged in time, and a player was told |
| `Monitoring.Watch` | crates/lightyear_matchmaker_server/src/lib.rs:1126-1284 | At most the configured number of replacements, only of servers found unavailable in their round, each requested with everything earlier released and answered by the provider; no server is watched twice; the party watched has one assignment per member; watching settles only if every client is connected or a lookup errs, and gives up only with exactly the unconnected clients timed out |
| `Monitoring.CheckConnections` | crates/lightyear_matchmaker_server/src/lib.rs:1303-1325 | All connected exactly when every lookup says so, failed only when one errs, and otherwise exactly the unconnected members, in order |
| `Monitoring.EndRound` | crates/lightyear_matchmaker_server/src/lib.rs:1143-1282 | A round with missing clients gives the party back and ends watching, unless the server is unavailable and the budget allows a replacement of the same size, which then extends the chain |
| `Monitoring.Replace` | crates/lightyear_matchmaker_server/src/lib.rs:1211-1266 | One request under a new id, answered as the provider answers it; the replacement is fresh, has one assignment per member, avoids what was asked, and is acknowledged and granted, or is cleaned up again because it was not, unless the store refused it, which leaves its allocation and earlier lobby members live |
| `Monitoring.GrantAll` | crates/lightyear_matchmaker_server/src/lib.rs:584-608 | Success means every member's grant was issued, and a player's sent, and moves every prepared member to ready; a failure means some grant could not be issued or sent, and releases nothing |
| `Monitoring.Assign` | crates/lightyear_matchmaker_server/src/lib.rs:2210-2282 | Over the whole life of a request, what stays live and pending is exactly what its outcome says, within both retry budgets; the party served has one assignment per member, and every outcome follows from answers of store, clients, issuer and game servers, a player having been told; the first replacement avoids only the server that was granted |
| `Monitoring.EverythingGivenBack` | crates/lightyear_matchmaker_server/src/lib.rs:1600-1638 | Every allocation granted was queued for release exactly once and every assignment stored was erased and queued for deletion exactly once, save what the outcome leaves live |
| `Monitoring.RunsAreLawful` | crates/lightyear_matchmaker_core/src/state.rs:119-154 | Every logged history is one unbroken chain of at most six legal steps from created; nothing is released, erased or deleted twice or unasked |
| `Monitoring.WatchingGoesOn` | crates/lightyear_matchmaker_server/src/lib.rs:1199-1282 | A replacement that avoids all watched servers extends the duplicate-free chain of watched servers |
| `Ledger.LawfulHistory` | crates/lightyear_matchmaker_server/src/lib.rs:105-141 | In a lawful log each assignment's transitions form an unbroken legal chain that ends in its logged state |
| `Ledger.LawfulHistoryIsShort` | crates/lightyear_matchmaker_core/src/state.rs:119-154 | So no assignment is logged in more than six steps and nothing follows a terminal state |
| `Ledger.LawfulMoves` | crates/lightyear_matchmaker_server/src/lib.rs:105-141 | Every logged transition starts from the state the assignment was in and is legal |
| `Ledger.ReleasedOnce` | crates/lightyear_matchmaker_server/src/lib.rs:1600-1638 | No allocation is granted twice, released unasked or released twice; the live ones are those still owed a release |
| `Ledger.DeletedOnce` | crates/lightyear_matchmaker_server/src/lib.rs:1544-1598 | The same for persisted assignments: each is erased and then queued for deletion at most once |
| `Ledger.AvoidingHolds` | crates/lightyear_matchmaker_server/src/lib.rs:99-103 | The grown avoid list holds exactly the original entries and the servers that failed |
| `FixedFleet.RunsOutFirst` | crates/lightyear_matchmaker_provider_static/src/lib.rs:107-170 | Over a fixed list with distinct ids the loop tries a duplicate-free prefix of the eligible servers by rank, players and id, and ends for want of capacity exactly when they are no more than the retries |
| `FixedFleet.GrantedInRankOrder` | crates/lightyear_matchmaker_server/src/lib.rs:484-562 | Attempt j gets the j-th eligible server of that order |
| `FixedFleet.LastAnswer` | crates/lightyear_matchmaker_provider_static/src/lib.rs:107-133 | The last request is granted exactly while the order holds another server |
| `FixedFleet.ReplacementReturns` | crates/lightyear_matchmaker_server/src/lib.rs:2219-2240 | After a successful preparation the first replacement is granted a server tried in preparation exactly when preparation took more than one attempt; it is then the first one tried |
| `FixedFleet.AssignFromList` | crates/lightyear_matchmaker_server/src/lib.rs:2210-2282 | So in every request served from a fixed list that comes to a replacement |
| `Placement.ChooseLiveIsMinimum` | crates/lightyear_matchmaker_nats/src/lib.rs:785-857 | Sorting, filtering and taking the first suitable server is filtering and taking the least, in every room mode |
| `Placement.ChooseLiveMeans` | crates/lightyear_matchmaker_nats/src/lib.rs:785-857 | The choice qualifies and has the least key of all that do, or none qualifies |
| `Placement.ChosenLive` | crates/lightyear_matchmaker_nats/src/lib.rs:785-857 | In the servers' own fields: the choice can serve and has the room or space asked for, no such server is nearer, none as near has fewer players, and none equal in both has a smaller id; without a choice there is no such server |
| `Placement.UnmeasuredLast` | crates/lightyear_matchmaker_nats/src/lib.rs:859-870 | With a measured server that fits, below the largest rank, a server without a measured region is not chosen |
| `Placement.ChosenStatic` | crates/lightyear_matchmaker_provider_static/src/lib.rs:107-133 | The static choice likewise: nearest, then least full, then smallest id among the servers that can serve |
| `Placement.RankedByPreference` | crates/lightyear_matchmaker_provider_static/src/lib.rs:107-170 | The order the retry loop follows lists exactly the servers that can serve, preferred ones first |
| `Placement.StaticAllocation` | crates/lightyear_matchmaker_provider_static/src/lib.rs:107-150 | An allocation describes the chosen server for the game and version asked for; it fails only for an invalid request or when no server can serve |
| `Placement.RankMeans` | crates/lightyear_matchmaker_nats/src/lib.rs:859-870 | The rank of a region is its smallest measured round trip, or the largest 32-bit number |
| `Selection.LexicographicOrder` | crates/lightyear_matchmaker_nats/src/lib.rs:793-799 | The order of ids is lexicographic: a prefix comes first, else the first difference decides |
| `Placement.SelectorsAgree` | crates/lightyear_matchmaker_provider_static/src/lib.rs:107-170 | The live selector and the static provider pick the same server from the same data |
| `Placement.ChooseLivePermutation` | crates/lightyear_matchmaker_nats/src/lib.rs:785-817 | With distinct server ids the order of the capacity list does not matter |
| `Placement.OrderFreeIff` | crates/lightyear_matchmaker_nats/src/lib.rs:785-857 | For any list, room mode and drains, all orders of the list give one answer exactly when no two different servers tie for the least key among those that qualify |
| `Placement.ListCapacity` | crates/lightyear_matchmaker_nats/src/lib.rs:227-250 | Reads one report per key, each stored under the key of its own server id: the listed reports have distinct server ids and are exactly the stored ones of the game and version |
| `Placement.ListedOrderFree` | crates/lightyear_matchmaker_nats/src/lib.rs:785-857 | So the order in which the store lists capacity has no effect |
| `Placement.AvoidDrainDelete` | crates/lightyear_matchmaker_nats/src/lib.rs:785-829 | Avoiding a server, draining it and taking it off the list give the same answer |
| `Placement.RoomDuplicated` | crates/lightyear_matchmaker_nats/src/lib.rs:831-857 | A hosted room is started on another server exactly when no host is eligible and some eligible server has room capacity |
| `Placement.AggregateLatencies` | crates/lightyear_matchmaker_server/src/lib.rs:1804-1824 | One report per region, taken from the input, and the best round trip of every region unchanged |
| `Placement.SameRanksSamePlacement` | crates/lightyear_matchmaker_nats/src/lib.rs:859-870 | Lists with equal best round trips place every request on the same server, live or static |
| `Provider.CodeAndIdRoomsApart` | crates/lightyear_matchmaker_core/src/provider.rs:269-279 | A room code and a room id never select the same room |
| `Provider.RoomKeySpelling` | crates/lightyear_matchmaker_core/src/provider.rs:342-353 | Two codes, or two ids, select the same room exactly when they agree up to case and dropped characters |
| `Provider.ValidTokens` | crates/lightyear_matchmaker_core/src/provider.rs:322-340 | A token is one to 64 letters, digits, spaces, dashes, underscores and dots |
| `States.LegalChainProgress` | crates/lightyear_matchmaker_core/src/state.rs:119-154 | Every legal step makes progress, so a chain has at most six steps and ends with its first terminal state |
| `States.LongestChain` | crates/lightyear_matchmaker_core/src/state.rs:129-154 | The bound of six steps is reached |
| `States.DeletedFromAnywhere` | crates/lightyear_matchmaker_core/src/state.rs:129-154 | A chain may go on to be deleted exactly until it ends; from connected it may only disconnect or be deleted |
| `States.AsDocumented` | crates/lightyear_matchmaker_core/src/state.rs:119-154 | The code allows exactly the documented transitions, staying put, and deleting what is connected; terminal states are those without a way out |
| `States.WorkAsDocumented` | crates/lightyear_matchmaker_core/src/state.rs:195-217 | Cleanup work moves exactly as documented |
| `Lifecycle.Worker.Receive` | crates/lightyear_matchmaker_server/src/lib.rs:1660-1723 | A delivery, also one of a message that has ended, updates its job and the counters so that they stay the totals over all jobs and late copies |
| `Lifecycle.AddedMeans` | crates/lightyear_matchmaker_server/src/lib.rs:1660-1723 | What one delivery counts: unreadable as invalid, else as succeeded and released or deleted by its kind, or failed and dead-lettered when exhausted |
| `Lifecycle.Worker.Run` | crates/lightyear_matchmaker_server/src/lib.rs:1645-1727 | Under any delivery schedule, with copies sent again while a message is processed, every message is received exactly as often as the schedule names it, up to its budget, and every job stays in order |
| `Lifecycle.EveryJobEnds` | crates/lightyear_matchmaker_server/src/lib.rs:1695-1723 | No job exceeds its budget or outlives it, and each ends in exactly one of succeeded, dead-lettered and dropped; dead-lettered means every delivery failed |
| `Lifecycle.CountersBalance` | crates/lightyear_matchmaker_server/src/metrics.rs:92-131 | With late copies counted too, received is invalid plus succeeded plus failed, succeeded is releases plus deletes, and dead-lettered never exceeds failed |
| `Lifecycle.LoggedChain` | crates/lightyear_matchmaker_core/src/state.rs:195-217 | A job's logged states follow the state machine when redelivery is read as retrying to processing; as logged the chain is unbroken exactly up to the first delivery |
| `Lifecycle.DeleteAgain` | crates/lightyear_matchmaker_nats/src/lib.rs:277-293 | A delete job that ran in part, or in full, and runs again leaves the store as one full run does |
| `Drain.QueueDrainCleanup` | crates/lightyear_matchmaker_server/src/lib.rs:1484-1542 | One deletion per cancelled assignment, in order, and one release for each distinct allocation |
| `Drain.DrainFindsStored` | crates/lightyear_matchmaker_nats/src/lib.rs:505-530 | In every run a drain finds exactly the assignments committed under the server's key and not discarded |
| `Drain.DrainNextToWait` | crates/lightyear_matchmaker_server/src/lib.rs:885-930 | A drain queues the release of an allocation exactly when it found an assignment on it, the waiting request exactly when no acknowledgement was polled before the drain; the wait succeeds exactly when one was |
| `LobbyRuntime.Runtime.CreateLobby` | crates/lightyear_matchmaker_server/src/lobby.rs:49-84 | Keeps the lobby invariant; the owner is the only member, with the name and latencies sent; id and code are new exactly while the counters are not saturated |
| `LobbyRuntime.Runtime.JoinLobbyByCode` | crates/lightyear_matchmaker_server/src/lobby.rs:86-127 | Any spelling of a printed code finds that lobby and no other; the joiner enters with the name and latencies sent, in the team with fewer players, and nothing else changes; joining fails only for a text that spells no code or for a full lobby |
| `LobbyRuntime.Runtime.SetReady` | crates/lightyear_matchmaker_server/src/lobby.rs:129-155 | Records for just this member what was said and leaves all else as it was; hands a lobby over exactly when it is complete for the first time; `ready` says the lobby is full and everyone is ready |
| `LobbyRuntime.HandOver` | crates/lightyear_matchmaker_server/src/lobby.rs:150-153 | Each lobby marked as assigning was handed over once, full and with everyone ready |
| `LobbyRuntime.JoinKeepsOk` | crates/lightyear_matchmaker_server/src/lobby.rs:104-124 | Joining keeps members distinct and the ready flag right although it does not recompute it |
| `LobbyRuntime.TeamsBalanced` | crates/lightyear_matchmaker_server/src/lobby.rs:115-116 | The two teams differ by at most one player |
| `LobbyRuntime.NormalizedSpells` | crates/lightyear_matchmaker_server/src/lobby.rs:192-198 | A text normalises to a code exactly when it spells it in some case and punctuation |
| `LobbyRuntime.CodesInvert` | crates/lightyear_matchmaker_server/src/lobby.rs:58-81 | The code index and the lobbies are inverse to each other |
| `LobbyRuntime.NamesDistinct` | crates/lightyear_matchmaker_server/src/lobby.rs:60-61 | Different counters print different lobby ids and different join codes |
| `LobbyRuntime.NamesRead` | crates/lightyear_matchmaker_server/src/lobby.rs:60-61 | Lobby ids read as the counter in decimal, join codes as the counter in at least four hexadecimal digits |
| `LobbyContext.CreateRecords` | crates/lightyear_matchmaker_server/src/lib.rs:688-765 | One record per member in order, each with its member's player, team and client and the shared request, allocation, server and roster |
| `LobbyContext.EveryoneGetsTheirContext` | crates/lightyear_matchmaker_bevy_server/src/lib.rs:989-1010 | With distinct client ids every client gets its own player id, team and member metadata and the lobby's shared fields on the game server, and assignment ids are pairwise distinct |
| `LobbyContext.SharedClientMisleads` | crates/lightyear_matchmaker_core/src/game_server.rs:217-227 | Two members with one client id: the later one does not get its own context |
| `Edgegap.EdgegapProvider.Allocate` | crates/lightyear_matchmaker_provider_edgegap/src/lib.rs:295-308 | Only a valid request creates a session, once; the last poll decides: failed leaves the session behind, not ready deletes it, ready gives the allocation made from that answer or deletes it; a returned allocation is released through the created session exactly when its id is not empty |
| `Edgegap.EdgegapProvider.WaitForReady` | crates/lightyear_matchmaker_provider_edgegap/src/lib.rs:220-245 | Every poll but the last found the session not ready; the last one's answer is the result, or the session was still not ready after the timeout and is deleted; at most the timeout divided by the interval, rounded up, plus one polls |
| `Edgegap.EdgegapProvider.Release` | crates/lightyear_matchmaker_provider_edgegap/src/lib.rs:310-313 | Asks to delete the session the allocation id names and reports the reply, a missing session counting as configured, or refuses an id that names none |
| `Edgegap.SessionIdRoundTrip` | crates/lightyear_matchmaker_provider_edgegap/src/lib.rs:546-567 | Decoding inverts encoding exactly for non-empty session ids, and nothing but an encoding decodes |
| `Edgegap.AllocationFromSession` | crates/lightyear_matchmaker_provider_edgegap/src/lib.rs:320-387 | An avoided deployment is no capacity; an allocation names its session and deployment, and its endpoint is an exposed port of the wanted name |
| `Edgegap.AllocatesExactly` | crates/lightyear_matchmaker_provider_edgegap/src/lib.rs:320-345 | A ready session comes to an allocation exactly when it has a deployment that is not avoided and has an address, and whose serving port is exposed as a 16-bit one |
| `Edgegap.AllocationDescribes` | crates/lightyear_matchmaker_provider_edgegap/src/lib.rs:345-387 | The allocation names session, deployment, address, serving port, game and version, and its metadata say where it came from |
| `Edgegap.FirstNamedIsFirst` | crates/lightyear_matchmaker_provider_edgegap/src/lib.rs:464-501 | The port found is the first whose key or name matches, and none matches when none is found |
| `Edgegap.PercentRoundTrip` | crates/lightyear_matchmaker_provider_edgegap/src/lib.rs:569-581 | An encoded session id decodes to itself and stays one path segment |
| `Edgegap.PercentKeeps` | crates/lightyear_matchmaker_provider_edgegap/src/lib.rs:569-581 | Exactly the unreserved characters stand for themselves; every other byte takes three characters |
| `Names.AssignmentIdInjective` | crates/lightyear_matchmaker_server/src/lib.rs:95-97 | An assignment id determines its request and its client |
| `Names.KeyAssignmentInjective` | crates/lightyear_matchmaker_nats/src/names.rs:40-42 | Sanitised keys of generated assignment ids determine the request number and the client |
| `Names.KeyConnectionDecodes` | crates/lightyear_matchmaker_nats/src/names.rs:45-51 | Connection keys are equal exactly when the server keys and the clients are |
| `Names.SanitizeCollision` | crates/lightyear_matchmaker_nats/src/names.rs:82-97 | Exactly which ids share a key: equally long, and different only where both characters are other than ASCII letters, digits and dashes |
| `Names.KeyClientInjective` | crates/lightyear_matchmaker_nats/src/names.rs:35-37 | A client key determines the client |

## Left out

- WebSockets, Axum routing, HTTP clients, Agones calls, tracing and serialisation.
- Connect tokens and private keys; issuing a grant succeeds or fails nondeterministically.
- The random number generator: request ids are 128-bit numbers or arbitrary strings, client ids unbounded naturals; distinctness is stated where a result needs it.
- NATS internals, and acknowledgements lost after a write was applied: an error reply means no write.
- The readiness, capacity and drain buckets and their time-to-live; what they hold is an input.
- Matchmaker, bridge and game-server restarts: a game server starts once, empty.
- Orchestration.Flow.QueueCleanup: does not interleave the erasure's store calls with other writers; `Lifecycle.EraseMeans` says what they do alone.
- Drain.DrainNextToWait: does not model a lobby's request, or assignments persisted between the drain's listing and its clearing of the key.
- Orchestration.Flow.WaitPrepared: does not model elapsed time; a deadline is the number of polls that fit before it.
- Orchestration.Flow.AskProvider: does not model the Edgegap provider or any other one beyond its contract; any provider is assumed to respect the avoid list.
- The contents of a solo player's assignment record, which is built like a lobby member's.
- Monitoring.Assign: does not interleave several requests; each request has a log of its own.
- The order of the map that holds the lobby members' client ids, which no result depends on.
- GameServer.ServerState: does not model lock poisoning or other code changing the cloned gate.
- Lifecycle.Worker.Receive: does not model failing acknowledgements, counters read while a job is in progress, or what is logged about late copies; counters do not wrap.
- Placement.ListCapacity: does not model a read that fails, which returns no list at all.
- LobbyRuntime.Runtime: does not model sessions and messages to players.
- The relations `LobbyState` and `AllocationState`, which the runtime does not drive.
- CPU load in capacity reports, which no decision uses.
- Edgegap.EdgegapProvider.Allocate: does not model the session request's placement hints or the parsing of addresses, which is a parameter.
- The Gameflow and mock Edgegap providers, the Bevy client plugin, the identity resolver, configuration files, the demo game server.

# A Dafny model of the AppRTC call stack

This project models five parts of the conferencing system and proves what each keeps over every run or for every
input. The results are quantified over all inputs, interleavings and failures; beside each one that says where the code
falls short stands an example, a single run or input.

| files | component |
|---|---|
| `Negotiation.dfy`, `NegotiationInvariants.dfy`, `NegotiationTheorems.dfy`, `NegotiationFates.dfy`, `NegotiationProgress.dfy`, `TwoPartyNegotiation.dfy`, `TwoPartyCompletion.dfy`, `PeerConnectionClient.dfy` | perfect negotiation in the browser (`web/js/peerconnectionclient.js`) |
| `SfuCommands.dfy`, `SfuProjection.dfy`, `SfuShard.dfy`, `SfuAnswers.dfy`, `MediaShard.dfy`, `SfuMetrics.dfy`, `SfuEvents.dfy`, `SfuEventHistory.dfy` | the SFU worker (`src/sfu_server.rs`) |
| `AuthorityCache.dfy`, `AuthorityTheorems.dfy`, `RequestCache.dfy` | idempotent authority requests (`src/grpc_server.rs`) |
| `CallMode.dfy`, `CallModeTheorems.dfy`, `CallHandovers.dfy`, `Call.dfy` | the browser's P2P/SFU mode machine (`web/js/call.js`) |
| `Text.dfy`, `Sdp.dfy`, `SdpPrefer.dfy`, `SdpParams.dfy` | rewriting session descriptions (`web/js/sdputils.js`) |
| `Base64Url.dfy`, `RoomToken.dfy`, `Uuid.dfy` | room tokens (`web/js/roomselection.js`) |

`dafny verify dfyconfig.toml` checks everything.

## How the model is built

A protocol is a state on values, a step function and an invariant; a run is any sequence of enabled steps. Code that
updates fields is written again as a class whose methods have the source's loops and branches, each proved to take the
fields from one value of the state to the next. For the two browser machines `Valid()` says that some run leads to the
object, every handler keeps it, and `Play` plays any run with the methods, so the theorems about runs are about the
objects; `NothingIsOwed` and `KindsAgree` say in terms of fields what that gives. The classes of the worker and of the
authority keep the invariants of their systems in the same way. History that the program does not keep (logs, counts)
is kept beside the state and never read by it.

- **Negotiation.** Every `.then` and `.finally` body is one step; an event says which one runs and how its promise
  settled. `setLocalDescription` and `setRemoteDescription` change the signaling state when they are called, along
  section 3.2 of RFC 8829, and the browser may refuse any description; a refused one rejects its promise.
- **SFU worker.** The media engine is an arbitrary function of the calls it has heard: it may refuse any call and queue
  any events. A join or leave it accepts changes its membership, nothing else does. The order in which hash maps iterate
  is a parameter. Counters are 64 bits wide and wrap; each atomic operation of each shard is one step.
- **Authority requests.** Each region that holds the lock is one step, and so is each look at a watch channel. The
  fingerprint is the sequence of values that are hashed. An owner is assumed to reach its completion block; that is what
  its `Complete` step being always enabled means. The answer is arbitrary, except that an admission the authority grants
  carries the token it was asked to admit.
- **Mode machine.** One event of the page with the promise reactions it triggers is one step, because microtasks run
  before the next task. Clients are created on the synchronous branch. The page may release the retired client at any
  time; doing so inside a callback of a step has the same effect as doing it right after. A client either has all its
  callbacks or has been silenced, which leaves it only error reports.
- **Session descriptions.** The functions work on strings; searches, splits and the two regular expressions are spelled
  out. Parameter objects are lists in insertion order.
- **Room tokens.** `btoa` is RFC 4648 base64 and `atob` the forgiving decode of browsers; random bytes are an input.

## Where the code does less than its comments say

- The publish that a collision displaced is to follow once the collision is resolved. `maybeRenegotiate_` does not ask
  whether the remote offer has been set yet: an offer made while an accepted remote offer waits can be overtaken by it and
  is then discarded, with nothing owed any more. That is the only way to lose the publish without a rejection
  (`OwedPublishIsFollowedUp`, `PreemptedIff`, `PublishCanBeForgotten`).
- An offer is fenced off until `setLocalDescription` is called. Of the offers made before an accepted collision exactly
  the one whose `setLocalDescription` is accepted and pending can still be sent, although it is rolled back
  (`SentAfterCollisionIff`, `RolledBackOfferIsStillSent`).
- `startAsCaller` does not drain the queue, and neither does `startAsCallee` when it is given initial messages of which
  none parses; a remote description that arrived before then waits for the next message that parses
  (`OnlyBlindStartsStrandMessages`, `BlindStartsAreReachable`, `ParsedMessagesFreeThem`).
- `sfuMode` is set on the way into a room but never cleared, so a room that is relayed at admission and direct at
  registration leaves a client of the wrong kind (`JoiningAgreesIff`, `JoiningCanDisagree`).
- A downgrade that starts before the page has released the previous relayed client loses that client: nothing closes it
  any more, not even a hangup (`EveryClientIsAccountedFor`, `ClientsCanBeLost`).
- A media line with fewer than three fields comes out in the wrong order when two payload types are promoted
  (`PreferPartitionsIff`).
- The rtpmap lines of all media sections are searched, so a payload type of another section is added to the media line
  (`PreferPermutesIff`, `ForeignTypesAreAdded`).
- A codec declared on the very first line is taken for undeclared by one of two lookups, so its parameters pile up and
  cannot be removed (`RemoveAfterSetIff`, `SetTwiceIff`).
- The fmtp line of a codec is found by a prefix, so a parameter of payload type 9 is read from and written to the line of
  type 96 if that comes first (`TouchesItsOwnLineIff`, `ParametersCanGoAstray`).
- A drain command is refused before it reaches a shard, although shards would acknowledge it (`RoutingIsByRoom`).

## Model

| member | source | states |
|---|---|---|
| `NegotiationTheorems.OwedPublishIsFollowedUp` | web/js/peerconnectionclient.js:427-511 | in every run, when no offer and no description is in progress and the state is stable, no publish is owed, and every collision with an SFU offer was followed by a later local offer that was sent, unless one of its promises was rejected or it was made while an accepted remote offer waited and was discarded for it |
| `NegotiationTheorems.PreemptedIff` | web/js/peerconnectionclient.js:301-313 | an offer that is current and was made in stable can be taken out of stable before `createOffer` settles, without a collision, if and only if an accepted remote offer waits to be set |
| `NegotiationTheorems.OffersAreDiscardedForAReason` | web/js/peerconnectionclient.js:301-309 | in every run an offer made with no accepted remote offer waiting is discarded only if a promise was rejected or a collision accepted |
| `NegotiationTheorems.PublishCanBeForgotten` | web/js/peerconnectionclient.js:439-511 | a run from a new client in which nothing is rejected, every collision is resolved, and no local offer is ever applied |
| `NegotiationTheorems.OffersAreAppliedFresh` | web/js/peerconnectionclient.js:294-314 | in every run, a local offer is applied only in stable, with the revision of the latest `createOffer`, with no collision accepted since, and at most once per revision |
| `NegotiationTheorems.SupersededOffersStayDead` | web/js/peerconnectionclient.js:301-309 | in every run, an offer whose `createOffer` was pending when a colliding remote offer was accepted is never applied and never sent |
| `NegotiationTheorems.SentAfterCollisionIff` | web/js/peerconnectionclient.js:294-355 | for every client that yields to a collision and every offer made before it, some continuation sends that offer afterwards if and only if its `setLocalDescription` was accepted and is pending |
| `NegotiationTheorems.RolledBackOfferIsStillSent` | web/js/peerconnectionclient.js:336-355 | a run from a new client in which such an offer is rolled back and sent all the same |
| `NegotiationTheorems.MessagesSettleInArrivalOrder` | web/js/peerconnectionclient.js:515-545 | in every run, what arrived is what was settled, then the one message in progress, then the batch, then the queue; without a rejection nothing is skipped, and in SFU mode everything is processed |
| `NegotiationTheorems.LogFollowsArrivalOrder` | web/js/peerconnectionclient.js:384-471 | in every run, descriptions and candidates reach the peer connection in arrival order, each at most once, and an answer is sent only after its offer was applied |
| `NegotiationTheorems.AnswersCarryTheirRequestId` | web/js/peerconnectionclient.js:348-353 | in every run, an answer in SFU mode carries the request id of the very offer it answers, and none in P2P mode |
| `NegotiationFates.SettledMeans` | web/js/peerconnectionclient.js:384-471 | in every run, in either mode, a settled offer was answered if and only if it was processed; a candidate was given to the peer connection if and only if it was processed or rejected there; a processed description was applied |
| `NegotiationFates.SmoothRunsProcessEverything` | web/js/peerconnectionclient.js:462-545 | in every run in which nothing is rejected or refused, every message that leaves its batch is processed, or ignored by a P2P client; every offer that is not ignored is answered and every candidate that is not is added |
| `NegotiationFates.EverythingIsHeard` | web/js/peerconnectionclient.js:127-188 | in every run what has arrived is every description and candidate received or given with the start, in order and nothing else, and `hasRemoteSdp_` is set exactly when a description is among them |
| `NegotiationFates.CandidatesFollowTheirOffer` | web/js/peerconnectionclient.js:404-420 | in every run a candidate that was looked at is passed over if and only if the last description looked at before it was ignored |
| `NegotiationFates.OffersAreYieldedTo` | web/js/peerconnectionclient.js:427-459 | in every run, to an offer that finds a local one in the making or a state other than stable: a P2P caller ignores it and nothing else changes; a P2P callee and every client of an SFU void their own offers and take it up, and the latter owe a publish; any other offer is taken up as it is |
| `NegotiationFates.OffersComeToAnEnd` | web/js/peerconnectionclient.js:294-355 | in every run, with no offer in the making, every offer made was sent or abandoned, and with nothing rejected only those voided by a collision or preempted were abandoned |
| `NegotiationFates.NegotiationNeededMakesAnOfferIff` | web/js/peerconnectionclient.js:492-500 | a request of the browser for negotiation starts an offer under a new revision exactly in a started, stable client of an SFU with no offer in the making, and otherwise changes nothing |
| `NegotiationFates.CurrentOffersGoOut` | web/js/peerconnectionclient.js:301-355 | a created offer that is current in stable is applied at once, moves the state if the browser takes it, and is sent when that promise is fulfilled |
| `NegotiationFates.StartingOffers` | web/js/peerconnectionclient.js:103-125 | the first start as caller, in either mode, makes an offer unless one is in the making, and any later start changes nothing |
| `NegotiationFates.SmoothRunsReturnToStable` | web/js/peerconnectionclient.js:462-470 | in every run in which nothing is rejected, a client of either mode that is between messages holds no unanswered remote offer |
| `NegotiationTheorems.OnlyBlindStartsStrandMessages` | web/js/peerconnectionclient.js:103-155 | messages come to wait with nothing in progress exactly when a client with a remote description already queued is started as caller, or as callee with initial messages of which none parses |
| `NegotiationTheorems.BlindStartsAreReachable` | web/js/peerconnectionclient.js:103-161 | a run from a new client for each of the two |
| `NegotiationTheorems.ParsedMessagesFreeThem` | web/js/peerconnectionclient.js:157-188 | after a message is received messages still wait exactly if they did and it does not parse, in which case nothing changes at all |
| `NegotiationProgress.RunsAreBounded` | web/js/peerconnectionclient.js:294-545 | without starts, arrivals and negotiation-needed events every run is bounded by a measure of the state, however its promises settle |
| `NegotiationProgress.HaltsOnlyAtRest` | web/js/peerconnectionclient.js:294-545 | a client can take no step by itself exactly when no batch is being drained and no offer is in the making |
| `NegotiationInvariants.RunKeepsInv` | web/js/peerconnectionclient.js:294-545 | the invariant behind the theorems (fencing, debt, ledger, order, request ids) holds in every run from any state that has it |
| `TwoPartyNegotiation.TwoPartiesNeverCollide` | web/js/peerconnectionclient.js:103-155 | over FIFO channels every interleaving of a fresh P2P caller and callee, the callee started with any part of what the caller has sent, has at most one offer, from the caller, at most one answer, from the callee, no collision, and applies the answer only in have-local-offer |
| `TwoPartyNegotiation.PlayKeepsSession` | web/js/peerconnectionclient.js:427-511 | the two-party invariant is kept by every sequence of moves of either client or of the channels |
| `TwoPartyCompletion.TwoPartiesComplete` | web/js/peerconnectionclient.js:103-545 | every interleaving of a fresh P2P caller and callee over FIFO channels in which nothing is rejected, both have started, both are at rest and the channels are empty has one offer and one answer, and both are stable |
| `TwoPartyCompletion.PlayCompletes` | web/js/peerconnectionclient.js:103-545 | the invariant behind it: an offer is on its way, waiting, being answered, or answered, and its answer likewise |
| `PeerConnection.PeerConnectionClient.MakeOffer` | web/js/peerconnectionclient.js:294-301 | the fields go from one client value to the next as an offer is started, or nothing changes while one is being made |
| `PeerConnection.PeerConnectionClient.OfferCreated` | web/js/peerconnectionclient.js:301-309 | a created offer is applied if its revision is current and the state stable, and discarded otherwise |
| `PeerConnection.PeerConnectionClient.OfferApplied` | web/js/peerconnectionclient.js:336-355 | an offer whose `setLocalDescription` was fulfilled is sent, a rejected one is not |
| `PeerConnection.PeerConnectionClient.OfferFinally` | web/js/peerconnectionclient.js:310-313 | the offer in progress ends and an owed publish is started if the state is stable |
| `PeerConnection.PeerConnectionClient.MaybeRenegotiate` | web/js/peerconnectionclient.js:502-511 | an owed publish is paid with a new offer exactly when none is being made and the state is stable |
| `PeerConnection.PeerConnectionClient.OnNegotiationNeeded` | web/js/peerconnectionclient.js:492-500 | a started SFU client in stable with no offer in the making starts one, any other does nothing |
| `PeerConnection.PeerConnectionClient.DrainMessageQueue` | web/js/peerconnectionclient.js:515-532 | the whole queue becomes the batch of a started client with a remote description and no batch in progress |
| `PeerConnection.PeerConnectionClient.ReceiveSignalingMessage` | web/js/peerconnectionclient.js:157-188 | descriptions and candidates join the end of the queue, which is then drained if it can be; a message that does not parse changes nothing; a reachable client stays reachable |
| `PeerConnection.PeerConnectionClient.StartAsCaller` | web/js/peerconnectionclient.js:103-125 | the first start makes this client the caller, polite only towards an SFU, and starts an offer |
| `PeerConnection.PeerConnectionClient.StartAsCallee` | web/js/peerconnectionclient.js:127-155 | the first start makes this client the polite callee and takes in the initial messages one by one, parsed or not, or else drains the queue; the client stays reachable |
| `PeerConnection.PeerConnectionClient.ProcessV2Description` | web/js/peerconnectionclient.js:427-459 | a colliding offer is ignored by the impolite side and, on the polite side, voids pending offers, notes the debt to an SFU and rolls back |
| `PeerConnection.PeerConnectionClient.ProcessSignalingMessage` | web/js/peerconnectionclient.js:384-425 | the next message of the batch is a description to process, or a candidate to add unless its offer was ignored |
| `PeerConnection.PeerConnectionClient.ReadySettled` | web/js/peerconnectionclient.js:460-462 | after the rollback the remote description is set, or processing ends with the rejection |
| `PeerConnection.PeerConnectionClient.RemoteSettled` | web/js/peerconnectionclient.js:462-467 | an applied offer is answered in either mode, and an applied answer ends the processing; by `SettledMeans` exactly the processed offers of a run are answered |
| `PeerConnection.PeerConnectionClient.AnswerCreated` | web/js/peerconnectionclient.js:266-272 | a created answer is set as the local description |
| `PeerConnection.PeerConnectionClient.LocalAnswerSettled` | web/js/peerconnectionclient.js:336-355 | an answer that was set is sent with the pending request id, which is then forgotten |
| `PeerConnection.PeerConnectionClient.ProcessFinally` | web/js/peerconnectionclient.js:467-470 | the message is settled, the rest of the batch is skipped if it was rejected, and an owed publish is paid if it can be |
| `PeerConnection.PeerConnectionClient.BatchSettled` | web/js/peerconnectionclient.js:538-544 | the batch ends and what arrived meanwhile becomes the next one |
| `PeerConnection.PeerConnectionClient.CandidateSettled` | web/js/peerconnectionclient.js:404-420 | a candidate is settled, and the rest of the batch is skipped if it was rejected |
| `PeerConnection.PeerConnectionClient.Handle` | web/js/peerconnectionclient.js:103-545 | every event of the model has its method, which takes the object where the step takes the value and keeps it reachable |
| `PeerConnection.PeerConnectionClient.Play` | web/js/peerconnectionclient.js:103-545 | the methods play every run of events, so the theorems about runs are about the object |
| `PeerConnection.PeerConnectionClient.NothingIsOwed` | web/js/peerconnectionclient.js:427-511 | in every valid object, with no offer being made and no batch being drained in stable, `renegotiationPending_` is false |
| `SfuProjection.CommandsKeepAgreement` | src/sfu_server.rs:405-533 | after every sequence of commands, whatever the engine refuses and also halfway through a sync, the engine's members are the keys of the projection |
| `SfuProjection.CommandKeepsOtherRooms` | src/sfu_server.rs:405-593 | a command changes no room but the one it names |
| `SfuProjection.MembershipFollowsTheOutcome` | src/sfu_server.rs:419-515 | a join or leave that succeeds leaves the member under the stamp of the command, or gone; a failed one and any signal changes no stamp; a zero request id or a malformed room is refused untouched |
| `SfuProjection.RepeatedMembershipIsQuiet` | src/sfu_server.rs:419-503 | repeating a join or leave that succeeded succeeds with the same result and without an engine call |
| `SfuProjection.SyncIsExact` | src/sfu_server.rs:535-593 | a successful sync leaves the room with exactly the wanted members at the new epoch, the last duplicate winning, and every other room as it was |
| `SfuProjection.WantedIsLast` | src/sfu_server.rs:547-558 | of several entries for one client in a sync the last one gives its lifecycle |
| `SfuProjection.FailedSyncIsContained` | src/sfu_server.rs:559-588 | a sync that fails halfway stays in its room, loses no wanted member and leaves only stamps that were there or that it lists |
| `SfuProjection.RepeatedSyncIsQuiet` | src/sfu_server.rs:547-593 | repeating a successful sync under any nonzero request id gives the same result, makes no engine call and changes nothing |
| `SfuProjection.CallsAreFenced` | src/sfu_server.rs:504-515 | SDP and ICE reach the engine only for a member projected under the lifecycle and epoch of the command; joins only for absent members, leaves only for present ones |
| `SfuShard.ReplayIsInvisible` | src/sfu_server.rs:355-371 | a command under the request id of one of the last 4096 applied commands returns that result and changes nothing |
| `SfuShard.NewIdsAreApplied` | src/sfu_server.rs:355-371 | a command under any other request id is applied to the worker, answered with the outcome of applying it, and that result is remembered |
| `SfuAnswers.JoinAnswers` | src/sfu_server.rs:419-457 | a new join is answered that the member joined if and only if it is projected under the stamp asked for afterwards, is stale if and only if it was there under another, fails if and only if the engine refused the one call it made, and makes no other call |
| `SfuAnswers.LeaveAnswers` | src/sfu_server.rs:458-503 | a new leave is answered that the member left if and only if it is not projected afterwards; another epoch, another lifecycle and a refusal of the one call are each answered with their own error, and make no other call |
| `SfuAnswers.SignalAnswers` | src/sfu_server.rs:504-515 | a new signal is stale if and only if it is not under the current stamp, and then makes no call; otherwise it makes exactly the one call of its kind, a description under its own request id first, and is acknowledged if and only if it is a bye or the engine accepted that call |
| `SfuAnswers.SyncAnswers` | src/sfu_server.rs:535-593 | a new sync is answered that the room is synchronised if and only if the engine accepted every call it made, and then the room is exactly what was asked for; otherwise the last call is the refused one |
| `SfuAnswers.OtherAnswers` | src/sfu_server.rs:405-418 | a drain is acknowledged, a command without content, room or id refused, and neither does anything |
| `SfuShard.ExecuteKeepsReplayInv` | src/sfu_server.rs:772-785 | the queue lists the ids of the last results, at most 4096, without repetition, and the cache holds exactly those results |
| `SfuShard.DrainStamps` | src/sfu_server.rs:706-769 | every event sent was in the engine's queue, names a projected member and carries its current stamp; the queue is emptied unless the session is gone |
| `SfuShard.DrainSendsAll` | src/sfu_server.rs:706-769 | with the session there, every reportable event of a projected member is sent |
| `SfuShard.DrainIsInOrder` | src/sfu_server.rs:706-769 | with the session there exactly the SDP, ICE and error events of projected members are sent, in the order they were raised and each once; a session that closes after so many gets that many from the first on |
| `SfuShard.IterationsReachTheEngine` | src/sfu_server.rs:349-399 | an iteration hands a packet, a timeout or a command to the engine and then pumps it |
| `SfuShard.IterationIsFenced` | src/sfu_server.rs:349-399 | what an iteration of the media loop sends was raised by that iteration and is stamped with the projection it leaves |
| `SfuShard.EveryLoopIsFenced` | src/sfu_server.rs:349-399 | over every run of the media loop from a new shard, engine and projection agree, the replay cache is in order, and what the next iteration sends it raised itself and stamps with the projection it leaves |
| `SfuShard.EveryIterationReports` | src/sfu_server.rs:349-399 | in every run of the media loop an iteration sends exactly what there is to report of the engine's queue, under the projection it leaves and in order, as far as the session takes it |
| `MediaLoop.MediaShard.SyncRoom` | src/sfu_server.rs:535-593 | the two loops, with their early exits, compute the sync on the engine and the projection in place |
| `MediaLoop.MediaShard.Join` | src/sfu_server.rs:419-457 | a join in place: known under the same stamp, known under another, new, or refused by the engine |
| `MediaLoop.MediaShard.Leave` | src/sfu_server.rs:458-503 | a leave in place: absent, of another epoch, of another lifecycle, gone, or refused by the engine |
| `MediaLoop.MediaShard.Signal` | src/sfu_server.rs:504-515 | a signal in place: stale, malformed, without effect, accepted or rejected by the engine |
| `MediaLoop.MediaShard.Apply` | src/sfu_server.rs:405-533 | every command in place, with its checks in the source's order |
| `MediaLoop.MediaShard.CacheCommand` | src/sfu_server.rs:772-785 | remembering a result and the eviction loop, in place |
| `MediaLoop.MediaShard.Execute` | src/sfu_server.rs:355-371 | the command arm of the media loop, in place; it keeps engine and projection in agreement and the replay cache in order |
| `MediaLoop.MediaShard.DrainEngine` | src/sfu_server.rs:706-769 | the loop over the engine's events, in place, giving up when the session is gone; agreement and replay cache are kept |
| `SfuMetrics.RoutingIsByRoom` | src/sfu_server.rs:251-266 | commands for one room reach one shard, whichever they are; commands without a room, drains among them, reach none |
| `Uuid.FirstByteCountsMost` | src/sfu_server.rs:258-259 | the value that routes a room is the big-endian sum of its bytes: the first byte counts 256 to the power of how many follow it |
| `Uuid.ValuesTellApart` | src/sfu_server.rs:258-259 | two rooms have the same value exactly when they are the same |
| `SfuMetrics.CountersAreConserved` | src/sfu_server.rs:787-808 | in every interleaving of the shards' atomic operations, when each shard is between commands or stopped, the counters are the numbers of projected members and of distinct rooms over the running shards, modulo 2^64, and zero once all have stopped |
| `SfuMetrics.SubtractionsFit` | src/sfu_server.rs:801-808 | in every run no subtraction from a counter goes below zero while the contributions fit in 64 bits |
| `SfuMetrics.NextKeepsInv` | src/sfu_server.rs:787-808 | every atomic operation keeps each counter equal to the sum of the shards' contributions, modulo 2^64, and each shard's rooms routed to it |
| `SfuMetrics.RoomsStayOnOneShard` | src/sfu_server.rs:258-266 | in every run no two shards project members of one room |
| `SfuMetrics.ReplaysLeaveTheSystem` | src/sfu_server.rs:355-371 | in every run of all shards, a command under the id of one of the last 4096 commands its shard applied changes neither that shard nor a counter |
| `SfuMetrics.Metrics.ReplaceContribution` | src/sfu_server.rs:801-808 | a counter that held, modulo 2^64, a sum with the previous contribution in it then holds the sum with the current one instead |
| `SfuMetrics.Metrics.UpdateMetrics` | src/sfu_server.rs:787-799 | the counters go where the two update steps of the shard take the system, the shard ends between commands with its new contributions, and the invariant of the system is kept |
| `SfuMetrics.Metrics.Withdraw` | src/sfu_server.rs:400-402 | the counters go where the two subtractions of a stopping shard take the system, and the invariant is kept |
| `SfuEvents.IdsRepeatOnlyAfterACycle` | src/sfu_server.rs:892-899 | drawn identifiers are never zero, and two draws agree exactly when they are a multiple of 2^64 - 1 apart |
| `SfuEvents.EventsAreConserved` | src/sfu_server.rs:212-229 | over any number of sessions, as long as at most 2^64 - 1 identifiers have been drawn, what entered the table is the disjoint union of what was acknowledged and what is pending, unchanged |
| `SfuEventHistory.OutboxTellsTheSteps` | src/sfu_server.rs:206-229 | in every such run an event is in transit exactly if it was raised and not received, and pending exactly if it was received and not acknowledged since, and it is the very event raised under its identifier, the number of the draw; an acknowledgement removes that event and no other |
| `SfuEventHistory.StreamsTellTheSteps` | src/sfu_server.rs:194-229 | in every such run a session has a stream exactly between its registration and its end or failure, and the stream is the backlog in the order it was listed, then what the session received in order, each event as it was raised |
| `SfuEvents.NoInsertOverwrites` | src/sfu_server.rs:817-832 | in every such run no insertion meets an identifier that was used before |
| `SfuEvents.EverySessionResendsFirst` | src/sfu_server.rs:194-201 | a serving session has sent everything still pending, each event once and unchanged, and began with exactly what was pending at its registration |
| `SfuEvents.StreamsBeginWithTheBacklog` | src/sfu_server.rs:194-201 | however a session goes on after its registration, once it serves its stream begins with exactly the events pending at the registration, as they were in the table then |
| `SfuEvents.Reporter.DrawId` | src/sfu_server.rs:892-899 | the loop draws the next nonzero value of the wrapping counter, skipping zero once |
| `SfuEvents.Reporter.OpenSession` | src/sfu_server.rs:163-176 | a session registers under a fresh identifier; the outbox goes where the connect step takes it and keeps its invariant |
| `SfuEvents.Reporter.Registered` | src/sfu_server.rs:177-194 | the registration response starts the resending of the table as it iterates, and keeps the invariant |
| `SfuEvents.Reporter.ResendPending` | src/sfu_server.rs:194-200 | the loop takes the outbox through all resend steps: every pending event goes on the stream, each once and unchanged, and the invariant is kept |
| `SfuEvents.Reporter.QueueHealth` | src/sfu_server.rs:810-832 | the outbox goes where the health step takes it, whether or not sending succeeds, and keeps its invariant until 2^64 identifiers have been drawn |
| `SfuEvents.Reporter.TakeEvent` | src/sfu_server.rs:212-218 | the outbox goes where the take step takes it, whether or not sending succeeds, under an identifier never used before, and keeps its invariant |
| `SfuEvents.Reporter.EventAck` | src/sfu_server.rs:228-229 | the outbox goes where the acknowledgement takes it and keeps its invariant; an unknown identifier changes nothing at all |
| `SfuEvents.Reporter.EndSession` | src/sfu_server.rs:206-243 | a session that ends or fails leaves the table, and the invariant, as they are |
| `AuthorityCache.FingerprintsIdentifyRequests` | src/grpc_server.rs:243-301 | two operations have one fingerprint exactly when they differ at most in the clock, and for a V2 admission in the minted token |
| `AuthorityCache.InsertEvictsTheOldest` | src/grpc_server.rs:86-97 | inserting a new key keeps the queue a duplicate-free list of exactly the cached keys, at most 4096, and drops exactly the oldest key of a full cache |
| `AuthorityTheorems.ClaimsAreAccountedFor` | src/grpc_server.rs:147-239 | in every interleaving a key was claimed as often as its attempts failed plus its results were evicted, plus one if it is cached, plus one if it is in flight, and it is never both |
| `AuthorityTheorems.AnswersAreOnRecord` | src/grpc_server.rs:147-239 | in every run a caller has returned an answer if and only if the log has that answer for it, under its key and fingerprint |
| `AuthorityTheorems.LookupMeans` | src/grpc_server.rs:147-182 | a look at the tables returns the cached answer for the same fingerprint, refuses another one, waits on the channel of the owner in flight, or claims the key if it is in neither |
| `AuthorityTheorems.CompletionMeans` | src/grpc_server.rs:225-239 | the owner returns what the authority said, and no other caller returns by that |
| `AuthorityTheorems.ReturnsOnlyThere` | src/grpc_server.rs:147-239 | a caller returns exactly by its own completion, or by its own look at a key that is cached or in flight under another fingerprint |
| `AuthorityTheorems.WaitersLookAgain` | src/grpc_server.rs:170-188 | a waiter whose channel is set, before it sleeps or after, looks at the tables again, and sleeps otherwise |
| `AuthorityTheorems.AnswersAgree` | src/grpc_server.rs:147-159 | in every interleaving two callers answered for one key, with no eviction of it between them, have returned with the same answer under the same fingerprint |
| `AuthorityTheorems.AnswersCarryTheOwnersToken` | src/grpc_server.rs:519-536 | in every run every caller that returned an answer, first or replayed, returned the one that some owner of the same key and fingerprint got, and for a V2 admission it carries the token that owner minted |
| `AuthorityTheorems.MismatchIsRefused` | src/grpc_server.rs:147-168 | a caller with another fingerprint under a key that is cached or in flight is refused, nothing is dispatched and nothing else changes |
| `AuthorityTheorems.NoWaiterIsStranded` | src/grpc_server.rs:163-188 | in every run a caller that has not returned can move, or sleeps on the channel of a caller that owns the same request and whose completion, with any outcome, lets it move |
| `AuthorityTheorems.RunsAreBounded` | src/grpc_server.rs:147-239 | once nobody arrives any more, the steps that can still be taken are bounded by a measure of the state, so callers cannot wake and wait for ever |
| `AuthorityTheorems.SomebodyCanMove` | src/grpc_server.rs:183-239 | in every run, as long as one caller has not returned some caller can move |
| `AuthorityTheorems.StepKeepsInv` | src/grpc_server.rs:147-239 | every step of every caller keeps cache, claims, owners, waiters and answers consistent |
| `RequestCaching.RequestCache.Insert` | src/grpc_server.rs:86-97 | the insertion and its eviction loop in place; the loop ends because the queue lists every entry |
| `RequestCaching.RequestCache.Look` | src/grpc_server.rs:147-182 | the first lock-held region in place: replay, refuse, wait or claim; the invariant of the service is kept |
| `RequestCaching.RequestCache.Finish` | src/grpc_server.rs:225-239 | the second lock-held region in place: leave the table, remember a success and set the channel; the invariant of the service is kept |
| `CallModeTheorems.ModesAgree` | web/js/call.js:576-691 | in every run `sfuMode` holds exactly in upgrading and sfu, the current client is open, of that kind and with that handler, a direct client is retained only while upgrading, and whatever else is open is silent |
| `CallModeTheorems.SfuIsOnlyEnteredByIce` | web/js/call.js:651-664 | in every run mode sfu is entered only from upgrading, because the current, relayed client's ICE came up, and the retained direct client is gone then |
| `CallModeTheorems.RetiredClientsAreHarmless` | web/js/call.js:729-742 | in every run an event of any client but the current one changes nothing but that client's ICE state |
| `CallModeTheorems.FramesComeFromLiveClients` | web/js/call.js:725-742 | in every run a signaling message goes out exactly if its client is current or the direct client retained during an upgrade, so a retired relayed client sends none |
| `CallModeTheorems.CurrentClientDecides` | web/js/call.js:651-680 | the current client's ICE coming up leads to sfu or p2p as its kind asks and closes the retained direct client; going down changes nothing |
| `CallModeTheorems.CompletionsAreCurrent` | web/js/call.js:682-716 | a step completes at most the latest downgrade, exactly for ICE of the current client, its own timer or a failed start, and without a listener it releases the retained client |
| `CallModeTheorems.TimersCompleteTheirOwn` | web/js/call.js:682-691 | in every run a timer that fires is that of the latest downgrade, and completes that one if it is under way |
| `CallModeTheorems.DowngradesCompleteOnce` | web/js/call.js:704-716 | in every run each downgrade completes at most once, in the order they were started |
| `CallModeTheorems.DowngradesAreBounded` | web/js/call.js:682-698 | until the user hangs up, a downgrade under way has its own timer armed and no other |
| `CallModeTheorems.EveryClientIsAccountedFor` | web/js/call.js:576-649 | in every run a client is closed, current or in exactly one retained slot, if and only if no downgrade started while it was still in the slot for the retired relayed client |
| `CallModeTheorems.StepLoses` | web/js/call.js:608-627 | a step loses a client exactly when it is such a downgrade, exactly that client, and what is lost stays lost |
| `CallModeTheorems.HangupClosesAll` | web/js/call.js:107-116 | hanging up in a joined room disarms the timer and closes every client that was not lost before, and no lost one |
| `CallModeTheorems.ClientsCanBeLost` | web/js/call.js:608-627 | a run that loses a client |
| `CallHandovers.UpgradeHandsOver` | web/js/call.js:576-599 | in every run an upgrade of a direct call makes a new open relayed client current and keeps the old one beside it, and only a client that cannot be made leaves none current; on a relayed leg nothing changes |
| `CallHandovers.DowngradeHandsOver` | web/js/call.js:608-649 | in every run a downgrade of a relayed call makes a new direct client current, silences and retains the old one and closes a direct client kept from an unfinished upgrade; if the new client cannot be made or started it completes at once, closing the retired one only when there is no page; on a direct leg nothing changes |
| `CallHandovers.PeerLeftReplaces` | web/js/call.js:203-216 | in every run the peer leaving closes the current client and makes a new one of the same leg current; without a current client one is made exactly unless an attempt has failed |
| `CallHandovers.StepCreates` | web/js/call.js:434-483 | which events add a client, that it becomes the current one with the kind and handler of the leg it is for, and when the current slot is emptied |
| `CallHandovers.StepCloses` | web/js/call.js:203-216 | which client an event closes, silences or gives another ICE state, and that nothing else about any client changes |
| `CallHandovers.StepRetains` | web/js/call.js:576-627 | an upgrade fills the slot of the direct client, a downgrade, the relayed client coming up and a hangup empty it; a downgrade fills the other slot, its release, a completion without a page and a hangup empty it; nothing else touches either |
| `CallHandovers.StepLeads` | web/js/call.js:576-716 | where each event leaves the mode and `sfuMode`, and how many downgrades were started |
| `CallHandovers.ClientsLiveUntilClosed` | web/js/call.js:434-483 | in every run there are as many clients as events that made one, and a client is closed if and only if some event closed it |
| `CallHandovers.DirectOutlivesTheUpgradeIff` | web/js/call.js:576-667 | make before break: whatever follows an upgrade, the direct client it handed over is closed if and only if the relayed client came up, the call was downgraded, or the user hung up |
| `CallHandovers.RelayedOutlivesTheDowngradeIff` | web/js/call.js:600-723 | whatever follows a downgrade, the relayed client it retired is closed if and only if, before the next downgrade, the page released it, the downgrade completed without a page, or the user hung up |
| `CallHandovers.FirstClientFits` | web/js/call.js:288-328 | the first client after a join is relayed, in mode upgrading, exactly in a relayed room, and direct in mode p2p otherwise |
| `CallModeTheorems.JoiningAgreesIff` | web/js/call.js:288-328 | joining leaves `sfuMode` in agreement with the mode exactly when the room ends up relayed, or the flag was clear and the join response did not set it |
| `CallModeTheorems.JoiningCanDisagree` | web/js/call.js:295-317 | a room that is relayed at admission and direct at registration leaves a relayed client in mode p2p |
| `CallModeTheorems.JoiningReachesIff` | web/js/call.js:288-328 | a first join leads to a state from which the run theorems hold exactly when the room ends up relayed or was direct at admission |
| `BrowserCall.Call.CreatePcClient` | web/js/call.js:463-483 | a new client of the kind and with the handler that `sfuMode` and the mode ask for |
| `BrowserCall.Call.MaybeCreatePcClient` | web/js/call.js:434-461 | a client is created only if there is none and none was attempted |
| `BrowserCall.Call.StartSfuUpgrade` | web/js/call.js:576-599 | the fields go from one call value to the next in an upgrade, which creates the relayed client, or nothing changes if one is under way or done; a reachable call stays reachable |
| `BrowserCall.Call.StartSfuDowngrade` | web/js/call.js:608-649 | likewise for a downgrade, which completes at once if the direct client cannot be started; a reachable call stays reachable |
| `BrowserCall.Call.OnSfuIceConnectionStateChange` | web/js/call.js:651-667 | the handler of relayed clients, which looks at the current client |
| `BrowserCall.Call.OnDowngradeIceConnectionStateChange` | web/js/call.js:671-680 | the handler of clients created during a downgrade |
| `BrowserCall.Call.OnIceConnectionStateChange` | web/js/call.js:472-480 | an ICE report of a client runs the handler it was given when it was created or retired; a reachable call stays reachable |
| `BrowserCall.Call.SendSignalingMessage` | web/js/call.js:465-465 | a client that was not silenced sends its message |
| `BrowserCall.Call.StartDowngradeTimer` | web/js/call.js:682-698 | the old timer is cleared and a new one armed |
| `BrowserCall.Call.OnDowngradeTimer` | web/js/call.js:684-690 | a timer that fires completes the downgrade under way, if any |
| `BrowserCall.Call.FinishSfuDowngrade` | web/js/call.js:704-716 | only a downgrade under way is completed |
| `BrowserCall.Call.ReleaseRetiredSfuTransport` | web/js/call.js:718-723 | the retained relayed client is closed and its slot emptied |
| `BrowserCall.Call.RetireSfuClientCallbacks` | web/js/call.js:729-742 | the retained relayed client is silenced for ICE and signaling messages alike; only its error reports still reach the page |
| `BrowserCall.Call.CloseRetainedPcClients` | web/js/call.js:744-751 | timer cleared, both retained clients closed |
| `BrowserCall.Call.OnRemoteHangup` | web/js/call.js:203-216 | the current client is closed and a new one created |
| `BrowserCall.Call.HangUp` | web/js/call.js:107-116 | nothing without a room; otherwise all three clients are closed |
| `BrowserCall.Call.ConnectToRoom` | web/js/call.js:265-328 | the mode and `sfuMode` after admission and registration; a new call becomes valid exactly when the two agree |
| `BrowserCall.Call.Handle` | web/js/call.js:549-751 | every event of the model has its method, which takes the object where the step takes the value and keeps it reachable |
| `BrowserCall.Call.Play` | web/js/call.js:549-751 | the methods play every run of events, so the theorems about runs are about the object |
| `BrowserCall.Call.KindsAgree` | web/js/call.js:576-649 | in every valid object `sfuMode` is true exactly in upgrading and sfu, the current client is open and of that kind, and no timer but the latest is armed |
| `SdpPrefer.PreferPartitionsIff` | web/js/sdputils.js:288-327 | the rewritten description differs in the media line only, which keeps its first three fields, then lists the codec's payload types in rtpmap order, then the rest in their old order, if and only if the line has three fields or at most one type is promoted |
| `SdpPrefer.PromotionPartitionsIff` | web/js/sdputils.js:494-508 | moving one type after the other to the front is that partition exactly under the same condition |
| `SdpPrefer.PreferPermutesIff` | web/js/sdputils.js:305-323 | the rewritten media line is a permutation of the old one if and only if every payload type of a matching rtpmap line stands there exactly once behind the first three fields |
| `SdpPrefer.ForeignTypesAreAdded` | web/js/sdputils.js:494-508 | a payload type the line does not list is added to it |
| `SdpPrefer.PayloadsFollowTheLines` | web/js/sdputils.js:305-323 | the promoted types come in the order of the lines, and an rtpmap line adds its own payload type exactly if the codec occurs in it, in any case |
| `SdpPrefer.DedupMembers` | web/js/sdputils.js:305-323 | the promoted types are those of the matching lines, each once, and in line order when they are distinct |
| `SdpPrefer.ShortLinesAreScrambled` | web/js/sdputils.js:494-508 | two types promoted on a line with two fields, and the partition they differ from |
| `SdpPrefer.SetDefaultCodec` | web/js/sdputils.js:494-508 | the loop moves one payload type behind the first three fields and drops its other occurrences |
| `SdpPrefer.PromoteLines` | web/js/sdputils.js:305-323 | the descending loop promotes the type of every matching rtpmap line |
| `SdpPrefer.MaybePreferCodec` | web/js/sdputils.js:288-327 | the whole rewriting, with its early returns |
| `Sdp.FindLineInRange` | web/js/sdputils.js:440-478 | the first matching line in the range, in either direction, and none before it |
| `Sdp.PayloadTypeIff` | web/js/sdputils.js:486-491 | a payload type is read from a line if and only if some place in it is the first where an rtpmap attribute with a name and a clock rate is spelled out, and that one declares this type; none is read exactly if there is no such place |
| `Sdp.RtpmapLineDeclares` | web/js/sdputils.js:486-491 | an rtpmap line gives all the digits of its payload type, whatever stands behind the first digit of its clock rate |
| `SdpParams.ParseWrite` | web/js/sdputils.js:380-422 | parsing a written fmtp line gives back its payload type and parameters |
| `SdpParams.FmtpLineReads` | web/js/sdputils.js:380-403 | an fmtp line spelled out: the payload type, a space, and pairs with equals signs between semicolons |
| `SdpParams.LastPieceWins` | web/js/sdputils.js:393-399 | of several pieces for one name the last one decides, and a piece that is not cut in two by one equals sign is passed over |
| `SdpParams.PutIsInPlace` | web/js/sdputils.js:330-377 | a property that is set again keeps its place, and deleting it takes out that one alone |
| `SdpParams.SetTakesEffect` | web/js/sdputils.js:330-354 | setting a parameter changes one fmtp line or adds one behind the rtpmap line, which reads back under its own payload type with this parameter changed and the others kept; it fails exactly where an rtpmap line has no payload type |
| `SdpParams.RemoveTakesEffect` | web/js/sdputils.js:357-377 | removing a parameter takes it off its line and nothing else, and the line goes with its last parameter |
| `SdpParams.TouchesItsOwnLineIff` | web/js/sdputils.js:425-430 | the line a parameter is read from or written to is the codec's own if and only if there is such a line with none before it for a longer payload type that begins with the same digits |
| `SdpParams.ParametersCanGoAstray` | web/js/sdputils.js:425-430 | lines on which the parameters of payload type 9 are found on the line of type 96 |
| `SdpParams.RemoveAfterSetIff` | web/js/sdputils.js:330-377 | for separator-free names and values, removing after setting is removing from the original, if and only if the codec is not declared on the very first line |
| `SdpParams.SetTwiceIff` | web/js/sdputils.js:330-354 | likewise, setting twice is the last set |
| `SdpParams.FirstLineBreaksTheLaws` | web/js/sdputils.js:481-484 | a description whose first line declares the codec, from which a parameter that was set cannot be removed |
| `SdpParams.ParseFmtpLine` | web/js/sdputils.js:380-403 | the loop over the pairs of an fmtp line |
| `SdpParams.WriteFmtpLine` | web/js/sdputils.js:406-422 | the loop over the parameters, and no line without parameters |
| `SdpParams.SetParam` | web/js/sdputils.js:330-354 | the whole setting, with its early return and its exception |
| `SdpParams.RemoveParam` | web/js/sdputils.js:357-377 | the whole removal, with its early return |
| `Text.JoinSplit` | web/js/sdputils.js:297-326 | joining the pieces of any string gives it back, so unchanged lines stay unchanged |
| `Text.SplitJoin` | web/js/sdputils.js:330-354 | pieces without the separator survive joining and splitting |
| `Text.SameLetter` | web/js/sdputils.js:455-473 | two characters are the same to a search exactly if they are equal or one ASCII letter in its two cases |
| `Base64Url.DecodeEncode` | web/js/roomselection.js:26-45 | decoding inverts encoding for byte strings of every length |
| `Base64Url.SextetsSpellTheBytes` | web/js/roomselection.js:26-32 | for every length, the encoded sextets spell in base 64 the big-endian number of the bytes, filled up with zero bits to a whole sextet |
| `Base64Url.EncodingIsSpelledInTheAlphabet` | web/js/roomselection.js:26-32 | the encoding has a character for each sextet, taken from the 64 characters of section 5 of RFC 4648 in their order, and no padding |
| `Base64Url.SextetsOfBytes` | web/js/roomselection.js:112-114 | decoded characters encode to themselves exactly when the filling bits are zero (section 3.5 of RFC 4648) |
| `RoomToken.CanonicalIff` | web/js/roomselection.js:112-121 | text in the URL alphabet is the encoding of what it decodes to exactly when its filling bits are zero |
| `RoomToken.AcceptsExactlyTheRooms` | web/js/roomselection.js:115-130 | the accepted tokens are exactly the encodings of the 16 bytes of a UUIDv8 (section 5.8 of RFC 9562) |
| `RoomToken.TokensNameOneRoomEach` | web/js/roomselection.js:112-130 | two accepted tokens decode to the same room exactly when they are equal |
| `RoomToken.MintedTokensAreAccepted` | web/js/roomselection.js:104-110 | whatever the random bytes, the minted token is accepted and decodes to the stamped bytes; stamping changes exactly what is not a UUIDv8 |
| `RoomToken.BitsAreArithmetic` | web/js/roomselection.js:107-126 | the masks and tests on bits are the arithmetic the model uses |
| `RoomToken.Base64UrlEncode` | web/js/roomselection.js:26-32 | the loop over the bytes, the replacements and the stripped padding |
| `RoomToken.Base64UrlDecode` | web/js/roomselection.js:34-45 | the padding loop, the forgiving decode with its exception, and the loop that fills the array |
| `RoomToken.GenerateRoomToken` | web/js/roomselection.js:104-110 | version and variant are stamped in place and the token is accepted |
| `RoomToken.CheckRoomToken` | web/js/roomselection.js:115-130 | the whole check, including the exception |

## Left out

- The room authority (rooms, admission, upgrade barrier): it lives in the `signaling` submodule, which is not part of
  this model; its answers and controls are arbitrary inputs.
- Media engine internals, JSON decoding and SDP parsing inside the engine: only what a call may change is modelled.
- gRPC, TLS, WebSocket, HTTP and UDP transport, protobuf encoding, logging and the user interface.
- The V1 branches of negotiation and the certificate branch of client creation: they add no harder property.
- Steps of a negotiation after `close()`, and callbacks of the page that throw.
- A caller of the authority whose future is dropped before its completion block: its entry would stay in flight.
- Memory orderings weaker than one total order of the atomic operations on a counter.
- SfuMetrics.Metrics.UpdateMetrics: takes its two steps without another shard in between; the interleavings are in the step functions.
- SfuMetrics.Metrics.Withdraw: likewise for its two subtractions.
- SfuEvents.Reporter.DrawId: draws without another shard between its fetches; the interleavings are in the step functions.
- BrowserCall.Call.ConnectToRoom: messages and controls that arrive between admission and registration; runs start after registration.
- CallModeTheorems.RetiredClientsAreHarmless: ICE events; signaling messages have their own theorem, and the other callbacks only reach the page.
- Parameter names that are array indices or `__proto__`, which a JavaScript object orders or stores differently.
- Lower-casing of letters outside ASCII in codec and media names.
- The 64-bit hash of a fingerprint: two different operations whose hashes collide.
- The bit rate, FEC and Opus wrappers of `sdputils.js`, and `roomTokenFrom`: calls to what is modelled, easy members.

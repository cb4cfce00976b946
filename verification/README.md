# Multifrost v5: a Dafny model

Multifrost is an RPC hub: a WebSocket router with one task per connection and a shared peer
registry, and client bindings in Rust, Go, Python, JavaScript and PHP. Peers register under an id
as `caller` or `service`; the router forwards binary frames between them unchanged, answers queries
and heartbeats itself, and reports routing errors. The bindings start a router on demand under a
lock file that all five share.

This project models what is hard about that system and proves it for every input, every
interleaving and every reachable state.

| modules | subject |
|---|---|
| `Wire`, `FrameCodec` | the frame layout and its decoders |
| `Registry`, `Router`, `RouterInvariants`, `RouterHistory`, `RouterTheorems`, `RouterAnswers`, `RouterLifetimes`, `RouterRaces` | the router as a concurrent step system |
| `GoTransport`, `GoTransportProofs`, `GoReplyTable` | the Go request/reply transport |
| `PythonTransport`, `RustTransport` | the other two request/reply transports |
| `EndToEnd`, `EndToEndProofs`, `EndToEndTheorems`, `ServiceAnswers`, `EndToEndRun` | callers, router and services composed |
| `LockFile`, `Bootstrap`, `SpawnOnce`, `BootstrapOutcomes`, `BootstrapRaces`, `LockLoops` | starting the router under the lock file |
| `PortableValues`, `JsValues`, `CrossLanguage` | the generic-value checks of Python and JavaScript |
| `EventLog`, `Summaries`, `OrderStatistics`, `LatencyFigures`, `Metrics` | the Rust metrics collector |

How the concurrent parts are modelled: a state is a value, `Step(state, action)` is one atomic step
(one lock-held section, one channel operation, one frame taken or written, one file operation), and
`Exec(run)` is the state after a sequence of actions if all of them were enabled. A lemma about
`Exec(run)` therefore speaks of every interleaving. The registry, the Go, Python and Rust pending
tables, the lock guard and the metrics collector are classes as well, because the source
changes them in place; their methods are proved against the functions the step systems use.
Clocks, liveness of processes, reachability, success of a send and the contents of frames are
inputs of the steps. The MessagePack library is a pair of functions with a round-trip hypothesis on
envelopes; nothing assumes that every envelope fits a 32-bit length, which would contradict it.

Several plausible claims are false of the code. For each there is a concrete run or value, and a
theorem that says when the claim does hold:

- A forwarded call can reach a caller's sink although the target's class was checked
  (`RouterRaces.ClassRuleIsLost`), because the class read and the sender lookup are separate steps; the
  second read alone decides (`RouterTheorems.MisroutedExactly`), so the rule holds where ids keep
  their class (`RouterTheorems.StableIdsKeepClassRules`).
- By the protocol document ("Response Routing") a response names the original caller in `to`, but the
  router checks only that a response comes from a service. A response can reach a service's sink
  (`RouterRaces.ResponseReachesService`), exactly when the record looked up is a service's
  (`RouterTheorems.MisroutedExactly`); the model follows the code.
- The register ack need not be the first frame on a sink (`RouterRaces.ClassRuleIsLost`); it is exactly when
  nothing was forwarded there between the insert and the ack (`RouterLifetimes.AckIsFirstExactly`).
- A looping connection need not be registered any more (`RouterRaces.CleanupEvictsNewHolder`), because
  removal is by id; it is exactly while no step has removed its id (`RouterLifetimes.HoldsExactly`,
  `RouterLifetimes.LoopingHoldsExactly`).
- A Python request without a timeout (the default is 30 seconds) can wait forever if another one used
  its id; for a list of ids nobody ever does exactly when they are distinct
  (`PythonTransport.StrandsNobodyExactly`, with the run in `PythonTransport.OverwrittenIsStranded`).
- A Rust request without a timeout can wait forever (`RustTransport.LateRequestIsStranded`), exactly
  when it inserted its sender after the final drain (`RustTransport.StrandedExactly`).
- The five lock evaluators disagree on a lock whose port does not fit 16 bits, which every binding but
  Rust can write (`LockFile.OddPortDisagrees`), and agree on every other record they can write
  (`LockFile.DecisionsAgreeExactly`).
- Rust's wait for the lock is not bounded by its deadline (`LockLoops.RustReclaimsForever`); past it the
  loop goes on exactly on a failed create and a reclaim verdict (`LockLoops.RustPastDeadlineExactly`).
- An expired lock lets a second router be spawned (`BootstrapRaces.ExpiryAllowsSecondSpawn`), and two
  processes can hold the lock at once even in a calm run (`BootstrapRaces.MutualExclusionIsLost`); in
  calm runs on one port at most one is spawned (`SpawnOnce.AtMostOneSpawn`), and there is one holder until a
  router is reachable (`SpawnOnce.ExclusiveUntilReachable`).
- All ports share one lock file but each process probes its own port, so processes on two ports can make
  two others spawn a router for the same port (`BootstrapRaces.MixedPortsSpawnTwice`); calm runs spawn
  at most one per port exactly when they use one port (`BootstrapRaces.OnePerPortExactly`).
- A Go service can lose a call while it is open (`EndToEndRun.CallLostFromNothing`), because its read loop
  starts before the dispatch closure can see the transport; a finished call is unanswered exactly when
  it was dispatched before that (`ServiceAnswers.AnsweredExactly`).
- With 32-bit words Go panics on a four-byte frame (`FrameCodec.GoPanicsOnNarrowWords`); Go and Rust do so
  exactly where adding 4 to the declared length overflows (`FrameCodec.NarrowGoSplitsExactly`,
  `FrameCodec.NarrowRustSplitsExactly`).
- JavaScript drops a map key `__proto__` that Python accepts (`CrossLanguage.ProtoKeyIsLost`,
  `CrossLanguage.SurvivesExactly`), and its sanitizer is not always idempotent
  (`JsValues.SecondPassCanDiffer`, `JsValues.IdempotentExactly`).

## Model

| member | source | states |
|---|---|---|
| FrameCodec.LengthRoundTrip | router/src/protocol.rs:130-146 | the four length bytes read back as the length, for every length below 2^32 |
| FrameCodec.LengthBytesUnique | router/src/protocol.rs:141-146 | no other four bytes stand for that length |
| FrameCodec.SplitIsLayout | router/src/protocol.rs:136-156 | a byte string splits into an envelope and a body exactly when it is that length, that envelope and that body, one after the other |
| FrameCodec.BindingsSplitAlike | golang/frame.go:56-77 | with 64-bit words Go, Rust, PHP and Python cut every frame at the same place and never panic |
| FrameCodec.JavaScriptSplitsAlike | javascript/src/frame.ts:82-141 | JavaScript differs exactly on a declared length of zero, which it refuses |
| FrameCodec.NarrowGoSplitsExactly | golang/frame.go:61-67 | with 32-bit words, on every frame such a machine can hold, Go panics exactly on declared lengths 0x7FFFFFFC to 0x7FFFFFFF and otherwise agrees |
| FrameCodec.NarrowRustSplitsExactly | router/src/protocol.rs:143-150 | likewise Rust panics exactly on declared lengths from 0xFFFFFFFC, with or without overflow checks |
| FrameCodec.NarrowPhpSplitsAlike | php/src/Frame.php:61-78 | PHP agrees there as well |
| FrameCodec.GoPanicsOnNarrowWords | golang/frame.go:61-67 | four bytes on which Go panics with 32-bit words |
| FrameCodec.EncodedSplits | router/src/protocol.rs:127-156 | an encoded frame splits back into its parts exactly when the envelope length fits 32 bits |
| FrameCodec.WrappedLengthKeepsNoBody | router/src/protocol.rs:127-134 | beyond that the cast length cuts too early, so the body is never the one encoded |
| FrameCodec.RoundTripExact | router/src/protocol.rs:127-169 | decode after encode returns the pair exactly for version 5 and a length that fits |
| FrameCodec.EncodeInjective | router/src/protocol.rs:127-134 | two frames with fitting lengths and equal bytes are the same frame |
| FrameCodec.PythonGuardExact | python/src/multifrost/frame.py:91-96 | Python refuses exactly the lengths the layout cannot carry |
| FrameCodec.PythonEncodesAlike | python/src/multifrost/frame.py:91-96 | where Python does encode, its bytes are the router's |
| FrameCodec.EncodeIntoBuffer | javascript/src/frame.ts:117-128 | writing length, envelope and body into one buffer at their offsets gives the same bytes |
| Registry.PeerRegistry.InsertLivePeer | router/src/registry.rs:43-65 | refuses exactly the live ids and changes nothing then; otherwise adds the one record and disturbs no other id |
| Registry.PeerRegistry.RemoveByPeerId | router/src/registry.rs:91-101 | the id goes whoever holds it, no other id does, and the caller gets the removed peer as disconnected |
| Registry.PeerRegistry.MarkPeerHeartbeat | router/src/registry.rs:115-119 | refreshes one time, leaving who is live and where frames go unchanged |
| RouterInvariants.StepKeeps | router/src/server.rs:31-205 | every step of every task keeps the router's invariant |
| RouterInvariants.RunKeeps | router/src/server.rs:31-205 | it holds in every reachable state, for every decoder |
| RouterTheorems.NoStaleEntry | router/src/server.rs:60-83 | a record's sender registered that exact id and class and has not finished its cleanup; no sink stands under two ids |
| RouterTheorems.FramesAreConserved | router/src/server.rs:37-197 | frames written over all sinks = messages taken − fatal ones − those in hand, after any run |
| RouterTheorems.OneInOneOut | router/src/server.rs:37-197 | each message taken has caused exactly one frame, unless it is the last one and in hand or fatal, and then none |
| RouterTheorems.ForwardedProvenance | router/src/server.rs:398-440 | a forwarded frame is byte for byte one its source took, its `from` is the id that source registered, and its sink was registered under its `to` at the step of the run that looked it up |
| RouterTheorems.MadeFramesAnswerTheirSource | router/src/server.rs:442-515 | a frame the router makes goes back to the connection it answers, with that message's id and a fitting kind |
| RouterTheorems.ClassRules | router/src/server.rs:267-328 | forwarded calls come from callers, responses and errors from services; the holder whose class was read was of the right class |
| RouterTheorems.MisroutedExactly | router/src/server.rs:380-440 | a frame in the log, a response included, is on a sink of a class exactly when the record found at its lookup was of that class, whatever an earlier read found |
| RouterTheorems.StableIdsKeepClassRules | router/src/server.rs:532-552 | where no id is registered under two classes, no forwarded call reaches a caller and no forwarded error a service |
| RouterAnswers.AnswersAreJustified | router/src/server.rs:37-197 | every frame the router made is, at some step of the run, exactly the answer its message had to get in that state: code, acknowledgement or presence, version, addressee, and whether the connection goes on; a forward is refused only for a missing target, a failed send, a call to a caller or an error to a service |
| RouterAnswers.DroppedExactly | router/src/server.rs:37-105 | a connection ends with an error exactly when it took a fatal message or could not write its own answer |
| RouterAnswers.OverExactly | router/src/server.rs:166-205 | a connection is in its cleanup or done exactly when it was dropped, closed, ended, or wrote a last answer |
| RouterAnswers.RegisteredAsAsked | router/src/server.rs:45-83 | a connection is registered under the id and class its first message asked for |
| RouterAnswers.HeartbeatWasChecked | router/src/server.rs:330-355 | a heartbeat is passed on only after it was marked and its target was found registered; else it is echoed |
| RouterAnswers.HeartbeatExactly | router/src/server.rs:330-337 | a record's time changes exactly by a heartbeat of its own id, to the time of that step |
| RouterRaces.ClassRuleIsLost | router/src/server.rs:380-440 | a run in which a forwarded call is the first frame on a caller's sink, before its register ack |
| RouterRaces.CleanupEvictsNewHolder | router/src/server.rs:200-202 | a run in which a looping connection has lost its registration to another's cleanup |
| RouterRaces.ResponseReachesService | router/src/server.rs:288-307 | a run in which a response is forwarded to a service's sink |
| RouterHistory.RunLasts | router/src/server.rs:31-205 | along a run the log only grows, registrations and taken messages stay, and a connection on its way out stays so |
| RouterHistory.WrittenAt | router/src/server.rs:554-565 | every frame of a run's log was written by one step of it, with the log before it as it stood then |
| RouterLifetimes.LosesRecordExactly | router/src/registry.rs:91-101 | a holder loses its record in a step exactly when that step is a cleanup, a disconnect or an eviction under its id |
| RouterLifetimes.HoldsExactly | router/src/server.rs:60-83 | after any run a connection that registered an id holds its record exactly when no step has removed that id since |
| RouterLifetimes.LoopingHoldsExactly | router/src/server.rs:420-440 | a looping connection whose id nobody else registered is still registered exactly when no failed forward evicted it |
| RouterLifetimes.AckIsFirstMade | router/src/server.rs:60-83 | on a registered connection's sink the first frame the router made is its register ack, and every forwarded frame is addressed to its id |
| RouterLifetimes.BeforeTheAck | router/src/server.rs:60-83 | whatever is on the sink before the ack is a forwarded frame addressed to that id |
| RouterLifetimes.AckIsFirstExactly | router/src/server.rs:60-83 | the ack is the first frame on its sink exactly when nothing was forwarded there between the insert and the ack |
| GoTransportProofs.RunKeeps | golang/transport.go:151-182 | every interleaving of requesters, reader and closer keeps the transport's invariant |
| GoTransportProofs.ChannelsAreSafe | golang/transport.go:315-338 | a channel in the map is open and empty, no channel is sent to after its close or closed twice, the reader's send finds room, repeated ids included |
| GoTransportProofs.ReturnsAreSound | golang/transport.go:151-182 | a request never returns a zero frame with a nil error; a returned frame was read from the socket, carries its id, and comes with an error exactly if it is an error frame |
| GoTransportProofs.NoLeak | golang/transport.go:340-344 | on every way out of a request an id of its own is no longer in the map |
| GoTransportProofs.ClosedWakesWaiters | golang/transport.go:173-181 | once closed, a waiting request needs two steps of its own to return an error with its entry gone, one that inserted after the cancellation included |
| GoTransportProofs.SomeoneMoves | golang/transport.go:346-375 | a request that has not returned and does not await a reply of an open transport can move of its own accord, or the holder of the write lock it waits for can, or the close either of them waits for can |
| GoTransportProofs.StuckExactly | golang/transport.go:151-182 | where the transport's own steps end, the requests that have not returned are exactly those awaiting a reply of an open transport |
| GoTransportProofs.InternalRunsAreShort | golang/transport.go:268-392 | every step but new requests, frames and close orders, failures and cancelled contexts included, strictly decreases a rank, so no run of them is longer than that rank |
| GoTransportProofs.ClosedTransportDrains | golang/transport.go:366-392 | after the close, where the transport's own steps can go no further every request has returned, under any context |
| GoTransportProofs.ReplyIsReturned | golang/transport.go:315-338 | a frame for a request with an id of its own that awaits a reply is returned by that request and by no other, with an error exactly if it is an error frame |
| GoTransportProofs.ErrorsAreEarned | golang/transport.go:346-402 | an error returned without a frame is one the request met itself or the one the transport was closed with, and a failed write has closed the transport before the request returns |
| GoTransportProofs.ClosedTurnsBack | golang/transport.go:346-357 | a request that finds the transport closed before its write, outside or under the write lock, turns back with the close error |
| GoTransportProofs.ReaderClosesFor | golang/transport.go:268-313 | a failed read, and a disconnect nobody waits for, make the reader close the transport with that cause |
| GoReplyTable.ReplyTable.Insert | golang/transport.go:151-166 | a repeated id loses its entry, the old channel is left alone |
| GoReplyTable.ReplyTable.Deliver | golang/transport.go:315-338 | a matching entry leaves the map and its channel holds exactly the reply, closed; otherwise nothing changes |
| GoReplyTable.ReplyTable.Remove | golang/transport.go:340-344 | only that entry goes |
| GoReplyTable.ReplyTable.CancelPending | golang/transport.go:377-392 | the loop gives every pending channel the error and closes it, each once, and empties the map |
| PythonTransport.RunKeeps | python/src/multifrost/transport.py:84-182 | every interleaving of coroutines keeps the transport's invariant |
| PythonTransport.ClosedIsAbsorbing | python/src/multifrost/transport.py:84-148 | closed stays closed, through a second start as well, the transport is inactive, and no entry is made from then on |
| PythonTransport.RepliesMatch | python/src/multifrost/transport.py:308-314 | a future resolved with a frame belongs to one request, the frame carries its id, and what a request returned is that frame |
| PythonTransport.ReplyIsReturned | python/src/multifrost/transport.py:257-314 | a response or error frame for a waiting request with an id of its own completes its future, no other, and is what it returns |
| PythonTransport.OtherKindsCompleteNothing | python/src/multifrost/transport.py:280-296 | a frame of another kind completes no future |
| PythonTransport.RaisingEnds | python/src/multifrost/transport.py:126-148 | a failed send and a timeout raise and take the entry out of the map; a cancellation and a failed encoding raise and leave it |
| PythonTransport.StartsExactly | python/src/multifrost/transport.py:88-92 | a start is refused exactly while there is a socket, and gives no life back to a closed transport |
| PythonTransport.ClosingCloses | python/src/multifrost/transport.py:108-165 | a close and a failed registration close at once, and the first has a closer that will sweep |
| PythonTransport.CloserSweeps | python/src/multifrost/transport.py:174-182 | a closer whose receive task has ended fails what is pending, touches no completed future and lets go of the socket |
| PythonTransport.EmptyAfterSweep | python/src/multifrost/transport.py:323-328 | the pending map is empty in every state after the fail step |
| PythonTransport.NobodyIsLeftWaiting | python/src/multifrost/transport.py:117-182 | after it no request with an id of its own waits on an incomplete future, and a waiting one can resume |
| PythonTransport.StrandsNobodyExactly | python/src/multifrost/transport.py:117-148 | for a list of request ids, no run leaves one waiting exactly when the ids are distinct |
| PythonTransport.PendingTable.FailPending | python/src/multifrost/transport.py:323-328 | the loop fails every incomplete pending future, touches no other, and empties the map |
| RustTransport.RunKeeps | rust/src/caller_transport.rs:206-276 | every interleaving of requests and the inbound loop keeps the transport's invariant |
| RustTransport.OneshotsAreUsedOnce | rust/src/caller_transport.rs:206-276 | a oneshot is used at most once, by a frame with its own id or by the drain |
| RustTransport.RequestsGetTheirOwnFrame | rust/src/caller_transport.rs:206-238 | a returned frame carries the request's id, through a oneshot no other request reads |
| RustTransport.OutcomesAreGiven | rust/src/caller_transport.rs:206-238 | what a request returned is what its own sender was used for, or that the router is unavailable if its sender was dropped or it found the transport closed |
| RustTransport.ReplyIsReturned | rust/src/caller_transport.rs:225-258 | a frame for a request that waits for one is what it returns next |
| RustTransport.WokenReturns | rust/src/caller_transport.rs:225-237 | a waiting request moves exactly when its sender is no longer open, and returns its frame, or unavailable after the drain or a drop |
| RustTransport.FailedSendReturns | rust/src/caller_transport.rs:220-223 | a request whose send fails returns that and takes its entry out of the map |
| RustTransport.TimeoutLeavesEntry | rust/src/caller_transport.rs:225-230 | a request that times out leaves its entry behind |
| RustTransport.OnlyTimeoutsLeak | rust/src/caller_transport.rs:206-238 | the map holds entries of requests under way or timed out, and of no other |
| RustTransport.LateReplyIsDropped | rust/src/caller_transport.rs:225-258 | a reply after a timeout moves no request and changes no oneshot but the abandoned one |
| RustTransport.OnlyLateEntriesAfterDrain | rust/src/caller_transport.rs:261-276 | after the drain the map holds only senders inserted after it, by requests that read the closed flag while it was false |
| RustTransport.StrandedExactly | rust/src/caller_transport.rs:206-276 | when the loop is over, a waiting request with an id of its own is stuck exactly when the step of the run that inserted its sender came after the drain; any stuck request did that |
| RustTransport.LateRequestIsStranded | rust/src/caller_transport.rs:206-238 | a run that strands a request |
| RustTransport.PendingSenders.DeliverFrame | rust/src/caller_transport.rs:256-258 | a frame uses up the sender of its id, once, and no other |
| RustTransport.PendingSenders.DrainPending | rust/src/caller_transport.rs:263-276 | the drain empties the map and uses every sender that was in it, each once, and no other |
| EndToEndProofs.RunKeeps | golang/service.go:96-172 | callers, router and services together keep the correlation invariant in every run |
| EndToEndTheorems.AtMostOneReply | golang/transport.go:151-182 | over all sinks of all callers there is at most one frame with a given request's id |
| EndToEndTheorems.WhereItCameFrom | router/src/server.rs:88-197 | such a frame on the caller's sink is the router's own answer (an error, for a call) or the service's reply |
| EndToEndTheorems.RequestGetsItsOwnReply | golang/service.go:122-172 | a frame returned to a call or query has its id and is the router's answer or, byte for byte, the reply built by the service that received the request's bytes, ends swapped, id and time copied |
| EndToEndTheorems.SingleReply | golang/service.go:96-172 | whatever fails on the way, no delivered frame is answered by two reply frames: it starts one goroutine, which writes at most once |
| ServiceAnswers.AnsweredExactly | golang/service.go:52-60 | a finished call on an open service is unanswered exactly when its goroutine was dispatched before the dial had returned its transport |
| ServiceAnswers.AnswerFitsItsCall | golang/service.go:122-172 | an answer carries its call's id and time, with the ends swapped |
| ServiceAnswers.ReplyKindExactly | golang/service.go:122-172 | a reply is an error exactly when decoding the call, handling it or encoding its result failed in that run, and otherwise a response |
| ServiceAnswers.WritesWhenOpen | golang/transport.go:346-365 | a goroutine writes its reply only after it found the service open |
| ServiceAnswers.ClosesForReason | golang/service.go:96-120 | a service closes only by order, for a disconnect or unknown frame, or because a reply could not be encoded or written; a failed call is no reason |
| ServiceAnswers.ClosedExactly | golang/service.go:53-60 | a service is closed exactly when it was ordered to, read a disconnect, or one of its goroutines came to closing |
| ServiceAnswers.ClosingTurnExactly | golang/service.go:96-172 | the exact errors that make a goroutine close its service |
| ServiceAnswers.RunsExactly | golang/transport.go:70-148 | a peer's read loop runs exactly when the first frame its dial took was an accepting response |
| ServiceAnswers.NothingBeforeTheAck | golang/transport.go:36-68 | until then it makes no request and serves no frame |
| EndToEndTheorems.ReadableExactly | router/src/protocol.rs:127-169 | with the real layout peers can write exactly the version-5 frames whose envelope length fits |
| EndToEndRun.FrameIsForwarded | router/src/server.rs:267-440 | a call, response, error or heartbeat whose source and target are right can be forwarded to its target's sink, nothing else changing but a heartbeat's time |
| EndToEndRun.CallCanBeAnswered | golang/service.go:122-172 | in any world, from every state in which caller and service are registered and at rest and the service has its transport, some run returns the service's result, or its error with a non-nil error, to the call |
| EndToEndRun.CallCanBeLost | golang/service.go:52-60 | from every such state before the service has its transport, some run delivers the call to the open service and drops it |
| EndToEndRun.PeerCanJoin | router/src/server.rs:37-83 | from any state, a peer with a free id can register and come to rest, the others unchanged |
| EndToEndRun.CallFromNothing | golang/transport.go:151-182 | from the empty system two peers can join and a call return its result |
| EndToEndRun.CallLostFromNothing | golang/transport.go:62-68 | from the empty system two peers can join and a call be lost |
| LockFile.WrittenRecords | rust/src/router_bootstrap.rs:176-222 | every record reached by creates and updates keeps its shape, pid and port |
| LockFile.CreatedSays | rust/src/router_bootstrap.rs:335-344 | what a fresh record says in each binding; only Rust omits the router pid, and the language tells the binding |
| LockFile.VerdictExactly | rust/src/router_bootstrap.rs:266-309 | every binding reclaims a record exactly when it has expired, its holder has died or it is marked failed, otherwise skips the spawn exactly when a live router is recorded, and otherwise waits |
| LockFile.GarbageIsReclaimed | javascript/src/router_bootstrap.ts:151-165 | what is no record of this format is reclaimed by all five, except that JavaScript throws on a JSON null |
| LockFile.NoPidIsReclaimed | golang/router_bootstrap.go:291-294 | a record without a pid is reclaimed by all five |
| LockFile.NoExpiryExactly | php/src/RouterBootstrap.php:172-180 | a missing expiry is stale to Rust, Go and Python and never expires to JavaScript and PHP |
| LockFile.OrdinaryPortAgrees | golang/router_bootstrap.go:269-308 | on such a record with a 16-bit port any two evaluators agree for every clock and liveness predicate |
| LockFile.FailedIsReclaimed | php/src/RouterBootstrap.php:158-203 | a failed record is reclaimed by all five |
| LockFile.OddPortDisagrees | python/src/multifrost/router_bootstrap.py:275-305 | on any other port Rust reclaims a live, unexpired record that Python respects |
| LockFile.DecisionsAgreeExactly | javascript/src/router_bootstrap.ts:151-188 | on every record a binding can leave, the five agree everywhere exactly when the port fits 16 bits or the record is failed |
| Bootstrap.LockGuard.Create | rust/src/router_bootstrap.rs:315-345 | the created record is the holder's copy and the file |
| Bootstrap.LockGuard.Update | golang/router_bootstrap.go:182-208 | the holder's copy changes by the fields set, and the file follows it or is edited as found |
| BootstrapOutcomes.OutcomesAreEarned | rust/src/router_bootstrap.rs:104-162 | a process reports success only after it found a router on its own port, and failure only after a step of its own failed or timed out |
| BootstrapOutcomes.EvaluationExactly | rust/src/router_bootstrap.rs:353-371 | the verdict on the file decides exactly what a process does next |
| BootstrapOutcomes.FreeLockIsTaken | rust/src/router_bootstrap.rs:325-352 | a process that finds no router and no file holds the lock with its own record |
| BootstrapOutcomes.StaleIsTakenOver | rust/src/router_bootstrap.rs:353-358 | a stale lock is judged, removed and replaced by its finder's own |
| BootstrapOutcomes.FoundWithoutLock | golang/router_bootstrap.go:79-106 | a process that finds its router at its first probe, or while it polls, succeeds without touching the file |
| BootstrapOutcomes.FoundUnderLock | golang/router_bootstrap.go:109-115 | a holder that finds a router at its second probe spawns none and removes the file, marked ready unless it is PHP |
| BootstrapOutcomes.HolderSpawns | golang/router_bootstrap.go:117-123 | otherwise it spawns one, once, and notes its pid in the file |
| BootstrapOutcomes.FailedSpawn | golang/router_bootstrap.go:117-122 | a failed spawn is reported and removes the file, marked failed unless it is Rust |
| BootstrapOutcomes.ReadyIsRecorded | golang/router_bootstrap.go:125-131 | once the router answers the file is marked ready and removed, and success reported |
| BootstrapOutcomes.FailureIsRecorded | rust/src/router_bootstrap.rs:144-156 | a router that does not come up in time leaves the file marked failed and then removed, and failure reported |
| BootstrapOutcomes.TimesOutExactly | php/src/RouterBootstrap.php:268-313 | where waiting without the lock ends in a timeout, binding by binding |
| SpawnOnce.HealthyLockIsRespected | rust/src/router_bootstrap.rs:266-309 | no binding reclaims the record of a live, unexpired, unfailed holder |
| SpawnOnce.RunKeeps | rust/src/router_bootstrap.rs:104-162 | calm runs on one port from no lock file keep the invariant, evaluate and unlink interleaving freely |
| SpawnOnce.AtMostOneSpawn | rust/src/router_bootstrap.rs:104-162 | at most one of any number of processes on one port, in any mix of bindings, ever spawns a router |
| SpawnOnce.ExclusiveUntilReachable | rust/src/router_bootstrap.rs:315-375 | until a router is reachable on that port there is at most one holder and the file is its record |
| BootstrapRaces.ExpiryAllowsSecondSpawn | golang/router_bootstrap.go:210-267 | without the expiry assumption two routers are spawned |
| BootstrapRaces.MutualExclusionIsLost | golang/router_bootstrap.go:239-242 | a calm run on one port in which two processes hold the lock |
| BootstrapRaces.MixedPortsSpawnTwice | golang/router_bootstrap.go:74-148 | for any two ports, a calm run in which two processes spawn a router for the same one |
| BootstrapRaces.OnePerPortExactly | golang/router_bootstrap.go:56-148 | calm runs on a set of ports spawn at most one router per port exactly when the set has at most one port |
| LockLoops.ClockAdvances | php/src/RouterBootstrap.php:268-313 | after k retries the clock has advanced by at least k delays |
| LockLoops.AcquireLockPhp | php/src/RouterBootstrap.php:268-313 | at most 100 create attempts for every sequence of lock contents, each before the deadline; stops at the first deciding round or past the deadline; exactly 100 and a timeout when nothing decides and only the sleeps take time |
| LockLoops.RustGoesOnExactly | rust/src/router_bootstrap.rs:315-375 | Rust's loop is still going after n attempts exactly when every create failed on a stale file, or on a valid one with time left |
| LockLoops.RustStopsWith | rust/src/router_bootstrap.rs:325-371 | the round that stops it decides the outcome: lock, running router or timeout |
| LockLoops.RustPastDeadlineExactly | rust/src/router_bootstrap.rs:353-370 | past the deadline it goes on exactly when the create fails and the verdict is reclaim |
| LockLoops.RustAttemptsAreReclaims | rust/src/router_bootstrap.rs:315-375 | however long it runs, all but 100 of its attempts are reclaims |
| LockLoops.RustReclaimsForever | rust/src/router_bootstrap.rs:353-358 | reclaims are unbounded: while every create fails on a stale file no number of attempts is the last |
| PortableValues.NormalizeValue | python/src/multifrost/frame.py:127-164 | the recursive loops that fill dictionaries and lists compute the normal form |
| PortableValues.RaisedIsReal | python/src/multifrost/frame.py:132-164 | the fault raised is a fault of some reachable node |
| PortableValues.RejectsExactly | python/src/multifrost/frame.py:127-164 | it fails exactly when some reachable leaf or key is not portable |
| PortableValues.OutputIsPortable | python/src/multifrost/frame.py:127-164 | otherwise it returns only 64-bit integers, finite floats, lists and maps with distinct string keys |
| PortableValues.PortableIsFixed | python/src/multifrost/frame.py:127-164 | it is the identity on portable values |
| PortableValues.Idempotent | python/src/multifrost/frame.py:127-164 | it is idempotent and its fixed points are exactly the portable values |
| PortableValues.MeaningIsKept | python/src/multifrost/frame.py:144-164 | what is sent means what was given: byte arrays, tuples and wrappers unfolded, the last of equal keys winning |
| JsValues.SanitizeValue | javascript/src/frame.ts:38-76 | the recursive pass that fills a fresh object computes the sanitized value |
| JsValues.ThrowsExactly | javascript/src/frame.ts:38-60 | it throws exactly when it can reach an unsafe integer number or a bigint outside 64 bits |
| JsValues.PropsShape | javascript/src/frame.ts:67-73 | the filled object has exactly the other properties, in order, each sanitized |
| JsValues.PrototypeShape | javascript/src/frame.ts:67-73 | its prototype is decided by the sanitized value under `__proto__` alone |
| JsValues.UnchangedExactly | javascript/src/frame.ts:38-76 | a value is returned unchanged exactly when no reachable node is out of range, non-finite, prototype-less or has a key `__proto__` |
| JsValues.IdempotentExactly | javascript/src/frame.ts:38-76 | a second pass never throws, and changes nothing exactly when no null prototype was left behind |
| JsValues.SecondPassCanDiffer | javascript/src/frame.ts:67-73 | a value on which it does |
| CrossLanguage.SurvivesExactly | javascript/src/frame.ts:38-76 | a portable Python value is returned unchanged exactly when its integer-valued floats and the integers that arrive as numbers lie within ±(2^53−1) and no map key is `__proto__`; integers that arrive as bigints always survive |
| CrossLanguage.AcceptedSurvivesExactly | python/src/multifrost/frame.py:127-164 | the same for whatever the Python normalizer accepts |
| CrossLanguage.ProtoKeyIsLost | javascript/src/frame.ts:67-73 | a portable value with small integers only that JavaScript changes |
| EventLog.SinceResetIsTail | rust/src/metrics.rs:276-288 | the history a collector answers for is the longest tail without a reset |
| EventLog.PeakIsMaximum | rust/src/metrics.rs:139-146 | the maximum depth is the greatest depth the history went through |
| EventLog.DepthIsWorstBacklog | rust/src/metrics.rs:156-161 | the saturating depth is the largest net backlog of any recent stretch of the history |
| EventLog.BooksBalanceExactly | rust/src/metrics.rs:133-174 | total = success + failed + depth exactly when no end ever outran the starts; otherwise short by the worst overrun |
| Summaries.SummaryStep | rust/src/metrics.rs:133-174 | constant work on the bounded state keeps up with the summary of the whole history, event by event |
| Summaries.LatencyWindowStep | rust/src/metrics.rs:167-171 | push and pop keep the newest samples up to capacity |
| OrderStatistics.RankExactly | rust/src/metrics.rs:215-231 | indexing the sorted copy finds exactly the value of that rank in the unsorted window |
| LatencyFigures.FiguresAreRight | rust/src/metrics.rs:215-243 | average and extremes describe the window itself; of n samples p50, p95 and p99 have ranks n/2, 95n/100 and 99n/100, rounded down |
| LatencyFigures.RankIsFloor | rust/src/metrics.rs:220-227 | the index read for a percentage is the exact floor of that share of the samples |
| LatencyFigures.AverageSharesTotal | rust/src/metrics.rs:224 | the average times the count is the total |
| LatencyFigures.FiguresAreOrdered | rust/src/metrics.rs:215-243 | min ≤ p50 ≤ p95 ≤ p99 ≤ max, and the average lies between the extremes |
| Metrics.Collector.WithOptions | rust/src/metrics.rs:111-128 | a new collector summarizes the empty history |
| Metrics.Collector.StartRequest | rust/src/metrics.rs:133-146 | the fields summarize the history with one more start |
| Metrics.Collector.EndRequest | rust/src/metrics.rs:149-174 | the fields summarize the history with one more end, its outcome and latency |
| Metrics.Collector.RecordCircuitBreakerTrip | rust/src/metrics.rs:177-181 | likewise for a trip |
| Metrics.Collector.RecordHeartbeatRtt | rust/src/metrics.rs:196-202 | likewise for a round-trip time, of which the newest 100 are kept |
| Metrics.Collector.ResetAll | rust/src/metrics.rs:276-288 | the fields summarize the empty history again |
| Metrics.Collector.TakeSnapshot | rust/src/metrics.rs:211-273 | counters describe the history since the reset in full, latency figures its newest window, in order |

## Left out

- Sockets, WebSocket handshakes, process spawning, pid probing, file paths and environment variables: only "the send succeeds or fails", "the probe answers", a liveness predicate and a clock remain.
- MessagePack and JSON byte formats: library code; envelopes go through an abstract encoder and decoder.
- Lock files edited by hand: JSON members of unexpected types, JavaScript coercions and Go's case-insensitive member names.
- SpawnOnce.AtMostOneSpawn: assumes that all processes use one port, that it fits 16 bits, ordinary pids, holders that stay alive, unexpired and unfailed, and a reachable router that stays reachable; the exclusive create and the write of its record are one step, and so is each update (a reader that comes between them finds an unparseable file and reclaims it).
- General mutual exclusion of the lock and runs that start from an existing stale lock: not kept by the code.
- Exclusive creates that fail for another reason than an existing file, after which most bindings give up.
- The loops that poll for the lock in Go, Python and JavaScript: their steps are in `Bootstrap`, but no bound on attempts is claimed.
- EndToEndTheorems.AtMostOneReply: message ids of a peer's own frames are fresh and services run the shipped dispatch; other services are not covered.
- EndToEndRun.CallCanBeAnswered: says that some run answers the call; no fairness is modelled, so it does not say that every run does.
- A Go write that reports an error after the frame was in fact delivered: in the composed system a failed write delivers nothing.
- In the composed system: connections that send text frames (the router model alone covers them), frames whose envelope is 4 GiB or longer, and the write lock between a service's goroutines.
- Diagnostic texts of errors and the contents of error bodies: error codes are kept in the router model, texts are not.
- Rust `disconnect`, which aborts the inbound task: the drain properties are about loops that end by themselves.
- The JavaScript connection, its timers and its settle-once logic.
- Python values that are cyclic, raise from `to_mapping` or change while being read; JavaScript getters, proxies, sparse arrays and frozen objects under `__proto__`; the reordering of integer-like property names.
- Floating-point rounding: samples and times are reals, ranks are exact floors; NaN samples cannot occur. Counter overflow and the snapshot's timestamp are not modelled.
- Logging, error-class hierarchies, connect wrappers, call macros, synchronous wrappers, examples, math workers and `python/legacy`: they would add easy members only.
- Resource limits and peers that do not follow the protocol on purpose.

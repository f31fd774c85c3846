# Patina RPC, verified

A Dafny model of the call path of Patina RPC and proofs about it, in three layers.

* **Connection multiplexer.** `ClientMux` and `ServerMux` are transition systems with one action per
  atomic step of callers, reader, writer, dispatcher and workers; everything the scheduler, the network,
  the peer or a handler decides is in the choice of the next action. `Link` joins them by two bounded FIFO
  wires. `ClientTheorems`, `CallOutcomes`, `Link` and `Liveness` hold the results over all runs. `ClientTasks` and
  `ServerTasks` are the mutable objects and loops of the source, proved against those actions.
* **Wire codec.** `Varint`, `Envelope` and `WireCodec` write out bincode 2's standard configuration
  (little-endian, variable-length integers) and the 4-byte big-endian framing, with the incremental decoder
  as a class over a mutable buffer.
* **Generated stubs.** `Schema`, `Registry` and `Stubs` interpret the generated proxy and dispatcher over a
  universe of typed values. `Stack` puts the three layers together.

Conventions. A call is identified by its position in the order of id allocation; its wire id is that
position modulo 2^64. Results that need distinct ids assume at most 2^64 calls in a run, or that no live
call is 2^64 allocations old. Fields of the state records named as history record what happened and decide
nothing. Frame caps are below 2^32, the range of the length prefix.

Where the code and its documentation differ, the model follows the code. `DESIGN.md` line 65 shows an 8-byte
id, while the configured encoding is variable-length. `DESIGN.md` line 143 asks for an error to be sent to
every pending caller on disconnect; the code drops their senders instead, and a caller that passed the
closed check before the disconnect but registered after the drain is never woken:
`ClientTheorems.StrandedWitness` is such a run, and `WokenUnlessLate` and `StrandedCallsExactly` say exactly
which calls are affected. The guard that decides it can be observed: a late insert always happens under an
already cancelled token (`LateInsertSawClosedToken`). A caller can also hang on a connection that stays up:
when its handler panics, or when the server's writer has died on a failed send, for which one over-long reply
is enough, while the dispatcher reads on; `Liveness.LeftWaitingIff` says exactly when.

`dafny verify dfyconfig.toml` checks the whole project.

## Model

| member | source | states |
|---|---|---|
| `Stack.ProxyOverConnection` | crates/patina-macros/src/expand.rs:65-88 | In any run, among any other calls, faults and cancellations: a generated proxy method whose call came back with bytes or a remote error returns the normalised result of the local implementation on its own arguments, which exactly one worker ran exactly once |
| `Stack.RawCallOverConnection` | crates/patina-rpc/src/server.rs:262-281 | The same for a raw call: a registered handler's bytes or error come back unchanged, an unregistered method is a 404 naming it |
| `Stack.RawCallRunsHandler` | crates/patina-rpc/src/server.rs:262-281 | In the builder's terms: a raw call of a method whose last registration is a user's handler returns what that handler makes of the call's own payload, its bytes or its code and message |
| `Stack.BytesCarryTheWires` | crates/patina-rpc/src/codec.rs:58-82 | Whatever chunks the bytes of the sent frames arrive in, each side decodes exactly a prefix of the other side's frames in order, and all of them once all bytes are there |
| `Link.InvStep` | crates/patina-rpc/src/client.rs:244-316 | Every step of either side keeps the client invariant, the server invariant and the FIFO equations of both wires |
| `Link.StepsOfWires` | crates/patina-rpc/src/client.rs:252-258 | A send returns exactly while the wire has room and each side reads the oldest frame on its wire; every other step is as that side has it |
| `Link.Routing` | crates/patina-rpc/src/client.rs:148-197 | Over every run with fewer than 2^64 calls: a call that returned a payload or a remote error was executed by exactly one worker, on its own id, method and payload, and its result is that worker's outcome |
| `Link.DeliveredIsReturned` | crates/patina-rpc/src/client.rs:180-196 | In the whole system a delivered reply is returned: an enqueued, uncancelled call whose one-shot fired finished with the outcome of the one worker that ran its request, even if the connection was closed before it resumed |
| `Link.ExecutedAtMostOnce` | crates/patina-rpc/src/server.rs:233-258 | No request id is executed twice, whatever the interleaving, cancellations or disconnects |
| `Link.ExactlyOneStage` | crates/patina-rpc/src/client.rs:174-178 | Conservation: at every moment an enqueued request is at exactly one stage, counted over both queues, both writers, both wires, workers, received, lost, dropped and panicked; a call not enqueued is at none |
| `Link.ClientPartRuns` | crates/patina-rpc/src/client.rs:130-139 | The client's steps in any run of the whole system are a run of the client ending in its state, so everything proved of client runs holds there |
| `Link.ServerPartRuns` | crates/patina-rpc/src/server.rs:217-231 | Likewise the server's |
| `Link.WokenUnlessLate` | crates/patina-rpc/src/client.rs:153-190 | In the whole system, with the client's reader gone, a parked caller is stuck if and only if its insert came after the drain |
| `Link.StrandedCallsExactly` | crates/patina-rpc/src/client.rs:153-178 | And once the client has settled, the stranded calls are exactly the uncancelled ones that inserted after the drain and enqueued before the receiver was dropped |
| `Link.GracefulDrain` | crates/patina-rpc/src/server.rs:254-260 | In the whole system, if the server returned and no send failed, the ids of all requests it read are, with multiplicity, those of the replies the client received, of replies on the wire, and of panicked handlers |
| `Liveness.EveryRunIsFinite` | crates/patina-rpc/src/client.rs:49-49 | Any run with n calls, with any faults and cancellations, has at most 16 n + 15 steps besides the calls' entries |
| `Liveness.StepLowersWeight` | crates/patina-rpc/src/client.rs:244-316 | Every step but a new call lowers the sum of the stages everything still has ahead |
| `Liveness.NoDeadlock` | crates/patina-rpc/src/server.rs:233-245 | While the client is connected and the server reads, somebody can take a step other than a fault, even if no handler ever returns and despite both 128-slot queues and both bounded wires, unless every call is done or waits for its own handler or for a reply that will never come |
| `Liveness.LeftWaitingIff` | crates/patina-rpc/src/server.rs:238-245 | The exact condition for waiting on a live connection: with nothing in flight, a parked caller waits if and only if its own handler is still running or panicked, or its own reply was dropped |
| `Liveness.EmptyPipelineAnswersAll` | crates/patina-rpc/src/client.rs:180-190 | In particular, with the connection up, nothing in flight and no handler running, no caller is left waiting |
| `Liveness.PanicHangsCaller` | crates/patina-rpc/src/server.rs:238-243 | A concrete run in which a handler panics and its caller hangs while the connection serves on |
| `Liveness.FailedReplyHangsCaller` | crates/patina-rpc/src/server.rs:298-303 | A concrete run in which the server's writer dies on one failed send and the caller hangs while the server reads on, whatever the handler's outcome |
| `Liveness.EveryScheduleSettles` | crates/patina-rpc/src/client.rs:192-197 | Under any scheduler, once nobody but the handlers can step with the client connected and the server reading, a call is unresolved if and only if it was not cancelled and its own handler is still running or panicked or its own reply was dropped, so a slow handler holds up nobody else; each other call not cancelled returned the outcome of the one worker that ran its request |
| `Liveness.EveryScheduleResolves` | crates/patina-rpc/src/client.rs:192-197 | Hence, with the connection up and nobody, handlers included, able to step, every call is done, and each one not cancelled returned the outcome of the one worker that ran its request |
| `Liveness.SettlingPlan` | crates/patina-rpc/src/client.rs:148-197 | From every reachable state with the client connected and the server reading, a plan of explicitly bounded length, without any fault or cancellation, in which the handlers return, ends with every call done or never to be answered; if the connection was up it stays up and every call is resolved |
| `Liveness.ClientRunIsFinite` | crates/patina-rpc/src/client.rs:244-316 | Against any peer, a client run has at most as many steps as its weight at the start, plus 17 per call started and 3 per frame read |
| `Liveness.ServerRunIsFinite` | crates/patina-rpc/src/server.rs:233-258 | Against any peer, a server run has at most as many steps as its weight at the start plus 8 per frame read, so a server that stopped reading runs out of steps |
| `ClientInvariant.InvStep` | crates/patina-rpc/src/client.rs:148-316 | Every atomic step of callers, writer and reader keeps the client invariant against an arbitrary peer: each one-shot sender in exactly one place, ids, queue order, token discipline |
| `ClientInvariant.Reachable` | crates/patina-rpc/src/client.rs:125-141 | The invariant holds in every state of every run from a fresh client |
| `CallOutcomes.ResumeReturnsReply` | crates/patina-rpc/src/client.rs:180-190 | Resuming returns the reply's payload, or a remote error with its code and message, whether or not the token is cancelled; Closed for a dropped sender |
| `CallOutcomes.OutcomeExactly` | crates/patina-rpc/src/client.rs:148-196 | Over every run, each finished call: cancelled if and only if its caller gave up; else, if its request was enqueued, exactly what its one-shot resolved to; else Closed |
| `CallOutcomes.ClosedMeansDropped` | crates/patina-rpc/src/client.rs:187-190 | Closed after enqueueing means that the sender was dropped: a delivered reply never turns into Closed |
| `CallOutcomes.AnswerThenClose` | crates/patina-rpc/src/client.rs:180-196 | When the peer answers a parked call and then closes, the caller resumes under a cancelled token with the answer |
| `CallOutcomes.CallsEnterAsMade` | crates/patina-rpc/src/client.rs:153-172 | Over every run, the calls that found the token live, with their methods and payloads, are exactly the calls entered, with multiplicity |
| `CallOutcomes.ClosedAcceptsNone` | crates/patina-rpc/src/client.rs:153-155 | Once the token is cancelled no call is accepted any more |
| `CallOutcomes.EnqueuesOwnRequest` | crates/patina-rpc/src/client.rs:168-174 | The request put at the end of the queue carries the call's own id, method and payload |
| `CallOutcomes.TakeFinds` | crates/patina-rpc/src/client.rs:280-292 | A Response or Error under a parked call's id takes that call's sender out of the map |
| `CallOutcomes.TakeIgnores` | crates/patina-rpc/src/client.rs:283-294 | Any other frame leaves everything as it was |
| `CallOutcomes.FireDelivers` | crates/patina-rpc/src/client.rs:291-291 | The sender in hand delivers the frame to its own call if that still waits, and to no other |
| `CallOutcomes.StepsOfEntry` | crates/patina-rpc/src/client.rs:148-160 | Calls start while the client is held, and it is dropped only when no call borrows it |
| `CallOutcomes.StepsOfCall` | crates/patina-rpc/src/client.rs:174-180 | A send waits exactly while 128 requests are queued and is refused exactly when the receiver is gone; the wait for the reply ends exactly when the one-shot is resolved; both waits can be cancelled |
| `CallOutcomes.StepsOfWriter` | crates/patina-rpc/src/client.rs:249-264 | The writer's unbiased choices: under a cancelled token it may still take a queued request, and during a send it sees nothing else |
| `CallOutcomes.StepsOfReader` | crates/patina-rpc/src/client.rs:276-307 | The reader's unbiased choices: under a cancelled token it may still take a frame, end of stream or decode error |
| `ClientTheorems.MapEntriesAreLive` | crates/patina-rpc/src/client.rs:59-102 | A map entry always belongs to a live call, so the map is empty whenever no call is live, even under id wrap-around |
| `ClientTheorems.DisarmIsSound` | crates/patina-rpc/src/client.rs:192-195 | When the one-shot resolves, the sender is in nobody's hands any more and, within the id window, the id is absent from the map |
| `ClientTheorems.SlotIsFinalOverRuns` | crates/patina-rpc/src/client.rs:290-297 | A one-shot is used at most once: its value never changes over any run |
| `ClientTheorems.FiredValueIsOwnReply` | crates/patina-rpc/src/client.rs:180-186 | A fired value is a received Response or Error carrying the caller's own id, so the catch-all arm is unreachable, for any frames the peer sends |
| `ClientTheorems.SameIdIff` | crates/patina-rpc/src/client.rs:159-159 | Two calls share an id exactly when a multiple of 2^64 allocations lies between them |
| `ClientTheorems.IdsAreFresh` | crates/patina-rpc/src/client.rs:65-69 | While no live call is 2^64 allocations old, insert never overwrites an entry and an armed guard never removes another call's |
| `ClientTheorems.OverwriteIff` | crates/patina-rpc/src/client.rs:65-69 | In general insert overwrites exactly when a parked sender is a non-zero multiple of 2^64 allocations away, and then drops precisely that one |
| `ClientTheorems.LatenessIsFixedAtInsert` | crates/patina-rpc/src/client.rs:161-161 | No later step of anyone makes an insert late or stops it being late |
| `ClientTheorems.InsertBeforeDrainResolves` | crates/patina-rpc/src/client.rs:309-315 | Once the reader is gone, every call inserted before the drain has a resolved one-shot and can proceed |
| `ClientTheorems.WokenUnlessLate` | crates/patina-rpc/src/client.rs:153-190 | The exact wake-up condition: with the reader gone, a parked caller is stuck if and only if its insert came after the drain |
| `ClientTheorems.LateInsertSawClosedToken` | crates/patina-rpc/src/client.rs:153-161 | An insert is late exactly when the reader has already drained, and then the token is already cancelled |
| `ClientTheorems.StrandedCallsExactly` | crates/patina-rpc/src/client.rs:153-178 | Once both loops have exited and all else settled, the calls still parked and the map's remaining entries are exactly the uncancelled calls that inserted after the drain and enqueued before the receiver was dropped |
| `ClientTheorems.StrandedForever` | crates/patina-rpc/src/client.rs:161-180 | Such a call stays parked over every later run in which its own caller does not cancel it |
| `ClientTheorems.StrandedWitness` | crates/patina-rpc/src/client.rs:153-178 | A concrete run that strands a caller: the unconditional promise that every pending caller is woken fails |
| `ClientTheorems.ClosedOnlyWhenCancelled` | crates/patina-rpc/src/client.rs:187-190 | In any run of a fresh client, Closed is never reported by a call past the token check, and no waiting caller's sender dropped, before the token is cancelled |
| `ClientTheorems.ExitMeansCancel` | crates/patina-rpc/src/client.rs:17-25 | Any exit of either loop leads to a cancelled token, and drain and receiver drop only follow cancellation |
| `ClientTheorems.CancelIsForever` | crates/patina-rpc/src/client.rs:265-268 | Cancellation is never undone |
| `ClientTheorems.CancelledBy` | crates/patina-rpc/src/client.rs:265-313 | The token is cancelled by each task's own cancel after its loop, and by nothing else |
| `ClientTheorems.TeardownUnderAnyScheduler` | crates/patina-rpc/src/client.rs:250-316 | Once one half has exited, whatever anyone does next and even if the peer and the network stay silent: when neither task has a step of its own left (frames, end of stream and the return of a send are not its own), the reader is gone, the writer is gone or held in a pending send, the token is cancelled, and every call registered by then and not late is woken |
| `ClientTheorems.RestingIff` | crates/patina-rpc/src/client.rs:17-25 | When neither task has a step of its own left, the reader is gone if and only if one half had exited or the token was cancelled |
| `ClientTheorems.FreshClientRests` | crates/patina-rpc/src/client.rs:125-141 | A fresh client is in the other case: no step of its own, nothing torn down |
| `ClientTheorems.TeardownCompletes` | crates/patina-rpc/src/client.rs:250-316 | From any state with one half exited, a schedule of explicitly bounded length ends with both halves gone and every call registered and not late woken; nothing in it is left to the peer or the network but the return of a send that was already pending |
| `ClientTasks.PendingMap.Insert` | crates/patina-rpc/src/client.rs:67-69 | The map gains exactly the entry; the overwritten sender is handed out to be dropped |
| `ClientTasks.PendingMap.Take` | crates/patina-rpc/src/client.rs:74-82 | Removes exactly the id and hands its sender over, if present |
| `ClientTasks.PendingMap.Drain` | crates/patina-rpc/src/client.rs:87-89 | Returns every sender and leaves the map empty |
| `ClientTasks.PendingGuard.Drop` | crates/patina-rpc/src/client.rs:232-242 | Removes its own id when armed and nothing otherwise |
| `ClientTasks.Client.CheckToken` | crates/patina-rpc/src/client.rs:153-155 | The token check as one action: a cancelled token refuses the call without effect |
| `ClientTasks.Client.TakeId` | crates/patina-rpc/src/client.rs:159-160 | Taking the next id, wrapping at 2^64, as one action |
| `ClientTasks.Client.Register` | crates/patina-rpc/src/client.rs:161-161 | Parking the sender as one action; a sender it overwrites is dropped |
| `ClientTasks.Client.StartCall` | crates/patina-rpc/src/client.rs:148-166 | The three in a row up to the first await: refused without effect on a closed connection, else registered under a new id, with a new armed guard for that id |
| `ClientTasks.Client.Send` | crates/patina-rpc/src/client.rs:174-178 | Enqueues the request while the receiver lives, else the call leaves with Closed and its guard still armed |
| `ClientTasks.Client.Awake` | crates/patina-rpc/src/client.rs:180-196 | The call finishes with what the one-shot resolved to; its guard is disarmed, and dropping it leaves the map alone |
| `ClientTasks.Client.RunGuard` | crates/patina-rpc/src/client.rs:232-242 | A call left before its one-shot resolved still has its guard armed, and dropping it removes the id, as one action |
| `ClientTasks.Client.TakeSender` | crates/patina-rpc/src/client.rs:280-292 | Looking up a frame's id and taking the sender as one action; other frames and unknown ids change nothing |
| `ClientTasks.Client.Fire` | crates/patina-rpc/src/client.rs:291-291 | Firing the taken sender as one action; a caller that left gets nothing |
| `ClientTasks.Client.DropDrained` | crates/patina-rpc/src/client.rs:314-315 | Whatever the order, dropping the drained senders wakes exactly their callers |
| `ClientTasks.Client.ReaderLoop` | crates/patina-rpc/src/client.rs:271-316 | The loop over the shared fields computes the function whose meaning ReaderLoopDelivers states |
| `ClientTasks.Client.WriterLoop` | crates/patina-rpc/src/client.rs:244-269 | The loop over the queue computes the function whose meaning WriterLoopForwards states |
| `ClientLoops.ReaderLoopDelivers` | crates/patina-rpc/src/client.rs:276-315 | A call parked when the loop starts ends with the first frame carrying its id, or woken by the drop if there was none; no other call is touched, the map ends empty, the token cancelled |
| `ClientLoops.FramesOutcome` | crates/patina-rpc/src/client.rs:280-297 | For any frames from any peer: a parked call gets the first reply carrying its id; duplicates, unknown ids, requests and heartbeats change nothing for anyone |
| `ClientLoops.ReaderLoopIsRun` | crates/patina-rpc/src/client.rs:276-315 | The reader loop is a run of the transition system |
| `ClientLoops.WriterLoopForwards` | crates/patina-rpc/src/client.rs:249-264 | The writer sends a prefix of the queue in order, one request per successful send, and loses exactly the rest |
| `ClientLoops.WriterLoopIsRun` | crates/patina-rpc/src/client.rs:249-267 | The writer loop is a run of the transition system |
| `ServerMux.InvStep` | crates/patina-rpc/src/server.rs:217-260 | Every step keeps: each request read is with one worker, panicked, or executed once; each reply is at exactly one stage; replies match executions |
| `ServerMux.GracefulDrain` | crates/patina-rpc/src/server.rs:254-260 | If the connection function returns and no send failed, no worker is live, the queue is empty, and the ids answered plus those of panicked handlers are the ids of all requests read, with multiplicity |
| `ServerMux.StoppedServerReturns` | crates/patina-rpc/src/server.rs:254-260 | A server that left its read loop without an abort and has no step of its own left has returned if and only if its writer died or no handler is running and no send is pending |
| `ServerMux.EveryRequestAccounted` | crates/patina-rpc/src/server.rs:233-245 | In every run the ids of all requests read are, with multiplicity, those with a worker, of finished, queued, being written and written replies, of panicked handlers, and of dropped replies |
| `ServerMux.NothingLostWhileHealthy` | crates/patina-rpc/src/server.rs:233-245 | Without panic, send failure or abort nothing is dropped: those ids are running, on their way back, or written |
| `ServerMux.WrittenInPushOrder` | crates/patina-rpc/src/server.rs:294-305 | Over every run replies are written in the order the workers pushed them, and while the writer lives nothing pushed is missing and nothing else appears |
| `ServerMux.StepsOfServer` | crates/patina-rpc/src/server.rs:233-245 | The dispatcher takes a frame whenever it reads, however full the queue is; any worker may finish next and any finished one push next; a push waits exactly while 128 replies are queued |
| `ServerMux.ServerExits` | crates/patina-rpc/src/server.rs:254-260 | The end of the input leaves the writer to drain; a dropped connection future aborts it and drops what it held and what was queued |
| `ServerMux.IngestHandsOver` | crates/patina-rpc/src/server.rs:235-250 | A request is handed to a worker as it is, other frames start nothing, and the queue and writer are not touched |
| `ServerTasks.Connection.ReadLoop` | crates/patina-rpc/src/server.rs:233-257 | The read loop computes the function whose meaning IngestSpawnsPerRequest states, then drops the dispatcher's queue sender |
| `ServerTasks.IngestSpawnsPerRequest` | crates/patina-rpc/src/server.rs:233-248 | One worker per request, in order, none for other frames, and nothing waited for |
| `ServerTasks.Connection.RunWorker` | crates/patina-rpc/src/server.rs:238-243 | A worker turns its request into the dispatched reply and is gone |
| `ServerTasks.Connection.PushReply` | crates/patina-rpc/src/server.rs:240-242 | The reply enters the queue, or is dropped if the writer is gone |
| `ServerTasks.Connection.WriterLoop` | crates/patina-rpc/src/server.rs:294-305 | The writer loop over the queue, up to its exit or its wait for more, computes the function whose meaning the next two rows state |
| `ServerTasks.WriterLoopForwards` | crates/patina-rpc/src/server.rs:298-305 | Replies go out in queue order; the first failed send ends the writer and drops exactly the rest; otherwise the writer ends if and only if every queue sender is gone |
| `ServerTasks.WritesAreActions` | crates/patina-rpc/src/server.rs:298-303 | A reply received and sent, or received and its send failed, is two actions of the transition system |
| `Varint.VarintRoundTrip` | crates/patina-rpc/src/codec.rs:66-67 | Every integer of a width survives encoding, whatever follows, and exactly its own bytes are read |
| `Varint.MarkerBytes` | crates/patina-rpc/src/codec.rs:7-8 | The first value of each varint size, with its marker byte |
| `Varint.LittleEndian` | crates/patina-rpc/src/codec.rs:7-8 | Multi-byte integers have their least significant byte first |
| `Varint.WideMarkersRefused` | crates/patina-rpc/src/codec.rs:213-226 | Marker 255 and 254 are refused at every width, and wider markers than the type wants |
| `Varint.VarintAcceptedIff` | crates/patina-rpc/src/codec.rs:66-67 | Exactly which byte strings are read as an integer of a width: a byte up to 250, or a marker the width allows with all its bytes |
| `Varint.LongFormsAccepted` | crates/patina-rpc/src/codec.rs:66-67 | Longer forms than necessary are read with their value too |
| `Varint.ByteOrders` | crates/patina-rpc/src/codec.rs:11-14 | The frame prefix is big-endian and the body little-endian, on bytes that all differ |
| `Primitives.ValidIsText` | crates/patina-rpc/src/envelope.rs:24-28 | Byte strings accepted as strings are encodings of Unicode scalar values |
| `Primitives.TextIsValid` | crates/patina-rpc/src/envelope.rs:24-28 | And every such encoding is accepted |
| `Varint.VarintIsShortest` | crates/patina-rpc/src/codec.rs:7-8 | No byte string that decodes to the same integer is shorter than the encoding |
| `Envelopes.BodyRoundTrip` | crates/patina-rpc/src/envelope.rs:12-43 | Decoding an encoded envelope followed by any tail gives the envelope and leaves exactly the tail |
| `Envelopes.BodyPrefixFree` | crates/patina-rpc/src/codec.rs:66-67 | No strict prefix of an encoded envelope decodes to anything |
| `Envelopes.BodyInjective` | crates/patina-rpc/src/envelope.rs:12-43 | Encodings that agree up to tails come from the same envelope |
| `Envelopes.RequestLayout` | crates/patina-rpc/src/envelope.rs:13-28 | A request is variant 0, then id, length and bytes of the method, length and bytes of the payload |
| `Envelopes.ResponseLayout` | crates/patina-rpc/src/envelope.rs:13-35 | A response is variant 1, then id, length and bytes of the payload |
| `Envelopes.ErrorLayout` | crates/patina-rpc/src/envelope.rs:13-43 | An error is variant 2, then id, code, length and bytes of the message |
| `Envelopes.HeartbeatLayout` | crates/patina-rpc/src/envelope.rs:17-17 | A heartbeat is the one byte 3 |
| `Envelopes.UnknownVariantRefused` | crates/patina-rpc/src/envelope.rs:13-18 | A variant number that does not exist or does not fit 32 bits is refused |
| `Envelopes.StringsAreUtf8` | crates/patina-rpc/src/envelope.rs:24-28 | A string field is refused exactly when its bytes are missing or are not UTF-8 |
| `Envelopes.RequestBodySize` | crates/patina-rpc/src/envelope.rs:23-28 | With lengths below 2^32 a request body takes at most 20 bytes over method and payload, and exactly 20 iff the id needs 64 bits and both lengths 32 |
| `Envelopes.RequestBodySizeAttained` | crates/patina-rpc/src/envelope.rs:23-28 | That bound is reached |
| `WireCodecs.LengthDelimitedCodec.DecodeFrame` | crates/patina-rpc/src/codec.rs:62-65 | One call of the framing decoder on its state and mutable buffer is the step function |
| `WireCodecs.WireCodec.Decode` | crates/patina-rpc/src/codec.rs:62-70 | One call of the decoder on its state and mutable buffer is the step function |
| `WireCodecs.WireCodec.Encode` | crates/patina-rpc/src/codec.rs:76-81 | Succeeds exactly when the body is within the cap, and then appends exactly one frame; otherwise the buffer is unchanged |
| `WireCodecs.ChunkIndependence` | crates/patina-rpc/src/codec.rs:141-166 | For arbitrary bytes in arbitrary chunks, at every point the stateful decoder has delivered and failed exactly as a one-shot parse of all bytes so far says, and, as long as it has not failed, kept exactly the same rest |
| `WireCodecs.StreamRoundTrip` | crates/patina-rpc/tests/loopback.rs:50-89 | However the concatenated frames are cut, the decoder yields the envelopes in order and ends at a frame boundary with an empty buffer |
| `WireCodecs.StreamPrefix` | crates/patina-rpc/src/codec.rs:141-166 | Before the stream is complete the decoder has delivered a prefix of the envelopes and not failed |
| `WireCodecs.FrameParses` | crates/patina-rpc/src/codec.rs:43-49 | A frame from an encoder with a cap no larger is accepted in full |
| `WireCodecs.OversizedPrefix` | crates/patina-rpc/src/codec.rs:198-211 | An oversized prefix is refused from its four bytes alone with nothing consumed, and a smaller one never is |
| `WireCodecs.FrameDecides` | crates/patina-rpc/src/codec.rs:62-70 | For any body within the cap the decoder yields the envelope the body starts with, or a decode error, and leaves exactly what follows the frame |
| `WireCodecs.FrameTailDiscarded` | crates/patina-rpc/src/codec.rs:66-67 | Bytes after the envelope inside its frame are discarded |
| `WireCodecs.DefaultCap` | crates/patina-rpc/src/codec.rs:24-24 | The default cap is 64 MiB exactly |
| `WireCodecs.WireExamples` | crates/patina-rpc/src/codec.rs:131-138 | Concrete bytes, among them the five-byte heartbeat frame and an unreadable body |
| `Schema.ValueRoundTrip` | crates/patina-rpc/src/lib.rs:61-72 | Every value built from integers, floats, booleans, strings, options, sequences, tuples or structs, and enums survives encoding and decoding with any tail, and exactly its bytes are read |
| `Schema.PayloadExamples` | crates/patina-rpc/src/lib.rs:58-64 | Concrete payload bytes: zigzag for signed integers, a raw signed byte, option and boolean tags, no tuple header |
| `Schema.DecodeSound` | crates/patina-rpc/src/lib.rs:68-72 | Whatever bytes the peer sent, a successful decode has the requested type |
| `Schema.ScalarLayout` | crates/patina-rpc/src/lib.rs:61-64 | The bytes of every integer (zigzag when signed), float, boolean and string |
| `Schema.OptLayout` | crates/patina-rpc/src/lib.rs:61-64 | An option is a tag byte, then the value if there is one |
| `Schema.ListLayout` | crates/patina-rpc/src/lib.rs:61-64 | A sequence is its length, then its elements in order |
| `Schema.TupleLayout` | crates/patina-rpc/src/lib.rs:61-64 | A tuple is its elements in order with no header |
| `Schema.EnumLayout` | crates/patina-rpc/src/lib.rs:61-64 | An enum is its variant number, then that variant's fields |
| `Schema.BadTagsRefused` | crates/patina-rpc/src/lib.rs:68-72 | Boolean and option tags above 1 are refused |
| `Schema.UnknownCaseRefused` | crates/patina-rpc/src/lib.rs:68-72 | A variant number beyond the enum's variants is refused |
| `Schema.NonUtf8Refused` | crates/patina-rpc/src/lib.rs:68-72 | A string that is not UTF-8 is refused |
| `Schema.LongerTupleDecodesAsPrefix` | crates/patina-macros/src/expand.rs:134-135 | A longer argument tuple read with a shorter parameter list decodes as its prefix, the rest discarded |
| `Schema.ShorterTupleRefused` | crates/patina-macros/src/expand.rs:134-135 | A shorter argument tuple is refused iff some missing parameter has a non-empty encoding |
| `Stubs.RemoteEqualsLocal` | crates/patina-macros/src/expand.rs:79-86 | Through two codecs, with both frames cut arbitrarily: the server sees exactly the proxy's request and the caller gets the normalised local result |
| `Stubs.DispatchRunsLocal` | crates/patina-macros/src/expand.rs:132-139 | Dispatching a proxy's request runs the local implementation on exactly its arguments; the reply is the encoded value or the converted error |
| `Stubs.ProxyRequestText` | crates/patina-macros/src/expand.rs:80-85 | A proxy sends the wire name and its arguments' encodings in order |
| `Stubs.ExtraBytesIgnored` | crates/patina-macros/src/expand.rs:132-139 | A request under a served wire name whose payload starts with the method's arguments runs the local implementation on those, whatever bytes follow |
| `Stubs.LongerCallRunsPrefix` | crates/patina-macros/src/expand.rs:132-139 | So a call with further arguments at the end is answered for the ones the server knows |
| `Stubs.ProxyOutcome` | crates/patina-macros/src/expand.rs:83-86 | A proxy method passes the call's error on as it is, returns the value its reply starts with, or a 400 if it starts with none |
| `Stubs.BadPayloadIs400` | crates/patina-rpc/src/lib.rs:66-72 | A payload that does not decode as the method's parameters is answered 400 under the request's id |
| `Stubs.HopsCollapse` | crates/patina-rpc/src/error.rs:80-84 | A chain of any positive number of proxying hops equals one hop |
| `Stubs.SwappedParametersDecodeSilently` | DESIGN.md:250-270 | Swapping two parameters of one type decodes without error, each name bound to the other's value |
| `Stubs.AddedServiceIsServed` | crates/patina-rpc/src/server.rs:198-210 | After adding a service each of its wire names leads to it |
| `Errors.NormaliseIdempotent` | crates/patina-rpc/src/server.rs:61-68 | The error normalisation is idempotent, and leaves exactly values and remote errors alone |
| `Errors.RemoteKept` | crates/patina-rpc/src/server.rs:64-64 | A remote error keeps code and message |
| `Errors.OthersAre500` | crates/patina-rpc/src/server.rs:65-65 | Any other error becomes a 500 with the error's own text |
| `Registry.WireNameInjective` | crates/patina-macros/src/expand.rs:181-183 | A wire name determines trait and method |
| `Registry.WireNameText` | crates/patina-macros/src/expand.rs:181-183 | A wire name is the trait, two colons and the method |
| `Registry.CustomHandlerRuns` | crates/patina-rpc/src/server.rs:266-276 | A request under a name bound to a user's handler runs it on the request's own payload, and the answer carries the request's id and the handler's bytes, or its code and message |
| `Registry.UnregisteredIs404` | crates/patina-rpc/src/server.rs:275-280 | A name nobody registered is answered 404 under the request's id, naming the method |
| `Registry.UnknownArmIs404` | crates/patina-macros/src/expand.rs:167-172 | A service asked for a method it does not have answers 404, naming the method |
| `Registry.PayloadTailDiscarded` | crates/patina-rpc/src/lib.rs:68-70 | A payload's value decides; whatever bytes follow it are discarded |
| `Registry.PayloadOutcome` | crates/patina-rpc/src/lib.rs:68-72 | A payload is read as the value it starts with, or refused with a 400 if it starts with none |
| `Registry.ServerBuilder.Register` | crates/patina-rpc/src/server.rs:190-193 | The registry gains exactly this binding, as the last builder call |
| `Registry.ServerBuilder.AddService` | crates/patina-rpc/src/server.rs:198-210 | The loop inserts exactly the service's bindings, in order |
| `Registry.LookupIsLastRegistration` | crates/patina-rpc/src/server.rs:187-215 | After any builder calls, lookup finds exactly the last registration made for the name |
| `Registry.LastCallWins` | crates/patina-rpc/src/server.rs:187-211 | In the builder's terms: the last call that binds a name, by itself or through a service's method, decides its handler |
| `Registry.UncalledIsAbsent` | crates/patina-rpc/src/server.rs:187-211 | A name no call binds is absent |
| `Registry.ServicesCommute` | crates/patina-rpc/src/server.rs:195-210 | Services of different trait names can be added in either order |
| `Registry.RegisteredNamesHaveArms` | crates/patina-macros/src/expand.rs:159-174 | A request reaching a generated service through its registered name never falls into that service's 404 arm |

## Left out

- Sockets, `connect`, the accept loop, tracing, `Arc` sharing and mutex poisoning: input/output or no decision of their own. Map operations are atomic, wires are FIFO, and end of stream, decode errors and send failures are actions that may happen at any time.
- The wires of `Link` carry envelopes; `Stack.BytesCarryTheWires` relates them to bytes. That a frame over the cap makes the send fail is not forced there: it is one of the causes of the failure actions, which `Liveness.Up` excludes.
- Liveness.SettlingPlan: its plan lets every running handler return; that handlers do return is not claimed.
- ClientTasks.Client.StartCall: runs its three actions without interruption, so a late insert cannot happen inside it; `CheckToken`, `TakeId` and `Register` are the same steps one by one, between which anything may happen.
- ClientTasks.Client.ReaderLoop: runs without interruption by other parties, on a given list of events with one that breaks the loop; interleavings are covered by its steps, which are actions of the transition system, of which `ReaderLoopIsRun` shows the loop to be a run.
- ClientTasks.Client.WriterLoop: likewise uninterrupted, so requests enqueued while it runs appear only in the transition system.
- ServerTasks.Connection.ReadLoop: likewise; workers finishing while it runs appear only in the transition system.
- ServerTasks.Connection.WriterLoop: uninterrupted, so it covers the replies already queued; where the source waits for more, the method returns.
- A caller whose check finds the token cancelled leaves no trace in the state, so its immediate `Closed` is only the result of `ClientTasks.Client.StartCall`.
- Registry.RunArm: an implementation is a function of method and arguments; state kept by a handler between calls is not modelled.
- Schema.ValueRoundTrip: covers integers up to 64 bits, floats as their bits, booleans, strings, options, sequences, tuples, structs and enums; `char`, maps, 128-bit integers and hand-written serde code are absent, and so is the 500 for values that cannot be serialised.
- The wording of bincode errors after `decode: `, and the decimal rendering inside `remote error {code}: ...`, which no branch of the code looks at.
- Memory exhaustion: a length field larger than the input is a decode failure, not an attempt to allocate.
- Caps of 2^32 and more, for which the prefix cannot express the cap.
- Trait parsing and validation (`crates/patina-macros/src/model.rs`): traits with distinct method names are the input.
- Heartbeat sending and the streaming extension: not implemented in the repository.

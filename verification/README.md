# Verification of websocket-stt-bench

A Dafny model of the parts of the benchmark whose correctness is not visible in
any one function, with machine-checked proofs about every run of the model:

- **The rust-sync gateway** (`Stub`, `Http`, `Inference`, `Session`, `WsLoop`,
  `Gateway*`): two threads, the WebSocket loop with its timer heap and the inference
  loop with its slot pool, joined by two FIFO channels. Its runs are all
  interleavings of the two threads with timeouts, aborts, late results, redials and
  closes. `Connection`, `InferencePool` and `EventLoops` are the same code as
  objects updated in place, each method proved equal to the function the step
  system uses.
- **The client's verifier and its oracle** (`Verify`, `Generator`, `StubTheorems`),
  composed with every run of the gateway in `EndToEnd` and, with time, in `TailBound`.
- **The load generator's books** (`Ledger`, `Loadgen`, `LoadgenTasks`), the verdict
  computed from them (`EvalSlo`), and both together with the gateway (`Benchmark`).
- **The capacity search** (`Sweep`).
- **The Bun gateway's outbox and backlog cap** (`Outbox`, `BunSession`).
- **The Java gateway's close protocol and message reassembly** (`JavaClose`,
  `JavaReceive`), against sections 5.4 and 5.5.1 of RFC 6455.

`dafny verify dfyconfig.toml` checks the project.

## Assumptions about the environment

- A handler runs to completion before the next handler of the same thread; threads
  interleave between handlers, and in `JavaClose` between single actions.
- A server answers each complete request on a socket once, in order (`Replies`);
  `GoodPeer` adds that each answer is one well-formed response and, if successful,
  is the stub's result for the request's body. What is not about answers being right
  is proved without `GoodPeer`.
- Readiness events reach only slots that hold an open socket. What sockets, clocks,
  random jitter, dials and measurements return is an input, with no further
  restriction unless a lemma states one.
- UTF-8 and JSON decoding are function parameters; a start message is a predicate;
  encoding a response never fails. A slot takes its response parser as a function
  value; `Http.ParserOf` is the one the code uses.
- In `TailBound` and what is built on it, `late` bounds how far the loop's clock
  passes the deadline of an open connection, `net` how long a sent frame takes to arrive, and
  frames are sent at least 20 ms apart.
- An rms is represented by its square, an exact non-negative number; the products
  with 1.1, 0.85 and 0.25 in the capacity search are exact.

## Where the code and its documentation part ways

- Java's limit of 1024 characters for a start message applies to fragmented
  messages only. `TextFragmentsSameIff` gives the exact condition under which
  fragmenting makes no difference, `LongStartDiffers` a message for which it does.
- A response that has arrived in full is lost when the end of the stream is read in
  the same drive, because the read loop reports the end before anything is parsed
  (`ReplyThenCloseIsLost`). `ChunkingIrrelevant` gives the exact condition under which
  the answer does not depend on how the response is cut into reads.
- Bun's backlog cap is documented to survive a stall of another full longest wait.
  With ticks up to `late` late some run hits the cap if and only if the longest wait
  plus `late` reaches the time the cap's frames take (`CapFiresIff`). A full wait is
  therefore survived if and only if the longest wait is not a whole number of frames
  (`FullStall`). At the defaults it is one, and a stall of 3000 ms hits the cap.
- Java's shutdown is documented to keep Helidon's close frame from interleaving with a
  partial or being followed by one. Every violation in any run goes back to a step in
  which the receive thread gives up on the lock. After that step writes can overlap if
  and only if a partial was in flight, checked against the closed flag and not yet
  written out; a partial can start after Helidon's close if and only if its write had
  not begun (`GiveUpDecides`, `WritesNeverOverlap`, `SilentAfterClose`).
- A Java session shut down by its writer thread between two fragments may behave
  differently from one that received the message whole; `FragmentsSameIff` says when.

## Model

| member | source | states |
|---|---|---|
| GatewayTheorems.PartialsAreTruthful | services/rust-sync/src/session.rs:241-321 | in every state of every interleaving, a partial sent for frames o..n of a connection carries the stub's answer to exactly that connection's frames o..n in order |
| GatewayTheorems.FramesAreTiled | services/rust-sync/src/session.rs:159-321 | in every state the answered ranges, the pending batch and the buffer tile 1..seq, and each flushed batch was answered exactly once, in order, except the one still pending |
| GatewayTheorems.AbortFreesOnlyGivenUpBatch | services/rust-sync/src/inference.rs:398-407 | in every state each connection holds at most one slot, and executing the abort at the head of the queue leaves its owner without a slot and changes no slot that serves a still pending batch |
| GatewayTheorems.NoSlotLeaks | services/rust-sync/src/inference.rs:313-421 | free list and owned slots partition the pool, and a slot with no queued command of its owner serves the batch an open connection is waiting for |
| GatewayTheorems.PendingIsUnderWay | services/rust-sync/src/main.rs:156-202 | a pending batch is never forgotten: its submit is queued, or it occupies a slot, or its result is on its way back |
| GatewayProof.NextKeeps | services/rust-sync/src/main.rs:112-203 | every step of either thread keeps the invariant that ties the command queue, the slots, the results under way and the pending batches together |
| GatewayProof.RunInv | services/rust-sync/src/inference.rs:491-570 | every reachable state of the two threads satisfies that invariant |
| GatewayProof.OwnerFinishes | services/rust-sync/src/inference.rs:363-392 | a completed slot hands its batch over to the result queue without breaking the per-owner protocol |
| GatewayProof.OwnerStarts | services/rust-sync/src/inference.rs:334-359 | starting a submitted batch in a free slot keeps the per-owner protocol |
| GatewayProof.OwnerAborted | services/rust-sync/src/inference.rs:398-407 | executing an abort keeps the per-owner protocol |
| GatewayProof.OwnerTakesResult | services/rust-sync/src/session.rs:241-252 | a result that matches the pending tag ends the batch, and any other result changes nothing of it |
| GatewayProof.ConnReady | services/rust-sync/src/inference.rs:363-392 | what a slot reports is the answer to the request it held, so whatever carries a connection's tag keeps carrying its audio or the answer to it |
| GatewayProof.ConnFlushes | services/rust-sync/src/session.rs:193-229 | after a flush the only thing that carries the new tag is the new command, with the buffered audio |
| EndToEnd.GatewayIsAccepted | loadgen/rust/src/verify.rs:181-328 | for every run of the gateway and every prefix of what a client has seen, continuity reports nothing and every partial within the verifier's range limit passes recomputation |
| EndToEnd.PunctualGatewayIsAccepted | loadgen/rust/src/verify.rs:181-277 | with timers at most `late` late and frames at most `net` under way, every partial an open connection has sent passes recomputation, whatever its range |
| EndToEnd.TrackerIsReported | loadgen/rust/src/verify.rs:281-326 | the continuity tracker of a client that has heard everything stands exactly at the newest frame the connection has answered |
| EndToEnd.SentGrows | services/rust-sync/src/session.rs:255-321 | over a whole run what a connection has sent is only ever extended |
| Inference.DriveKeeps | services/rust-sync/src/inference.rs:182-295 | one readiness event: a free slot never completes or redials; a busy one waits in a legal state, completes with a socket that has carried whole requests only, or drops its socket and every octet received on it to resend from octet 0, once per request; a successful reply is the answer to the slot's own request |
| Inference.ResentAtMostOnce | services/rust-sync/src/inference.rs:278-295 | over any sequence of readiness events one request is resent at most once |
| Inference.ChunkingIrrelevant | services/rust-sync/src/inference.rs:222-255 | for every list of drives of a receiving slot: if everything read is a complete response, the slot finishes with the answer parsing it in one piece gives if and only if no drive, up to the one with the last octet of the response, also reads the end of the stream or an error; if it is not, the slot finishes with a reset or not at all |
| Inference.HolderCompletes | services/rust-sync/src/inference.rs:234-255 | the drive with the last octet is the first after which the octets read so far are a complete response |
| Inference.ReplyThenCloseIsLost | services/rust-sync/src/inference.rs:226-233 | a complete response finishes the request, but with the end of the stream read in the same drive it is thrown away: the request is sent again, or reported as reset if it had been already |
| Inference.SendLoopWrites | services/rust-sync/src/inference.rs:204-221 | for any pattern of partial writes the octets written are exactly the next octets of the request, in order |
| Inference.ReadLoopReads | services/rust-sync/src/inference.rs:222-233 | for any read results the response buffer grows by exactly the octets read |
| Inference.ServedWhole | services/rust-sync/src/inference.rs:157-171 | a socket that has carried whole requests only is owed exactly their replies |
| Inference.SubmitKeeps | services/rust-sync/src/inference.rs:334-359 | a submission keeps the pool invariant; it takes a free slot, or is refused at once with every owned slot unchanged |
| Inference.OnEventKeeps | services/rust-sync/src/inference.rs:363-392 | an event keeps the pool invariant, touches only its slot, and reports only what that slot owned |
| Inference.AbortKeeps | services/rust-sync/src/inference.rs:398-407 | an abort keeps the pool invariant, frees the first slot of the owner and drops its socket, or changes nothing |
| Inference.RecycleKeeps | services/rust-sync/src/inference.rs:412-421 | returning a slot keeps the free list a duplicate-free list of exactly the unowned slots |
| Inference.NewPoolInv | services/rust-sync/src/inference.rs:314-324 | a new pool satisfies the pool invariant |
| Http.SelfDelimiting | services/rust-sync/src/inference.rs:157-171 | an octet stream begins with at most one encoded request |
| Http.SegmentsUnique | services/rust-sync/src/inference.rs:157-171 | an octet stream splits into whole requests and a remainder in at most one way |
| Http.RequestsOf | services/rust-sync/src/inference.rs:157-171 | the requests a server finds in a stream are exactly those written to it in full |
| Http.ParseStable | services/rust-sync/src/inference.rs:586-626 | once the response parser answers, no further octet changes its answer |
| InferencePool.PoolSlot.SendAll | services/rust-sync/src/inference.rs:204-221 | the write loop leaves the slot and the socket where the recursive specification does |
| InferencePool.PoolSlot.ReadAll | services/rust-sync/src/inference.rs:222-233 | the read loop leaves the slot and the socket where the recursive specification does |
| InferencePool.PoolSlot.Run | services/rust-sync/src/inference.rs:189-276 | the loop over the slot states terminates and leaves slot and socket where the specification does, for every socket behaviour |
| InferencePool.PoolSlot.Drive | services/rust-sync/src/inference.rs:182-187 | the drive as a whole agrees with its specification |
| InferencePool.Pool.Submit | services/rust-sync/src/inference.rs:334-359 | pool and report afterwards are the specified ones; no other slot object is replaced |
| InferencePool.Pool.OnEvent | services/rust-sync/src/inference.rs:363-392 | pool and report afterwards are the specified ones |
| InferencePool.Pool.FindOwner | services/rust-sync/src/inference.rs:398-407 | the scan returns the first slot of the owner, or none |
| InferencePool.Pool.AbortOwner | services/rust-sync/src/inference.rs:398-407 | the pool afterwards is the specified one |
| Session.OnMessageOk | services/rust-sync/src/session.rs:141-186 | whatever arrives, the accepted payloads, the buffer and its metadata stay in step |
| Session.OnTimerOk | services/rust-sync/src/session.rs:193-220 | a tick flushes exactly the buffered frames as the next range, or keeps everything |
| Session.BeginPendingOk | services/rust-sync/src/session.rs:225-229 | the flushed ranges keep tiling |
| Session.DeliverOk | services/rust-sync/src/session.rs:255-321 | the answer sent is for the oldest unanswered range |
| ConnectionObject.Connection.OnReadable | services/rust-sync/src/session.rs:141-186 | the read loop leaves the connection where handling the messages one by one does |
| ConnectionObject.Connection.OnDone | services/rust-sync/src/session.rs:241-252 | the result is delivered if and only if the connection changes, and then as specified |
| ConnectionObject.ReadAllProtocol | services/rust-sync/src/session.rs:141-186 | frames before an offending message are all kept, in order; a wrong size closes with 1003, text with 1002, and anything but a start message before the start with 1002, keeping nothing of it |
| WsLoop.TimerPassSettles | services/rust-sync/src/main.rs:156-193 | a timer pass terminates, and afterwards every connection that stays open has exactly one heap entry, later than now and no later than its deadline |
| WsLoop.TakeTimerLess | services/rust-sync/src/main.rs:156-193 | each iteration of the timer loop makes its termination measure smaller |
| WsLoop.TakeTimerOk | services/rust-sync/src/main.rs:156-193 | each iteration keeps one heap entry per open connection, never later than its deadline |
| WsLoop.AcceptOk | services/rust-sync/src/main.rs:206-233 | accepting a connection keeps the heap invariant, whether or not it could be registered |
| WsLoop.ReapOk | services/rust-sync/src/main.rs:195-202 | closing a connection keeps the heap invariant |
| EventLoops.WsThread.Accept | services/rust-sync/src/main.rs:206-233 | connection map, heap and next id afterwards are the specified ones |
| EventLoops.WsThread.DrainResults | services/rust-sync/src/main.rs:132-141 | draining results in a loop equals taking them one by one |
| EventLoops.WsThread.OnTimerEntry | services/rust-sync/src/main.rs:156-193 | one due entry: connections, heap, closing list and commands afterwards are the specified ones |
| EventLoops.WsThread.RunTimers | services/rust-sync/src/main.rs:156-193 | the loop terminates, sends the specified commands, and leaves no connection that stays open overdue |
| EventLoops.WsThread.CloseAll | services/rust-sync/src/main.rs:195-202 | the closing list is empty afterwards, and an abort was sent for exactly the closed connections with a pending batch |
| EventLoops.DrainCommands | services/rust-sync/src/inference.rs:528-545 | executing the drained commands in a loop gives the specified pool and results, in order |
| StubTheorems.RunStub | crates/stt-stub/src/lib.rs:30-69 | the nested loop computes the specified result for every payload and pass count |
| StubTheorems.ClosedForm | crates/stt-stub/src/lib.rs:30-69 | samples and squares scale with the passes, and crossings are passes times those inside one pass plus one possible wrap-around per further pass |
| StubTheorems.OneSampleChangesChecksum | crates/stt-stub/src/lib.rs:42-48 | at one pass, payloads that differ in exactly one sample never share a checksum |
| StubTheorems.PrimeInjective | crates/stt-stub/src/lib.rs:47-48 | multiplication by the FNV prime is injective on 32-bit words |
| Generator.MixUndone | loadgen/rust/src/protocol.rs:117-121 | mix64 has a left inverse |
| Generator.UnmixUndone | loadgen/rust/src/protocol.rs:117-121 | and it is a right inverse too: mix64 is a bijection |
| Generator.SeedsDistinct | loadgen/rust/src/protocol.rs:148-151 | two frames of one session, or one frame number in two sessions, never share a seed |
| Generator.PayloadDecodes | loadgen/rust/src/protocol.rs:152-164 | every sample lies within +-10256 and the little-endian octets decode back to it, so the 16-bit cast loses nothing |
| Generator.CarrierNext | loadgen/rust/src/protocol.rs:160-163 | stepping and wrapping the carrier follows (start + 17 i) mod 20000 |
| Generator.GenerateFrame | loadgen/rust/src/protocol.rs:148-166 | the loops fill the buffer with the closed form of the frame |
| Verify.Continuity.Observe | loadgen/rust/src/verify.rs:298-326 | verdict and tracker afterwards are the specified ones |
| Verify.AcceptedIffTiles | loadgen/rust/src/verify.rs:281-326 | a list of ranges yields no mismatch if and only if it tiles 1..n in order, and the tracker is then n |
| Verify.NextRangeAccepted | loadgen/rust/src/verify.rs:298-326 | after any history, malformed or stale ranges included, the next range is accepted if and only if it starts right after the highest frame reported |
| Verify.AcceptanceMeansCoverage | loadgen/rust/src/verify.rs:333-345 | no continuity, unsent or tail mismatch means every sent frame was reported exactly once, except at most the last 300, reported at most once |
| Verify.ConcatPayload | loadgen/rust/src/verify.rs:150-159 | the loop rebuilds exactly the audio of the range |
| Verify.PassesIffHonest | loadgen/rust/src/verify.rs:181-277 | a partial passes if and only if its range is well-formed and within the limit, its counts and configuration are right and its values are the stub's answer to exactly the frames the session sent, the rms up to the tolerance |
| Verify.RmsMatchesMeans | loadgen/rust/src/verify.rs:173-176 | comparing the squares as the model does is comparing the values as the code does: a difference of at most 1e-6, or of at most 1e-6 of the expected value |
| Verify.VerifyPartial | loadgen/rust/src/verify.rs:181-277 | the mismatches pushed are exactly the failed comparisons |
| TailBound.UnansweredFrameAge | services/rust-sync/src/session.rs:193-220 | in every run of the two threads, on every open connection that is handled at most d late, no unanswered frame is older than F + 2T + 3d, and no flushed range spans more frames than F + 2T + 4d + n ms hold, n being the time a frame is under way |
| TailBound.Followed | services/rust-sync/src/main.rs:112-203 | every open connection of a gateway run can be followed by the one-connection timed machine |
| TailBound.TailNeverMissing | loadgen/rust/src/verify.rs:333-345 | so at the code's flush interval F and with 3d + n < F the tail check over the frames sent, received or not, never fires on such a connection |
| Ledger.CleanBook | loadgen/rust/src/main.rs:282-323 | when all counted partials are verified and no error is counted, recomputation found nothing wrong with any of them |
| Ledger.VerifyKeeps | loadgen/rust/src/main.rs:394-410 | a turn of the verifier thread keeps the books: each message in one place, flagged exactly if a check on it failed |
| Ledger.SubmitKeeps | loadgen/rust/src/main.rs:433-447 | so does handing a job over, whether the queue takes it or is full |
| Loadgen.PartialsConserved | loadgen/rust/src/main.rs:433-447 | in every run each counted partial is verified, dropped, skipped or queued; with every partial selected and the queue drained, partials = verified + dropped |
| Loadgen.ErrorsExact | loadgen/rust/src/main.rs:934-1107 | errors counts messages and ended sessions at most once each; a message is counted exactly when some check run on it failed; after draining the checks have run on every message but those of sessions cancelled during a handover |
| Loadgen.PassMeansHonest | scripts/bench/eval_slo.py:121-133 | when the gates on errors and verification hold, some partial was counted, and every counted partial continues its session's ranges and carries the stub's answer to exactly its frames, the rms up to the tolerance |
| Loadgen.NextKeeps | loadgen/rust/src/main.rs:934-1107 | every step of a session task or the verifier thread keeps the books |
| Benchmark.GatewayPasses | loadgen/rust/src/verify.rs:181-326 | what a punctual gateway connection sends until it is closed, a failure or a partial, passes every check of the load generator in the order sent |
| Benchmark.ReportsWhatWasRead | loadgen/rust/src/main.rs:1040-1050 | a response reports only frames the gateway had read when it sent it, so the unsent-frame check cannot fire on it |
| Benchmark.NoMissingTail | loadgen/rust/src/main.rs:887-902 | a session that has heard everything its connection sent passes the tail check, whatever is still unanswered |
| Benchmark.NeverAnError | loadgen/rust/src/main.rs:934-1107 | in every run of session tasks and verifier thread in which connections that pass are heard in order, after the frames they report were sent, and sessions end with a tail within the tolerance, no error is ever counted, whatever is sampled, dropped or cancelled |
| Benchmark.GatewayPointIsCorrect | scripts/bench/eval_slo.py:212-213 | however many sessions a prompt gateway with a good peer serves, whenever each of them connects and closes, no correctness error is counted in any state of the load generator, the one after all sessions have ended included; unsent frames and missing tails are ruled out by causality and timing, not assumed away |
| LoadgenTasks.Tasks.RecordMismatches | loadgen/rust/src/main.rs:282-323 | one error for the message, if there was any mismatch |
| LoadgenTasks.Tasks.SubmitVerify | loadgen/rust/src/main.rs:433-447 | the job is queued, or counted as dropped and recorded with what was found inline |
| LoadgenTasks.Tasks.ProcessInbound | loadgen/rust/src/main.rs:934-1077 | for every kind of message, books and tracker afterwards are the specified ones |
| LoadgenTasks.Tasks.SampleHandedOver | loadgen/rust/src/main.rs:1079-1107 | the partial is counted and then queued, dropped or recorded unverified, as specified |
| LoadgenTasks.Tasks.VerifyNext | loadgen/rust/src/main.rs:394-410 | the head job is recomputed, counted as verified and recorded once |
| LoadgenTasks.Tasks.CheckSessionTail | loadgen/rust/src/main.rs:887-902 | a session that sent in the window and has too long a tail is counted once |
| EvalSlo.Judge | scripts/bench/eval_slo.py:164-220 | PASS if and only if the summary is judgeable, every threshold holds, the load generator did not lag and verification is complete; FAIL if and only if judgeable and a gate is missed that lag does not explain |
| EvalSlo.FailedGates | scripts/bench/eval_slo.py:199-213 | the list is empty if and only if every threshold holds, and has only latency gates if and only if nothing else is missed |
| Sweep.Up | scripts/bench/homelab/sweep.py:345-347 | every step up moves at least one full step |
| Sweep.Down | scripts/bench/homelab/sweep.py:354-355 | every step down moves at least one full step |
| Sweep.MidInside | scripts/bench/homelab/sweep.py:360-364 | the rounded midpoint of a bracket wider than a step lies strictly inside, so the early exit is never taken |
| Sweep.Search.WalkUp | scripts/bench/homelab/sweep.py:343-351 | the walk up terminates for every outcome sequence and brackets, or ends above three times the prior |
| Sweep.Search.WalkDown | scripts/bench/homelab/sweep.py:352-359 | the walk down terminates for every outcome sequence and brackets, or ends at the smallest count |
| Sweep.Search.Bracket | scripts/bench/homelab/sweep.py:337-368 | lo passed and hi did not, no probed count contradicts them, and when both exist they are at most one step apart; without lo the walk ended at one step, without hi above three times the prior |
| Sweep.Search.Settle | scripts/bench/homelab/sweep.py:373-376 | re-measuring ends with two passes and nothing else, or with something else than a pass |
| Sweep.Search.Confirm | scripts/bench/homelab/sweep.py:369-391 | the result is the highest probed count with two passes and nothing else, none only if none qualifies, and sits one step below an unconfirmed count unless it is lo |
| Sweep.Search.Ceiling | scripts/bench/homelab/sweep.py:337-391 | for a gateway that passes exactly up to C the search confirms lo, with lo <= C < lo + step if some count did not pass and 3 * prior < lo <= C if all did; it confirms nothing only if C is below the smallest count tried, one step |
| Sweep.Classify | scripts/bench/homelab/sweep.py:404-437 | the first solid fail and the first count that was INVALID throughout are the least ones above the ceiling, and the borderline counts are exactly the mixed ones |
| Sweep.Summarize | scripts/bench/homelab/sweep.py:404-437 | the first solid fail is the least one, and the ceiling is bounded by the gateway if and only if a solid fail comes before every count that was INVALID throughout, by the harness if and only if such a count comes first |
| Outbox.EveryRun | services/typescript-bun/src/session.ts:272-352 | over all interleavings occupancy stays within the depth, delivered is a prefix of admitted, nothing but the close follows a dropped send, a queue at rest means back-pressure, no message is lost or duplicated short of a close, and waiters imply occupied + woken >= depth |
| Outbox.SilentAfterClose | services/typescript-bun/src/session.ts:336-343 | after a close nothing is sent, admitted or delivered any more, whatever follows |
| Outbox.EverythingSettles | services/typescript-bun/src/session.ts:285-334 | under every schedule of woken callers and socket drains, in any order, every message ever offered is delivered exactly once, unless a send is dropped |
| Outbox.CanMove | services/typescript-bun/src/session.ts:285-334 | while a message is on its way a woken caller or a drain can always move it: no deadlock |
| Outbox.NextKeeps | services/typescript-bun/src/session.ts:285-343 | every handler keeps the outbox invariant |
| Outbox.BoundedOutbox.CloseBox | services/typescript-bun/src/session.ts:336-343 | all waiters are woken in order and the outbox is empty and closed |
| Outbox.BoundedOutbox.SendAll | services/typescript-bun/src/session.ts:312-333 | the send loop stops where the specification does, at a drop, at back-pressure or at the end |
| Outbox.BoundedOutbox.DrainQueue | services/typescript-bun/src/session.ts:298-334 | the outbox afterwards is the specified one |
| Outbox.BoundedOutbox.TryPush | services/typescript-bun/src/session.ts:285-296 | the caller is parked if and only if the outbox is open and full, and the outbox afterwards is the specified one |
| BunSession.CapNeverFires | services/typescript-bun/src/config.ts:29-49 | if the longest wait plus the lateness of ticks stays below the time the cap's frames take, then in every timed run the session never closes with 1013, and the flushed ranges, each with exactly its frames, tile what was accepted |
| BunSession.CapFiresIff | services/typescript-bun/src/config.ts:29-49 | for every configuration and every lateness some timed run closes with 1013 if and only if that condition fails |
| BunSession.CapIsHit | services/typescript-bun/src/session.ts:112-115 | the run that hits the cap, built frame by frame for any configuration in which it can be hit |
| BunSession.FullStall | services/typescript-bun/src/config.ts:29-49 | a stall of exactly the longest wait can hit the cap if and only if that wait is a whole number of frames, any shorter stall cannot; at the defaults 3000 ms can and 2999 ms cannot |
| BunSession.RoomForFrame | services/typescript-bun/src/session.ts:112-115 | an arriving frame finds fewer than the cap already buffered |
| BunSession.HandleMessageOk | services/typescript-bun/src/session.ts:85-121 | whatever arrives, buffer, accepted payloads and the batch in flight stay in step |
| BunSession.FlushDueOk | services/typescript-bun/src/session.ts:181-211 | a flush takes exactly the buffered frames as the next range |
| BunSession.SttSession.Receive | services/typescript-bun/src/session.ts:85-121 | the session afterwards is the specified one for every message |
| BunSession.SttSession.TimerFired | services/typescript-bun/src/session.ts:165-211 | the session afterwards is the specified one |
| JavaClose.WritesNeverOverlap | services/java-helidon-nima/src/main/java/stt/session/Session.java:222-322 | in every interleaving writes under the send lock never overlap, and any two writes overlap, Helidon's own close included, only if at some earlier step the receive thread gave up on the lock with a partial in flight |
| JavaClose.AtMostOneClose | services/java-helidon-nima/src/main/java/stt/session/Session.java:248-264 | the session writes at most one close frame |
| JavaClose.SilentAfterClose | services/java-helidon-nima/src/main/java/stt/session/Session.java:248-322 | no partial or pong starts after the session's close frame; one starts after Helidon's only if at some earlier step the receive thread gave up on the lock while the writer stood between its check of the closed flag and its write |
| JavaClose.SilentAfterShutdown | services/java-helidon-nima/src/main/java/stt/session/Session.java:466-479 | once a thread that set the closed flag has had the lock, no partial or pong starts |
| JavaClose.PartialsInOrder | services/java-helidon-nima/src/main/java/stt/session/Session.java:289-322 | the partials written are a prefix of what was put in the outbox, in order |
| JavaClose.WedgedOverlaps | services/java-helidon-nima/src/main/java/stt/session/Session.java:466-479 | every run that ends with a give-up while a partial is in flight goes on to overlapping writes, and, if the write had not begun, to a partial that starts after Helidon's close |
| JavaClose.GiveUpDecides | services/java-helidon-nima/src/main/java/stt/session/Session.java:466-479 | after a give-up some continuation has overlapping writes if and only if a partial was in flight at that step, and some continuation has a partial starting after Helidon's close if and only if its write had not begun |
| JavaClose.GivingUpReachable | services/java-helidon-nima/src/main/java/stt/session/Session.java:466-479 | give-ups with any text in flight, its write begun or not, are reached |
| JavaReceive.FragmentsSameAsWhole | services/java-helidon-nima/src/main/java/stt/session/Session.java:159-218 | any fragmentation of a binary message ends in exactly the state the unfragmented message ends in, with drains by the flush thread in between, as long as no other thread closes the session meanwhile |
| JavaReceive.FragmentsSameIff | services/java-helidon-nima/src/main/java/stt/session/Session.java:159-218 | with closes by the writer thread as well, both end with the same frames, number, flag and code if and only if the session was closed before, or is not shut down during the message, or is shut down while the receive thread had no reason yet to close it itself |
| JavaReceive.FragmentedMessage | services/java-helidon-nima/src/main/java/stt/session/Session.java:159-218 | on an open session 640 bytes become one frame with the next number, or close with 1013 when the backlog is full; any other length buffers nothing and closes with 1003 |
| JavaReceive.TextFragmentsSameIff | services/java-helidon-nima/src/main/java/stt/session/Session.java:123-156 | fragmenting the first message makes no difference if and only if it is at most 1024 characters long or is no start message |
| JavaReceive.LongStartDiffers | services/java-helidon-nima/src/main/java/stt/session/Session.java:131-146 | a longer start message is accepted whole and refused in two pieces |
| JavaReceive.Session.OnBinaryMessage | services/java-helidon-nima/src/main/java/stt/session/Session.java:159-201 | filling the pending array in place gives the specified session, and no buffered frame changes with it |
| JavaReceive.Session.OnFragment | services/java-helidon-nima/src/main/java/stt/session/Session.java:173-201 | one fragment copied into the pending array gives the specified session |
| JavaReceive.Session.AppendFrame | services/java-helidon-nima/src/main/java/stt/session/Session.java:204-218 | the session takes ownership of the array, or closes with 1013 |
| JavaReceive.Session.OnTextMessage | services/java-helidon-nima/src/main/java/stt/session/Session.java:123-156 | the session afterwards is the specified one |
| JavaReceive.Session.DrainBuffer | services/java-helidon-nima/src/main/java/stt/session/Session.java:444-453 | the whole buffer is taken, in order |

## Left out

- mio, sockets, the HTTP upgrade handshake, WebSocket framing and DNS: they appear as inputs (readiness, octets, close).
- JSON encoding and decoding, error texts and log output: datatypes stand for the messages, a predicate for the start check.
- Ages and lateness in reports, histograms and percentiles: exact numbers stand for them.
- The Python, Go, rust-axum, C++, Elixir, Scala and OCaml gateways: the same session contract, so only easier copies of the same proofs.
- The inference server's latency sampling, jitter and semaphore: only what it answers matters here.
- The analysis package, charts, kubectl, helm and cAdvisor code, docker files and configuration parsing: reporting and I/O.
- The re-run of an INVALID point and the restart detection in sweep.py: one branch, the outcome of a measurement is an input.
- Error classification tables (status to kind): a single branch each.
- The checks for missing or non-numeric fields of a summary: the summary is a datatype, a summary that does not parse is `None`.
- Java's inflight flag, inference call and outbox capacity: the flush thread appears through its puts and its drains of the buffer, at any time.
- Bun's abort of the request in flight on close: the request simply ends.
- EndToEnd.GatewayIsAccepted: speaks of partials within the verifier's limit of 30000 frames, because the verifier refuses larger ranges without recomputing them.
- Verify.RmsMatchesMeans: exact numbers stand for floating-point ones, and, an rms being carried as its square, a negative one has no representation.
- TailBound.TailNeverMissing: time is in whole milliseconds.
- Http.ParseStable: header names and values are trimmed of ASCII white space only, where the code trims Unicode white space; header lines are octets here.
- BunSession.CapNeverFires: the outbox accepts each message at once, as the cap's own derivation assumes.
- Outbox.EverythingSettles: a schedule is any function of the outbox that names a woken caller, or a socket that has drained after pushing back, whenever one of the two is possible.

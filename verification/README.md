# Jovian, modelled in Dafny

Jovian runs R, Python and Stata kernels for applications: a TypeScript library queues executions and
manages sessions and installs, a C++ supervisor (themisto) owns the kernel processes and relays their
messages, and a playground shows the transcript. This project models the parts of it whose correctness
rests on state kept across events, threads or processes, or on an equivalence claimed for all inputs,
and proves what they are for.

`dafny verify dfyconfig.toml` checks everything.

- **Execution queue** (`ExecutionQueueSpec`, `...Moves`, `...Invariants`, `...Truth`, `...Theorems`,
  `...Waits`, `...Limits`, `...Settlements`, `ExecutionQueue`): the queue as a step function over events (submissions, messages, timers,
  interrupt answers, clears, time), theorems about every sequence of events, and the class with its
  mutable records, each entry point proved to make exactly the specified step.
- **Hold protocol** (`HoldProtocol`, `HoldOverlaps`, `HoldOutcomes`, `SessionManager`): sessions starting on a
  Python environment against installs into it, each await-free stretch one step.
- **Session registry** (`SessionRegistry`, `SessionRegistryPolls`, `SessionRegistryOutcomes`): stop, restart and
  send threads on one session id, under a recursive mutex, down to single steps, and what each comes to.
- **Relay** (`Framing`, `OutboxSpec`, `Outbox`, `Relay`, `RelayPipeline`): who owns a session's callbacks,
  the outbox and its sender thread, frames, and what arrives at the client.
- **Transcript** (`Transcript`, `TranscriptAgreement`, `TranscriptPasses`, `TranscriptLaws`, `TranscriptRuns`): the
  one-pass reducer against the message-by-message one, with the never capped transcript as the full text of
  both, and what each kind of message does to the screen.
- **UTF-8** (`Utf8Classes`, `Utf8`, `Utf8Theorems`, `Utf8CodePoints`): the 400-entry table and its
  bit operations against RFC 3629.
- **Library lock** (`LibraryLock`): create, read, judge, move aside, put back, by any number of processes.
- **Execution history** (`HistoryBounds`, `ExecutionHistory`, `HistoryLaws`): the list, map and entries that grow in place.
- **Query and access** (`Query`, `Access`), **cursor** (`Cursor`): printers and parsers, index maps.

`Folds` holds what runs and passes have in common, a step function taken along a sequence. In every step
machine an event that is not possible leaves the state as it is, so a run is any sequence of
events; `Relay` requires its runs to be possible ones instead.

## Where the code does not keep what it says

- `clear()` between a timeout and its interrupt's answer leaves that answer's continuation standing; it then
  sends a second execution beside one in flight (`ExecutionQueueLimits.ClearIsSafeIff`).
- `idleWaitMs` counts from the latest message, but a second `execute_reply` leaves the first one's fallback
  armed, set from that second reply on. So an execution in flight can still be resolved before its idle and
  before the wait is over, hearing no further reply, exactly when it has heard two
  (`ExecutionQueueLimits.ResolvesEarlyIffTwoReplies`); what was waited for then is stated by
  `ExecutionQueueTheorems.ResolvedAfterIdleOrWait`.
- Two holds on one environment are one map entry. Installs alone never overlap, but re-making an environment
  takes a hold without the library lock. That is safe, whatever follows, exactly when no job on the
  environment counts on the hold it has: works on what it may replace, or has looked and found nobody
  (`HoldOverlaps.TakingAHoldIsSafeIff`).
- `~SessionRegistry()` stops channels without joining the poll thread first, which `stopSession()` does: it
  stops them under the poll exactly when a kernel is listed whose poll thread has not ended by itself
  (`SessionRegistryPolls.DestructorStopsUnderPollIff`).
- `lockLibrary()` says that of several waiters none removes the lock another has just taken; a third process
  can create the lock while a fresh one is aside (`LibraryLock.ExclusiveIffTwo`).
- `applyMessages()` gives the first cell's outputs to every cell with the current key. It agrees with folding
  `applyMessage()` on every list of messages exactly when those cells look alike
  (`TranscriptAgreement.OnePassAgreesIff`); the playground's keys are distinct, which is enough.
- An empty query is one empty pair to `queryParameter()`: the empty key is found in it
  (`Query.PrintedIsRead`).

## Model

| member | source | states |
|---|---|---|
| ExecutionQueueTheorems.ExactlyOnce | lib/execution/execution-queue.ts:65-170 | In every run each submission is in exactly one of queued, in flight and settled, once there, and a settled one was settled once. |
| ExecutionQueueTheorems.SettledForGood | lib/execution/execution-queue.ts:149-170 | Whatever happens later, a settled submission keeps its one outcome and is not handed to the kernel (again). |
| ExecutionQueueTheorems.NeverStuck | lib/execution/execution-queue.ts:119-169 | In every run an in-flight execution has its timer armed, an idle fallback armed, no timeout, or was asked for input; one waiting on a reply has its fallback armed. |
| ExecutionQueueTheorems.HandedInOrder | lib/execution/execution-queue.ts:90-115 | Items reach the addon in submission order, and what never reached the kernel is still queued or settled with an outcome that says so. |
| ExecutionQueueTheorems.FirstSendable | lib/execution/execution-queue.ts:100-115 | The first queued item the addon accepts; everything before it is refused. |
| ExecutionQueueTheorems.ProcessNextStopsAtFirstSent | lib/execution/execution-queue.ts:90-115 | processNext() ends however many items the addon refuses: it stops at the first one the kernel takes, the others being rejected, or with nothing left and not executing. |
| ExecutionQueueTheorems.FailureTakesTheQueueDown | lib/execution/execution-queue.ts:215-239 | When a stopOnError execution ends by an error message or a reply that is not ok, every item queued then is resolved as aborted, once, and in every later state was never handed over. |
| ExecutionQueueTheorems.SubmissionAfterFailureRuns | lib/execution/execution-queue.ts:303-319 | The next submission after such a failure is handed over at once. |
| ExecutionQueueTheorems.SingleFlight | lib/execution/execution-queue.ts:83-147 | With no clear() between a timeout and its interrupt's answer: at most one execution in flight, a non-empty queue is executing, and executing means one in flight or one interrupt outstanding. |
| ExecutionQueueTheorems.NothingSentBeforeInterruptAnswered | lib/execution/execution-queue.ts:132-145 | Under the same condition nothing is handed over while an interrupt is unanswered. |
| ExecutionQueueTheorems.NeverStranded | lib/execution/execution-queue.ts:83-96 | In every run, clear() at any moment included, a non-empty queue has someone working on it. |
| ExecutionQueueTheorems.ResolvedOutputIsWhatWasHeard | lib/execution/execution-queue.ts:172-254 | A resolved execution's output is exactly the output messages heard for it from its sending to its settlement, in arrival order. |
| ExecutionQueueTheorems.ResolvedAfterIdleOrWait | lib/execution/execution-queue.ts:229-290 | One resolved from a reply that is not aborted had its idle status, or idleWaitMs after its latest message, or, when a later reply cut that wait short, after everything heard up to that one; success and aborted are the reply's. |
| ExecutionQueueSettlements.WhatAnEventSettles | lib/execution/execution-queue.ts:65-336 | After any run, exactly whom one more event settles and with what: the executions it ends, by the error, reply, idle or timeout that ended them, with their output and status; the whole queue, aborted, if one of them failed with stopOnError; what the addon refuses when the queue goes on; a submission, as queue full, exactly when maxSize items are queued; everything, as cleared, by clear(). |
| ExecutionQueueSettlements.AbortedIffFailure | lib/execution/execution-queue.ts:215-239 | A queued item is resolved as aborted by an event exactly when that ends a stopOnError execution by an error message or a reply that is not ok. |
| ExecutionQueueSettlements.WhereTheQueueGoes | lib/execution/execution-queue.ts:65-115 | Otherwise everything queued stays queued, in order, but for what is handed over: nothing unless an execution ended, its timeout's continuation came or a submission found the queue idle, and then the items up to the first the addon takes; the queue is executing afterwards exactly if it took one. |
| ExecutionQueueSettlements.WhoIsInFlight | lib/execution/execution-queue.ts:119-169 | In flight after an event are exactly those who were and were not ended by it, and the item the kernel has just taken. |
| ExecutionQueueSettlements.RecordTellsWhatWasHeard | lib/execution/execution-queue.ts:172-294 | After any run an execution in flight has exactly the output heard for it, is idle exactly if its idle was heard, has its timer armed exactly if it has a timeout and no input_request was heard, and waits exactly if it has heard a reply: on the latest one, until idleWaitMs after the latest message. |
| ExecutionQueueSettlements.LogIsWhatCame | lib/execution/execution-queue.ts:172-176 | What the other statements call heard is what came, in order, whether anybody waited for it or not. |
| ExecutionQueueLimits.ClearIsSafeIff | lib/execution/execution-queue.ts:321-336 | After any run with peaceful clears, one more clear() keeps single flight in every peaceful continuation exactly when no interrupt is unanswered. |
| ExecutionQueueLimits.SecondReplyLeavesStaleTimer | lib/execution/execution-queue.ts:277-288 | A second execute_reply leaves the first one's idle fallback armed. |
| ExecutionQueueWaits.TwoRepliesIffStale | lib/execution/execution-queue.ts:274-289 | In every run an execution in flight has heard two replies exactly when another fallback than its current one is armed for it. |
| ExecutionQueueLimits.StaleTimerResolvesEarly | lib/execution/execution-queue.ts:277-288 | From any reachable state with such a fallback, a continuation without a further reply resolves the execution with neither its idle nor a full wait. |
| ExecutionQueueLimits.ResolvesEarlyIffTwoReplies | lib/execution/execution-queue.ts:229-290 | After any run, an execution in flight can still be resolved early, hearing no further reply, exactly when it has heard two. |
| ExecutionQueueLimits.SomeRunHearsTwo | lib/execution/execution-queue.ts:274-289 | A run from the start that leads there. |
| ExecutionQueues.ExecutionQueue.constructor | lib/execution/execution-queue.ts:56-63 | A new queue is where no events lead. |
| ExecutionQueues.ExecutionQueue.Execute | lib/execution/execution-queue.ts:65-88 | The object makes exactly the step of a submission: rejected when full, else queued, and processed when idle. |
| ExecutionQueues.ExecutionQueue.Accept | lib/execution/execution-queue.ts:75-86 | An accepted item goes behind the others and is processed at once when nothing runs. |
| ExecutionQueues.ExecutionQueue.ProcessNext | lib/execution/execution-queue.ts:90-115 | The recursive method computes the specified hand-over, for any number of refusals. |
| ExecutionQueues.ExecutionQueue.HandOver | lib/execution/execution-queue.ts:96-115 | The first item is handed over: sent, or rejected for what the addon did. |
| ExecutionQueues.ExecutionQueue.Send | lib/execution/execution-queue.ts:126-169 | The record of a sent item: empty output, timer if it has a timeout. |
| ExecutionQueues.ExecutionQueue.HandleMessage | lib/execution/execution-queue.ts:172-296 | A message makes exactly the specified step of its execution, and none when it has none. |
| ExecutionQueues.ExecutionQueue.FinishNow | lib/execution/execution-queue.ts:233-255 | A reply ends its execution, taking the queue down first exactly when it is not ok and the request has stopOnError: the specified step, whose settlements `WhatAnEventSettles` states. |
| ExecutionQueues.ExecutionQueue.AbortQueued | lib/execution/execution-queue.ts:303-319 | The loop resolves exactly the queued items as aborted and empties the queue. |
| ExecutionQueues.ExecutionQueue.OnTimeout | lib/execution/execution-queue.ts:126-147 | A timeout rejects, forgets the record and leaves the continuation to the interrupt's answer. |
| ExecutionQueues.ExecutionQueue.OnInterruptAnswered | lib/execution/execution-queue.ts:143-145 | The continuation goes on with the queue. |
| ExecutionQueues.ExecutionQueue.OnIdleFallback | lib/execution/execution-queue.ts:278-287 | A fallback finishes its execution only while that is still in flight. |
| ExecutionQueues.ExecutionQueue.Clear | lib/execution/execution-queue.ts:321-336 | clear() rejects everything queued and in flight and stops executing; continuations outstanding stay. |
| HoldProtocol.InstallsSeeEverySession | lib/session/python-packages.ts:434-472 | In every run of sessions and locked installs: an install that looks and is running pip replaces nothing, or holds the environment with no session starting or unstopped on it; and no createSession() waits on a hold that is neither current nor released. |
| HoldProtocol.SeenOrWaits | lib/session/session-manager.ts:1333-1353 | The same with re-making of environments included, in every run in which no hold is taken over another; and a hold stands only while one job has it. |
| HoldOutcomes.LooksFindExactlyTheUsers | lib/session/session-manager.ts:1396-1406 | After any run, overlapping holds included, sessionsUsing() finds exactly the sessions that are starting on the environment, and those on it that run and were not stopped. |
| HoldOutcomes.EveryJobHasItsReason | lib/session/python-packages.ts:422-473 | In every run: work replaces nothing exactly if the plan said so or the environment was missing; an install ends only by its work, by its plan, or, told to defer, because it found somebody after its plan; only one told to wait sleeps, with something to replace. |
| HoldOutcomes.WorksIffNobodyFound | lib/session/python-packages.ts:433-466 | A job works after its look exactly when that found nobody, under the hold it took before it looked. |
| HoldOutcomes.EverySessionHasItsReason | lib/session/session-manager.ts:1326-1364 | In every run a session is rejected only if the supervisor or its kernel failed it, and waits only on a hold that stood when it looked last. |
| HoldOutcomes.StartsUnlessHeld | lib/session/session-manager.ts:1333-1342 | A session that looks starts exactly when nobody holds its environment. |
| HoldOutcomes.StoppedIffStops | lib/session/session-manager.ts:1400-1403 | A session counts as stopped exactly if it was stopped. |
| HoldOutcomes.LockedWhileWorking | lib/session/python-packages.ts:425-472 | In every run the library lock of an environment is taken exactly while one install is between asking for it and giving it back. |
| HoldProtocol.LockedNeverOverlaps | lib/session/python-packages.ts:425-427 | Under the library lock no install takes a hold on a held environment. |
| HoldOverlaps.TakingAHoldIsSafeIff | lib/session/session-manager.ts:1412-1421 | After any run without overlaps, taking a hold, over another one or not, keeps every continuation safe exactly when no job on the environment counts on the hold it has; if one does, a session can come to be on the environment in the middle of that job's work. |
| HoldOverlaps.OverlapLetsASessionIn | lib/session/python-packages.ts:240-268 | That continuation: the taker works and gives the environment back, the other job works on, a session starts. |
| HoldOverlaps.UndisturbedIsSafe | lib/session/python-packages.ts:448-470 | A job that does not count on its hold gives it back, or works on, without harm. |
| HoldProtocol.StepInv | lib/session/session-manager.ts:1412-1426 | Every step that does not overlap holds keeps all of the protocol's invariants. |
| SessionManagers.SessionManager.HoldInstall | lib/session/session-manager.ts:1412-1416 | Takes the environment's entry with a fresh hold: the protocol's step on the manager's maps. |
| SessionManagers.SessionManager.Release | lib/session/session-manager.ts:1417-1420 | Gives back only its own hold, and wakes its waiters. |
| SessionManagers.SessionManager.StartingOn | lib/session/session-manager.ts:1424-1426 | The loop finds exactly the sessions starting on the environment. |
| SessionManagers.SessionManager.SessionsUsing | lib/session/session-manager.ts:1396-1406 | The loops find exactly the unstopped sessions on the environment and those starting on it, stated on the manager's own sessions and map. |
| SessionManagers.SessionManager.LookAtHold | lib/session/session-manager.ts:1333-1342 | From a look at the hold to the next await: waits for it, or is starting from that moment on. |
| SessionManagers.SessionManager.Created | lib/session/session-manager.ts:1344-1353 | A created session is in `sessions` before it leaves `starting`. |
| SessionRegistry.OneKernelAtATime | native/src/themisto/session_registry.cpp:667-959 | In every interleaving of stop, restart and send threads: one live kernel at most; with no operation in progress a live one is the one in m_sessions; stopChannels() at most once per client and no send after it. What each operation comes to is stated by `SessionRegistryOutcomes`. |
| SessionRegistry.OneAtWork | native/src/themisto/session_registry.cpp:124-133 | The id's one recursive mutex admits one thread at a time, through the nested call of a restart. |
| SessionRegistry.FailedRestartLeavesNothing | native/src/themisto/session_registry.cpp:926-959 | After a restart whose new kernel failed nothing is alive and nothing is listed. |
| SessionRegistryOutcomes.SendsOnlySend | native/src/themisto/session_registry.cpp:667-821 | No step of a send changes a kernel's life, connection or polling, or the map. |
| SessionRegistryOutcomes.OnlyStopsEndAKernel | native/src/themisto/session_registry.cpp:823-959 | A kernel dies, is disconnected or leaves the map only by its own exit, the registry's end, or a step of a stop or a restart. |
| SessionRegistryOutcomes.StopStops | native/src/themisto/session_registry.cpp:823-924 | In every interleaving: once a stop that found a kernel has returned, that is dead, its channels are stopped and it is not listed, for good; and it was asked to shut down, once, unless it had exited. |
| SessionRegistryOutcomes.SendSends | native/src/themisto/session_registry.cpp:667-706 | A send that found a kernel sent to it once, unless it interrupted it by signal instead, and to no other. |
| SessionRegistryOutcomes.RestartReplaces | native/src/themisto/session_registry.cpp:926-959 | When a restart that found a kernel returns, that one is gone, having been asked to shut down unless it had exited; and unless the new one's spawn or handshake failed, a kernel made since is listed, connected and polled, and alive unless it exited. |
| SessionRegistryOutcomes.NothingFoundNothingDone | native/src/themisto/session_registry.cpp:823-834 | A thread that found no session changes nothing. |
| SessionRegistryOutcomes.OwnerReturns | native/src/themisto/session_registry.cpp:853-890 | Whatever the others do, a thread that has the lock returns after at most seventeen more steps in which what it waits for is over. |
| SessionRegistryOutcomes.FreeLockIsTaken | native/src/themisto/session_registry.cpp:124-133 | A thread that comes when nobody has the lock has it after two steps. |
| SessionRegistryPolls.DestructorStopsUnderPollIff | native/src/themisto/session_registry.cpp:135-160 | After any run, with no operation in progress, the destructor stops channels that are being polled exactly when a kernel is listed whose poll thread has not ended by itself. |
| SessionRegistryPolls.PolledUntilItEnds | native/src/themisto/session_registry.cpp:476-480 | With no operation in progress a listed kernel is polled exactly until its poll thread ends by itself. |
| SessionRegistry.StepInv | native/src/themisto/session_registry.cpp:823-924 | Every step of every thread, kernel exit and poll end keeps lock depth, phase and client invariants. |
| Framing.LinesOfJoin | native/src/themisto/outbox.hpp:123-131 | Joining a text to a frame and splitting at newlines gives the frame's lines, then the text's. |
| Framing.LinesOfIsIdentityIff | lib/session/session-manager.ts:335-343 | A list of texts survives joining and splitting unchanged exactly when each is one non-empty line. |
| Framing.FramesLines | native/src/themisto/outbox.hpp:109-133 | The frames sent for a batch hold the open frame's lines and the batch's, in order. |
| Framing.FramesAllowed | native/src/themisto/outbox.hpp:119-133 | Every frame sent is non-empty, and within kFrameBytes unless it is one message. |
| Framing.GreedyIsOptimal | native/src/themisto/outbox.hpp:109-133 | No order-preserving split of a batch into frames that are each one message or within kFrameBytes joined uses fewer frames. |
| OutboxSpec.EverythingIsAccountedFor | native/src/themisto/outbox.hpp:56-135 | In every interleaving, until abandoned: lines sent, then of the open frame, the rest of the batch and the queue, are the accepted texts' lines in order. |
| OutboxSpec.AcceptedTextsArrive | native/src/themisto/outbox.hpp:56-135 | For texts that are lines that is the accepted texts themselves, and what was sent is always a prefix of them. |
| OutboxSpec.SentIsAPrefix | native/src/themisto/outbox.hpp:77-86 | Abandoned or not, what was sent is a prefix of what was accepted. |
| OutboxSpec.EndsWithEverythingSent | native/src/themisto/outbox.hpp:97-107 | The thread ends only once stopped, and unless abandoned only with everything accepted sent. |
| OutboxSpec.BackpressureBound | native/src/themisto/outbox.hpp:110-118 | Until abandon() the connection never holds more than kMaxBuffered bytes and the last frame. |
| OutboxSpec.SentFramesAreAllowed | native/src/themisto/outbox.hpp:119-133 | In every run each frame sent is non-empty, and within kFrameBytes unless it is one accepted text. |
| OutboxSpec.FewestFramesAreSent | native/src/themisto/outbox.hpp:97-135 | However the batches taken are split into allowed frames, no fewer frames than were sent will do. |
| OutboxSpec.AbandonEndsTheThread | native/src/themisto/outbox.hpp:77-86 | After abandon(), eight more steps of the sender end it and at most two more frames go out, whatever else happens. |
| OutboxSpec.StopSendsTheRest | native/src/themisto/outbox.hpp:66-107 | After stop(), a sender whose connection keeps taking what it is given ends with everything accepted sent, within a number of its own steps given by what is queued. |
| Outboxes.Outbox.Push | native/src/themisto/outbox.hpp:56-64 | Queues the text unless stopping. |
| Outboxes.Outbox.Abandon | native/src/themisto/outbox.hpp:77-86 | Stops, abandons and empties the queue. |
| Outboxes.Outbox.AwaitDrain | native/src/themisto/outbox.hpp:114-117 | The wait loop takes the sender's steps until the buffer is low or the outbox abandoned; else nobody will ever drain. |
| Outboxes.Outbox.SendBatch | native/src/themisto/outbox.hpp:109-133 | The loop over a batch, with other threads acting in between, sends exactly its greedy frames, or the thread ends or waits inside it. |
| Outboxes.Outbox.Run | native/src/themisto/outbox.hpp:97-135 | The sender's loops make exactly the sender's steps, and end, or stay only where nothing may be sent and nobody acts any more. |
| Relay.LatestOwnsWhileOpen | native/src/themisto/ws_relay.cpp:137-152 | In every run the callbacks belong to the connection opened last while it is open, and to nobody after it closes. |
| Relay.LateCloseDetachesNobody | native/src/themisto/ws_relay.cpp:212-223 | Closing an older connection changes neither the callbacks nor their owner. |
| Relay.OutboxGetsItsReports | native/src/themisto/session_registry.cpp:100-116 | Each connection's outbox is given, in order, exactly the reports emitted while it was owner. |
| Relay.GreetedOnce | native/src/themisto/ws_relay.cpp:154 | Each outbox is given `ready` exactly once, when opening is over. |
| Relay.Session.Opened | native/src/themisto/ws_relay.cpp:137-152 | Opening makes the callbacks the new connection's own. |
| Relay.Session.Greeted | native/src/themisto/ws_relay.cpp:154 | After opening, `ready` goes to the connection's own outbox. |
| Relay.Session.EmitMessage | native/src/themisto/session_registry.cpp:100-107 | A report goes to the callbacks' connection and to no other. |
| Relay.Session.Closes | native/src/themisto/ws_relay.cpp:212-223 | Closing gives the callbacks up only if they are still this connection's. |
| RelayPipeline.AcceptedIsAPrefix | native/src/themisto/outbox.hpp:56-75 | What an outbox accepts is all that is pushed before it stops. |
| RelayPipeline.ClientGetsItsReports | lib/session/session-manager.ts:335-343 | End to end: a client receives, text for text, a prefix of what its outbox was given, with in it a prefix of the reports made while its connection owned the session; nothing is missing once the outbox is idle and open. |
| TranscriptAgreement.OnePassAgrees | tools/playground/lib/transcript.ts:227-279 | applyMessages() gives what folding applyMessage() gives: cells, ids, classes, truncated flags, and per block two ends of one full text that are equal, or both between MAX_OUTPUT_CHARS-2000 and MAX_OUTPUT_CHARS long and marked truncated. |
| TranscriptAgreement.OnePassIsExact | tools/playground/lib/transcript.ts:219-226 | With no full text over the cap both forms are identical, and identical to never capping. |
| TranscriptAgreement.StreamsAgree | tools/playground/lib/transcript.ts:243-279 | One run of stream messages in one pass agrees with one at a time, from transcripts that agree already. |
| TranscriptAgreement.ApplyAgree | tools/playground/lib/transcript.ts:139-217 | Any one message keeps two transcripts in agreement; what it does to each is stated by `TranscriptLaws` and `TranscriptRuns`. |
| TranscriptAgreement.KeptIsCutToSize | tools/playground/lib/transcript.ts:62-68 | A capped text is the end of the text, no shorter than the cap less 2000. |
| TranscriptAgreement.KeptOfSuffix | tools/playground/lib/transcript.ts:62-68 | Two ends of one text that are over the cap are cut alike. |
| Transcripts.IndexIsFirst | tools/playground/lib/transcript.ts:65-66 | The newline looked for is the first one, if there is any. |
| TranscriptPasses.ApplyMessages | tools/playground/lib/transcript.ts:227-240 | The loops compute the one-pass form for any list, and agree with the fold when the cells with the current key look alike. |
| TranscriptPasses.ApplyStreams | tools/playground/lib/transcript.ts:243-279 | The loop over mutable outputs, open block and text computes the one-pass form of a run. |
| TranscriptAgreement.OnePassAgreesIff | tools/playground/lib/transcript.ts:244-278 | The two forms agree on every list of messages exactly when all cells with the current key look alike. |
| TranscriptAgreement.UnlikeCellsPart | tools/playground/lib/transcript.ts:244-278 | For any other transcript one stream message tells them apart. |
| TranscriptAgreement.ApplyKeepsAlike | tools/playground/lib/transcript.ts:139-217 | No message makes such cells differ. |
| TranscriptAgreement.DistinctKeysAreAlike | tools/playground/lib/transcript.ts:82-84 | Distinct keys are enough. |
| TranscriptLaws.AddsOneOutput | tools/playground/lib/transcript.ts:160-217 | A display, an error, a request for input, and an update of what is not on the screen add to the current cell exactly the output they stand for, under the next id, after what it showed, or alone if it was to be cleared; no other cell changes, and none does without a current cell. |
| TranscriptLaws.UpdatesInPlace | tools/playground/lib/transcript.ts:167-193 | An update of a display on the screen changes exactly the outputs with its display id, in whatever cells, and keeps their ids. |
| TranscriptLaws.ClearOutputClears | tools/playground/lib/transcript.ts:195-196 | After any messages, clear_output, and any more, the transcript is what the latter make of it with the current cell emptied. |
| TranscriptLaws.WaitingClearWaits | tools/playground/lib/transcript.ts:195-196 | clear_output with wait leaves everything shown as it would be without, for as long as no message adds anything ... |
| TranscriptLaws.WaitingClearClears | tools/playground/lib/transcript.ts:104-112 | ... and from the first message that does, everything is as if the cell had been emptied just before it. |
| TranscriptLaws.IdsStayFresh | tools/playground/lib/transcript.ts:104-112 | Whatever comes, the outputs of a cell have ascending ids of their own, all below the next one. |
| TranscriptRuns.StreamsShowTheirText | tools/playground/lib/transcript.ts:142-158 | A run of stream messages shows, uncapped, one block for each stretch of one stream, with the texts of that stretch one after the other; the first stretch goes on the last output exactly if that is a text of the same stream and no display. |
| Utf8.ByteClass | native/src/adrastea/utils/logger_impl.cpp:54-64 | The table's first 256 entries are the byte classes, by ranges. |
| Utf8.StatesAt | native/src/adrastea/utils/logger_impl.cpp:64-68 | The table's other 144 entries lead from each state on each class to the next state. |
| Utf8CodePoints.RunCodePoint | native/src/adrastea/utils/logger_impl.cpp:72-79 | Over the bytes of one character the step gathers the bits its first byte's class leaves, then six more with each byte. |
| Utf8Theorems.AcceptsIffOctets | native/src/adrastea/utils/logger_impl.cpp:82-94 | The automaton accepts exactly the UTF8-octets grammar of RFC 3629, section 4. |
| Utf8CodePoints.AcceptedCodePoint | native/src/adrastea/utils/logger_impl.cpp:74-78 | Each time it accepts, the code point is a scalar value whose encoding by RFC 3629, section 3, is the bytes read since it last accepted. |
| Utf8CodePoints.AcceptedIsEncoded | native/src/adrastea/utils/logger_impl.cpp:82-94 | What is accepted is the encoding of some sequence of scalar values. |
| Utf8CodePoints.EncodedIsAccepted | native/src/adrastea/utils/logger_impl.cpp:82-94 | Every such encoding is accepted. |
| Utf8CodePoints.EncodeBits | native/src/adrastea/utils/logger_impl.cpp:74-76 | Encoding a scalar value gives a character of the grammar that carries it: decoding undoes encoding. |
| Utf8CodePoints.BitsEncode | native/src/adrastea/utils/logger_impl.cpp:74-76 | What a character carries is a scalar value that encodes to it: encoding undoes decoding. |
| Utf8CodePoints.IsUtf8Valid | native/src/adrastea/utils/logger_impl.cpp:82-94 | The loop answers true exactly for the grammar, and exactly for encodings of scalar values. |
| LibraryLock.TwoAreExclusive | lib/session/r-packages.ts:185-239 | With at most two processes at a time over a crashed owner's lock, crashes and successors included, never two hold the library. |
| LibraryLock.ExclusiveIffTwo | lib/session/r-packages.ts:173-184 | The lock excludes in every run exactly when at most two processes contend at a time. |
| LibraryLock.ThirdGetsIn | lib/session/r-packages.ts:222-231 | A run in which a third process creates the lock while another has a fresh one aside. |
| LibraryLock.ReleaseRemovesItsOwn | lib/session/r-packages.ts:199-205 | Of two processes, one about to remove the lock removes its own, or finds none; then there is none and its call is over. |
| LibraryLock.ReleaseFreesTheLibrary | lib/session/r-packages.ts:199-205 | From a look at a lock that is its own, a release takes two steps, whatever others do in between, and leaves no lock. |
| LibraryLock.ReleasedIsGone | lib/session/r-packages.ts:199-205 | In every run of two, the lock of a call that ended without a crash is there later only if another process had it aside, to put it back, at the last step of the release. |
| LibraryLock.LeftLockIsTakenOver | lib/session/r-packages.ts:206-236 | A lock nobody holds any more is judged, moved aside, dropped and replaced in seven steps of one that waits. |
| LibraryLock.OnlyDeadLocksAreDiscarded | lib/session/r-packages.ts:222-231 | What a takeover has discarded belongs to nobody who holds the library, in any later state. |
| LibraryLock.DiscardsWhatIsOver | lib/session/r-packages.ts:225-229 | In every run of two, a takeover discards the lock it read and judged, or one whose place another lock has taken since; in both cases the call that wrote it is over: it gave the library back, crashed, or another call follows it. |
| LibraryLock.LiveLockIsPutBack | lib/session/r-packages.ts:225-229 | In every run of two, a live owner's lock that was moved aside is not discarded and goes back where it was. |
| HistoryBounds.BoundedKeeps | lib/session/session-manager.ts:481-494 | Bounding drops only stream messages, the oldest, as few as needed; the rest is within the bound or one stream message. |
| HistoryBounds.BoundedAppend | lib/session/session-manager.ts:483-494 | Bounding after each message comes to the same as bounding everything received at once. |
| ExecutionHistories.ExecutionHistory.RecordExecutionHistory | lib/session/session-manager.ts:441-479 | After any message the whole history, list, map and every entry, is what the messages recorded so far determine. |
| ExecutionHistories.Entry.BoundStream | lib/session/session-manager.ts:483-494 | The splice loop leaves what bounding everything routed to the entry leaves, its count and its truncated flag right. |
| ExecutionHistories.ExecutionHistory.Forget | lib/session/session-manager.ts:452-459 | The loop over the map takes out exactly the removed entry. |
| ExecutionHistories.EntryHolds | lib/session/session-manager.ts:441-494 | An entry holds all that is no stream text and the latest stream messages routed to it, in order; its count is their length, within 500000 unless one is left; truncated says whether any are missing. |
| ExecutionHistories.WithinBounds | lib/session/session-manager.ts:449-462 | At most 200 entries, fewer only when fewer were started, and the map leads only into the list. |
| HistoryLaws.ListedAreTheLatest | lib/session/session-manager.ts:442-462 | Listed are exactly the executions after which fewer than 200 have started. |
| HistoryLaws.ListedInOrder | lib/session/session-manager.ts:449-452 | In the order they started. |
| HistoryLaws.RoutedBelongs | lib/session/session-manager.ts:464-479 | To an entry belong, in order, exactly the messages with its id that came after it and before another execution started with that id, input_requests excepted. |
| Query.PercentDecode | native/src/themisto/access.cpp:69-89 | The loop computes the decoding, escapes cut short and `+` included. |
| Query.QueryParameter | native/src/themisto/access.cpp:92-115 | The loops find the first pair of the name after `?` and before `#`. |
| Query.DecodeEncode | native/src/themisto/access.cpp:69-89 | Decoding undoes percent-encoding for every byte string. |
| Query.PrintedIsRead | native/src/themisto/access.cpp:92-115 | Whatever pairs are printed after a path without `?`, the first value of the asked key is read, exactly unless nothing was printed and the empty key is asked for. |
| Query.AnyQueryIsRead | native/src/themisto/access.cpp:92-115 | Of any query, however written: the value of the first pair whose decoded key is the name; a key without `=` has an empty one, and a fragment is not read. |
| Query.WrittenIsRead | native/src/themisto/access.cpp:69-89 | However its bytes are written, as they are, as escapes with digits in either case or `+` for a space, a text decodes to them. |
| Query.StrayPercent | native/src/themisto/access.cpp:74-86 | A percent sign that begins no escape stands for itself. |
| Query.NoQueryNoParameter | native/src/themisto/access.cpp:94-95 | A URL without `?` has no parameters. |
| Query.PathIsReadIff | native/src/themisto/access.cpp:117-121 | pathOf() gives such a path back exactly when it has no `#` either. |
| Query.PathOf | native/src/themisto/access.cpp:117-121 | A prefix without `?` and `#` that ends at the first of them. |
| Query.TokenIsRead | lib/session/supervisor-client.ts:72-76 | The token of a session's URL reads back unchanged, and no token as none. |
| Access.BearerToken | native/src/themisto/access.cpp:38-57 | The loops compare the scheme without case and trim spaces. |
| Access.HeaderIsReadIff | lib/session/supervisor-client.ts:67-70 | The header a client sends reads back as its token exactly when the token is not empty and no space is at either end. |
| Access.UrlLetsInIff | native/src/themisto/access.cpp:128-142 | A session's URL lets in exactly who has the supervisor's token, when there is one. |
| Access.HeaderLetsInIff | native/src/themisto/access.cpp:128-142 | So does the header, of a request whose URL shows nothing. |
| Access.NobodyFromAPage | native/src/themisto/access.cpp:123-130 | A request from a web page is refused, whatever header, URL and token. |
| Access.BearerIsShown | native/src/themisto/access.cpp:38-57 | The token read from a header is exactly the one it shows: the scheme in any case, spaces, a token with none at its ends, spaces. |
| Access.AllowedIff | native/src/themisto/access.cpp:128-142 | Let in is exactly who comes from no web page and, where there is a token, shows it in the header or has it in the query. |
| Cursor.CodePointsThereAndBack | tools/playground/lib/cursor.ts:7-14 | A code point index k comes back as min(k, number of code points), lone surrogates included. |
| Cursor.UnitsThereAndBack | tools/playground/lib/cursor.ts:7-14 | A code unit index comes back as the least code point boundary at or after it. |
| Cursor.JoinPoints | tools/playground/lib/cursor.ts:12-14 | Joining the code points gives the text. |
| Cursor.PointsOfEncoded | tools/playground/lib/cursor.ts:7-14 | The code points of a text are those whose UTF-16 encoding it is, lone surrogates among them. |
| Cursor.EveryTextIsEncoded | tools/playground/lib/cursor.ts:7-14 | And every text is the encoding of some. |
| Cursor.IndexesOfEncoded | tools/playground/lib/cursor.ts:7-14 | The two indexes of the place before a code point: their number, and the units that encode them. |

## Left out

- Execution queue: the addon's answer (a message id, none, or an exception) travels with the submission, since an item is handed over at most once; message ids are fresh, a submission with a used one being no event. The addon does not call back into the queue, and a rejected promise's handlers run in later events.
- Execution queue: the continuation after a timeout that interrupts nothing may run at any later time, like one that waits for an answer; the source runs it in the next microtask.
- Execution queue: `executionCount`, `userExpressions`, logging and error texts; results carry success, status, aborted and output.
- Execution queue: timers are events that may come when armed; only the idle wait is measured, on a logical clock, since it is the one promise about time.
- Hold protocol: sessions that are restarted or attached, R libraries (`ensureRPackage()` and its packages session), failing locks and time limits. An install's loops around the await points are steps of `HoldProtocol`, not methods: what a method does between awaits is in `SessionManagers`.
- Session registry: one session id, created once before; the first `createSession()` up to `startPolling()`, `m_sessionsMutex` (each use of it is one step) and listing. Threads, a recursive mutex and shared pointers are a step machine, so the objects' memory and aliasing are not modelled. `sendExecute()`, `sendRequest()` and `sendInputReply()` are one operation, which differ in what they send.
- Outbox: WebSocket frame headers count nothing towards the unsent bytes, and a failed send is not told apart. Lost wake-ups cannot occur, since the wait's condition is read under the mutex that every change takes.
- Relay: connections refused for their token or for an unknown session never touch the callbacks; a push through an expired weak pointer is one to an outbox nobody reads.
- Transcript: `formatMimeData()` is a parameter (an image, a text or nothing); `startCell`, `answerInput` and the other edits between messages are not part of the claim.
- UTF-8: `DecodeUtf8` takes and returns what the source updates by reference.
- Library lock: creating the file and writing its text are one step, and a crash does not fall between moving a lock aside and putting it back. Process ids are not used again, and modification times enter only through what a process judges. The loop is a step machine of file-system calls.
- Execution history: `Date.now()`; what `getHistory()` hands out is not copied by the source either.
- Query: `encodeURIComponent` is modelled on bytes, as UTF-8 text has them; comparing tokens in constant time is comparing them.
- Cursor: `tokenAt`, which widens a range of characters a regular expression matches; regular expressions are not modelled.
- ZeroMQ, sockets, HTTP and WebSocket servers, process spawning, runtime discovery, JSON, and the R, Python and Stata sides.

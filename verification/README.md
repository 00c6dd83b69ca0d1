# arpc in Dafny

A Dafny 4.11 model of the core of arpc, a two-way RPC library for Go, with
proofs of what its design depends on. `dafny verify dfyconfig.toml` checks
everything.

Concurrent protocols are state machines whose steps are the critical sections
and atomic operations of the code; the theorems quantify over every run. The
objects themselves (classes, arrays, loops) are modelled beside them, and each
method is proved to perform the function that the machine uses for its step.
Beside what every run keeps, each machine has theorems about what its
participants get: the effect of an operation on the state it is called in, and
that from every reachable state the work under way can be finished.

| files | component |
|---|---|
| Sf*.dfy, SharedResult.dfy | sharing one request among concurrent callers (singleflight.go, client.go) |
| Writev*.dfy, SendLoop.dfy | the writev queue and the two send loops (client.go) |
| AsyncCalls*.dfy, Session*.dfy, PendingTables.dfy | pending CallAsync handlers and pending Call sessions (client.go, handler.go) |
| Generations*.dfy, ClientLife.dfy | run, Stop, Restart and the receive loop (client.go) |
| Stream*.dfy | half-close and delivery on Streams (stream.go, client.go, handler.go) |
| Wire.dfy, WireBuffers.dfy | the frame format and receiving (proto.go, handler.go) |
| EndToEnd.dfy | from the send queues of one side to the receive loop of the other |
| BufferPool.dfy, BufferUse.dfy | the pooled allocator (allocator.go) |
| Message*.dfy | reference counts, the callbacks that release, and Broadcast (proto.go, handler.go, server.go, client.go) |
| HandlerChain.dfy, Routes.dfy, RouteObjects.dfy | handler chains, registration and Clone (context.go, handler.go) |
| ClientPool.dfy | round-robin choice of a Client (client.go) |
| Prelude.dfy, Arithmetic.dfy | shared definitions |

Where the code does not keep a promise in every run, the exact condition is
proved, with a run that breaks it:

- Singleflight counts are right as long as no leader releases twice
  (`SfTwice.CountedIffReleasedOnce`). An async leader publishes twice exactly if
  its push failed after its entry had been taken and run
  (`AsyncCallsTheorems.PublishesTwiceIff`); then a held call goes into the pool
  exactly if one caller holds it (`SfTwice.FreesAHeldCallIff`), and a reused call
  loses its followers to the old leader (`SfTwice.SecondCaptureHarmlessIff`). The
  results of SfTheorems are for leaders that publish once.
- A follower that addSub refuses has its handler called twice exactly if its
  timer had fired and its own request called it too
  (`SfFallback.CalledAtMostOnceIff`).
- A Client keeps a single receive loop exactly in the runs whose installs are
  timely (`Generations.OneLoopIffTimely`); Restart calls that do not overlap are
  (`SeparateRestartsAreTimely`), overlapping ones may not be
  (`OverlappingRestarts`).
- A broadcast Message is freed in the end exactly if every path ended in a
  callback that releases and nothing entered chSend after its loop had returned
  (`MessageRefs.FreedIffAllDisposed`); neither can be taken for granted
  (`QueuedTooLate`, `MessageCallbacks.CloneGoesByItsOriginal`).
- batchSendLoop agrees with normalSendLoop exactly when a batch does not begin
  with two empty encodings (`SendLoop.TurnIsPlainIff`); frames are never empty.
- CallAsync may both call its handler and return an error.
  `AsyncCallsTheorems.ErrorReturnWithoutCall` says exactly when it does not,
  `HandlerAndError` ends a run in which it does.
- ClientPool.Next finds a healthy Client but in a scan across the wrap of the
  2^64 counter (`ClientPool.FindsHealthyIff`, `WrapMissesAHealthyClient`).

The other conditions: the writev results are for one generation of a Client,
Restart begins a new queue; Streams have an unbroken connection, a sequential
sender, and a receive half closed by the sender's EOF only; ClientPool.Next is
used sequentially.

## Model

| member | source | states |
|---|---|---|
| SfTheorems.RefsCountHolders | singleflight.go:98-137 | in every run, refs of a call is the number of callers that hold it |
| SfTheorems.EntriesAreUnfinished | singleflight.go:98-189 | every map entry belongs to an unfinished leader that holds it and carries that key; a key has at most one unfinished leader |
| SfTheorems.PooledIsUnused | singleflight.go:98-137 | a pooled call is there once, fully reset, in no map entry, held by nobody |
| SfTheorems.DoneClosedAtMostOnce | singleflight.go:151-157 | a leader closes a done channel that is there and not yet closed |
| SfAnswers.DroppedIsNeverReused | singleflight.go:13-21 | a call the garbage collector took from the pool is never led, joined or pooled again |
| SfTheorems.FollowerReadsItsLeader | client.go:247-275 | what a blocking follower reads is what the leader it joined published, never the content of a recycled call |
| SfTheorems.FollowerSharesTheReply | client.go:396-428 | so its result is the leader's error, or its own decoding of the leader's reply |
| SfTheorems.JoinedIsCapturedOnce | singleflight.go:163-189 | a registered follower is in the captured list of the leader it joined, once, and in no other |
| SfTheorems.RefusedIsNotCaptured | singleflight.go:163-172 | a follower that addSub refused is in no captured list |
| SfTheorems.HandlerAtMostOnce | singleflight.go:78-85 | a follower's handler runs at most once |
| SfTheorems.HandlerExactlyOnce | client.go:471-531 | once either the fan-out or the follower's timer has run, it has run exactly once, for good |
| SfTheorems.FanOutReachesEveryFollower | client.go:471-531 | after a leader's fan-out and its executed tasks, every captured follower's handler has run |
| SfAnswers.PublishedIsWritten | singleflight.go:151-157 | what a blocking leader gives to finish is what it has published, for good |
| SfAnswers.PublishedWasWritten | singleflight.go:151-157 | and nothing else is ever published |
| SfAnswers.FollowerFindsTheLeadersReply | client.go:247-275 | end to end, from the reply alone: a follower finds the payload in a string or []byte target of any old content, in any other what the codec makes of it, or of a zero one if it copies; or the leader's decoding error |
| SfAnswers.AcquireJoinsOrLeads | singleflight.go:98-124 | a caller follows the unfinished leader of its key if there is one, and else leads a new entry |
| SfAnswers.WaitingIsWoken | client.go:263-271 | a waiting follower can go on unless its leader has yet to close done |
| SfAnswers.WokenReadsItsLeader | client.go:263-275 | and reads what that leader published |
| SfAnswers.EveryCallerGoesOn | client.go:247-507 | no caller is ever stuck: each has a step of its own that takes it further, until it is finished |
| SfAnswers.ReleaseDropsOneReference | singleflight.go:131-137 | a release takes one reference, and is the last exactly if nobody else holds the call |
| SfAnswers.LastHolderPools | singleflight.go:131-137 | the last holder can reset the call and pool it |
| SfAnswers.ExecutedIsCalled | client.go:517-531 | a follower with the executor can run, and then its handler has run once |
| SfAnswers.OutcomeCanReachAFollower | client.go:247-275 | any run goes on to a follower that read the very outcome its leader was given |
| SfAnswers.FanOutCanReachAFollower | client.go:471-531 | any run goes on to an async follower whose handler the fan-out has called |
| SfAnswers.TimerCanFire | client.go:498-501 | a follower's timer can call its handler at any time, if nobody did before |
| SfTwice.CountedIffReleasedOnce | client.go:479-491 | with the second publication as further steps: refs counts the holders throughout a run if and only if no leader releases a second time in it |
| SfTwice.FreesAHeldCallIff | singleflight.go:131-137 | the first second release takes a call from its holders if and only if exactly one caller holds it |
| SfTwice.SecondCaptureHarmlessIff | singleflight.go:179-189 | a second finishAsync changes no entry, no pooled call and no follower list if and only if its call is neither in the map again nor in the pool |
| SfTwice.SecondCaptureSteals | client.go:479-491 | the followers it takes had joined another leader, and go to the executor |
| SfRuns.SecondReleaseFreesAHeldCall | client.go:479-491 | a run in which a call is in the pool while a follower holds it |
| SfRuns.SecondCaptureStealsAFollower | client.go:479-491 | a run in which another key's leader loses its follower and its entry is finished |
| SfFallback.CalledAtMostOnceIff | client.go:494-507 | in every run a follower's handler, by its subscription and by its own request, is called at most once if and only if it is not refused, fired and called; then its timer had expired before Stop |
| SfFallback.StoppedInTime | client.go:502-506 | a refused follower whose Stop was in time is called by its own request only |
| SfRuns.RefusedIsCalledTwice | client.go:494-507 | a run in which a refused follower's handler is called twice |
| SharedResult.FollowerAgreesWithDecoding | client.go:371-428 | a follower gets the leader's error, or what decoding the reply into its own target gives; for equal types that holds if and only if the target's old value does not matter to the codec, and other types fall back to decoding |
| SharedResult.LeaderFindsTheReply | client.go:373-407 | a leader's string or []byte target holds the payload, whatever it held; any other what the codec makes of a zero target, or its error |
| SharedResult.FollowerFindsTheReply | client.go:373-428 | the same for a follower, whose own target is decoded into unless it copies; the leader's error comes first |
| SharedResult.OtherTargets | client.go:373-428 | a failed request is every caller's error, and a nil or non-pointer rsp is left alone or gets the codec's error |
| SharedResult.AgreesForEveryCodecIff | client.go:371-428 | a follower agrees with decoding for every codec if and only if it does not copy the holder, or the type is string or []byte, or its target is zero |
| SharedResult.LeaderAgreesWithDecoding | client.go:396-407 | the leader's decoding into a fresh value is decoding into its zero target |
| SfGroup.AsyncSub.Run | singleflight.go:78-85 | the first call runs the handler and stops the timer, later ones do nothing |
| SfGroup.Group.Acquire | singleflight.go:98-124 | joins the entry with one more reference, or opens one as its leader, with a pooled or new call of one reference and, for blocking calls, a fresh open done channel |
| SfGroup.Group.ReleaseCall | singleflight.go:131-137 | drops a reference; the last one resets the call and pools it |
| SfGroup.Group.Release | singleflight.go:141-147 | removes the entry only if it is this call |
| SfGroup.Group.Finish | singleflight.go:151-157 | publishes the outcome, removes the entry, then closes done |
| SfGroup.Group.AddSub | singleflight.go:163-172 | registers a follower unless the call is finished |
| SfGroup.Group.FinishAsync | singleflight.go:179-189 | marks the call finished, removes the entry and takes all followers in one section |
| WritevTheorems.AtMostOneWriter | client.go:942-1023 | at most one writevLoop runs, and writevSending says whether one does |
| WritevTheorems.QueueHasAWriter | client.go:942-1023 | a non-empty queue has a writer |
| WritevTheorems.AcceptedIsAccountedFor | client.go:812-1023 | every accepted message is queued, with exactly one goroutine, or disposed of exactly once |
| WritevTheorems.DrainIsFinal | client.go:812-842 | after the drain of closeAndClean nothing is accepted and the queue stays empty |
| WritevTheorems.NothingIsLost | client.go:812-1023 | once all goroutines have returned after the drain, every accepted message was disposed of exactly once |
| WritevTheorems.WireIsInOrder | client.go:983-1023 | the conn carries accepted messages in order, header and body adjacent, all whole but for at most one cut tail per failed write, which may have written any part of its batch |
| WritevTheorems.PushRefusedOrAcceptedOnce | client.go:942-978 | each pushWritev accepts its message once or refuses it once, never both |
| WritevRuns.CleanRunLosesNoByte | client.go:983-1023 | in a run without a reconnect, a failed write and a drain of messages, the wire and what is still held make up every accepted byte |
| WritevRuns.CleanRunWritesEverything | client.go:983-1023 | and is every accepted byte once all goroutines have returned |
| WritevRuns.WritesIffConnected | client.go:1001-1010 | a batch goes to SendN if and only if the Client is connected and no write of this loop failed |
| WritevRuns.DroppedIsNeverWritten | client.go:1001-1007 | a batch tested while reconnecting, or after a failed write, is never written, not even in part |
| WritevRuns.BrokenWriterWritesNoMore | client.go:1001-1016 | a writer whose write failed, or that dropped a batch, writes nothing more |
| WritevRuns.StoppedAcceptsNothing | client.go:957-961 | after Stop or closeAndClean the queue accepts nothing |
| WritevRuns.TestRefusesIffReconnecting | client.go:942-946 | pushWritev drops its message at once if and only if the Client reconnects |
| WritevRuns.PushEnds | client.go:942-978 | a push that is over has refused its message once or put exactly that message into the queue |
| WritevRuns.AcceptedIffRunning | client.go:957-971 | under the lock the message given is accepted, as the next one, if and only if the Client runs |
| WritevRuns.WriterCanFlush | client.go:983-1023 | from every reachable state with a healthy connection, wherever the writer is, it can go on until its batch and the queue are on the wire, the queue is empty and it has returned |
| WritevRuns.PushCanBeWritten | client.go:942-1023 | every message pushed to a healthy Client can get onto the wire, after those before it |
| WritevRuns.FirstMessageCanBeWritten | client.go:942-1023 | a new Client's first message can be all that is on the wire |
| WritevRuns.ClientCanBeDrained | client.go:812-842 | the conn can break and the Client be stopped and drained at any time |
| WritevQueue.SendQueue.Push | client.go:957-971 | appends Buffer and body, and says whether to start a writer |
| WritevQueue.SendQueue.Take | client.go:986-997 | takes the whole queue, or clears writevSending when it is empty |
| WritevQueue.SendQueue.Drain | client.go:833-842 | empties the queue and leaves writevSending to its writer |
| WritevQueue.HandleBatch | client.go:999-1022 | a batch is written whole, or in part and reported after a failed write, or dropped once the conn is broken |
| WritevQueue.WritevLoop | client.go:983-1023 | for every schedule of pushes, reconnects and write results, each batch before the first trouble is sent, that of a failed write failed, everything else dropped, in queue order; the wire is the sent messages and then a part of the batch that failed; the loop returns only with the queue empty |
| SendLoop.RunCoders | client.go:1373-1376 | the coders in order |
| SendLoop.TurnIsPlainIff | client.go:1400-1461 | a batch turn writes and reports exactly what sending its messages one by one would, each encoded once, if and only if the batch does not begin with two empty encodings; otherwise it reports a message twice |
| SendLoop.PlainCounts | client.go:1366-1396 | sending one by one encodes and reports each message once |
| SendLoop.BatchStaysSmall | client.go:1424-1441 | a batch of three or more was below SendBufferSize before its last message |
| SendLoop.BatchTurn | client.go:1424-1455 | the inner loop, whose receives never wait, is that turn on the messages in the channel |
| SendLoop.Drain | client.go:1384-1393 | after chClose OnMessageDone is called for every message in the channel, in order, and the channel is empty |
| SendLoop.NormalSendLoop | client.go:1366-1396 | for every arrival pattern: message i is dropped exactly if the loop reads reconnecting at it, and else encoded, written and reported; then the drained ones are reported; one call per message, in order, and the wire is the encodings of those sent; without chClose all are taken |
| SendLoop.BatchSendLoop | client.go:1400-1461 | the same account for the batching loop unless two neighbours encode to nothing, with one read of reconnecting a turn; the drained messages are reported in any case |
| EndToEnd.CleanRunIsReceived | client.go:983-1023 | in a run without a reconnect, a failed write and a drain, the peer's receive loop yields exactly the frames handed to SendN, in the order accepted |
| EndToEnd.CutBatchIsReceived | handler.go:958-988 | a conn that breaks inside a batch delivers the messages written whole and no other |
| EndToEnd.BatchedFramesAreReceived | client.go:1400-1461 | whatever the arrivals and batches, the peer receives the frames of the messages that batchSendLoop did not drop, in order, and all of them from a Client that never reconnects and is not stopped |
| AsyncCallsTheorems.HandlerAtMostOnce | client.go:552-589 | over every run of call, response, timeout, drop, failure and reconnect steps, a handler is called at most once |
| AsyncCallsTheorems.ObjectHasOneOwner | client.go:1122-1169 | an asyncHandler object is in the table, with one executing task, with its call, or in the pool once and empty, never two of these |
| AsyncCallsTheorems.TaskRunsItsOwnHandler | handler.go:1078-1091 | whoever took a call's object runs that call's handler, which was not called before |
| AsyncCallsTheorems.ErrorReturnWithoutCall | client.go:552-589 | a CallAsync that fails is never called back if and only if nobody had taken its object, or the taker has not run yet |
| AsyncCallsTheorems.PublishesTwiceIff | client.go:479-491 | a singleflight leader publishes at most twice, and twice if and only if its push failed after its entry was taken and that task has run |
| AsyncCallsTheorems.DroppedIsNeverCalled | client.go:1108-1138 | a call whose entry a dropped message removed is never called back |
| AsyncCallsTheorems.ClearTakesEveryCall | client.go:1155-1169 | clearAsyncHandler hands every pending object to a task of its own |
| AsyncCallsTheorems.TimerMayFireFirst | client.go:552-589 | the timer can take the object while the push is blocked |
| AsyncCallsTheorems.HandlerAndError | client.go:552-589 | and then an error return and a handler call both happen |
| AsyncCallsAnswers.RegisteredIffRunning | client.go:1122-1128 | a call is registered with its own object if and only if the Client runs |
| AsyncCallsAnswers.StaysRegistered | client.go:1122-1169 | and stays so until a timer, a response, a drop, a failed push, a reconnect or a Restart removes it |
| AsyncCallsAnswers.TakeStartsItsTask | handler.go:1078-1085 | a timer or response that finds the call registered takes it out to run its handler |
| AsyncCallsAnswers.ClearStartsEveryTask | client.go:1155-1169 | a reconnect does so for every registered call |
| AsyncCallsAnswers.TaskCallsItsHandler | handler.go:1078-1085 | a task that holds a call can run at once, and then that call's handler, and no other, has been called once more |
| AsyncCallsAnswers.AnsweredCallIsCalledOnce | client.go:552-589 | end to end: a call registered while the Client ran, whose response or timeout came first, has its handler called exactly once |
| AsyncCallsAnswers.StoppedIsNeverCalled | client.go:1122-1128 | a call added to a stopped Client is never called back |
| AsyncCallsAnswers.TaskRecyclesItsObject | handler.go:60-63 | after the handler the object can be emptied and pooled |
| AsyncCallsAnswers.RemovedIsRecycled | client.go:1130-1138 | a drop or a failed push recycles the object of a registered call |
| AsyncCallsAnswers.RunningIffNotStopped | client.go:707-804 | the Client takes registrations exactly if the last Stop or Restart was no Stop |
| AsyncCallsAnswers.CallCanBeAnswered | client.go:552-589 | any run goes on with a CallAsync that returns, is answered, called once, and its object pooled |
| AsyncCallsAnswers.CallCanFail | client.go:561-571 | or that fails and is not called |
| AsyncCallsAnswers.CallCanBeCleared | client.go:1155-1169 | or that a reconnect calls back |
| AsyncCallsAnswers.ClientCanRestart | client.go:707-768 | drops, Stop and Restart can come at any time |
| Sessions.DoneClosedAtMostOnce | client.go:1073-1119 | a session's done is closed at most once, and only when the session has left the table |
| Sessions.LeftForGood | client.go:302-338 | a session that left the table never comes back |
| Sessions.CallGetsItsOwnResponse | client.go:302-338 | a Call only ever receives a response with its own sequence number |
| Sessions.ResponsesGoHome | handler.go:1068-1076 | a response, queued or about to be sent, is for the session whose number it carries |
| Sessions.ClearWakesEveryCall | client.go:1097-1104 | clearSession empties the table and closes the done of every session in it |
| SessionAnswers.RegisteredIffRunning | client.go:1073-1079 | a call's session is registered if and only if the Client runs |
| SessionAnswers.StaysRegistered | client.go:1073-1104 | and stays so until its call returns, a drop takes it, a reconnect clears the table or a Restart replaces it |
| SessionAnswers.ReceiveGivesTheResponse | client.go:329-338 | a Call receives the oldest response in its done, and nil only if done is closed and empty |
| SessionAnswers.ResponseIsBuffered | handler.go:1068-1073 | a response with a registered number waits in that call's done once sent while it is open |
| SessionAnswers.ResponseIsReturned | client.go:302-338 | end to end: it is what the call's first receive after that returns, also if done is closed in between |
| SessionAnswers.SentOnce | handler.go:1068-1073 | a response is sent at most once |
| SessionAnswers.LateResponseIsLost | handler.go:1068-1073 | sent to a closed done it changes nothing |
| SessionAnswers.WokenCallCanReceive | client.go:329-338 | a waiting call can receive exactly when a response is there or done is closed |
| SessionAnswers.DropWakesItsCall | client.go:1108-1114 | dropMessage takes the session out and its close wakes the call |
| SessionAnswers.ReturnedIsOver | client.go:302-307 | a call that returned is off the table for good and receives nothing more |
| SessionAnswers.RestartForgets | client.go:722-733 | Restart begins with an empty table and wakes nobody |
| SessionAnswers.RunningIffNotStopped | client.go:707-804 | registrations are taken exactly if the last Stop or Restart was no Stop |
| SessionAnswers.CallCanBeAnswered | client.go:302-338 | any run goes on with a Call that returns its response |
| SessionAnswers.CallCanBeDropped | client.go:1108-1114 | or nil after a drop |
| SessionAnswers.CallCanBeCleared | client.go:1097-1104 | or nil after a reconnect |
| SessionAnswers.CallCanGiveUp | client.go:329-338 | or gives up; and the Client can be stopped and restarted at any time |
| PendingTables.Pending.GetAsyncHandler | handler.go:53-58 | a pooled or new object filled for the call |
| PendingTables.Pending.PutAsyncHandler | handler.go:60-63 | the object is emptied, then pooled |
| PendingTables.Pending.AddAsyncHandler | client.go:1122-1128 | registered only while running |
| PendingTables.Pending.DeleteAsyncHandler | client.go:1130-1138 | the entry is removed and its object recycled |
| PendingTables.Pending.GetAndDeleteAsyncHandler | client.go:1140-1150 | the entry is removed and its object handed over |
| PendingTables.Pending.ClearAsyncHandler | client.go:1155-1169 | the whole table is taken at once |
| PendingTables.Pending.AddSession | client.go:1073-1079 | registered only while running |
| PendingTables.Pending.DeleteSession | client.go:1081-1087 | the session removed, if any |
| PendingTables.Pending.ClearSession | client.go:1097-1104 | every session's done closed once, the table empty |
| PendingTables.Pending.DropMessage | client.go:1108-1119 | a dropped request closes its session's done, a dropped async one recycles its object, and the other table is untouched |
| Generations.OneLoopIffTimely | client.go:707-768 | over every run, overlapping Restarts included: at most one recvLoop is alive throughout if and only if every install finds all earlier loops returned |
| Generations.SeparateRestartsAreTimely | client.go:707-768 | runs whose Restarts do not overlap are such runs |
| Generations.AtMostOneLoop | client.go:707-768 | in those runs the loop that is alive is the current generation's |
| Generations.RunningIffOpen | client.go:774-830 | in every run the current chClose is open while running, and no chClose is closed twice; with timely installs running holds exactly while it is open |
| Generations.CallbacksOncePerGeneration | client.go:812-830 | in every run each generation runs onStop and OnDisconnected at most once, and one that is over ran both and closed its chClose; with timely installs every earlier one is over |
| Generations.InstalledAfterCallbacks | client.go:707-768 | an install makes a fresh open generation of a Client that was not running; with timely installs the old loop has returned and its callbacks ran |
| Generations.AcceptedWhileConnected | client.go:846-854 | with timely installs, when CheckState passes, the current loop is neither reconnecting nor torn down |
| Generations.BothMayRead | client.go:707-712 | two overlapping Restarts can read the same recvDone |
| Generations.BothMayWait | client.go:707-720 | two overlapping Restarts can wait for the same generation |
| Generations.BothMayBeCleaned | client.go:812-830 | the generation they stopped is torn down |
| Generations.BothMayBeReady | client.go:712-720 | both get past the wait |
| Generations.BothMayInstall | client.go:722-765 | with a Stop between, both install and two loops are alive |
| Generations.OverlappingRestarts | client.go:812-819 | the older loop's teardown then clears running while the newest chClose is open |
| GenerationsProgress.StopStops | client.go:797-804 | Stop, also inside Restart, leaves the Client stopped with its chClose closed, and changes nothing else |
| GenerationsProgress.CleanStops | client.go:812-816 | the teardown of a loop leaves the Client stopped and that loop's chClose closed |
| GenerationsProgress.InstallInstallsIff | client.go:722-765 | a Restart that dialed installs a fresh generation with its loop if and only if the Client is not running |
| GenerationsProgress.RunStarts | client.go:1225-1245 | run starts the Client and its first loop |
| GenerationsProgress.ReconnectingFollowsTheConn | client.go:1288-1335 | reconnecting is set when the conn breaks and cleared when it is redialed |
| GenerationsProgress.LoopGoesOn | client.go:1261-1352 | every loop that has not returned can go on through its teardown |
| GenerationsProgress.LoopCanEnd | client.go:812-830 | so every run goes on to its end, while the Restarts stay where they are |
| GenerationsProgress.RestartCanFinish | client.go:707-768 | and every Restart under way can finish, with the Client running |
| ClientLife.Client.Run | client.go:1225-1245 | starts a Client that is not running |
| ClientLife.Client.CloseIfOpen | client.go:786-792 | closes a chClose unless closed; no other one changes |
| ClientLife.Client.Stop | client.go:797-804 | clears running and closes the current chClose |
| ClientLife.Client.CloseAndClean | client.go:812-816 | clears running and closes the loop's own chClose |
| ClientLife.Client.Install | client.go:722-765 | unless running or the dial failed, a fresh open generation, running and not reconnecting |
| StreamClosing.EachHalfCountsOnce | stream.go:50-76 | under every interleaving each half is counted at most once, the counter stays within 2, and chData is closed at most once |
| StreamClosing.DeletedOnce | stream.go:225-229 | deleteStream runs at most once, when both halves are counted |
| StreamClosing.DeletedIffBothClosed | stream.go:225-229 | once all calls returned, it ran exactly if both halves are closed, and each closed half was counted |
| StreamClosing.NoSecondClaim | stream.go:174-188 | CloseSendContext's inner swap finds the half already its own |
| StreamDelivery.RecvReturnsAPrefix | stream.go:81-97 | the receiver makes one Stream, and Recv returns a prefix of the non-empty messages accepted, in order |
| StreamDelivery.NothingIsLost | stream.go:32-46 | the rest is in chData, with the dispatcher, or on the link |
| StreamDelivery.EofComesLast | stream.go:81-97 | io.EOF comes only after the sender closed and every non-empty message was returned |
| StreamDelivery.DroppedOnlyUnhandled | handler.go:1092-1120 | a message is dropped on arrival only if there is no Stream and no handler to make one |
| StreamProgress.OpenHalfAccepts | stream.go:164-188 | an open send half accepts exactly the data given, and an EOF closes it; a closed one accepts nothing |
| StreamProgress.ReceiverGoesOn | stream.go:32-46 | as long as anything sent is not received there is a step of the receiver that brings it closer |
| StreamProgress.NothingLeft | stream.go:81-97 | when nothing is left every non-empty message was returned, and after the EOF the next Recv returns io.EOF |
| StreamProgress.EverythingCanBeReceived | stream.go:32-97 | every run goes on, by the receiver alone, until all that was accepted is received |
| StreamProgress.CloseCloses | stream.go:50-76 | a CloseRecv or CloseSend past its swap leaves its half closed |
| StreamProgress.SentAndClosed | stream.go:174-188 | and so does a SendAndClose whose message went out |
| StreamProgress.OnlyClosersClose | stream.go:50-76 | a half is closed only if a call to close it was made |
| StreamProgress.CloserGoesOn | stream.go:50-76 | each such call can go on until it has returned |
| StreamRemoval.EntryGoneIff | client.go:1187-1203 | with no close under way, the receiver's entry is gone exactly if the EOF was taken and the Stream was there before it or has both halves closed |
| StreamRemoval.QueueIsBounded | stream.go:239-258 | chData never holds more than StreamQueueSize messages |
| StreamRemoval.EofIsFinal | stream.go:81-97 | after io.EOF Recv returns no further message, and all there ever are were returned before |
| StreamRemoval.OfferedCanBeReceived | stream.go:164-188 | every run goes on to one in which what is offered to the open Stream is received |
| StreamRemoval.StreamCanBeRemoved | stream.go:225-229 | every run goes on to one in which everything and then io.EOF was returned, both halves are closed and the entry is gone |
| StreamRemoval.EveryStepAdvances | stream.go:50-76 | every step of a call to close brings it closer to its return |
| StreamRemoval.CallCanClose | stream.go:50-76 | CloseRecv, CloseSend and SendAndClose can each be made at any time and then close their half |
| StreamRemoval.StreamCanBeDeleted | stream.go:225-229 | whatever calls are under way, the Stream can be brought to be deleted, once |
| StreamObjects.StreamObj.OnMessage | stream.go:32-46 | an empty body is ignored, a message after CloseRecv released, another one queued at the end unless the queue is full |
| StreamObjects.StreamObj.Recv | stream.go:81-97 | the oldest message, or io.EOF exactly when the receive half is closed and drained |
| StreamObjects.Client.NewStream | stream.go:239-258 | a new Stream in the map of its side under its id, fresh if none was given |
| StreamObjects.Client.DeleteStream | client.go:1171-1183 | removes only that id of that side, only while running |
| StreamObjects.Client.GetStream | client.go:1187-1203 | finds the Stream while running, and removes the entry on an EOF |
| StreamObjects.Client.HalfClose | stream.go:225-229 | counts, and deletes at the second count |
| StreamObjects.Client.CloseRecv | stream.go:50-55 | the first call closes chData and counts, later ones do nothing |
| StreamObjects.Client.OnStreamMessage | handler.go:1092-1120 | finds or makes the Stream, queues the message and closes the receive half on an EOF; the other side's map is untouched |
| StreamObjects.Client.ClearStream | client.go:1206-1221 | both maps emptied and every Stream that was in them closed for receiving |
| Wire.FieldsSurviveIff | proto.go:213-391 | the getters return what newMessage was given if and only if the cmd is below 64, the method below 256 bytes and the number below 2^64 |
| Wire.BodyLenSurvivesIff | proto.go:368-375 | the length field keeps the body length exactly below 2^32 |
| Wire.MethodChecksAgree | handler.go:1033-1037 | OnMessage reads a method only inside the buffer and drops exactly the frames whose method checkMethod refuses |
| Wire.NumberOfLittleEndian | proto.go:373-385 | k bytes written and read back are the number modulo 256^k |
| Wire.LittleEndianOfNumber | proto.go:114-134 | writing back the number that was read gives the same bytes |
| Wire.RecvUndoesSend | handler.go:958-988 | whatever follows, a frame is received whole, or refused if its body is over MaxBodyLen |
| Wire.CutFrameIsRefused | handler.go:958-988 | a frame cut short anywhere is an error, never a message |
| Wire.WholeFramesFirst | handler.go:958-988 | frames that arrive whole are received in order, whatever comes after them |
| Wire.RecvAllUndoesSend | handler.go:958-988 | however the frames are grouped into writes, receiving yields exactly them and ends at a clean end of input |
| Wire.ReceivedFieldsAreSent | proto.go:424-502 | and with them the cmd, flags, number, method and data that were sent |
| Wire.RelayIsTransparent | handler.go:958-988 | received Buffers are the bytes of the link, so sending them on changes nothing |
| Wire.OtherBitsKept | proto.go:243-300 | setting or clearing one bit leaves every other bit |
| WireBuffers.CmdReadsBack | proto.go:213-220 | a cmd below 64 reads back, and the two stream bits stay |
| WireBuffers.PutNumber | proto.go:373-385 | writes k little-endian bytes and nothing else |
| WireBuffers.Message.ResetAttrs | proto.go:196-198 | zeroes the four attribute bytes only |
| WireBuffers.Message.SetCmd | proto.go:218-220 | changes byte 5 only; a cmd below 64 reads back and the stream bits stay |
| WireBuffers.Message.SetBit | proto.go:243-300 | changes one bit of one byte only |
| WireBuffers.Message.NewMessage | proto.go:424-454 | whatever the pooled buffer held, it becomes the frame of the arguments |
| WireBuffers.Message.SetStreamBits | stream.go:182-184 | the frame with the two stream bits |
| WireBuffers.Message.NewWritevMessage | proto.go:465-502 | Buffer and body together are the same frame, and data the caller may change are copied |
| WireBuffers.Conn.ReadFull | handler.go:973-985 | fills the slice with the next bytes however Read cuts them up, or fails at the end of input |
| WireBuffers.RecvLength | proto.go:114-125 | the length, or the error for a short or too long one |
| WireBuffers.Recv | handler.go:958-988 | one receive on the bytes of the link |
| WireBuffers.RecvLoop | client.go:1277-1287 | repeated receiving on the bytes of the link |
| BufferPool.GoAppend | allocator.go:202 | plain concatenation, in place exactly if it fits |
| BufferPool.Pool.constructor | allocator.go:55-86 | the sizes and their defaults |
| BufferPool.Pool.Malloc | allocator.go:91-111 | a buffer of that length that was not live, new or from the pool of its size class, the other live ones untouched |
| BufferPool.Pool.Realloc | allocator.go:115-174 | keeps what fits of the content, replaces the buffer in the live set at most by one that was not live, and leaves the others alone; in place exactly if the capacity suffices, and the old buffer is pooled exactly if it moves across bigSize |
| BufferPool.Pool.AppendString | allocator.go:186-240 | old content followed by the new, the other live buffers untouched; the old buffer is pooled exactly if the length crosses bigSize |
| BufferPool.Pool.Free | allocator.go:244-259 | a live buffer, or without Debug one of the caller's own, goes to the pool of its capacity; in Debug mode exactly the buffers that are not live panic |
| BufferPool.Pool.HandOut | allocator.go:263-266 | keeps tracked equal to live and the counters apart by its size |
| BufferPool.Pool.Drop | allocator.go:270-276 | the same when a buffer leaves, and the panic for an untracked one |
| BufferPool.LiveIsApart | allocator.go:91-259 | no live buffer is in a pool |
| BufferUse.User.PerformAll | allocator.go:91-259 | for every sequence of operations and every choice of the pools and of append, the buffers hold what plain byte sequences would |
| BufferUse.User.DoFree | allocator.go:244-276 | a user who frees each buffer once never panics, even in Debug mode |
| BufferUse.User.DebugCounts | allocator.go:263-276 | in Debug mode allocCnt - freeCnt is the number of tracked buffers and of the user's buffers |
| MessageCallbacks.PushMsgDisposesOnce | client.go:660-702 | every path of PushMsg queues the Message or releases it, at most one of the two and once: exactly one if and only if it queues or the callback it ends in leads to a Release; a write comes before the release |
| MessageCallbacks.PushMessageDisposesOnce | client.go:912-938 | the same for pushMessage with and without a timer |
| MessageCallbacks.HandlingDisposesOnce | client.go:1376-1458 | a Message taken out of a queue is not queued again, and released once if and only if the callback of its way out leads to a Release |
| MessageCallbacks.CloneGoesByItsOriginal | handler.go:427-536 | the overstock and drop callbacks of a Clone release if and only if the Handler they were set on does |
| MessageRefs.ReleasedAtMostOnce | client.go:660-702 | however the acts of all paths interleave, a Client's reference is released at most once |
| MessageRefs.RefCountsHolders | proto.go:173-193 | ref + 1 is the number of Clients that have not released, and Broadcast until it has |
| MessageRefs.HeldIsNotFreed | server.go:96-108 | while a queue holds the Message or a goroutine still has to write or release it, it is not freed; so no act on it comes after the free |
| MessageRefs.FreedOnceByTheLast | proto.go:180-193 | it is freed at most once, and the free is owed exactly when everyone has released |
| MessageRefs.ReleasedIffDisposed | client.go:660-702 | a Client with nothing left to do has released if and only if the callback that ended its path leads to a Release and its queue does not still hold the Message |
| MessageRefs.FreedIffAllDisposed | server.go:96-108 | so the Message is freed in the end if and only if that holds of every Client |
| MessageRefs.WritevLosesNothing | client.go:942-978 | with AsyncWritev nothing is queued after the last drain, so with the callbacks set every reference is released |
| MessageRefs.LostIffQueuedTooLate | client.go:1384-1393 | with every callback set, a reference is lost if and only if it entered chSend after the send loop had returned |
| MessageRefs.QueuedTooLate | client.go:680-686 | which happens when the Client stops between CheckState and the select |
| MessageProgress.ClientGoesOn | client.go:660-702 | no Client is stuck: until it is at rest a step of its own leaves less to do and touches no other |
| MessageProgress.OwedIsFreed | proto.go:180-193 | the free that is owed can be done at once |
| MessageProgress.CasterCounts | server.go:96-108 | Broadcast gives each Client one reference and gives up its own |
| MessageObjects.Message.Retain | proto.go:173-175 | one more, and the new count |
| MessageObjects.Message.Release | proto.go:180-193 | one less, and freed exactly at -1 |
| MessageObjects.Handler.Clone | handler.go:427-428 | a new Handler with the same callbacks, its wrappers still those of the old one |
| MessageObjects.Handler.HandleOverstock | handler.go:514-521 | the wrapper is bound to this Handler |
| MessageObjects.Handler.HandleMessageDropped | handler.go:529-536 | the same for drops |
| MessageObjects.Handler.OnMessageDone | handler.go:548-552 | releases exactly if the registered callback does |
| MessageObjects.Handler.OnOverstock | handler.go:523-527 | what OnMessageDone of the Handler it was set on does, or nothing |
| MessageObjects.Handler.OnMessageDropped | handler.go:538-542 | the same for drops |
| MessageObjects.PushMsg | client.go:660-702 | calls the callbacks of its path, and says whether it queued |
| MessageObjects.Broadcast | server.go:96-108 | after the loop and its own release, the count is the number of references not released on the spot, and the message is freed exactly if there are none |
| HandlerChain.NextEntersInOrder | context.go:139-145 | Next enters the handlers from the index on, in order, without repeats, up to the first that aborts before calling Next |
| HandlerChain.ChainEntersAPrefix | handler.go:694-697 | so a chain is entered 0, 1, 2, ... |
| HandlerChain.AllEnteredIff | context.go:139-150 | all handlers are entered if and only if none before the last aborts first |
| HandlerChain.AbortEndsNext | context.go:148-150 | no handler is entered after an Abort |
| HandlerChain.Context.Next | context.go:139-145 | the method with its recursion through the wrapped bodies terminates and does that |
| HandlerChain.Context.Abort | context.go:148-150 | moves the index past every chain |
| Routes.ChainOfMethod | handler.go:690-931 | after any history, a method's chain is the middlewares before its first Handle, its handler, and the middlewares after |
| Routes.UnregisteredIsAbsent | handler.go:890-931 | a method never registered has no chain |
| Routes.DefaultChain | handler.go:898-909 | without HandleNotFound the "" chain is the default handler among the middlewares around the first registration |
| Routes.NotFoundChain | handler.go:884-931 | otherwise the last HandleNotFound, in the same way |
| RouteObjects.Handler.Use | handler.go:690-708 | appends to middles and to a copy of every chain, so a chain in use is never written; nil is ignored |
| RouteObjects.Handler.Register | handler.go:890-931 | registers the chain and the default, or panics on a name too long or taken |
| RouteObjects.Handler.Handle | handler.go:720-725 | the same, refusing the empty name |
| RouteObjects.Handler.HandleNotFound | handler.go:884-886 | replaces the "" chain |
| RouteObjects.Handler.Clone | handler.go:427-466 | the same table in fresh arrays |
| RouteObjects.Interleave | handler.go:427-466 | a handler and its clone, changed in any order, each end as their own operations alone would leave them: with the chains of the common history followed by their own |
| ClientPool.DrawsDistinctIff | client.go:1552-1564 | the draws of a call are distinct if and only if no wrap falls inside the scan or the size divides 2^64 |
| ClientPool.FindsHealthyIff | client.go:1552-1564 | under the same condition, and only then, Next returns a healthy Client whenever there is one |
| ClientPool.WrapMissesAHealthyClient | client.go:1552-1564 | three Clients for which the wrap costs the healthy one |
| ClientPool.NoneHealthy | client.go:1552-1564 | with nothing healthy, the last one tried is returned |
| ClientPool.AllHealthyCycles | client.go:1583-1588 | with all healthy, call j of a new pool returns index j modulo the size |
| ClientPool.Pool.Next | client.go:1552-1564 | the loop makes exactly those draws and returns that Client |

## Left out

- net.Conn, dialing, deadlines and listeners: a conn is a list of pieces that may end or fail, a dialer may fail.
- Timers and clocks: a timer is a step that may happen at any point; a waiting push may time out.
- Codecs and JSON: abstract deterministic functions; fmt-based singleflight keys are abstract keys.
- Message coders: abstract functions in the send loops, absent from Broadcast and from the wire round trip.
- Reflection in Register and newStructHandler, logging, panic recovery, key-value maps, and configuration getters and setters: easy members only.
- RecvContext: it does not look for a closed channel, so the delivery results are for Recv.
- Streams on a broken connection, and a receiver that calls CloseRecv itself while messages arrive.
- A sender that calls Send and CloseSend on one Stream concurrently.
- Server load counting and the accept loop.
- Keepalive, Ping and Pong.
- Liveness of an async singleflight leader whose request is dropped: only safety is stated.
- Stopping during a successful redial: the loop may go on receiving until that conn breaks; only what the theorems state holds then.
- The wrap of the 64-bit sequence number, of int32 reference counts and of the allocator's counters.
- Send errors in the two send loops: the wire is what Send was given; a failed Send closes the conn and the loop goes on as modelled.
- MessageRefs.ReleasedAtMostOnce: onMessageDone either releases once, as EnablePool(true) sets it, or not at all; a user's own callback that does more is not modelled. One generation of each Client, without coders.
- MessageObjects.Broadcast: runs alone, before any queue moves; MessageRefs has the interleavings.
- StreamObjects.Client.OnStreamMessage: returns where the source would wait for room, and does not run the stream handler.
- StreamObjects.Client.ClearStream: returns the Streams whose CloseSend goroutines the source starts; StreamClosing has those goroutines.
- RouteObjects.Handler.Clone: middlewares and routes; coders, stream handlers and singleflight methods are copied in the same way, and the callbacks are in MessageObjects.
- StreamObjects.StreamObj.OnMessage: reports that it would wait for room instead of waiting; StreamDelivery has the wait and the hand-over to a waiting Recv.
- BufferPool.Pool.Realloc: for buffers from this pool only; nil slices, slices that do not start at their array and the Debug panic on capacity 0 are not modelled.
- BufferPool.Pool.AppendString: for buffers from this pool only, as Realloc.
- BufferPool.Pool.Free: with Debug off, not of a buffer that is already in a pool and not of one with capacity 0; the source puts both there.
- SetFlagBit and IsFlagBitSet on the reserved byte.
- ClientPool.Pool.Next: sequential use and a non-empty pool; concurrent calls share the counter and may draw the same index twice.
- NativeAllocator and NewMessageWithBuffer.

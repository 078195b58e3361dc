# Job logs and job tracking: a verified model

A job runner starts child processes for its users and keeps, for each, a log of everything the child
writes and a snapshot of its state. This project models that machinery and proves what its users rely
on: the log a client receives is exactly the child's output, whenever the client subscribed and however
slow or short-lived the other clients are; a job is reported as exited when its log ends; kill requests
are accounted for; and users cannot see or disturb each other's jobs.

## The system

A job is a pipeline of tasks connected by bounded channels.

- Two *readers* cut the child's stdout and stderr into frames of at most 1024 bytes (`Readers`).
- The *tracker* merges their frames with kill requests and the child's exit, and ends its output with
  one terminal event, EOF or an error (`Tracker`).
- The *broadcaster* keeps the history and offers each event, without waiting, to the relays.
- Each *relay* replays a snapshot of the history to its client and then follows it; a relay that cannot
  take an event is evicted. A *forwarder* turns a client's events into the items of its response
  (`Sessions`, `Relays`).
- `System` puts the tasks together as a transition system: `Enabled` and `Apply` say which steps are
  possible and what they do, one step being the code a task runs between two suspensions, and a run is a
  sequence of steps. A `select!` may take any arm that is ready; a send that is pending when another arm
  is taken has not been sent.
- `WinStream` is the stream used on Windows: a thread that reads a pipe, a bounded queue, and a poll
  function that hands the bytes out. `Bridge` connects it to the pipeline.
- `Coordinator` is the map of all users' jobs. Asking for logs and killing a job span several steps, in
  which anything may happen to the job and the others; they are two methods each, one for the code up
  to the request and one for the code after the wait. `Answers` says what callers and clients are told.

The classes (`JobTracker`, `FrameBroadcaster`, `FrameRelay`, `RelayTask`, `WinHandleOutputStream`,
`MemoryCoordinator`) update their fields in place, as the program does; their methods are proved to make
the steps of the functions `System`, `WinStream` and `Coordinator` are built from. The loops that run
start to finish (`ConsumeOutput`, `ForwardLogs`, `Drain`, `ReadHandle`) are proved against their whole
input.

`Invariant` states one invariant over all stages and proves that every step keeps it. The other modules
draw the consequences: `LogTheorems`, `EndToEnd`, `Refinement`, `Observers`, `KillTheorems`, `Progress`
and `Eviction`. `Guards` says when each step is possible in a reachable state, and `Arms` what the
tracker's select can still be brought to.

## Assumptions

- Channels are first-in first-out with exact capacity. A receive reports a closed channel only when the
  buffer is empty and no sender is left; a cancelled send has not sent; a non-blocking send fails only
  when the channel is full or its receiver is gone; a dropped receiver discards what was buffered.
- Senders are counted. The relay's task holds a sender of its own input, and the broadcaster's task a
  sender of its own request channel, so those receivers never report a closed channel. The prose at
  src/proc/coord.rs:498-501 has dropped relays signal the end to their clients; in the code it is the
  terminal event that does, and the model follows the code.
- A stream is given by all the bytes it will ever yield and how it ends; reads cut it in any sizes. A
  stream that never ends is covered for safety, since a run reads only a prefix of it. The progress
  results are about streams that end and a child that exits: both are steps somebody takes.
- The child is an oracle. Where a result says "given the contract", killing the child fails once waiting
  for it has returned; `BrokenContractLosesKill` shows what goes wrong otherwise.
- Registering a waker and waking it are single steps. The wake of the thread may fall between the
  consumer's registration and its look at the queue.
- Job ids are fresh, as a clash is a panic. Times are unconstrained clock readings. A caller that waits
  at most a second, or is cancelled, may leave at any moment.
- `seen`, `cut`, `relayed`, `received`, `got`, `snap`, `piped`, `sent` and `results` record history; no
  step depends on them.

Five facts about the code that its comments do not mention come out of the proofs. A client whose relay
was evicted is never told: its response stays open and never ends (`EvictedHoldsStrictPrefix`,
`EvictedStaysFrozen`, `EvictionHappens`), and a listening client is served to the end exactly if its relay
never had 1024 unread events when another was fanned out (`ServedIffNeverFull`). A tracker that ended
with a read error may leave the job running in its snapshot, for good (`ReadErrorLeavesRunning`); the
snapshot says exited exactly if waiting for the child succeeded first (`ExitedIffWaitSucceeded`). Kill
requests can still be retained after the child's end (`RetainedOutlivesChild`; `RetainedOutliveChildIff`
says exactly when). A kill request that waits when the exit is noted after both streams have closed never
reaches the child (`KillReachesChildIff`). And a poll of the Windows stream with a full buffer can swallow
the mark of the end (`PollingWithoutRoomLosesWakeup`); the reader in this system always offers 1024 bytes
of room and stops at the end, which is exactly what is needed (`StrandedIff`).

## Model

| member | source | states |
|---|---|---|
| Readers.ConsumeOutput | src/proc/coord.rs:396-417 | for every history of reads and every point at which the tracker goes away, the loop sends exactly the messages that history amounts to: one frame per non-empty read, in order, then the read error if there was one |
| Readers.ReaderKeepsInv | src/proc/coord.rs:397-412 | at every step the frames cut carry exactly the bytes read so far, each 1 to 1024 bytes and of the right kind, and an error is only ever the last message |
| Readers.ReaderKeepsFlow | src/proc/coord.rs:386-417 | frames the tracker took, frames in the 16-slot channel and the frame being sent are, in order, exactly the frames cut |
| Readers.FinishedReaderMatchesLoop | src/proc/coord.rs:391-418 | the suspended-step reader and the loop agree: a finished reader has read a complete history, and the loop turns it into the same frames, carrying the whole stream |
| Tracker.JobTracker.constructor | src/proc/coord.rs:258-265 | everything is listened to, nothing is retained, the job is as given |
| Tracker.JobTracker.OnOutput | src/proc/coord.rs:279-290 | a frame is taken to be sent on, a read error ends the loop with that error, a closed channel disables that stream and no other, and ends the loop if nothing is left; job and retained requests are untouched |
| Tracker.JobTracker.OnFrameSent | src/proc/coord.rs:305-307 | back to the select, or out of the loop if nothing is left, or out of it with the broadcaster's disappearance as the error |
| Tracker.JobTracker.OnKillRequest | src/proc/coord.rs:316-321 | takes one unanswered request in hand and goes to the child's kill for it; a closed channel disables the arm |
| Tracker.JobTracker.OnKilled | src/proc/coord.rs:322-325 | a failed kill is answered at once, to that request only, which had no answer before; a successful one answers nobody yet |
| Tracker.JobTracker.OnMarkKilled | src/proc/coord.rs:326-336 | puts the requester's name and this clock reading in the job, nothing else, and retains the request last, unanswered |
| Tracker.JobTracker.OnChildWaited | src/proc/coord.rs:338-341 | notes that the child is gone and goes on to record the exit, or ends the loop with the wait error |
| Tracker.JobTracker.OnRecordExit | src/proc/coord.rs:342-355 | sets this clock reading as the end time and the reported status as exit state, together and nothing else, and gives every retained request, none of which had an answer, that same snapshot; none stays retained |
| Tracker.JobTracker.OnStoreResult | src/proc/coord.rs:369-377 | stores success or the loop error, and drops what is retained |
| Sessions.StartSessionInv | src/proc/coord.rs:618-645 | a new relay holds exactly the history as its backlog, with one sender of its own and one of the broadcaster if tracked |
| Sessions.OfferKeepsInv | src/proc/coord.rs:552-557 | a new event reaches a tracked relay at its end, or evicts it; either way the session stays consistent with the longer history |
| Sessions.RelayStepChain | src/proc/coord.rs:668-691 | no step of a running relay loses, repeats or reorders an event, cancelled sends included |
| Sessions.SessionKeepsInv | src/proc/coord.rs:648-692 | every step of a relay, its forwarder and its client keeps sender counts, the no-gap-no-duplicate equation and the items-of-events equation |
| Sessions.ForwardRecvKeeps | src/grpc.rs:249-281 | taking an event keeps what the client has, what waits and what is in hand equal to the items of the events taken; after EOF the forwarder is closed |
| Relays.FrameBroadcaster.constructor | src/proc/coord.rs:529-534 | an empty history, no relays, both receivers listened to |
| Relays.RelayTask.constructor | src/proc/coord.rs:654-657 | the snapshot is the backlog and nothing is in hand |
| Relays.FrameRelay.Accept | src/proc/coord.rs:703-709 | accepts exactly when the input has room and its receiver lives |
| Relays.FrameBroadcaster.OnFrame | src/proc/coord.rs:552-557 | the event joins the history; exactly the relays with room and a live receiver are kept, in order, each with the event at its end; the list stays that of the sessions the system tracks |
| Relays.FanOutOffers | src/proc/coord.rs:552-556 | the fan-out to the tracked sessions is the offer of the event to each of their inputs, keeping those with room |
| Relays.FrameBroadcaster.OnFramesEnd | src/proc/coord.rs:545-551 | every relay loses the broadcaster's sender and the list is empty |
| Relays.FrameBroadcaster.OnRequest | src/proc/coord.rs:567-574 | if the caller takes the receiver, a relay starts on the current history and is tracked only while more events may come; if the caller is gone, none is started |
| Relays.FrameBroadcaster.OnRequestsEnd | src/proc/coord.rs:562-566 | a closed request channel keeps history and relays, and ends the loop only if no events can come either |
| Sessions.RefillTakesOldest | src/proc/coord.rs:669-671 | the head of the relay's loop leaves the oldest event not yet sent in hand and the others waiting in order, whether or not a send was cancelled; the hand is empty only if there is nothing to send |
| Relays.RelayTask.OnBroadcast | src/proc/coord.rs:673-682 | an arriving event goes to the end of the deque and a pending send keeps its event |
| Relays.RelayTask.OnSent | src/proc/coord.rs:683-690 | a sent event leaves the hand; a failed send ends the task |
| Relays.RelayTask.Drain | src/proc/coord.rs:693-698 | sends the event in hand and then the deque, in order, up to what the client takes |
| Invariant.InitInv | src/proc/coord.rs:219-236 | a freshly tracked job satisfies the invariant |
| Invariant.StepKeepsInv | src/proc/coord.rs:294-361 | every step of every task keeps the one invariant that spans readers, tracker, broadcaster, relays, forwarders, requests and kills |
| Invariant.ReachableInv | src/proc/coord.rs:219-236 | the invariant holds after every run |
| Invariant.TakeMessageFlow | src/proc/coord.rs:279-290 | the message at the head of a stream's channel is the next frame that stream cut |
| Invariant.TrackerNeverCutOff | src/proc/coord.rs:305-307 | no send of the tracker ever fails and its kill channel never closes under it |
| Invariant.RequestsNeverEnd | src/proc/coord.rs:559-566 | the broadcaster's request channel never closes, because senders are counted and its own task holds one |
| Invariant.AnswerRetainedKeeps | src/proc/coord.rs:353-355 | recording the exit answers exactly the retained requests and leaves the queued ones in line |
| LogTheorems.TerminalDiscipline | src/proc/coord.rs:541-551 | every history has at most one terminal event, last; once the source has closed it has exactly one, is the whole log, and no relay is tracked |
| LogTheorems.TerminalMeansWhole | src/proc/coord.rs:760-770 | what a client received is a prefix of the log, and a client holding a terminal event holds all of it |
| LogTheorems.ReplayAgreement | src/proc/coord.rs:581-598 | two clients that reached a terminal event received identical sequences |
| LogTheorems.LateSubscriberSeededWithAll | src/proc/coord.rs:559-574 | a request served after the source closed is seeded with the whole sealed log |
| LogTheorems.EachServedHasOwnSession | src/proc/coord.rs:581-598 | each served request for the log has a session, and no other request has the same |
| LogTheorems.NoGapNoDuplicate | src/proc/coord.rs:648-691 | received, client channel, in hand, deque and input together are exactly the history, across snapshot hand-over and cancelled sends |
| LogTheorems.EvictedHoldsStrictPrefix | src/proc/coord.rs:552-556 | an evicted running relay holds a strict prefix of the history, and its client has no terminal event |
| LogTheorems.EvictedStaysFrozen | src/proc/coord.rs:552-556 | no step ever extends it: eviction is for good |
| LogTheorems.EvictedIffFull | src/proc/coord.rs:703-709 | a running relay that is tracked is evicted by a step if and only if the step fans out an event and the relay has exactly 1024 unread ones |
| LogTheorems.EvictionBound | src/proc/coord.rs:628-628 | a running relay offered at most 1024 events after its snapshot is not evicted |
| LogTheorems.LogIsMerge | src/proc/coord.rs:302-315 | the log's frames interleave a prefix of each stream's frames; after EOF both prefixes are whole, error-free streams |
| LogTheorems.EofMeansExited | src/proc/coord.rs:370-376 | EOF anywhere, with the tracker, on its way to the broadcaster, in the history, in any relay's input, deque or output, or received, means the job is recorded as exited with its end time, and is the log's last event |
| LogTheorems.ExitedIffEnded | src/proc/coord.rs:344-350 | exited exactly when the end time is set, in every reachable state |
| LogTheorems.StoredResult | src/proc/coord.rs:363-376 | a finished tracker stored success exactly when the log ends with EOF, and then the exit is recorded |
| KillTheorems.ExitedIffWaitSucceeded | src/proc/coord.rs:338-357 | over every run: the job is recorded as exited, or about to be, if and only if in the run waiting for the child returned its exit; for a finished tracker, exited if and only if it did |
| KillTheorems.ReadErrorLeavesRunning | src/proc/coord.rs:309-315 | a concrete run in which it did not: a read error ends the tracker and the job is recorded as running |
| KillTheorems.StoppedJobIsFinal | src/proc/coord.rs:363-376 | once the tracker has ended no step changes the job |
| LogTheorems.ErrorIsReal | src/proc/coord.rs:363-369 | an error that ends a log is the read error of that very stream, or a failed wait |
| LogTheorems.LogEndsWellIff | src/proc/coord.rs:363-376 | a finished log ends with EOF if and only if neither stream failed and the exit is recorded |
| LogTheorems.LogServiceOutlivesJob | src/proc/coord.rs:512-541 | the broadcaster never leaves its loop, no send to it fails, BroadcasterDisappeared never happens, no log request is refused for want of it |
| LogTheorems.RelayOutlivesJob | src/proc/coord.rs:640-649 | a relay never sees its input close, so it never drains and ends only once its client is gone; a forwarder never sees a log stop without a terminal event |
| LogTheorems.NoEmptySelect | src/proc/coord.rs:294-301 | no select is entered with every arm disabled |
| Guards.SelectArms | src/proc/coord.rs:301-341 | in every reachable state at the select: a queued kill can be taken, whatever else there is, and leads to the child's kill of that very request; any report of the child is heard while it has not been waited for; a stream's next message can be taken and leads to being sent on or to its error; a stream is switched off exactly when read to its end |
| Guards.AwaitGuards | src/proc/coord.rs:305-366 | in every reachable state the tracker's sends can complete exactly while fewer than two events are queued, the child's kill can return in every way its contract allows |
| Guards.BroadcasterGuards | src/proc/coord.rs:541-567 | in every reachable state a queued event, and a queued request, can be taken whatever the relays do; the source is seen closed exactly when the tracker has ended and nothing is left |
| Guards.ReaderGuards | src/proc/coord.rs:386-412 | in every reachable state a read can return any 1 to 1024 of the bytes left; messages can be sent exactly while fewer than sixteen wait and the tracker has not ended |
| Guards.SessionGuards | src/proc/coord.rs:672-690 | in every reachable state a relay can take a waiting event, and send its oldest while fewer than 1024 wait for the client, each whatever the other; it gives up exactly when its client is gone |
| Guards.RequestGuards | src/proc/coord.rs:583-598 | in every reachable state a log request can be sent exactly when the queue is empty, is never rejected, and its caller may leave |
| Guards.KillGuards | src/proc/coord.rs:421-430 | in every reachable state the owner may ask; a request can be sent exactly when the queue is empty and the tracker lives, and is refused exactly when it has ended |
| Guards.DrainArms | src/proc/coord.rs:678-698 | were a relay's input to close: it drains, sending what it still holds in order and letting it go once the client is gone, and then ends |
| Guards.LeavingDiscards | src/grpc.rs:240-262 | a client that goes away leaves no item queued, and no forwarder if its response was not handed over yet |
| Arms.KillReachesChild | src/proc/coord.rs:301-325 | a queued kill can be brought to the child's kill by the job's own steps while the tracker will still select |
| Arms.KillReachesChildIff | src/proc/coord.rs:295-325 | some run brings a queued kill to the child if and only if the tracker has not left its loop and is not noting the exit with both streams closed |
| Arms.EndIsHeard | src/proc/coord.rs:338-357 | while the child has not been waited for and the tracker will still select, the job's own steps lead to noting whatever the child reports |
| Arms.MessageIsTaken | src/proc/coord.rs:302-315 | the message at the head of a stream that is listened to can be brought to the log by the job's own steps |
| EndToEnd.NothingInvented | src/grpc.rs:247-283 | at any moment the bytes of a stream a client has received are a prefix of what the child wrote |
| EndToEnd.CompleteResponseIsWholeOutput | src/grpc.rs:247-283 | a response that ended with no error item delivered exactly the bytes of each stream to its end of file, and the job is recorded as exited |
| EndToEnd.CompleteResponseOkIffEof | src/grpc.rs:270-280 | an ended response has no error item if and only if the log ends with EOF |
| EndToEnd.GotMirrorsLog | src/grpc.rs:257-271 | at any moment each item a client has is that of the event in the same place of the log: same stream, same bytes, same error |
| EndToEnd.CompleteResponseMirrorsLog | src/grpc.rs:257-281 | an ended response has one item for every event but end of file; if the log ends with an error the last item is a failure with that error and no other item is one |
| EndToEnd.ReceivedErrorIsReal | src/grpc.rs:266-271 | a client told of a read error was told how that very stream failed |
| EndToEnd.ItemsKeepBytes | src/grpc.rs:394-399 | turning events into items, stream kinds included, keeps each stream's bytes |
| EndToEnd.ForwardLogs | src/grpc.rs:248-282 | against any event sequence and any departure of the client: one item for each event before the first terminal one, of its stream and bytes; then a failure with the error if that is what ended it, nothing after end of file, a report of an unexpected end if nothing did |
| EndToEnd.ResponseOfSealedLog | src/grpc.rs:248-282 | on a whole log the loop's response is the items of its events |
| Refinement.LogOnlyGrows | src/proc/coord.rs:294-378 | only the tracker changes the log, by appending one event while it is unsealed |
| Refinement.StepRefines | src/proc/coord.rs:529-579 | every step appends to the log, adds a cursor at 0, advances one cursor, or does neither |
| Refinement.PipelineRefinesLog | src/proc/coord.rs:294-378 | every run of the pipeline is a run of an append-only log with a cursor for each client |
| Refinement.CursorReadsLog | src/proc/coord.rs:648-700 | what a client has received is the log up to its cursor |
| Observers.ClientsAreObservers | src/proc/coord.rs:541-576 | a step not about log clients is possible with them exactly when it is without them, with the same effect; steps about clients change nothing else |
| Observers.ErasedRun | src/proc/coord.rs:541-576 | erasing clients and their steps from a run gives a run of the job alone with the same outcome |
| Observers.LiftedRun | src/proc/coord.rs:703-709 | every run of the job alone can be taken with any clients present |
| KillTheorems.KillRequestsConserved | src/proc/coord.rs:316-337 | each pending request stands exactly once in the tracker's line, no other does, and none is dropped before the tracker ends |
| KillTheorems.SettledForGood | src/proc/coord.rs:421-430 | an answer, refusal, withdrawal or drop is final: nothing is answered twice |
| KillTheorems.KillReturning | src/proc/coord.rs:322-325 | a kill that failed is answered to the request in hand with the child's error and to nobody else; one that worked is answered to nobody yet |
| KillTheorems.KillNoting | src/proc/coord.rs:326-336 | noting a kill puts the requester's name and the clock reading in the job and retains the request |
| KillTheorems.RecordingAnswers | src/proc/coord.rs:342-355 | noting the exit answers each retained request with the job as it is then, and nobody else |
| KillTheorems.TimesAndRepliesAreNoted | src/proc/coord.rs:316-355 | over every run: end time and kill mark are set exactly if the exit and a kill were noted, to clock readings taken then; a failed kill is answered with an error the child's kill returned, a successful one only if it once worked |
| KillTheorems.ReceivedKillsAreAnswered | src/proc/coord.rs:352-355 | given the child's contract, requests are retained only until the exit is recorded, and a run that ends with EOF has dropped no request the tracker received |
| KillTheorems.RetainedOutliveChildIff | src/proc/coord.rs:334-341 | given the contract, "requests are retained only while the child has not been waited for" ceases to hold at a step if and only if the wait returns while a request is retained |
| KillTheorems.RetainedOutlivesChild | src/proc/coord.rs:334-341 | and does cease: reachable states with a retained request after the exit, and after a failed wait |
| KillTheorems.SuccessfulKillIsTruthful | src/proc/coord.rs:328-355 | a successful reply is this job, exited and ended, killed by its owner, who asked; given the contract, its final snapshot |
| KillTheorems.JobHistoryIsMonotone | src/proc/coord.rs:343-355 | over any run id, owner and start time stay and the job moves only from running to killed to exited; given the contract nothing changes after that |
| KillTheorems.ExitIsTheChilds | src/proc/coord.rs:338-357 | over any run the exit status in the job is one the child reported, and so is a wait error that ends the log |
| KillTheorems.BrokenContractLosesKill | src/proc/spawn/mod.rs:36-42 | without the contract: a run that ends with EOF, drops a received request and changes an exited job |
| Progress.EveryStepWorks | src/proc/coord.rs:301-360 | every step other than a new arrival strictly decreases one measure over all stages |
| Progress.RunsAreBounded | src/proc/coord.rs:301-360 | a run without new arrivals is no longer than the measure at its start |
| Progress.TrackerMoves | src/proc/coord.rs:294-378 | until the tracker has ended, a step of the job itself is possible, whatever its log clients do |
| Progress.JobStepsAreBounded | src/proc/coord.rs:294-378 | the job's own steps in any run are bounded by the work at its start and the number of kills asked for, however many log clients arrive, act and leave |
| Progress.ListenerIsServed | src/proc/coord.rs:668-692 | for each client alone: while it listens, was not evicted and lacks the end of its response, a step of the job or of its own session is possible |
| Progress.ClientStepsAreBounded | src/proc/coord.rs:668-692 | the steps of the job and of one client's own session in any run are bounded by what was left to do for that client and the number of kills asked for, whatever other clients arrive, act and leave |
| Progress.QuiescentIsComplete | src/proc/coord.rs:541-576 | when nobody can step the tracker has ended, the log is sealed, no log request is open, every kill request is settled, and every such client has its whole response |
| Progress.EverythingSettles | src/proc/coord.rs:294-378 | from every reachable state a run without arrivals or departures leads to where nobody can step |
| Progress.EveryListenerIsServed | src/proc/coord.rs:392-418 | a run in which others come and go as they like, taken as far as it goes for one client, has given that client, if it listens and was not evicted, the response to the entire log; the steps it took are bounded |
| Progress.ListenerCanBeServed | src/proc/coord.rs:648-692 | from every reachable state the job and its session can by themselves bring a listening client that was not evicted its whole response |
| Eviction.ServedIffNotEvicted | src/proc/coord.rs:552-556 | when nothing more can happen for a listening client it has its whole response if and only if its relay was not evicted |
| Eviction.EvictedIffMetFull | src/proc/coord.rs:552-556 | over whole runs, a relay that still runs was evicted if and only if some event was fanned out while it had 1024 unread ones |
| Eviction.ServedIffNeverFull | src/proc/coord.rs:703-709 | over whole runs from a fresh job, a listening client is served to the end if and only if that never happened to its relay |
| Eviction.EvictionHappens | src/proc/coord.rs:703-709 | a concrete reachable state with an evicted listening client, 1025 events after it subscribed, 1024 of them unread by its relay |
| WinStream.PollConserves | src/proc/spawn/win.rs:491-527 | a poll hands out, keeps and leaves queued exactly the bytes there were, within the room given |
| WinStream.ReadBuf.PutSlice | src/proc/spawn/win.rs:523-523 | appends exactly these bytes to the filled part of the caller's buffer |
| WinStream.WinHandleOutputStream.constructor | src/proc/spawn/win.rs:421-432 | an empty buffer and no waker |
| WinStream.ReadHandle | src/proc/spawn/win.rs:438-477 | against any pipe and any moment at which the reader goes away: one item for each read up to the first that ends the pipe, carrying its bytes, none for a broken pipe, or its error; the task is woken after each item sent and after an error that could not be |
| WinStream.WinHandleOutputStream.Poll | src/proc/spawn/win.rs:484-528 | registers the waker; hands out what fits of the buffer, or of the next chunk once that is used up, or passes on an error; with nothing queued it reports the end exactly if no sender is left; the caller's buffer grows by exactly the bytes of the result |
| WinStream.ZeroBytesMeansEnd | src/proc/spawn/win.rs:502-511 | a zero-byte result into a buffer with room, or an error, is returned only when the thread has sent its last item and nothing is left |
| WinStream.BytesConserved | src/proc/spawn/win.rs:438-477 | for any consumer, buffer sizes and interleaving, delivered, buffered and queued bytes are those sent; a zero-byte result or an error came only after every byte of the pipe |
| WinStream.EndIsThePipes | src/proc/spawn/win.rs:438-475 | over all runs of a careful consumer told of an end: it was told of an error if and only if a read returned that error, of end of file if and only if a read found the pipe broken or returned no bytes; the bytes are those the reads returned |
| WinStream.WinGuards | src/proc/spawn/win.rs:438-527 | over all runs, when each step of the thread and the task is possible: the thread can send exactly while fewer than 1024 items wait |
| WinStream.ParkedIsWaited | src/proc/spawn/win.rs:438-477 | whatever a consumer does, it is parked and unscheduled only with its waker set and the queue empty or the thread between send and wake; the thread can then send what it holds |
| WinStream.StrandedIff | src/proc/spawn/win.rs:465-475 | over all runs, a kind of consumer is never left parked and unscheduled by a thread that will not wake it any more, if and only if it stops at the first zero-byte or error result and always offers room |
| WinStream.NoLostWakeup | src/proc/spawn/win.rs:465-475 | the two together: such a consumer is never parked unscheduled with something in the queue unless the thread is between send and wake, nor once it has finished |
| WinStream.PollingOnLosesWakeup | src/proc/spawn/win.rs:471-475 | stopping is needed: a concrete run that parks a consumer for good |
| WinStream.PollingWithoutRoomLosesWakeup | src/proc/spawn/win.rs:491-527 | room is needed: a concrete run in which a poll without room swallows the mark of the end and the consumer is parked for good |
| WinStream.PipeToFrames | src/proc/spawn/win.rs:440-475 | when such a consumer has been told of the end, what it read is a complete history for the reading loop, the frames cut from it carry exactly the bytes the reads of the pipe returned, and the loop reports an error if and only if a read failed with it |
| Bridge.StreamDrivesReader | src/proc/coord.rs:396-417 | a pipeline reader whose source is that pipe can always take the next result of the stream as its next step: each chunk as one read and frame, and the end, with or without the error, where the stream ends |
| Bridge.PipeToClient | src/proc/spawn/win.rs:484-528 | what a client has received of such a stream is a prefix of the bytes the pipe's reads returned; an ended response without an error item carries all of them, and then no read failed; an error of the stream in a response is one a read returned |
| Coordinator.MemoryCoordinator.SpawnJob | src/proc/coord.rs:117-136 | a started child becomes a freshly initialised running job of the caller, with that child's bytes, failures and conduct, filed under its fresh id and answered; no other job is touched; a failed start changes nothing |
| Coordinator.MemoryCoordinator.BeginLogs | src/proc/coord.rs:140-141 | the call up to its request: not found exactly for an absent or foreign job, and then nothing changes; otherwise one waiting request is added to that job and nothing else changes |
| Coordinator.MemoryCoordinator.EndLogs | src/proc/coord.rs:583-598 | the rest of the call: the session the broadcaster served it with, or logs-not-available if its request could not be sent or waited in vain; log, sessions and other jobs are untouched |
| Answers.LogsAnswerIsOwnSession | src/proc/coord.rs:140-144 | over all runs, a stream answered is a session of that job that no other request was given and that holds a prefix of its log; logs-not-available is answered only to a caller whose request still waited |
| Coordinator.MemoryCoordinator.JobStatus | src/proc/coord.rs:147-150 | answers the owner with the snapshot and changes nothing |
| Coordinator.MemoryCoordinator.BeginKill | src/proc/coord.rs:153-154 | the call up to its request: not found exactly for an absent or foreign job, and then nothing changes; otherwise one request under the caller's name is added to that job |
| Coordinator.MemoryCoordinator.EndKill | src/proc/coord.rs:155-160 | the rest of the call: the killed job or the kill's error exactly as the tracker replied, not-running if the request could not be sent; job and tracker are untouched |
| Answers.KillAnswerIsTrue | src/proc/coord.rs:421-430 | over all runs, a job answered to a kill is that job, exited, ended and killed by its owner; not-running and a tracker that quit are answered only once the tracker has ended |
| Coordinator.StepKeepsReachable | src/proc/coord.rs:163-178 | every operation leaves every job in a state its pipeline can reach, filed under its own id |
| Coordinator.ServedJobsAreReachable | src/proc/coord.rs:105-110 | in every run from an empty coordinator all jobs are so, and every theorem about reachable pipelines holds of each |
| Answers.EveryLogIsGenuine | src/proc/coord.rs:140-144 | in every such run, what any client received of any job's stream is a prefix of what that child wrote; an ended response without an error item is all of it |
| Answers.JobsAreTheirChildren | src/proc/coord.rs:117-136 | in every run from an empty coordinator each job was started by one of the operations and has the streams, how they end, the owner, start and conduct of the child that operation yielded |
| Answers.ClientsSeeTheChild | src/proc/coord.rs:258-265 | in every such run a client's bytes of a stream are a prefix of what the spawned child wrote to it, a whole response means neither stream failed, and a read error it was told of is the child's own for that stream |
| Answers.LogErrorIsTheChilds | src/proc/coord.rs:258-265 | in every such run a log that ends with a read error tells how that stream of the spawned child failed |
| Answers.OpGuards | src/proc/coord.rs:117-160 | a job can be started under any fresh id, every request can always be made, and a job's own steps are possible whenever the job can make them |
| Coordinator.AnsweredIffOwner | src/proc/coord.rs:167-177 | logs, ps and kill are let through exactly when the job exists and is the caller's; otherwise nothing changes and a foreign job answers as an absent id; ps answers with that job |
| Coordinator.RequestIsFiled | src/proc/coord.rs:140-160 | a request that is let through is filed with that job under the caller's name and changes neither job nor log |
| Coordinator.OwnOpSeesOwnJobs | src/proc/coord.rs:163-178 | a user's operation has the same answer and effect with all other users' jobs deleted |
| Coordinator.ForeignOpLeavesOwnJobs | src/proc/coord.rs:163-178 | operations of others and steps inside their jobs leave a user's jobs as they are |
| Coordinator.UsersAreIsolated | src/proc/coord.rs:117-178 | over whole runs, deleting all other users and all they do changes no answer to a user and none of the user's jobs or logs |

## Left out

- Transport: TLS, certificates, interceptors, generated protocol code, command-line clients and tracing.
- Conversion of jobs to protocol messages: field copying, partial on a missing exit code.
- Win32 calls, handle lifetimes, process creation and argument joining; reading the pipe is an oracle that yields a chunk, the end of the pipe or an error.
- Progress of the Windows kill future: it depends on unrelated wakeups; here a kill is an oracle that eventually returns.
- Termination of relay and broadcaster tasks: each keeps a sender of its own channel alive, so the code does not provide it.
- The text of the coordinator's errors and their mapping to codes of the protocol; the several reasons for which logs are not available are one answer.
- Removal of jobs and shutdown of the server: the coordinator never removes a job, so the senders kept with a job are always counted.
- Real time: the one-second limits are departures at an arbitrary moment.
- Panics and poisoned locks. The job's lock is never held across a suspension, so waiting for it is one step.

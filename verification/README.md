# Higgs, modelled and proved in Dafny

Higgs serves language models from worker processes that it supervises. This project models
its hardest parts and proves what they promise: the supervisor's life cycle and its races,
the streaming queue between a worker and a client, the exclusivity of benchmarks, the
out-of-memory ladder, the log bus, the wire framing, and downloads that replace a model in
one rename.

Three kinds of model appear.

- Objects that the source updates in place are classes (`DeltaQueue.DeltaChannel`,
  `ReplyDemux.ReplyDemuxTable`, `LogBus.LogBus`, `FrameReader.Reader`,
  `SupervisorLifecycle.Inner`, `DownloadProtocol.Disk`, `DownloadNames.ModelDir`,
  `ProgressMirror.LedgerProgress`, `LoadPhases.Facade`). Their methods are proved against a
  function on values or against the machine below, and the laws are proved about that.
- Code that runs concurrently is a state machine: a `Next` function over labels, in which a
  step that cannot be taken changes nothing, and theorems about `Run` over every sequence of
  labels. A label is the code between two awaits, or one lock acquisition where the
  argument depends on it. Where a law rests on the order of two statements, that order is a
  parameter, and the law is proved to hold exactly for the order the source has.
  Beside what every run keeps, each call is driven to its end: left to itself, from every state
  in which it can begin, it ends with exactly what it is for.
- Pure code is functions.

## Layout

| file | what it models |
|---|---|
| `DeltaQueue.dfy` | the merging, capped queue of chat deltas, and its wake-up protocol |
| `ReplyDemux.dfy` | correlation of replies and routing of chunks, and the lines that drive them |
| `SupervisorLifecycle.dfy` | worker lifetimes one after another: start, crashes, restarts, stop |
| `RequestRace.dfy` | requests against a dying worker, one lock acquisition at a time |
| `Generations.dfy` | many lifetimes: what a reader's end of file can do to a later one |
| `LeftOverReaders.dfy` | what a restart or a leaving reader can do to a later lifetime |
| `BenchExclusivity.dfy`, `BenchOutcomes.dfy` | loads, benchmarks, unloads and chats under cancellation; what each of them gets done |
| `LoadPhases.dfy` | what a load announces, the in-flight slot, and the body of a load |
| `LoadRobustness.dfy` | the out-of-memory ladder and its walk |
| `LogBus.dfy`, `StampOrder.dfy` | rings, merge and snapshot against one history; pushes, evictions and snapshots lock by lock |
| `CivilDate.dfy`, `Decimal.dfy` | the hand-written calendar arithmetic and the stamp it prints |
| `FrameReader.dfy`, `RpcFrames.dfy` | the bounded frame reader; frames and chat chunks as JSON objects |
| `DownloadNames.dfy` | destinations, temporary names, the sweep of partial files |
| `DownloadProtocol.dfy`, `TransferRuns.dfy` | one transfer with its fallback; any number of transfers at once |
| `ProgressMirror.dfy` | the throttled progress mirror |
| `Runs.dfy`, `Utf8.dfy`, `Wrappers.dfy` | runs of a machine, UTF-8 lengths, `Option` and `Result` |

## Where the code and its documentation differ

The model follows the code.

- The guard of a benchmark is documented to keep a candidate from ever being registered but
  ungated (`src/api.rs:461-469`). The node registers a worker in the step that hands the
  reply over (`src/node/runtime.rs:515-524`), before the caller has taken it. A benchmark
  cancelled in that gap has not yet recorded its candidate, so the flag goes and the
  candidate stays. `BenchExclusivity.GapLeaksACandidate` is such a run, and
  `IsolatedExactly` says which runs are isolated throughout: those without such a cancellation.
  `AbandonedExactly` says which candidates stay; a public unload then takes them like any other worker.
- A reader left over from a stopped lifetime is documented never to clobber the next worker
  (`src/supervisor.rs:236-241`), and the running flag to stand for the whole life of a worker
  (`src/supervisor.rs:176-184`). Its end of file never does harm (`Generations.EofIsSafeExactlyWhen`),
  but a restart that was already under way does not look at the generation again: it can replace
  the channel and reap the child of a later lifetime (`LeftOverReaders.RestartReplacesExactly`,
  `RestartTakesChildExactly`). And no reader looks at it when it drops the flag: a start that fits between a
  stopped reader's decision to leave and its store has its flag dropped, with no restart involved
  (`LeftOverReaders.FlagIsDropped`); `FlagIsDroppedExactly` says which runs drop it.
- A start is documented to find nobody at the lock on the slot, because it never runs beside a stop
  (`src/supervisor.rs:811-826`). A left-over restart can have that lock; the child of the new lifetime is then
  in no slot and nobody reaps it (`LeftOverReaders.ChildIsLostExactly`, `ChildIsLost`).
- A request that is given up is documented to withdraw its waiter (`src/supervisor.rs:445-447`).
  Only its own time limit does; a caller whose future is dropped, as the stop's two-second limit
  drops its shutdown request, leaves the waiter registered (`RequestRace.LeftoversExactly`).
- The end-of-file guard compares generations and then clears in separate operations. As one
  step, which is the code between two awaits, it is safe; with a later channel or request in
  between it is not, and then only (`Generations.SplitClearHarmsExactly`).
- The in-flight slot is documented for the multi-second load; its guard lives to the end of
  the body, so the slot also covers the bookkeeping after it (`LoadPhases.SlotFollowsTheHolder`).
- The log stamp is kept for ordering and for reading (`src/log_bus.rs:518-522`). Its texts
  sort by time exactly up to the last second of the year 9999 (`TimeStamp.StampsSortExactly`).
- The signature of a file that cannot be read is documented to make a saved profile stale
  (`src/api.rs:64-67`). It does so when it is compared; as what was saved it counts as not recorded, and the
  profile is then never stale by its file (`LoadPhases.ReloadGoesOnFromWhatLoaded`).
- A comment on the saving of a profile says that the early return for a resident model saves it
  too (`src/api.rs:2107`). It does not (`LoadPhases.Facade.LoadInnerImpl`), as the comment at that
  return says.
- `snapshot` is documented to merge two rings; it merges all five kinds of ring.

## Model

| member | source | states |
|---|---|---|
| DeltaQueue.DeltaChannel.SendDelta | src/delta_queue.rs:94-118 | a send to an open queue either overflows it and frees the backlog, exactly when the text would exceed the cap, or appends the text to a tail of its own kind that is no tool fragment, or starts a new entry; a closed or overflowed queue ignores it, and the receiver is notified exactly when the queue was open |
| DeltaQueue.DeltaChannel.DropSender | src/delta_queue.rs:121-126 | dropping the sender closes the queue, keeps what is buffered and notifies |
| DeltaQueue.DeltaChannel.DropReceiverHalf | src/delta_queue.rs:189-202 | dropping the receiver closes the queue and frees the backlog |
| DeltaQueue.DeltaChannel.TryRecv | src/delta_queue.rs:163-187 | pops the oldest run and accounts for its bytes, or reports an empty queue and changes nothing |
| DeltaQueue.DeltaChannel.Recv | src/delta_queue.rs:137-160 | the receive loop returns the first run there is, after no more of the producer's operations than it takes, or the end of the stream only when closed or overflowed with nothing buffered |
| DeltaQueue.AppendIsTransparent | src/delta_queue.rs:110-115 | merging a delta into the tail is invisible once deltas are coalesced, whatever was delivered before |
| DeltaQueue.CoalesceIsCanonical | src/delta_queue.rs:67-70 | coalescing leaves no two mergeable neighbours and is idempotent |
| DeltaQueue.CoalesceKeepsPieces | src/delta_queue.rs:110-115 | coalescing keeps the sequence of characters with their kinds, tool fragments in their places, and leaves no two neighbours of one kind but tool fragments: exactly what is adjacent and of one kind is merged |
| DeltaQueue.CoalesceKeepsToolFragments | src/delta_queue.rs:110-115 | tool-call fragments keep their boundaries and order under merging |
| DeltaQueue.EntriesAreRunStarts | src/delta_queue.rs:67-77 | the number of buffered entries is the number of places where a new run starts |
| DeltaQueue.SendAllExactly | src/delta_queue.rs:94-118 | sending a whole stream overflows exactly when its bytes exceed the cap, and otherwise buffers its coalescing |
| DeltaQueue.SendKeepsAccounts | src/delta_queue.rs:99-115 | the byte count equals the buffered text and stays within the cap across a send |
| DeltaQueue.PopKeepsAccounts | src/delta_queue.rs:181-186 | and across a pop, without the saturation ever acting |
| DeltaQueue.NoLostWakeup | src/delta_queue.rs:94-126 | in every interleaving a parked receiver without a permit, with no sender between unlock and notify, has nothing to read: the queue is empty, open and not overflowed |
| DeltaQueue.Lossless | src/delta_queue.rs:94-202 | in every interleaving, until overflow or receiver drop, delivered plus buffered is everything sent, character for character with its kind and tool fragment for tool fragment, within the byte cap |
| DeltaQueue.NoneMeansComplete | src/delta_queue.rs:137-156 | the receiver sees the end only when the stream overflowed, or closed with every character of its kind and every tool fragment delivered |
| DeltaQueue.ReceiverGetsAll | src/delta_queue.rs:137-187 | from every reachable state without overflow and with a free receiver, as many receipts as there are entries empty the queue and deliver every character sent with its kind and every tool fragment |
| DeltaQueue.SenderSends | src/delta_queue.rs:94-118 | and with room on an open queue a free sender sends its delta and wakes a parked receiver, or leaves a permit |
| DeltaQueue.RecvLeftAlone | src/delta_queue.rs:137-160 | in any run a call to the receive loop delivers the first entry there is, ends on a stream that is closed or overflowed, and else parks, or looks again when a permit was left |
| DeltaQueue.ParkedIsWoken | src/delta_queue.rs:94-160 | in any run a parked receiver is woken by the next send, which it delivers whole, and by the drop of the sender, which ends it |
| DeltaQueue.ReceiverLeaves | src/delta_queue.rs:189-202 | in any run a receiver that is dropped closes the queue and frees it, and a wait that is dropped hands its wake-up on |
| ReplyDemux.ReplyDemuxTable.RegisterPendingId | src/actor.rs:148-152 | registering a waiter; a reused id drops the earlier one |
| ReplyDemux.ReplyDemuxTable.RemovePendingId | src/actor.rs:155-157 | removing a waiter cancels exactly it |
| ReplyDemux.ReplyDemuxTable.CorrelateReply | src/actor.rs:160-164 | a reply resolves the waiter of its own id and no other; unknown ids are dropped |
| ReplyDemux.ReplyDemuxTable.FailAll | src/actor.rs:167-169 | a death cancels every open waiter |
| ReplyDemux.ReplyDemuxTable.RegisterSinkId | src/actor.rs:172-176 | registering a sink; a reused id closes the earlier one |
| ReplyDemux.ReplyDemuxTable.RemoveSinkId | src/actor.rs:179-181 | removing a sink closes exactly it |
| ReplyDemux.ReplyDemuxTable.Route | src/actor.rs:184-188 | a chunk is sent to the sink of its id and to no other |
| ReplyDemux.ReplyDemuxTable.ClearAllSinks | src/actor.rs:191-193 | a death closes every open sink |
| ReplyDemux.RunKeepsInv | src/actor.rs:126-193 | over any run each open entry of either table belongs to exactly one caller |
| ReplyDemux.WaiterResolvesOnce | src/actor.rs:148-170 | in every run a waiter is ended by the first operation on its own id after its registration that ends one, and by no other: by a response with that response, by a removal, a reuse of the id or a death with its cancellation |
| ReplyDemux.SinkYieldsOwnChunks | src/actor.rs:172-193 | in every run a sink yields exactly the chunks tagged with its id between registration and removal, in order and with their kinds, character for character, and ends exactly when it is removed |
| WorkerLines.DispatchIsFaithful | src/supervisor.rs:1115-1149 | a response line correlates its own id, a chunk line routes its own delta, and requests and other notifications do nothing |
| WorkerLines.LinesAreOps | src/supervisor.rs:1115-1149 | a stream of lines acts on the demux as its dispatched operations, malformed lines dropped |
| WorkerLines.EncodedStreamReachesSink | src/supervisor.rs:519-572 | a stream of deltas that a worker encodes arrives in the sink of its request, every character with its kind, exactly unless its bytes exceed the cap |
| SupervisorLifecycle.ChildIsInOnePlace | src/supervisor.rs:783-841 | in every run each child that the factory made is in exactly one place: the slot, the hands of the starter, the reader or the stopper, or reaped |
| SupervisorLifecycle.StopIsFinal | src/supervisor.rs:631-659 | once a stop has returned the slot is empty, and nothing but another start ever fills it again |
| SupervisorLifecycle.EveryChildIsReaped | src/supervisor.rs:1039-1102 | when stop and reader are both done, exactly the children ever made have been reaped, the channel is gone and the running flag is down |
| SupervisorLifecycle.GivingUpReapsAll | src/supervisor.rs:985-995 | a reader that gave up on its own, with no stop called, has left no child behind |
| SupervisorLifecycle.LateChannelExactly | src/supervisor.rs:640-642 | once a stop has dropped the channel, and until the next start, there is one exactly in the runs where a restart that was under way published another after that, and since then the reader met no end of file and no stop dropped it |
| SupervisorLifecycle.NotRunningAtRest | src/supervisor.rs:176-184 | the running flag is down exactly before a start, after a failed one, from the moment a stop has cleared it until the next start, or once the reader has left |
| SupervisorLifecycle.LateChannelIsDead | src/supervisor.rs:263-271 | a channel seen after a stop leads to a child that the stop has reaped, and goes with the reader's next end of file |
| SupervisorLifecycle.LateChannelHappens | src/supervisor.rs:982-1018 | the documented teardown window is reachable: a stop overtakes a restart between its child and its channel |
| SupervisorLifecycle.StopCanFinish | src/supervisor.rs:1030-1063 | from every reachable state without a start under way a stop can be driven to its end with the reader gone: nobody waits for the lock while holding it |
| SupervisorLifecycle.LockExcludes | src/supervisor.rs:1039-1102 | in every run the lock on the slot is let go by its holder alone, nobody else touches the slot meanwhile, and a reader or a stop that comes to it waits |
| SupervisorLifecycle.Inner.DoSpawn | src/supervisor.rs:783-841 | a start, the first or one after a failed start or an ended lifetime, makes one child, stores it and publishes its channel, or gives the flag back when the factory fails, and does nothing while a worker is running |
| SupervisorLifecycle.Inner.Stop | src/supervisor.rs:631-659 | a stop, whether or not there ever was a start or an earlier stop, and beside anything the reader does at its awaits, returns with the slot empty, the flag down, the child it found reaped, no channel unless the reader published one in between, and every child ever made reaped but those the reader holds itself |
| SupervisorLifecycle.Inner.AttemptRestart | src/supervisor.rs:982-1018 | a restart, beside anything the stop does, ends with its new child in place or with the stop and its channel published, or with that child reaped and the reader leaving; the old child is reaped by one of the two unless the restart was called off; with no stop called and the factory working the new child is in the slot |
| SupervisorLifecycle.Inner.ReaderTask | src/supervisor.rs:928-979 | the reader leaves only for a stop or a failed factory; with no stop called it leaves exactly at the first failed restart, after as many new children as restarts before it, and otherwise goes on with the last of them in the slot and its channel published; an end of file that sees the stop makes no child; when it leaves the flag is down, the channel gone, and every child is reaped or where the stop finds it |
| RequestRace.BuriedHaveNoWaiters | src/supervisor.rs:1158-1171 | in every interleaving, once both clears for a worker are done no pending entry has had its line accepted by that worker's channel |
| RequestRace.WaitingIsHonest | src/supervisor.rs:722-775 | a request still waiting belongs to the current worker, not yet buried, or its wait is over at once |
| RequestRace.ReplyReachesCaller | src/supervisor.rs:745-775 | a waiting request is answered by the reply to it exactly when its waiter is still registered or was already replied to |
| RequestRace.RequestLeftAlone | src/supervisor.rs:722-775 | in any run a new request on an open channel is answered by the reply to it, found dead by the death of its worker, and on a closed channel found dead at once; each way its waiter is gone |
| RequestRace.AnswersAreReplies | src/supervisor.rs:1115-1123 | in every run an answered request had its reply from the worker it was sent to, while that worker was read |
| RequestRace.GivingUpIsFinal | src/supervisor.rs:746-751 | a waiting request that runs out of time withdraws its waiter and stays given up in every continuation |
| RequestRace.DeathAndRestart | src/supervisor.rs:1104-1171 | in either order of the two clears a death closes the channel and fails every waiter, and the restart opens the channel of the next worker; a stop closes the channel and fails nobody |
| RequestRace.LeftoversExactly | src/supervisor.rs:735-775 | with every caller gone a waiter is left registered exactly when its caller was dropped, no reply came for it, no death failed it before it was sent, and the worker that has its line is not buried |
| RequestRace.DroppedCallerLingers | src/supervisor.rs:634-639 | such a run: nothing withdraws the entry of a caller whose future is dropped |
| RequestRace.NoLeftovers | src/supervisor.rs:746-751 | so none is left once the worker is buried, nor ever without a dropped caller |
| RequestRace.OtherOrderStrands | src/supervisor.rs:1159-1166 | in the opposite order of the two clears a request waits for a buried worker |
| Generations.OneReaderPerGeneration | src/supervisor.rs:787-840 | in any run of starts, crashes, restarts and stops no two readers are of one generation |
| Generations.StartMakesOne | src/supervisor.rs:787-840 | a start left to itself makes one worker of the next generation with its channel, child and one reader; one whose factory fails gives the flag back |
| Generations.CrashRestarts | src/supervisor.rs:928-1018 | a reader left to itself after an end of file fails the requests of its worker and goes on with a new child and channel of its own generation |
| Generations.StopLeavesNothing | src/supervisor.rs:631-659 | a stop and its reader, left to themselves, leave no channel, no child, no request and no flag |
| Generations.StopCallsOffRestart | src/supervisor.rs:1008-1018 | in every run a restart that has yet to take the lock is called off exactly by a stop, takes no child out of the slot then, and its reader drops the flag |
| Generations.EofIsSafeExactlyWhen | src/supervisor.rs:787-840 | no end of file takes the channel or the requests of a later lifetime, in every run exactly when the generation moves before the channel is published and comparison and clearing are one step |
| Generations.SplitClearHarmsExactly | src/supervisor.rs:948-953 | with the two apart, the clearing takes what is a later lifetime's exactly when since the comparison a later channel was published that no stop, clearing or restart ended, or a request was made on one that no clearing failed |
| Generations.OldRequestIsLeft | src/supervisor.rs:948-950 | a request of a stopped lifetime is not failed by its replaced reader |
| LeftOverReaders.CaughtExactly | src/supervisor.rs:956-966 | a reader is restarting in a lifetime not its own exactly when a later start moved the generation while it was in the middle of a restart and it has been in that restart since |
| LeftOverReaders.RestartReplacesExactly | src/supervisor.rs:1104-1112 | in a run, a later lifetime's channel can give way to an earlier one's exactly when a later start caught the earlier reader so, it has put its child in, and the later channel came before its own |
| LeftOverReaders.RestartTakesChildExactly | src/supervisor.rs:1055-1102 | the later lifetime's child is taken out of the slot and reaped by that reader exactly when it was caught before it had the lock on the slot, and the child has been stored |
| LeftOverReaders.FlagIsDroppedExactly | src/supervisor.rs:974-979 | a left-over reader drops the running flag of a later lifetime exactly when it has decided to leave and not yet stored, and a start has taken the flag since the reader came and it has been up ever since |
| LeftOverReaders.ChildIsLostExactly | src/supervisor.rs:808-829 | a child is dropped without being reaped exactly when its start found the lock on the slot held by a reader of an earlier lifetime, or a later start found it still in the slot |
| LeftOverReaders.RestartReplaces | src/supervisor.rs:982-1018 | a run in which the reader of lifetime 1 puts its channel and child in the place of lifetime 2's |
| LeftOverReaders.FlagIsDropped | src/supervisor.rs:948-979 | a run without any restart in which the flag is dropped under a live worker, and a third lifetime then starts beside it and loses its child |
| LeftOverReaders.ChildIsLost | src/supervisor.rs:827-829 | a run in which a left-over restart has the lock when lifetime 2 is published |
| BenchExclusivity.IsolatedExactly | src/api.rs:1319-1446 | at every moment of a run a resident candidate's model is flagged, candidate and public worker of one model are never resident together, and no public chat holds a lease on a candidate, exactly when the run cancels no benchmark between its candidate's commit and receipt with that candidate resident |
| BenchExclusivity.IsolatedExactlyWhenOneStep | src/node/runtime.rs:500-537 | with commit and receipt as one step this would hold in every run, and as two it does not |
| BenchExclusivity.GapLeaksACandidate | src/api.rs:476-491 | a benchmark cancelled in the gap leaves an unflagged candidate that a public chat then leases |
| BenchExclusivity.AbandonedExactly | src/api.rs:461-491 | in every run the resident candidates that no benchmark or cleanup knows of are exactly those that some step abandoned in that gap |
| BenchExclusivity.PublicUnloadSparesCandidates | src/api.rs:2171-2237 | in every run neither public unload takes away a candidate that its benchmark, or the cleanup after it, knows of |
| BenchExclusivity.UnloadLeavesNothing | src/api.rs:2158-2186 | in every run, when an unload of everything ends, nothing is resident, abandoned candidates included |
| BenchExclusivity.OneBenchPerModel | src/api.rs:1375-1380 | in every run a model is benchmarked by one benchmark at a time, cleanup after a cancellation included |
| BenchExclusivity.NothingElseIsLeftBehind | src/api.rs:452-491 | in every run, with every call over, no model is flagged and the lifecycle lock is free, and a resident worker is a candidate exactly when some step abandoned it |
| BenchExclusivity.StepKeepsInv | src/api.rs:1838-1883 | what makes it so, kept by every step with the abandoned candidates set apart: flags have one owner, the lock guards every check against its act, and the kind of a worker is settled for good |
| BenchExclusivity.CancelKeeps | src/api.rs:476-491 | dropping any future keeps it too: the guard clears the flag only after its candidate is gone, and in the gap that one candidate is set apart and nothing else breaks |
| BenchOutcomes.UnloadIsForGood | src/api.rs:2158-2237 | in every run the worker that an unload of one model picked, the candidate that a cancelled benchmark cleans up, and each worker that a drain has left is out of the registry after its unload, and no continuation brings it back |
| BenchOutcomes.NoBystanderGoes | src/api.rs:1405-1446 | in every run a resident worker goes only when the idle reaper finds it unused, when an unload picked it, listed it or cleans it up, or when the benchmark that has its model flagged makes room |
| BenchOutcomes.ReapedExactly | src/node/runtime.rs:682-705 | in every run the idle reaper takes a resident worker exactly when no chat leases it, and for good |
| BenchOutcomes.DroppedCallIsOver | src/api.rs:452-491 | in every run a call that is dropped is over and gives the lock back, unless a candidate is known to it, whose guard goes on; no worker and no flag but its own goes with it |
| BenchOutcomes.LoadAddsOne | src/api.rs:1838-2066 | a load left to itself adds one public worker of its model under a new id, or is refused and changes nothing when the model is flagged or resident or the node fails it |
| BenchOutcomes.EjectTakesOne | src/api.rs:2216-2237 | an unload of one model left to itself takes the worker its name leads to and no other, unless the name or that worker's model is being benchmarked |
| BenchOutcomes.EjectOfNobody | src/api.rs:2216-2237 | and it ends without taking anything where its name leads nowhere |
| BenchOutcomes.DrainTakesAll | src/api.rs:2171-2186 | an unload of everything left to itself empties the registry, unless some model is being benchmarked |
| BenchOutcomes.ChatLeasesOne | src/api.rs:2533-2538 | a public chat left to itself leases the worker its name leads to, unless that worker's model is being benchmarked, and gives the lease back at its end |
| BenchOutcomes.BenchFlags | src/api.rs:1363-1376 | a benchmark flags its model and gives the lock back, or is refused where a load would be |
| BenchOutcomes.BenchLoadsCandidate | src/api.rs:1392-1413 | a flagged benchmark loads one candidate of its own under a new id and knows of it |
| BenchOutcomes.BenchGoesOn | src/api.rs:513-547 | a candidate that fails to load leaves the benchmark where it was, to go on or to finish |
| BenchOutcomes.BenchLeavesNothing | src/api.rs:1405-1446 | measured and finished, or cancelled and cleaned up, a benchmark leaves neither its candidate nor its flag, and takes nothing else |
| LoadPhases.PhasesAreInOrder | src/api.rs:1771-1823 | every load, cancelled or not, announces Queued first, a prefix of the middle phases, and exactly one terminal, Ready only after none or all |
| LoadPhases.ReadyIsEarned | src/api.rs:1814-1822 | Ready is announced only for a model found resident, or after weights that loaded and bookkeeping that finished |
| LoadPhases.SlotFollowsTheHolder | src/api.rs:2020-2066 | the in-flight slot shows a model exactly while the holder of the lifecycle lock is a load of it between setting the slot and its guard |
| LoadPhases.SlotIsNotClearedByOthers | src/api.rs:2020-2030 | no step of another task changes a slot that is set or the lock behind it |
| LoadPhases.CancelledLoadCloses | src/api.rs:1793-1822 | a load cancelled at any await is closed by its guards alone, and as failed |
| LoadPhases.LoadLeftAlone | src/api.rs:1771-2066 | in any run a waiting load left to itself closes with the whole announcement its outcome deserves, phase by phase, lock and slot free again and no other load moved |
| LoadPhases.Facade.LoadInnerImpl | src/api.rs:1828-2125 | the refusals and their order, a saved profile outdated by its anchors among them; the resident model that is a success without a load; what is asked for, field by field: the explicit parameters, else the saved ones, else the default ones with the context left to the node; one attempt for an ephemeral load and the ladder for any other, how far each outcome got, and what is saved: what loaded, as the last load unless ephemeral, and as the profile with new anchors when explicit or degraded |
| LoadPhases.ReloadGoesOnFromWhatLoaded | src/api.rs:1902-2125 | a reload after a degraded reload asks for what loaded then, with the same effect and a strictly lower rank, and is refused exactly when the scan lists the model and its recorded hardware or file has changed |
| LoadPhases.Facade.LoadInner | src/api.rs:1771-1823 | the brackets around the body: after whatever was announced before, for each outcome the phases announced in between, in order |
| LoadRobustness.RunOomLadder | src/api.rs:566-636 | at most four loads, in rung order with exactly the rung's parameters; a load is followed by the next rung exactly when it failed for memory: by the engine, or by a worker under the engine's code, with a message that has one of the known phrases in whatever letters; exhaustion counts the loads made and keeps the last message |
| LoadRobustness.OomReasonExactly | src/load_robustness.rs:46-64 | the lower-cased search for the known phrases accepts exactly the messages that have one of them in whatever letters, out of memory among them |
| LoadRobustness.RungsAreHonest | src/load_robustness.rs:97-190 | every rung keeps the request but for the KV placement and the layers, names exactly what it changed, and repeats no earlier one |
| LoadRobustness.LadderIsComplete | src/load_robustness.rs:97-190 | the ladder has the rung that moves the KV cache exactly when it is on the GPU beside layers there, and last the rung that halves the layers, of the whole model when all were asked for, whenever they can be fewer |
| LoadRobustness.RememberingKeepsRank | src/api.rs:2073-2114 | what is saved after a load asks for the same load again: context, threads, layers and overrides come back, and its rank is not raised |
| LoadRobustness.RungRanksLower | src/load_robustness.rs:97-190 | every rung after the first ranks strictly below its base in cache and layers on the GPU |
| LoadRobustness.DegradingTerminates | src/api.rs:566-636 | a request can be replaced by a degraded one at most 33 times in a row, whatever layer counts are reported on the way |
| LogBus.PushRing | src/log_bus.rs:139-144 | the ring keeps its newest lines up to the capacity and appends |
| LogBus.LogBus.Push | src/log_bus.rs:305-351 | a push appends one line with the next stamp to the history, and every ring stays what the history says |
| LogBus.LogBus.EvictLocal | src/log_bus.rs:365-367 | evicting a local worker empties its ring and forgets exactly its lines |
| LogBus.LogBus.EvictRemote | src/log_bus.rs:371-373 | evicting a remote worker empties its ring and forgets exactly its lines |
| LogBus.LogBus.EvictNode | src/log_bus.rs:378-381 | evicting a node empties the rings of its workers and its own, and forgets exactly their lines |
| LogBus.Gather | src/log_bus.rs:385-436 | gathering the rings of a table in any order of iteration yields each line once |
| LogBus.SortRestores | src/log_bus.rs:387-396 | sorting gathered lines by stamp restores the order of arrival, whatever order they came in |
| LogBus.KeptOfOne | src/log_bus.rs:139-153 | what a ring retains is the end of its source's history |
| LogBus.KeptIsEnough | src/log_bus.rs:385-445 | up to the capacity the last lines of any union of rings are the last lines of the history itself |
| LogBus.WantedExactly | src/log_bus.rs:104-110 | the lines a filter asks for, in order of arrival: all, one source's, or for the worker console the unkeyed and every local worker's |
| LogBus.FallsShortExactly | src/log_bus.rs:139-153 | for any filter and any number of lines the merged rings give the last lines that pass exactly when none of the sources has more of those lines than its ring holds |
| LogBus.LogBus.Snapshot | src/log_bus.rs:385-445 | for every filter the snapshot is, position by position and oldest first, the texts of the last lines that pass of those retained, and up to the capacity, or while no source has more of them than its ring holds, of the whole history that was not evicted |
| StampOrder.SequentialExactlyUnderLock | src/log_bus.rs:305-445 | every snapshot of every interleaving with pushes and evictions, whatever its filter and number of lines, returns at the instant it has its last lock what it would return alone on the history in stamp order, exactly when stamps are taken under the lock of their ring |
| StampOrder.NobodyIsStuck | src/log_bus.rs:426-433 | the locks are taken in an order that cannot deadlock: in every run, while any push or snapshot is not done, one can go on |
| StampOrder.PushAddsOne | src/log_bus.rs:305-351 | a push left to itself stamps one line, appends it to its ring, whose oldest line goes when it is full, and gives the lock back |
| StampOrder.EvictTakesExactly | src/log_bus.rs:365-381 | an eviction takes the rings and lines of the one worker, of the workers of the one node, or of that node's own log, and nothing else, and waits while somebody has the lock of their table |
| StampOrder.StampFirstMisses | src/log_bus.rs:306-311 | stamped before the lock, a line can be missing from a snapshot that has a later one |
| CivilDate.CivilIsCounting | src/log_bus.rs:529-541 | for every day count the arithmetic gives the date found by counting calendar days from 1970-01-01, a valid date, and later days give later dates |
| CivilDate.CivilStep | src/log_bus.rs:532-541 | each following day is the calendar successor under the Gregorian month and leap-year rules |
| CivilDate.YearBounds | src/log_bus.rs:534-537 | the year-of-era formula finds the year whose days contain the given day |
| TimeStamp.StampsSortExactly | src/log_bus.rs:523-543 | the printed stamps sort as the times they stand for exactly up to the last second of the year 9999 |
| TimeStamp.StampReadsBack | src/log_bus.rs:523-543 | every field of a stamp can be read back in its place: year, month and day of the date, hour, minute and second, with their separators |
| TimeStamp.StampsAreDistinct | src/log_bus.rs:523-543 | no two seconds have one stamp, in whatever year |
| Decimal.PaddedOrder | src/log_bus.rs:542-542 | zero-padded numbers of one width sort as numbers |
| FrameReader.Reader.ReadBoundedFrame | src/rpc.rs:115-168 | one frame read through any sequence of buffer windows is the frame of the bytes alone: a prefix of the stream without a newline, ended by a line feed that no carriage return precedes, by both, or by the end; the rest of the stream is left unread, and the buffer never exceeds the cap |
| FrameReader.LineLosesItsTerminator | src/rpc.rs:142-168 | a line ended by CR LF yields its content, one ended by LF alone or by the end of the stream every byte of it; over the cap, a faulty stream or bytes that are no text are refused instead |
| FrameReader.Reader.CollectLine | src/rpc.rs:129-159 | the loop collects the bytes up to a newline or the end, and stops at the first window that would exceed the cap, with that one unread and everything before it buffered |
| FrameReader.Reader.ReadAll | src/rpc.rs:103-168 | reading to the first failure or the end gives the same frames however the stream is split |
| FrameReader.FramesAreLines | src/rpc.rs:103-168 | those frames are the stream split at newlines, a carriage return dropped on terminated lines only, refused exactly at the first line longer than the cap |
| FrameReader.SplitInvertsJoin | src/rpc.rs:142-149 | splitting at newlines is the inverse of joining with them |
| FrameReader.WriteThenRead | src/rpc.rs:103-168 | written lines are read back unchanged exactly when each has no newline, no final carriage return, fits the cap and is text |
| RpcFrames.RoundTrip | src/rpc.rs:94-208 | every frame of every kind decodes to itself, with a present null result or error data read as absent |
| RpcFrames.DecodesExactly | src/rpc.rs:179-208 | a received value is accepted as a frame exactly when it says that frame: its kind by which of id and method it has, every field under its key and of its type, an error as an object or a positional array |
| ChatChunks.RoutesExactly | src/supervisor.rs:1129-1149 | a notification feeds a sink exactly when it is a chat chunk that names a request and has its text under the key of its kind |
| RpcFrames.DecodeEncodeDecode | src/rpc.rs:179-208 | what was decoded once is stable under encoding and decoding |
| RpcFrames.SameWireSameFrame | src/rpc.rs:94-101 | two frames with one wire form mean the same, so kinds are never confused |
| DownloadNames.DestPathExactly | src/download.rs:65-119 | exactly the two-part repositories of safe bounded names with a bounded gguf file are accepted; the path is those three components, so the escape check never fires |
| DownloadNames.TargetExactly | src/download.rs:353-362 | a target is accepted exactly when its path is and its revision is safe names joined by slashes, and the path is refused first |
| DownloadNames.OneDestinationOneTarget | src/download.rs:65-119 | two accepted targets share a destination only when they are the same target |
| DownloadNames.TempNamesAreInjective | src/download.rs:366-373 | a temporary name determines its file, process and number |
| DownloadNames.MatchesOwnTempsOnly | src/download.rs:153-163 | the sweep matches a temporary file exactly when it is of its own file and process, and never a name that a model can have |
| DownloadNames.MatchedNames | src/download.rs:160-163 | a name it matches is one that an attempt can produce exactly when its number has no leading zero and fits the counter |
| DownloadNames.TempNamesFit | src/download.rs:76-118 | a safe name leaves room for every temporary name, over all process ids and counters, exactly when it has at most 218 bytes |
| DownloadNames.ModelDir.RemovePartials | src/download.rs:138-199 | it succeeds exactly when the target is accepted and the directory is missing, or its listing is unbroken and every matching name is there, removable and listed once; then exactly the matching names are gone, and else those before the first entry that stopped it, which the error names; nothing else is ever removed |
| DownloadProtocol.Disk.DownloadAttempt | src/download.rs:325-454 | from what source and disk do alone: a failure is the source's exactly when the attempt got as far as asking it and it broke off, every refused write, sync or rename is local, and success needs all of them; only success touches the model, with all fetched bytes, and no temporary file is left |
| DownloadProtocol.Disk.DownloadDual | src/download.rs:592-614 | the fallback runs exactly when the primary asked its source and the source broke off; both are named only when both failed; every other outcome is passed on as it is |
| TransferRuns.ModelsAreWhole | src/download.rs:325-454 | over any interleaving of attempts, failures, cancellations, sweeps and kills, a model's name holds its initial content or the complete bytes of one successful fetch for it, and never goes missing |
| TransferRuns.OnlyRenameReplaces | src/download.rs:432-453 | a model changes only at the rename of a completed attempt for it, and then to the complete bytes delivered to that attempt |
| TransferRuns.TransferReplaces | src/download.rs:325-454 | an attempt left to itself ends with the model holding exactly the bytes fetched and no temporary name of its own |
| TransferRuns.FailedTransferLeaves | src/download.rs:374-448 | an attempt that fails, at its source, its disk or its caller, ends as what it failed after its own clean-up, and takes its temporary file alone |
| TransferRuns.SweepsAndKills | src/download.rs:138-199 | what a sweep, a kill and a dropped attempt do alone: the temporary files they take, and no model |
| TransferRuns.TempStaysExactly | src/download.rs:374-403 | the temporary name of an attempt is there exactly when the attempt created it, or it was there at first, and since then it was not renamed, every removal of it was refused and no sweep took it |
| TransferRuns.EndedLeavesNoTemp | src/download.rs:374-403 | so an attempt that has ended left no temporary file unless its guard was refused the removal |
| TransferRuns.QuietLeavesNoTemps | src/download.rs:374-403 | when all attempts have ended and no removal was refused, no temporary file of any of them is left |
| TransferRuns.DoneMeansReplaced | src/download.rs:432-453 | an attempt that reports success did replace the model at its rename |
| TransferRuns.TheirNamesAreApart | src/download.rs:138-163 | the names that downloads use meet what the runs assume of them |
| ProgressMirror.LedgerProgress.OnProgress | src/download.rs:564-591 | after every tick, a restart of a fallback included, the written mark is at most the current one, less than 8 MiB behind it, with the same total, and every tick is passed on |
| ProgressMirror.WritesArePaid | src/download.rs:579-582 | every ledger write is a reset or is paid for by 8 MiB of forward progress |
| ProgressMirror.WriteBound | src/download.rs:564-591 | so there are at most as many writes as resets plus one per 8 MiB |
| ProgressMirror.SteadyWriteBound | src/download.rs:564-591 | at most 1 + bytes / 8 MiB writes for progress that never falls under a constant total |

## Left out

- Wall clocks, backoff durations and timeouts: a timeout is a step that may happen at any time.
- Processes, pipes, sockets and the file system itself: a spawn, a write, a rename or a removal succeeds or fails as the schedule says.
- JSON text and UTF-8 validity: frames are JSON objects, and validity of text is an arbitrary predicate.
- The wrap-around of 64-bit counters (request ids, log stamps, temporary numbers, generations): counters are unbounded.
- RequestRace, Generations, LeftOverReaders, BenchExclusivity, StampOrder and TransferRuns are machines on values: their steps interleave, so no single method runs to its end, and update in place and aliasing are not captured there.
- SupervisorLifecycle.ChildIsInOnePlace: covers lifetimes one after another; a reader that a stopped lifetime left over beside the next one is in Generations and LeftOverReaders, where the restart does not look at the generation again.
- SupervisorLifecycle.Inner.DoSpawn: a start beside such a left-over reader is in Generations; a factory always yields a process; the test factories that yield none are not modelled.
- BenchExclusivity.IsolatedExactly: served names, admission permits, remote routing and the terminal shutdown are not modelled; a served name may lead to any resident worker.
- LoadPhases.Facade.LoadInnerImpl: of a saved record only the profile and its anchors are modelled, not its sampling, budget, provenance and bench figures.
- TransferRuns.ModelsAreWhole: a process id that is used again after a kill starts no new attempts; the directory is one model's, so attempts elsewhere play no part.
- DownloadProtocol.Disk.DownloadDual: the per-target lock and the ledger's claims are not modelled.
- LogBus.LogBus.Push: the live broadcast and its lag are not modelled.
- The replay of the last load after a restart and its epoch, the one-shot hardware probe, and event broadcasts of the supervisor.
- Parsing of log source selectors, the admission of local-network clients, key revocation, cross-origin lists, configuration, updates and hub state.
- Floating-point estimates of memory fit and of tokens per second.

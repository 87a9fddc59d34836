# Verified models of bytesbuf, arty_executor and arty_tokio

This project models the three parts of the repository whose behaviour is hardest to see from the code, and
proves what they promise. `dafny verify dfyconfig.toml` checks all of it.

**bytesbuf** is a zero-copy byte queue. A `BytesBuf` keeps frozen spans in content order, span builders in
reverse order, and three cached counters; a `BytesView` keeps spans in reverse order and a cached length.
Abstractly a buffer is only a sequence of readable addresses and a sequence of writable ones (`Queues`). The
classes `BytesBuf`, `BytesView` and `BytesBufRemaining` are proved to implement that, for every
segmentation, with the fixed-width arithmetic written out. `SharedMemory` then takes any number of buffers
and views over shared blocks, with exactly these operations as steps, and shows that they cannot be told
apart from buffers and views that own copies of their bytes. `SharedBlocks` and `SharedRegions` carry this down
to the spans and builders themselves: every operation on blocks, starts and lengths is such a step, and what a
builder may still write overlaps nothing that anyone else can write or read.

| files | content |
|---|---|
| `Base`, `Addresses`, `Spans`, `Ranges`, `SpanPositions` | machine arithmetic, memory, spans and builders, bounds |
| `BytesViews` | views: ranges, advancing, concatenation, equality, hashing |
| `Queues`, `Layouts`, `LayoutSteps`, `BytesBufs`, `VectoredWrites` | buffers |
| `SplitOffs` | the one case in which a buffer breaks its own invariant |
| `SharedMemory`, `SharedBlocks`, `SharedRegions` | all buffers and views together: as addresses, as layouts, as regions |

**arty_executor** runs tasks on one thread while any number of other threads wake them. It is modelled as a
transition system (`ExecutorState`). The owner's cycle advances by single accesses to shared state; every
remote wake call advances by its own accesses: the compare-exchange on the schedule state, the send, the
swap of the pending flag, the call of the owner's waker, the release. A call by value takes its waker's
reference with it; calls by reference borrow one, and any number of them may share it. Between any two steps of the owner,
any steps of other threads can happen. Where futures, destructors and completion targets run, they may wake,
submit, clone and drop wakers, and trigger shutdown. Atomics are sequentially consistent and the channel is
linearizable. One invariant (`ExecutorInvariant`) is kept by every step and yields the promises. The promises
are stated over runs and their events (`ExecutorEvents`): a waker is invoked, a poll begins, a future is ready or
panics, a cause is published, the owner's waker is called. What the state only observes, such as the mark of a
woken task, is proved to record exactly these events. The intrusive
task list and the owner thread's wake queue are also given as classes.

| files | content |
|---|---|
| `ExecutorState` | states and steps |
| `ExecutorEvents` | the events of a step, and what it does to registers, tasks, channel and outcomes |
| `ExecutorInvariant`, `ExecutorFrames` | the invariant, and what a step leaves alone |
| `ExecutorDrain`, `ExecutorPolls`, `ExecutorAborts`, `ExecutorLocal`, `ExecutorRemote`, `ExecutorRuns` | every step and every run keeps it |
| `ExecutorWakes`, `ExecutorSuspends`, `ExecutorFlows` | wakes and submissions lead to polls, what a cycle answers, order |
| `ExecutorOutcomes`, `ExecutorCauses` | outcomes, references, and why tasks end and the executor shuts down |
| `ExecutorProgress`, `ExecutorBounds`, `ExecutorCosts` | a cycle ends: a measure, a bound for every run, and why submissions enter it |
| `TaskLists`, `OwnerContexts` | the list and the wake queue as classes |

The steps stand for these places in the source.

| steps | source |
|---|---|
| `EnterCycle` | crates/arty_executor/src/executor_context.rs:62-69, crates/arty_executor/src/executor_shared.rs:113-122 |
| `SwapFlag`, `Receive`, `ReceiveNothing`, `Promote`, `Enqueue` | crates/arty_executor/src/wake.rs:52-68 and 227-234 |
| `AppendWakes`, `ClearNext`, `ClearDone` | crates/arty_executor/src/executor.rs:332-342 |
| `PollBegin`, `AbortBegin`, `PollPending`, `PollDone` | crates/arty_executor/src/executor.rs:344-392 |
| `PollReady`, `PollPanics`, `RetireSignal`, `RetirePayload`, `Deliver`, `Finish` | crates/arty_executor/src/task.rs:247-386 |
| `CheckCancel`, `Close`, `DropMessage`, `Emptied` | crates/arty_executor/src/executor.rs:312-318, crates/arty_executor/src/wake.rs:70-85 |
| `DropAwakened`, `Prepare`, `AbortNext`, `AbortDone` | crates/arty_executor/src/executor.rs:402-434 |
| `Judge`, `DropExecutor` | crates/arty_executor/src/executor.rs:320-330 and 438-475 |
| `LocalWake`, `EnqueueLocal` | crates/arty_executor/src/wake.rs:143-192 |
| `Submit`, `Trigger` | crates/arty_executor/src/executor_shared.rs:147-186, crates/arty_executor/src/shutdown.rs:43-70 |
| `CloneWaker`, `DropWaker`, `Wake`, `WakeByRef`, `RemoteSend` to `RemoteConsume` | crates/arty_executor/src/wake.rs:143-204 and 269-288 |

**arty_tokio** enters a Tokio context on every worker by a two-phase commit. `Initialization` models one
coordinator and any number of installers, a compare-exchange on the phase followed by a separate
notification, guards that abort when dropped, and the drop of any task at any point where it waits; an
installer that is dropped first leaves the context and only then aborts. `InitializationInvariant`,
`InitializationGuarantees` and `InitializationOutcomes` prove what it promises.

Where the code and its comments disagree, the model follows the code. Two places matter.

- A comment and a debug assertion in the buffer (crates/bytesbuf/src/buf.rs:1095-1101) rely on every span
  builder having room. `split_off_remaining_checked` breaks that exactly when it takes all the remaining
  capacity while the first builder holds data. A later partial consume then drops unread bytes, and a later
  write never ends. The model has two invariants, `Sound`, which always holds, and `Valid`, which is the
  intended one; `SplitOffs` gives the failing family, a concrete buffer, and the exact conditions.
- The initialization is described as returning when every worker is inside the context. It returns when every
  worker has entered and said so; an installer that is being dropped may have left again. `OkMeansCommitted`
  says exactly which installers are inside, and `CommitMayFindAWorkerOutside` exhibits such a run.

## Model

| member | source | states |
|---|---|---|
| Ranges.Resolve | crates/bytesbuf/src/view.rs:331-359 | the checked bound arithmetic fails exactly when the range is out of bounds, and otherwise gives its start and length; adding what precedes and what is inside never overflows, so the view's checked addition cannot panic |
| Ranges.SliceChecked | crates/bytesbuf/src/span.rs:76-106 | a span is sliced exactly as the sequence of its addresses, for every bound kind, or refused exactly when out of bounds |
| Spans.Span.Advance | crates/bytesbuf/src/span.rs:120-129 | advancing drops exactly the first addresses, with the narrowing and wrapping written out |
| Spans.SpanBuilder.Consume | crates/bytesbuf/src/span_builder.rs:161-175 | the detached span covers the first filled bytes; the rest of the data and the free bytes are unchanged |
| Spans.SpanBuilder.Advance | crates/bytesbuf/src/span_builder.rs:212-221 | exactly the first free addresses become data |
| Spans.SpanBuilder.SplitOff | crates/bytesbuf/src/span_builder.rs:233-254 | the free addresses are cut in two, in order, and the data stays |
| BytesViews.LocateRange | crates/bytesbuf/src/view.rs:394-470 | the first pass finds the overlapping spans, the bytes to skip in the first and to leave in the last; no subtraction underflows and no conversion narrows |
| BytesViews.FirstTestIsExact | crates/bytesbuf/src/view.rs:498-515 | "can supply all that remains" holds for the first relevant span and no other |
| BytesViews.TakeRange | crates/bytesbuf/src/view.rs:472-540 | the second pass collects exactly the pieces that lie in the range |
| BytesViews.FastPathIsCut | crates/bytesbuf/src/view.rs:360-383 | the single-span fast path yields the spans that the two passes would yield |
| BytesViews.RangeSpans | crates/bytesbuf/src/view.rs:331-540 | none exactly when out of bounds, otherwise the slice of the content, in non-empty spans |
| BytesViews.BytesView.RangeChecked | crates/bytesbuf/src/view.rs:331-540 | the same for the view object, which is unchanged |
| BytesViews.BytesView.Advance | crates/bytesbuf/src/view.rs:758-791 | drops exactly the first bytes, or refuses before changing anything |
| BytesViews.BytesView.Append | crates/bytesbuf/src/view.rs:818-834 | appends the content, or refuses an overflow before changing anything |
| BytesViews.FromViews | crates/bytesbuf/src/view.rs:170-193 | the concatenation in order, refused exactly when longer than the address space |
| BytesViews.FromSpansReversed | crates/bytesbuf/src/view.rs:111-129 | the length is the sum of the spans, refused exactly on overflow |
| BytesViews.EqualSpans | crates/bytesbuf/src/view.rs:885-952 | two independent cursors end, and answer true exactly for equal contents, for any two segmentations |
| BytesViews.BytesView.Equals | crates/bytesbuf/src/view.rs:885-952 | the same for view objects |
| BytesViews.HashSpans | crates/bytesbuf/src/view.rs:1034-1092 | for every segmentation the hasher receives the canonical calls: length, full blocks, one last partial block |
| BytesViews.HashCallsAreBlocks | crates/bytesbuf/src/view.rs:1034-1092 | the canonical calls are the length and then the content in blocks of 64 bytes, the last one maybe shorter |
| BytesViews.HashCallsInjective | crates/bytesbuf/src/view.rs:1034-1092 | different contents make different call sequences |
| Layouts.FillWrites | crates/bytesbuf/src/buf.rs:1071-1113 | writing slice by slice moves exactly the first free addresses to the data and keeps every builder writable |
| Layouts.WriteLoopTerminates | crates/bytesbuf/src/buf_put.rs:91-120 | a write loop ends if and only if there is nothing to write or the first builder has room |
| LayoutSteps.PutSmallIsFill | crates/bytesbuf/src/buf.rs:371-413 | the fast path leaves exactly the layout of the general loop |
| LayoutSteps.FrozenUpToShape | crates/bytesbuf/src/buf.rs:889-930 | freezing on demand keeps data and capacity, except for a partial freeze of a full builder |
| LayoutSteps.PrepareConsume | crates/bytesbuf/src/buf.rs:705-737 | the manifest covers exactly the bytes asked for |
| LayoutSteps.DetachFront | crates/bytesbuf/src/buf.rs:656-703 | the detached spans are the first bytes and the rest follow, all non-empty |
| LayoutSteps.TakeWholeBuilders | crates/bytesbuf/src/buf.rs:830-886 | whole empty builders are taken from the logical end while they fit |
| LayoutSteps.SplitKeepsReady | crates/bytesbuf/src/buf.rs:830-886 | every kept builder has room if and only if not all capacity was taken from under the data |
| BytesBufs.BytesBuf.FromSpanBuilders | crates/bytesbuf/src/buf.rs:208-230 | an empty buffer with exactly that capacity |
| BytesBufs.BytesBuf.Reserve | crates/bytesbuf/src/buf.rs:267-298 | the data is unchanged and the capacity grows; a reserve that would overflow changes nothing |
| BytesBufs.BytesBuf.FreezeFromFirst | crates/bytesbuf/src/buf.rs:889-909 | one freeze of the first builder, with the frozen counter exact |
| BytesBufs.BytesBuf.EnsureFrozen | crates/bytesbuf/src/buf.rs:917-930 | at least so many bytes are frozen, and no more than needed |
| BytesBufs.BytesBuf.Append | crates/bytesbuf/src/buf.rs:311-356 | the content of the view is added; refused exactly when length plus capacity would overflow, and then nothing changes |
| BytesBufs.BytesBuf.Peek | crates/bytesbuf/src/buf.rs:450-472 | a view of exactly the content, with nothing frozen |
| BytesBufs.BytesBuf.ConsumeChecked | crates/bytesbuf/src/buf.rs:656-703 | the first bytes as a view, the rest kept with the capacity unchanged; what happens in the losing case is stated too |
| BytesBufs.BytesBuf.SplitOffRemainingChecked | crates/bytesbuf/src/buf.rs:830-886 | data and total capacity are conserved, the new buffer is empty with exactly that capacity, and validity is kept under the exact condition |
| BytesBufs.BytesBuf.Advance | crates/bytesbuf/src/buf.rs:1071-1113 | the written bytes join the content and a full builder is frozen |
| BytesBufs.BytesBuf.PutSmall | crates/bytesbuf/src/buf.rs:371-413 | declines without a trace, or writes and leaves the layout of the loop |
| BytesBufs.BytesBuf.PutSliceLooped | crates/bytesbuf/src/buf_put.rs:91-120 | ends, writes the bytes to the first free addresses and nowhere else, and refuses before changing anything |
| BytesBufs.BytesBuf.PutSlice | crates/bytesbuf/src/buf_put.rs:73-78 | the content afterwards is the content before followed by the slice, and nothing but the first free addresses was written |
| BytesBufs.BytesBuf.PutByteRepeated | crates/bytesbuf/src/buf_put.rs:212-239 | what writing that many copies of the byte does |
| BytesBufs.BytesBuf.Commit | crates/bytesbuf/src/buf.rs:1362-1397 | ends, appends exactly the first exposed bytes, and only the first builder holds data again |
| VectoredWrites.BytesBufRemaining.Next | crates/bytesbuf/src/buf.rs:1422-1495 | each slice is the next part of what is still to be exposed |
| VectoredWrites.CollectSlices | crates/bytesbuf/src/buf.rs:1193-1201 | for every limit the slices are the first free addresses, in content order, as many as limit and capacity allow |
| SplitOffs.TakingAllLeavesAFullBuilder | crates/bytesbuf/src/buf.rs:871-883 | from every valid buffer with data, splitting off everything leaves a full first builder |
| SplitOffs.ConsumeFromFullBuilder | crates/bytesbuf/src/buf.rs:897-903 | from there a consume keeps the remaining bytes if and only if it takes none or all of that builder's data |
| SplitOffs.WriteBehindFullBuilder | crates/bytesbuf/src/buf_put.rs:91-120 | after a new reserve no number of iterations writes a byte |
| SplitOffs.SplitThenConsumeLosesAByte | crates/bytesbuf/src/buf.rs:830-909 | a concrete buffer that loses a byte |
| Queues.WrittenContent | crates/bytesbuf/src/buf_put.rs:73-120 | writing the first free addresses appends those bytes to the content |
| SharedBlocks.AdvancedShape | crates/bytesbuf/src/view.rs:758-791 | the spans left by advancing cover exactly the remaining content, for every segmentation |
| SharedBlocks.PeekShape | crates/bytesbuf/src/buf.rs:450-472 | the spans handed out by a peek cover exactly the content and none is empty |
| SharedBlocks.OpRefines | crates/bytesbuf/src/buf.rs:267-886 | every operation on layouts and span lists keeps them sound and is the step on addresses that it stands for, the losing consume included |
| SharedRegions.RunIsOnAddresses | crates/bytesbuf/src/buf.rs:267-886 | every run on layouts and span lists is a run on addresses |
| SharedRegions.RunRefinesCopies | crates/bytesbuf/src/span_builder.rs:21-83 | every run on blocks, starts and lengths leaves the bytes that copying would have left |
| SharedRegions.WritableIsExclusive | crates/bytesbuf/src/span_builder.rs:67-83 | after every run the unfilled region of a builder overlaps no other builder's, nothing that any buffer reads, and no span of any view |
| SharedRegions.ViewNeverChanges | crates/bytesbuf/src/span_builder.rs:51-63 | over every run the spans of a view show the same bytes, apart from the view's own operations |
| SharedMemory.StepKeepsInv | crates/bytesbuf/src/span_builder.rs:21-83 | over every operation, unfilled regions stay pairwise disjoint and disjoint from everything readable |
| SharedMemory.StepRefines | crates/bytesbuf/src/buf.rs:311-472 | every operation on shared memory does to the contents what it would do to copies |
| SharedMemory.RunRefinesCopies | crates/bytesbuf/src/buf.rs:311-886 | every run yields the contents that copying would have yielded |
| SharedMemory.VisibleBytesNeverChange | crates/bytesbuf/src/span_builder.rs:21-83 | over every run a view's content is constant apart from its own operations |
| ExecutorRuns.StartStepKeeps | crates/arty_executor/src/executor.rs:305-342 | accepting, draining, appending and clearing keep the invariant |
| ExecutorRuns.PollStepKeeps | crates/arty_executor/src/executor.rs:344-392 | so do polling, completion, panic and cancellation of a task |
| ExecutorRuns.EndStepKeeps | crates/arty_executor/src/executor.rs:402-475 | so do closing, the abort of all tasks, the outcome, and the drop of the executor |
| ExecutorRuns.UserStepKeeps | crates/arty_executor/src/executor_shared.rs:147-186 | so do wakes, submissions and shutdown requests on the owner thread |
| ExecutorRuns.WakerStepKeeps | crates/arty_executor/src/wake.rs:143-204 | so does every access of every remote wake call, by value and by reference, and cloning and dropping wakers; a refused call clears and releases in two steps |
| ExecutorRuns.ReachableInv | crates/arty_executor/src/executor.rs:208-218 | the invariant holds in every reachable state |
| ExecutorEvents.StepRegisters | crates/arty_executor/src/shutdown.rs:43-70 | the cause is the first that a step publishes; the owner was called exactly when a step called it; only the judgement returns from a cycle; a poll and the end of a task begin by the steps that say so |
| ExecutorEvents.StepTask | crates/arty_executor/src/wake.rs:143-204 | a wake marks a live task and leaves it scheduled, nothing else marks it, and only its next poll clears the mark; only its end retires it |
| ExecutorEvents.StepChannel | crates/arty_executor/src/wake.rs:52-90 | messages come in last and are taken first; only remote calls set the flag and only drains clear it |
| ExecutorEvents.StepOutcomes | crates/arty_executor/src/task.rs:319-386 | a target is told only by the delivery, how its task ended and with the published cause, or on the spot that it was refused |
| ExecutorWakes.MarkIsExact | crates/arty_executor/src/wake.rs:143-204 | over every run a live task is marked as woken if and only if a waker of it was invoked after its last poll began |
| ExecutorWakes.WokenAwaitsItsPoll | crates/arty_executor/src/wake.rs:143-204 | a marked live task awaits its poll, or is queued locally, or has its remote notification under way |
| ExecutorWakes.NoWakeIsLost | crates/arty_executor/src/wake.rs:143-204 | over every run and in every interleaving, a live task whose waker was invoked after its last poll began awaits its poll, or is queued locally, or has its remote notification under way |
| ExecutorWakes.ScheduleStateIsExact | crates/arty_executor/src/wake.rs:181-204 | the schedule state says exactly where the notification is, in both directions |
| ExecutorWakes.AppendCollectsWakes | crates/arty_executor/src/executor.rs:332-342 | a cycle collects every woken task that no remote call still owes |
| ExecutorWakes.CyclePollsWhatItCollects | crates/arty_executor/src/executor.rs:344-392 | unless shutdown begins, a cycle polls every task that it collected |
| ExecutorWakes.WokenTaskIsPolled | crates/arty_executor/src/executor.rs:208-218 | over every run, when a cycle appends, a live task whose waker was invoked and that no remote call still owes is polled before that cycle is judged |
| ExecutorWakes.NewTaskIsPolled | crates/arty_executor/src/executor_shared.rs:113-122 | over every run, a task submitted before any cause is polled at the latest in the next cycle that is judged without one |
| ExecutorSuspends.JudgementIsExact | crates/arty_executor/src/executor.rs:320-330 | a cycle answers Shutdown if and only if a cause was published, with that cause, and Continue if and only if none was and there is a task never polled, a task scheduled on this thread, or a set flag |
| ExecutorSuspends.SuspendIsSound | crates/arty_executor/src/executor.rs:320-330 | a cycle that suspends leaves no new and no locally woken task and no cause; every task that is marked remote, polled since or not, has a sender in flight, and every woken one is so marked |
| ExecutorSuspends.QuietCycleSuspends | crates/arty_executor/src/executor.rs:394-400 | over every run of a cycle in which nothing is submitted, no waker is used on this thread and no remote call reaches the flag, the answer is Suspend, whatever is pending |
| ExecutorSuspends.SleepingOwnerIsWoken | crates/arty_executor/src/wake.rs:155-179 | over every run after Suspend in which a live task is woken, the owner's waker was called or a call in flight still will |
| ExecutorSuspends.FlagIsSignalled | crates/arty_executor/src/wake.rs:52-90 | a set flag means that the owner was woken or is about to be; a message means that the flag is set or about to be |
| ExecutorFlows.ChannelIsAQueue | crates/arty_executor/src/wake.rs:52-90 | over every run every message is taken once and in order |
| ExecutorFlows.OwnerIsCalledOncePerDrain | crates/arty_executor/src/wake.rs:155-165 | over every run remote wakes call the owner's waker at most once more than there are drains, however many calls there are |
| ExecutorFlows.CyclePollsInOrder | crates/arty_executor/src/executor.rs:332-392 | without shutdown a cycle polls exactly what it accepted and then what was woken, each once and in that order |
| ExecutorFlows.CycleAcceptsInOrder | crates/arty_executor/src/executor_shared.rs:113-122 | a cycle accepts what was submitted since the last one, in order |
| ExecutorFlows.AbortCancelsInOrder | crates/arty_executor/src/executor.rs:402-434 | shutdown cancels the tasks not yet accepted, in order of submission, and then the pending ones, in list order |
| ExecutorFlows.ClearFlagSkipsTheDrain | crates/arty_executor/src/wake.rs:52-55 | a cycle that finds the flag clear takes no message |
| ExecutorOutcomes.StepGrows | crates/arty_executor/src/task.rs:319-386 | an outcome is told only after the payload is gone; retirement and the loss of the payload are final |
| ExecutorOutcomes.OutcomeIsFinal | crates/arty_executor/src/task.rs:345-378 | over every run an outcome stays, and a retired task stays retired |
| ExecutorOutcomes.ExactlyOneOutcome | crates/arty_executor/src/task.rs:279-378 | no target is told twice, and a target is told exactly when the payload is gone and delivery is over |
| ExecutorOutcomes.TargetIsToldTheTruth | crates/arty_executor/src/task.rs:279-378 | over every run, once a future is ready, panics or its task is cancelled, its target is told just that and nothing else: a panic with the published cause, and with some cause when the policy shuts down, a cancellation with the cause |
| ExecutorOutcomes.ShutdownTellsEveryone | crates/arty_executor/src/executor.rs:426-434 | after shutdown and after the drop every submitted task has been told exactly once, also one submitted later |
| ExecutorCauses.CauseIsTheFirstPublished | crates/arty_executor/src/shutdown.rs:43-70 | over every run the cause is the one named by the first step that publishes one: a trigger its argument, a panic under the shutdown policy the panic cause, the drop the default |
| ExecutorCauses.EveryoneHearsTheFirstCause | crates/arty_executor/src/shutdown.rs:43-70 | over every run cancelled targets, and panics reported with a cause, hear the cause named first in that run |
| ExecutorCauses.ShutdownAnswersTheFirstCause | crates/arty_executor/src/executor.rs:320-330 | over every run a cycle that answers Shutdown names the cause named first in that run |
| ExecutorCauses.TriggeredCauseIsHeard | crates/arty_executor/src/shutdown.rs:36-47 | after the first trigger every cancelled target and every Shutdown carries its cause |
| ExecutorCauses.IgnoredPanicsShutNothingDown | crates/arty_executor/src/panic_policy.rs:6-13 | under the ignoring policy, unless someone asks for shutdown, no task is cancelled, no panic carries a cause and no cycle answers Shutdown |
| ExecutorCauses.NothingIsPolledAfterTheCause | crates/arty_executor/src/executor.rs:357-366 | over every run no task is polled once a cause is published |
| ExecutorCauses.OutcomeHasItsReason | crates/arty_executor/src/task.rs:279-378 | over every run a target told of completion, panic or cancellation belongs to a task whose future was ready, panicked, or that was cancelled or refused in the run |
| ExecutorCauses.EndedIsToldSo | crates/arty_executor/src/task.rs:279-378 | and whatever so happens in a run is what is told at its end |
| ExecutorCauses.RefusedIsToldSo | crates/arty_executor/src/executor_shared.rs:147-160 | over every run a task submitted after the shutdown began is told the cause on the spot, and never anything else |
| ExecutorOutcomes.PolledAtMostOnce | crates/arty_executor/src/executor.rs:344-392 | a task that is polled was not polled before in the cycle, is queued once, and is not retired |
| ExecutorOutcomes.CountAtBoundary | crates/arty_executor/src/executor_shared.rs:132-186 | between cycles the count is the number of new and pending tasks |
| ExecutorOutcomes.CountNeverUnderflows | crates/arty_executor/src/executor_shared.rs:132-140 | both checked subtractions succeed, and the abort batch is counted exactly |
| ExecutorOutcomes.CountIsExact | crates/arty_executor/src/task_handle.rs:73-192 | the strong count is the number of handles in queues, list, channel, wakers, owning calls and locals, where borrowing calls add none; a payload has a scheduling handle |
| ExecutorOutcomes.CallsKeepTheirTask | crates/arty_executor/src/wake.rs:269-297 | a call in flight finds its task alive even when it only borrows a waker, and a call that is done can return |
| ExecutorOutcomes.LastReleaseFindsNoPayload | crates/arty_executor/src/wake.rs:269-288 | a waker or wake call that releases the last reference finds an empty payload |
| ExecutorOutcomes.ShutdownInOneCycle | crates/arty_executor/src/executor.rs:312-330 | once a cause is published in a cycle, that cycle and every later one returns Shutdown with it, with all queues empty and every task told once |
| ExecutorProgress.PollStepProgresses | crates/arty_executor/src/executor.rs:344-392 | every step of the poll loop decreases a measure |
| ExecutorProgress.EndStepProgresses | crates/arty_executor/src/executor.rs:402-434 | so does every step of cancellation and of the end of the cycle |
| ExecutorProgress.StartStepProgresses | crates/arty_executor/src/executor.rs:332-342 | so does every step of draining, appending and clearing; the measure of a drain counts the tasks that can still send |
| ExecutorProgress.OthersDoNotDelay | crates/arty_executor/src/executor_context.rs:75-99 | no wake and no submission in between raises it, in any phase: what arrives while the owner drains is taken by the same drain, but a task can send only once before its notification is cleared |
| ExecutorProgress.OwnerIsNeverStuck | crates/arty_executor/src/executor.rs:208-218 | wherever the owner is, it can take its next step |
| ExecutorProgress.OwnerProgresses | crates/arty_executor/src/executor.rs:208-218 | that step finishes a local wake or decreases the measure |
| ExecutorProgress.CycleCanFinish | crates/arty_executor/src/executor.rs:208-218 | from every state of a cycle the owner alone can bring it to its end, without beginning another |
| ExecutorProgress.CallsCanFinish | crates/arty_executor/src/wake.rs:143-204 | by their own accesses alone, and a bounded number of them, the wake calls for a task can all finish |
| ExecutorProgress.UserCodeIsFree | crates/arty_executor/src/executor_shared.rs:147-186 | a future may be pending, ready or panic; between cycles and in futures, destructors and targets, wakes, submissions and shutdown requests are all possible |
| ExecutorProgress.WakersAreFree | crates/arty_executor/src/wake.rs:269-288 | on any thread at any time a waker can be cloned and used by reference and, unless lent, consumed and dropped |
| ExecutorBounds.LeftIsBounded | crates/arty_executor/src/executor.rs:305-434 | what is left to do in any phase is linear in the number of tasks |
| ExecutorBounds.CycleIsBounded | crates/arty_executor/src/executor.rs:305-434 | in every run inside one cycle, in every interleaving, the owner takes at most a bounded number of steps, fixed when the run begins as long as no cause is published, and otherwise plus a constant for each task submitted meanwhile |
| ExecutorCosts.SubmissionsAreCostly | crates/arty_executor/src/executor.rs:402-434 | that addition is needed: from a state with one task, for every number there is a run inside one cycle with as many steps of the owner |
| TaskLists.TaskList.Insert | crates/arty_executor/src/task_list.rs:33-52 | appends to the sequence that the links represent, and moves exactly one reference from the caller into the link |
| TaskLists.TaskList.Remove | crates/arty_executor/src/task_list.rs:58-82 | deletes a linked task at any position and hands the link's one reference back, the count unchanged; does nothing to an unlinked one |
| TaskLists.TaskList.PopFront | crates/arty_executor/src/task_list.rs:84-87 | takes the head and hands its reference to the caller |
| TaskLists.TaskList.Drop | crates/arty_executor/src/task_list.rs:101-103 | unlinks every task, in order, and releases exactly one reference of each |
| OwnerContexts.DropAllReleases | crates/arty_executor/src/executor_context.rs:101-105 | dropping the queued notifications one after the other empties the queue and nothing else, and each task loses one reference per notification |
| OwnerContexts.DropAllIsARun | crates/arty_executor/src/executor.rs:402-424 | that is a run of the executor from the moment it prepares its abort |
| OwnerContexts.OwnerContext.Enqueue | crates/arty_executor/src/executor_context.rs:75-81 | on the owner's thread, what the executor's enqueue steps do to its queue; on any other the handle comes back; no handle is lost or doubled |
| OwnerContexts.OwnerContext.AppendWakes | crates/arty_executor/src/executor_context.rs:83-87 | moves every wake to the end of the target, in order, losing none, as the executor's append does |
| OwnerContexts.OwnerContext.RemoveWake | crates/arty_executor/src/executor_context.rs:93-99 | removes every notification of the task and keeps all others as they were, as the retirement of a task does |
| OwnerContexts.OwnerContext.ClearWakes | crates/arty_executor/src/executor_context.rs:101-105 | leaves the queue as the executor's run of single drops leaves it, and another thread's queue alone |
| InitializationInvariant.StepKeepsInv | crates/arty_tokio/src/initialization.rs:56-254 | every step of coordinator, installers and dropped tasks keeps the invariant |
| InitializationInvariant.ReachableInv | crates/arty_tokio/src/initialization.rs:145-254 | the invariant holds in every reachable state |
| InitializationGuarantees.PhaseIsFinal | crates/arty_tokio/src/initialization.rs:56-78 | over every run the phase changes at most once |
| InitializationGuarantees.OkMeansCommitted | crates/arty_tokio/src/initialization.rs:145-195 | over every run Ok implies Committed and that every installer entered and answered Ready; it is still inside if and only if its task was not dropped in the run or has not yet left |
| InitializationOutcomes.DecisionIsExact | crates/arty_tokio/src/initialization.rs:168-195 | for any number of workers the coordinator commits if and only if all of them answered Ready and nobody aborted |
| InitializationOutcomes.ErrHasAReason | crates/arty_tokio/src/initialization.rs:145-203 | over every run an abort and an Err imply that a worker found a conflict or a task was dropped in the run |
| InitializationOutcomes.ErrNamesTheFirstFailure | crates/arty_tokio/src/initialization.rs:168-212 | over every run the error is the first conflict or failed join that the coordinator met, and that initialization was aborted if it met none |
| InitializationOutcomes.JoinTellsOfTheDrop | crates/arty_tokio/src/initialization.rs:123-141 | a join handle reports a failure exactly when the installer's task was dropped |
| InitializationOutcomes.UntroubledAttemptSucceeds | crates/arty_tokio/src/initialization.rs:145-195 | for any number of workers, an attempt without conflict and without drops can only come to rest with Ok and everyone inside |
| InitializationOutcomes.AttemptEnds | crates/arty_tokio/src/initialization.rs:145-254 | every run, whatever is dropped, has at most a linear number of steps |
| InitializationOutcomes.FailureAborts | crates/arty_tokio/src/initialization.rs:171-184 | a conflict and a failed join abort the transaction at once |
| InitializationOutcomes.LateInstallerNeverEnters | crates/arty_tokio/src/initialization.rs:219-225 | over every run an installer that begins after the outcome is known never enters the context |
| InitializationGuarantees.ErrMeansRolledBack | crates/arty_tokio/src/initialization.rs:189-203 | Err implies Aborted, every installer task over, and none inside |
| InitializationGuarantees.DropMeansAborted | crates/arty_tokio/src/initialization.rs:80-102 | a dropped coordinator leaves an aborted transaction |
| InitializationGuarantees.CommitNeedsEveryone | crates/arty_tokio/src/initialization.rs:205-217 | only the coordinator commits, and only after every installer answered Ready |
| InitializationGuarantees.NoChangeIsMissed | crates/arty_tokio/src/initialization.rs:220-254 | a waiting installer has its notification, or the sender is about to send it |
| InitializationGuarantees.RollbackIsNeverStuck | crates/arty_tokio/src/initialization.rs:197-203 | after an abort every installer is over, can take its own next step, or the change is being sent |
| InitializationGuarantees.RollbackProgresses | crates/arty_tokio/src/initialization.rs:197-254 | each such step brings it closer to its end and no one sets it back |
| InitializationGuarantees.ProtocolIsNeverStuck | crates/arty_tokio/src/initialization.rs:126-195 | until the coordinator returns, some step is possible without any conflict and without any task being dropped |
| InitializationGuarantees.CommitMayFindAWorkerOutside | crates/arty_tokio/src/initialization.rs:220-254 | a run that returns Ok while its worker has left again |

## Left out

- BytesBufs.BytesBuf.PutSliceLooped: requires the full invariant, because without it the loop does not end; WriteLoopTerminates and WriteBehindFullBuilder say exactly when.
- BytesBufs.BytesBuf.PutSlice: requires the full invariant for a non-empty slice that fits, for the same reason.
- BytesBufs.BytesBuf.PutByteRepeated: requires the full invariant for a positive count that fits, for the same reason.
- BytesBufs.BytesBuf.Commit: requires the full invariant, for the same reason, and that the caller wrote no more than the capacity, as the unsafe contract demands.
- BytesBufs.BytesBuf.Reserve: what the memory provider returns is a parameter; that it owns the memory exclusively is the provider's contract and appears in SharedMemory.
- ExecutorWakes.NoWakeIsLost: speaks of the time before the channel is closed; afterwards every task is cancelled instead of polled.
- Spans and span builders are values, as the source stores them by value in vectors; their in-place updates appear as new values.
- Block reference counts and the return of blocks to their provider: a block is an identity that is never reused.
- `usize` has 64 bits and `BlockSize` has 32.
- Comparison of a view with a plain byte slice, the slices iterator, the numeric put accessors, `vec.rs` and the writer adapters: easy consequences of what is modelled.
- Raw pointers, pinning, vtables and weak memory ordering: replaced by identities, counts and atomic steps.
- Which of several concurrent calls for one task owns its waker: calls are counted by how far they are and by whether they own or borrow, and are not told apart, so the model has every run of the code and some more.
- A borrowed polling waker that is lent to another thread for the duration of a poll: only owned wakers are used remotely.
- The fallback of a local wake whose thread lost its executor between two accesses (crates/arty_executor/src/wake.rs:177-178): it cannot happen on one thread.
- The objects that hold the executor's shared state are fields of one transition system rather than classes, because their accesses interleave with other threads; only the list and the wake queue are also classes.
- Panicking completion targets, wakers and cleanup hooks, and the fallback that runs when the drop of the executor unwinds: the traits forbid such panics.
- That a future's poll returns and that remote threads keep running is assumed nowhere; progress is stated per step, and the bound counts the owner's steps.
- Telemetry, metrics, clocks, buffer identities, `Debug` output, task inspection and poll observers.
- The rejection of current-thread Tokio runtimes before the transaction exists, and the classification of join errors: there is one kind of failed join.
- The internals of channels, pools and Tokio handles; the remaining crates of the repository.

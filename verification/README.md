# Hooch: scheduling and wake-up machinery, modelled and proved in Dafny

Hooch is an async runtime. Its heart is a chain of small stateful components: lock-free ring
buffers; a task manager that matches ready tasks with idle executors; executors that poll
futures and reference-counted wakers that submit them again; a reactor thread that turns
operating-system events and channel tags into wakes; channels, join handles, sockets, timers
and a thread pool on top. This project models these components and proves what they promise
together.

Components that the source updates in place are classes (`RingBuffers`, `TaskManagers`,
`Tasks`, `Channels`, `Spawners`, `Reactors`, `Readiness`, `ThreadPools`, `Offload`, `Timers`,
`Runtimes`). Each method is proved against a specification function or an equation on the
whole new state, and the lemmas are about those functions. Concurrency is modelled by state
machines whose lemmas hold for every interleaving of their steps.

Check the project with `dafny verify dfyconfig.toml`.

## How the modules fit together

| Module | Contents |
|---|---|
| `Wrappers` | `Option`, `Poll` |
| `RingBuffers`, `SpscRing`, `SpscRuns`, `SpscCalls` | the circular buffer, called sequentially, and by one pushing and one popping thread, one atomic access at a time |
| `Dispatching`, `TaskManagers`, `DispatcherRuns` | one call of the task manager; the class that makes it; runs of such calls |
| `DispatcherSteps`, `ExecutorPlaces`, `Ledgers`, `Futures`, `Overlaps`, `FineRuns` | the task manager, executors and wakers in single steps, by any number of threads |
| `WakeChain`, `WakeInvariant`, `WakeDelivery`, `WakeLoss` | sender, reactor, dispatcher, executor and receiver composed into one machine: what it keeps, that it delivers, and when it loses a wake-up |
| `Tasks`, `Channels`, `ChannelNets`, `Spawners`, `Runtimes` | the objects: tasks, wakers, executors, channels, several of them on one reactor, join handles, the built runtime |
| `Reactors`, `Readiness`, `Timers`, `ThreadPools`, `Offload` | reactor, sockets, sleep and timeout, pool, connect and bind |

## What is atomic

Granularity decides what is true, so it is stated here.

* `DispatcherSteps` is the fine machine: each queue push, queue pop, channel send, flag read
  and reference count update is its own step, and each ring buffer operation is atomic.
  Executor exclusivity, the ledgers and single completion hold there, under every
  interleaving.
* `DispatcherRuns` takes a call of the task manager as one step. Work conservation, dispatch
  order and bounded waiting hold there. `Overlaps` shows that a fine call that nothing
  interrupts is such a coarse call. In the fine machine work is conserved over every run in
  which no submission that has found no executor overlaps an executor that has found no task
  (`ConservedWithoutOverlap`); where two such calls do overlap, two more steps strand a task
  (`OverlapCanStrand`), and `OverlapStrands` is a run from the start that does. The task queue
  stays first in, first out under every interleaving (`PoppedInTurn`).
* `WakeChain` takes a call of the task manager as one step, and a send as four. It also has
  the empty branch of `poll_recv` both as one step and as two (`SplitLoad`). The counter law
  and the order of messages hold for both. No wake-up is lost in a run whose split stores are
  in time, that is while the count is still zero or a wake is on its way. A late store loses
  the wake-up for good exactly if no sender can still signal: none has sent without counting,
  and the channel is full or none is about to send (`StoreLosesWakeUpIff`).
  `SplitLosesWakeUp` is a run that loses one.
* Delivery also needs an executor to run the receiver on. If the channel is full and every
  executor is held up by a task that waits in a send, nothing is received ever again
  (`JammedForGood`); otherwise delivery goes on (`Delivery`). A channel with a place for each
  sender, such as that of a join handle, is never jammed (`RoomPreventsJam`).
* `SpscRing` has every atomic access as a step. The ring is a bounded FIFO queue if the count
  and the end index are published without a pop in between, lines 103 and 104 of
  `src/utils/ring_buffer.rs`. Between them, the load of `end` is safe exactly if the situation
  is not `Stale` (`LoadIsSafeIff`); `StaleRunExists` reaches that situation from a new ring.

Memory is sequentially consistent throughout. Code and documentation disagree in one modelled
place: by the comment at `src/time/timeout.rs:86` a main future that completes first yields its
value. In the code it does exactly if some poll falls between its completion and the expiry of
the timer (`ValueWinsIff`); if both happen before the next poll, the timeout fails
(`CompletingFirstCanLose`).

## Model

| member | source | states |
|---|---|---|
| RingBuffers.PushAppends | src/utils/ring_buffer.rs:87-107 | push appends to the queue the ring stands for, or fails exactly when full and changes nothing |
| RingBuffers.PopTakesOldest | src/utils/ring_buffer.rs:122-145 | pop takes the oldest value, and finds none exactly when the queue is empty |
| RingBuffers.EndIsStartPlusCount | src/utils/ring_buffer.rs:19-28 | the end index is start plus count modulo the capacity in every valid ring |
| RingBuffers.StepRefines | src/utils/ring_buffer.rs:87-145 | every operation on a valid ring is the same operation of a bounded FIFO queue, with the same result |
| RingBuffers.RingRefinesFifo | src/utils/ring_buffer.rs:87-145 | over any history, at any capacity, results and contents are those of a bounded FIFO queue |
| RingBuffers.FifoConserves | src/utils/ring_buffer.rs:87-145 | initial contents and accepted values, in order, are the popped values followed by what is left |
| RingBuffers.EachValueLeavesOnce | src/utils/ring_buffer.rs:87-145 | from a new ring on, accepted values are the popped values followed by those inside, so each leaves at most once |
| RingBuffers.LockFreeBoundedRingBuffer.constructor | src/utils/ring_buffer.rs:41-48 | a new buffer has the given capacity and stands for the empty queue |
| RingBuffers.LockFreeBoundedRingBuffer.InsertValue | src/utils/ring_buffer.rs:56-62 | writes one slot and no other |
| RingBuffers.LockFreeBoundedRingBuffer.GetValue | src/utils/ring_buffer.rs:113-119 | reads an initialised slot, leaves it uninitialised and the others alone |
| RingBuffers.LockFreeBoundedRingBuffer.Capacity | src/utils/ring_buffer.rs:65-67 | the number of slots |
| RingBuffers.LockFreeBoundedRingBuffer.Len | src/utils/ring_buffer.rs:70-72 | the length of the queue that the slots and indices stand for |
| RingBuffers.LockFreeBoundedRingBuffer.Push | src/utils/ring_buffer.rs:87-107 | the in-place push is the modelled push, keeps the ring valid and appends to the contents unless full |
| RingBuffers.LockFreeBoundedRingBuffer.Pop | src/utils/ring_buffer.rs:122-145 | the in-place pop is the modelled pop, keeps the ring valid and removes the oldest value if there is one |
| SpscRing.StepKeepsInv | src/utils/ring_buffer.rs:87-145 | each single access by the pushing or the popping thread keeps the invariant that ties slots, indices, count and both threads together |
| SpscRing.InvIsSafe | src/utils/ring_buffer.rs:56-119 | under it no uninitialised slot is read, no live one overwritten, none read and written at once |
| SpscRing.StepRefinesFifo | src/utils/ring_buffer.rs:87-145 | each access leaves the abstract queue alone or is one FIFO operation with its result; an empty pop takes effect at the test of the count |
| SpscRuns.CleanRunsAreFifo | src/utils/ring_buffer.rs:87-145 | every interleaving in which no stale load occurs is memory safe and a history of a bounded FIFO queue |
| SpscRuns.PublishingAtOnceIsClean | src/utils/ring_buffer.rs:103-104 | publishing count and end together excludes stale loads |
| SpscRuns.SpscIsLinearizable | src/utils/ring_buffer.rs:87-145 | from a new ring, with count and end published together, every interleaving of one pusher and one popper is memory safe and a bounded FIFO history |
| SpscRuns.LoadIsSafeIff | src/utils/ring_buffer.rs:122-135 | for lines 103 and 104 apart: the load of the end index leads to a safe pop exactly when the situation is not stale |
| SpscRuns.StaleRunExists | src/utils/ring_buffer.rs:103-104 | a new ring of two slots reaches a stale situation, in which the pop reads an uninitialised slot |
| SpscCalls.EveryCallTakesEffectOnce | src/utils/ring_buffer.rs:87-145 | over every run without a stale load: the pushes begun take effect in order and once, all but the one under way, and so do the pops; the answers returned are those of the effects; and these are a bounded FIFO history |
| SpscCalls.PushesTakeEffect | src/utils/ring_buffer.rs:87-107 | the same for pushes from any state: no push ends without an effect, accepted or refused, and it returns that answer |
| SpscCalls.PopsTakeEffect | src/utils/ring_buffer.rs:122-145 | the same for pops from any state of a run without stale loads, with the value taken as the answer |
| SpscCalls.NoThreadWaits | src/utils/ring_buffer.rs:87-145 | in every such state each thread has a step to take, which leaves the other where it is |
| Dispatching.SkipAborted | src/task/manager.rs:85-92 | an aborted task in front of the queue is skipped without trace; a live one is what the reporting executor is sent |
| Dispatching.SubmitKeepsSound | src/task/manager.rs:98-110 | submitting keeps executors in exactly one place and work conserved, never blocks, panics exactly when a live task finds no executor and a full queue, drops exactly aborted tasks, and otherwise hands the copy to the longest waiting executor or queues it last |
| Dispatching.ReadyKeepsSound | src/task/manager.rs:84-95 | so does reporting, which cannot fail for up to 128,000 executors: the executor is sent the first live task and those before it go, or there is none and it parks last |
| Dispatching.ReceiveKeepsSound | src/executor.rs:101-111 | so does receiving, which takes the only task of its channel |
| Dispatching.WaitingTaskMeansAllBusy | src/task/manager.rs:84-110 | while a task waits, every executor is at work or has a task in its channel |
| Dispatching.FewerThan | src/task/manager.rs:94 | distinct executor ids without the reporting one are fewer than all, so the push of its id finds room |
| TaskManagers.TaskManager.constructor | src/task/manager.rs:48-65 | a new task manager has empty queues of 128,000 places each and no executors |
| TaskManagers.TaskManager.RegisterExecutor | src/task/manager.rs:73-80 | the in-place call has exactly the new state and outcome of `RegisterCall` |
| TaskManagers.TaskManager.ExecutorReady | src/task/manager.rs:84-95 | the in-place loop over the task queue has exactly the new state and outcome of `ReadyCall`, which looks up the first live task, and terminates |
| TaskManagers.TaskManager.RegisterOrExecuteNonBlockingTask | src/task/manager.rs:98-110 | the in-place call has exactly the new state and outcome of `SubmitCall` |
| TaskManagers.TaskManager.Send | src/task/manager.rs:104-105 | a send on an executor's channel of 10,000 places: appended, blocked when full, panic when there is no such executor |
| TaskManagers.TaskManager.Receive | src/executor.rs:102 | the executor takes the oldest task of its channel |
| DispatcherRuns.RegisteredIsIdle | src/runtime.rs:78-89 | after the registrations of a build, executors 0 to n - 1 wait in order with empty channels |
| DispatcherRuns.InitHasInv | src/runtime.rs:78-89 | the built dispatcher satisfies the invariant of runs |
| DispatcherRuns.StepKeepsInv | src/task/manager.rs:84-110 | every call, receive and abort keeps that invariant |
| DispatcherRuns.RunIsRecorded | src/task/manager.rs:84-110 | over every run each submission is made once and in order, each abort raises its flag, and an executor is busy from a receive to its report |
| DispatcherRuns.DispatchedInSubmissionOrder | src/task/manager.rs:85-109 | over every run, dispatched then waiting copies are the submissions in order, minus dropped ones, all of aborted tasks, and refused ones |
| DispatcherRuns.RefusedOnlyWhenFull | src/task/manager.rs:109 | a copy is refused only if it is live, finds no executor, and the task queue is full |
| DispatcherRuns.WorkIsConserved | src/task/manager.rs:84-110 | over every run, tasks and executors never both wait, and a waiting task means every executor has work |
| DispatcherRuns.StepMovesOn | src/task/manager.rs:84-95 | each report moves a waiting copy forward by at least one place and no step moves it back, unless it leaves for good |
| DispatcherRuns.WaitingIsBounded | src/task/manager.rs:84-95 | the copy at index k is dispatched, or dropped as aborted, within k + 1 further reports, whatever arrives or aborts meanwhile |
| ExecutorPlaces.StepKeepsExclusive | src/task/manager.rs:84-110 | every fine step keeps each executor in one place |
| ExecutorPlaces.ExactlyOnePlace | src/task/manager.rs:73-110 | in every reachable fine state each executor is exactly one of waiting, claimed, addressed by one message, or in its turn; channels hold at most one message; no id waits twice or is claimed twice |
| ExecutorPlaces.NothingBlocks | src/task/manager.rs:89-105 | no dispatch send waits, not even one of an executor to itself, and the push of an executor id never fails |
| Ledgers.StepBalances | src/task/manager.rs:84-110 | for each way of counting, a fine step changes the sum over all places by exactly what it replaces |
| Ledgers.StepKeepsBalance | src/task/manager.rs:84-110 | every fine step keeps the balance of each submitted copy |
| Ledgers.CopiesAreConserved | src/task/task.rs:63-77 | under every interleaving each submitted copy is in exactly one place or ended in exactly one way, and only copies of aborted tasks are dropped: no wake is merged, duplicated or lost |
| Ledgers.StepKeepsCount | src/task/task.rs:32-77 | every fine step keeps the strong count of a task equal to its references |
| Ledgers.NoReferenceToFreedTask | src/executor.rs:113-138 | no waker, call or executor refers to a task whose count is zero |
| Ledgers.ReferencesAreCounted | src/task/task.rs:32-77 | in every reachable fine state a task's count is its stored wakers plus queued, claimed, channel and held copies plus poll contexts, and it is positive while a waker exists |
| Ledgers.AbortedStep | src/task/manager.rs:86-101 | once a task is aborted, no step increases the polls begun plus the copies past their last abort test |
| Ledgers.PollsAfterAbort | src/spawner.rs:140-142 | over every run from an abort on, further polls are at most the copies past their last abort test at that moment |
| Futures.StepKeepsPollInv | src/executor.rs:113-138 | every fine step keeps the future's lock exclusive and its poll history well bracketed |
| Futures.PolledOneAtATime | src/executor.rs:113-133 | under every interleaving, however many copies of a task exist, its polls do not overlap and none begins after completion |
| FineRuns.EveryLockPolls | src/executor.rs:121-133 | over every run, the number of polls begun of a task is the number of locks of its copies while no poll has completed, and each poll ends as its future answers |
| FineRuns.TurnIsForwardTask | src/executor.rs:113-138 | a fine turn that nothing interrupts polls exactly if no poll has completed, records the answer, gives up one reference and changes nothing else, as `Executor.ForwardTask` |
| FineRuns.RunIsRecorded | src/task/task.rs:32-77 | over every run the submissions are the spawns and wakes, each once and in order; flags raised are those of spawns and aborts; wakers kept are clones less wakes and drops |
| FineRuns.EveryThreadCanStep | src/executor.rs:101-138 | in every reachable state each unfinished call can step, and each executor with something to do can, or waits for a lock whose holder can |
| Overlaps.SubmitIsSubmitCall | src/task/manager.rs:98-110 | a fine submission that nothing interrupts is the coarse one |
| Overlaps.ReportIsReadyCall | src/task/manager.rs:84-95 | a fine report that nothing interrupts, through its skip loop, is the coarse one |
| Overlaps.StepKeepsFindings | src/task/manager.rs:84-110 | as long as calls do not overlap, what a search found stays so: no executor waits while a task is about to be queued, no task while an executor is about to park, never both |
| Overlaps.ConservedWithoutOverlap | src/task/manager.rs:84-110 | over every fine run in which a submission that found no executor never overlaps an executor that found no task, tasks and executors never both wait |
| Overlaps.OverlapCanStrand | src/task/manager.rs:94-109 | from any state where two such calls overlap and the queue has room, letting both finish strands a task |
| Overlaps.ReachableOverlapCanStrand | src/task/manager.rs:84-110 | so two further steps strand a task from every reachable overlap |
| Overlaps.PoppedInTurn | src/task/manager.rs:85 | under every interleaving the copy at index k of the task queue is popped by the k + 1st pop at the latest |
| Overlaps.OverlapStrands | src/task/manager.rs:85-103 | a run of one executor after which a task and the executor both wait |
| WakeInvariant.StepKeepsInv | src/sync/mpsc/bounded_channel.rs:149-163 | each step of sender, reactor, dispatcher, executor and receiver keeps the base invariant of the chain, and each but a late store of the waker keeps that the receiver is not forgotten |
| WakeInvariant.EventTakesEffect | src/task/task.rs:63-77 | a spawn or an outside wake puts a copy of its task in flight, whatever is queued already; a started thread is at its send; an outside tag or mio wake is raised |
| WakeInvariant.CounterLaw | src/sync/mpsc/bounded_channel.rs:69-79 | over every run, for any number of senders: count plus senders before their increment is queue plus value in hand; `poll_recv` never finds a counted queue empty, never underflows, and receives in the order sent |
| WakeInvariant.ParkedReceiverHasWake | src/reactor.rs:200-213 | over every run without a late store, whenever a message is counted and the receiver is parked, a wake of its task is in flight somewhere along the chain |
| WakeInvariant.NoLostWakeUp | src/sync/mpsc/bounded_channel.rs:149-163 | no run without a late store comes to rest with the receiver waiting and a message in the channel |
| WakeLoss.LostStaysLost | src/sync/mpsc/bounded_channel.rs:151-155 | a forgotten receiver, when no sender can signal, is never polled again by any run that neither starts a send nor wakes it from outside, and channel and receives stay as they are |
| WakeLoss.WakeUpReturns | src/sync/mpsc/bounded_channel.rs:69-79 | while a sender can still signal, some run of the chain alone brings a wake of the forgotten receiver under way |
| WakeLoss.EveryFullRunRecovers | src/sync/mpsc/bounded_channel.rs:69-79 | and every run of the chain alone that goes on for as long as it can ends with the full invariant restored |
| WakeLoss.WakeUpLostIff | src/sync/mpsc/bounded_channel.rs:149-163 | in every state of every run, the wake-up is lost over all continuations exactly if the receiver is forgotten and no sender can signal |
| WakeLoss.StoreLosesWakeUpIff | src/sync/mpsc/bounded_channel.rs:151-155 | with load and store apart, a store loses the wake-up over all continuations exactly if a message is counted, no wake is on its way and no sender can signal |
| WakeLoss.SplitLosesWakeUp | src/sync/mpsc/bounded_channel.rs:151-153 | a run in which a send and a drain fit between load and store and the chain rests with the message in the channel |
| WakeDelivery.StepLowersRank | src/executor.rs:101-138 | every internal step of the chain lowers a natural-number rank |
| WakeDelivery.EventRaisesRank | src/spawner.rs:41-73 | a spawn, an outside wake, tag or mio wake raises it by at most 24 |
| WakeDelivery.RunsAreBounded | src/executor.rs:101-138 | any run, split loads and outside events included, has at most the rank at its start in steps of the chain, and 24 more for each event |
| WakeDelivery.SomeStepIsEnabled | src/executor.rs:101-138 | as long as the receiver wants a message, some internal step is enabled, unless the chain is jammed |
| WakeDelivery.InternalRunsEnd | src/executor.rs:101-138 | an internal run is no longer than the rank at its start, and is stuck only when all is received or the chain is jammed |
| WakeDelivery.JammedForGood | src/sync/mpsc/bounded_channel.rs:71 | once the channel is full and every executor is held up by a send, no run, whatever happens outside, receives anything more |
| WakeDelivery.JammedRunExists | src/sync/mpsc/bounded_channel.rs:71 | a run of one executor, two senders and a channel of one place that jams |
| WakeDelivery.RoomPreventsJam | src/spawner.rs:45 | a channel with a place for each sender is never jammed |
| WakeDelivery.ReceivesAddUp | src/sync/mpsc/bounded_channel.rs:149-163 | in every state of every run, values received are a prefix of values sent, each some sender's own, and no more than wanted |
| WakeDelivery.Delivery | src/spawner.rs:41-73 | for any number of senders, whatever happened before and whatever outside events come: a bound on the steps of the chain, and where sends and receiver are under way it can go on until all is received, unless jammed |
| WakeDelivery.JoinHandleResolves | src/spawner.rs:112-135 | the same for the join handle of a spawned task, which is never jammed: it resolves once, with that task's own value |
| WakeDelivery.JoinHandleStarts | src/spawner.rs:41-73 | spawning the awaiting and the awaited task reaches the situation that delivery starts from |
| Channels.BoundedSender.Send | src/sync/mpsc/bounded_channel.rs:69-79 | waits and changes nothing exactly when the channel is full; otherwise value and count are in, and tag and mio wake too unless the tag buffer is full; it is `SendCall` |
| Channels.BoundedReceiver.PollRecv | src/sync/mpsc/bounded_channel.rs:149-163 | pending exactly at count zero, and then it changes the waker of its own tag only, to its own; otherwise it takes the oldest value and leaves all wakers; it is `RecvCall` |
| Channels.BoundedChannel | src/sync/mpsc/bounded_channel.rs:190-218 | both ends of a new channel share an empty queue, a zero count and one tag |
| Channels.SendIsSendCall | src/sync/mpsc/bounded_channel.rs:69-79 | the four steps of a sender in the chain, uninterrupted, are one call of send |
| Channels.WaitingSendIsStuck | src/sync/mpsc/bounded_channel.rs:71 | a send waits exactly when the sender of the chain has no step |
| Channels.RecvIsRecvCall | src/sync/mpsc/bounded_channel.rs:149-163 | the steps of a receive in the chain, uninterrupted, are one call of `poll_recv` with the same value |
| Channels.DrainRoundIsWake | src/reactor.rs:202-213 | a round of the chain's drain takes the oldest tag, and submits the task whose waker is stored for it, if any |
| Channels.ChannelConserves | src/sync/mpsc/bounded_channel.rs:69-163 | for calls that do not overlap: sent values are received values followed by the queue, and the count is its length |
| Channels.RecvReadyIff | src/sync/mpsc/bounded_channel.rs:149-163 | a poll is ready exactly when a sent value has not been received, with the oldest such value and never an error |
| ChannelNets.ChannelsAreApart | src/reactor.rs:125-130 | of any number of channels, no call for one changes another or the waker of another |
| ChannelNets.WakerIsOfLastPark | src/sync/mpsc/bounded_channel.rs:149-155 | over any history of any number of channels the reactor holds for each the waker of the last poll of that channel that parked, or none |
| ChannelNets.TagsAreSignals | src/sync/mpsc/bounded_channel.rs:69-79 | the tag buffer holds the tags of the sends that went through since the last drain, in order, and a mio wake is pending exactly if there are any |
| ChannelNets.CallsAnswer | src/sync/mpsc/bounded_channel.rs:149-155 | a poll parks exactly at count zero, and a send goes through exactly if there is room for value and tag |
| ChannelNets.SendThenDrainWakes | src/reactor.rs:200-213 | a send that goes through, then a drain: the drain wakes the waker of the last poll of that channel that parked |
| Tasks.Task.constructor | src/spawner.rs:56-61 | a new task has its future, its abort flag and one reference |
| Tasks.Task.HasAborted | src/task/task.rs:42-44 | reads the flag shared with the join handle |
| Tasks.Task.CloneWaker | src/task/task.rs:48-55 | one reference more |
| Tasks.Task.DropWaker | src/task/task.rs:58-60 | one reference less |
| Tasks.Task.Wake | src/task/task.rs:63-69 | submits the task once and hands the waker's own reference over: the count falls by one if the copy is dropped or the call panics, and else stays |
| Tasks.Task.WakeByRef | src/task/task.rs:72-77 | submits the task once with a new reference and leaves the waker's own, except that a panic releases it too |
| Tasks.Executor.ForwardTask | src/executor.rs:113-138 | polls exactly if the future is there, clears it exactly if that poll is ready, gives up one reference and adds those the poll keeps |
| Tasks.Executor.Turn | src/executor.rs:101-111 | one turn of the loop is a receive, a poll and a report on the task manager's state |
| Tasks.SubmissionKeepsReference | src/task/task.rs:63-77 | an uninterrupted submission of the fine machine keeps the copy's reference exactly if the coarse outcome does |
| Spawners.Spawn | src/spawner.rs:41-73 | a fresh channel of one place, a fresh task and a handle with one abort flag, and exactly one submission |
| Spawners.JoinHandle.constructor | src/spawner.rs:63-70 | a handle that has not been awaited |
| Spawners.JoinHandle.Poll | src/spawner.rs:112-135 | waits exactly if it has not resolved and the count is zero, and then leaves its waker under the tag of the channel; else it takes the oldest value, or finds it has resolved before; it is `JoinCall` |
| Spawners.JoinHandle.Abort | src/spawner.rs:140-142 | raises the flag that the task reads |
| Spawners.WaitingPollIsStored | src/spawner.rs:122-133 | after a poll that waits, until the next poll, the reactor holds the waker of that poll |
| Spawners.AwaitingTaskIsWoken | src/spawner.rs:112-135 | a poll that waits, a send, a drain: the drain wakes the task of that poll |
| Spawners.NothingSent | src/spawner.rs:112-135 | before any send a handle has not resolved |
| Spawners.ResolvesOnceWithFirstValue | src/spawner.rs:112-135 | over any history of sends, polls and drains, polls before the first send wait, the first poll after it yields `Ok` of its value, and later polls yield nothing |
| Runtimes.Build | src/runtime.rs:78-89 | the loop registers executors 0 to n - 1 and succeeds exactly for at most 128,000 of them |
| Runtimes.RunBlocking | src/runtime.rs:207-227 | one submission of a fresh task that nothing can abort |
| Runtimes.FirstSubmission | src/runtime.rs:226-227 | on a new runtime the first task goes to executor 0, or waits if there is no executor |
| Reactors.HappenedIff | src/reactor.rs:149-221 | over any history of a token its status is `Happened` exactly if an event was recorded that no ready poll used up and no store overwrote |
| Reactors.PollReadyIff | src/reactor.rs:149-170 | a poll is ready exactly if an event was recorded since the last ready one; it uses up all events so far |
| Reactors.EventWakesLatestPoll | src/reactor.rs:214-221 | an event wakes exactly if the operation before it parked, and then that poll's task; between two wakes there is another park |
| Reactors.WakersInOrder | src/reactor.rs:202-213 | what a drain wakes is one waker for each tag that has one, in the order of the tags |
| Reactors.Reactor.constructor | src/reactor.rs:57-79 | a new reactor has no tags, wakers, statuses or pending mio wake, and room for 1,048,576 tags |
| Reactors.Reactor.StatusStore | src/reactor.rs:103-108 | overwrites the status of one token with the waker |
| Reactors.Reactor.HasTokenProgressed | src/reactor.rs:111-118 | tells whether an event is recorded for the token |
| Reactors.Reactor.StoreWakerChannel | src/reactor.rs:125-130 | replaces the waker of one tag |
| Reactors.Reactor.RegisterReactorTag | src/reactor.rs:136-138 | appends the tag, and fails exactly when the buffer is full |
| Reactors.Reactor.RemoveTag | src/reactor.rs:176-178 | removes the waker of one tag |
| Reactors.Reactor.Poll | src/reactor.rs:149-170 | ready exactly if an event is recorded, which it uses up; else a waker of this task is stored; other tokens untouched |
| Reactors.Reactor.HandleEvent | src/reactor.rs:214-222 | records the event, takes out the waker if there was one, other tokens untouched |
| Reactors.Reactor.DrainTags | src/reactor.rs:200-213 | the drain loop empties the buffer and wakes, in order, the stored waker of every tag that has one |
| Readiness.HoochTcpStream.PollRead | src/net/tcp/stream.rs:90-101 | one poll of a read: pending has used up a recorded event and leaves a waker of this task with the reactor, ready has the outcome of the last attempt; a second attempt is made exactly if the call did not start waiting, the first would block and an event was recorded |
| Readiness.PollReadIsRun | src/net/tcp/stream.rs:90-101 | such a poll is a run of attempts and reactor polls of the step model, with the same status left, ending parked or with the bytes read |
| Readiness.PendingReadHasEvent | src/net/tcp/stream.rs:90-101 | so a poll that answers pending leaves an event to come if there is data |
| Readiness.RunKeepsInv | src/net/tcp/stream.rs:90-101 | over every interleaving of data, events and reader, unread data a waiting reader does not know of has an event raised or recorded |
| Readiness.ReadinessIsNeverLost | src/net/tcp/listener.rs:86-115 | in every reachable state a reader parked on data has an event to come, or one recorded and its wake outstanding |
| Readiness.ParkedReaderIsServed | src/net/tcp/stream.rs:90-101 | from every such state the reader reads that data in at most four further steps |
| ThreadPools.HoochPool.constructor | src/pool/thread_pool.rs:24-57 | n workers without jobs, the cursor at the first; usable if n is not zero |
| ThreadPools.HoochPool.GetAndUpdateIndex | src/pool/thread_pool.rs:63-68 | returns the old cursor, in range, and moves it on by one modulo n |
| ThreadPools.HoochPool.Execute | src/pool/thread_pool.rs:70-74 | the in-place call has exactly the new state of `ExecuteJob` |
| ThreadPools.WorkerGetsItsShare | src/pool/thread_pool.rs:37-74 | of any m jobs submitted one after another worker i receives, in order, exactly those numbered i modulo n |
| ThreadPools.ShareSize | src/pool/thread_pool.rs:63-74 | the exact number of jobs of each worker |
| ThreadPools.LoadsAreBalanced | src/pool/thread_pool.rs:63-74 | the loads of two workers differ by at most one |
| ThreadPools.IndexStaysInRange | src/pool/thread_pool.rs:63-68 | however loads and stores of the cursor interleave, each chosen index names a worker |
| ThreadPools.RoundRobinIff | src/pool/thread_pool.rs:63-68 | over every interleaving of loads and stores, caller k chooses the worker k places after the first, for all k, exactly if there is one worker, as in a built runtime, or no caller loads between another's load and store |
| ThreadPools.OverlappingLoadCollides | src/pool/thread_pool.rs:63-68 | with more than one worker the first overlapping load repeats the choice of the caller before |
| ThreadPools.OverlappingCallersCollide | src/pool/thread_pool.rs:63-68 | the shortest such interleaving: two callers that both load before either stores choose the same worker |
| Offload.OffloadFuture.Poll | src/net/tcp/stream.rs:149-195 | the first poll submits the job once; a later one takes the stored result and empties the cell, or is pending and changes nothing |
| Offload.PollIsFuturePoll | src/net/tcp/stream.rs:149-195 | a poll of the step model that nothing interrupts, spurious ones included, does what the future's poll does |
| Offload.RunKeepsInv | src/net/tcp/listener.rs:147-193 | over every interleaving of polls and the job, the protocol's invariant holds |
| Offload.SubmittedOnceDeliveredOnce | src/net/tcp/stream.rs:149-195 | one submission, one result, delivered unchanged and once; a resting future with a stored result has its wake outstanding or about to be raised |
| Offload.ResultArrives | src/pool/thread_pool.rs:37-41 | once the job has run, the woken poll resolves the future with its result |
| Timers.Sleep.Poll | src/time/sleep.rs:79-114 | the first poll stores the waker and sets the timer; later ones change nothing and are ready exactly if the token has progressed |
| Timers.SleepReadyIff | src/time/sleep.rs:79-114 | over any history a poll is ready exactly if the timer has expired since the first poll |
| Timers.ExpiryWakesFirstPoller | src/time/sleep.rs:84-107 | the first expiry since the first poll wakes the waker of that poll, whoever polled since, and no other expiry wakes anyone |
| Timers.Timeout.Poll | src/time/timeout.rs:87-100 | fails exactly if the timer set by an earlier poll has expired, whether or not the future has completed, and polls the future only otherwise |
| Timers.ValueWinsIff | src/time/timeout.rs:87-100 | over any history of polls, completions and expiries, the timeout yields the future's value exactly if some poll falls after the completion and before the expiry |
| Timers.TimeoutFailsIff | src/time/timeout.rs:87-100 | a timeout that resolves fails exactly if no poll up to then did, and never before the expiry |
| Timers.CompletingFirstCanLose | src/time/timeout.rs:84-92 | the future completes, the timer expires, the next poll comes: the timeout fails |

## Left out

- Operating system and library internals: mio, epoll, timerfd, sockets, threads, DashMap and the standard channels appear as an edge-triggered event source, a coalescing wake flag, finite maps and bounded queues.
- Weak memory orderings, and more than one pushing or one popping thread inside the ring buffer's own steps; the machines built on it take its operations as atomic.
- Zero-sized element types in the ring, where `Vec::capacity` is not the bound.
- Closing of channels and removal of tags by `Drop`: the count of clones starts at 1, so the last sender's drop sees 1 and removes nothing, and `poll_recv` stays pending at count zero without senders.
- `try_recv` mixed with `recv`: it bypasses the count.
- File futures: their protocol does not re-register its tag, so the wake-up results do not carry over.
- Panicking futures, poisoned mutexes, the panic channel, shutdown (`ExecutorTask::Finished`), and a dropped task manager behind a waker.
- Thread-local singletons, the guard against nested runtimes, UDP, the macro crate, `Debug` and `Display`.
- `Any` downcasting in the join handle: the result type is a parameter.
- Ledgers.ReferencesAreCounted: a submission refused by a full task queue is a panic in the source; the fine machine drops the refused copy only, while unwinding out of `wake_by_ref` also releases the borrowed reference, which Tasks.Task.WakeByRef states.
- WakeDelivery.Delivery: asks that the task queue has room for the tasks under way; beyond that the source panics. Channels of bound zero, which a receiver that looks at the count first never empties, are excluded.
- WakeInvariant.NoLostWakeUp: one receiving task, `recv` only, no aborts, no panics on full queues; calls of the task manager are single steps.
- TaskManagers.TaskManager.ExecutorReady: the abort flags are one snapshot for the call; in `DispatcherSteps` each pop is followed by its own read of the flag.
- TaskManagers.TaskManager.Send: a full channel is the outcome `Blocked`, which never occurs in a sound dispatcher; executors never disconnect.
- Tasks.Executor.ForwardTask: the poll is given by whether it is ready and how many wakers it keeps; what it submits to the task manager itself is left to `DispatcherSteps`.
- Runtimes.RunBlocking: the wait on the one-shot channel and the value returned, as a thread that waits is not modelled.
- Tasks.Executor.Turn: one pass of the endless executor loop; what the poll does is given by whether it is ready and how many wakers it keeps. The abort flags are a snapshot handed to the task manager.
- Readiness.ParkedReaderIsServed: one waiter per token; write and accept follow the same loop and are not modelled again, nor is the `Err` branch's error value.
- Offload.SubmittedOnceDeliveredOnce: the job keeps the waker of the first poll; that later polls come from the same task is assumed.
- ThreadPools.HoochPool.Execute: the limit of 1024 jobs in a worker's channel, at which the caller would block, is not modelled; jobs are numbers.
- Channels.BoundedSender.Send: a send that would block returns `Waits` without effect, since a sequential method cannot wait; the waiting itself is a disabled step in `WakeChain`.
- Timers.Timeout.Poll: the future is given by when it completes and with what, and time by the order of events; who wakes the task between them is not part of the histories.

# A verified model of the scheduler and its interrupt protocols

This project models, in Dafny 4.11, the single-hart, priority-preemptive async scheduler of the
repository and the small interrupt/task protocols around it, and proves the properties they are
built on. Nothing here runs the original program; the models follow its code by file and line.

## What is modelled

**The scheduler as a concurrent protocol** (`Kernel`, `Machine`). The state is the task slots with
their two atomic flags, back pointer, poll function, join state and future cell; the run queues; the
priority bitmap; the priority stack; `PEND_MARKER`, MSIP and MIE; and one shared control stack whose
frames (the generated `MachineSoft`, `Executor::run`, `TaskStorage::poll`, `wake_task`, the two
`spawn`s, `JoinHandle::poll`, user interrupt handlers) carry program counters. A step is one atomic
section of the code: one atomic access, one store, or one body run inside `critical_section::with`.
Between any two of them an interrupt may land if MIE is set. Trap entry clears MIE and `mret`
restores it (section 3.1.6.1 of the RISC-V Privileged Architecture manual). `Machine.Run` folds any
sequence of steps and environment moves (interrupts, calls of `wake`, `spawn` and join handles from
user code, futures returning Ready), and the main results hold of every such run, from `Machine.Init`.

**The scheduler as a program** (`Scheduler`, `Bitmap`). The class `Spawner` runs the same atomic
sections in place, over the real two-level bitmap, without interrupts; polls wake tasks, spawn tasks
with futures of their own and poll join handles, and the loop terminates for any tasks that finish
after finitely many polls. `PassRefinement` shows that a pass of the machine from any reachable state,
if no interrupt is taken and the application does what the tasks' scripts say, does to the kernel what
this loop does, step by step and in every such run.

**The protocols around it**: the interrupt latch (`IrqLatch`), the UART receive ring and its waker
slot (`SerialRx`), both over one waker slot (`Parking`); the timer queue (`Timers`) and the timer
service with its compare register (`TimerService`); the async mutex (`AsyncMutex`). Each has an
imperative class proved against a specification function, and run theorems about that function.
Interrupts are parameters of the methods they may land in.

| file | source |
|---|---|
| `PriorityBitmap.dfy` | the two-level bitmap, refining a finite set |
| `Kernel.dfy`, `Machine.dfy` | atomic sections and the interleaved machine |
| `Nesting.dfy` | control stack, priority stack, bitmap against queues, no lost preemption |
| `Ownership.dfy`, `Fifo.dfy`, `Wakes.dfy` | the intrusive node, queue order, no lost wake |
| `Binding.dfy`, `Pointers.dfy`, `Arming.dfy` | no re-entrant poll; back pointer and `poll_fn` are set when they are needed |
| `Lifecycle.dfy`, `Hazard.dfy`, `LateWake.dfy` | the life of a future; exactly when a respawn is safe |
| `Delivery.dfy`, `Joining.dfy`, `Stranding.dfy` | join handles; exactly when a joiner is stranded |
| `Reach.dfy`, `Witness.dfy` | runs from power-up to the states in which things go wrong |
| `Scheduler.dfy`, `DrainOrder.dfy`, `PassRefinement.dfy` | the loop, its order, its agreement with the machine |
| `Parking.dfy`, `IrqLatch.dfy`, `SerialRx.dfy` | interrupt latch and UART receiver |
| `TimerQueue.dfy`, `TimerService.dfy` | timer queue and compare register |
| `AsyncMutex.dfy` | the async mutex |

Priorities are numbers, 0 being the highest. Executors are named by their priority, tasks and futures
by their index, so that pointers become numbers and a null pointer becomes `None`. Fields that only
record what happened (`home`, `owed`, `output`, `delivered`, the queue logs, the waker, ticket and
firing logs, `heirs`) are history: no branch reads them.

## Assumptions

- One hart; sequential consistency; every interrupt handler starts with MIE=0 and leaves it so,
  except where the generated `MachineSoft` itself enables interrupts around `run`.
- *Quiescent respawn* (`Binding.RespawnsQuiescent`): `TaskStorage::spawn` succeeds on a slot only when
  `RUN_QUEUED` is clear, no `run` frame holds the task between its dequeue and the end of its poll, and
  no `wake_task` has loaded its executor pointer without having enqueued yet. Nesting, ownership,
  preemption and queue order need no such assumption.
- *Safe respawn* (`Lifecycle.RespawnsSafe`): quiescent, and the slot's back pointer is null, or interrupts
  are masked, or the executor it names does not outrank the running code. The life of a future and the
  results on join handles need it; quiescence alone is not enough for them (see below).
- *Join handles* (`Joining.JoinsWell`): where a result is about one worker, that worker's handle, and no
  other, is polled by one task at a time, after the spawn that yields it has returned and before its
  result has been handed out, by tasks whose priority is equal to or higher than the worker's, and its slot
  is not reused while the handle is being polled. `Stranding.UnovertakenIsServed` assumes nothing about
  earlier polls at all.
- Application code calls the kernel from `main`, interrupt handlers, the software-interrupt hook, a
  task's `poll`, the destructor of its future, the closure that builds a future, or while it holds a
  spawn token.

## What the proofs found

- **Quiescence does not make a respawn safe.** `TaskStorage::spawn` installs the poll function before it
  writes the future. A `wake_task` interrupted between loading the executor pointer and enqueueing
  stores that pointer again after the task has completed and cleared it. If the slot is then respawned
  with interrupts enabled while that executor outranks the running code, a wake in the window between
  the two stores lets the scheduler poll a cell that holds no future.
  `Hazard.RespawnSafeIff` gives the exact condition, `LateWake.QuiescenceIsNotEnough` shows that such a
  respawn is reachable from any ordinary state, `Witness.UnsafeRespawnIsReachable` reaches one from
  power-up, and `Lifecycle` proves the life of a future under the condition.
- **`JoinHandle::poll` can strand its joiner.** The comment at
  modules/executor/src/task/join_handle.rs:35-39 says a worker of higher priority has already
  completed. A worker that returned Pending and is woken by an interrupt has not, and may complete
  between the look for the result and the store of the waker. `Stranding.JoinStrandsIff` says when some
  continuation of a poll parks the waker for good, so that no later run takes it out again short of
  another poll of the handle or a respawn of the slot: iff the worker is unfinished, no suspended
  activation is still queueing it, and its executor outranks the priority stack (interrupts are enabled
  wherever a future is polled). `Witness.StrandedJoinerIsReachable` gets there from power-up.
  In every other case the poll, if it parks at all, serves its joiner (`Stranding.UnovertakenIsServed`);
  that covers every worker of equal or lower priority (`Stranding.EqualCannotOvertake`,
  `Joining.NoJoinerStranded`; `Witness.ParkedJoinerIsReachable` reaches such a joiner).
- **`MachineSoft` runs the user's hook first, always.** The documentation at
  modules/executor-macro/src/lib.rs:161-164 says the hook runs only for external interrupts; the code at
  lines 302-307 calls it before it looks at `PEND_MARKER`. The model follows the code.
- **A timer poll preempted between `schedule` and `set_deadline`** by a poll that registers an earlier
  deadline overwrites the compare register with the later one
  (`TimerService.PreemptedPollIsBoundedIff`). `TimerService.RegisterIsLateIff` says which runs end with the
  register late, `TimerService.LateRegisterIsReachable` is one from power-up.
- **`after` casts a 128-bit quotient to 64 bits.** Up to 1 GHz nothing is lost; beyond,
  `TimerService.DeadlineIsHonestIff` says when the deadline is the requested one. At 2 GHz a delay of 2^63
  nanoseconds expires at once (`TimerService.CastLosesTicks`).
- **A mutex waiter is woken at most once in its life.** If somebody holds the lock when it next polls
  (`AsyncMutex.HeirAcquiresIff`), it is off the waiter list for good (`AsyncMutex.WokenOnce`,
  `AsyncMutex.OvertakenIsStranded`); three futures get there from power-up
  (`AsyncMutex.OvertakenIsReachable`). And dropping a woken future may leave the rest of the list waiting
  on a free mutex: `AsyncMutex.HandoverFailsIff` says which runs end so, `AsyncMutex.LostHeirIsReachable`
  is one from power-up.
- **`IrqLatch::poll` and `rx_register_waker` return Pending with interrupts enabled, even when called with
  interrupts masked.** A call changes the interrupt state iff it is made with interrupts masked and
  nothing pending, or with an empty ring (`IrqLatch.PollServes`, `SerialRx.PollServes`).

## Model

| member | source | states |
|---|---|---|
| `Bitmap.PriorityBitmap.Set` | modules/executor/src/priority_bitmap.rs:35-40 | adds exactly one priority to the set the two levels stand for, and keeps "group bit set iff group word nonzero" |
| `Bitmap.PriorityBitmap.Clear` | modules/executor/src/priority_bitmap.rs:43-50 | removes exactly one priority, clearing the group bit only with its last member |
| `Bitmap.PriorityBitmap.Highest` | modules/executor/src/priority_bitmap.rs:53-61 | the minimum of the set, or None iff it is empty, for 1 to 64 groups |
| `Bitmap.PriorityBitmap.IsSet` | modules/executor/src/priority_bitmap.rs:64-67 | membership in the set |
| `Bitmap.PriorityBitmap.IsEmpty` | modules/executor/src/priority_bitmap.rs:70-72 | the group word alone decides emptiness of the set |
| `Bitmap.PriorityBitmap.PopHighest` | modules/executor/src/priority_bitmap.rs:75-79 | returns and removes the minimum, or None on the empty set |
| `Bitmap.PriorityBitmap.PopUntilEmpty` | modules/executor/src/priority_bitmap.rs:122-132 | calling `pop_highest` until it returns None empties the bitmap and yields that sequence |
| `Bitmap.PriorityBitmap.ClearAll` | modules/executor/src/priority_bitmap.rs:82-85 | empties the set |
| `Bitmap.PopsAscending` | modules/executor/src/priority_bitmap.rs:75-79 | a sequence of pops that empties the set holds exactly its members, strictly ascending |
| `Bitmap.PopsUnique` | modules/executor/src/priority_bitmap.rs:75-79 | the set alone determines that sequence |
| `Nesting.NestingIsStrictAndBounded` | modules/executor/src/spawner.rs:208-258 | in every reachable state the priority stack is the list of live run tokens, strictly rising in priority, at most N long, so a push never fails and `complete_executor` pops its own token |
| `Nesting.NoLostPreemption` | modules/executor/src/spawner.rs:169-195 | whenever a ready priority outranks the running one, some frame above the innermost run token is still to pend, or `try_preempt` is next, or the software interrupt is pending with the marker set; while an executor's own code runs, the last |
| `Nesting.BitmapAgreesWithQueues` | modules/executor/src/executor.rs:91-100 | a nonempty queue has its bit set; a set bit over an empty queue belongs to an active `run` that has not yet left its loop |
| `Nesting.IdleMeansDrained` | modules/executor-macro/src/lib.rs:307-319 | an idle hart with no scheduler interrupt pending has every queue, the bitmap and the stack empty |
| `Nesting.PassIsBalancedAndComplete` | modules/executor-macro/src/lib.rs:307-319 | a pass leaves the priority stack as it found it and nothing ready outranks it; started with an empty stack it leaves every queue empty, whatever interrupts and nests meanwhile |
| `Nesting.EntryDecides` | modules/executor-macro/src/lib.rs:307-313 | the interrupt's entry clears marker and MSIP and goes on to schedule iff the marker was set |
| `Nesting.UnmarkedEntryReturns` | modules/executor-macro/src/lib.rs:302-319 | a software interrupt without the marker, whose hook pends nothing, returns with interrupts enabled and the scheduler untouched |
| `Nesting.PreemptDecides` | modules/executor/src/spawner.rs:208-235 | `try_preempt` declines, changing nothing, iff nothing ready outranks the top of the stack, and otherwise stacks and grants the most urgent ready priority |
| `Nesting.PendDecides` | modules/executor/src/spawner.rs:169-195 | a spawn pends iff something ready outranks the stack, and its decision changes nothing else |
| `Ownership.FlagIsOwnership` | modules/executor/src/task/state.rs:43-56 | in every reachable state `RUN_QUEUED` is set iff the node is linked once in all queues or claimed by exactly one enqueuer, never both; a claimed node is in no queue |
| `Wakes.WakeAnswers` | modules/executor/src/executor.rs:146-156 | a wake does nothing through a null pointer, nothing but record the debt to a queued task, and puts any other task last in its executor's queue, marks that ready, and pends; no other slot or queue changes |
| `Wakes.NoLostWake` | modules/executor/src/executor.rs:146-156 | after any wake of a spawned, enqueued, unfinished task, whether by `wake_task`, inside a critical section or by a completion section, and until its next dispatch, the task is linked, claimed for queueing, about to be claimed, or just dequeued |
| `Wakes.WakeThroughPointerIsKept` | modules/executor/src/executor.rs:146-156 | the same of any wake that finds the pointer set, with no assumption on respawns |
| `Pointers.LiveTaskHasPointer` | modules/executor/src/executor.rs:147-149 | a spawned, enqueued, unfinished task has its back pointer set to the executor it is bound to, so `wake_task` never drops a wake of it |
| `Wakes.OwedUntilDispatch` | modules/executor/src/executor.rs:101-113 | only the dispatch of the task itself settles a wake |
| `Fifo.QueueIsFifo` | modules/executor/src/task/run_queue.rs:41-55 | in every reachable state what entered a queue is what left it followed by what it holds, in order |
| `Fifo.BypassIsBounded` | modules/executor/src/executor.rs:88-116 | a task behind i others is the i+1st popped and the ones before are those i, in order, over any later run |
| `Binding.NoReentrantPoll` | modules/executor/src/task/storage.rs:119-155 | in every run at most one activation is inside a task's poll, on the executor it is bound to, whose `run` is active only once |
| `Binding.LinksAreAtHome` | modules/executor/src/executor.rs:125-139 | a task is linked only in the queue of the executor it is bound to, and its back pointer is null or names that executor |
| `Binding.HomeMovesOnlyAtSpawn` | modules/executor/src/executor.rs:133-136 | no wake ever rebinds a task; only the enqueue of a spawn does |
| `Arming.DispatchNeverPanics` | modules/executor/src/executor.rs:107-110 | `poll_fn` is set whenever `run` unwraps it |
| `Lifecycle.FutureIsUsedOnce` | modules/executor/src/task/storage.rs:119-179 | under safe respawns no future is polled, dropped or overwritten out of turn, and what is left of a finished task reaches only `poll_exited` or a null pointer |
| `Lifecycle.CellMovesOnlyAtWriteAndDrop` | modules/executor/src/task/storage.rs:132-175 | a future enters its cell only by the write of a spawn into a cell without one, and leaves only by the drop after its own Ready |
| `Lifecycle.DispatchFindsFuture` | modules/executor/src/executor.rs:107-110 | when a future's poll function is about to be called, the cell holds a future |
| `Hazard.RespawnSafeIff` | modules/executor/src/task/storage.rs:167-179 | a respawn of a quiescent slot is harmless in every continuation iff the back pointer is null, or interrupts are masked, or the executor it names does not outrank the stack |
| `Hazard.UnsafeRespawnReachesTask` | modules/executor/src/task/storage.rs:171-176 | otherwise some continuation polls a cell that holds no future |
| `LateWake.QuiescenceIsNotEnough` | modules/executor/src/executor.rs:146-156 | from every state in which a task is polled while a more urgent one is idle, an unsafe respawn of a quiescent slot can be reached |
| `Witness.OrdinaryIsReachable` | modules/executor-macro/src/lib.rs:280-319 | such a state is reached from power-up by a run of safe respawns |
| `Witness.UnsafeRespawnIsReachable` | modules/executor/src/task/storage.rs:167-179 | and so is an unsafe respawn of a quiescent slot, with a continuation that polls a cell without a future |
| `Delivery.ResultIsDeliveredOnce` | modules/executor/src/task/join_handle.rs:33-50 | a join handle hands out at most one value per incarnation, the one the future returned, and until then it is stored |
| `Delivery.JoinAnswers` | modules/executor/src/task/join_handle.rs:41-48 | in the machine a poll that finds a result returns with it and empties the cell; one that finds none goes on to park, and then parks, its waker; no other slot changes |
| `Delivery.ResultIsTakenOnce` | modules/executor/src/task/join_handle.rs:33-50 | counted on the steps of every run of safe respawns, since the result cell was last emptied by a spawn: at most one poll has found a value, the one the future returned; a stored value is that one, not found yet; a returned one not found yet is stored or about to be |
| `Joining.NoJoinerStranded` | modules/executor/src/task/join_handle.rs:33-50 | for one worker whose own handle has only been polled by joiners of equal or higher priority, under safe respawns and whatever is done with other handles, over every run: once a poll of the handle has parked its waker, and until the joiner is dispatched or finishes or the handle is polled again, the waker is still parked and the worker unfinished, or the joiner is owed a poll and linked, claimed or about to be dispatched |
| `Joining.ParkedMeansUnfinished` | modules/executor/src/task/join_handle.rs:41-48 | in every reachable state a join waker parked for such a worker means that it has not completed, wherever the joiner preempts the completion sequence |
| `Joining.CompletionWakesJoiner` | modules/executor/src/task/storage.rs:144-151 | the completion section takes the parked waker and, unless the joiner itself has finished, leaves it queued and owed a poll |
| `Stranding.JoinStrandsIff` | modules/executor/src/task/join_handle.rs:33-50 | in any reachable state, some continuation of this poll parks its waker so that in every later run, short of another poll of the handle or a respawn, the worker stays finished and the waker parked, iff the worker is unfinished, unclaimed by a suspended enqueuer, and its executor outranks the priority stack |
| `Stranding.StrandedForGood` | modules/executor/src/task/storage.rs:144-151 | a waker parked on a finished worker is taken by no completion in any run that neither polls the handle again nor respawns the slot |
| `Stranding.UnovertakenIsServed` | modules/executor/src/task/join_handle.rs:33-50 | the conclusion of `NoJoinerStranded` for any poll begun, in a reachable state, on a worker that cannot overtake it (finished, claimed by a suspended enqueuer, or not outranking the priority stack), with no assumption on how any handle was used before |
| `Stranding.EqualCannotOvertake` | modules/executor/src/task/join_handle.rs:35-39 | in every such state a worker of equal or lower priority than its joiner cannot overtake |
| `Witness.StrandedJoinerIsReachable` | modules/executor/src/task/join_handle.rs:33-50 | a run from power-up leads to a poll with such a continuation |
| `Witness.ParkedJoinerIsReachable` | modules/executor/src/task/join_handle.rs:33-50 | a run from power-up in which handles are used well parks the waker of a joiner on an unfinished worker of lower priority, where `NoJoinerStranded` begins |
| `Scheduler.Spawner.Enqueue` | modules/executor/src/executor.rs:125-139 | pushes an unqueued task and sets the bit, exactly `EnqueueSection`; does nothing to a queued one |
| `Scheduler.Spawner.WakeTask` | modules/executor/src/executor.rs:146-156 | the whole new state, `WakeSection`: nothing through a null pointer, otherwise enqueue and, if that did anything, pend |
| `Scheduler.Spawner.CreateTask` | modules/executor/src/task/storage.rs:167-179 | refuses a spawned slot and changes nothing, otherwise initialises it with any future; a future that finishes keeps the scheduler ready |
| `Scheduler.Spawner.SpawnTask` | modules/executor/src/spawner.rs:158-196 | refuses a priority out of range before any change, otherwise enqueues and decides whether to pend; keeps the scheduler ready |
| `Scheduler.Spawner.PollJoin` | modules/executor/src/task/join_handle.rs:33-50 | hands out the stored result and empties its cell, or parks the waker of the polling task; changes no other slot |
| `Scheduler.CreateAnswers` | modules/executor/src/task/storage.rs:167-179 | a created slot has a future and its poll function, no result and no waker of an earlier incarnation, and its node and pointer as they were |
| `Scheduler.SpawnAnswers` | modules/executor/src/spawner.rs:158-196 | a spawn of a task already queued changes nothing; any other goes last in its queue, which becomes ready, and the spawner pends iff something ready outranks the stack |
| `Scheduler.FinishAnswers` | modules/executor/src/task/storage.rs:131-152 | a finished task leaves its result, no pointer, no waker, no future, and a free slot; a joiner parked on it is owed a poll and queued, unless it has finished itself |
| `Scheduler.Spawner.TryPreempt` | modules/executor/src/spawner.rs:208-235 | over the real bitmap, grants and stacks the same token as `PreemptSection` |
| `Scheduler.Spawner.CompleteExecutor` | modules/executor/src/spawner.rs:251-258 | pops one entry, or nothing off an empty stack |
| `Scheduler.Spawner.Run` | modules/executor/src/executor.rs:88-116 | terminates, empties its queue, clears its bit, and equals `RunExecutor`, however the polls wake, spawn and join one another |
| `Scheduler.Spawner.Drain` | modules/executor-macro/src/lib.rs:313-318 | terminates for tasks that finish after finitely many polls, and so do those they spawn; restores the priority stack, and equals `Schedule` |
| `Scheduler.TurnKeepsOrder` | modules/executor/src/executor.rs:88-116 | every turn lowers the pair of polls left, counting those of futures yet to be spawned, and queue entries left, and keeps the bitmap in step with the queues |
| `Scheduler.PollKeepsOrder` | modules/executor/src/task/storage.rs:119-155 | a poll with its wakes, spawns, joins and completion leaves nothing dispatchable without a poll function or a poll left, and fewer polls in all |
| `DrainOrder.DrainEmptiesQueues` | modules/executor/src/spawner.rs:208-258 | when the loop ends, every queue that outranks the executor it started under is empty with its bit clear |
| `DrainOrder.EveryPollIsAccountedFor` | modules/executor/src/executor.rs:88-116 | task by task, polls made plus polls left grow exactly by the polls that spawns hand out, over the whole loop |
| `DrainOrder.DrainFinishes` | modules/executor/src/executor.rs:88-116 | if every future returns Ready at its next poll, every task waiting in a queue that outranks the loop's start is finished |
| `DrainOrder.SchedulePollsInOrder` | modules/executor/src/spawner.rs:208-258 | one-shot tasks are polled queue after queue, highest priority first, each queue in order |
| `DrainOrder.ScheduleLeavesTheRest` | modules/executor/src/spawner.rs:218-233 | queues the loop does not outrank are left alone |
| `DrainOrder.StableSortIsUnique` | modules/executor/src/priority_bitmap.rs:53-61 | sorted by priority with equal priorities in spawn order determines the poll order |
| `DrainOrder.DrainIsAStableSort` | modules/executor/src/spawner.rs:158-258 | spawning any list of one-shot tasks and running the loop polls exactly those tasks in the stable sort by priority of their spawn order |
| `PassRefinement.ReachablePassIsSchedule` | modules/executor-macro/src/lib.rs:300-319 | from every entry of `MachineSoft` that a run of safe respawns reaches with the marker set, whatever lies below it, and for all scripts of finitely many polls, one for each live future: the scripts have a run that takes no interrupt, and every such run carries the kernel, after the same number of steps, exactly to what the loop computes |
| `PassRefinement.CalmPassIsSchedule` | modules/executor-macro/src/lib.rs:300-319 | the same of any entry whose kernel and scripts the loop accepts, reachable or not |
| `PassRefinement.WakeFlows` | modules/executor/src/executor.rs:146-156 | uninterrupted, the steps of `wake_task` amount to its masked section |
| `IrqLatch.Latch.Notify` | modules/platform/src/irq.rs:131-140 | sets pending, empties the slot, wakes what was parked |
| `IrqLatch.Latch.Poll` | modules/platform/src/irq.rs:150-178 | equals `PollSpec` for every number of interrupts landing before the masked region |
| `IrqLatch.RunServes` | modules/platform/src/irq.rs:131-179 | over every run, a pending interrupt means that nobody is parked, and each waker is parked, woken or dropped once |
| `IrqLatch.PollServes` | modules/platform/src/irq.rs:150-178 | Ready iff an interrupt was pending or lands before the masked region, and then it is consumed; Pending leaves this poll's waker parked, nothing pending, interrupts enabled; the interrupt state is changed iff it was masked with nothing pending |
| `IrqLatch.ReadyAnswersInterrupts` | modules/platform/src/irq.rs:131-179 | over every run, pending iff an interrupt has landed that no Ready has answered since, and a poll answers Ready iff there is one, before it or while it runs |
| `IrqLatch.PendingIsAnswered` | modules/platform/src/irq.rs:131-179 | after Pending and until the next poll the waker has been woken iff an interrupt has arrived |
| `SerialRx.OfferAllDropsOnlyWhenFull` | modules/platform/src/drivers/serial_ns16550a.rs:227-240 | a burst is taken whole until 255 bytes are held; only what comes after that is dropped |
| `SerialRx.Receiver.Push` | modules/platform/src/drivers/serial_ns16550a.rs:227-240 | on the array with wrapping indices, equals one offer to the FIFO |
| `SerialRx.Receiver.Handle` | modules/platform/src/drivers/serial_ns16550a.rs:272-277 | drains the UART into the FIFO in order and empties the waker slot |
| `SerialRx.HandlerServes` | modules/platform/src/drivers/serial_ns16550a.rs:272-277 | it takes the burst in order, whole while there is room for it and as far as there is otherwise, and wakes whoever is parked |
| `SerialRx.Receiver.Pop` | modules/platform/src/drivers/serial_ns16550a.rs:243-255 | under bursts landing between any two of its accesses, takes the oldest byte of the FIFO |
| `SerialRx.Receiver.Poll` | modules/platform/src/drivers/serial_ns16550a.rs:124-154 | equals `PollSpec` under bursts at every unmasked point |
| `SerialRx.PollServes` | modules/platform/src/drivers/serial_ns16550a.rs:124-154 | returns the next byte in order, or parks its waker on an empty ring; the interrupt state is changed iff it was masked with an empty ring |
| `SerialRx.RunServes` | modules/platform/src/drivers/serial_ns16550a.rs:124-154 | over every run a nonempty ring means that nobody is parked, and the bytes accepted are the bytes delivered followed by those held |
| `SerialRx.PendingIsAnswered` | modules/platform/src/drivers/serial_ns16550a.rs:258-266 | after Pending and until the next poll the waker is parked on an empty ring or has been woken |
| `Timers.SweepSplits` | modules/timer/src/lib.rs:119-131 | the `swap_remove` sweep splits the queue, as a multiset, exactly into what has expired and what has not |
| `Timers.TimerQueue.TrySchedule` | modules/timer/src/lib.rs:74-95 | Err iff full, changing nothing; otherwise appends and says whether the deadline is strictly the earliest |
| `Timers.TimerQueue.Cancel` | modules/timer/src/lib.rs:101-115 | says whether some entry has these data; if so takes off the first of them and nothing else, and if not changes nothing |
| `Timers.TimerQueue.DequeueExpired` | modules/timer/src/lib.rs:119-133 | fires what the sweep fires, in its order, keeps the rest, returns the earliest deadline kept |
| `TimerService.DeadlineIsHonestIff` | modules/futures/src/timer.rs:42-51 | when the computed deadline is the requested one, cast and saturation included |
| `TimerService.CastLosesTicks` | modules/futures/src/timer.rs:42-51 | at 2 GHz a delay of 2^63 nanoseconds gets the current time for its deadline |
| `TimerService.RunConserves` | modules/futures/src/timer.rs:63-117 | over every run, whatever preempts a poll between its test of the clock, its schedule and its write of the register: each scheduled entry is queued, fired or cancelled, once, and none fires before its deadline |
| `TimerService.PollAnswers` | modules/futures/src/timer.rs:63-81 | a poll finishes its delay iff the deadline has come; a registered delay polled earlier is left as it is, any other goes on to schedule |
| `TimerService.DoneIff` | modules/futures/src/timer.rs:63-92 | over every run a delay is done at the end iff it was polled at its deadline or later, or dropped |
| `TimerService.DelayIsHonoured` | modules/futures/src/timer.rs:42-81 | a delay of given nanoseconds, while the ticks fit in 64 bits, is done by polling iff it is polled that many ticks after its start, saturated, or later |
| `TimerService.RunTracks` | modules/futures/src/timer.rs:63-90 | over every such run a delay that returned Pending, unfinished and not woken, has its entry, once, in the queue, even if it had expired when scheduled |
| `TimerService.RunCovers` | modules/futures/src/timer.rs:71-77 | unless a poll preempts an arming poll with an earlier deadline, the compare register bounds the queue, or an arming poll will make it |
| `TimerService.RegisterIsLateIff` | modules/futures/src/timer.rs:63-117 | over every run that leaves no poll half done, the register ends later than some queued deadline iff the last step to write it was that of an outermost poll with an earlier entry queued, and an entry earlier than what it wrote is queued at the end |
| `TimerService.ConsiderateRunsArmInTime` | modules/futures/src/timer.rs:71-77 | no run does so unless a poll with an earlier deadline preempts an outermost arming poll |
| `TimerService.OverdueIsServed` | modules/futures/src/timer.rs:111-117 | then an overdue waiting delay has its interrupt pending and the handler wakes it |
| `TimerService.ServiceArmsNext` | modules/futures/src/timer.rs:111-117 | the handler leaves the compare register at the earliest deadline still queued, or at the maximum with none, so its interrupt is no longer pending |
| `TimerService.PreemptedPollIsBoundedIff` | modules/futures/src/timer.rs:71-75 | when one poll preempts another between schedule and arm, the register bounds the queue afterwards iff the preempting deadline was not the earlier one |
| `TimerService.LateRegisterIsReachable` | modules/futures/src/timer.rs:71-75 | a run from power-up ends with a register later than the earliest deadline queued |
| `AsyncMutex.MutexIsSafe` | modules/futures/src/mutex.rs:71-155 | over every sequence of polls and drops, locked iff exactly one guard is live; at most N waiters, each once, alive, queued, unfinished, with a waker; those are exactly the waiting futures not yet woken; wakes follow the order of joining |
| `AsyncMutex.PollAnswers` | modules/futures/src/mutex.rs:71-98 | a poll answers Ready iff the mutex is free, and then holds it, off the list; it panics iff a newcomer meets a full list; else it is Pending, its waker stored and itself on the list, last if it is new |
| `AsyncMutex.AtMostOneHolds` | modules/futures/src/mutex.rs:71-155 | over every run from a free mutex, the polls that answered Ready exceed the guards dropped by one while it is locked and by none while it is free |
| `AsyncMutex.GuardDropWakesFirst` | modules/futures/src/mutex.rs:139-155 | a guard drop wakes the listed waiter that joined first, and takes it off the list |
| `AsyncMutex.WokenOnce` | modules/futures/src/mutex.rs:90-96 | a woken waiter that has not got the lock is never listed and never woken again |
| `AsyncMutex.OvertakenIsStranded` | modules/futures/src/mutex.rs:74-96 | if a newcomer polls between a guard drop and the poll of the waiter it woke, that poll returns Pending and in no continuation does a guard drop wake the waiter again |
| `AsyncMutex.OvertakenIsReachable` | modules/futures/src/mutex.rs:74-96 | a run from power-up gets there, at any capacity above zero |
| `AsyncMutex.HeirAcquiresIff` | modules/futures/src/mutex.rs:74-96 | from the guard drop that wakes a waiter, through any operations that neither poll nor drop it: its next poll acquires iff every guard acquired in between has been dropped; otherwise it is off the list for good |
| `AsyncMutex.RunKeepsInherited` | modules/futures/src/mutex.rs:139-155 | unless a future is dropped between its wake and its next poll, a free mutex with waiters has somebody woken, unfinished, and not polled since |
| `AsyncMutex.HandoverFailsIff` | modules/futures/src/mutex.rs:101-155 | a run leaves a free mutex with waiters and nobody woken to take it iff it ends with waiters, drops the last woken future of a free mutex with waiters at some point, and polls nothing after that |
| `AsyncMutex.DropKeepsInheritedIff` | modules/futures/src/mutex.rs:101-111 | dropping a future breaks the handover iff the mutex is free, somebody waits, and it is the only future woken and not polled since |
| `AsyncMutex.LostHeirIsReachable` | modules/futures/src/mutex.rs:101-111 | a run from power-up gets there, at any capacity above one |
| `AsyncMutex.Mutex.PollFuture` | modules/futures/src/mutex.rs:71-98 | the whole new state and result: Ready iff the mutex was free, a panic iff a newcomer met a full list |
| `AsyncMutex.Mutex.DropFuture` | modules/futures/src/mutex.rs:101-111 | takes a queued future off the list, whole new state |
| `AsyncMutex.Mutex.DropGuard` | modules/futures/src/mutex.rs:139-155 | unlocks and wakes the head of the list through the waker it left |

## Left out

- Device-tree parsing, driver probing, register access of PLIC, CLINT, reset and UART transmit, logging, panic handling, start-up and trap assembly: hardware plumbing; only MIE, MSIP, the compare register and a monotone clock are modelled.
- Token parsing in the proc macros, linker and build scripts: not part of the protocol.
- `DeviceRegistry`, slots, bus stacks, console selection: write-once tables with easy properties only.
- Several harts, external software interrupts that race with the scheduler's, weak memory orderings: one hart and sequential consistency are assumed.
- The intrusive list's links, the `TaskRef` casts and the `join_state` offset: a run queue is a sequence of task numbers, and `Ownership.FlagIsOwnership` gives the fact its memory safety rests on.
- Values: a future's output is a number, and a task's own state is not modelled beyond what its polls do to the kernel.
- The 64-bit words of the bitmap are vectors of 64 booleans with the bitwise operations written out, rather than machine words.
- Routing after a respawn while a stale queue entry remains: the code skips that enqueue (modules/executor/src/task/state.rs:44-49); the quiescence assumption excludes it.
- Eventual acquisition of the mutex: `AsyncMutex.HeirAcquiresIff` and `AsyncMutex.HandoverFailsIff` say when it fails.
- Two spawn tokens held at once and consumed in the order in which they were made: in the machine a token made while another is held is consumed first.
- Handles carry no incarnation number: a handle polled after its slot has been respawned is the new incarnation's.
- The order in which timer polls preempted before they schedule go on: left free, a superset of what one stack allows; those preempted after it go on innermost first.
- The address of a `TimerDelay`'s waker once it has returned Ready while its entry is still queued (modules/futures/src/timer.rs:64-66): data are names here, and no claim is made about that memory.
- The value guarded by the async mutex, and two latch or receiver waiters at once: one waiter is assumed, as the code does.
- Fairness and timing: no bound on how long a handler runs, and no claim that lower priorities are ever reached.

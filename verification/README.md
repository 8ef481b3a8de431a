# FreeRTOS kernel and GEM DMA rings: a verified model

A Dafny model of the FreeRTOS kernel that runs the R5 control plane, in the
single-core build that `software/vek280_freertos/include/FreeRTOSConfig.h:16-49`
selects (preemption and time slicing on, generic task selection, 7 priorities,
32-bit ticks, mutexes on, queue sets off, `INCLUDE_vTaskSuspend` at its default
of 0), and of the descriptor rings of the Ethernet driver.  `dafny verify
dfyconfig.toml` checks it.

Small concrete mechanisms are proved to agree with simple abstract ones over
unbounded runs: lists that wrap and are unlinked while they are walked, 32-bit
time against absolute time, lock counts, stale index reads, deferred clearing.

| module | what it models |
|---|---|
| `Basics` | optional values, priorities, places on a ring |
| `Ticks` | 32-bit tick arithmetic and absolute instants |
| `Lists`, `HeapLists` | the kernel's lists as values, and the linked lists on the heap that refine them |
| `Delays` | the two delayed lists, their swap at a wrap and the cached unblock time |
| `ReadyLists`, `Scheduler`, `SchedulerRuns` | placement, selection and time over whole runs of the scheduler |
| `LostYield` | a run, from the start, that loses a yield |
| `Tasks` | the scheduler's functions with their loops, on fields that are updated in place |
| `Timeouts` | timeouts that are reduced call by call, periodic delays |
| `QueueProtocol` | blocking on a queue: lock counts, event lists, interrupts half-way through |
| `QueueRing` | the byte ring of a queue |
| `Mutexes` | holders, recursive calls and priority inheritance, step by step |
| `Notifications` | notifications used as counting semaphores, step by step |
| `Timers` | the timer daemon, its two lists and its catch-up |
| `StreamBuffers`, `StreamProtocol` | the ring and frames of stream and message buffers; the lock-free writer and reader, and how each wakes the other |
| `EventGroups` | event groups, on values over whole runs and on the linked list |
| `DmaRings` | the transmit and receive rings of the Ethernet driver |

A protocol is a datatype state, an `Event`, a `Step` and an invariant that every
enabled step keeps; theorems about runs follow by induction.  Each class updates
its fields in place as the source does, with the source's loops; its `Valid()` is
the protocol's invariant where there is one, and its methods say what a caller
sees.  Critical sections, and sections under scheduler suspension that
interrupts cannot disturb, are single steps.  The clock, the allocator, the
packet filter and which task runs next are inputs.

## Findings

Where the code does not do what its design promises, the input and the exact
condition are proved.

| property | where it fails | when exactly |
|---|---|---|
| a queue never holds more than its length | overwriting a semaphore that is already available makes its count two and leaves a blocked giver blocked on a queue that is not full (`QueueProtocol.OverfillExample`, `QueueRing.QueueStorage.OverwriteFullSemaphore`): the decrement for an overwrite is only on the path that copies data, queue.c:2404-2465 | a run keeps the count within the length if and only if no step overwrites a queue without data while it is full (`QueueProtocol.WithinIff`) |
| the highest ready task runs, or a yield is pending | giving back the last of several mutexes lowers the giver, but whether that needs a yield is asked only if nobody waits for the mutex, queue.c:1047-1069 (`LostYield.LateGiveExample`, a run from the start) | a step loses the yield if and only if it is such a give to a waiter not above the giver's base priority while another ready task is, or a restore after a timeout that puts a ready holder above the running task (`SchedulerRuns.StepHighest`, over runs `SchedulerRuns.HighestRuns`); the second does not occur in the runs of `Mutexes.HolderNeverBelow`, in which a timeout never raises the holder (`Mutexes.FailNeverRaises`) |
| the holder of a mutex is never below its waiters | a task takes the mutex again below one that still waits (`Mutexes.TakenWhileOneWaits`); a waiting task's priority is set above the holder's (`Mutexes.RaisedWhileWaiting`); the holder waits for another mutex, whose holder does not inherit (`Mutexes.NestedWait`); each at the end of a run from creation | a run keeps it if and only if every step is guarded: the acquirer is not below those that still wait, and a changed priority is not below the waiters of the mutexes the task holds nor above the other holders of those it waits for (`Mutexes.StepHigh`, over runs `Mutexes.HighIff`) |
| a timeout is reported once its budget has elapsed | a check a full turn of the tick count late or more (`Timeouts.MissedExpiry`) | the check is right if and only if it is not a turn or more late with the count before the timestamp and within the budget (`Timeouts.CheckRight`) |
| a periodic delay sleeps exactly when its wake time is ahead | a call a full turn late or more (`Timeouts.MissedDelay`) | it is right if and only if it is not a turn or more late and showing less than the increment (`Timeouts.DelayUntilRight`) |
| a reader blocked on a stream buffer is woken once the trigger level is there | a batching reader blocks although exactly the trigger level is there, stream_buffer.c:1104 (`StreamProtocol.BatchMissed`); the documentation of the trigger level, include/stream_buffer.h:301-303, says that it unblocks, that of batching buffers, lines 294-296, that it does not; and lowering the trigger level wakes nobody | a run leaves no reader so if and only if it has no such block and no such change of the level (`StreamProtocol.RousedIff`); without changes of the level only batching buffers are concerned (`StreamProtocol.ReaderIsNotified`) |
| a transmit buffer is released only after the DMA is done with it | on a ring of any size the check reads the head, then sends fill the ring but for one that is not finished, then it reads the semaphore (`DmaRings.StaleHead`) | a run releases only what was transmitted if and only if no turn of the check frees the slot of a send that has not armed its descriptor (`DmaRings.TransmittedIff`); indexes, semaphore, slots and buffers agree throughout if and only if no turn goes on while only an unfinished send's descriptor is taken (`DmaRings.AgreedIff`) |

## Model

| member | source | states |
|---|---|---|
| Lists.InsertOrderedSorted | FreeRTOS-LTS/FreeRTOS/FreeRTOS-Kernel/list.c:139-213 | Insertion into a sorted list keeps it sorted, and the new item ends up behind exactly the items whose value is not larger (stability) |
| Lists.RankIsUnique | FreeRTOS-LTS/FreeRTOS/FreeRTOS-Kernel/list.c:161-199 | The place the search finds is the only one with everything not larger before it and something larger at it; the heap search is proved correct through it |
| Lists.RoundRobin | FreeRTOS-LTS/FreeRTOS/FreeRTOS-Kernel/tasks.c:206-208 | Over any run of index advances, insertions and removals (also of the item the index stands on) the visits to the items that stay follow their initial upcoming order, over and over |
| Lists.StrictCycle | FreeRTOS-LTS/FreeRTOS/FreeRTOS-Kernel/include/list.h:286-297 | The items that stay are visited in strict cyclic order: each once in the first round, and later visits repeat the one a round before |
| HeapLists.List.constructor | FreeRTOS-LTS/FreeRTOS/FreeRTOS-Kernel/list.c:49-86 | The linked list starts well formed: the marker with the largest value linked to itself both ways, index on it, no items |
| HeapLists.SplicedLinks | FreeRTOS-LTS/FreeRTOS/FreeRTOS-Kernel/list.c:105-136 | The four link updates of an insertion leave a ring, both ways, with the new item behind the chosen one |
| HeapLists.BypassedLinks | FreeRTOS-LTS/FreeRTOS/FreeRTOS-Kernel/list.c:217-246 | The two link updates of a removal leave a ring, both ways, without the item |
| HeapLists.List.InsertEnd | FreeRTOS-LTS/FreeRTOS/FreeRTOS-Kernel/list.c:105-136 | On the heap: the ring stays well formed and the item goes immediately before the index |
| HeapLists.List.Search | FreeRTOS-LTS/FreeRTOS/FreeRTOS-Kernel/list.c:161-199 | The search loop ends, because of the maximal marker (the largest value itself skips it), at the place behind exactly the leading items that are not larger |
| HeapLists.List.Insert | FreeRTOS-LTS/FreeRTOS/FreeRTOS-Kernel/list.c:139-213 | On the heap: the ring stays well formed, the items are the sorted stable insertion, and the index stays on its item |
| HeapLists.List.Remove | FreeRTOS-LTS/FreeRTOS/FreeRTOS-Kernel/list.c:217-246 | On the heap: the item leaves a well-formed ring, an index on it steps back to its predecessor, and the remaining count is returned |
| HeapLists.List.OwnerOfNext | FreeRTOS-LTS/FreeRTOS/FreeRTOS-Kernel/include/list.h:286-297 | On the heap: the index moves to the next item, skipping the marker, and that item's owner is returned |
| Delays.AddAgrees | FreeRTOS-LTS/FreeRTOS/FreeRTOS-Kernel/tasks.c:8590-8706 | A task delayed for d ticks is recorded at the 32-bit value, and on the list, that show the absolute instant now + d; nobody else moves |
| Delays.EmptyAtWrap | FreeRTOS-LTS/FreeRTOS/FreeRTOS-Kernel/tasks.c:265-277 | The current delayed list is empty whenever the tick count wraps and the lists are swapped, as the kernel asserts |
| Delays.TockAgrees | FreeRTOS-LTS/FreeRTOS/FreeRTOS-Kernel/tasks.c:4762-4785 | After the count has moved, with or without a swap, both lists show the wake times of their epochs and the cached unblock time is not beyond the head |
| Delays.AdvanceExact | FreeRTOS-LTS/FreeRTOS/FreeRTOS-Kernel/tasks.c:4753-4867 | One processed tick moves absolute time by one and takes off exactly the tasks whose recorded wake time it reaches, whether the count wraps and whether the cached time lets the scan be skipped |
| Scheduler.HighestExists | FreeRTOS-LTS/FreeRTOS/FreeRTOS-Kernel/tasks.c:184-210 | The search for a ready list never runs past priority zero: it ends on a non-empty list, and no ready task is above it |
| Scheduler.SwitchSound | FreeRTOS-LTS/FreeRTOS/FreeRTOS-Kernel/tasks.c:5120-5178 | A context switch moves no task and leaves the highest ready task running, or only a pending yield when the scheduler is suspended |
| Scheduler.TickSound | FreeRTOS-LTS/FreeRTOS/FreeRTOS-Kernel/tasks.c:4736-4975 | A tick keeps every task on exactly one list and its priority's list, and asks for a switch if it readies a task above the running one |
| Scheduler.SleepSound | FreeRTOS-LTS/FreeRTOS/FreeRTOS-Kernel/tasks.c:8590-8706 | Putting the running task to sleep keeps the placement of every task and does not put a ready task above it unnoticed |
| Scheduler.WakeSound | FreeRTOS-LTS/FreeRTOS/FreeRTOS-Kernel/tasks.c:5405-5496 | Removing a task from an event list puts it on the ready list of its priority, off the delayed lists, or among the pending ones under suspension, when no list moves; a yield is left pending exactly when one was or it is above the running task |
| Scheduler.WakeUnorderedSound | FreeRTOS-LTS/FreeRTOS/FreeRTOS-Kernel/tasks.c:5498-5567 | The wake-up from an event group puts the task on the ready list of its priority at once, even under suspension, with the same rule for the pending yield |
| Scheduler.SetPrioritySound | FreeRTOS-LTS/FreeRTOS/FreeRTOS-Kernel/tasks.c:2807-3015 | The base priority becomes the one asked for, clipped, and an inherited higher priority stays; a ready task is on the list of its new priority, every other task stays on its list, and nothing else changes |
| Scheduler.SetPriorityHighest | FreeRTOS-LTS/FreeRTOS/FreeRTOS-Kernel/tasks.c:2851-2905 | A priority change that could leave a ready task above the running one asks for a yield |
| Scheduler.InheritSound | FreeRTOS-LTS/FreeRTOS/FreeRTOS-Kernel/tasks.c:6650-6746 | After inheritance the holder is at least as high as the running task, every task is on the list of its priority, all others where they were, and no ready task is above the running one if none was |
| Scheduler.DisinheritSound | FreeRTOS-LTS/FreeRTOS/FreeRTOS-Kernel/tasks.c:6753-6840 | Giving the last mutex returns the running task to its base priority and its list; a give that reports no change has changed nothing |
| Scheduler.RestoreSound | FreeRTOS-LTS/FreeRTOS/FreeRTOS-Kernel/tasks.c:6847-6960 | After a waiter's timeout the priority of a holder of one mutex is the larger of its base and the highest still waiting, and any other's is unchanged; the holder is placed by it, all others stay, and exactly when it is above the running task's a ready task is left above it |
| Scheduler.CreateSound | FreeRTOS-LTS/FreeRTOS/FreeRTOS-Kernel/tasks.c:2052-2114 | The new task, and no other, is added and counted, ready at its clipped priority; a yield is asked for exactly when that is above the running task's |
| Scheduler.DeleteSound | FreeRTOS-LTS/FreeRTOS/FreeRTOS-Kernel/tasks.c:2224-2340 | The task leaves every event, delayed and ready list; one that deletes itself is kept for the idle task on the list of terminated tasks, any other is forgotten; the others keep their places and the count is right |
| Scheduler.ReapSound | FreeRTOS-LTS/FreeRTOS/FreeRTOS-Kernel/tasks.c:6110-6160 | Each round of the idle task's clean-up forgets exactly the task deleted first, which is then on no list, and keeps the others placed and the count right |
| SchedulerRuns.BootedInv | FreeRTOS-LTS/FreeRTOS/FreeRTOS-Kernel/tasks.c:3700-3740 | The state in which the scheduler starts, with only the idle task, meets the invariant that all runs keep |
| SchedulerRuns.StepInv | FreeRTOS-LTS/FreeRTOS/FreeRTOS-Kernel/tasks.c:285-291 | Every kernel event keeps every live task on exactly one state list, its event item on at most one list and only while asleep, list lengths adding up to the task count, and absolute wake times right |
| SchedulerRuns.HighestRuns | FreeRTOS-LTS/FreeRTOS/FreeRTOS-Kernel/tasks.c:5428-5474 | Over a whole run no ready task is above the running one without a yield pending if and only if no step is a mutex give or a restore in its bad case; the running task is ready or owes a yield |
| SchedulerRuns.StepHighest | FreeRTOS-LTS/FreeRTOS/FreeRTOS-Kernel/queue.c:1047-1069 | One event leaves a ready task above the running one, with no yield asked for, exactly in the two bad cases: a last give that wakes a task not above the giver's base priority while another ready task is, and a restore above the running task |
| LostYield.LateGiveExample | FreeRTOS-LTS/FreeRTOS/FreeRTOS-Kernel/queue.c:1047-1069 | A run from the start of the scheduler, of task creations, blocking, inheritance and a give, after which giving the last mutex leaves a task of priority 3 ready below the running task of priority 1, with no yield asked for |
| SchedulerRuns.YieldSelects | FreeRTOS-LTS/FreeRTOS/FreeRTOS-Kernel/tasks.c:5120-5178 | An unsuspended yield leaves a ready task running, among the highest, and owing nothing |
| SchedulerRuns.ExactWake | FreeRTOS-LTS/FreeRTOS/FreeRTOS-Kernel/tasks.c:4753-4867 | Over any run that does not touch the task otherwise, however often the count wraps, it is still in its sleep exactly while the absolute time has not reached its wake time |
| SchedulerRuns.NothingOverdue | FreeRTOS-LTS/FreeRTOS/FreeRTOS-Kernel/tasks.c:4794-4867 | In every reachable state each delayed task sleeps until a time still ahead |
| SchedulerRuns.NoTickLost | FreeRTOS-LTS/FreeRTOS/FreeRTOS-Kernel/tasks.c:4967-4969 | Tick count plus pended ticks, in 32 bits, rises by exactly one per tick interrupt through any nesting of suspensions and resumptions |
| SchedulerRuns.CatchupTime | FreeRTOS-LTS/FreeRTOS/FreeRTOS-Kernel/tasks.c:4046-4135 | The outermost resume moves time by the pended ticks, leaves nothing pending, and wakes nobody whose time has not come apart from the pending tasks |
| SchedulerRuns.CatchupReadies | FreeRTOS-LTS/FreeRTOS/FreeRTOS-Kernel/tasks.c:4053-4086 | Every task made pending under suspension is on its ready list, and on no delayed list, after the outermost resume |
| Tasks.KernelState.IncrementTick | FreeRTOS-LTS/FreeRTOS/FreeRTOS-Kernel/tasks.c:4736-4975 | In place: an unsuspended tick moves time by one and takes off the delayed lists exactly the tasks now due, which are ready; a suspended one is kept; the whole scheduler invariant holds after it |
| Tasks.KernelState.ResumeAll | FreeRTOS-LTS/FreeRTOS/FreeRTOS-Kernel/tasks.c:4022-4168 | In place, with the drain and replay loops: when the last suspension ends nothing is pending, time has caught up, woken tasks are ready and no delayed task is overdue; the invariant holds |
| Tasks.KernelState.SwitchContext | FreeRTOS-LTS/FreeRTOS/FreeRTOS-Kernel/tasks.c:5120-5178 | In place: unless suspended, the next task of the highest non-empty list runs; the invariant holds |
| Tasks.KernelState.AddCurrentTaskToDelayedList | FreeRTOS-LTS/FreeRTOS/FreeRTOS-Kernel/tasks.c:8590-8706 | In place: the task sleeps until exactly that many ticks from now, recorded in absolute time; the invariant holds |
| Tasks.KernelState.RemoveFromEventList | FreeRTOS-LTS/FreeRTOS/FreeRTOS-Kernel/tasks.c:5405-5496 | In place: the task leaves the event list and is ready, or pending under suspension; the caller learns whether it is above the running task; the invariant holds |
| Tasks.KernelState.CheckTasksWaitingTermination | FreeRTOS-LTS/FreeRTOS/FreeRTOS-Kernel/tasks.c:6110-6160 | In place: every task that deleted itself is forgotten, all others keep their priorities and places, and the task count is right |
| Tasks.KernelState.HighestReadyPriority | FreeRTOS-LTS/FreeRTOS/FreeRTOS-Kernel/tasks.c:184-210 | The descending search loop returns the highest priority with a ready task |
| Tasks.UnblockedIs | FreeRTOS-LTS/FreeRTOS/FreeRTOS-Kernel/tasks.c:4794-4867 | The loop that unblocks due tasks one at a time has the effect of taking them all off and then readying them in order |
| Tasks.TickUnblocks | FreeRTOS-LTS/FreeRTOS/FreeRTOS-Kernel/tasks.c:4762-4867 | Skipping the scan while the cached time is ahead is the same as doing it |
| QueueProtocol.StepKeeps | FreeRTOS-LTS/FreeRTOS/FreeRTOS-Kernel/queue.c:258-300 | Every step of a task, an interrupt or the clock keeps the wakeup invariant: waiting receivers are covered by woken ones and counted posts, dually for senders |
| QueueProtocol.NoLostWakeup | FreeRTOS-LTS/FreeRTOS/FreeRTOS-Kernel/queue.c:949-1164 | In every run from creation of tasks and interrupts on one queue: with nobody half-way into blocking and nobody woken, receivers wait only on an empty queue, senders only on one that is full, exactly full unless a queue without data was overwritten while full |
| QueueProtocol.UnlockTxKeeps | FreeRTOS-LTS/FreeRTOS/FreeRTOS-Kernel/queue.c:2497-2560 | Unlocking settles every post counted while the queue was locked: each wakes a receiver or finds none |
| QueueProtocol.UnlockRxKeeps | FreeRTOS-LTS/FreeRTOS/FreeRTOS-Kernel/queue.c:2562-2614 | Unlocking settles every receive counted while the queue was locked |
| QueueProtocol.PeekKeeps | FreeRTOS-LTS/FreeRTOS/FreeRTOS-Kernel/queue.c:1929-1940 | A peek, which leaves the item, passes the wakeup on to the next receiver |
| QueueProtocol.SendFromISRKeeps | FreeRTOS-LTS/FreeRTOS/FreeRTOS-Kernel/queue.c:1207-1329 | A post from an interrupt keeps the invariant by waking a receiver or counting the post while the queue is locked |
| QueueProtocol.LockNeverOverflows | FreeRTOS-LTS/FreeRTOS/FreeRTOS-Kernel/queue.c:258-300 | A lock count about to rise is below the 8-bit limit, as the kernel asserts, since it is capped by the number of tasks |
| QueueProtocol.WithinIff | FreeRTOS-LTS/FreeRTOS/FreeRTOS-Kernel/queue.c:2393-2465 | Over a run the message count stays within the length if and only if no step overwrites a queue without data while it is full |
| QueueProtocol.OverfillExample | FreeRTOS-LTS/FreeRTOS/FreeRTOS-Kernel/queue.c:2393-2465 | A run: overwriting an available semaphore makes its count two and leaves a blocked giver blocked on a queue that is not full |
| QueueProtocol.BlockedGiverReachable | FreeRTOS-LTS/FreeRTOS/FreeRTOS-Kernel/queue.c:1071-1124 | The state from which that overwrite starts, a task blocked giving an available semaphore, is reached from creation |
| QueueProtocol.RunOrdered | FreeRTOS-LTS/FreeRTOS/FreeRTOS-Kernel/tasks.c:5307-5335 | In every run from creation the task that a post or receive would wake had the highest priority, when it blocked, of all that wait |
| QueueProtocol.QueueState.TryToSend | FreeRTOS-LTS/FreeRTOS/FreeRTOS-Kernel/queue.c:949-1040 | In place: posts if there is room or an overwrite, wakes the first receiver, and keeps the invariant of the protocol |
| QueueProtocol.QueueState.TryToReceive | FreeRTOS-LTS/FreeRTOS/FreeRTOS-Kernel/queue.c:1533-1580 | In place: takes a message if there is one, wakes the first sender, and keeps the invariant |
| QueueProtocol.QueueState.LockQueue | FreeRTOS-LTS/FreeRTOS/FreeRTOS-Kernel/queue.c:258-270 | In place: both lock counts start at zero if they were unlocked, and the invariant holds |
| QueueProtocol.QueueState.UnlockTxSide | FreeRTOS-LTS/FreeRTOS/FreeRTOS-Kernel/queue.c:2497-2560 | In place, with its counting loop: wakes a receiver for each counted post while there is one, unlocks, and keeps the invariant |
| QueueProtocol.QueueState.UnlockRxSide | FreeRTOS-LTS/FreeRTOS/FreeRTOS-Kernel/queue.c:2562-2614 | In place, with its counting loop: the same for counted receives and senders |
| QueueProtocol.QueueState.PostFromISR | FreeRTOS-LTS/FreeRTOS/FreeRTOS-Kernel/queue.c:1207-1329 | In place: a post from an interrupt wakes a receiver or, when locked, is counted up to the number of tasks; the invariant holds |
| QueueProtocol.QueueState.TakeFromISR | FreeRTOS-LTS/FreeRTOS/FreeRTOS-Kernel/queue.c:2039-2135 | In place: the same for a receive from an interrupt |
| QueueRing.WindowAppend | FreeRTOS-LTS/FreeRTOS/FreeRTOS-Kernel/queue.c:2421-2431 | Writing the slot behind a window of items that is not full appends the item, byte for byte, across the wrap |
| QueueRing.WindowPrepend | FreeRTOS-LTS/FreeRTOS/FreeRTOS-Kernel/queue.c:2432-2462 | Writing the slot before a window that is not full prepends it |
| QueueRing.WindowUnchanged | FreeRTOS-LTS/FreeRTOS/FreeRTOS-Kernel/queue.c:2421-2462 | Writing a slot outside the window changes none of its items |
| QueueRing.QueueStorage.constructor | FreeRTOS-LTS/FreeRTOS/FreeRTOS-Kernel/queue.c:303-325 | The positions of a reset queue stand for the empty sequence |
| QueueRing.QueueStorage.CopyDataToQueue | FreeRTOS-LTS/FreeRTOS/FreeRTOS-Kernel/queue.c:2393-2472 | The sequence is appended to, prepended to, or its one item replaced, byte for byte; the count, and whether the queue stays well formed, are stated for each case, the overfull semaphore included |
| QueueRing.QueueStorage.OverwriteFullSemaphore | FreeRTOS-LTS/FreeRTOS/FreeRTOS-Kernel/queue.c:2404-2465 | Overwriting a full queue of item size zero leaves count two and a queue that is not well formed |
| QueueRing.QueueStorage.Receive | FreeRTOS-LTS/FreeRTOS/FreeRTOS-Kernel/queue.c:1543-1549 | The first item is returned and the rest remains |
| QueueRing.QueueStorage.Peek | FreeRTOS-LTS/FreeRTOS/FreeRTOS-Kernel/queue.c:1914-1925 | The first item is returned and nothing changes, the read position included |
| Timers.ProcessNowMeans | FreeRTOS-LTS/FreeRTOS/FreeRTOS-Kernel/timers.c:890-931 | The two wrap-dependent tests together say that at least a period has passed since the command, in 32-bit time |
| Timers.ClassifyExact | FreeRTOS-LTS/FreeRTOS/FreeRTOS-Kernel/timers.c:890-931 | In absolute time: a timer is processed now exactly when its expiry is past, and otherwise listed on the list of its expiry's epoch |
| Timers.ReloadExact | FreeRTOS-LTS/FreeRTOS/FreeRTOS-Kernel/timers.c:695-711 | Catching up advances the timer over every expiry up to now, with one callback each, and lists it for the first expiry after now |
| Timers.ReloadAtMax | FreeRTOS-LTS/FreeRTOS/FreeRTOS-Kernel/timers.c:1089-1111 | At the largest time no reload goes back on the current list, so the loop of a switch terminates on that list's length |
| Timers.SwitchGood | FreeRTOS-LTS/FreeRTOS/FreeRTOS-Kernel/timers.c:1089-1111 | Switching lists at a wrap fires everything due and leaves the lists of the new epoch, every timer's plan unchanged |
| Timers.SampleGood | FreeRTOS-LTS/FreeRTOS/FreeRTOS-Kernel/timers.c:867-887 | Sampling the time less than a turn of the count later, while a timer is active, detects a wrap exactly and keeps the invariant |
| Timers.RunInv | FreeRTOS-LTS/FreeRTOS/FreeRTOS-Kernel/timers.c:778-837 | Over any run of polls and commands each active timer is on exactly the list, at exactly the value, of its next expiry |
| Timers.AheadOf | FreeRTOS-LTS/FreeRTOS/FreeRTOS-Kernel/timers.c:778-837 | When the daemon blocks, every active timer's next expiry is ahead and not before the end of its block time |
| Timers.CatchUpExact | FreeRTOS-LTS/FreeRTOS/FreeRTOS-Kernel/timers.c:695-741 | An auto-reload timer started at C with period p and left alone has had floor((now - C) / p) callbacks whenever everything due is processed, its next expiry in (now, now + p], over any backlog and number of wraps |
| Timers.CatchUpFromStart | FreeRTOS-LTS/FreeRTOS/FreeRTOS-Kernel/timers.c:997-1026 | The same from the daemon's start: after any run, for a start command issued at C, and any further run that leaves the timer alone |
| Timers.TimerService.InsertTimerInActiveList | FreeRTOS-LTS/FreeRTOS/FreeRTOS-Kernel/timers.c:890-931 | In place: processes now or lists the timer as the classification says |
| Timers.TimerService.ReloadTimer | FreeRTOS-LTS/FreeRTOS/FreeRTOS-Kernel/timers.c:695-711 | In place, with its loop: the effect of all reloads up to now |
| Timers.TimerService.SwitchTimerLists | FreeRTOS-LTS/FreeRTOS/FreeRTOS-Kernel/timers.c:1089-1111 | In place, with its drain loop: the new epoch's lists, everything due fired |
| Timers.TimerService.ProcessTimerOrBlockTask | FreeRTOS-LTS/FreeRTOS/FreeRTOS-Kernel/timers.c:778-837 | In place: keeps the invariant; when it blocks, every active timer's next expiry is ahead and not before the block ends |
| Timers.TimerService.ProcessReceivedCommand | FreeRTOS-LTS/FreeRTOS/FreeRTOS-Kernel/timers.c:934-1086 | In place: one command takes the timer off its list, is obeyed, and keeps the invariant |
| Timeouts.CheckRight | FreeRTOS-LTS/FreeRTOS/FreeRTOS-Kernel/tasks.c:5598-5664 | A check reports expiry correctly if and only if it is not the case that a full turn or more has passed and the count shows a value before the timestamp's within the budget |
| Timeouts.CheckExact | FreeRTOS-LTS/FreeRTOS/FreeRTOS-Kernel/tasks.c:5598-5664 | With at most one wrap since the timestamp: expired exactly when the budget has elapsed, else what remains is the budget less the elapsed time, from a new timestamp |
| Timeouts.MissedExpiry | FreeRTOS-LTS/FreeRTOS/FreeRTOS-Kernel/tasks.c:5620-5640 | A concrete check that reports no expiry although more than the budget has elapsed |
| Timeouts.Telescopes | FreeRTOS-LTS/FreeRTOS/FreeRTOS-Kernel/tasks.c:5598-5664 | Over any chain of checks with at most one wrap between consecutive ones, the first to report expiry is the first at or after start + budget, and until then remaining plus elapsed is the budget |
| Timeouts.DelayUntilRight | FreeRTOS-LTS/FreeRTOS/FreeRTOS-Kernel/tasks.c:2392-2440 | The call sleeps exactly when the next wake time is ahead, if and only if it is not a full turn or more late and showing less than the increment |
| Timeouts.MissedDelay | FreeRTOS-LTS/FreeRTOS/FreeRTOS-Kernel/tasks.c:2392-2440 | A concrete call that sleeps for a wake time that is long past |
| Timeouts.DelayUntilExact | FreeRTOS-LTS/FreeRTOS/FreeRTOS-Kernel/tasks.c:2392-2440 | Called less than a turn after the previous wake time, it sleeps until exactly one increment after that, and stores that wake time |
| Timeouts.NoDrift | FreeRTOS-LTS/FreeRTOS/FreeRTOS-Kernel/tasks.c:2377-2462 | The k-th call of a periodic task sleeps exactly when start + (k + 1) * increment is ahead, and until exactly that time |
| Timeouts.TimeOutState.CheckForTimeOut | FreeRTOS-LTS/FreeRTOS/FreeRTOS-Kernel/tasks.c:5598-5664 | In place: reports expiry exactly when the budget has elapsed, else moves the timestamp and shrinks the budget by what elapsed |
| StreamBuffers.FramesRoundTrip | FreeRTOS-LTS/FreeRTOS/FreeRTOS-Kernel/stream_buffer.c:1286-1330 | Cutting the bytes of any sequence of frames by their length words gives back every message: frames determine messages |
| StreamBuffers.LengthRoundTrip | FreeRTOS-LTS/FreeRTOS/FreeRTOS-Kernel/stream_buffer.c:1017-1027 | The length word read back is the length written |
| StreamBuffers.UnreadWritten | FreeRTOS-LTS/FreeRTOS/FreeRTOS-Kernel/stream_buffer.c:1479-1525 | Bytes written at the head into free space, across the wrap, are read after all unread ones, which stay |
| StreamBuffers.UnreadDrop | FreeRTOS-LTS/FreeRTOS/FreeRTOS-Kernel/stream_buffer.c:1528-1566 | Reading takes the oldest bytes, across the wrap, and leaves the rest |
| StreamBuffers.StreamBuffer.WriteBytes | FreeRTOS-LTS/FreeRTOS/FreeRTOS-Kernel/stream_buffer.c:1479-1525 | In place, with both copies: exactly the bytes from the given place on are replaced, with wrap |
| StreamBuffers.StreamBuffer.ReadBytes | FreeRTOS-LTS/FreeRTOS/FreeRTOS-Kernel/stream_buffer.c:1528-1566 | The first places of the target are the ring's bytes from the given place on, with wrap, and the rest of the target is unchanged |
| StreamBuffers.StreamBuffer.SpacesAvailable | FreeRTOS-LTS/FreeRTOS/FreeRTOS-Kernel/stream_buffer.c:754-788 | Returns exactly the free bytes, one place of the ring always staying empty |
| StreamBuffers.StreamBuffer.Send | FreeRTOS-LTS/FreeRTOS/FreeRTOS-Kernel/stream_buffer.c:943-1003 | In place: a message goes in whole and last if header and data fit, else nothing changes; a stream takes the bytes that fit; the content stays whole frames |
| StreamBuffers.StreamBuffer.Receive | FreeRTOS-LTS/FreeRTOS/FreeRTOS-Kernel/stream_buffer.c:1216-1277 | In place: the oldest message comes out intact, or nothing changes if there is none or the room is too small; a stream gives the oldest bytes above the trigger level |
| StreamBuffers.StreamBuffer.NextMessageLength | FreeRTOS-LTS/FreeRTOS/FreeRTOS-Kernel/stream_buffer.c:1172-1213 | Returns the length of the oldest message, or zero; the asserted absence of partial frames is proved |
| StreamProtocol.StepInv | FreeRTOS-LTS/FreeRTOS/FreeRTOS-Kernel/stream_buffer.c:1003-1053 | Every interleaving of single index accesses, byte copies and the critical sections of waiting, of one writer and one reader, keeps: unread bytes are what was accepted and not delivered, in order, each side's stale view is safe, and who waits is registered |
| StreamProtocol.BeliefsAreSafe | FreeRTOS-LTS/FreeRTOS/FreeRTOS-Kernel/stream_buffer.c:754-788 | In every reachable state the writer's space is at most what is free, the reader's count at most what is there, and on leaving its loop the writer has found exactly what is free |
| StreamProtocol.NothingOverwritten | FreeRTOS-LTS/FreeRTOS/FreeRTOS-Kernel/stream_buffer.c:1479-1566 | No step overwrites an unread byte: what is unread only loses bytes at the front and gains them at the end |
| StreamProtocol.DeliveredInOrder | FreeRTOS-LTS/FreeRTOS/FreeRTOS-Kernel/stream_buffer.c:1279-1331 | For every interleaving from creation the bytes delivered are a prefix of the bytes accepted, messages arrive intact and in order, and when nothing is unread everything has been delivered |
| StreamProtocol.RoomDecides | FreeRTOS-LTS/FreeRTOS/FreeRTOS-Kernel/stream_buffer.c:1297-1320 | Once the length word is read, exactly the next message is taken if the room suffices, else nothing but the reader's place changes |
| StreamProtocol.SpaceDecides | FreeRTOS-LTS/FreeRTOS/FreeRTOS-Kernel/stream_buffer.c:1009-1052 | A message that fits the space found goes in whole, with its length word, and one that does not changes nothing |
| StreamProtocol.WriterIsNotified | FreeRTOS-LTS/FreeRTOS/FreeRTOS-Kernel/stream_buffer.c:864-902 | In every reachable state a writer asleep although the space it waits for is there has been notified, or the reader that freed it is about to notify it |
| StreamProtocol.ReaderIsNotified | FreeRTOS-LTS/FreeRTOS/FreeRTOS-Kernel/stream_buffer.c:915-930 | In every run from creation of a stream or message buffer whose trigger level is left alone, a reader asleep with at least the trigger level unread has been notified, or the writer is about to find that out |
| StreamProtocol.StepRouses | FreeRTOS-LTS/FreeRTOS/FreeRTOS-Kernel/stream_buffer.c:1084-1127 | One step leaves a reader asleep and unnotified over the trigger level if and only if a batching reader goes to sleep on bytes that reach the level but not more than its threshold, or the level is lowered to what is unread |
| StreamProtocol.RousedIff | FreeRTOS-LTS/FreeRTOS/FreeRTOS-Kernel/stream_buffer.c:1084-1127 | Over a whole run: no reader is ever left so if and only if no step is one of the two |
| StreamProtocol.MissesRarely | FreeRTOS-LTS/FreeRTOS/FreeRTOS-Kernel/stream_buffer.c:720-752 | Only a batching buffer's reader, or a change of the trigger level, can do that |
| StreamProtocol.BatchMissed | FreeRTOS-LTS/FreeRTOS/FreeRTOS-Kernel/stream_buffer.c:1077-1111 | A run: a batching buffer holds exactly the trigger level, and its reader goes to sleep unnotified all the same |
| StreamProtocol.BothAsleep | FreeRTOS-LTS/FreeRTOS/FreeRTOS-Kernel/stream_buffer.c:922-924 | Writer and reader sleep on each other only if the trigger level is above one and the writer needs more space than is left beside it |
| StreamProtocol.MutualSleep | FreeRTOS-LTS/FreeRTOS/FreeRTOS-Kernel/stream_buffer.c:864-930 | A run in which they do: one byte unread, trigger level two, the writer waiting for room for two in a buffer of two |
| EventGroups.SetReleases | FreeRTOS-LTS/FreeRTOS/FreeRTOS-Kernel/event_groups.c:547-647 | A set releases exactly the waiters whose condition the old bits with the new ones satisfy, each seeing those bits; the others stay |
| EventGroups.SetLeaves | FreeRTOS-LTS/FreeRTOS/FreeRTOS-Kernel/event_groups.c:635-640 | Bit by bit: a bit is present after a set exactly when it was or is set and no released waiter that asked for clearing wanted it |
| EventGroups.SameBitsSeen | FreeRTOS-LTS/FreeRTOS/FreeRTOS-Kernel/event_groups.c:621-627 | All tasks one set releases get the same pre-clear bits |
| EventGroups.StepInv | FreeRTOS-LTS/FreeRTOS/FreeRTOS-Kernel/event_groups.c:185-309 | Every call, timeout and return keeps: no waiter's condition is satisfied, none waits twice, no blocked task is lost |
| EventGroups.NobodyMissed | FreeRTOS-LTS/FreeRTOS/FreeRTOS-Kernel/event_groups.c:336-404 | In every reachable state no blocked waiter's condition is satisfied by the bits, and none is on the list twice |
| EventGroups.ReleasedSatisfied | FreeRTOS-LTS/FreeRTOS/FreeRTOS-Kernel/event_groups.c:406-469 | In every reachable state a call released by a set returns bits that satisfy what it asked for |
| EventGroups.ReturnConsumes | FreeRTOS-LTS/FreeRTOS/FreeRTOS-Kernel/event_groups.c:343-366 | A call that asks for clearing and returns because its bits are there, at once or on the last look after a timeout, leaves none of them set; other returns leave the bits alone |
| EventGroups.RendezvousCompletes | FreeRTOS-LTS/FreeRTOS/FreeRTOS-Kernel/event_groups.c:205-247 | The sync that completes the bits releases every task waiting for the same rendezvous and leaves none of those bits set |
| EventGroups.EventGroup.SetBits | FreeRTOS-LTS/FreeRTOS/FreeRTOS-Kernel/event_groups.c:547-647 | In place on the linked list, which is unlinked while it is walked: exactly the satisfied waiters leave, in their items the pre-clear bits, and the bits left are as above |
| EventGroups.EventGroup.Walk | FreeRTOS-LTS/FreeRTOS/FreeRTOS-Kernel/event_groups.c:577-633 | The walk that takes the next item before it unlinks the current one visits every item and collects the clear mask of the released ones |
| EventGroups.EventGroup.WaitBits | FreeRTOS-LTS/FreeRTOS/FreeRTOS-Kernel/event_groups.c:336-404 | In place: returns at once, with or without clearing, or puts the task last on the list, exactly as its condition and block time say; no satisfied waiter stays |
| EventGroups.EventGroup.Sync | FreeRTOS-LTS/FreeRTOS/FreeRTOS-Kernel/event_groups.c:205-247 | In place: sets, then returns with the rendezvous bits cleared, blocks, or gives up; no satisfied waiter stays |
| EventGroups.EventGroup.ClearBits | FreeRTOS-LTS/FreeRTOS/FreeRTOS-Kernel/event_groups.c:472-501 | In place: returns the old bits and clears; nobody becomes satisfied |
| EventGroups.EventGroup.Resume | FreeRTOS-LTS/FreeRTOS/FreeRTOS-Kernel/event_groups.c:417-466 | In place: a released call returns the bits it saw, a timed-out one the present bits, which it clears if they satisfy it after all |
| Mutexes.StepInv | FreeRTOS-LTS/FreeRTOS/FreeRTOS-Kernel/queue.c:1659-1881 | Every step of a take, a give, a timeout or a priority change keeps the accounts of mutexes and tasks and the waiting lists |
| Mutexes.Accounted | FreeRTOS-LTS/FreeRTOS/FreeRTOS-Kernel/tasks.c:6753-6840 | In every reachable state a mutex can be taken exactly when it has no holder, each task's count is the number of mutexes naming it, and its priority is above its base only while it holds one |
| Mutexes.TakesNeedGives | FreeRTOS-LTS/FreeRTOS/FreeRTOS-Kernel/queue.c:759-865 | A recursive mutex is held until the gives equal the takes, whatever other tasks do, and is released by exactly the give that evens them |
| Mutexes.HighestIs | FreeRTOS-LTS/FreeRTOS/FreeRTOS-Kernel/queue.c:2368-2388 | The head of a mutex's list has the highest priority of those that wait |
| Mutexes.TakenOrderly | FreeRTOS-LTS/FreeRTOS/FreeRTOS-Kernel/queue.c:1692-1742 | From a state in order, acquiring keeps it in order, every holder at least as high as its waiters included, if and only if nobody still waiting is above the acquirer |
| Mutexes.HolderNeverBelow | FreeRTOS-LTS/FreeRTOS/FreeRTOS-Kernel/queue.c:1785-1866 | In every run in which tasks hold one mutex at a time, wait for none while holding one, priorities are not set, and acquirers are not below remaining waiters, the holder is never below a waiter, timeouts included |
| Mutexes.StepHigh | FreeRTOS-LTS/FreeRTOS/FreeRTOS-Kernel/queue.c:1688-1866 | In any state, nested mutexes included, a step keeps every holder at least as high as its waiters if and only if its acquirer is not below those that still wait, and a priority that changes, by inheritance, after a timeout or explicitly, suits the waiters and holders of the task that changes |
| Mutexes.HighIff | FreeRTOS-LTS/FreeRTOS/FreeRTOS-Kernel/queue.c:1688-1866 | Over a whole run, nested mutexes and explicit priority changes included: every holder is always at least as high as its waiters if and only if every step is so guarded |
| Mutexes.BlockGuard | FreeRTOS-LTS/FreeRTOS/FreeRTOS-Kernel/tasks.c:6650-6746 | For blocking the guard is that the holder, once raised, is not above the holder of a mutex that it waits for itself |
| Mutexes.TakenWhileOneWaits | FreeRTOS-LTS/FreeRTOS/FreeRTOS-Kernel/queue.c:1692-1742 | A run: the holder gives, and takes again before the task it woke runs, while a task above it still waits; the take leaves it below that task |
| Mutexes.RaisedWhileWaiting | FreeRTOS-LTS/FreeRTOS/FreeRTOS-Kernel/tasks.c:2905-2960 | A run: the priority of a waiting task is set above the holder's, and the holder does not follow |
| Mutexes.NestedWait | FreeRTOS-LTS/FreeRTOS/FreeRTOS-Kernel/tasks.c:6650-6746 | A run: a task lends its priority to a holder that waits for a second mutex, whose holder stays below |
| Mutexes.FailNeverRaises | FreeRTOS-LTS/FreeRTOS/FreeRTOS-Kernel/tasks.c:6847-6960 | In the states that restricted runs reach, a timeout never raises the holder, so it is not put above the running task |
| Mutexes.PriorityInherit | FreeRTOS-LTS/FreeRTOS/FreeRTOS-Kernel/tasks.c:6650-6746 | In place: the holder's priority becomes the larger of the two and its event item value follows a change; inheritance is reported exactly when its base is below the running task |
| Mutexes.PriorityDisinherit | FreeRTOS-LTS/FreeRTOS/FreeRTOS-Kernel/tasks.c:6753-6840 | In place: one mutex fewer; with the last one the priority falls back to the base, the event item value with it, which is reported |
| Mutexes.PriorityDisinheritAfterTimeout | FreeRTOS-LTS/FreeRTOS/FreeRTOS-Kernel/tasks.c:6847-6960 | In place: the priority of a holder of one mutex becomes the larger of its base and the highest still waiting, the event item value with it; any other is left alone |
| Mutexes.MutexState.TryTake | FreeRTOS-LTS/FreeRTOS/FreeRTOS-Kernel/queue.c:1688-1742 | In place: taken exactly when it had no holder, and then counted for the taker |
| Mutexes.MutexState.Block | FreeRTOS-LTS/FreeRTOS/FreeRTOS-Kernel/queue.c:1785-1807 | In place: blocks exactly when it is held; the holder inherits, and the task goes on the list in priority order |
| Mutexes.MutexState.Fail | FreeRTOS-LTS/FreeRTOS/FreeRTOS-Kernel/queue.c:1836-1866 | In place: after a timeout the holder keeps its base priority or that of the highest that still waits |
| Mutexes.MutexState.Give | FreeRTOS-LTS/FreeRTOS/FreeRTOS-Kernel/queue.c:2404-2465 | In place: the holder disinherits, the mutex is available, and the first waiter is woken |
| Mutexes.MutexState.TakeRecursive | FreeRTOS-LTS/FreeRTOS/FreeRTOS-Kernel/queue.c:818-865 | In place: succeeds exactly when nobody else holds it, counting one more call |
| Mutexes.MutexState.GiveRecursive | FreeRTOS-LTS/FreeRTOS/FreeRTOS-Kernel/queue.c:759-811 | In place: only the give that closes the last open call releases the mutex; a task that does not hold it changes nothing |
| Notifications.StepInv | FreeRTOS-LTS/FreeRTOS/FreeRTOS-Kernel/tasks.c:7702-7797 | Every step of a take, interleaved with gives from tasks and interrupts, timeouts and suspensions, keeps the notification invariant |
| Notifications.NoLostNotification | FreeRTOS-LTS/FreeRTOS/FreeRTOS-Kernel/tasks.c:7713-7760 | In every reachable state a task that waits and is neither ready nor pending has count zero, also between its check and its move to the delayed list |
| Notifications.GivesAreTaken | FreeRTOS-LTS/FreeRTOS/FreeRTOS-Kernel/tasks.c:8256-8300 | The gives of a run equal what successful takes took, one each or what they cleared, plus the present count, modulo 2^32 |
| Notifications.TaskNotification.GiveFromISR | FreeRTOS-LTS/FreeRTOS/FreeRTOS-Kernel/tasks.c:8256-8330 | In place: the count goes up by one in 32 bits, a waiting task becomes ready, or pending under suspension, and the interrupt learns exactly whether a waiting task above the running one was woken |
| Notifications.TaskNotification.CheckAndMark | FreeRTOS-LTS/FreeRTOS/FreeRTOS-Kernel/tasks.c:7725-7741 | In place: the task is marked as waiting exactly when the count is zero |
| Notifications.TaskNotification.FinishTake | FreeRTOS-LTS/FreeRTOS/FreeRTOS-Kernel/tasks.c:7769-7796 | In place: returns the count found and takes all of it or one |
| DmaRings.StepInv | software/vek280_freertos/netif_versal/x_emacpsif_dma.c:141-199 | With the steps of a send, the turns of the transmit check and DMA completions interleaved, a step keeps indexes, semaphore, slots and buffers in agreement if and only if it is not a turn of the check that goes on while no descriptor is in use but that of an unfinished send |
| DmaRings.AgreedIff | software/vek280_freertos/netif_versal/x_emacpsif_dma.c:141-199 | Over a whole run they agree in every state if and only if no turn of the check is such a one |
| DmaRings.RingOwnership | software/vek280_freertos/netif_versal/x_emacpsif_dma.c:253-337 | In every run without premature turns the head is the tail plus the slots in use, which with a started send are those the semaphore does not count; exactly the slots in use hold a buffer; buffers are released in the order accepted, each once |
| DmaRings.TransmittedIff | software/vek280_freertos/netif_versal/x_emacpsif_dma.c:151-176 | Over any run at all: every buffer is released only after the DMA has transmitted it if and only if no turn of the check frees the slot in which a send has put its buffer without having armed the descriptor |
| DmaRings.AgreedTransmits | software/vek280_freertos/netif_versal/x_emacpsif_dma.c:151-176 | In particular, in every run without premature turns every released buffer was transmitted before |
| DmaRings.SteadySuffices | software/vek280_freertos/netif_versal/x_emacpsif_dma.c:146-150 | A condition on reading the semaphore that rules premature turns out: between the two reads, sends have not filled the whole ring but for one that is not finished |
| DmaRings.NoBufferLost | software/vek280_freertos/netif_versal/x_emacpsif_dma.c:253-337 | Every buffer handed in is accepted once or refused once; none is lost or duplicated |
| DmaRings.StaleHead | software/vek280_freertos/netif_versal/x_emacpsif_dma.c:141-156 | On a ring of any size an interleaving from the start, with the head read long before the semaphore, in which the check releases a buffer that was neither transmitted nor accepted |
| DmaRings.FramesHandedUpOnce | software/vek280_freertos/netif_versal/x_emacpsif_dma.c:525-656 | In every run each receive slot holds one distinct buffer, and the accepted frames are handed up once, in order, each in the buffer it was received into |
| DmaRings.TxRing.SendMessage | software/vek280_freertos/netif_versal/x_emacpsif_dma.c:253-337 | In place: a valid buffer is accepted exactly when a descriptor is free, any other refused; the ring invariant holds |
| DmaRings.TxRing.CheckTx | software/vek280_freertos/netif_versal/x_emacpsif_dma.c:141-199 | In place, with its loop: releases the oldest buffers in flight as far as they were transmitted, and no others |
| DmaRings.TxRing.CleanDescriptors | software/vek280_freertos/netif_versal/x_emacpsif_dma.c:670-684 | In place: every descriptor is marked used and every slot emptied, which establishes the ring invariant |
| DmaRings.RxRing.CheckRx | software/vek280_freertos/netif_versal/x_emacpsif_dma.c:504-668 | In place, with its loop: looks at every received frame, hands up those that may be accepted while there are spare buffers, in order, and keeps a distinct buffer in every slot |

## Left out

- The multi-core build, MPU wrappers, co-routines, queue sets, tickless idle and static allocation: not in this configuration.
- Explicit task suspension (`vTaskSuspend`, `vTaskResume`): off in this configuration, so that the longest block time is an ordinary delay.
- Deletion of queues, timers and event groups, deletion of tasks inside the protocol modules, and reset of a live queue: they break wakeup and holder accounting by design. Task deletion is in `Scheduler`, `SchedulerRuns` and `Tasks`.
- Context switching, interrupt masking, memory barriers, the heap, trace and statistics: critical sections are single steps.
- The protocols are modelled one object at a time: one queue, one event group, one stream buffer, one notification index. Which task is highest is an input to them; `SchedulerRuns` has the priorities.
- Linked lists: the classes of `Tasks`, `Timers`, `QueueProtocol` and `Mutexes` hold their lists as sequences; `HeapLists` proves the linked lists to behave like sequences, and `EventGroups.EventGroup` works on them.
- Retry loops of send, receive and take: a pass through the loop is a sequence of steps of the protocol, so a class has the critical sections and not the loop around them.
- QueueRing.QueueStorage.CopyDataToQueue: the count of an overwritten semaphore is not reduced modulo 2^32, which it would reach after 2^32 overwrites without a take.
- QueueRing.QueueStorage.OverwriteFullSemaphore: stated for a queue of length one, the only length that may be overwritten.
- QueueProtocol.NoLostWakeup: at most 127 tasks, beyond which the 8-bit lock counts cannot count, as the kernel asserts.
- QueueProtocol.RunOrdered: the priority when the task blocked, for a task whose event item value is that of its priority; a later priority change rewrites the value and does not sort the list again, which `Mutexes.Step` has for mutexes.
- SchedulerRuns.StepHighest: whether a give is that of the last mutex, and the highest waiting priority of a restore, are inputs, and so cover more runs than mutexes allow; the accounting is in `Mutexes`.
- Timers.CatchUpExact: fewer than 2^32 ticks between samples of the time while a timer is active, the bound of 32-bit time.
- Timers.TimerService.ProcessTimerOrBlockTask: for how long it blocks, not the wait on the command queue itself.
- Timers.TimerService.ProcessReceivedCommand: one command; the loop over the command queue is a sequence of such calls.
- Scheduler.SetPrioritySound: priority changes, creation and deletion are functions on values; `Tasks.KernelState` has the functions with loops and those that block and wake.
- Timeouts.CheckRight: fewer than 2^32 wraps between timestamp and check.
- StreamBuffers.StreamBuffer.constructor: sizes below 2^31 bytes, so that the 32-bit sums of length and index do not wrap.
- StreamBuffers.StreamBuffer.Send: the part after any wait; waiting, trigger levels and notification are in `StreamProtocol`.
- StreamProtocol.RousedIff: a wait ends at any time, by a notification or its timeout; that a notified task runs is left to the scheduler, and the optional completion callbacks and the reset are not modelled.
- Mutexes.HolderNeverBelow: inheritance is not transitive and lasts until the last mutex is given, hence one mutex at a time.
- Mutexes.PriorityInherit: the move of a ready holder between ready lists is `Scheduler.Inherit`, `Scheduler.Disinherit` and `Scheduler.Restore`; the same for the other two methods.
- Mutexes.MutexState.Block: an entry keeps the key it was listed with; `Mutexes.Step` rewrites it when its task's event item value changes.
- Mutexes.StepInv: mutexes taken before the scheduler starts, which have no holder, are not covered.
- Notifications.NoLostNotification: an index used only with give and take, and no blocking call by a task that has the scheduler suspended.
- DmaRings.TransmittedIff: a buffer handed in again counts as another one, so that what is released can be told from what was transmitted earlier.
- DmaRings.RingOwnership: one sender at a time and at least two descriptors; the number of descriptors is set in a configuration file that is not part of this model.
- DmaRings.RxRing.CheckRx: the chain is handed up whole; a full queue of the IP task, which releases it, counts as handed up.
- Re-initialisation of the DMA, cache maintenance, registers, PHY handling and the packet filter's rules: hardware and unseen libraries.

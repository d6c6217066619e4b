# Verified models of the FreeRTOS kernel build and its benchmarks

This project states and proves, in Dafny, how the main algorithms of this repository behave.

**The FreeRTOS V11.1.0 kernel as configured here**: one core, preemption and time slicing, generic
task selection, five priorities, 32-bit ticks, `INCLUDE_vTaskSuspend` 1, no deletion, mutexes, queue
sets or timers. `Lists`, `Kernel` and `Queues` say what each routine of `tasks.c`, `queue.c` and
`list.c` computes on the kernel's data; `Scheduler` is the same code updating its variables in place,
loop by loop, each routine proved to compute that function; `LinkedList` is `list.c` on pointers, and
`QueueStorage` a queue's bytes. `Machine` is the kernel as a state machine: each critical section is
one step, interrupts may come between any two, `portYIELD_WITHIN_API` is an immediate
`vTaskSwitchContext`, and only the running task steps. `Invariant` holds what every step keeps;
`Shape`, `Clock`, `Priority`, `Wakeups`, `Steps`, `Blocking`, `QueueSteps`, `Attempts`, `Setup`, `Boot` and `Runs`
prove it; `Theorems`, `Timeline`, `Ordering`, `Counting` and `Messages` draw the results about whole runs.
`Timeouts`, `Deadlines` and `Punctual` cover time-outs and periodic delays, `Notices` and `Heeding`
notifications; `Examples` has the inputs at which the code falls short.

**CoreMark's list benchmark** (`Merging`, `CoreList`, `BenchList`): the in-place merge sort with its
caching comparator, and the claim that the whole benchmark restores its list.

**The cycle timing model** (`Cache`, `Decode`, `Timing`): the LRU cache against reuse distance, and the
cycle accumulator against the cost of the trace.

**Freestanding arithmetic and scanning** (`Division`, `Printing`, `Scanner`).

Where the code and what it is meant to do part ways, the condition is stated exactly and an input is
given: a reset of a queue in use wakes one sender however many wait (`Setup.ResetSenders`,
`Examples.ResetLosesWakeup`); changing the priority of a waiting task can leave its list out of order
(`Ordering.PriorityKeepsOrder`, `Examples.RaisedTaskPassedOver`); overwriting a full semaphore counts
past its length (`Counting.StepCounts`, `Counting.SemaphoreOverfilled`); a time-out checked more than a
wrap of the tick late can be missed (`Timeouts.TimeOutExactIff`, `Examples.MissedExpiry`); `xPendedTicks`
loses 2^32 ticks when it wraps (`Theorems.TickConservation`, `Examples.PendedTicksLost`); `div_u64_u32` is
wrong for divisors above 2^31 (`Division.DivU64U32ExactIff`, `Division.OverflowLoses`).

Assumptions of the state machine, all of them the kernel's own demands on its callers
(`Machine.Enabled`): no blocking call while the scheduler is suspended, overwriting only queues of
length one, no kernel calls from the idle task, and created tasks and queues only. The machine carries
a queue's count; `Messages` follows its contents through the same runs, and `QueueStorage` shows that the
bytes are those contents. What is sent, interrupts' timing and the kernels inside CoreMark are arbitrary.

## Model

| member | source | states |
|---|---|---|
| Theorems.FromStart | Middleware/FreeRTOS/kernel/tasks.c:3665-3762 | every run from the start of the scheduler, whatever was created before it, keeps the invariant, loses no wake-up (senders: unless the queue is reset) and accounts for every tick |
| Theorems.NoLostWakeup | Middleware/FreeRTOS/kernel/queue.c:939-1154 | in every run, while some task waits on a side of a queue, what is available to that side is at most the woken tasks that have yet to look plus the positive lock count, or the lock count has reached the number of tasks; receivers in all runs, senders in runs that do not reset this queue |
| Theorems.WaitsInVain | Middleware/FreeRTOS/kernel/queue.c:1502-1649 | so in every run, with the queue unlocked and all woken tasks having looked, a waiting receiver means an empty queue, and a waiting sender, unless the run resets the queue, a full one |
| Setup.ResetSenders | Middleware/FreeRTOS/kernel/queue.c:330-345 | after a reset of a queue in use the senders' claim holds if and only if at most one sender was waiting, or the places are no more than the senders already woken plus one |
| Runs.StepKeeps | Middleware/FreeRTOS/kernel/tasks.c:3956-4104 | every step of a task or an interrupt keeps the whole invariant, and loses no wake-up of any queue but for the senders of one that is reset |
| Examples.ResetLosesWakeup | Middleware/FreeRTOS/kernel/queue.c:330-345 | a state of the invariant with two senders on a full queue of two places in which a reset loses a wake-up |
| Boot.StartOk | Middleware/FreeRTOS/kernel/tasks.c:3665-3722 | the state in which the scheduler starts, whatever tasks and queues were created, satisfies the invariant, with no wake-up lost |
| Theorems.LocksFit | Middleware/FreeRTOS/kernel/queue.c:258-300 | in every run, with at most 127 tasks the lock counts stay in int8_t; a side of a queue is locked exactly between prvLockQueue and prvUnlockQueue of the running task |
| Theorems.PrioritySafety | Middleware/FreeRTOS/kernel/tasks.c:177-193 | in every reachable state with no switch under way a yield is pending, or the running task is ready and no ready task has a higher priority |
| Theorems.TaskConservation | Middleware/FreeRTOS/kernel/tasks.c:268-274 | in every reachable state each created task's state item is on exactly one of its priority's ready list, the delayed lists and the suspended list; the list sizes sum to the number of tasks; a waiting task is not ready; the pending ready list is empty when the scheduler is not suspended |
| Theorems.TickConservation | Middleware/FreeRTOS/kernel/tasks.c:4905-4907 | over any run the unbounded clock plus the pended ticks plus 2^32 for each wrap of xPendedTicks grows by exactly the tick interrupts and caught-up ticks |
| Examples.PendedTicksLost | Middleware/FreeRTOS/kernel/tasks.c:4905-4907 | from any state with no ticks pended, suspending the scheduler, catching up 2^32 - 1 ticks and one tick interrupt lose 2^32 ticks |
| Theorems.TimedWake | Middleware/FreeRTOS/kernel/tasks.c:4714-4805 | a task that stays blocked until a deadline is made ready by exactly the step that takes the unbounded clock there, and unless it also awaits an event or notification by none before |
| Theorems.SleepsUntilDue | Middleware/FreeRTOS/kernel/tasks.c:2435-2481 | a task in vTaskDelay or xTaskDelayUntil stays asleep with the same deadline through any run that does not suspend it, until the clock reaches the deadline |
| Theorems.WakesWhenDue | Middleware/FreeRTOS/kernel/tasks.c:4691-4805 | and the next step makes it ready if and only if that step takes the clock to the deadline |
| Ordering.WakeOrder | Middleware/FreeRTOS/kernel/tasks.c:5341-5366 | over runs that change no waiting task's priority, the task a wake-up takes off a queue's list is one of highest priority, and no task of its priority that has waited longer is passed over |
| Ordering.StartInOrder | Middleware/FreeRTOS/kernel/tasks.c:1918-1920 | the scheduler starts with event item values that are the complements of the priorities, and every event list in order |
| Ordering.PriorityKeepsOrder | Middleware/FreeRTOS/kernel/tasks.c:2894-2896 | changing the priority of a waiting task leaves its list in order if and only if the new priority fits between its neighbours' |
| Examples.RaisedTaskPassedOver | Middleware/FreeRTOS/kernel/tasks.c:2894-2896 | two waiters in order, of which the second is raised above the first and still stands behind it |
| Ordering.StepInOrder | Middleware/FreeRTOS/kernel/tasks.c:5243-5266 | every other step keeps every event list in priority order and lets nobody overtake an equal |
| Messages.FirstInFirstOut | Middleware/FreeRTOS/kernel/queue.c:939-1046 | in every run from the start that sends to a queue's back only, what has been received from it followed by what it holds is what was sent, in order; it holds as many messages as it counts |
| Messages.MessageConservation | Middleware/FreeRTOS/kernel/queue.c:2390-2491 | in every run what a queue held and was sent is what was received, what overwriting and resets discarded, and what it still holds, which is as many messages as it counts |
| Counting.StepCountsBy | Middleware/FreeRTOS/kernel/queue.c:2390-2491 | every step keeps each queue's length and item size, and changes its count by exactly the message it puts in, gets out or clears |
| Counting.CountsStayInRange | Middleware/FreeRTOS/kernel/queue.c:2390-2470 | 0 <= uxMessagesWaiting <= uxLength in every run that never overwrites a full queue of items of size zero |
| Counting.StepCounts | Middleware/FreeRTOS/kernel/queue.c:2402-2466 | one step keeps every count within its queue's length if and only if it is not such an overwrite |
| Counting.SemaphoreOverfilled | Middleware/FreeRTOS/kernel/queue.c:2402-2466 | the exception is real: overwriting a given binary semaphore counts to two |
| Clock.TickExact | Middleware/FreeRTOS/kernel/tasks.c:4670-4910 | one tick advances the unbounded clock by one and makes ready exactly the delayed tasks whose deadline it is; all others keep list and deadline |
| Clock.EmptyAtWrap | Middleware/FreeRTOS/kernel/tasks.c:248-260 | when the tick wraps the current delayed list is empty, as the assertion in taskSWITCH_DELAYED_LISTS demands |
| Clock.WakeExpiredExact | Middleware/FreeRTOS/kernel/tasks.c:4714-4805 | the unblocking loop stops at the first task not due and has missed none; xNextTaskUnblockTime is never above an item's wake time afterwards |
| Clock.Advance32Facts | Middleware/FreeRTOS/kernel/tasks.c:4691-4708 | the 32-bit increment, with the list swap on wrap, is one tick of the unbounded clock and changes no deadline |
| Clock.ResetNextFacts | Middleware/FreeRTOS/kernel/tasks.c:6456-6474 | the recomputed xNextTaskUnblockTime is a lower bound on all wake times of the current list |
| Clock.ReplayExact | Middleware/FreeRTOS/kernel/tasks.c:4043-4070 | n deferred ticks make ready exactly the tasks whose deadline falls within them |
| Clock.UnsuspendExact | Middleware/FreeRTOS/kernel/tasks.c:3983-4070 | xTaskResumeAll makes ready exactly the tasks on the pending ready list and those whose deadline has come by the replayed time, and no pended tick is left or lost |
| Clock.DelayCurrentTimed | Middleware/FreeRTOS/kernel/tasks.c:8415-8491 | blocking for n ticks sets the deadline to now + n on the unbounded clock, whichever list it takes, and leaves every other deadline alone |
| Clock.PlaceOnEventListTimed | Middleware/FreeRTOS/kernel/tasks.c:5243-5266 | waiting on an event with a time-out sets the same deadline |
| Timeline.StepTime | Middleware/FreeRTOS/kernel/tasks.c:4670-4910 | every single step keeps all ticks it brings and lets every sleeping task sleep on or wake on time |
| Timeouts.TimeOutExactIff | Middleware/FreeRTOS/kernel/tasks.c:5534-5600 | for every finite wait xTaskCheckForTimeOut reports expiry exactly when the unbounded elapsed time has reached the wait, if and only if it is not in the stated blind spot more than a wrap later |
| Examples.MissedExpiry | Middleware/FreeRTOS/kernel/tasks.c:5561-5600 | a wait of 0x9000_0000 ticks from time 0x8000_0000, checked at 2^33, has expired and is not reported |
| Timeouts.TimeOutExact | Middleware/FreeRTOS/kernel/tasks.c:5534-5600 | within one wrap of the snapshot the report is exact, and a wait that has not expired keeps its absolute deadline |
| Timeouts.DeadlineStable | Middleware/FreeRTOS/kernel/queue.c:1579-1609 | however often a blocked call is woken in vain and checks again, it expires at the first check at or after the deadline fixed on entry, and at no other |
| Timeouts.DelayUntilExact | Middleware/FreeRTOS/kernel/tasks.c:2343-2428 | xTaskDelayUntil blocks exactly if previous wake + increment is in the future, for just the ticks that remain, through any wrap |
| Timeouts.NoDrift | Middleware/FreeRTOS/kernel/tasks.c:2343-2428 | after k calls, whenever made, the stored wake time is the first plus k increments modulo 2^32 |
| Timeouts.DelayUntilWakes | Middleware/FreeRTOS/kernel/tasks.c:8459-8476 | the delayed task's deadline on the unbounded clock is previous wake + increment |
| Deadlines.NeverEarly | Middleware/FreeRTOS/kernel/queue.c:1502-1649 | over any run, a blocking send, receive or peek with a finite wait ends without success only at or after the deadline fixed when it first found nothing |
| Punctual.NeverLate | Middleware/FreeRTOS/kernel/queue.c:1502-1649 | over any run that does not suspend the task: once the deadline has come it is ready, and while its call lasts has taken fewer than thirteen steps of its own since, so the call neither blocks again nor goes on |
| Punctual.StepCloser | Middleware/FreeRTOS/kernel/queue.c:1579-1649 | from the deadline on each of the call's own steps, with the check among them, brings it closer to its end, and nothing takes it further away |
| Punctual.StepPrompt | Middleware/FreeRTOS/kernel/queue.c:1601-1609 | every step keeps the calling task ready, or asleep until exactly its deadline |
| Punctual.StartsPrompt | Middleware/FreeRTOS/kernel/queue.c:1579-1585 | a task whose call has just fixed its deadline is ready |
| Deadlines.StepPatient | Middleware/FreeRTOS/kernel/queue.c:1579-1649 | every step of the task, of other tasks and of interrupts keeps that deadline, unless the call succeeds or the deadline has come |
| Deadlines.SleepsUntilDeadline | Middleware/FreeRTOS/kernel/queue.c:1601-1609 | whenever the call blocks, the task is put to sleep until that very deadline |
| Deadlines.FixesDeadline | Middleware/FreeRTOS/kernel/queue.c:1579-1585 | the deadline is the time of the first failed attempt plus the wait |
| Priority.RoundRobin | Middleware/FreeRTOS/kernel/tasks.c:177-193 | n switches in a row run each of the n ready tasks of the highest ready priority once, in rotation order |
| CoreSteps.ResumeFromISRReadies | Middleware/FreeRTOS/kernel/tasks.c:3414-3506 | xTaskResumeFromISR readies a suspended task, or while the scheduler is suspended sends it to the pending ready list, and changes nothing otherwise; it leaves a yield pending when the task outranks the running one |
| CoreSteps.ResumeTaskReadies | Middleware/FreeRTOS/kernel/tasks.c:3353-3402 | vTaskResume readies a suspended task and changes nothing otherwise |
| Priority.SwitchSettles | Middleware/FreeRTOS/kernel/tasks.c:5056-5139 | vTaskSwitchContext runs a ready task of the highest ready priority, or with the scheduler suspended leaves the yield pending |
| Priority.TickHigh | Middleware/FreeRTOS/kernel/tasks.c:4787-4819 | xTaskIncrementTick asks for a switch whenever a task it readied is above the running one |
| Priority.ResumeAllHigh | Middleware/FreeRTOS/kernel/tasks.c:3956-4104 | xTaskResumeAll leaves the running task the best there is or a yield pending, and has really switched when it says so |
| Priority.PrioritySetHigh | Middleware/FreeRTOS/kernel/tasks.c:2808-2946 | vTaskPrioritySet switches, or leaves a yield pending, whenever the change puts a ready task above the running one |
| Priority.YieldToHigh | Middleware/FreeRTOS/kernel/tasks.c:3391-3395 | readying a task and yielding to it leaves nobody ready above the running task, or a yield pending |
| Shape.SwitchContextFacts | Middleware/FreeRTOS/kernel/tasks.c:5056-5139 | a context switch moves no item |
| Shape.RemoveFromEventListFacts | Middleware/FreeRTOS/kernel/tasks.c:5341-5410 | xTaskRemoveFromEventList moves the head's event item off, and its state item to the ready list of its priority, or with the scheduler suspended its event item to the pending ready list; nothing else moves |
| Shape.DelayCurrentFacts | Middleware/FreeRTOS/kernel/tasks.c:8415-8491 | prvAddCurrentTaskToDelayedList moves only the running task's state item, to the list that the wake time calls for |
| Shape.PlaceOnEventListShaped | Middleware/FreeRTOS/kernel/tasks.c:5243-5266 | vTaskPlaceOnEventList keeps every task where it belongs and moves both items of the running task |
| Shape.SuspendTaskFacts | Middleware/FreeRTOS/kernel/tasks.c:3121-3156 | vTaskSuspend moves the task to the suspended list and off any event list |
| Shape.CreateTaskShaped | Middleware/FreeRTOS/kernel/tasks.c:2019-2093 | a new task is on the ready list of its priority and nothing else has moved |
| Shape.PriorityChangeShaped | Middleware/FreeRTOS/kernel/tasks.c:2876-2925 | a changed priority moves the task to the new ready list if it was ready and otherwise moves nothing |
| Clock.DrainExact | Middleware/FreeRTOS/kernel/tasks.c:3990-4029 | draining empties the pending ready list onto the ready lists and moves nobody else |
| Heeding.NoNoticeMissed | Middleware/FreeRTOS/kernel/tasks.c:7614-7822 | in every run that does not suspend it, a task blocked in ulTaskNotifyTake or xTaskNotifyWait and not ready still awaits its notification or is on the pending ready list; once the notification is received it is ready, or on that list with the scheduler suspended |
| Heeding.StepAttended | Middleware/FreeRTOS/kernel/tasks.c:7630-7690 | every step but its suspension keeps this, also between the mark and the block, where an interrupt may notify |
| Notices.NotifyDelivers | Middleware/FreeRTOS/kernel/tasks.c:7832-7950 | xTaskGenericNotify updates the task's value by its action, marks it received and, if the task awaits it, makes it ready |
| Notices.NotifyFromISRDelivers | Middleware/FreeRTOS/kernel/tasks.c:7952-8116 | the interrupt variant, with the pending ready list while the scheduler is suspended |
| Notices.GiveThenTake | Middleware/FreeRTOS/kernel/tasks.c:7614-7712 | a notification given to any task and consumed at the end of its wait leaves the count as it was, if and only if giving did not wrap it |
| Wakeups.IsrServes | Middleware/FreeRTOS/kernel/queue.c:1157-1326 | a send or receive from an interrupt wakes a waiter or counts it on the lock, so the side that gained stays covered |
| Wakeups.WakeManyLeft | Middleware/FreeRTOS/kernel/queue.c:2494-2611 | the unlock loop wakes as many waiters as the lock counted, or all there are |
| QueueSteps.UnlockServes | Middleware/FreeRTOS/kernel/queue.c:2494-2611 | giving up a lock turns its counted wake-ups into woken tasks, also when the count had reached the cap |
| QueueSteps.TestStep | Middleware/FreeRTOS/kernel/queue.c:2614-2677 | testing for empty or full under the lock before blocking keeps the invariant and loses no wake-up |
| QueueSteps.PlaceStep | Middleware/FreeRTOS/kernel/queue.c:1579-1609 | so does joining the event list after the test |
| Attempts.HeadStep | Middleware/FreeRTOS/kernel/queue.c:1520-1577 | so does the critical section at the head of every send, receive and peek, whether it succeeds or goes on to block |
| LinkedList.List.constructor | Middleware/FreeRTOS/kernel/list.c:49-86 | vListInitialise makes an empty well-linked circle |
| LinkedList.List.InsertEnd | Middleware/FreeRTOS/kernel/list.c:105-136 | vListInsertEnd refines insertion just before the cursor; links, containers and count stay consistent |
| LinkedList.List.Insert | Middleware/FreeRTOS/kernel/list.c:139-211 | vListInsert terminates and inserts behind the leading items of no greater value |
| Rings.InsertStable | Middleware/FreeRTOS/kernel/list.c:139-211 | that keeps an ascending list ascending and is stable, also for portMAX_DELAY |
| LinkedList.List.Remove | Middleware/FreeRTOS/kernel/list.c:215-245 | uxListRemove refines removal, also of the item under the cursor, and returns the remaining count |
| LinkedList.List.NextEntry | Middleware/FreeRTOS/kernel/include/list.h:286-300 | listGET_OWNER_OF_NEXT_ENTRY refines the cursor's advance past the end marker |
| LinkedList.SplicedIn | Middleware/FreeRTOS/kernel/list.c:199-203 | the four link assignments of an insertion make a circle again |
| LinkedList.SplicedOut | Middleware/FreeRTOS/kernel/list.c:223-224 | the two link assignments of a removal make a circle again |
| Rings.InsertEndRotation | Middleware/FreeRTOS/kernel/list.c:105-136 | a new item is served after every item except the one at the cursor |
| Rings.RemoveRotation | Middleware/FreeRTOS/kernel/list.c:215-245 | removal leaves the upcoming service order of the others unchanged |
| Rings.AdvanceVisits | Middleware/FreeRTOS/kernel/tasks.c:182-192 | n next-entry calls on n items visit each once and bring the order back |
| Lists.AddSortedOrder | Middleware/FreeRTOS/kernel/list.c:139-211 | a sorted insertion comes after exactly the values at most its own, and changes no other order |
| Scheduling.Scheduler.UnblockExpired | Middleware/FreeRTOS/kernel/tasks.c:4714-4805 | the unblocking loop of the tick routine, in place, ends where the recursive unblocking does |
| Scheduling.Scheduler.ResumeAll | Middleware/FreeRTOS/kernel/tasks.c:3956-4104 | the draining and replaying loops, in place, and whether the call has yielded |
| Scheduling.Scheduler.SelectHighestPriorityTask | Middleware/FreeRTOS/kernel/tasks.c:177-193 | the downward search for a non-empty ready list ends at the highest |
| Scheduling.Scheduler.UnlockSide | Middleware/FreeRTOS/kernel/queue.c:2494-2611 | one half of prvUnlockQueue with its loop |
| Scheduling.Scheduler.IncrementTick | Middleware/FreeRTOS/kernel/tasks.c:4670-4910 | the whole tick routine, in place, computes the tick that the clock results are about |
| Scheduling.Scheduler.SwitchContext | Middleware/FreeRTOS/kernel/tasks.c:5056-5139 | the switch, in place |
| Scheduling.Scheduler.RemoveFromEventList | Middleware/FreeRTOS/kernel/tasks.c:5341-5410 | waking, in place, and whether a yield is due |
| Scheduling.Scheduler.AddCurrentTaskToDelayedList | Middleware/FreeRTOS/kernel/tasks.c:8415-8491 | blocking, in place |
| Scheduling.Scheduler.TrySend | Middleware/FreeRTOS/kernel/queue.c:970-1046 | the non-blocking part of xQueueGenericSend, and whether there was room |
| Scheduling.Scheduler.TryReceive | Middleware/FreeRTOS/kernel/queue.c:1526-1565 | the non-blocking part of xQueueReceive, and whether there was an item |
| Scheduling.Scheduler.SendFromISR | Middleware/FreeRTOS/kernel/queue.c:1157-1326 | the interrupt send, whether it had room, waking or counting on the lock |
| Scheduling.Scheduler.ReceiveFromISR | Middleware/FreeRTOS/kernel/queue.c:2035-2132 | the interrupt receive |
| Scheduling.Scheduler.PrioritySet | Middleware/FreeRTOS/kernel/tasks.c:2765-2946 | the priority change and its yield, in place |
| Scheduling.Scheduler.ResumeTask | Middleware/FreeRTOS/kernel/tasks.c:3353-3402 | vTaskResume, in place |
| Scheduling.Scheduler.DelayUntil | Middleware/FreeRTOS/kernel/tasks.c:2343-2410 | the periodic delay's decision, new wake time and block |
| Scheduling.Scheduler.CheckForTimeOut | Middleware/FreeRTOS/kernel/tasks.c:5534-5600 | the time-out check with its two updated arguments |
| Scheduling.Scheduler.SuspendTask | Middleware/FreeRTOS/kernel/tasks.c:3121-3173 | the first critical section of vTaskSuspend, in place |
| Scheduling.Scheduler.LockQueue | Middleware/FreeRTOS/kernel/queue.c:258-270 | prvLockQueue |
| QueueStorage.Storage.CopyIn | Middleware/FreeRTOS/kernel/queue.c:2390-2470 | prvCopyDataToQueue appends, prepends or, with one place, replaces; the ring invariant (write place one ahead of the messages, which are ahead of the read place) is kept |
| QueueStorage.Storage.CopyOut | Middleware/FreeRTOS/kernel/queue.c:2473-2491 | receiving removes and returns the head |
| QueueStorage.Storage.Peek | Middleware/FreeRTOS/kernel/queue.c:1912-1921 | peeking returns the head and changes nothing |
| QueueStorage.Storage.Reset | Middleware/FreeRTOS/kernel/queue.c:320-325 | a reset queue is empty |
| QueueStorage.Storage.TrySend | Middleware/FreeRTOS/kernel/queue.c:939-1046 | sending fails exactly on a full queue that is not overwritten, and then changes nothing |
| QueueStorage.Storage.TryReceive | Middleware/FreeRTOS/kernel/queue.c:1502-1565 | receiving fails exactly on an empty queue, and then changes nothing |
| QueueStorage.PlaceApart | Middleware/FreeRTOS/kernel/queue.c:2427-2445 | writing one place leaves the bytes of every other alone |
| BenchList.CoreBenchList | Middleware/benchmark/coremark/core_list_join.c:158-235 | the whole benchmark gives its list back: same nodes, same order, same data records with their contents restored, for any number of searches and whatever the kernels compute |
| BenchList.MergeSort | Middleware/benchmark/coremark/core_list_join.c:499-595 | terminates on every non-empty list of up to 2^31 - 1 nodes with no 32-bit counter overflowing, and returns the same nodes, NULL-terminated, in order of the keys they end up with, equal keys in their old order; two nodes or more have all been compared |
| CoreList.Pass | Middleware/benchmark/coremark/core_list_join.c:505-585 | one pass merges blocks of insize pairwise into blocks of twice the size; a single merge means the list was one block |
| CoreList.Merge | Middleware/benchmark/coremark/core_list_join.c:535-577 | one in-place merge of two runs while the comparator overwrites data |
| CoreList.Compare | Middleware/benchmark/coremark/core_list_join.c:120-142 | both comparators return the order of the keys they leave behind, leave both data seen to, change none that was, and keep indices and backups |
| CoreList.CalcFunc | Middleware/benchmark/coremark/core_list_join.c:69-113 | a cached value is returned unchanged; a computed one is cached with the backup kept |
| Merging.TakeFirst | Middleware/benchmark/coremark/core_list_join.c:551-560 | taking the first run's head when it is no greater keeps the merge sorted and stable |
| Merging.TakeSecond | Middleware/benchmark/coremark/core_list_join.c:561-567 | taking the second run's head when it is less does too |
| Merging.BlocksPush | Middleware/benchmark/coremark/core_list_join.c:579-581 | merged pairs are sorted blocks of twice the width |
| Merging.OneBlock | Middleware/benchmark/coremark/core_list_join.c:585-590 | one block that holds everything is the sorted list |
| BenchList.Find | Middleware/benchmark/coremark/core_list_join.c:434-450 | the first matching node or NULL |
| BenchList.Reverse | Middleware/benchmark/coremark/core_list_join.c:464-476 | the nodes in reverse order, in place |
| BenchList.Remove | Middleware/benchmark/coremark/core_list_join.c:376-391 | the successor leaves the list and the two data records are swapped |
| BenchList.UndoRemove | Middleware/benchmark/coremark/core_list_join.c:407-419 | the removed node comes back behind the modified one and the records are swapped back |
| BenchList.UndoRestores | Middleware/benchmark/coremark/core_list_join.c:376-419 | undoing a removal restores the order of the nodes |
| BenchList.FindRounds | Middleware/benchmark/coremark/core_list_join.c:170-200 | any number of find, reverse and splice rounds keeps the same nodes linked and touches no data |
| BenchList.Splice | Middleware/benchmark/coremark/core_list_join.c:189-196 | moving a found node's successor behind the head keeps the list well formed |
| BenchList.SortedSame | Middleware/benchmark/coremark/core_list_join.c:226-227 | a rearrangement in order of distinct keys is the only one |
| Cache.DataCache.Access | vp/spike/timing_model.h:317-331 | a hit exactly when the textbook definition says so: the line was used before and fewer than WAYS distinct other lines of its set since |
| Cache.HoldsIffReused | vp/spike/timing_model.h:304-331 | holding a line and having reused it within the reach of the set are the same |
| Cache.RowAfter | vp/spike/timing_model.h:322-330 | touching or filling the chosen way keeps tags and ages distinct and equal to times of last use, and whatever is evicted behind a full set |
| Cache.AgesDiffer | vp/spike/timing_model.h:307-311 | valid ways of a set have distinct tags and distinct ages |
| Cache.DataCache.Victim | vp/spike/timing_model.h:324-328 | the first free way, or one of the lowest age |
| Cache.DataCache.Reset | vp/spike/timing_model.h:332 | every line is forgotten |
| Timing.TimingModel.Account | vp/spike/timing_model.h:415-426 | the cycles charged are the event's cost after the trace so far; totals, statistics, cache and previous-instruction state stay functions of the trace |
| Timing.TimingModel.AccountTrap | vp/spike/timing_model.h:436-440 | a trap costs its penalty and breaks the link to the previous instruction |
| Timing.TimingModel.CostOf | vp/spike/timing_model.h:382-412 | the cost of one instruction and the statistics it counts |
| Timing.TimingModel.MemCost | vp/spike/timing_model.h:354-366 | region latency, or for DRAM hit or miss by reuse |
| Timing.TimingModel.Reset | vp/spike/timing_model.h:443-447 | as if nothing had been accounted for |
| Timing.Decomposition | vp/spike/timing_model.h:338-447 | the total is each counted penalty times its statistic plus the remaining class and region costs |
| Timing.DefaultsFit | vp/spike/timing_model.h:273-302 | with the calibrated parameters no instruction's cost overflows 32 bits |
| Decode.ClassesApart | vp/spike/timing_model.h:84-129 | no instruction is in two classes of the cost table |
| Decode.MemRefExact | vp/spike/timing_model.h:207-245 | an address can be formed for exactly the loads, stores and atomics, from a register the instruction reads |
| Division.BenchDiv64 | Middleware/benchmark/common/bench_ca.h:53-64 | n == q * d + rem with rem < d for every 64-bit n and every d > 0; zero for d == 0 |
| Division.Div64Exact | Middleware/benchmark/common/bench_ca.h:53-64 | the shifted remainder never overflows 64 bits, for any divisor |
| Division.DivU64U32ExactIff | Middleware/benchmark/common/bench_stdio.c:50-63 | the 32-bit remainder is exact for every n if and only if d <= 2^31 |
| Division.OverflowLoses | Middleware/benchmark/common/bench_stdio.c:50-63 | 2^32 is divided wrongly by every larger d |
| Division.DivU64U32 | Middleware/benchmark/common/bench_stdio.c:50-63 | the loop computes those rounds, and for d <= 2^31 the exact quotient and remainder |
| Division.BenchFixDiv | Middleware/benchmark/common/bench_ca.h:69-73 | bench_fixdiv, through bench_div64's loop, is exact if and only if neither product nor quotient overflows; zero for d == 0 |
| Printing.UtoaBuf | Middleware/benchmark/common/bench_stdio.c:65-88 | either division path writes the number's numeral and nothing else, at most 22 characters |
| Printing.NumeralReadsBack | Middleware/benchmark/common/bench_stdio.c:65-88 | the numeral reads back to the number and is canonical |
| Printing.NumeralUnique | Middleware/benchmark/common/bench_stdio.c:65-88 | no other canonical string does |
| Printing.NumeralLength | Middleware/benchmark/common/bench_stdio.c:71-84 | a number of 3k bits has at most k digits in bases from 8 to 16 |
| Scanner.TransitionMeans | Middleware/benchmark/coremark/core_state.c:216-330 | INT, FLOAT, SCIENTIFIC exactly for tokens in their languages, START exactly for an empty token, INVALID exactly at the first byte that no numeral can contain there, and where the pointer ends up |
| Scanner.Progress | Middleware/benchmark/coremark/core_state.c:216-330 | at least one byte is consumed and the NUL is never passed |
| Scanner.InvalidIffNotViable | Middleware/benchmark/coremark/core_state.c:227-325 | a prefix is rejected exactly if no numeral starts with it |
| Scanner.RunMeans | Middleware/benchmark/coremark/core_state.c:227-325 | in each state the scanner has read exactly what that state stands for |
| Scanner.Transition | Middleware/benchmark/coremark/core_state.c:216-330 | the pointer loop computes that scan, and transition_count gains what its rounds count |
| Scanner.TokensPartition | Middleware/benchmark/coremark/core_state.c:65-75 | the slices of successive calls partition the text and none is empty |
| Scanner.CountTokens | Middleware/benchmark/coremark/core_state.c:65-75 | the token loop terminates and final_counts gains the tokens of each kind |

## Left out

- Everything the configuration compiles out: SMP, mutexes and priority inheritance, queue sets, co-routines, timers, tickless idle, task deletion, abort-delay, trace and run-time statistics.
- Stacks, heap allocation, task names, the port's assembly and the failing branch of configASSERT: hardware or port code.
- `xQueuePeekFromISR`, `xTaskNotifyStateClear`, `ulTaskNotifyValueClear` and the getters: they move no item and change no queue, and of a notification at most the received mark or the value.
- Kernel calls of tasks before the scheduler starts, other than creating tasks and queues.
- `uxSchedulerSuspended` and `uxCurrentNumberOfTasks` are unbounded in the model; `xNumOfOverflows` is kept unbounded and truncated to 32 bits where it is read.
- The kernel functions and the class Scheduler treat all lists together as one value; the pointers themselves are the subject of LinkedList, which refines the same rings.
- Scheduling.Scheduler.ResumeAll: takes a ready task as ghost evidence that there is something to switch to, which the invariant supplies with the idle task.
- Timing.TimingModel.Account: states the cost for fewer than 2^32 DRAM accesses since reset, as the 32-bit age counter is meant for; phase 1 of the timing model and its flat cost table are not modelled.
- CoreList.CalcFunc: the state, matrix and CRC kernels are arbitrary results and touch no list memory.
- `core_list_init` and `core_list_insert_new`: building the list; the benchmark's result is stated for every list of the kind they build.
- `core_bench_state`'s corruption of its buffer and `core_init_state`: only the scanner and its token loop are modelled.
- vprintf's format parsing and output buffer, the `bench_ca` report and the Dhrystone and matrix code: straight-line or device code.
- The simulator front ends (gdb_rsp.h, verif_spike.h, elf_tohost.h and the drivers), HTIF, UART, CSR and MMIO headers: sockets, files and device access.

# Verified model of the kernel and the Ethernet driver

The project models the FreeRTOS V11.1.0 kernel that the health-check firmware is
built on, in the single-core configuration of `Core/Inc/FreeRTOSConfig.h` (five
priorities, 32-bit ticks, preemption and time slicing, port-optimised task
selection, mutexes), and the firmware's own Ethernet descriptor rings.

An atomic step is one critical section, or the part of a suspended-scheduler region
between two interrupts; single loads and stores for stream buffers. State machines
range over every interleaving of task and interrupt steps. Code that works in place
is also a class whose methods and loops are proved to take the steps of those machines.

| file | content |
|---|---|
| `Rings.dfy`, `IntrusiveList.dfy`, `ListBanks.dfy` | list.c: sequences with a rotating index, the linked lists on the heap that refine them, and several such lists with one item for each task |
| `Basics.dfy`, `Ticks.dfy`, `Arithmetic.dfy` | shared types; 32-bit ticks and unbounded time; multiples and remainders |
| `Scheduler.dfy`, `SchedulerSafety.dfy`, `SchedulerRuns.dfy`, `KernelStart.dfy` | tasks.c as a state machine, its invariant, its runs, and the state after any tasks have been created |
| `TimeSlices.dfy`, `ReadyOrder.dfy` | who is switched in, over any number of switches; in what order tasks that become ready get their turn |
| `WakeTimes.dfy`, `EventItems.dfy`, `StoredBits.dfy` | exact wake times and tick conservation; what steps do to event list items and to bits stored in them |
| `ReadyBitmap.dfy`, `TaskKernel.dfy` | the ready bitmap, and tasks.c updating its variables and linked lists in place |
| `Notifications.dfy`, `NotificationWaits.dfy`, `NotificationFlags.dfy`, `WordBits.dfy` | task notifications as tokens, as a mailbox and as flags; single bits of a 32-bit word |
| `Timeouts.dfy`, `PeriodicDelays.dfy` | timeouts; periodic delays over runs of the kernel |
| `QueueSides.dfy`, `QueueProtocol.dfy`, `QueueOrder.dfy`, `QueueTimeouts.dfy` | the lock-count protocol of queue.c for receivers and for senders; whom it wakes; the same with a clock and the timeout state of every call |
| `QueueStorage.dfy`, `QueueObject.dfy`, `QueueClients.dfy` | the byte ring of queue.c, the queue object in place, and a use of it |
| `Mutexes.dfy`, `MutexBooks.dfy`, `MutexInversion.dfy` | priority inheritance: bookkeeping over all runs, bounded inversion over disciplined ones |
| `RecursiveMutexes.dfy`, `MutexLoans.dfy` | takes and gives of recursive mutexes over all runs; priorities lent and given back |
| `MutexTimeouts.dfy`, `NestedMutexes.dfy` | what scheduled runs with one mutex at a time keep, and a run with nested mutexes |
| `KernelMutexes.dfy`, `StaleBits.dfy`, `NestedKernel.dfy` | mutexes and scheduler as one machine: when lowering a holder after a time-out is safe for the ready bitmap, and a run of the kernel after which it is not |
| `Timers.dfy`, `TimerAccounts.dfy` | the timer daemon's lists, and the account of due times and callbacks they keep |
| `StreamProtocol.dfy`, `StreamCalls.dfy`, `StreamObject.dfy` | stream and message buffers, at load and store granularity, what they accept of what is offered, and in place |
| `EventGroups.dfy`, `GroupFlags.dfy`, `EventGroupObject.dfy`, `GroupRuns.dfy` | event groups, as runs, bit by bit, in place, and over runs of the kernel whose items hold the bits |
| `EthernetRings.dfy`, `EthernetProtocol.dfy`, `EthernetObject.dfy` | the descriptor rings, CPU and DMA steps on them, the driver and its receive loop |

Statements about the source that turned out to hold only under a condition:

- `vTaskPriorityDisinheritAfterTimeout` resets the ready bit of the priority it has just
  assigned. The bitmap stays right if and only if the holder is not ready, keeps its
  priority, or leaves another task in its old ready list
  (`SchedulerSafety.DisinheritAfterTimeoutKeepsIff`). It always does when no task waits for
  a mutex while it holds one (`StaleBits.TimeoutKeepsBits`, over runs of the kernel from its
  start); with nested mutexes a run in which only most urgent tasks act breaks it
  (`NestedKernel.StaleBit`). Runs of the scheduler alone contain that step only under the
  condition; runs of the scheduler with its mutexes contain it without.
- `list.h` says an end-inserted item is the last to be returned; that holds if and only if
  the index rests on the end marker or on an owner equal to the new one
  (`Rings.InsertEndIsLastIff`, `InsertEndNotLast`).
- `xQueueGenericReset` frees every slot and wakes one sender, so a second sender may go on
  waiting for a free slot: exactly when two or more wait and the length exceeds the woken
  senders by more than one (`QueueProtocol.NextKeeps`, `ResetLosesSender`).
- An overwrite of a full queue whose items have size zero counts one item too many
  (`QueueObject.Queue.CopyTo` states the condition both ways, `OverwriteTwice` shows it).
- `xTaskCheckForTimeOut` misses an expiry exactly when a whole turn of the tick count has
  passed and does not show (`Timeouts.ExpiresExactly`, `HiddenTurn`).
- The counter of ticks held back under suspension loses 2^32 ticks when it wraps
  (`WakeTimes.TicksConserved` accounts for it, `PendedTicksLost` shows it).

## Model

| member | source | states |
|---|---|---|
| Rings.VisitsFollowOrder | FreeRTOS-Kernel/include/list.h:286-300 | n next-entry steps return the first n members of the visiting order |
| Rings.EachMemberOnce | FreeRTOS-Kernel/tasks.c:189-191 | as many next-entry steps as members return each member as often as it is listed: round robin is fair |
| Rings.InsertEndOrder | FreeRTOS-Kernel/list.c:105-136 | an end-inserted item is visited after every other member except the one the index rests on |
| Rings.InsertEndIsLastIff | FreeRTOS-Kernel/include/list.h:362-384 | when exactly the end-inserted item is the last to be visited |
| Rings.InsertEndNotLast | FreeRTOS-Kernel/include/list.h:362-384 | a concrete ring in which the end-inserted item is returned before the member the index rests on |
| Rings.RemoveKeepsOrder | FreeRTOS-Kernel/list.c:215-245 | removing a member, also the one the index rests on, keeps the visiting order of the rest |
| Rings.InsertSortedStable | FreeRTOS-Kernel/list.c:139-211 | sorted insertion lands after every smaller or equal value and before every larger one, and keeps the list sorted |
| IntrusiveList.List.constructor | FreeRTOS-Kernel/list.c:49-86 | an initialised list is a valid empty ring whose end marker holds the maximum value |
| IntrusiveList.List.InsertEnd | FreeRTOS-Kernel/list.c:105-136 | the pointer surgery inserts just before the index in the abstract ring and keeps all links, container and count right |
| IntrusiveList.List.Search | FreeRTOS-Kernel/list.c:155-199 | the search loop ends at the last node whose value does not exceed the new one, also for values equal to the end marker's |
| IntrusiveList.List.Insert | FreeRTOS-Kernel/list.c:139-211 | the search and the pointer writes together equal the sorted insertion of the abstract list, so a sorted list stays sorted and equal values keep their order of arrival |
| IntrusiveList.Remove | FreeRTOS-Kernel/list.c:215-245 | unlinking removes the item from the ring, steps an index that rests on it back, and returns the number left |
| IntrusiveList.List.Next | FreeRTOS-Kernel/include/list.h:286-300 | the index moves to the next member, skipping the end marker |
| ListBanks.ListBank.constructor | FreeRTOS-Kernel/tasks.c:6011-6040 | all lists valid and empty, an unlinked item with the given value for each task, and no memory shared |
| ListBanks.ListBank.Append | FreeRTOS-Kernel/list.c:105-136 | among many lists linked through one item per task, the end insertion changes its own list as the ring function says and no other list or value; every task stays on at most one list |
| ListBanks.ListBank.Insert | FreeRTOS-Kernel/list.c:139-211 | the same for sorted insertion |
| ListBanks.ListBank.Remove | FreeRTOS-Kernel/list.c:215-245 | the same for removal: the item is found through its container pointer and leaves exactly the list that holds it |
| ListBanks.ListBank.Advance | FreeRTOS-Kernel/include/list.h:286-300 | the same for the next-entry step, which returns the owner of the entry |
| SchedulerSafety.MoveToReadyKeeps | FreeRTOS-Kernel/tasks.c:268-274 | moving a task to its ready list keeps partition, timing, event items and bitmap |
| SchedulerSafety.UnblockDueKeeps | FreeRTOS-Kernel/tasks.c:4716-4805 | the unblocking loop keeps the invariant and leaves only wake times above the tick count |
| SchedulerSafety.EmptyAtSwitch | FreeRTOS-Kernel/tasks.c:248-260 | when the tick count wraps the current delayed list is empty, so the assertion of the list switch holds |
| SchedulerSafety.SwitchListsKeeps | FreeRTOS-Kernel/tasks.c:248-260 | exchanging the delayed lists keeps the invariant for the new epoch |
| SchedulerSafety.ResetNextKeeps | FreeRTOS-Kernel/tasks.c:6456-6474 | the recomputed next unblock time does not exceed any wake time in the current list |
| SchedulerSafety.AdvanceTickKeeps | FreeRTOS-Kernel/tasks.c:4691-4805 | a counted tick keeps the invariant at the new tick count |
| SchedulerSafety.DrainPendingKeeps | FreeRTOS-Kernel/tasks.c:3984-4032 | draining the pending ready list keeps the invariant and touches nothing else |
| SchedulerSafety.ResumeAllKeeps | FreeRTOS-Kernel/tasks.c:3956-4110 | resuming keeps the invariant; at depth zero nothing is pending or pended |
| SchedulerSafety.BlockCurrentKeeps | FreeRTOS-Kernel/tasks.c:8415-8531 | the current task moves from its ready list to exactly one delayed list, in order, with bitmap and next unblock time updated |
| SchedulerSafety.PlaceOnEventListKeeps | FreeRTOS-Kernel/tasks.c:5243-5299 | placing the current task on an event list keeps the invariant |
| SchedulerSafety.RemoveFromEventListKeeps | FreeRTOS-Kernel/tasks.c:5341-5400 | unblocking from an event list, directly or through the pending ready list, keeps the invariant |
| SchedulerSafety.RemoveFromUnorderedKeeps | FreeRTOS-Kernel/tasks.c:5434-5475 | the same for a waiter of an event group |
| SchedulerSafety.PriorityInheritKeeps | FreeRTOS-Kernel/tasks.c:6580-6675 | inheriting moves a ready holder between ready lists and keeps the bitmap right |
| SchedulerSafety.PriorityDisinheritKeeps | FreeRTOS-Kernel/tasks.c:6683-6769 | disinheriting on give keeps the invariant |
| SchedulerSafety.DisinheritAfterTimeoutKeepsIff | FreeRTOS-Kernel/tasks.c:6777-6890 | disinheriting after a time-out keeps the invariant if and only if the holder is not ready, keeps its priority, or leaves another task in its old list |
| SchedulerSafety.SwitchedInIsMostUrgent | FreeRTOS-Kernel/tasks.c:5056-5139 | the task switched in is ready and no ready task is more urgent |
| TimeSlices.SwitchTakesNext | FreeRTOS-Kernel/tasks.c:219-227 | the task switched in is the next of the topmost list in the order of turns, and then the last; no other list is touched |
| TimeSlices.RoundRobin | FreeRTOS-Kernel/tasks.c:219-227 | over any run in which only switches change the topmost list, the i-th switch brings in member i modulo the number of members of the order of turns |
| TimeSlices.EachTaskOnce | FreeRTOS-Kernel/tasks.c:189-191 | over as many switches as members each member is switched in exactly once |
| ReadyOrder.MovedJoins | FreeRTOS-Kernel/tasks.c:268-274 | a blocked task that becomes ready joins the list of its priority at its end and no other list changes |
| ReadyOrder.DueJoinInOrder | FreeRTOS-Kernel/tasks.c:4716-4805 | the tasks due at a tick get their turns behind all others but the one whose turn it is, in the order of the delayed list |
| ReadyOrder.OthersSleepOn | FreeRTOS-Kernel/tasks.c:4718-4750 | the tasks not yet due stay in their order and the next unblock time is the first of theirs |
| ReadyOrder.PendingJoinInOrder | FreeRTOS-Kernel/tasks.c:3984-4032 | blocked tasks held back under suspension join in the order in which their events came |
| ReadyOrder.ResetNextExact | FreeRTOS-Kernel/tasks.c:6456-6474 | the recomputed next unblock time is the least wake time of the current list, or the largest value if it is empty |
| SchedulerRuns.StepKeeps | FreeRTOS-Kernel/tasks.c:3811-4110 | every task and interrupt step keeps the invariant: each task in exactly one state list, ready tasks in the list of their effective priority, event items in at most one list, pending tasks only under suspension |
| SchedulerRuns.Run | FreeRTOS-Kernel/tasks.c:3811-4110 | every state a run reaches satisfies that invariant |
| KernelStart.InitialHolds | FreeRTOS-Kernel/tasks.c:2019-2093 | creating any tasks one by one and starting the scheduler yields a state with that invariant: all tasks ready, the most urgent one running, nothing blocked or pending |
| KernelStart.StartsInOrder | FreeRTOS-Kernel/tasks.c:2045-2080 | after any creations every ready list holds its tasks in the order of creation, and the last created of the most urgent tasks is the one to run |
| WakeTimes.AdvanceTickEffect | FreeRTOS-Kernel/tasks.c:4691-4805 | one tick moves unbounded time by one and unblocks exactly the tasks due at the new time, across the wrap |
| WakeTimes.ResumeAllEffect | FreeRTOS-Kernel/tasks.c:3956-4091 | the outermost resume moves time by the ticks held back, frees the pending tasks, and leaves blocked exactly those due later |
| WakeTimes.WaitRun | FreeRTOS-Kernel/tasks.c:4691-4805 | over any run in which no event frees it while it is blocked a task is blocked exactly until its wake time |
| WakeTimes.BlockDue | FreeRTOS-Kernel/tasks.c:8459-8489 | blocking for n ticks at unbounded time T sets the wake time to T + n whichever list is used |
| WakeTimes.ExactWake | FreeRTOS-Kernel/tasks.c:8415-8531 | a task that blocks for n ticks at T, and is not freed by an event while blocked, is ready in the first state with the clock at T + n or later, and on exactly that tick if a tick led there |
| WakeTimes.StepTicks | FreeRTOS-Kernel/tasks.c:4546-4571 | ticks delivered by the interrupt or by catching up are counted or pended, and nothing else is, except when the pended counter wraps |
| WakeTimes.TicksConserved | FreeRTOS-Kernel/tasks.c:3811-4091 | over every run delivered ticks equal counted plus pended ticks plus 2^32 for each wrap of the pended counter |
| WakeTimes.PendedTicksLost | FreeRTOS-Kernel/tasks.c:4546-4571 | from every state with the scheduler running, a run that delivers 2^32 ticks under suspension and leaves none of them counted or pended |
| WakeTimes.NothingHeldBack | FreeRTOS-Kernel/tasks.c:4043-4091 | whenever the scheduler is not suspended the clock shows every tick delivered, no task is pending and none is overdue |
| EventItems.StepReleases | FreeRTOS-Kernel/tasks.c:3984-4032 | no other step puts a task on an event list, and a pending task leaves the pending and the delayed lists together |
| EventItems.SignalReleases | FreeRTOS-Kernel/tasks.c:5358-5392 | a task taken off an event list is held back exactly while the scheduler is suspended |
| StoredBits.StepKeepsValue | FreeRTOS-Kernel/tasks.c:6599-6606 | no step but the delivery of bits to the task, or one of its own, rewrites an item value that an event group uses |
| StoredBits.StoredBitsSurvive | FreeRTOS-Kernel/tasks.c:6828-6835 | over any run through which the task stays blocked its stored bits are unchanged, whatever priority changes the run contains |
| StoredBits.ValuesFollowPriorities | FreeRTOS-Kernel/tasks.c:6580-6890 | over every run the item value of a task, unless an event group uses it, is the one that sorts it by its effective priority |
| ReadyBitmap.MaskIsShift | FreeRTOS-Kernel/portable/GCC/ARM_CM7/portmacro.h:163-164 | the masks are one shifted by the priority |
| ReadyBitmap.RecordedSet | FreeRTOS-Kernel/portable/GCC/ARM_CM7/portmacro.h:163-164 | record and reset add and remove exactly one priority of the set the word stands for |
| ReadyBitmap.GetHighest | FreeRTOS-Kernel/portable/GCC/ARM_CM7/portmacro.h:148-168 | 31 less the leading zeros is a recorded priority and the largest |
| ReadyBitmap.HighestRecorded | FreeRTOS-Kernel/tasks.c:219-227 | the port's choice is the maximum of the recorded set |
| TaskKernel.TaskKernel.constructor | FreeRTOS-Kernel/tasks.c:2019-2093 | the heap lists, tables and bitmap after the creation of any tasks are the start state and satisfy the invariant |
| TaskKernel.TaskKernel.IncrementTick | FreeRTOS-Kernel/tasks.c:4670-4910 | the tick handler, on linked lists and the 32-bit word, takes the step of the state machine, or pends the tick under suspension |
| TaskKernel.TaskKernel.CountTick | FreeRTOS-Kernel/tasks.c:4691-4716 | a counted tick, with the assertion at the list switch proved from the invariant |
| TaskKernel.TaskKernel.UnblockDueTasks | FreeRTOS-Kernel/tasks.c:4716-4805 | the loop unlinks from the delayed list and links to the ready lists exactly what the specification unblocks, and caches the next unblock time |
| TaskKernel.TaskKernel.ResumeAll | FreeRTOS-Kernel/tasks.c:3956-4110 | drain loop, recomputed unblock time and tick loop together take the resume step |
| TaskKernel.TaskKernel.ReadyPending | FreeRTOS-Kernel/tasks.c:3984-4032 | the loop over the linked pending ready list takes each task off both its lists until none is left |
| TaskKernel.TaskKernel.CountTicks | FreeRTOS-Kernel/tasks.c:4043-4068 | the loop over the ticks held back |
| TaskKernel.TaskKernel.AddCurrentToDelayedList | FreeRTOS-Kernel/tasks.c:8415-8531 | unlinking the current task, resetting the bit of an emptied list and linking into the chosen delayed list refine the block on values; the task is then due exactly that many ticks from now |
| TaskKernel.TaskKernel.PlaceOnEventList | FreeRTOS-Kernel/tasks.c:5243-5270 | the event item of the running task joins the linked event list by its value, behind its equals, and the task is blocked as the state machine says |
| TaskKernel.TaskKernel.PlaceOnUnorderedEventList | FreeRTOS-Kernel/tasks.c:5273-5299 | the same at the end of the list, with the bits of the event group stored in the item |
| TaskKernel.TaskKernel.SwitchContext | FreeRTOS-Kernel/tasks.c:219-227 | selection by the bitmap picks the specified linked list, which is not empty; the task switched in is the next of the topmost list in the order of turns, which then rotates by one |
| TaskKernel.TaskKernel.ScanReadyLists | FreeRTOS-Kernel/tasks.c:178-193 | the generic downward scan never passes priority zero and picks the list the bitmap picks |
| TaskKernel.TaskKernel.WakeFirst | FreeRTOS-Kernel/tasks.c:5341-5400 | the head of a linked event list leaves it and its state item moves: it refines the removal on values; the task ends ready in the list of its priority, or held pending under suspension, and the rest of the event list keeps its order |
| TaskKernel.TaskKernel.WakeWithBits | FreeRTOS-Kernel/tasks.c:5434-5475 | a waiter of an event group leaves its linked lists with the delivered bits in its item, as the state machine says |
| TaskKernel.TaskKernel.Inherit | FreeRTOS-Kernel/tasks.c:6580-6675 | on the linked ready lists: afterwards the holder has the larger of its own and the running task's priority and the invariant stands; nothing changes for a mutex without a holder; an inherited priority is reported exactly when one is lent or was lent |
| TaskKernel.TaskKernel.Disinherit | FreeRTOS-Kernel/tasks.c:6683-6769 | with the last mutex the giver is back at its base priority, in the linked list of that priority, and the invariant stands; with another mutex held or no holder nothing changes; a change is reported exactly when there is one |
| TaskKernel.TaskKernel.DisinheritOnTimeout | FreeRTOS-Kernel/tasks.c:6777-6890 | a holder of this mutex only goes to the larger of its base and the waiting priority, and lists and bitmap are right exactly if that empties no ready list; with more mutexes held or no holder nothing changes |
| Notifications.NotifiedTaskIsFree | FreeRTOS-Kernel/tasks.c:7907-7914 | a task in the waiting state is on no event list and not pending, so the assertions of the notify functions hold |
| Notifications.RunningIsNotHeldBack | FreeRTOS-Kernel/tasks.c:5243-5299 | a running task outside a wait has its event item free |
| Notifications.BlockMoveKeeps | FreeRTOS-Kernel/tasks.c:7657-7669 | entering the delayed list after a notification arrived keeps the task pending |
| Notifications.NextKeeps | FreeRTOS-Kernel/tasks.c:7614-7945 | every move of waiters, notifiers and kernel keeps the notification invariant |
| Notifications.NoNotificationLost | FreeRTOS-Kernel/tasks.c:7992-8106 | in every state reached from the start a waiter in state received is ready, or pending under suspension |
| Notifications.NotifiedInWindow | FreeRTOS-Kernel/tasks.c:8049-8064 | a task notified by an interrupt after it marked itself, before or after it blocked, is ready as soon as the scheduler is not suspended |
| Notifications.NotificationsConserved | FreeRTOS-Kernel/tasks.c:7682-7705 | with increments and decrementing takes only, start plus increments equals value plus takes plus 2^32 per wrap, over every run |
| Notifications.MailboxKeepsAll | FreeRTOS-Kernel/tasks.c:7717-7945 | with sends that do not overwrite and waits only, the values whose send returned success are, in order, those that successful waits fetched and the one still waiting to be fetched, over every run |
| NotificationWaits.BlocksExactly | FreeRTOS-Kernel/tasks.c:7614-7669 | a take or wait blocks if and only if it finds nothing and may wait, and the task is then due that many ticks after the call |
| NotificationWaits.NobodySleepsOnAToken | FreeRTOS-Kernel/tasks.c:7636-7647 | over counting runs from the start, a task that waits while its value is not zero is ready, or pending under suspension |
| NotificationFlags.FlagMove | FreeRTOS-Kernel/tasks.c:7861-7890 | after any move a bit of the value is set exactly if the move set it, by bits or by value, or it was set and the move did not clear it; for all actions but increments and all calls but decrementing takes |
| NotificationFlags.FlagsExact | FreeRTOS-Kernel/tasks.c:7738-7822 | over every such run a bit is set at the end exactly if the last move that touched it set it |
| Timeouts.ExpiresExactly | FreeRTOS-Kernel/tasks.c:5534-5597 | expiry is reported exactly when the time is up, if and only if a whole turn of the tick count shows |
| Timeouts.OneOverflow | FreeRTOS-Kernel/tasks.c:5572-5581 | at most one overflow since the last check is enough for that |
| Timeouts.HiddenTurn | FreeRTOS-Kernel/tasks.c:5572-5581 | a concrete wait whose expiry is not reported |
| Timeouts.TimeOut.Check | FreeRTOS-Kernel/tasks.c:5534-5597 | in place: the new start plus the ticks left equals the old start plus the ticks asked for |
| Timeouts.Telescopes | FreeRTOS-Kernel/queue.c:1088-1152 | over all checks of a call expiry comes at the first check at which the time asked for has passed; until then elapsed plus remaining is constant |
| Timeouts.DelayUntilExact | FreeRTOS-Kernel/tasks.c:2343-2428 | it blocks if and only if the ideal wake time is in the future, for exactly the difference, across wraps |
| Timeouts.DelayUntilWakes | FreeRTOS-Kernel/tasks.c:2399-2406 | with the scheduler behind it the task is due at the ideal wake time |
| PeriodicDelays.SleepIsUndisturbed | FreeRTOS-Kernel/tasks.c:2399-2428 | no kernel step but a notification frees a task that sleeps on no event list, over any run |
| PeriodicDelays.OneCall | FreeRTOS-Kernel/tasks.c:2343-2428 | a call that is late by less than 2^32 ticks blocks the task if and only if the ideal wake time is ahead, until exactly then |
| PeriodicDelays.NoDrift | FreeRTOS-Kernel/tasks.c:2343-2428 | over runs of the kernel with any steps between calls: call i + 1 comes no earlier than start plus i increments, a sleeping task is woken on that very tick, and the call blocks exactly if start plus i + 1 increments is ahead, for the difference |
| QueueSides.PostKeeps | FreeRTOS-Kernel/queue.c:1037-1059 | one more thing available and one waiter woken keep everything available accounted for |
| QueueSides.WakeServesFirst | FreeRTOS-Kernel/tasks.c:5358-5364 | the waiter woken is the first of the list and the others keep their order |
| QueueSides.WakeManyServes | FreeRTOS-Kernel/queue.c:2502-2580 | so are the n woken by an unlock |
| QueueSides.TakeKeeps | FreeRTOS-Kernel/queue.c:1528-1558 | a woken task that tries again takes what it was woken for |
| QueueSides.PeekKeeps | FreeRTOS-Kernel/queue.c:1906-1941 | a peek leaves the item and wakes the next waiter for it |
| QueueSides.SignalKeeps | FreeRTOS-Kernel/queue.c:270-300 | an interrupt that wakes, or counts up to the number of tasks, keeps the account |
| QueueSides.UnlockKeeps | FreeRTOS-Kernel/queue.c:2494-2611 | working off a lock count, capped or not, leaves nobody waiting for something unaccounted for |
| QueueSides.LockDefers | FreeRTOS-Kernel/queue.c:258-300 | locking, any number of signals from interrupts and unlocking wake the same waiters in the same order as the signals would without the lock |
| QueueProtocol.NextKeeps | FreeRTOS-Kernel/queue.c:939-1153 | every step keeps the invariant of both sides; a reset keeps the senders' part if and only if it serves all of them |
| QueueProtocol.NoLostReceiver | FreeRTOS-Kernel/queue.c:1502-1648 | in every interleaving, while a receiver waits the messages do not exceed woken receivers plus lock count, unless the count is capped; unlocked with nobody woken the queue is empty |
| QueueProtocol.NoLostSender | FreeRTOS-Kernel/queue.c:939-1153 | the mirror for senders and free slots, over runs whose resets serve all |
| QueueProtocol.ResetLosesSender | FreeRTOS-Kernel/queue.c:303-371 | a run from a new queue, with a reset after which a sender waits although a slot stays free for it |
| QueueOrder.ReceiversAreServed | FreeRTOS-Kernel/queue.c:1037-1059 | how many receivers each step wakes, always from the front of their list: one for an item a task adds or leaves, none while locked, and then as many as were counted |
| QueueOrder.SendersAreServed | FreeRTOS-Kernel/queue.c:1541-1558 | the same for senders and free slots, with one for a reset |
| QueueOrder.MostUrgentFirst | FreeRTOS-Kernel/queue.c:2494-2611 | in every interleaving in which tasks join by fixed item values: a task taken off a list, unless its time is over, has been woken, and nobody left on the list has a smaller value, or the same and came earlier |
| QueueTimeouts.CheckedReaches | FreeRTOS-Kernel/tasks.c:5534-5597 | one check never reports expiry early, and otherwise leaves ticks that reach at least, and without a hidden turn exactly, to the end of the wait |
| QueueTimeouts.NeverEarly | FreeRTOS-Kernel/queue.c:1502-1648 | in every interleaving with the clock, a call that blocks comes back empty only when the whole time it was given has passed since it first found nothing |
| QueueTimeouts.NeverLate | FreeRTOS-Kernel/queue.c:1502-1648 | with checks less than two overflows apart no task stays on an event list beyond the end of its wait, and a check says expired exactly from then on |
| QueueStorage.WriteBack | FreeRTOS-Kernel/queue.c:2418-2430 | writing the slot after the last appends to the deque and the write slot moves on |
| QueueStorage.WriteFront | FreeRTOS-Kernel/queue.c:2432-2444 | writing the read slot and stepping it back prepends and leaves the write slot |
| QueueStorage.ReadFront | FreeRTOS-Kernel/queue.c:2473-2491 | stepping the read slot yields the head and leaves the tail |
| QueueStorage.CopyIntoSlot | FreeRTOS-Kernel/queue.c:2420-2434 | copying an item over one slot of the byte array changes no other slot |
| QueueObject.Queue.constructor | FreeRTOS-Kernel/queue.c:566-612 | a new queue is an empty deque with unlocked sides, and a safe state of the protocol |
| QueueObject.Queue.WriteSlot | FreeRTOS-Kernel/queue.c:320-323 | the write position is the slot (read slot + 1 + count) modulo the length |
| QueueObject.Queue.CopyTo | FreeRTOS-Kernel/queue.c:2390-2470 | back, front and overwrite act as append, prepend and replace, for every length and item size, exactly when there is room or bytes to overwrite |
| QueueObject.Queue.CopyFrom | FreeRTOS-Kernel/queue.c:2473-2491 | the item copied out is the head of the deque |
| QueueObject.Queue.Take | FreeRTOS-Kernel/queue.c:1526-1541 | receiving pops the head |
| QueueObject.Queue.Look | FreeRTOS-Kernel/queue.c:1911-1921 | peeking returns the head and restores the read position |
| QueueObject.Queue.SendFromISR | FreeRTOS-Kernel/queue.c:1196-1321 | when it succeeds and what it stores; it is the interrupt step of the protocol and keeps its invariant; it wakes the first waiter of the other side, or none, as it should |
| QueueObject.Queue.ReceiveFromISR | FreeRTOS-Kernel/queue.c:2067-2127 | the mirror for receiving; it wakes the first waiter of the other side, or none, as it should |
| QueueObject.Queue.TrySend | FreeRTOS-Kernel/queue.c:959-1067 | the critical section of a send: what the deque holds afterwards; it is the step of the calling task in the protocol, a woken caller leaving the woken set, and keeps the invariant; it wakes the first waiter of the other side, or none, as it should |
| QueueObject.Queue.TryReceive | FreeRTOS-Kernel/queue.c:1526-1563 | the same for a receive; it wakes the first waiter of the other side, or none, as it should |
| QueueObject.Queue.TryPeek | FreeRTOS-Kernel/queue.c:1904-1945 | the same for a peek; it wakes the first waiter of the other side, or none, as it should |
| QueueObject.Queue.Check | FreeRTOS-Kernel/queue.c:1601-1606 | whether the task is to block, as the check step of the protocol |
| QueueObject.Queue.Place | FreeRTOS-Kernel/queue.c:1606-1610 | the task joins the event list at the place its item value gives it, as the place step of the protocol |
| QueueObject.Queue.Resume | FreeRTOS-Kernel/queue.c:1612-1647 | resuming, and after a time-out giving up exactly if there is still nothing |
| QueueObject.Queue.TimeOut | FreeRTOS-Kernel/tasks.c:4755-4767 | the waiter is taken off its event list, as the time-out step of the protocol |
| QueueObject.Queue.Await | FreeRTOS-Kernel/queue.c:1598-1619 | the second half of the loop without interruption: the task is in its place on the event list and all else is as before |
| QueueObject.Queue.UnlockReceivers | FreeRTOS-Kernel/queue.c:2502-2580 | the first unlocking loop is the unlock step of the protocol for receivers: it wakes the first of them, as many as were counted |
| QueueObject.Queue.UnlockSenders | FreeRTOS-Kernel/queue.c:2583-2610 | the second loop, for senders |
| QueueObject.Queue.Reset | FreeRTOS-Kernel/queue.c:303-371 | an empty deque; the reset step of the protocol, which wakes the first sender |
| QueueObject.Queue.NoneLost | FreeRTOS-Kernel/queue.c:1502-1648 | a corollary for the object: in every safe state, unlocked and with no receiver woken, a waiting receiver means an empty queue |
| QueueObject.OverwriteTwice | FreeRTOS-Kernel/queue.c:2390-2470 | two overwrites of a queue of length one with items of size zero leave a count of two |
| QueueObject.Handover | FreeRTOS-Kernel/queue.c:1502-1648 | from a new queue a receiver blocks, a send wakes it, and it gets what was sent |
| QueueClients.PassOn | FreeRTOS-Kernel/queue.c:2390-2491 | through an empty queue items sent to the back come out in the order they went in, and items sent to the front in the reverse |
| MutexBooks.NextBooks | FreeRTOS-Kernel/tasks.c:6580-6890 | every step, also the time-out of a woken waiter and the two critical sections of giving up, keeps the books: held count, free or held, base and effective priority |
| MutexBooks.TakeBooks | FreeRTOS-Kernel/queue.c:1695-1703 | taking a free mutex raises the taker's count by one and names it holder |
| MutexBooks.ReleaseBooks | FreeRTOS-Kernel/queue.c:2401-2410 | giving lowers it and restores the base priority with the last mutex |
| MutexBooks.WaitBooks | FreeRTOS-Kernel/tasks.c:6580-6675 | inheriting raises the effective priority of a holder only |
| MutexBooks.GiveUpBooks | FreeRTOS-Kernel/tasks.c:6777-6890 | disinheriting whoever holds the mutex by then, or nobody, never goes below the base priority |
| MutexInversion.Run | FreeRTOS-Kernel/tasks.c:6580-6890 | over all runs in which only holders give: the held count is the number of mutexes naming the task, a held mutex has count zero, base is at most effective priority, and they are equal while nothing is held |
| RecursiveMutexes.RunDepth | FreeRTOS-Kernel/queue.c:759-845 | over every run the recursion depth of a task in a mutex changes by its takes, first and recursive, less its gives |
| RecursiveMutexes.HeldWhileTaken | FreeRTOS-Kernel/queue.c:831-842 | from the start on a task holds a mutex exactly if it has taken it more often than given it |
| RecursiveMutexes.GivesMatchTakes | FreeRTOS-Kernel/queue.c:780-792 | a give frees the mutex exactly if that difference is one, and otherwise the giver stays the holder |
| MutexLoans.LentExactly | FreeRTOS-Kernel/tasks.c:6580-6675 | inheritance is reported exactly for a waiter more urgent than the holder's own priority, whatever was lent before |
| MutexLoans.LeftWithTheRest | FreeRTOS-Kernel/tasks.c:6777-6806 | a time-out leaves a holder of this mutex alone with the larger of its own priority and those of the tasks still waiting, and a holder of more with what it has |
| MutexLoans.WaitUndone | FreeRTOS-Kernel/queue.c:1772-1860 | a wait that blocks, times out and gives up restores the priorities and the order of the waiters it found |
| MutexInversion.EnlistStable | FreeRTOS-Kernel/tasks.c:5243-5270 | a new waiter stands behind everyone at least as urgent and before everyone less urgent, and the others keep their order |
| MutexInversion.TakeBounded | FreeRTOS-Kernel/queue.c:1684-1703 | a most urgent taker of a free mutex is as urgent as everyone still waiting |
| MutexInversion.WaitBounded | FreeRTOS-Kernel/tasks.c:6580-6675 | after inheriting the holder is as urgent as the new waiter and all others |
| MutexInversion.GiveBounded | FreeRTOS-Kernel/tasks.c:6683-6769 | after a give the first in line is ready and tops those behind it, and other mutexes are unaffected |
| MutexInversion.ProgressBounded | FreeRTOS-Kernel/queue.c:1738-1860 | a woken waiter that finds the mutex retaken and its time up, a call without time that fails, and the look at an empty mutex before giving up leave priorities and the bound alone |
| MutexInversion.GiveUpBounded | FreeRTOS-Kernel/queue.c:1829-1860 | the later critical section of a giving-up task, whoever took or gave the mutex since the look, leaves the holder at least the priority of the first still waiting; the holder is never the task that leaves |
| MutexInversion.InversionBounded | FreeRTOS-Kernel/tasks.c:6580-6890 | over disciplined runs, with time-outs at any point of the call, no holder's effective priority is below that of a task waiting for its mutex |
| MutexTimeouts.RunGuarded | FreeRTOS-Kernel/queue.c:1829-1860 | over runs in which most urgent tasks act and none waits for a mutex while holding one, for every task about to lower a holder the holder is at least as urgent, or keeps its priority, or shares it with a task that can run |
| MutexTimeouts.LeaverSharesPriority | FreeRTOS-Kernel/tasks.c:6777-6890 | hence every such lowering is one that empties no ready list |
| KernelMutexes.NextTogether | FreeRTOS-Kernel/tasks.c:6580-6890 | every step of tasks, interrupts and ticks keeps the kernel and the account of mutexes in agreement on priorities, on who can run and on who waits where; a time-out keeps the kernel's invariant exactly if the lowering is harmless |
| StaleBits.TimeoutKeepsBits | FreeRTOS-Kernel/tasks.c:6843-6857 | over every run of kernel and mutexes from the start in which no task waits for a mutex while it holds one, the lowering is a step the scheduler allows, and lists and bitmap stay right |
| NestedMutexes.NestedTimeout | FreeRTOS-Kernel/queue.c:1772-1860 | with one task waiting for a second mutex, a run from the start in which only most urgent tasks act leads to a task about to lower a holder that is alone at its priority |
| NestedKernel.StaleBit | FreeRTOS-Kernel/tasks.c:6843-6857 | a run of the kernel from the creation of four tasks, with delays, ticks and switches, through those steps; after the lowering a ready bit is set for an empty list |
| Timers.PlacementExact | FreeRTOS-Kernel/timers.c:894-935 | the 32-bit comparisons decide exactly between now, this epoch and the next |
| Timers.TimerDaemon.Insert | FreeRTOS-Kernel/timers.c:894-935 | the timer joins the list of its epoch in order, or is to be processed exactly when its time has come |
| Timers.TimerDaemon.Reload | FreeRTOS-Kernel/timers.c:699-715 | the loop ends, makes one callback per further period that has passed and queues the least expiry after now |
| Timers.TimerDaemon.ProcessExpired | FreeRTOS-Kernel/timers.c:718-745 | a reloading timer that expired at X and is processed at N gets 1 + (N - X) / P callbacks; a one-shot timer one |
| Timers.TimerDaemon.SwitchLists | FreeRTOS-Kernel/timers.c:1086-1108 | the loop ends, settles every timer of the old list up to the last tick of the epoch, and the next epoch's timers become current |
| Timers.TimerDaemon.SampleTime | FreeRTOS-Kernel/timers.c:871-891 | the lists are switched exactly when the epoch changed; every queued timer keeps its account: due time moved by one period per callback if it reloads, one callback at most if it does not, and none before it is due |
| Timers.TimerDaemon.Start | FreeRTOS-Kernel/timers.c:999-1028 | a start is due one period after it was issued, late expiries are made up, and every other timer keeps its account |
| Timers.TimerDaemon.ChangePeriod | FreeRTOS-Kernel/timers.c:1036-1049 | due one new period from now; every other timer keeps its account |
| Timers.TimerDaemon.Stop | FreeRTOS-Kernel/timers.c:1030-1034 | inactive and on no list, with no callback; every other timer keeps its account |
| Timers.TimerDaemon.ProcessTimer | FreeRTOS-Kernel/timers.c:782-842 | a timer is processed exactly when one of this epoch is due and the lists were not switched; it is the head, it gets a callback for every expiry up to now and is requeued or retired, one timer less is late, and all timers keep their accounts |
| Timers.TimerDaemon.Perform | FreeRTOS-Kernel/timers.c:938-1083 | each command does to its own timer what it should and leaves every other account alone; a poll leaves one late timer less, or none |
| TimerAccounts.Accounts | FreeRTOS-Kernel/timers.c:699-745 | a corollary: what an account kept means for due times and callbacks |
| TimerAccounts.CaughtUp | FreeRTOS-Kernel/timers.c:699-745 | a timer that goes by the clock and is not late has had exactly one callback for each expiry that has come |
| Timers.TimerDaemon.Serve | FreeRTOS-Kernel/timers.c:748-779 | over any sequence of the daemon's operations a reloading timer without a command stays queued, its due time moved by exactly one period for each callback; a stopped timer is on no list; after one poll more than there are timers at time T no listed timer is due by T, and every timer without a command has had exactly the callbacks due by T |
| StreamProtocol.SpaceIsExact | FreeRTOS-Kernel/stream_buffer.c:754-788 | reported space and bytes are exact in absolute terms and add up to the length less one |
| StreamProtocol.StoreKeeps | FreeRTOS-Kernel/stream_buffer.c:1476-1518 | a store disturbs no published byte |
| StreamProtocol.LoadIsSent | FreeRTOS-Kernel/stream_buffer.c:1521-1560 | a load returns the byte that was sent at that place |
| StreamProtocol.NextKeeps | FreeRTOS-Kernel/stream_buffer.c:1000-1050 | every single load and store keeps the invariant of both sides |
| StreamProtocol.DecodeEncode | FreeRTOS-Kernel/stream_buffer.c:1015-1029 | a stored message length is read back |
| StreamProtocol.HeadingDone | FreeRTOS-Kernel/stream_buffer.c:1286-1312 | having read the length, the reader takes the whole oldest message, or nothing if its buffer is too small |
| StreamProtocol.NoRoomNothingWritten | FreeRTOS-Kernel/stream_buffer.c:1019-1034 | a message for which there is no room is not written, and only then |
| StreamProtocol.NeverTooMuch | FreeRTOS-Kernel/stream_buffer.c:754-788 | in every interleaving what either side believes never exceeds the true space and bytes |
| StreamProtocol.FirstInFirstOut | FreeRTOS-Kernel/stream_buffer.c:808-940 | in every interleaving from a new buffer what was received is a prefix of what was accepted, in bytes or in whole messages |
| StreamCalls.AcceptedWasOffered | FreeRTOS-Kernel/stream_buffer.c:1000-1050 | in every interleaving from a new buffer the bytes of a stream are beginnings of the data of the calls, one after the other, and the messages of a message buffer are some of those sent, whole and in order |
| StreamCalls.TakesWhatFits | FreeRTOS-Kernel/stream_buffer.c:1036-1043 | a stream takes as much of the offer as the space it has seen, and nothing only of nothing or without space |
| StreamCalls.ReadsWhatIsThere | FreeRTOS-Kernel/stream_buffer.c:1276-1328 | a read takes as much of the bytes published as it has room for; of messages it looks at the oldest if there is one |
| StreamObject.StreamBuffer.WriteBytes | FreeRTOS-Kernel/stream_buffer.c:1476-1518 | the two copies store the data around the end and touch nothing else |
| StreamObject.StreamBuffer.ReadBytes | FreeRTOS-Kernel/stream_buffer.c:1521-1560 | the two copies return the bytes around the end |
| StreamObject.StreamBuffer.Write | FreeRTOS-Kernel/stream_buffer.c:1000-1050 | a stream takes what fits, a message buffer the whole frame or nothing |
| StreamObject.StreamBuffer.Read | FreeRTOS-Kernel/stream_buffer.c:1276-1328 | a read returns the oldest bytes, or one message, and leaves the rest |
| EventGroups.StoredMeans | FreeRTOS-Kernel/event_groups.c:383-403 | what a waiter stores is read back: bits and flags, with the in-use bit set |
| EventGroups.SetExact | FreeRTOS-Kernel/event_groups.c:547-644 | setting bits unblocks exactly the waiters whose condition holds of old and new bits together, each with the same snapshot |
| EventGroups.ReturnedExactly | FreeRTOS-Kernel/event_groups.c:416-461 | an unblocked task returns the bits that met its condition, whatever was cleared since, and a timed-out one is told so |
| EventGroups.WaitExact | FreeRTOS-Kernel/event_groups.c:336-403 | a wait that is met clears its own bits and no others, if asked to, and does not block; one that is not met changes no bits and joins the list with exactly its own condition |
| EventGroups.SyncExact | FreeRTOS-Kernel/event_groups.c:205-247 | a rendezvous releases exactly the waiters that the added bits satisfy, clears the bits it waited for when they are all set, and otherwise joins the list with exactly its own condition |
| EventGroups.OrderIndependent | FreeRTOS-Kernel/event_groups.c:608-637 | the bits cleared are the same for every order of the waiters |
| EventGroups.UnionExact | FreeRTOS-Kernel/event_groups.c:608-637 | a set clears a bit exactly when some unblocked waiter asked for that bit to be cleared |
| EventGroups.SetLeavesNoneMet | FreeRTOS-Kernel/event_groups.c:547-644 | after a set no waiter is left whose condition is met |
| EventGroups.NextKeeps | FreeRTOS-Kernel/event_groups.c:205-247 | waiting, rendezvous, clearing and time-outs keep it so |
| EventGroups.NobodyWaitsInVain | FreeRTOS-Kernel/event_groups.c:336-403 | in every reachable state no listed waiter's condition is satisfied |
| GroupFlags.FlagStep | FreeRTOS-Kernel/event_groups.c:466-503 | after any step, set, clear, wait, rendezvous or giving up, a bit is set exactly if it was or the step set it, and neither the step nor an unblocked waiter cleared it |
| GroupFlags.FlagsExact | FreeRTOS-Kernel/event_groups.c:547-644 | the same over every run |
| GroupFlags.WaitersExact | FreeRTOS-Kernel/event_groups.c:336-461 | a call joins the waiters exactly if it may block and finds its condition unmet; a waiter leaves exactly if it is unblocked or its time is over, with the snapshot in its item in the first case, and otherwise keeps its condition |
| EventGroupObject.EventGroup.SetBits | FreeRTOS-Kernel/event_groups.c:547-644 | the walk over the list, removing as it goes, computes the specified group |
| GroupRuns.NextLinked | FreeRTOS-Kernel/event_groups.c:547-644 | every step of the kernel and of the group keeps the kernel's list of waiters equal to the group's, and each item's value the one its task stored; a set that reads the items unblocks whom the group says |
| GroupRuns.NobodyOverlooked | FreeRTOS-Kernel/event_groups.c:547-644 | in every state reached from the start no task on the list has an item whose condition the bits meet |
| GroupRuns.ConditionSurvives | FreeRTOS-Kernel/event_groups.c:383-403 | as long as a task waits, through all priority changes, the condition read back from its item is the one it asked for |
| GroupRuns.SetTells | FreeRTOS-Kernel/event_groups.c:608-637 | every waiter whose condition a set meets finds the same bits in its item |
| GroupRuns.DeliveredSurvives | FreeRTOS-Kernel/event_groups.c:416-461 | the bits delivered are the ones the task returns, whatever the kernel does until it reads its item |
| EthernetRings.Fill | Core/Src/ethernet_ll.c:203-213 | handing over the next free slot extends the window of owned slots |
| EthernetRings.Empty | Core/Src/ethernet_ll.c:248-258 | giving back the oldest slot shortens it, and that slot held the oldest entry |
| EthernetRings.Newest | Core/Src/ethernet_ll.c:201-204 | the next slot to fill belongs to the other side exactly while the ring is full |
| EthernetProtocol.TransmitInOrder | Core/Src/ethernet_ll.c:193-217 | over all runs frames leave in submission order, each once, and a buffer the DMA owns holds the frame it was given |
| EthernetProtocol.ReceiveInOrder | Core/Src/ethernet_ll.c:219-258 | over all runs the i-th outcome is about the i-th completed descriptor: dropped as bad exactly if it has an error, is not one whole segment or is shorter than four bytes; dropped as too large exactly if intact and longer than 1540; and what is delivered is its buffer cut four bytes short of the descriptor's length |
| EthernetProtocol.ClassifyExact | Core/Src/ethernet_ll.c:228-246 | the tests of the driver accept exactly the intact descriptors of 4 to 1540 bytes, with a length of four less |
| EthernetProtocol.HeldFrameStays | Core/Src/ethernet_ll.c:219-258 | a frame handed out is not rewritten until it is released |
| EthernetProtocol.Drain | Core/Src/network_interface.c:53-75 | the receive loop, with descriptors completed before and during each turn, ends with every completed descriptor returned |
| EthernetObject.EthernetMac.constructor | Core/Src/ethernet_ll.c:131-148 | the rings start with all receive descriptors at the DMA and all transmit descriptors at the CPU |
| EthernetObject.EthernetMac.Transmit | Core/Src/ethernet_ll.c:193-217 | the status for every argument, busy exactly while eight frames are submitted and not sent, and the frame submitted exactly on success |
| EthernetObject.EthernetMac.GetFrame | Core/Src/ethernet_ll.c:219-246 | ok exactly for an intact frame of 4 to 1540 bytes, with a length four less than the descriptor's; bad and oversized frames are told apart and released here |
| EthernetObject.NothingDropped | Core/Src/network_interface.c:53-75 | while lwIP accepts what it is offered every intact frame that fits is delivered |
| EthernetObject.EthernetMac.ProcessInput | Core/Src/network_interface.c:53-75 | the loop, with descriptors completed before and during each turn, returns every completed descriptor in ring order, each with the outcome it deserves, and passes on exactly the accepted frames; all that are intact and fit while lwIP accepts what it is offered |

## Left out

- Other priorities than five, SMP branches, MPU wrappers, task delete, suspend, priority-set, abort-delay, tickless idle, queue sets and registry: not configured here.
- Yield flags and the moment of a context switch: a switch may come at any step, so the running task is claimed to be the most urgent only when it is switched in; with mutexes, tasks are taken to act only while no ready task is more urgent.
- The order of waiters on an event list in the scheduler's state machine: a step unblocks any waiter of the list; the kernel object takes the head.
- Event lists shared between objects: the kernel object keeps all of them as linked lists, the queue and event group objects keep theirs as sequences; the two are not joined.
- A block time of zero ticks reaching the delayed list (the timer daemon with an empty list at tick zero): steps that block ask for at least one tick.
- The number of tick overflows as a 32-bit value in the scheduler: it is unbounded there, and wraps only in `Timeouts`.
- Notifications and mutexes as objects updated in place: each call spans several atomic steps, so they are modelled as steps on values.
- Clearing a notification's state or value by a separate call (tasks.c:8234-8298), and more than one notification slot per task.
- QueueProtocol.NextKeeps: an overwrite there replaces the item, so it does not cover an overwrite of items of size zero, which `QueueObject` shows to break the count.
- The waiting loops of queues and stream buffers as single calls: a call is a series of steps with others in between, each of them a method of the queue object; blocking for stream buffers is a step with a freely chosen answer of the timeout check.
- Batching stream buffers, completion callbacks and trigger levels.
- Timer callbacks that send commands: a callback is recorded, its effects come back as commands.
- Timers.TimerDaemon.SampleTime: asks that the daemon samples the time at least once in 2^32 ticks, as the source assumes without saying so; the commands ask the same.
- PHY registers, DMA status registers, memory barriers, cache maintenance and board start-up.
- croutine.c, trace and statistics, static-buffer getters, and the host tools.

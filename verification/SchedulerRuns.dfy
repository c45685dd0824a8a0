/** Runs of the scheduler: every interleaving of task and interrupt steps. */
module SchedulerRuns {
  import opened Basics
  import opened Rings
  import opened Scheduler
  import opened Ticks
  import opened SchedulerSafety

  datatype Event =
    | Tick                                          // the tick interrupt
    | SuspendAll | ResumeAll                        // vTaskSuspendAll, xTaskResumeAll
    | CatchUp(ticks: nat)                           // xTaskCatchUpTicks, under suspension
    | Delay(ticks: nat)                             // the current task blocks on time alone
    | Wait(event: nat, ticks: nat)                  // ... on a queue or semaphore
    | WaitBits(event: nat, value: nat, ticks: nat)  // ... on an event group
    | Signal(task: Task)                            // the head of an event list is unblocked
    | SignalBits(task: Task, value: nat)            // a waiter of an event group is unblocked
    | Wake(task: Task)                              // a waiting task is notified by a task
    | WakeFromISR(task: Task)                       // ... or by an interrupt
    | ResetItem                                     // the running task reads its event item
    | Switch                                        // vTaskSwitchContext
    | Inherit(holder: Task) | Disinherit | DisinheritTimeout(holder: Task, waiting: nat)

  /** What the kernel itself demands of a caller: only a running task other than
      idle blocks, with the scheduler suspended, for at least one tick. */
  ghost predicate Enabled(k: Kernel, e: Event)
    requires Inv(k)
  {
    match e
    case Tick => true
    case SuspendAll => true
    case ResumeAll => k.suspended > 0
    case CatchUp(n) => k.suspended > 0 && n <= MAX_DELAY
    case Delay(n) => k.suspended > 0 && MayBlock(k) && 1 <= n <= MAX_DELAY
    case Wait(_, n) => k.suspended > 0 && MayBlock(k) && k.current !in k.pending && 1 <= n <= MAX_DELAY
    case WaitBits(_, _, n) => k.suspended > 0 && MayBlock(k) && k.current !in k.pending && 1 <= n <= MAX_DELAY
    case Signal(t) => t in k.eventOf
    case SignalBits(t, _) => k.suspended > 0 && t in k.eventOf
    case Wake(t) => t in k.priority && t !in k.eventOf && t !in k.pending
    case WakeFromISR(t) => t in k.priority && t !in k.eventOf && t !in k.pending
    case ResetItem => InReady(k.ready, k.priority, k.current)
    case Switch => k.suspended == 0
    case Inherit(h) => h in k.priority
    case Disinherit => InReady(k.ready, k.priority, k.current)
    case DisinheritTimeout(h, w) =>
      && h in k.priority && w < MAX_PRIORITIES
      && (!InReady(k.ready, k.priority, h) || k.priority[h] == Larger(At(k.base, h), w) || SharesList(k, h))
  }

  ghost function Step(k: Kernel, e: Event): Kernel
    requires Inv(k) && Enabled(k, e)
  {
    match e
    case Tick => IncrementTick(k)
    case SuspendAll => k.(suspended := k.suspended + 1)
    case ResumeAll => Scheduler.ResumeAll(k)
    case CatchUp(n) => PendTicks(k, n)
    case Delay(n) => BlockCurrent(k, n)
    case Wait(e, n) => PlaceOnEventList(k, e, n)
    case WaitBits(e, v, n) => PlaceOnUnorderedEventList(k, e, v, n)
    case Signal(t) => RemoveFromEventList(k, t)
    case SignalBits(t, v) => RemoveFromUnorderedEventList(k, t, v)
    case Wake(t) => MoveToReady(k, t)
    case WakeFromISR(t) => ReadyOrPend(k, t)
    case ResetItem => ResetItemValue(k)
    case Switch => SwitchContext(k)
    case Inherit(h) => PriorityInherit(k, h)
    case Disinherit => PriorityDisinherit(k)
    case DisinheritTimeout(h, w) => DisinheritAfterTimeout(k, h, w)
  }

  predicate IsClockEvent(e: Event) { e.Tick? || e.SuspendAll? || e.ResumeAll? || e.CatchUp? }

  /** The clock, the suspension depth, the pended ticks and the set of tasks are
      the same, and nothing is pended unless the scheduler is suspended. */
  ghost predicate SameClock(k: Kernel, k': Kernel) {
    && k'.base == k.base
    && k'.tick == k.tick && k'.overflows == k.overflows && k'.suspended == k.suspended && k'.pended == k.pended
    && (k.suspended == 0 && k.pending == [] ==> k'.pending == [])
  }

  lemma PriorityFrame(k: Kernel, e: Event)
    requires Inv(k) && Enabled(k, e) && (e.Inherit? || e.Disinherit? || e.DisinheritTimeout?)
    ensures SameClock(k, Step(k, e))
  {
    hide Reprioritise, Timing, Bits, ReadyLists, Partition, Events, InReady;
    match e
    case Inherit(h) =>
      var p := Priority(k, k.current);
      ReprioritiseFrame(RevalueEvent(k, h, p), h, p, Priority(k, h));
    case Disinherit =>
      var t, p := k.current, At(k.base, k.current);
      ReprioritiseFrame(k.(eventValue := k.eventValue[t := MAX_PRIORITIES - p]), t, p, Priority(k, t));
    case DisinheritTimeout(h, w) =>
      var p := Larger(At(k.base, h), w);
      ReprioritiseFrame(RevalueEvent(k, h, p), h, p, p);
  }

  /** Only the tick, suspend and resume steps touch the clock and the suspension. */
  lemma StepFrame(k: Kernel, e: Event)
    requires Inv(k) && Enabled(k, e) && !IsClockEvent(e)
    ensures SameClock(k, Step(k, e))
  {
    hide Core, Drop, Without, InsertEnd, InsertSorted, Highest, BlockCurrent, PriorityInherit, PriorityDisinherit,
      DisinheritAfterTimeout;
    match e
    case Delay(n) => BlockForm(k, n);
    case Wait(_, n) => BlockForm(k, n);
    case WaitBits(_, _, n) => BlockForm(k, n);
    case Signal(t) => NothingToRemove(t);
    case SignalBits(t, _) => NothingToRemove(t);
    case Wake(_) =>
    case WakeFromISR(_) =>
    case ResetItem =>
    case Switch =>
    case _ => PriorityFrame(k, e);
  }

  lemma NothingToRemove(t: Task)
    ensures Without<Task>([], t) == []
  {
  }

  lemma ReprioritiseFrame(k: Kernel, t: Task, p: nat, cleared: nat)
    requires Typed(k) && p < MAX_PRIORITIES
    ensures var k' := Reprioritise(k, t, p, cleared);
            k' == k.(ready := k'.ready, top := k'.top, bound := k'.bound, priority := k'.priority,
                     delayed := k'.delayed, overflow := k'.overflow)
  {
    hide Drop, InsertEnd, Without;
  }

  lemma EventTasksKnown(k: Kernel, t: Task)
    requires Inv(k) && t in k.eventOf
    ensures t in k.priority && t !in k.pending
  {
    hide Timing, Bits, ReadyLists, InReady;
  }

  lemma StepKeepsCore(k: Kernel, e: Event)
    requires Inv(k) && Enabled(k, e) && !IsClockEvent(e)
    ensures Core(Step(k, e), k.tick)
  {
    hide BlockCurrent, ReadyOrPend, MoveToReady, RemoveEvent, Reprioritise, RevalueEvent, SelectFrom, Bits, ReadyLists,
      Timing, Partition, InReady;
    match e
    case Delay(n) => BlockCurrentKeeps(k, n);
    case Wait(e, n) => PlaceOnEventListKeeps(k, e, n);
    case WaitBits(e, v, n) => PlaceOnEventListKeeps(k, e, n);
    case Signal(t) => EventTasksKnown(k, t); RemoveFromEventListKeeps(k, t, k.tick);
    case SignalBits(t, v) => EventTasksKnown(k, t); RemoveFromUnorderedKeeps(k, t, v, k.tick);
    case Wake(t) => MoveToReadyKeeps(k, t, k.tick);
    case WakeFromISR(t) => ReadyOrPendKeeps(k, t, k.tick);
    case ResetItem =>
    case Switch =>
    case Inherit(h) => PriorityInheritKeeps(k, h);
    case Disinherit => PriorityDisinheritKeeps(k);
    case DisinheritTimeout(h, w) => DisinheritAfterTimeoutKeepsIff(k, h, w);
  }

  lemma TickKeeps(k: Kernel)
    requires Inv(k)
    ensures Inv(IncrementTick(k))
  {
    hide Timing, Bits, Partition, ReadyLists, Events, InReady, AdvanceTick;
    if k.suspended == 0 {
      AdvanceTickKeeps(k);
      AdvanceTickFrame(k);
    } else {
      CoreSuspended(k, IncrementTick(k));
    }
  }

  /** Every step keeps the invariant. */
  lemma StepKeeps(k: Kernel, e: Event)
    requires Inv(k) && Enabled(k, e)
    ensures Inv(Step(k, e))
  {
    hide Timing, Bits, ReadyLists, Partition, Events, InReady, IncrementTick, Scheduler.ResumeAll,
      PlaceOnEventList, PlaceOnUnorderedEventList, BlockCurrent, RemoveFromEventList, RemoveFromUnorderedEventList,
      MoveToReady, ReadyOrPend, SwitchContext, PriorityInherit, PriorityDisinherit, DisinheritAfterTimeout;
    match e
    case Tick => TickKeeps(k);
    case SuspendAll => CoreSuspended(k, k.(suspended := k.suspended + 1));
    case ResumeAll => ResumeAllKeeps(k);
    case CatchUp(n) => CoreSuspended(k, PendTicks(k, n));
    case _ => StepKeepsCore(k, e); StepFrame(k, e);
  }

  // -------------------------------------------------------------------- runs

  ghost predicate Runs(k: Kernel, es: seq<Event>)
    requires Inv(k)
    decreases |es|
  {
    es == [] || (Enabled(k, es[0]) && (StepKeeps(k, es[0]); Runs(Step(k, es[0]), es[1..])))
  }

  ghost function Run(k: Kernel, es: seq<Event>): (k': Kernel)
    requires Inv(k) && Runs(k, es)
    ensures Inv(k')
    decreases |es|
  {
    if es == [] then k else StepKeeps(k, es[0]); Run(Step(k, es[0]), es[1..])
  }
}

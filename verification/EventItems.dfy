/** What a scheduler step does to the event list item of a task. */
module EventItems {
  import opened Basics
  import opened Rings
  import opened Scheduler
  import opened Ticks
  import opened SchedulerSafety
  import opened SchedulerRuns
  import opened WakeTimes

  /** From k to k' the task joins no list of events, and leaves its event list only
      together with the delayed lists; the same for the pending ready list. */
  ghost predicate Released(k: Kernel, k': Kernel, t: Task) {
    && (t in k'.eventOf ==> t in k.eventOf && k'.eventOf[t] == k.eventOf[t])
    && (t in k.eventOf && Blocked(k', t) ==> t in k'.eventOf)
    && (t in k'.pending ==> t in k.pending)
    && (Blocked(k', t) ==> Blocked(k, t))
    && (t in k.pending && Blocked(k', t) ==> t in k'.pending)
    && (t in k'.pending && Blocked(k, t) ==> Blocked(k', t))
  }

  lemma ReleaseOne(k: Kernel, u: Task, t: Task, lo: int)
    requires Core(k, lo) && u in k.priority
    ensures Released(k, MoveToReady(RemoveEvent(k, u), u), t)
  {
    hide Timing, Bits, ReadyLists, Partition, InReady, Shape, MoveToReady, RemoveEvent, Events;
    RemoveEventKeeps(k, u, lo);
    RemoveEventFrame(k, u);
    EventsShrink(k, u);
    MoveToReadyLists(RemoveEvent(k, u), u);
    MoveFrame(RemoveEvent(k, u), u);
  }

  lemma EventsShrink(k: Kernel, u: Task)
    requires Typed(k)
    ensures forall t :: t in RemoveEvent(k, u).eventOf <==> t != u && t in k.eventOf
    ensures forall t :: t in RemoveEvent(k, u).eventOf ==> RemoveEvent(k, u).eventOf[t] == k.eventOf[t]
  {
  }

  lemma MoveFrame(k: Kernel, u: Task)
    requires Typed(k)
    ensures MoveToReady(k, u).pending == k.pending && MoveToReady(k, u).eventOf == k.eventOf
  {
  }

  lemma {:induction false} ReleaseDue(k: Kernel, t: Task)
    requires Core(k, k.tick - 1)
    ensures Released(k, UnblockDue(k), t)
    decreases |k.delayed|
  {
    hide Timing, Bits, ReadyLists, InReady, Shape, UnblockHead;
    if k.delayed != [] && At(k.wake, k.delayed[0]) <= k.tick {
      assert k.delayed[0] in k.delayed;
      ReleaseHead(k, t, k.tick - 1);
      UnblockHeadFrame(k);
      UnblockHeadKeeps(k, k.tick - 1);
      ReleaseDue(UnblockHead(k), t);
    }
  }

  lemma ReleaseHead(k: Kernel, t: Task, lo: int)
    requires Core(k, lo) && k.delayed != []
    ensures Released(k, UnblockHead(k), t)
  {
    hide Timing, Bits, ReadyLists, InReady, Shape, MoveToReady, RemoveEvent;
    assert k.delayed[0] in k.delayed;
    ReleaseOne(k, k.delayed[0], t, lo);
  }

  lemma ReleaseTick(k: Kernel, t: Task)
    requires Core(k, k.tick)
    ensures Released(k, AdvanceTick(k), t)
  {
    hide Timing, Bits, ReadyLists, Partition, InReady, Events, Shape, Tasks, UnblockDue;
    TurnClockKeeps(k);
    ReleaseDue(TurnClock(k), t);
    assert Released(k, TurnClock(k), t);
  }

  lemma {:induction false} ReleaseTicks(k: Kernel, n: nat, t: Task)
    requires Core(k, k.tick)
    ensures Released(k, AdvanceTicks(k, n), t)
    decreases n
  {
    hide Timing, Bits, ReadyLists, Partition, InReady, Events, Shape, Tasks, AdvanceTick;
    if n > 0 {
      ReleaseTick(k, t);
      AdvanceTickKeeps(k);
      AdvanceTickFrame(k);
      ReleaseTicks(AdvanceTick(k), n - 1, t);
    }
  }

  lemma {:induction false} ReleaseDrained(k: Kernel, t: Task, lo: int)
    requires Core(k, lo)
    ensures Released(k, DrainPending(k), t)
    decreases |k.pending|
  {
    hide Timing, Bits, ReadyLists, Partition, InReady, Shape, MoveToReady, RemoveEvent;
    if k.pending != [] {
      var u := k.pending[0];
      assert u in k.pending;
      var k1 := RemoveEvent(k, u);
      RemoveEventKeeps(k, u, lo);
      RemoveEventFrame(k, u);
      EventsShrink(k, u);
      MoveToReadyKeeps(k1, u, lo);
      MoveFrame(k1, u);
      ReleaseOne(k, u, t, lo);
      ReleaseDrained(MoveToReady(k1, u), t, lo);
    }
  }

  lemma ReleaseResumed(k: Kernel, t: Task)
    requires Inv(k) && k.suspended > 0
    ensures Released(k, Scheduler.ResumeAll(k), t)
  {
    hide Timing, Bits, ReadyLists, Partition, Events, InReady, DrainPending, AdvanceTicks, Shape, Tasks;
    var k1 := k.(suspended := k.suspended - 1);
    CoreSuspended(k, k1);
    if k1.suspended == 0 {
      ReleaseDrained(k1, t, k1.tick);
      DrainedEffect(k1, t);
      ReleaseTicks(Drained(k1), k.pended, t);
      ResumeForm(k);
      assert Released(k, Drained(k1), t);
    }
  }

  /** A change of priority moves no event list item. */
  lemma EventItemsStay(k: Kernel, e: Event)
    requires Inv(k) && Enabled(k, e) && (e.Inherit? || e.Disinherit? || e.DisinheritTimeout?)
    ensures Step(k, e).eventOf == k.eventOf && Step(k, e).pending == k.pending
  {
    hide Reprioritise, Timing, Bits, ReadyLists, Partition, Events, InReady, Shape, Tasks;
    match e
    case Inherit(h) =>
      var p := Priority(k, k.current);
      Below(k, k.current, 0);
      ReprioritiseFrame(RevalueEvent(k, h, p), h, p, Priority(k, h));
    case Disinherit =>
      var u, p := k.current, At(k.base, k.current);
      Below(k, u, 0);
      ReprioritiseFrame(k.(eventValue := k.eventValue[u := MAX_PRIORITIES - p]), u, p, Priority(k, u));
    case DisinheritTimeout(h, w) =>
      var p := Larger(At(k.base, h), w);
      Below(k, h, w);
      ReprioritiseFrame(RevalueEvent(k, h, p), h, p, p);
  }

  lemma ReleaseReprioritised(k: Kernel, e: Event, t: Task)
    requires Inv(k) && Enabled(k, e) && (e.Inherit? || e.Disinherit? || e.DisinheritTimeout?)
    ensures Released(k, Step(k, e), t)
  {
    hide Inv, Enabled, Step;
    PriorityEffect(k, e, t);
    EventItemsStay(k, e);
  }

  predicate IsSignal(e: Event) { e.Signal? || e.Wake? || e.WakeFromISR? }

  /** Every step but those that block a task or, with the scheduler suspended,
      hold one back for the pending ready list. */
  lemma StepReleases(k: Kernel, e: Event, t: Task)
    requires Inv(k) && Enabled(k, e) && !IsBlockEvent(e) && !IsSignal(e)
    ensures Released(k, Step(k, e), t)
  {
    hide Timing, Bits, ReadyLists, Partition, Events, InReady, Shape, MoveToReady, RemoveEvent, AdvanceTick,
      Scheduler.ResumeAll,
      SwitchContext, PriorityInherit, PriorityDisinherit, DisinheritAfterTimeout;
    match e
    case Tick => ReleaseTick(k, t);
    case SuspendAll =>
    case CatchUp(_) =>
    case ResetItem =>
    case ResumeAll => ReleaseResumed(k, t);
    case SignalBits(u, v) =>
      EventTasksKnown(k, u);
      ReleaseOne(k.(eventValue := k.eventValue[u := InUse(v)]), u, t, k.tick);
    case Switch => ReleaseSwitch(k, t);
    case _ => ReleaseReprioritised(k, e, t);
  }

  lemma ReleaseSwitch(k: Kernel, t: Task)
    requires Core(k, k.tick)
    ensures Released(k, SwitchContext(k), t)
  {
    hide Timing, Bits, ReadyLists, Partition, Events, InReady, Highest, Advance, Owner;
  }

  /** xTaskRemoveFromEventList holds the task back exactly when it must. */
  lemma SignalReleases(k: Kernel, u: Task, t: Task)
    requires Inv(k) && Enabled(k, Signal(u))
    ensures k.suspended == 0 || t != u ==> Released(k, Step(k, Signal(u)), t)
    ensures k.suspended > 0 ==> u in Step(k, Signal(u)).pending && u !in Step(k, Signal(u)).eventOf
  {
    hide Timing, Bits, ReadyLists, Partition, Events, InReady, Shape, MoveToReady, RemoveEvent, Tasks;
    EventTasksKnown(k, u);
    RemoveEventKeeps(k, u, k.tick);
    RemoveEventFrame(k, u);
    EventsShrink(k, u);
    ReleaseOne(k, u, t, k.tick);
  }

  /** A task is on an event list because it was, or because it has just been placed there. */
  lemma StepEventOf(k: Kernel, e: Event, t: Task)
    requires Inv(k) && Enabled(k, e)
    ensures var k' := Step(k, e);
            t in k'.eventOf ==>
              || (t in k.eventOf && k'.eventOf[t] == k.eventOf[t])
              || ((e.Wait? || e.WaitBits?) && t == k.current && k'.eventOf[t] == e.event)
  {
    hide Core, Step, Blocked;
    if IsBlockEvent(e) {
      BlockedEventOf(k, e);
    } else if IsSignal(e) {
      SignalEventOf(k, e, t);
    } else {
      StepReleases(k, e, t);
    }
  }

  lemma BlockedEventOf(k: Kernel, e: Event)
    requires Inv(k) && Enabled(k, e) && IsBlockEvent(e)
    ensures Step(k, e).eventOf == if e.Delay? then k.eventOf else k.eventOf[k.current := e.event]
  {
    hide Timing, Bits, ReadyLists, Partition, Events, InReady, Shape, BlockCurrent;
    BlockForm(k, e.ticks);
  }

  lemma SignalEventOf(k: Kernel, e: Event, t: Task)
    requires Inv(k) && Enabled(k, e) && IsSignal(e)
    ensures var k' := Step(k, e); t in k'.eventOf ==> t in k.eventOf && k'.eventOf[t] == k.eventOf[t]
  {
    hide Timing, Bits, ReadyLists, Partition, Events, InReady, Shape, MoveToReady, RemoveEvent;
    match e
    case Signal(u) => SignalReleases(k, u, t);
    case Wake(u) => MoveFrame(k, u);
    case WakeFromISR(u) => MoveFrame(k, u);
  }

  lemma BlockedOnly(k: Kernel, n: nat, t: Task)
    requires Core(k, k.tick) && MayBlock(k)
    ensures var k' := BlockCurrent(k, n);
            && (Blocked(k', t) <==> t == k.current || Blocked(k, t))
            && k'.pending == k.pending && k'.eventOf == k.eventOf && k'.base == k.base && k'.current == k.current
  {
    hide Bits, ReadyLists, Partition, Timing, InReady, BlockCurrent, InsertSorted, Drop, Events, Shape;
    BlockForm(k, n);
    ReadyIsNotDelayed(k, k.current);
    var w := k.wake[k.current := (k.tick + n) % WRAP];
    InsertMembers(k.delayed, k.current, w);
    InsertMembers(k.overflow, k.current, w);
  }
}

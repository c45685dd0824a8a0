/** The time the kernel keeps: every wait ends on its tick, and no tick is lost. */
module WakeTimes {
  import opened Basics
  import opened Rings
  import opened Scheduler
  import opened Ticks
  import opened SchedulerSafety
  import opened SchedulerRuns

  /** Unbounded time: the ticks the kernel has counted since it started. */
  ghost function Clock(k: Kernel): nat { k.overflows * WRAP + k.tick }

  /** The unbounded time at which a blocked task is to be woken. */
  ghost function Due(k: Kernel, t: Task): nat {
    (if t in k.delayed then k.overflows else k.overflows + 1) * WRAP + At(k.wake, t)
  }

  /** `t` stays blocked, in the same list, with the same wake time. */
  ghost predicate StaysBlocked(k: Kernel, k': Kernel, t: Task) {
    (t in k.delayed <==> t in k'.delayed) && (t in k.overflow <==> t in k'.overflow) && At(k.wake, t) == At(k'.wake, t)
  }

  /** The step unblocks `t` because of an event rather than because of time. */
  ghost predicate Frees(k: Kernel, e: Event, t: Task) {
    match e
    case Signal(u) => u == t && k.suspended == 0
    case SignalBits(u, _) => u == t
    case Wake(u) => u == t
    case WakeFromISR(u) => u == t && k.suspended == 0
    case ResumeAll => k.suspended == 1 && t in k.pending
    case _ => false
  }

  lemma MoveEffect(k: Kernel, u: Task, t: Task, lo: int)
    requires Core(k, lo) && u in k.priority && Blocked(k, t)
    ensures u == t ==> !Blocked(MoveToReady(k, u), t)
    ensures u != t ==> StaysBlocked(k, MoveToReady(k, u), t)
  {
    MoveToReadyLists(k, u);
    hide Core;
  }

  lemma BlockEffect(k: Kernel, n: nat, t: Task)
    requires Core(k, k.tick) && MayBlock(k) && Blocked(k, t)
    ensures StaysBlocked(k, BlockCurrent(k, n), t)
  {
    hide Bits, ReadyLists, Timing, InReady, BlockCurrent, InsertSorted, Drop, NoDuplicates, Events;
    ReadyIsNotDelayed(k, k.current);
    BlockForm(k, n);
    BlockedLists(k, n);
  }

  lemma RepriorityEffect(k: Kernel, u: Task, p: nat, cleared: nat, t: Task)
    requires Core(k, k.tick) && u in k.priority && p < MAX_PRIORITIES
    ensures StaysBlocked(k, Reprioritise(k, u, p, cleared), t)
  {
    hide Timing, Bits, ReadyLists, Partition, Events, Drop, InsertEnd, Without;
    if InReady(k.ready, k.priority, u) {
      RepriorityForm(k, u, p, cleared);
    }
  }

  lemma SignalEffect(k: Kernel, u: Task, t: Task)
    requires Core(k, k.tick) && u in k.priority && Blocked(k, t)
    ensures u == t ==> !Blocked(MoveToReady(RemoveEvent(k, u), u), t)
    ensures u != t ==> StaysBlocked(k, MoveToReady(RemoveEvent(k, u), u), t)
  {
    hide Timing, Bits, ReadyLists, Partition, InReady, Events, MoveToReady, Without;
    RemoveEventKeeps(k, u, k.tick);
    MoveEffect(RemoveEvent(k, u), u, t, k.tick);
  }

  /** Steps that leave the clock alone unblock exactly the task they are for. */
  lemma StepEffect(k: Kernel, e: Event, t: Task)
    requires Inv(k) && Enabled(k, e) && !IsClockEvent(e) && Blocked(k, t)
    ensures if Frees(k, e, t) then !Blocked(Step(k, e), t) else StaysBlocked(k, Step(k, e), t)
  {
    hide Timing, Bits, ReadyLists, Partition, InReady, BlockCurrent, MoveToReady, Reprioritise, Without;
    match e
    case Delay(n) => BlockEffect(k, n, t);
    case Wait(_, n) => BlockEffect(k, n, t);
    case WaitBits(_, _, n) => BlockEffect(k, n, t);
    case Signal(u) =>
      EventTasksKnown(k, u);
      SignalEffect(k, u, t);
    case SignalBits(u, v) =>
      EventTasksKnown(k, u);
      SignalEffect(k.(eventValue := k.eventValue[u := InUse(v)]), u, t);
    case Wake(u) => MoveEffect(k, u, t, k.tick);
    case WakeFromISR(u) => MoveEffect(k, u, t, k.tick);
    case ResetItem =>
    case Switch =>
    case _ => PriorityEffect(k, e, t);
  }

  lemma PriorityEffect(k: Kernel, e: Event, t: Task)
    requires Inv(k) && Enabled(k, e) && (e.Inherit? || e.Disinherit? || e.DisinheritTimeout?)
    ensures StaysBlocked(k, Step(k, e), t)
  {
    hide Reprioritise, Timing, Bits, ReadyLists, Partition, Events, InReady;
    match e
    case Inherit(h) =>
      var p := Priority(k, k.current);
      assert Core(RevalueEvent(k, h, p), k.tick);
      RepriorityEffect(RevalueEvent(k, h, p), h, p, Priority(k, h), t);
    case Disinherit =>
      var u, p := k.current, At(k.base, k.current);
      var k1 := k.(eventValue := k.eventValue[u := MAX_PRIORITIES - p]);
      assert Core(k1, k.tick);
      RepriorityEffect(k1, u, p, Priority(k, u), t);
    case DisinheritTimeout(h, w) =>
      var p := Larger(At(k.base, h), w);
      assert Core(RevalueEvent(k, h, p), k.tick);
      RepriorityEffect(RevalueEvent(k, h, p), h, p, p, t);
  }

  lemma UnblockHeadEffect(k: Kernel, t: Task, lo: int)
    requires Core(k, lo) && k.delayed != []
    ensures var k' := UnblockHead(k);
            (t in k'.delayed <==> t != k.delayed[0] && t in k.delayed) && (t in k'.overflow <==> t in k.overflow)
  {
    hide Timing, Bits, ReadyLists, MoveToReady, RemoveEvent;
    var h := k.delayed[0];
    assert h in k.delayed;
    RemoveEventKeeps(k, h, lo);
    RemoveEventFrame(k, h);
    MoveToReadyLists(RemoveEvent(k, h), h);
  }

  lemma RemoveEventFrame(k: Kernel, t: Task)
    requires Typed(k)
    ensures RemoveEvent(k, t) == k.(pending := RemoveEvent(k, t).pending, eventOf := RemoveEvent(k, t).eventOf)
  {
  }

  /** The unblocking loop takes out exactly the tasks whose wake time has come. */
  lemma {:induction false} UnblockDueEffect(k: Kernel, t: Task)
    requires Core(k, k.tick - 1)
    ensures var k' := UnblockDue(k);
            (t in k'.delayed <==> t in k.delayed && At(k.wake, t) > k.tick) && (t in k'.overflow <==> t in k.overflow)
    decreases |k.delayed|
  {
    hide Bits, ReadyLists, Partition, Events, InReady, UnblockHead;
    if k.delayed != [] {
      HeadIsFirst(k.delayed, k.wake);
      if At(k.wake, k.delayed[0]) <= k.tick {
        UnblockHeadFrame(k);
        UnblockHeadKeeps(k, k.tick - 1);
        UnblockHeadEffect(k, t, k.tick - 1);
        UnblockDueEffect(UnblockHead(k), t);
      }
    }
  }

  /** The clock after one more tick, the delayed lists exchanged if it wrapped. */
  ghost function TurnClock(k: Kernel): (k': Kernel)
    requires Typed(k)
    ensures Typed(k')
  {
    var k1 := k.(tick := (k.tick + 1) % WRAP);
    if k1.tick == 0 then SwitchDelayedLists(k1) else k1
  }

  lemma TurnClockKeeps(k: Kernel)
    requires Core(k, k.tick)
    ensures Core(TurnClock(k), TurnClock(k).tick - 1)
  {
    hide Bits, ReadyLists, Partition, Events, InReady;
    var k1 := k.(tick := (k.tick + 1) % WRAP);
    if k1.tick == 0 {
      SwitchListsKeeps(k1);
    }
  }

  /** Wake times of the current list lie ahead, so it is empty at the wrap. */
  lemma WakeRange(k: Kernel, t: Task)
    requires Core(k, k.tick)
    ensures k.tick < WRAP && !(t in k.delayed && t in k.overflow)
    ensures t in k.delayed ==> k.tick < At(k.wake, t) < WRAP
    ensures k.tick == MAX_DELAY ==> k.delayed == []
  {
    hide Bits, ReadyLists, Events, InReady;
    if k.tick == MAX_DELAY {
      EmptyAtSwitch(k.(tick := 0));
    }
  }

  /** From k to k' one tick passes and no wake time moves, in unbounded terms. */
  ghost predicate OneTick(k: Kernel, k': Kernel, t: Task) {
    && Clock(k') == Clock(k) + 1
    && (Blocked(k, t) <==> Blocked(k', t))
    && (Blocked(k, t) ==> Due(k', t) == Due(k, t) > Clock(k))
    && (t in k'.overflow ==> t !in k'.delayed)
  }

  /** Neither between two wraps ... */
  lemma PlainTurn(k: Kernel, t: Task)
    requires k.tick + 1 < WRAP && !(t in k.delayed && t in k.overflow) && (t in k.delayed ==> k.tick < At(k.wake, t))
    ensures OneTick(k, k.(tick := k.tick + 1), t)
  {
  }

  /** ... nor by the exchange of the lists, which moves the epoch of those waiting. */
  lemma WrapTurn(k: Kernel, t: Task)
    requires k.tick == MAX_DELAY && k.delayed == []
    ensures OneTick(k, SwitchDelayedLists(k.(tick := 0)), t)
  {
  }

  lemma TurnClockEffect(k: Kernel, t: Task)
    requires Core(k, k.tick)
    ensures OneTick(k, TurnClock(k), t)
  {
    hide Typed, Timing, Bits, ReadyLists, Partition, Events, InReady, Tasks, OneTick, SwitchDelayedLists;
    WakeRange(k, t);
    if k.tick == MAX_DELAY { WrapTurn(k, t); } else { PlainTurn(k, t); }
  }

  /** What the comparison with the cached unblock time and the loop achieve. */
  lemma UnblockEffect(k: Kernel, t: Task)
    requires Core(k, k.tick - 1)
    ensures var k' := if k.tick >= k.nextUnblock then UnblockDue(k) else k;
            && (t in k'.delayed <==> t in k.delayed && At(k.wake, t) > k.tick)
            && (t in k'.overflow <==> t in k.overflow)
            && k'.tick == k.tick && k'.overflows == k.overflows && k'.wake == k.wake
  {
    hide Bits, ReadyLists, Partition, Events, InReady, UnblockDue;
    UnblockDueFrame(k);
    UnblockDueEffect(k, t);
  }

  /** One counted tick: a blocked task becomes ready exactly when its time comes. */
  lemma AdvanceTickEffect(k: Kernel, t: Task)
    requires Core(k, k.tick)
    ensures var k' := AdvanceTick(k);
            && Clock(k') == Clock(k) + 1
            && (Blocked(k, t) ==> Due(k, t) > Clock(k))
            && (Blocked(k', t) <==> Blocked(k, t) && Due(k, t) != Clock(k'))
            && (Blocked(k', t) ==> Due(k', t) == Due(k, t))
  {
    hide Timing, Bits, ReadyLists, Partition, Events, InReady, Tasks, WellFormed, UnblockDue, SwitchDelayedLists;
    TurnClockKeeps(k);
    TurnClockEffect(k, t);
    UnblockEffect(TurnClock(k), t);
    TickWraps(TurnClock(k), t);
  }

  lemma TickWraps(k: Kernel, t: Task)
    requires Core(k, k.tick - 1)
    ensures k.tick < WRAP && (Blocked(k, t) ==> At(k.wake, t) < WRAP)
  {
    hide Bits, ReadyLists, Partition, Events, InReady;
  }

  lemma {:induction false} AdvanceTicksEffect(k: Kernel, n: nat, t: Task)
    requires Core(k, k.tick)
    ensures var k' := AdvanceTicks(k, n);
            && Clock(k') == Clock(k) + n
            && (Blocked(k', t) <==> Blocked(k, t) && Due(k, t) > Clock(k'))
            && (Blocked(k', t) ==> Due(k', t) == Due(k, t))
            && k'.base == k.base
    decreases n
  {
    hide Timing, Bits, ReadyLists, Partition, Events, InReady, AdvanceTick, Due;
    AdvanceTickEffect(k, t);
    if n > 0 {
      AdvanceTickKeeps(k);
      AdvanceTickFrame(k);
      AdvanceTicksEffect(AdvanceTick(k), n - 1, t);
    }
  }

  lemma {:induction false} DrainEffect(k: Kernel, t: Task, lo: int)
    requires Core(k, lo)
    ensures var k' := DrainPending(k);
            && (t in k'.delayed <==> t in k.delayed && t !in k.pending)
            && (t in k'.overflow <==> t in k.overflow && t !in k.pending)
    decreases |k.pending|
  {
    hide Timing, Bits, ReadyLists, Partition, InReady, MoveToReady, RemoveEvent;
    if k.pending != [] {
      var u := k.pending[0];
      assert u in k.pending;
      var k1 := RemoveEvent(k, u);
      RemoveEventKeeps(k, u, lo);
      RemoveEventFrame(k, u);
      assert u !in k1.eventOf by { EventRemoved(k, u); }
      MoveToReadyKeeps(k1, u, lo);
      MoveToReadyLists(k1, u);
      MoveToReadyFrame(k1, u);
      DrainEffect(MoveToReady(k1, u), t, lo);
    }
  }

  lemma EventRemoved(k: Kernel, u: Task)
    requires Typed(k)
    ensures u !in RemoveEvent(k, u).eventOf
  {
  }

  lemma MoveToReadyFrame(k: Kernel, u: Task)
    requires Typed(k)
    ensures MoveToReady(k, u).pending == k.pending
  {
  }

  /** The pending ready list drained and the next unblock time recomputed. */
  ghost function Drained(k: Kernel): (k': Kernel)
    requires Typed(k)
    ensures Typed(k')
  {
    if k.pending == [] then DrainPending(k) else ResetNextUnblock(DrainPending(k))
  }

  lemma DrainedEffect(k: Kernel, t: Task)
    requires Core(k, k.tick)
    ensures var k' := Drained(k);
            && Core(k', k.tick) && k'.tick == k.tick && k'.overflows == k.overflows && k'.pended == k.pended
            && k'.wake == k.wake && k'.base == k.base
            && (t in k'.delayed <==> t in k.delayed && t !in k.pending)
            && (t in k'.overflow <==> t in k.overflow && t !in k.pending)
  {
    hide Timing, Bits, ReadyLists, Partition, Events, InReady, DrainPending, ResetNextUnblock, WellFormed, Tasks;
    DrainPendingKeeps(k, k.tick);
    DrainEffect(k, t, k.tick);
    ResetNextKeeps(DrainPending(k), k.tick);
    ResetFrame(DrainPending(k));
  }

  /** The outermost resume: woken tasks first, then the ticks held back. */
  lemma CaughtUp(k: Kernel, t: Task)
    requires Core(k, k.tick)
    ensures var k' := AdvanceTicks(Drained(k), k.pended);
            && Clock(k') == Clock(k) + k.pended && k'.base == k.base
            && (Blocked(k', t) <==> Blocked(k, t) && t !in k.pending && Due(k, t) > Clock(k'))
            && (Blocked(k', t) ==> Due(k', t) == Due(k, t))
  {
    hide Timing, Bits, ReadyLists, Partition, Events, InReady, AdvanceTicks, Drained, Typed, Tasks;
    DrainedEffect(k, t);
    AdvanceTicksEffect(Drained(k), k.pended, t);
  }

  lemma ResumeForm(k: Kernel)
    requires Typed(k) && k.suspended > 0
    ensures var k1 := k.(suspended := k.suspended - 1);
            Scheduler.ResumeAll(k) == if k.suspended > 1 then k1 else AdvanceTicks(Drained(k1), k.pended).(pended := 0)
  {
    hide AdvanceTicks, WellFormed;
    DrainKeepsPended(k.(suspended := k.suspended - 1));
  }

  lemma {:induction false} DrainKeepsPended(k: Kernel)
    requires Typed(k)
    ensures DrainPending(k).pended == k.pended
    decreases |k.pending|
  {
    hide Drop, InsertEnd, Typed;
    if k.pending != [] {
      DrainKeepsPended(MoveToReady(RemoveEvent(k, k.pending[0]), k.pending[0]));
    }
  }

  lemma DueAhead(k: Kernel, t: Task)
    requires Core(k, k.tick) && Blocked(k, t)
    ensures Due(k, t) > Clock(k)
  {
    hide Typed, Timing, Bits, ReadyLists, Partition, Events, InReady, Tasks;
    WakeRange(k, t);
  }

  lemma ResumeAllEffect(k: Kernel, t: Task)
    requires Inv(k) && k.suspended > 0
    ensures var k' := Scheduler.ResumeAll(k);
            && Clock(k') == Clock(k) + (if k.suspended == 1 then k.pended else 0)
            && (Blocked(k', t) <==> Blocked(k, t) && !Frees(k, ResumeAll, t) && Due(k, t) > Clock(k'))
            && (Blocked(k', t) ==> Due(k', t) == Due(k, t))
            && k'.pended == (if k.suspended == 1 then 0 else k.pended) && k'.base == k.base
  {
    hide Timing, Bits, ReadyLists, Partition, Events, InReady, Drained, AdvanceTicks, Scheduler.ResumeAll, Typed, Tasks;
    var k1 := k.(suspended := k.suspended - 1);
    CoreSuspended(k, k1);
    ResumeForm(k);
    CaughtUp(k1, t);
    if Blocked(k, t) { DueAhead(k, t); }
  }

  /** Time never runs backwards, and only counted ticks move it. */
  lemma StepClock(k: Kernel, e: Event)
    requires Inv(k) && Enabled(k, e)
    ensures Clock(Step(k, e)) >= Clock(k)
  {
    hide Inv, IncrementTick, Scheduler.ResumeAll;
    match e
    case Tick => TickEffect(k, k.current);
    case SuspendAll =>
    case CatchUp(_) =>
    case ResumeAll => ResumeAllEffect(k, k.current);
    case _ => StepFrame(k, e); hide Step;
  }

  lemma TickEffect(k: Kernel, t: Task)
    requires Inv(k)
    ensures var k' := IncrementTick(k);
            && Clock(k') == Clock(k) + (if k.suspended == 0 then 1 else 0)
            && (Blocked(k, t) ==> Due(k, t) > Clock(k))
            && (Blocked(k', t) <==> Blocked(k, t) && Due(k, t) > Clock(k'))
            && (Blocked(k', t) ==> Due(k', t) == Due(k, t))
            && (k.suspended == 0 ==> k'.pended == k.pended) && k'.base == k.base
  {
    hide Timing, Bits, ReadyLists, Partition, Events, InReady, AdvanceTick;
    AdvanceTickEffect(k, t);
    AdvanceTickFrame(k);
  }

  /** One step of a blocked task's wait: while no event frees it, it is blocked
      with an unchanged wake time if and only if that time lies ahead. */
  lemma WaitStep(k: Kernel, e: Event, t: Task)
    requires Inv(k) && Enabled(k, e) && Blocked(k, t) && !Frees(k, e, t)
    ensures var k' := Step(k, e);
            && Due(k, t) > Clock(k)
            && (Blocked(k', t) <==> Due(k, t) > Clock(k'))
            && (Blocked(k', t) ==> Due(k', t) == Due(k, t))
            && (e.Tick? && !Blocked(k', t) ==> Due(k, t) == Clock(k'))
  {
    hide IncrementTick, Scheduler.ResumeAll, Core;
    TickEffect(k, t);
    match e
    case Tick =>
    case SuspendAll =>
    case CatchUp(_) =>
    case ResumeAll => ResumeAllEffect(k, t);
    case _ =>
      StepFrame(k, e);
      StepEffect(k, e, t);
      hide Step;
  }

  predicate IsBlockEvent(e: Event) { e.Delay? || e.Wait? || e.WaitBits? }

  /** No step frees `t` as long as it is blocked; once it has been ready the run may do
      with it what it likes. */
  ghost predicate Undisturbed(k: Kernel, es: seq<Event>, t: Task)
    requires Inv(k) && Runs(k, es)
    decreases |es|
  {
    es == [] || !Blocked(k, t) || (!Frees(k, es[0], t)
                                   && (StepKeeps(k, es[0]); Undisturbed(Step(k, es[0]), es[1..], t)))
  }

  /** As long as the unbounded clock is short of its wake time, a task that no event
      frees is still blocked after the run.  Once the clock has reached it, the run has
      a first state with the clock there, and in that state the task is not blocked;
      when a tick interrupt led to it, the clock shows exactly the wake time. */
  lemma {:induction false} WaitRun(k: Kernel, es: seq<Event>, t: Task)
    requires Inv(k) && Runs(k, es) && Blocked(k, t) && Undisturbed(k, es, t)
    ensures Clock(Run(k, es)) < Due(k, t) ==> Blocked(Run(k, es), t) && Due(Run(k, es), t) == Due(k, t)
    ensures Clock(Run(k, es)) >= Due(k, t) ==> WokenOnTime(k, es, t, Due(k, t))
    decreases |es|
  {
    if es == [] {
      TickEffect(k, t);
    } else {
      hide Step, Clock, Due, Frees, Enabled, Inv;
      StepKeeps(k, es[0]);
      WaitStep(k, es[0], t);
      var k' := Step(k, es[0]);
      if Blocked(k', t) {
        WaitRun(k', es[1..], t);
      } else {
        TaskStaysReady(k, es[0], t);
        RunClock(k', es[1..]);
      }
    }
  }

  lemma TaskStaysReady(k: Kernel, e: Event, t: Task)
    requires Inv(k) && Enabled(k, e) && Inv(Step(k, e)) && Blocked(k, t) && !Blocked(Step(k, e), t)
    ensures InReady(Step(k, e).ready, Step(k, e).priority, t)
  {
    hide Step, Timing, Bits, ReadyLists, Events, InReady, Typed, Enabled;
    StepTasks(k, e);
  }

  /** No step creates or deletes a task. */
  lemma StepTasks(k: Kernel, e: Event)
    requires Inv(k) && Enabled(k, e)
    ensures Step(k, e).base == k.base
  {
    hide Core, AdvanceTick, Scheduler.ResumeAll;
    match e
    case Tick => TickEffect(k, k.current);
    case SuspendAll =>
    case CatchUp(_) =>
    case ResumeAll => ResumeAllEffect(k, k.current);
    case _ => StepFrame(k, e); hide Step;
  }

  ghost predicate WokenOnTime(k: Kernel, es: seq<Event>, t: Task, due: nat)
    requires Inv(k) && Runs(k, es)
    decreases |es|
  {
    es != [] && Clock(k) < due && (StepKeeps(k, es[0]);
      var k' := Step(k, es[0]);
      if Clock(k') < due then WokenOnTime(k', es[1..], t, due)
      else InReady(k'.ready, k'.priority, t) && (es[0].Tick? ==> Clock(k') == due))
  }

  lemma {:induction false} RunClock(k: Kernel, es: seq<Event>)
    requires Inv(k) && Runs(k, es)
    ensures Clock(Run(k, es)) >= Clock(k)
    decreases |es|
  {
    hide Clock, Step, Enabled, Inv;
    if es != [] {
      StepKeeps(k, es[0]);
      StepClock(k, es[0]);
      RunClock(Step(k, es[0]), es[1..]);
    }
  }

  // ------------------------------------------------------- the whole of a wait

  /** Blocking for n ticks sets the wake time n ticks ahead, across the wrap. */
  lemma BlockDue(k: Kernel, e: Event)
    requires Inv(k) && Enabled(k, e) && IsBlockEvent(e)
    ensures var k' := Step(k, e);
            Blocked(k', k.current) && Due(k', k.current) == Clock(k) + e.ticks && Clock(k') == Clock(k)
  {
    hide Bits, ReadyLists, Timing, Partition, InReady, BlockCurrent, InsertSorted, Drop, Events, Typed;
    ReadyIsNotDelayed(k, k.current);
    BlockForm(k, e.ticks);
    BlockedLists(k, e.ticks);
  }

  ghost predicate SleepsUndisturbed(k: Kernel, es: seq<Event>)
    requires Inv(k) && Runs(k, es) && es != []
  {
    StepKeeps(k, es[0]); Undisturbed(Step(k, es[0]), es[1..], k.current)
  }

  /** A task that blocks for n ticks at time T, and that no event frees, is blocked
      in every later state with the clock short of T + n, and the first step that
      brings the clock there has made it ready.  The clock is unbounded: this holds
      across any number of wraps of the 32-bit count. */
  lemma ExactWake(k: Kernel, es: seq<Event>)
    requires Inv(k) && Runs(k, es) && es != [] && IsBlockEvent(es[0]) && SleepsUndisturbed(k, es)
    ensures if Clock(Run(k, es)) < Clock(k) + es[0].ticks then Blocked(Run(k, es), k.current)
            else WokenOnTime(k, es, k.current, Clock(k) + es[0].ticks)
  {
    hide Step, Clock, Due, Inv, Blocked, Enabled, Frees;
    StepKeeps(k, es[0]);
    BlockDue(k, es[0]);
    WaitRun(Step(k, es[0]), es[1..], k.current);
  }

  // ----------------------------------------------------------- tick accounting

  /** Ticks counted plus ticks held back for xTaskResumeAll. */
  ghost function TicksSeen(k: Kernel): nat { Clock(k) + k.pended }

  /** The ticks a step delivers to the kernel. */
  function Delivers(e: Event): nat {
    match e
    case Tick => 1
    case CatchUp(n) => n
    case _ => 0
  }

  /** The 32-bit counter of held-back ticks has no room for what is delivered. */
  ghost predicate PendedWraps(k: Kernel, e: Event) { k.suspended > 0 && k.pended + Delivers(e) >= WRAP }

  ghost predicate Bounded(k: Kernel) { k.pended < WRAP }

  /** Every tick delivered is counted or held back, and nothing else adds or loses
      any, unless the counter of held-back ticks wraps: then 2^32 are lost. */
  lemma StepTicks(k: Kernel, e: Event)
    requires Inv(k) && Enabled(k, e) && Bounded(k)
    ensures Bounded(Step(k, e))
    ensures TicksSeen(Step(k, e)) + (if PendedWraps(k, e) then WRAP else 0) == TicksSeen(k) + Delivers(e)
  {
    hide AdvanceTick, Scheduler.ResumeAll, Core;
    match e
    case Tick => TickEffect(k, k.current);
    case SuspendAll =>
    case CatchUp(_) =>
    case ResumeAll => ResumeAllEffect(k, k.current);
    case _ => StepFrame(k, e); hide Step;
  }

  function Delivered(es: seq<Event>): nat {
    if es == [] then 0 else Delivers(es[0]) + Delivered(es[1..])
  }

  ghost function Losses(k: Kernel, es: seq<Event>): nat
    requires Inv(k) && Runs(k, es)
    decreases |es|
  {
    if es == [] then 0
    else StepKeeps(k, es[0]); (if PendedWraps(k, es[0]) then 1 else 0) + Losses(Step(k, es[0]), es[1..])
  }

  /** Conservation of time over every run. */
  lemma {:induction false} TicksConserved(k: Kernel, es: seq<Event>)
    requires Inv(k) && Runs(k, es) && Bounded(k)
    ensures TicksSeen(Run(k, es)) + WRAP * Losses(k, es) == TicksSeen(k) + Delivered(es)
    decreases |es|
  {
    hide Step, TicksSeen, Enabled, Inv, Bounded, PendedWraps, Delivers;
    if es != [] {
      StepKeeps(k, es[0]);
      StepTicks(k, es[0]);
      TicksConserved(Step(k, es[0]), es[1..]);
    }
  }

  /** Two calls and one interrupt under one suspension: 2^32 ticks are delivered, and
      none of them is seen. */
  lemma PendedTicksLost(k: Kernel)
    requires Inv(k) && k.suspended == 0
    ensures var es := [SuspendAll, CatchUp(MAX_DELAY), Tick];
            Runs(k, es) && Delivered(es) == WRAP && TicksSeen(Run(k, es)) == TicksSeen(k)
  {
    hide Core;
    var es := [SuspendAll, CatchUp(MAX_DELAY), Tick];
    assert es[1..] == [CatchUp(MAX_DELAY), Tick] && es[1..][1..] == [Tick] && es[1..][1..][1..] == [];
    var k1 := Step(k, SuspendAll);
    StepKeeps(k, SuspendAll);
    var k2 := Step(k1, CatchUp(MAX_DELAY));
    StepKeeps(k1, CatchUp(MAX_DELAY));
    StepKeeps(k2, Tick);
    var k3 := Step(k2, Tick);
    assert Runs(k3, []) && Run(k3, []) == k3;
    assert Runs(k2, [Tick]) && Run(k2, [Tick]) == k3;
    assert Runs(k1, es[1..]) && Run(k1, es[1..]) == k3;
    assert Delivered([Tick]) == 1 && Delivered(es[1..]) == WRAP;
  }

  /** With the scheduler running, no tick is held back, no woken task is kept
      waiting and no blocked task is overdue; so the clock shows every interrupt. */
  lemma NothingHeldBack(k: Kernel, es: seq<Event>, t: Task)
    requires Inv(k) && k.suspended == 0 && Runs(k, es)
    requires Run(k, es).suspended == 0 && Losses(k, es) == 0
    ensures var k' := Run(k, es);
            && Clock(k') == Clock(k) + Delivered(es) && k'.pending == []
            && (Blocked(k', t) ==> Due(k', t) > Clock(k'))
  {
    hide Core, Run, Runs;
    TicksConserved(k, es);
    TickEffect(Run(k, es), t);
  }
}

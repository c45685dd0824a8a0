/** The event list item of a task blocked on an event group holds the bits it waits
    for; a change of its priority must not overwrite them. */
module StoredBits {
  import opened Basics
  import opened Rings
  import opened Scheduler
  import opened SchedulerSafety
  import opened SchedulerRuns
  import opened WakeTimes

  /** The only steps that write the item value on purpose: the task's own bits are
      delivered, or it runs, and gives back a mutex, stores bits or reads its item. */
  predicate Rewrites(k: Kernel, e: Event, t: Task) {
    (e.SignalBits? && e.task == t) || ((e.Disinherit? || e.WaitBits? || e.ResetItem?) && k.current == t)
  }

  lemma {:induction false} TicksKeepValue(k: Kernel, n: nat)
    requires Core(k, k.tick)
    ensures AdvanceTicks(k, n).eventValue == k.eventValue && AdvanceTicks(k, n).priority == k.priority
    decreases n
  {
    hide Timing, Bits, ReadyLists, Partition, Events, InReady, Shape, Tasks, AdvanceTick;
    if n > 0 {
      AdvanceTickKeeps(k);
      AdvanceTickFrame(k);
      TicksKeepValue(AdvanceTick(k), n - 1);
    }
  }

  lemma ResumeKeepsValue(k: Kernel)
    requires Inv(k) && k.suspended > 0
    ensures Scheduler.ResumeAll(k).eventValue == k.eventValue && Scheduler.ResumeAll(k).priority == k.priority
  {
    hide Timing, Bits, ReadyLists, Partition, Events, InReady, DrainPending, AdvanceTicks, ResetNextUnblock, Shape,
      Tasks;
    var k1 := k.(suspended := k.suspended - 1);
    CoreSuspended(k, k1);
    if k1.suspended == 0 {
      DrainPendingKeeps(k1, k1.tick);
      DrainedEffect(k1, k.current);
      ResetFrame(DrainPending(k1));
      ResumeForm(k);
      TicksKeepValue(Drained(k1), k.pended);
    }
  }

  lemma PriorityKeepsValue(k: Kernel, e: Event, t: Task)
    requires Inv(k) && Enabled(k, e) && (e.Inherit? || e.Disinherit? || e.DisinheritTimeout?)
    requires At(k.eventValue, t) >= VALUE_IN_USE && !Rewrites(k, e, t)
    ensures At(Step(k, e).eventValue, t) == At(k.eventValue, t)
  {
    hide Reprioritise, Timing, Bits, ReadyLists, Partition, Events, InReady, Shape, Tasks;
    match e
    case Inherit(h) =>
      var p := Priority(k, k.current);
      Below(k, k.current, 0);
      ReprioritiseFrame(RevalueEvent(k, h, p), h, p, Priority(k, h));
    case Disinherit =>
      var u, p := k.current, At(k.base, k.current);
      Below(k, u, 0);
      ReprioritiseFrame(k.(eventValue := k.eventValue[u := MAX_PRIORITIES - p]), u, p, Priority(k, u));
    case DisinheritTimeout(h, w) =>
      var p := Larger(At(k.base, h), w);
      Below(k, h, w);
      ReprioritiseFrame(RevalueEvent(k, h, p), h, p, p);
  }

  /** No other step touches it: inheriting and disinheriting see that it is in use. */
  lemma StepKeepsValue(k: Kernel, e: Event, t: Task)
    requires Inv(k) && Enabled(k, e) && At(k.eventValue, t) >= VALUE_IN_USE && !Rewrites(k, e, t)
    ensures At(Step(k, e).eventValue, t) == At(k.eventValue, t)
  {
    hide Timing, Bits, ReadyLists, Events, Shape, InReady, Tasks, AdvanceTick, Scheduler.ResumeAll, BlockCurrent,
      PriorityInherit, PriorityDisinherit, DisinheritAfterTimeout, MoveToReady, SwitchContext;
    match e
    case Tick => AdvanceTickFrame(k);
    case ResumeAll => ResumeKeepsValue(k);
    case Delay(n) => BlockKeepsValue(k, n);
    case Wait(_, n) => BlockKeepsValue(k, n);
    case WaitBits(_, _, n) => BlockKeepsValue(k, n);
    case Signal(u) => MoveKeepsValue(RemoveEvent(k, u), u);
    case SignalBits(u, v) => MoveKeepsValue(RemoveEvent(k.(eventValue := k.eventValue[u := InUse(v)]), u), u);
    case Wake(u) => MoveKeepsValue(k, u);
    case WakeFromISR(u) => MoveKeepsValue(k, u);
    case Switch => SwitchKeepsValue(k);
    case Inherit(_) => PriorityKeepsValue(k, e, t);
    case Disinherit => PriorityKeepsValue(k, e, t);
    case DisinheritTimeout(_, _) => PriorityKeepsValue(k, e, t);
    case _ =>
  }

  lemma RunningIsNotBlocked(k: Kernel, e: Event)
    requires Inv(k) && Enabled(k, e) && (e.Disinherit? || e.WaitBits? || e.ResetItem?)
    ensures !Blocked(k, k.current)
  {
    hide Timing, Bits, ReadyLists, Events, InReady;
    ReadyIsNotDelayed(k, k.current);
  }

  /** Such a step finds the task running, or ends its wait. */
  lemma RewriteEnds(k: Kernel, e: Event, t: Task)
    requires Inv(k) && Enabled(k, e) && Blocked(k, t)
    ensures Rewrites(k, e, t) ==> !Blocked(Step(k, e), t)
  {
    hide Inv, Enabled, Step, Blocked;
    if e.SignalBits? { StepEffect(k, e, t); }
    if e.Disinherit? || e.WaitBits? || e.ResetItem? { RunningIsNotBlocked(k, e); }
  }

  ghost predicate WaitsThrough(k: Kernel, es: seq<Event>, t: Task)
    requires Inv(k) && Runs(k, es)
    decreases |es|
  {
    Blocked(k, t) && (es == [] || (StepKeeps(k, es[0]); WaitsThrough(Step(k, es[0]), es[1..], t)))
  }

  /** Over any run through which a task stays blocked, with its priority raised and
      lowered any number of times, the stored bits are the ones it stored. */
  lemma {:induction false} StoredBitsSurvive(k: Kernel, es: seq<Event>, t: Task)
    requires Inv(k) && Runs(k, es) && WaitsThrough(k, es, t) && At(k.eventValue, t) >= VALUE_IN_USE
    ensures At(Run(k, es).eventValue, t) == At(k.eventValue, t)
    decreases |es|
  {
    hide Step, Inv, Enabled, Blocked, Rewrites, At;
    if es != [] {
      StepKeeps(k, es[0]);
      RewriteEnds(k, es[0], t);
      StepKeepsValue(k, es[0], t);
      StoredBitsSurvive(Step(k, es[0]), es[1..], t);
    }
  }

  // ------------------------------------------------- the value behind a priority

  /** Unless an event group uses it, the item value is the one that sorts the task by
      its effective priority into the event list of a queue. */
  predicate Follows(priority: map<Task, nat>, value: map<Task, nat>, t: Task) {
    t in priority ==> At(value, t) >= VALUE_IN_USE || At(value, t) == MAX_PRIORITIES - priority[t]
  }

  lemma BothFollow(priority: map<Task, nat>, value: map<Task, nat>, t: Task, u: Task, p: nat)
    requires Follows(priority, value, t) && p < MAX_PRIORITIES
    ensures Follows(priority[u := p], value[u := MAX_PRIORITIES - p], t)
    ensures At(value, u) >= VALUE_IN_USE ==> Follows(priority[u := p], value, t)
  {
  }

  lemma ReprioritisedTo(k: Kernel, t: Task, p: nat, cleared: nat)
    requires Typed(k) && p < MAX_PRIORITIES
    ensures var k' := Reprioritise(k, t, p, cleared); k'.priority == k.priority[t := p] && k'.eventValue == k.eventValue
  {
    hide RemoveState, AddToReady, WellFormed;
    if IsReady(k, t) {
      RemoveKeepsValue(k, t);
      var k1 := RemoveState(k, t);
      var k2 := if k1.ready[Priority(k, t)].items == [] then k1.(top := k1.top - {cleared}) else k1;
      AddKeepsValue(k2.(priority := k2.priority[t := p]), t);
    }
  }

  lemma RemoveKeepsValue(k: Kernel, t: Task)
    requires Typed(k)
    ensures RemoveState(k, t).priority == k.priority && RemoveState(k, t).eventValue == k.eventValue
  {
  }

  lemma AddKeepsValue(k: Kernel, t: Task)
    requires Typed(k)
    ensures AddToReady(k, t).priority == k.priority && AddToReady(k, t).eventValue == k.eventValue
  {
  }

  /** Moving a task to its ready list changes neither. */
  lemma MoveKeepsValue(k: Kernel, t: Task)
    requires Typed(k)
    ensures MoveToReady(k, t).priority == k.priority && MoveToReady(k, t).eventValue == k.eventValue
  {
    hide RemoveState, AddToReady, Shape;
    RemoveKeepsValue(k, t);
    AddKeepsValue(RemoveState(k, t), t);
  }

  lemma BlockKeepsValue(k: Kernel, n: nat)
    requires Inv(k) && MayBlock(k)
    ensures BlockCurrent(k, n).priority == k.priority && BlockCurrent(k, n).eventValue == k.eventValue
  {
    hide Timing, Bits, ReadyLists, Events, Partition, Shape, InReady, Tasks, BlockCurrent, Drop, InsertSorted;
    BlockForm(k, n);
  }

  lemma SwitchKeepsValue(k: Kernel)
    requires Core(k, k.tick)
    ensures SwitchContext(k).priority == k.priority && SwitchContext(k).eventValue == k.eventValue
  {
    hide Timing, Bits, ReadyLists, Events, Partition, Shape, InReady, Tasks, Highest;
  }

  /** A new priority with its value, unless an event group uses that. */
  lemma RevaluedFollows(k: Kernel, u: Task, p: nat, cleared: nat, t: Task)
    requires Typed(k) && p < MAX_PRIORITIES && Follows(k.priority, k.eventValue, t)
    ensures var k' := Reprioritise(RevalueEvent(k, u, p), u, p, cleared); Follows(k'.priority, k'.eventValue, t)
  {
    hide Reprioritise, Shape, Follows;
    BothFollow(k.priority, k.eventValue, t, u, p);
    ReprioritisedTo(RevalueEvent(k, u, p), u, p, cleared);
  }

  lemma PriorityFollows(k: Kernel, e: Event, t: Task)
    requires Inv(k) && Enabled(k, e) && (e.Inherit? || e.Disinherit? || e.DisinheritTimeout?)
    requires Follows(k.priority, k.eventValue, t)
    ensures var k' := Step(k, e); Follows(k'.priority, k'.eventValue, t)
  {
    hide Reprioritise, RevalueEvent, Timing, Bits, ReadyLists, Partition, Events, InReady, Shape, Tasks, Follows;
    match e
    case Inherit(h) =>
      Below(k, k.current, 0);
      RevaluedFollows(k, h, Priority(k, k.current), Priority(k, h), t);
    case Disinherit =>
      var u, p := k.current, At(k.base, k.current);
      Below(k, u, 0);
      BothFollow(k.priority, k.eventValue, t, u, p);
      ReprioritisedTo(k.(eventValue := k.eventValue[u := MAX_PRIORITIES - p]), u, p, Priority(k, u));
    case DisinheritTimeout(h, w) =>
      Below(k, h, w);
      RevaluedFollows(k, h, Larger(At(k.base, h), w), Larger(At(k.base, h), w), t);
  }

  lemma StepFollows(k: Kernel, e: Event, t: Task)
    requires Inv(k) && Enabled(k, e) && Follows(k.priority, k.eventValue, t)
    ensures var k' := Step(k, e); Follows(k'.priority, k'.eventValue, t)
  {
    hide Timing, Bits, ReadyLists, Events, Partition, Shape, InReady, Tasks, AdvanceTick, Scheduler.ResumeAll,
      BlockCurrent,
      PriorityInherit, PriorityDisinherit, DisinheritAfterTimeout, MoveToReady, SwitchContext;
    match e
    case Tick => AdvanceTickFrame(k);
    case ResumeAll => ResumeKeepsValue(k);
    case Delay(n) => BlockKeepsValue(k, n);
    case Wait(_, n) => BlockKeepsValue(k, n);
    case WaitBits(_, _, n) => BlockKeepsValue(k, n);
    case Signal(u) => MoveKeepsValue(RemoveEvent(k, u), u);
    case SignalBits(u, v) => MoveKeepsValue(RemoveEvent(k.(eventValue := k.eventValue[u := InUse(v)]), u), u);
    case Wake(u) => MoveKeepsValue(k, u);
    case WakeFromISR(u) => MoveKeepsValue(k, u);
    case Switch => SwitchKeepsValue(k);
    case Inherit(_) => PriorityFollows(k, e, t);
    case Disinherit => PriorityFollows(k, e, t);
    case DisinheritTimeout(_, _) => PriorityFollows(k, e, t);
    case _ =>
  }

  /** Through every inheritance and disinheritance of a run. */
  lemma {:induction false} ValuesFollowPriorities(k: Kernel, es: seq<Event>, t: Task)
    requires Inv(k) && Runs(k, es) && Follows(k.priority, k.eventValue, t)
    ensures var k' := Run(k, es); Follows(k'.priority, k'.eventValue, t)
    decreases |es|
  {
    hide Step, Inv, Enabled, Follows;
    if es != [] {
      StepKeeps(k, es[0]);
      StepFollows(k, es[0], t);
      ValuesFollowPriorities(Step(k, es[0]), es[1..], t);
    }
  }
}

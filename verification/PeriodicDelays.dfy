/** Tasks that run periodically by calls of xTaskDelayUntil, over whole runs of the
    scheduler. */
module PeriodicDelays {
  import opened Basics
  import opened Rings
  import opened Scheduler
  import opened Ticks
  import opened SchedulerSafety
  import opened SchedulerRuns
  import opened WakeTimes
  import opened EventItems
  import opened Timeouts

  // --------------------------------------------------- a delay that nobody cuts short

  /** A task that is blocked on time alone: its event item is in no list. */
  ghost predicate Asleep(k: Kernel, t: Task) { Blocked(k, t) && t !in k.eventOf && t !in k.pending }

  /** Nobody notifies the task while it is blocked. */
  ghost predicate NotNotified(k: Kernel, es: seq<Event>, t: Task)
    requires Inv(k) && Runs(k, es)
    decreases |es|
  {
    || es == [] || !Blocked(k, t)
    || (es[0] != Wake(t) && es[0] != WakeFromISR(t) && (StepKeeps(k, es[0]); NotNotified(Step(k, es[0]), es[1..], t)))
  }

  lemma BlockAddsCurrent(k: Kernel, e: Event, t: Task)
    requires Inv(k) && Enabled(k, e) && IsBlockEvent(e) && t != k.current
    ensures var k' := Step(k, e); (t in k'.eventOf <==> t in k.eventOf) && k'.pending == k.pending
  {
    hide Bits, ReadyLists, Timing, Partition, InReady, BlockCurrent, InsertSorted, Drop, Events, Typed;
    BlockForm(k, e.ticks);
  }

  lemma WakeAddsOne(k: Kernel, e: Event, t: Task)
    requires Inv(k) && Enabled(k, e) && (e.Wake? || e.WakeFromISR?) && t != e.task
    ensures var k' := Step(k, e); k'.eventOf == k.eventOf && (t in k'.pending ==> t in k.pending)
  {
    hide Bits, ReadyLists, Timing, Partition, InReady, Events, Shape, MoveToReady;
    MoveFrame(k, e.task);
  }

  /** No other step takes a sleeping task into a list, or frees it. */
  lemma SleepStep(k: Kernel, e: Event, t: Task)
    requires Inv(k) && Enabled(k, e) && Asleep(k, t) && e != Wake(t) && e != WakeFromISR(t)
    ensures !Frees(k, e, t)
    ensures t !in Step(k, e).eventOf && t !in Step(k, e).pending
  {
    hide Timing, Bits, ReadyLists, Events, Shape, InReady, Step;
    if IsBlockEvent(e) {
      ReadyIsNotDelayed(k, k.current);
      BlockAddsCurrent(k, e, t);
    } else if e.Signal? {
      SignalReleases(k, e.task, t);
    } else if IsSignal(e) {
      WakeAddsOne(k, e, t);
    } else {
      StepReleases(k, e, t);
    }
  }

  lemma {:induction false} SleepIsUndisturbed(k: Kernel, es: seq<Event>, t: Task)
    requires Inv(k) && Runs(k, es) && NotNotified(k, es, t) && (Blocked(k, t) ==> Asleep(k, t))
    ensures Undisturbed(k, es, t)
    decreases |es|
  {
    hide Inv, Step, Enabled, Frees, Blocked;
    if es != [] && Blocked(k, t) {
      StepKeeps(k, es[0]);
      SleepStep(k, es[0], t);
      SleepIsUndisturbed(Step(k, es[0]), es[1..], t);
    }
  }

  // ------------------------------------------------------------- runs of calls

  /** Inside xTaskDelayUntil, called by `t`: the scheduler is suspended. */
  ghost predicate AtCall(k: Kernel, t: Task) {
    Inv(k) && k.current == t && k.suspended == 1 && MayBlock(k) && t !in k.pending
  }

  lemma DelayTicks(previous: nat, increment: nat, now: nat)
    requires previous < WRAP && now < WRAP
    ensures var d := DelayUntil(previous, increment, now); d.previous < WRAP && (d.delay ==> 1 <= d.ticks <= MAX_DELAY)
  {
  }

  /** The state after the call has blocked, or not. */
  ghost function Called(k: Kernel, t: Task, previous: nat, increment: nat): (k': Kernel)
    requires AtCall(k, t) && previous < WRAP
    ensures Inv(k')
  {
    var d := DelayUntil(previous, increment, k.tick);
    DelayTicks(previous, increment, k.tick);
    if d.delay then StepKeeps(k, Delay(d.ticks)); Step(k, Delay(d.ticks)) else k
  }

  /** Calls of `t`, with any run of the kernel before each: `previous` is the wake time
      stored so far. */
  ghost predicate Periodic(k: Kernel, t: Task, previous: nat, increment: nat, gaps: seq<seq<Event>>)
    requires Inv(k) && previous < WRAP
    decreases |gaps|
  {
    || gaps == []
    || (&& Runs(k, gaps[0]) && NotNotified(k, gaps[0], t) && AtCall(Run(k, gaps[0]), t)
        && Periodic(Called(Run(k, gaps[0]), t, previous, increment), t, Stored(previous, increment), increment,
                    gaps[1..]))
  }

  /** At each call the task is less than 2^32 ticks behind its schedule. */
  ghost predicate KeepsUp(k: Kernel, t: Task, previous: nat, increment: nat, gaps: seq<seq<Event>>, ideal: nat)
    requires Inv(k) && previous < WRAP && Periodic(k, t, previous, increment, gaps)
    decreases |gaps|
  {
    || gaps == []
    || (&& Clock(Run(k, gaps[0])) < ideal + WRAP
        && KeepsUp(Called(Run(k, gaps[0]), t, previous, increment), t, Stored(previous, increment), increment,
                   gaps[1..], ideal + increment))
  }

  /** The state after i calls. */
  ghost function AfterCalls(k: Kernel, t: Task, previous: nat, increment: nat, gaps: seq<seq<Event>>,
                            i: nat): (k': Kernel)
    requires Inv(k) && previous < WRAP && Periodic(k, t, previous, increment, gaps) && i <= |gaps|
    ensures Inv(k')
    ensures i < |gaps| ==> Runs(k', gaps[i]) && AtCall(Run(k', gaps[i]), t)
    decreases |gaps|
  {
    if i == 0 then k
    else AfterCalls(Called(Run(k, gaps[0]), t, previous, increment), t, Stored(previous, increment), increment,
                    gaps[1..], i - 1)
  }

  function StoredAfter(previous: nat, increment: nat, i: nat): (r: nat)
    requires previous < WRAP
    ensures r < WRAP
    decreases i
  {
    if i == 0 then previous else StoredAfter(Stored(previous, increment), increment, i - 1)
  }

  /** The i-th wake time of a period that starts at `start`. */
  function Ideal(start: nat, increment: nat, i: nat): nat { start + i * increment }

  lemma IdealStep(start: nat, increment: nat, i: nat)
    ensures Ideal(start, increment, 0) == start
    ensures Ideal(start, increment, i + 1) == Ideal(start, increment, i) + increment
    ensures i > 0 ==> Ideal(start, increment, i) == Ideal(start + increment, increment, i - 1)
  {
  }

  /** Between two calls the task sleeps until its next wake time, or has passed it. */
  ghost predicate Resting(k: Kernel, t: Task, ideal: nat) {
    if Blocked(k, t) then Asleep(k, t) && Due(k, t) == ideal else Clock(k) >= ideal
  }

  /** The next call does not come before that time, and a task that slept was made
      ready when the clock reached it. */
  lemma NextCall(k: Kernel, t: Task, gap: seq<Event>, ideal: nat)
    requires Inv(k) && Runs(k, gap) && NotNotified(k, gap, t) && AtCall(Run(k, gap), t) && Resting(k, t, ideal)
    ensures Clock(Run(k, gap)) >= ideal
    ensures Blocked(k, t) ==> WokenOnTime(k, gap, t, ideal)
  {
    hide Timing, Bits, ReadyLists, Events, Shape, InReady, Runs, Run, NotNotified, Undisturbed, WokenOnTime, Clock, Due;
    ReadyIsNotDelayed(Run(k, gap), t);
    if Blocked(k, t) {
      SleepIsUndisturbed(k, gap, t);
      WaitRun(k, gap, t);
    } else {
      RunClock(k, gap);
    }
  }

  /** The call blocks exactly if its wake time lies ahead, and then until that time. */
  lemma OneCall(k: Kernel, t: Task, ideal: nat, increment: nat)
    requires AtCall(k, t) && ideal <= Clock(k) < ideal + WRAP && 1 <= increment < WRAP
    ensures var d := DelayUntil(Low(ideal), increment, k.tick);
            && (d.delay <==> ideal + increment > Clock(k)) && (d.delay ==> d.ticks == ideal + increment - Clock(k))
            && Stored(Low(ideal), increment) == Low(ideal + increment)
    ensures var k' := Called(k, t, Low(ideal), increment);
            Resting(k', t, ideal + increment) && (Blocked(k', t) <==> ideal + increment > Clock(k))
  {
    hide Timing, Bits, ReadyLists, Shape, Due, Clock, Low, DelayUntil, Step;
    ClockShows(k);
    DelayUntilExact(ideal, increment, Clock(k));
    LowSum(ideal, increment);
    ReadyIsNotDelayed(k, t);
    var d := DelayUntil(Low(ideal), increment, k.tick);
    if d.delay {
      DelayTicks(Low(ideal), increment, k.tick);
      BlockDue(k, Delay(d.ticks));
      DelayAddsNothing(k, d.ticks);
    }
  }

  lemma DelayAddsNothing(k: Kernel, n: nat)
    requires Inv(k) && Enabled(k, Delay(n))
    ensures Step(k, Delay(n)).eventOf == k.eventOf && Step(k, Delay(n)).pending == k.pending
  {
    hide Bits, ReadyLists, Timing, Partition, InReady, BlockCurrent, InsertSorted, Drop, Events, Typed;
    BlockForm(k, n);
  }

  lemma {:induction false} OnSchedule(k: Kernel, t: Task, ideal: nat, increment: nat, gaps: seq<seq<Event>>, i: nat)
    requires Inv(k) && 1 <= increment < WRAP && Resting(k, t, ideal)
    requires Periodic(k, t, Low(ideal), increment, gaps) && KeepsUp(k, t, Low(ideal), increment, gaps, ideal)
    requires i < |gaps|
    ensures StoredAfter(Low(ideal), increment, i) == Low(Ideal(ideal, increment, i))
    ensures var k' := AfterCalls(k, t, Low(ideal), increment, gaps, i);
            && Resting(k', t, Ideal(ideal, increment, i)) && NotNotified(k', gaps[i], t)
            && Clock(Run(k', gaps[i])) < Ideal(ideal, increment, i) + WRAP
    decreases |gaps|
  {
    hide Inv, AtCall, Resting, Runs, Run, NotNotified, Clock, Low, Called, Ideal;
    IdealStep(ideal, increment, i);
    if i > 0 {
      NextCall(k, t, gaps[0], ideal);
      OneCall(Run(k, gaps[0]), t, ideal, increment);
      OnSchedule(Called(Run(k, gaps[0]), t, Low(ideal), increment), t, ideal + increment, increment, gaps[1..], i - 1);
    }
  }

  /** A task that read the tick count as its start and then calls xTaskDelayUntil again
      and again, with whatever else happens in between.  Call i finds the stored wake
      time at the start plus i increments; it comes no earlier than that time, and if
      the task slept until then it became ready when the clock showed it; it blocks
      exactly if the next wake time lies ahead, and then until that time. */
  lemma NoDrift(k: Kernel, t: Task, increment: nat, gaps: seq<seq<Event>>, i: nat)
    requires Inv(k) && !Blocked(k, t) && 1 <= increment < WRAP
    requires Periodic(k, t, Low(Clock(k)), increment, gaps) && KeepsUp(k, t, Low(Clock(k)), increment, gaps, Clock(k))
    requires i < |gaps|
    ensures var stored, due, next := StoredAfter(Low(Clock(k)), increment, i), Ideal(Clock(k), increment, i),
            Ideal(Clock(k), increment, i + 1);
            var rest := AfterCalls(k, t, Low(Clock(k)), increment, gaps, i);
            var call := Run(rest, gaps[i]);
            && stored == Low(due) && Clock(call) >= due
            && (Blocked(rest, t) ==> WokenOnTime(rest, gaps[i], t, due))
            && (DelayUntil(stored, increment, call.tick).delay <==> next > Clock(call))
            && (next > Clock(call) ==>
                  && DelayUntil(stored, increment, call.tick).ticks == next - Clock(call)
                  && Blocked(Called(call, t, stored, increment), t)
                  && Due(Called(call, t, stored, increment), t) == next)
  {
    hide Inv, Resting, Runs, Run, NotNotified, Clock, Low, Called, Ideal, Periodic, KeepsUp, AtCall, AfterCalls,
      StoredAfter, WokenOnTime, DelayUntil;
    var start := Clock(k);
    StartsResting(k, t);
    OnSchedule(k, t, start, increment, gaps, i);
    IdealStep(start, increment, i);
    var rest := AfterCalls(k, t, Low(start), increment, gaps, i);
    NextCall(rest, t, gaps[i], Ideal(start, increment, i));
    OneCall(Run(rest, gaps[i]), t, Ideal(start, increment, i), increment);
    RestingDue(Called(Run(rest, gaps[i]), t, Low(Ideal(start, increment, i)), increment), t,
               Ideal(start, increment, i + 1));
  }

  lemma StartsResting(k: Kernel, t: Task)
    requires !Blocked(k, t)
    ensures Resting(k, t, Clock(k))
  {
  }

  lemma RestingDue(k: Kernel, t: Task, ideal: nat)
    requires Resting(k, t, ideal)
    ensures Blocked(k, t) ==> Due(k, t) == ideal
  {
  }
}

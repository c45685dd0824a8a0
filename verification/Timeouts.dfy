/** Timeouts and periodic delays, in 32-bit ticks against unbounded time. */
module Timeouts {
  import opened Scheduler
  import opened SchedulerSafety
  import opened SchedulerRuns
  import opened WakeTimes
  import opened Ticks

  /** xNumOfOverflows, itself 32 bits wide. */
  function Overflows(time: nat): nat { Epoch(time) % WRAP }

  // ------------------------------------------------------------------ timeouts

  /** The decision of xTaskCheckForTimeOut. */
  predicate Expires(entered: nat, count: nat, ticks: nat, now: nat, overflows: nat)
    requires entered < WRAP
  {
    (overflows != count && now >= entered) || Minus(now, entered) >= ticks
  }

  /** When that decision is right: always, unless a whole turn of the tick count has
      passed, what is left over falls short of the wait, and the turn does not show,
      because the count stands below the time of entry or has itself come round. */
  predicate TurnShows(start: nat, ticks: nat, time: nat)
    requires start <= time
  {
    var d := time - start;
    d < WRAP || d % WRAP >= ticks || (Low(time) >= Low(start) && (d / WRAP) % WRAP != 0)
  }

  /** Expiry is reported exactly when the wait is over, if and only if the turn shows. */
  lemma ExpiresExactly(start: nat, ticks: nat, time: nat)
    requires start <= time && ticks < WRAP
    ensures (Expires(Low(start), Overflows(start), ticks, Low(time), Overflows(time)) <==> time - start >= ticks)
            <==> TurnShows(start, ticks, time)
  {
    hide Low, Epoch;
    Elapsed(start, time);
    Turns(time - start);
    if Low(time) >= Low(start) { SameResidue(Epoch(start), Epoch(time)); }
  }

  lemma Turns(d: nat)
    ensures d / WRAP == 0 <==> d < WRAP
    ensures d == (d / WRAP) * WRAP + d % WRAP
  {
  }

  lemma SameResidue(a: nat, b: nat)
    requires a <= b
    ensures a % WRAP == b % WRAP <==> (b - a) % WRAP == 0
  {
  }

  lemma Elapsed(start: nat, time: nat)
    requires start <= time
    ensures (time - start) % WRAP == Minus(Low(time), Low(start))
    ensures (time - start) / WRAP == Epoch(time) - Epoch(start) - (if Low(time) < Low(start) then 1 else 0)
  {
    Split(start);
    Split(time);
  }

  /** One tick overflow at most since the timeout was set is enough. */
  lemma OneOverflow(start: nat, ticks: nat, time: nat)
    requires start <= time && Epoch(time) <= Epoch(start) + 1
    ensures TurnShows(start, ticks, time)
  {
    Split(start);
    Split(time);
    Elapsed(start, time);
  }

  /** A wait of nearly 2^32 ticks, looked at after nearly twice that time. */
  lemma HiddenTurn()
    ensures var start, time, ticks := 5, 2 * WRAP, MAX_DELAY;
            time - start >= ticks && !Expires(Low(start), Overflows(start), ticks, Low(time), Overflows(time))
  {
  }

  class TimeOut {
    var overflowCount: nat      // xOverflowCount
    var timeOnEntering: nat     // xTimeOnEntering
    ghost var since: nat        // the unbounded time they stand for

    ghost predicate Valid()
      reads this
    {
      overflowCount == Overflows(since) && timeOnEntering == Low(since)
    }

    /** vTaskSetTimeOutState */
    method Begin(tick: nat, overflows: nat, ghost time: nat)
      requires tick == Low(time) && overflows == Overflows(time)
      modifies this
      ensures Valid() && since == time
    {
      overflowCount, timeOnEntering, since := overflows, tick, time;
    }

    /** xTaskCheckForTimeOut: the time gone and the time left add up to the wait. */
    method Check(ticks: nat, tick: nat, overflows: nat, ghost time: nat) returns (expired: bool, left: nat)
      requires Valid() && tick == Low(time) && overflows == Overflows(time) && since <= time && ticks < WRAP
      modifies this
      ensures Valid()
      ensures (expired <==> time - old(since) >= ticks) <==> TurnShows(old(since), ticks, time)
      ensures expired ==> left == 0 && since == old(since)
      ensures !expired && TurnShows(old(since), ticks, time) ==>
              since == time && left > 0 && since + left == old(since) + ticks
    {
      hide Low, Epoch, Overflows, TurnShows;
      ExpiresExactly(since, ticks, time);
      Elapsed(since, time);
      Split(since);
      var elapsed := Minus(tick, timeOnEntering);
      if overflows != overflowCount && tick >= timeOnEntering {
        expired, left := true, 0;
      } else if elapsed < ticks {
        left := ticks - elapsed;
        Short(since, time, ticks);
        Begin(tick, overflows, time);
        expired := false;
      } else {
        expired, left := true, 0;
      }
    }
  }

  lemma Short(start: nat, time: nat, ticks: nat)
    requires start <= time && ticks < WRAP
    ensures TurnShows(start, ticks, time) && time - start < ticks ==> Minus(Low(time), Low(start)) == time - start
  {
    Elapsed(start, time);
  }

  /** The checks of one queue call, made at the given times: the start of the wait
      and the ticks left are rewritten by each that does not report expiry. */
  ghost function Checks(start: nat, ticks: nat, times: seq<nat>): (r: (bool, nat, nat))
    decreases |times|
  {
    if times == [] then (false, start, ticks)
    else if Expires(Low(start), Overflows(start), ticks, Low(times[0]), Overflows(times[0])) then (true, start, 0)
    else Checks(times[0], ticks - Minus(Low(times[0]), Low(start)), times[1..])
  }

  /** Times in order, at most one overflow between one and the next. */
  ghost predicate Close(start: nat, times: seq<nat>)
    decreases |times|
  {
    times == [] || (start <= times[0] && Epoch(times[0]) <= Epoch(start) + 1 && Close(times[0], times[1..]))
  }

  /** However often the call blocks again, expiry is reported at the first check at
      which the whole time asked for has passed, and until then the time gone and the
      time left add up to it. */
  lemma {:induction false} Telescopes(start: nat, ticks: nat, times: seq<nat>)
    requires 0 < ticks < WRAP && Close(start, times)
    ensures var r := Checks(start, ticks, times);
            && (r.0 <==> exists i :: 0 <= i < |times| && times[i] >= start + ticks)
            && (!r.0 ==> r.1 + r.2 == start + ticks && r.1 == if times == [] then start else times[|times| - 1])
    decreases |times|
  {
    if times != [] {
      hide Low, Epoch, Overflows, TurnShows, Expires;
      var t := times[0];
      OneOverflow(start, ticks, t);
      ExpiresExactly(start, ticks, t);
      Short(start, t, ticks);
      if t < start + ticks {
        Telescopes(t, ticks - (t - start), times[1..]);
        Shift(times, start + ticks);
      }
    }
  }

  lemma Shift(times: seq<nat>, due: nat)
    requires times != [] && times[0] < due
    ensures (exists i :: 0 <= i < |times| && times[i] >= due) <==>
            (exists i :: 0 <= i < |times[1..]| && times[1..][i] >= due)
  {
    if i :| 0 <= i < |times| && times[i] >= due {
      assert times[1..][i - 1] >= due;
    }
  }

  // ------------------------------------------------------------- periodic delay

  datatype Period = Period(delay: bool, previous: nat, ticks: nat)

  /** The wake time that follows the one stored. */
  function Stored(previous: nat, increment: nat): nat { (previous + increment) % WRAP }

  /** xTaskDelayUntil: whether it blocks, the wake time it stores, for how long. */
  function DelayUntil(previous: nat, increment: nat, now: nat): Period
    requires previous < WRAP && now < WRAP
  {
    var wake := Stored(previous, increment);
    var delay := if now < previous then wake < previous && wake > now else wake < previous || wake > now;
    Period(delay, wake, Minus(wake, now))
  }

  /** It blocks if and only if the ideal wake time is still to come, and then for
      exactly the difference, whatever wrapped in between. */
  lemma DelayUntilExact(previous: nat, increment: nat, time: nat)
    requires previous <= time < previous + WRAP && 1 <= increment < WRAP
    ensures var p := DelayUntil(Low(previous), increment, Low(time));
            && (p.delay <==> previous + increment > time) && p.previous == Low(previous + increment)
            && (p.delay ==> p.ticks == previous + increment - time && 1 <= p.ticks < WRAP)
  {
    Split(previous);
    Split(time);
    Split(previous + increment);
    hide Low, Epoch;
    DelayInEpochs(Epoch(previous), Low(previous), increment, Epoch(time), Low(time), Epoch(previous + increment),
                  Low(previous + increment));
    LowSum(previous, increment);
  }

  lemma LowSum(a: nat, b: nat)
    ensures (Low(a) + b) % WRAP == Low(a + b)
  {
  }

  /** The same with every time given as epoch and 32-bit value. */
  lemma DelayInEpochs(ep: nat, previous: nat, increment: nat, en: nat, now: nat, ew: nat, wake: nat)
    requires previous < WRAP && now < WRAP && wake < WRAP && 1 <= increment < WRAP
    requires ew * WRAP + wake == ep * WRAP + previous + increment
    requires ep * WRAP + previous <= en * WRAP + now < ep * WRAP + previous + WRAP
    ensures var delay := if now < previous then wake < previous && wake > now else wake < previous || wake > now;
            && (delay <==> ew * WRAP + wake > en * WRAP + now)
            && (delay ==> Minus(wake, now) == (ew * WRAP + wake) - (en * WRAP + now) && 1 <= Minus(wake, now) < WRAP)
  {
  }

  lemma ClockShows(k: Kernel)
    requires Inv(k)
    ensures k.tick == Low(Clock(k))
  {
    hide Timing, Bits, ReadyLists, Partition, Events, InReady, Shape, Tasks;
    assert Clock(k) == k.overflows * WRAP + k.tick && k.tick < WRAP;
    Split(Clock(k));
  }

  /** With the scheduler behind it: the task is due at the ideal wake time. */
  lemma DelayUntilWakes(k: Kernel, previous: nat, increment: nat)
    requires Inv(k) && previous <= Clock(k) < previous + WRAP && 1 <= increment < WRAP
    requires k.suspended > 0 && MayBlock(k)
    requires DelayUntil(Low(previous), increment, Low(Clock(k))).delay
    ensures k.tick == Low(Clock(k))
    ensures var e := Delay(DelayUntil(Low(previous), increment, k.tick).ticks);
            Enabled(k, e) && Blocked(Step(k, e), k.current) && Due(Step(k, e), k.current) == previous + increment
  {
    hide Core, DelayUntil, Low, Step, Due, Clock, Blocked, MayBlock;
    ClockShows(k);
    DelayUntilExact(previous, increment, Clock(k));
    BlockDue(k, Delay(DelayUntil(Low(previous), increment, k.tick).ticks));
  }
}

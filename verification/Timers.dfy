/** Software timers: the two lists of timers.c against unbounded time. */
module Timers {
  import opened Basics
  import opened Rings
  import opened Ticks
  import opened TimerAccounts

  function Plus(a: nat, b: nat): nat { (a + b) % WRAP }

  datatype Place = ProcessNow | InCurrent | InOverflow

  /** The decision of prvInsertTimerInActiveList. */
  function Placement(next: nat, now: nat, command: nat, period: nat): Place
    requires now < WRAP && command < WRAP
  {
    if next <= now then if Minus(now, command) >= period then ProcessNow else InOverflow
    else if now < command && next >= command then ProcessNow else InCurrent
  }

  /** The 32-bit comparisons decide exactly: a timer due at D = C + P, looked at less
      than 2^32 ticks after C, is processed if D has come, and otherwise joins the
      list of the epoch D lies in. */
  lemma PlacementExact(now: nat, command: nat, period: nat)
    requires command <= now < command + WRAP && 1 <= period < WRAP
    ensures var due := command + period;
            var place := Placement(Low(due), Low(now), Low(command), period);
            && (place == ProcessNow <==> due <= now)
            && (place == InCurrent <==> due > now && Epoch(due) == Epoch(now))
            && (place == InOverflow <==> due > now && Epoch(due) == Epoch(now) + 1)
  {
    Split(now);
    Split(command);
    Split(command + period);
    hide Low, Epoch;
    PlacementInEpochs(Epoch(now), Low(now), Epoch(command), Low(command), period, Epoch(command + period),
                      Low(command + period));
  }

  /** The same with every time given as epoch and 32-bit value. */
  lemma PlacementInEpochs(en: nat, now: nat, ec: nat, command: nat, period: nat, ed: nat, due: nat)
    requires now < WRAP && command < WRAP && due < WRAP && 1 <= period < WRAP
    requires ed * WRAP + due == ec * WRAP + command + period
    requires ec * WRAP + command <= en * WRAP + now < ec * WRAP + command + WRAP
    ensures var place, late := Placement(due, now, command, period), ed * WRAP + due <= en * WRAP + now;
            && (place == ProcessNow <==> late) && (place == InCurrent <==> !late && ed == en)
            && (place == InOverflow <==> !late && ed == en + 1)
  {
  }

  lemma PlusLow(a: nat, b: nat)
    ensures Plus(Low(a), b) == Low(a + b)
  {
  }

  /** A list of timers in order of expiry, all in epoch `e`. */
  ghost predicate Listed(ts: seq<Timer>, e: nat, value: map<Timer, nat>, due: map<Timer, nat>) {
    && NoDuplicates(ts) && Sorted(ts, value)
    && forall t :: t in ts ==> t in due && At(value, t) < WRAP && due[t] == e * WRAP + At(value, t)
  }

  lemma ListedElsewhere(ts: seq<Timer>, e: nat, value: map<Timer, nat>, due: map<Timer, nat>, t: Timer, v: nat, d: nat)
    requires Listed(ts, e, value, due) && t !in ts
    ensures Listed(ts, e, value[t := v], due[t := d])
  {
  }

  lemma ListedHere(ts: seq<Timer>, e: nat, value: map<Timer, nat>, due: map<Timer, nat>, t: Timer, v: nat)
    requires Listed(ts, e, value, due) && t !in ts && v < WRAP
    ensures var value', due' := value[t := v], due[t := e * WRAP + v];
            && Listed(InsertSorted(ts, t, value'), e, value', due')
            && (forall u :: u in InsertSorted(ts, t, value') <==> u == t || u in ts)
  {
    hide InsertSorted;
    var value' := value[t := v];
    ListedElsewhere(ts, e, value, due, t, v, e * WRAP + v);
    InsertMembers(ts, t, value');
    InsertSortedStable(ts, t, value');
  }

  lemma ListedNone(e: nat, value: map<Timer, nat>, due: map<Timer, nat>)
    ensures Listed([], e, value, due)
  {
  }

  lemma ListedWithout(ts: seq<Timer>, e: nat, value: map<Timer, nat>, due: map<Timer, nat>, t: Timer)
    requires Listed(ts, e, value, due)
    ensures Listed(Without(ts, t), e, value, due) && (forall u :: u in Without(ts, t) <==> u != t && u in ts)
    ensures |Without(ts, t)| == if t in ts then |ts| - 1 else |ts|
  {
    hide Without;
    WithoutMembers(ts, t);
    WithoutSorted(ts, t, value);
  }

  lemma HeadDue(ts: seq<Timer>, e: nat, value: map<Timer, nat>, due: map<Timer, nat>, time: nat)
    requires Listed(ts, e, value, due) && ts != [] && Epoch(time) == e
    ensures ts[0] in due && Low(due[ts[0]]) == At(value, ts[0]) && time < due[ts[0]] + WRAP
  {
    assert ts[0] in ts;
  }

  // ---------------------------------------------------------------- operations

  /** What the daemon does, and when. */
  datatype Operation =
    | Poll(time: nat)
    | StartTimer(time: nat, timer: Timer, issued: nat)
    | StopTimer(time: nat, timer: Timer)
    | SetPeriod(time: nat, timer: Timer, ticks: nat)

  function Commanded(ops: seq<Operation>): set<Timer> {
    set op | op in ops && !op.Poll? :: op.timer
  }

  lemma CommandedMore(ops: seq<Operation>, i: nat)
    requires i < |ops|
    ensures Commanded(ops[..i + 1]) == Commanded(ops[..i]) + Commanded([ops[i]])
  {
    assert ops[..i + 1] == ops[..i] + [ops[i]];
  }

  /** Whether the last command for the timer, if there is one, was other than a stop. */
  function Running(ops: seq<Operation>, t: Timer): Option<bool> {
    if ops == [] then None
    else
      var op := ops[|ops| - 1];
      if !op.Poll? && op.timer == t then Some(!op.StopTimer?) else Running(ops[..|ops| - 1], t)
  }

  lemma RunningMore(ops: seq<Operation>, i: nat, t: Timer)
    requires i < |ops|
    ensures Running(ops[..i + 1], t) ==
              if !ops[i].Poll? && ops[i].timer == t then Some(!ops[i].StopTimer?) else Running(ops[..i], t)
  {
    assert ops[..i + 1][..i] == ops[..i];
  }

  /** How many times the daemon has looked at the clock in the end and seen the same time. */
  function Polls(ops: seq<Operation>): nat {
    if ops == [] || !ops[|ops| - 1].Poll? then 0
    else if |ops| > 1 && ops[|ops| - 2] == ops[|ops| - 1] then Polls(ops[..|ops| - 1]) + 1
    else 1
  }

  lemma PollsNone()
    ensures Polls([]) == 0
  {
  }

  lemma PollsMore(ops: seq<Operation>, i: nat)
    requires i < |ops|
    ensures Polls(ops[..i + 1]) ==
              if !ops[i].Poll? then 0 else if i > 0 && ops[i - 1] == ops[i] then Polls(ops[..i]) + 1 else 1
    ensures i > 0 && ops[i - 1].Poll? ==> Polls(ops[..i]) > 0
  {
    assert ops[..i + 1][..i] == ops[..i];
  }

  /** The daemon looks at the clock at least once in 2^32 ticks, and at a command less
      than 2^32 ticks after it was issued. */
  predicate Timely(op: Operation, last: nat, timers: set<Timer>) {
    && last <= op.time < last + WRAP && (!op.Poll? ==> op.timer in timers)
    && (op.StartTimer? ==> op.issued <= op.time < op.issued + WRAP) && (op.SetPeriod? ==> 1 <= op.ticks < WRAP)
  }

  predicate AllTimely(ops: seq<Operation>, last: nat, timers: set<Timer>)
    decreases |ops|
  {
    ops == [] || (Timely(ops[0], last, timers) && AllTimely(ops[1..], ops[0].time, timers))
  }

  // --------------------------------------------------------------- the daemon

  class TimerDaemon {
    var current: seq<Timer>        // pxCurrentTimerList
    var overflow: seq<Timer>       // pxOverflowTimerList
    var value: map<Timer, nat>     // xItemValue
    var period: map<Timer, nat>    // xTimerPeriodInTicks
    var autoReload: set<Timer>
    var active: set<Timer>
    var last: nat                  // xLastTime
    var fired: seq<Timer>          // the callbacks made so far
    ghost var epoch: nat           // of the last sampled time
    ghost var due: map<Timer, nat> // unbounded expiry times

    /** Timers of the current list expire in the epoch of the last sampled time,
        those of the overflow list in the next. */
    ghost predicate Valid()
      reads this
    {
      && Listed(current, epoch, value, due) && Listed(overflow, epoch + 1, value, due)
      && (forall t :: t in current ==> t !in overflow)
      && (forall t :: t in current || t in overflow ==> t in period)
      && (forall t :: t in period ==> 1 <= period[t] < WRAP)
      && last < WRAP
    }

    ghost function Now(): Account
      reads this
    {
      Account(Queued(), due, fired, period, autoReload)
    }

    ghost function Queued(): (ts: set<Timer>)
      reads this
      ensures forall t :: t in ts <==> t in current || t in overflow
    {
      set t | t in current + overflow
    }

    /** prvInsertTimerInActiveList: `from` is the unbounded command time. */
    method Insert(t: Timer, next: nat, now: nat, command: nat, ghost time: nat, ghost from: nat) returns (process: bool)
      requires Valid() && t in period && t !in current && t !in overflow
      requires from <= time < from + WRAP && Epoch(time) == epoch
      requires now == Low(time) && command == Low(from) && next == Low(from + period[t])
      modifies `current, `overflow, `value, `due
      ensures Valid() && process == (from + period[t] <= time)
      ensures !process ==> t in due && due[t] == from + period[t] && (t in current || t in overflow)
      ensures forall u :: u != t ==> (u in current <==> u in old(current)) && (u in overflow <==> u in old(overflow))
      ensures forall u :: u != t ==> (u in due <==> u in old(due)) && At(due, u) == At(old(due), u)
      ensures process ==> t !in current && t !in overflow
      ensures t !in current ==> current == old(current)
    {
      hide Listed, Placement, InsertSorted;
      Decide(time, from, period[t]);
      ListedElsewhere(current, epoch, value, due, t, next, from + period[t]);
      ListedElsewhere(overflow, epoch + 1, value, due, t, next, from + period[t]);
      process := false;
      if next <= now {
        if Minus(now, command) >= period[t] {
          process := true;
        } else {
          ListedHere(overflow, epoch + 1, value, due, t, next);
          overflow := InsertSorted(overflow, t, value[t := next]);
        }
      } else if now < command && next >= command {
        process := true;
      } else {
        ListedHere(current, epoch, value, due, t, next);
        current := InsertSorted(current, t, value[t := next]);
      }
      value := value[t := next];
      due := due[t := from + period[t]];
    }

    /** prvReloadTimer: a callback for each further period that has passed; the timer
        is queued for the first expiry after now. */
    method Reload(t: Timer, expired: nat, now: nat, ghost time: nat, ghost from: nat)
      requires Valid() && t in period && t !in current && t !in overflow
      requires from <= time < from + WRAP && Epoch(time) == epoch
      requires now == Low(time) && expired == Low(from)
      modifies `current, `overflow, `value, `due, `fired
      ensures Valid() && fired == old(fired) + Repeat(t, Further(from, period[t], time))
      ensures Requeued(t, from, time)
      ensures Others(t, old(current), old(overflow), old(due))
      ensures t !in current ==> current == old(current)
    {
      hide Listed, Low, Epoch, Plus, ExpiryAt, Further;
      ghost var k := 0;
      ghost var e := ExpiryAt(from, period[t], k);
      var at := expired;
      ExpiryStep(from, period[t], 0);
      PlusLow(e, period[t]);
      var again := Insert(t, Plus(at, period[t]), now, at, time, e);
      while again
        invariant Valid() && e == ExpiryAt(from, period[t], k) && from <= e <= time && at == Low(e)
        invariant again == (e + period[t] <= time) && (again ==> t !in current && t !in overflow)
        invariant fired == old(fired) + Repeat(t, k)
        invariant !again ==> t in due && due[t] == e + period[t] && (t in current || t in overflow)
        invariant Others(t, old(current), old(overflow), old(due)) && (t !in current ==> current == old(current))
        decreases time - e
      {
        PlusLow(e, period[t]);
        ExpiryStep(from, period[t], k);
        at := Plus(at, period[t]);
        fired := fired + [t];
        e, k := e + period[t], k + 1;
        assert fired == old(fired) + Repeat(t, k);
        PlusLow(e, period[t]);
        again := Insert(t, Plus(at, period[t]), now, at, time, e);
      }
      ExpiryCount(from, period[t], k, time);
    }

    /** prvProcessExpiredTimer for the timer at the head of the current list. */
    method ProcessExpired(next: nat, now: nat, ghost time: nat)
      requires Valid() && current != [] && next == At(value, current[0]) && now == Low(time)
      requires Epoch(time) == epoch && due[current[0]] <= time
      modifies `current, `overflow, `value, `due, `fired, `active
      ensures Valid() && Processed(old(current[0]), old(due[current[0]]), time, old(fired))
      ensures Others(old(current[0]), old(current), old(overflow), old(due))
      ensures old(current[0]) !in current ==> |current| == old(|current|) - 1
      ensures active == if old(current[0]) in autoReload then old(active) else old(active) - {old(current[0])}
    {
      hide Listed, Without, Low, Epoch, ExpiryAt, Further;
      var t := current[0];
      assert t in current;
      HeadDue(current, epoch, value, due, time);
      ghost var from := due[t];
      ListedWithout(current, epoch, value, due, t);
      current := Without(current, t);
      Expire(t, next, now, time, from);
    }

    /** A timer that has expired, already taken off its list: reload it or make it
        inactive, then call it back. */
    method Expire(t: Timer, expired: nat, now: nat, ghost time: nat, ghost from: nat)
      requires Valid() && t in period && t !in current && t !in overflow
      requires from <= time < from + WRAP && Epoch(time) == epoch
      requires now == Low(time) && expired == Low(from)
      modifies `current, `overflow, `value, `due, `fired, `active
      ensures Valid() && Processed(t, from, time, old(fired)) && Others(t, old(current), old(overflow), old(due))
      ensures t !in current ==> current == old(current)
      ensures active == if t in autoReload then old(active) else old(active) - {t}
    {
      hide Listed, Low, Epoch, ExpiryAt, Further;
      if t in autoReload {
        Reload(t, expired, now, time, from);
      } else {
        active := active - {t};
      }
      fired := fired + [t];
      assert t in autoReload ==> fired == old(fired) + Repeat(t, Further(from, period[t], time) + 1);
    }

    /** A timer that expired at `from`, processed at `time`: one callback if it is
        one-shot, one for each expiry up to `time` if it reloads. */
    ghost predicate Processed(t: Timer, from: nat, time: nat, wasFired: seq<Timer>)
      reads this
      requires t in period && period[t] > 0 && from <= time
    {
      if t in autoReload then Requeued(t, from, time)
          && fired == wasFired + Repeat(t, Further(from, period[t], time) + 1)
      else t !in current && t !in overflow && fired == wasFired + [t]
    }

    /** prvSwitchTimerLists: what is left on the current list has expired, so it is
        processed up to the last tick of the epoch; a reloaded timer can only join
        the overflow list, so the loop ends. */
    method SwitchLists()
      requires Valid()
      modifies `current, `overflow, `value, `due, `fired, `active, `epoch
      ensures Valid() && epoch == old(epoch) + 1
      ensures forall t :: t in old(current) ==> Settled(t, At(old(due), t), LastTick(old(epoch)), Count(old(fired), t))
      ensures forall t :: t !in old(current) ==> Count(fired, t) == Count(old(fired), t)
      ensures forall t :: t in old(overflow) ==> t in current && At(due, t) == At(old(due), t)
      ensures forall t :: t in current || t in overflow ==> t in old(current) || t in old(overflow)
    {
      hide Listed, Low, Epoch, Count, Repeat, LastTick, Further, ExpiryAt;
      ghost var end := LastTick(epoch);
      EndOfEpoch(epoch);
      while current != []
        invariant Valid() && epoch == old(epoch)
        invariant forall t :: t in current ==>
                t in old(current) && At(due, t) == At(old(due), t) && Count(fired, t) == Count(old(fired), t)
        invariant forall t :: t in old(current) && t !in current ==>
                Settled(t, At(old(due), t), end, Count(old(fired), t))
        invariant forall t :: t !in old(current) ==> Count(fired, t) == Count(old(fired), t)
        invariant forall t :: t in old(overflow) ==> t in overflow && At(due, t) == At(old(due), t)
        invariant forall t :: t in overflow ==> t in old(current) || t in old(overflow)
        decreases |current|
      {
        assert current[0] in current;
        ProcessLeftover(end);
      }
      current, overflow := overflow, current;
      epoch := epoch + 1;
      ListedNone(epoch + 1, value, due);
    }

    method ProcessLeftover(ghost end: nat)
      requires Valid() && current != [] && end == LastTick(epoch)
      modifies `current, `overflow, `value, `due, `fired, `active
      ensures Valid() && |current| < old(|current|) && old(current[0]) !in current
      ensures Settled(old(current[0]), old(At(due, current[0])), end, Count(old(fired), old(current[0])))
      ensures Others(old(current[0]), old(current), old(overflow), old(due))
      ensures forall u :: u != old(current[0]) ==> Count(fired, u) == Count(old(fired), u)
    {
      hide Listed, Low, Epoch, Count, Repeat, Further, ExpiryAt;
      ghost var t, from := current[0], At(due, current[0]);
      EndOfEpoch(epoch);
      ByLastTick(current, epoch, value, due, t);
      ProcessExpired(At(value, current[0]), MAX_DELAY, end);
      if t in current { ByLastTick(current, epoch, value, due, t); }
      ghost var n := if t in autoReload then Further(from, period[t], end) + 1 else 1;
      forall u ensures Count(fired, u) == Count(old(fired), u) + if u == t then n else 0 {
        CountRepeat(old(fired), t, n, u);
        RepeatOne(t);
      }
    }

    /** prvSampleTimeNow: the lists are switched exactly when the epoch has changed,
        provided the daemon looks at the clock at least once per epoch. */
    method SampleTime(now: nat, ghost time: nat) returns (switched: bool)
      requires Valid() && now == Low(time)
      requires epoch * WRAP + last <= time < epoch * WRAP + last + WRAP
      modifies `current, `overflow, `value, `due, `fired, `active, `epoch, `last
      ensures Valid() && epoch == Epoch(time) && last == now
      ensures switched <==> old(epoch) != epoch
      ensures AllRun(old(Now()), Now(), {}, time)
      ensures !switched ==>
                && current == old(current) && overflow == old(overflow) && value == old(value)
                && due == old(due) && fired == old(fired) && active == old(active)
    {
      hide Listed, Count, Settled, Runs;
      Split(time);
      switched := now < last;
      if switched {
        SwitchAll(time);
      } else {
        AllStandStill(Now(), time);
      }
      last := now;
    }

    /** Switching the lists moves every timer by the clock. */
    method SwitchAll(ghost time: nat)
      requires Valid() && LastTick(epoch) <= time
      modifies `current, `overflow, `value, `due, `fired, `active, `epoch
      ensures Valid() && epoch == old(epoch) + 1 && AllRun(old(Now()), Now(), {}, time)
    {
      hide Listed, Count, Further, ExpiryAt, LastTick;
      ghost var was := Now();
      SwitchLists();
      forall t ensures Runs(was, Now(), t, time) {
        if t in old(overflow) { StandStill(was, Now(), t, time); }
      }
    }

    method Unlist(t: Timer, ghost time: nat)
      requires Valid()
      modifies `current, `overflow
      ensures Valid() && t !in current && t !in overflow && AllRun(old(Now()), Now(), {t}, time)
    {
      hide Listed, Without, Count, ExpiryAt;
      ListedWithout(current, epoch, value, due, t);
      ListedWithout(overflow, epoch + 1, value, due, t);
      ghost var was := Now();
      current, overflow := Without(current, t), Without(overflow, t);
      forall u | u != t ensures Runs(was, Now(), u, time) { StandStill(was, Now(), u, time); }
    }

    /** What a command does before it looks at its kind: the timer leaves its list and
        the time is sampled. */
    method Receive(t: Timer, now: nat, ghost time: nat)
      requires Valid() && now == Low(time) && epoch * WRAP + last <= time < epoch * WRAP + last + WRAP
      modifies `current, `overflow, `value, `due, `fired, `active, `epoch, `last
      ensures Valid() && epoch == Epoch(time) && last == now && t !in current && t !in overflow
      ensures AllRun(old(Now()), Now(), {t}, time) && Count(fired, t) == Count(old(fired), t)
    {
      hide Listed, Count, ExpiryAt, Low, Epoch;
      ghost var was := Now();
      Unlist(t, time);
      ghost var mid := Now();
      var _ := SampleTime(now, time);
      AllRunOn(was, mid, Now(), {t}, {}, time, time);
      assert Runs(mid, Now(), t, time);
    }

    /** tmrCOMMAND_START and tmrCOMMAND_RESET, issued at time `from` and handled at
        `time`: the timer is due one period after the command was issued, and
        expiries that the daemon is late for are made up. */
    method Start(t: Timer, command: nat, now: nat, ghost from: nat, ghost time: nat)
      requires Valid() && t in period && now == Low(time) && command == Low(from) && from <= time < from + WRAP
      requires epoch * WRAP + last <= time < epoch * WRAP + last + WRAP
      modifies `current, `overflow, `value, `due, `fired, `active, `epoch, `last
      ensures Valid() && epoch == Epoch(time) && last == now
      ensures var first, was := from + period[t], Count(old(fired), t);
              if time < first then t in due && due[t] == first && (t in current || t in overflow)
                  && Count(fired, t) == was
              else Settled(t, first, time, was)
      ensures t in active <==> time < from + period[t] || t in autoReload
      ensures AllRun(old(Now()), Now(), {t}, time)
    {
      hide Listed, Count, Repeat, Low, Epoch, Plus, Further, ExpiryAt, Runs;
      ghost var was := Now();
      Receive(t, now, time);
      ghost var mid := Now();
      active := active + {t};
      PlusLow(from, period[t]);
      var process := Insert(t, Plus(command, period[t]), now, command, time, from);
      if process {
        ghost var first := from + period[t];
        Expire(t, Plus(command, period[t]), now, time, first);
        OnlyOne(mid.fired, t, if t in autoReload then Further(first, period[t], time) + 1 else 1);
      }
      OthersStand(mid, Now(), t, time);
      AllRunOn(was, mid, Now(), {t}, {t}, time, time);
    }

    /** tmrCOMMAND_CHANGE_PERIOD: due one new period from now. */
    method ChangePeriod(t: Timer, newPeriod: nat, now: nat, ghost time: nat)
      requires Valid() && t in period && now == Low(time) && 1 <= newPeriod < WRAP
      requires epoch * WRAP + last <= time < epoch * WRAP + last + WRAP
      modifies `current, `overflow, `value, `due, `fired, `active, `epoch, `last, `period
      ensures Valid() && epoch == Epoch(time) && last == now
      ensures period == old(period)[t := newPeriod] && t in active && Count(fired, t) == Count(old(fired), t)
      ensures t in due && due[t] == time + newPeriod && (t in current || t in overflow)
      ensures AllRun(old(Now()), Now(), {t}, time)
    {
      hide Listed, Count, Low, Epoch, Plus, ExpiryAt, Runs;
      ghost var was := Now();
      Receive(t, now, time);
      ghost var mid := Now();
      active := active + {t};
      period := period[t := newPeriod];
      PlusLow(time, newPeriod);
      var process := Insert(t, Plus(now, newPeriod), now, now, time, time);
      OthersStand(mid, Now(), t, time);
      AllRunOn(was, mid, Now(), {t}, {t}, time, time);
    }

    /** tmrCOMMAND_STOP, and all of tmrCOMMAND_DELETE that concerns the lists. */
    method Stop(t: Timer, now: nat, ghost time: nat)
      requires Valid() && now == Low(time) && epoch * WRAP + last <= time < epoch * WRAP + last + WRAP
      modifies `current, `overflow, `value, `due, `fired, `active, `epoch, `last
      ensures Valid() && epoch == Epoch(time) && last == now
      ensures t !in active && t !in current && t !in overflow && Count(fired, t) == Count(old(fired), t)
      ensures AllRun(old(Now()), Now(), {t}, time)
    {
      hide Listed, Count, Low, Epoch, Runs;
      Receive(t, now, time);
      active := active - {t};
    }

    /** The timers that are late at `time`. */
    ghost function Late(time: nat): set<Timer>
      reads this
    {
      set t | t in current && At(due, t) <= time
    }

    lemma LateBound(time: nat)
      requires Valid()
      ensures |Late(time)| <= |period|
    {
      Fewer(Late(time), period.Keys);
    }

    /** When nothing is late on the current list, nothing is late at all. */
    lemma NothingLate(time: nat)
      requires Valid() && Epoch(time) == epoch && Late(time) == {}
      ensures forall t :: t in Queued() ==> At(due, t) > time
    {
      Split(time);
      forall t | t in Queued() ensures At(due, t) > time {
        assert t in current ==> t !in Late(time);
      }
    }

    /** prvProcessTimerOrBlockTask, up to the block: the head of the current list is
        processed if it has expired, unless sampling the time switched the lists. */
    method ProcessTimer(now: nat, ghost time: nat) returns (processed: bool)
      requires Valid() && now == Low(time) && epoch * WRAP + last <= time < epoch * WRAP + last + WRAP
      modifies `current, `overflow, `value, `due, `fired, `active, `epoch, `last
      ensures Valid() && epoch == Epoch(time) && last == now
      ensures AllRun(old(Now()), Now(), {}, time)
      ensures processed <==> old(epoch) == epoch && exists t :: t in old(current) && At(old(due), t) <= time
      ensures processed ==>
                && old(current) != []
                && Settled(old(current)[0], At(old(due), old(current)[0]), time, Count(old(fired), old(current)[0]))
                && old(current)[0] in old(Late(time)) && Late(time) == old(Late(time)) - {old(current)[0]}
      ensures old(epoch) == epoch && !processed ==> old(Late(time)) == Late(time) == {} && Now() == old(Now())
    {
      hide Listed, Count, Low, Epoch, Runs, Settled;
      var empty, next := current == [], if current == [] then 0 else At(value, current[0]);
      var switched := SampleTime(now, time);
      processed := !switched && !empty && next <= now;
      if !switched && !empty { HeadExpired(current, epoch, value, due, time); }
      if processed {
        ProcessHead(next, now, time);
      }
    }

    /** One expired timer, with all others standing still. */
    method ProcessHead(next: nat, now: nat, ghost time: nat)
      requires Valid() && current != [] && next == At(value, current[0]) && now == Low(time)
      requires Epoch(time) == epoch && current[0] in due && due[current[0]] <= time
      modifies `current, `overflow, `value, `due, `fired, `active
      ensures Valid() && AllRun(old(Now()), Now(), {}, time)
      ensures Settled(old(current[0]), old(At(due, current[0])), time, Count(old(fired), old(current[0])))
      ensures old(current[0]) in old(Late(time)) && Late(time) == old(Late(time)) - {old(current[0])}
    {
      hide Listed, Count, Low, Epoch, Repeat, ExpiryAt, Further;
      ghost var was, t := Now(), current[0];
      assert t in current;
      HeadDue(current, epoch, value, due, time);
      ProcessExpired(next, now, time);
      OnlyOne(was.fired, t, if t in autoReload then Further(was.due[t], period[t], time) + 1 else 1);
      OthersStand(was, Now(), t, time);
      assert Runs(was, Now(), t, time);
    }

    /** What a command comes to for its own timer. */
    ghost predicate Obeyed(op: Operation, was: Account)
      reads this
      requires !op.Poll?
    {
      var t, calls := op.timer, Count(was.fired, op.timer);
      match op
      case StartTimer(time, _, issued) =>
        var first := issued + At(period, t);
        && (t in active <==> time < first || t in autoReload)
        && (if time < first then t in Queued() && At(due, t) == first && Count(fired, t) == calls
            else Settled(t, first, time, calls))
      case StopTimer(_, _) => t !in active && t !in Queued() && Count(fired, t) == calls
      case SetPeriod(time, _, ticks) =>
        && t in active && t in Queued() && At(period, t) == ticks && At(due, t) == time + ticks
        && Count(fired, t) == calls
    }

    method Perform(op: Operation)
      requires Valid() && Timely(op, epoch * WRAP + last, period.Keys)
      modifies `current, `overflow, `value, `due, `fired, `active, `epoch, `last, `period
      ensures Valid() && epoch * WRAP + last == op.time && period.Keys == old(period.Keys)
      ensures AllRun(old(Now()), Now(), Commanded([op]), op.time)
      ensures old(epoch * WRAP + last) <= op.time && (!op.Poll? ==> Obeyed(op, old(Now())))
      ensures op.Poll? && old(epoch * WRAP + last) == op.time ==>
                Late(op.time) == {} || |Late(op.time)| < old(|Late(op.time)|)
    {
      hide Listed, Count, Low, Epoch, Runs, Settled;
      Split(op.time);
      match op
      case Poll(time) => Look(time);
      case StartTimer(time, t, issued) => Start(t, Low(issued), Low(time), issued, time);
      case StopTimer(time, t) => Stop(t, Low(time), time);
      case SetPeriod(time, t, ticks) => ChangePeriod(t, ticks, Low(time), time);
    }

    /** One turn of the daemon's loop without a command: one timer less is late. */
    method Look(time: nat)
      requires Valid() && epoch * WRAP + last <= time < epoch * WRAP + last + WRAP
      modifies `current, `overflow, `value, `due, `fired, `active, `epoch, `last
      ensures Valid() && epoch * WRAP + last == time && AllRun(old(Now()), Now(), {}, time)
      ensures old(epoch * WRAP + last) == time ==> Late(time) == {} || |Late(time)| < old(|Late(time)|)
    {
      hide Listed, Count, Low, Epoch, Runs, Settled;
      Split(time);
      ghost var late := Late(time);
      if epoch * WRAP + last == time { SameEpoch(epoch, last, time); }
      ghost var head := if current == [] then 0 else current[0];
      var processed := ProcessTimer(Low(time), time);
      if processed { OneLess(late, head); }
    }

    /** After n looks at one time at most as many timers are late as have not had a turn. */
    ghost predicate Catching(n: nat)
      reads this
    {
      n > 0 ==> Late(epoch * WRAP + last) == {} || |Late(epoch * WRAP + last)| + n <= |period| + 1
    }

    /** A stopped timer is on no list, and a running one that reloads is. */
    ghost predicate Heeds(running: Option<bool>, t: Timer)
      reads this
    {
      (running == Some(false) ==> t !in Queued()) && (running == Some(true) && t in autoReload ==> t in Queued())
    }

    ghost predicate AllHeed(ops: seq<Operation>)
      reads this
    {
      forall t :: Heeds(Running(ops, t), t)
    }

    lemma NoCommandYet()
      ensures AllHeed([])
    {
    }

    lemma AllHeedOn(ops: seq<Operation>, i: nat, was: Account)
      requires i < |ops| && AllRun(was, Now(), Commanded([ops[i]]), ops[i].time)
      requires !ops[i].Poll? ==> Obeyed(ops[i], was)
      requires forall t :: Running(ops[..i], t) == Some(false) ==> t !in was.queued
      requires forall t :: Running(ops[..i], t) == Some(true) && t in was.autoReload ==> t in was.queued
      ensures AllHeed(ops[..i + 1])
    {
      hide AllRun, Obeyed, Running, Heeds;
      var more := ops[..i + 1];
      forall t ensures Heeds(Running(more, t), t) { HeedsOn(ops, i, t, was); }
    }

    lemma HeedsOn(ops: seq<Operation>, i: nat, t: Timer, was: Account)
      requires i < |ops| && AllRun(was, Now(), Commanded([ops[i]]), ops[i].time)
      requires !ops[i].Poll? ==> Obeyed(ops[i], was)
      requires Running(ops[..i], t) == Some(false) ==> t !in was.queued
      requires Running(ops[..i], t) == Some(true) && t in was.autoReload ==> t in was.queued
      ensures Heeds(Running(ops[..i + 1], t), t)
    {
      hide Count, Expiries, Further, ExpiryAt, Running;
      RunningMore(ops, i, t);
      if t !in Commanded([ops[i]]) { assert Runs(was, Now(), t, ops[i].time); }
    }

    /** What holds after the first i operations. */
    ghost predicate Served(was: Account, ops: seq<Operation>, i: nat)
      reads this
      requires i <= |ops|
    {
      && AllRun(was, Now(), Commanded(ops[..i]), epoch * WRAP + last) && AllHeed(ops[..i])
      && (i > 0 ==> epoch * WRAP + last == ops[i - 1].time && Catching(Polls(ops[..i])))
    }

    lemma NothingServed(ops: seq<Operation>)
      ensures Served(Now(), ops, 0)
    {
      AllStandStill(Now(), epoch * WRAP + last);
      NoCommandYet();
      assert ops[..0] == [] && Commanded(ops[..0]) == {};
    }

    /** One operation more. */
    method Turn(ops: seq<Operation>, i: nat, ghost was: Account)
      requires i < |ops| && Valid() && Timely(ops[i], epoch * WRAP + last, period.Keys) && Served(was, ops, i)
      modifies `current, `overflow, `value, `due, `fired, `active, `epoch, `last, `period
      ensures Valid() && epoch * WRAP + last == ops[i].time && period.Keys == old(period.Keys)
      ensures Served(was, ops, i + 1)
    {
      hide Listed, Count, Runs, Polls, Late, AllRun, Obeyed, Running;
      ghost var mid, seen := Now(), epoch * WRAP + last;
      Perform(ops[i]);
      assert |period| == |period.Keys|;
      PollsMore(ops, i);
      LateBound(ops[i].time);
      AllHeedOn(ops, i, mid);
      AllRunOn(was, mid, Now(), Commanded(ops[..i]), Commanded([ops[i]]), seen, ops[i].time);
      CommandedMore(ops, i);
    }

    /** prvTimerTask, for the given readings of the clock and the given commands: a
        timer that reloads and receives no command is due one period later for every
        callback it got, and a one-shot timer gets one callback at most.  When the daemon
        has looked at the clock once more than there are timers and the time was the same,
        every timer without a command has had exactly the callbacks it was due. */
    method Serve(ops: seq<Operation>)
      requires Valid() && AllTimely(ops, epoch * WRAP + last, period.Keys)
      modifies `current, `overflow, `value, `due, `fired, `active, `epoch, `last, `period
      ensures Valid() && AllRun(old(Now()), Now(), Commanded(ops), epoch * WRAP + last)
      ensures forall t :: t in old(Queued()) && t in autoReload && t !in Commanded(ops) ==>
                && t in Queued() && Count(fired, t) >= Count(old(fired), t)
                && At(due, t) == At(old(due), t) + (Count(fired, t) - Count(old(fired), t)) * At(period, t)
      ensures forall t :: t !in autoReload && t !in Commanded(ops) ==> Count(fired, t) <= Count(old(fired), t) + 1
      ensures AllHeed(ops)
      ensures ops != [] ==> epoch * WRAP + last == ops[|ops| - 1].time
      ensures Polls(ops) > |period| ==> forall t :: t in Queued() ==> At(due, t) > epoch * WRAP + last
      ensures Polls(ops) > |period| ==> forall t :: t in old(Queued()) && t !in Commanded(ops) ==>
                && At(period, t) > 0
                && Count(fired, t) == Count(old(fired), t)
                     + Expiries(At(old(due), t), At(period, t), t in autoReload, epoch * WRAP + last)
    {
      hide Listed, Count, Timely, Served, AllRun, Polls, Late, Expiries, AllHeed;
      ghost var was := Now();
      NothingServed(ops);
      for i := 0 to |ops|
        invariant Valid() && AllTimely(ops[i..], epoch * WRAP + last, period.Keys) && Served(was, ops, i)
      {
        Turn(ops, i, was);
        assert ops[i..][1..] == ops[i + 1..];
      }
      Conclude(was, ops);
    }

    lemma Conclude(was: Account, ops: seq<Operation>)
      requires Valid() && Served(was, ops, |ops|) && (forall t :: t in was.queued ==> At(was.period, t) > 0)
      ensures AllRun(was, Now(), Commanded(ops), epoch * WRAP + last) && AllHeed(ops)
      ensures forall t :: t in was.queued && t in autoReload && t !in Commanded(ops) ==>
                && t in Queued() && Count(fired, t) >= Count(was.fired, t)
                && At(due, t) == At(was.due, t) + (Count(fired, t) - Count(was.fired, t)) * At(period, t)
      ensures forall t :: t !in autoReload && t !in Commanded(ops) ==> Count(fired, t) <= Count(was.fired, t) + 1
      ensures ops != [] ==> epoch * WRAP + last == ops[|ops| - 1].time
      ensures Polls(ops) > |period| ==> forall t :: t in Queued() ==> At(due, t) > epoch * WRAP + last
      ensures Polls(ops) > |period| ==> forall t :: t in was.queued && t !in Commanded(ops) ==>
                && At(period, t) > 0
                && Count(fired, t) == Count(was.fired, t)
                     + Expiries(At(was.due, t), At(period, t), t in autoReload, epoch * WRAP + last)
    {
      hide Listed, Count, AllRun, Polls, Late, Expiries, AllHeed;
      assert ops[..|ops|] == ops;
      PollsNone();
      Accounts(was, Now(), Commanded(ops), epoch * WRAP + last);
      if Polls(ops) > |period| { Exact(was, Commanded(ops)); }
    }

    /** Once nothing is late, every account is settled. */
    lemma Exact(was: Account, commanded: set<Timer>)
      requires Valid() && AllRun(was, Now(), commanded, epoch * WRAP + last) && Late(epoch * WRAP + last) == {}
      requires forall t :: t in was.queued ==> At(was.period, t) > 0
      ensures forall t :: t in Queued() ==> At(due, t) > epoch * WRAP + last
      ensures forall t :: t in was.queued && t !in commanded ==>
                && At(period, t) > 0
                && Count(fired, t) == Count(was.fired, t)
                     + Expiries(At(was.due, t), At(period, t), t in autoReload, epoch * WRAP + last)
    {
      hide Listed, Count, Expiries, Late;
      ghost var time := epoch * WRAP + last;
      SameEpoch(epoch, last, time);
      NothingLate(time);
      forall t | t in was.queued && t !in commanded
        ensures At(period, t) > 0
        ensures Calls(was, Now(), t) == Expiries(At(was.due, t), At(period, t), t in autoReload, time)
      {
        assert Runs(was, Now(), t, time);
        CaughtUp(was, Now(), t, time);
      }
    }

    /** A timer that was due at `from` has been processed up to `time`. */
    ghost predicate Settled(t: Timer, from: nat, time: nat, wasCount: nat)
      reads this
    {
      && t in period && period[t] > 0 && from <= time
      && (if t in autoReload then Requeued(t, from, time)
          && Count(fired, t) == wasCount + Further(from, period[t], time) + 1
          else t !in current && t !in overflow && Count(fired, t) == wasCount + 1)
    }

    /** Queued for the least from + k * period that lies after `time`. */
    ghost predicate Requeued(t: Timer, from: nat, time: nat)
      reads this
    {
      && t in period && period[t] > 0 && t in due && from <= time
      && due[t] == ExpiryAt(from, period[t], Further(from, period[t], time) + 1)
      && due[t] - period[t] <= time < due[t] && (t in current || t in overflow)
    }

    /** No timer but `t` moved. */
    ghost predicate Others(t: Timer, wasCurrent: seq<Timer>, wasOverflow: seq<Timer>, wasDue: map<Timer, nat>)
      reads this
    {
      && (forall u :: u != t ==> (u in current <==> u in wasCurrent) && (u in overflow <==> u in wasOverflow))
      && (forall u :: u != t ==> (u in due <==> u in wasDue) && At(due, u) == At(wasDue, u))
    }
  }

  /** The branches of Insert, each with the time the timer is due. */
  lemma Decide(now: nat, command: nat, period: nat)
    requires command <= now < command + WRAP && 1 <= period < WRAP
    ensures var due, n, c, x := command + period, Low(now), Low(command), Low(command + period);
            && x < WRAP
            && (if x <= n then Minus(n, c) >= period else n < c <= x) == (due <= now)
            && (due > now && x <= n ==> due == (Epoch(now) + 1) * WRAP + x)
            && (due > now && x > n ==> due == Epoch(now) * WRAP + x)
  {
    PlacementExact(now, command, period);
    Split(command + period);
  }

  function LastTick(e: nat): nat { e * WRAP + MAX_DELAY }

  lemma ByLastTick(ts: seq<Timer>, e: nat, value: map<Timer, nat>, due: map<Timer, nat>, t: Timer)
    requires Listed(ts, e, value, due) && t in ts
    ensures t in due && due[t] <= LastTick(e)
  {
  }

  lemma EndOfEpoch(e: nat)
    ensures Low(LastTick(e)) == MAX_DELAY && Epoch(LastTick(e)) == e
  {
  }

  /** The head of a sorted list has expired if anything on it has. */
  lemma HeadExpired(ts: seq<Timer>, e: nat, value: map<Timer, nat>, due: map<Timer, nat>, time: nat)
    requires Listed(ts, e, value, due) && ts != [] && Epoch(time) == e
    ensures ts[0] in due && (At(value, ts[0]) <= Low(time) <==> due[ts[0]] <= time)
    ensures At(value, ts[0]) <= Low(time) <==> exists t :: t in ts && At(due, t) <= time
  {
    Split(time);
    assert ts[0] in ts;
    forall t | t in ts ensures At(due, t) >= due[ts[0]] {
      var i :| 0 <= i < |ts| && ts[i] == t;
      assert At(value, ts[0]) <= At(value, ts[i]);
    }
  }

  lemma AllStandStill(a: Account, time: nat)
    ensures AllRun(a, a, {}, time)
  {
    forall t ensures Runs(a, a, t, time) { StandStill(a, a, t, time); }
  }

  lemma SameEpoch(e: nat, last: nat, time: nat)
    requires last < WRAP && time == e * WRAP + last
    ensures Epoch(time) == e
  {
    Split(time);
  }

  lemma OneLess(all: set<Timer>, t: Timer)
    requires t in all
    ensures |all - {t}| == |all| - 1
  {
    assert all == (all - {t}) + {t};
  }

  lemma Fewer(some: set<Timer>, all: set<Timer>)
    requires some <= all
    ensures |some| <= |all|
  {
    assert all == some + (all - some);
  }
}

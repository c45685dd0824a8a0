/** The account of a timer: its expiry times and its callbacks. */
module TimerAccounts {
  import opened Arithmetic
  import opened Rings

  type Timer = nat

  /** The k-th expiry after `from`. */
  function ExpiryAt(from: nat, period: nat, k: nat): nat { from + k * period }

  lemma ExpiryStep(from: nat, period: nat, k: nat)
    ensures ExpiryAt(from, period, k + 1) == ExpiryAt(from, period, k) + period && ExpiryAt(from, period, 0) == from
  {
  }

  /** How many whole periods lie between. */
  function Further(from: nat, period: nat, time: nat): nat
    requires period > 0 && from <= time
  {
    (time - from) / period
  }

  lemma ExpiryCount(from: nat, period: nat, k: nat, time: nat)
    requires from <= ExpiryAt(from, period, k) <= time < ExpiryAt(from, period, k) + period
    ensures Further(from, period, time) == k && ExpiryAt(from, period, k + 1) == ExpiryAt(from, period, k) + period
  {
    ExpiryStep(from, period, k);
    Remainder(time - from, period, k, time - ExpiryAt(from, period, k));
  }

  function Repeat(t: Timer, k: nat): seq<Timer> { if k == 0 then [] else Repeat(t, k - 1) + [t] }

  lemma RepeatOne(t: Timer)
    ensures Repeat(t, 1) == [t]
  {
  }

  lemma {:induction false} CountRepeat(ts: seq<Timer>, t: Timer, n: nat, u: Timer)
    ensures Count(ts + Repeat(t, n), u) == Count(ts, u) + if u == t then n else 0
    decreases n
  {
    if n == 0 {
      assert ts + [] == ts;
    } else {
      var all := ts + Repeat(t, n);
      assert all[..|all| - 1] == ts + Repeat(t, n - 1);
      CountRepeat(ts, t, n - 1, u);
    }
  }

  function Count(ts: seq<Timer>, t: Timer): nat {
    if ts == [] then 0 else (if ts[|ts| - 1] == t then 1 else 0) + Count(ts[..|ts| - 1], t)
  }

  /** What the daemon knows of the timers at some moment. */
  datatype Account = Account(queued: set<Timer>, due: map<Timer, nat>, fired: seq<Timer>, period: map<Timer, nat>,
                             autoReload: set<Timer>)

  function Calls(a: Account, b: Account, t: Timer): int { Count(b.fired, t) - Count(a.fired, t) }

  /** From a to b the timer goes by the clock alone.  One that reloads stays queued and
      moves on by one period for every callback; a one-shot timer keeps its expiry time
      until its one callback; a timer that is not queued gets none.  No callback is made
      for an expiry after `time`. */
  ghost predicate Runs(a: Account, b: Account, t: Timer, time: nat) {
    && At(b.period, t) == At(a.period, t) && (t in b.autoReload <==> t in a.autoReload)
    && Calls(a, b, t) >= 0
    && (if t !in a.queued then t !in b.queued && Calls(a, b, t) == 0
        else if t in a.autoReload then t in b.queued
            && At(b.due, t) == ExpiryAt(At(a.due, t), At(a.period, t), Calls(a, b, t))
            && (Calls(a, b, t) > 0 ==> At(b.due, t) <= time + At(b.period, t))
        else if t in b.queued then At(b.due, t) == At(a.due, t) && Calls(a, b, t) == 0
        else Calls(a, b, t) == 1 && At(a.due, t) <= time)
  }

  /** All timers but those in `commanded` do. */
  ghost predicate AllRun(a: Account, b: Account, commanded: set<Timer>, time: nat) {
    forall t :: t !in commanded ==> Runs(a, b, t, time)
  }

  lemma ExpirySum(from: nat, period: nat, i: nat, j: nat)
    ensures ExpiryAt(ExpiryAt(from, period, i), period, j) == ExpiryAt(from, period, i + j)
  {
    Distribute(i, j, period);
  }

  lemma Distribute(i: nat, j: nat, p: nat)
    ensures (i + j) * p == i * p + j * p
  {
  }

  lemma RunOn(a: Account, b: Account, c: Account, t: Timer, early: nat, late: nat)
    requires Runs(a, b, t, early) && Runs(b, c, t, late) && early <= late
    ensures Runs(a, c, t, late)
  {
    hide ExpiryAt, Count;
    if t in a.queued && t in a.autoReload {
      ExpirySum(At(a.due, t), At(a.period, t), Calls(a, b, t), Calls(b, c, t));
      ExpiryStep(At(b.due, t), At(b.period, t), 0);
    }
  }

  lemma AllRunOn(a: Account, b: Account, c: Account, some: set<Timer>, others: set<Timer>, early: nat, late: nat)
    requires AllRun(a, b, some, early) && AllRun(b, c, others, late) && early <= late
    ensures AllRun(a, c, some + others, late)
  {
    hide Runs;
    forall t | t !in some + others ensures Runs(a, c, t, late) {
      RunOn(a, b, c, t, early, late);
    }
  }

  lemma StandStill(a: Account, b: Account, t: Timer, time: nat)
    requires At(b.period, t) == At(a.period, t) && (t in b.autoReload <==> t in a.autoReload)
    requires (t in b.queued <==> t in a.queued) && At(b.due, t) == At(a.due, t) && Calls(a, b, t) == 0
    ensures Runs(a, b, t, time)
  {
    ExpiryStep(At(a.due, t), At(a.period, t), 0);
  }

  /** Callbacks of one timer are no callbacks of another. */
  lemma OnlyOne(fired: seq<Timer>, t: Timer, n: nat)
    ensures Repeat(t, 1) == [t]
    ensures forall u :: Count(fired + Repeat(t, n), u) == Count(fired, u) + if u == t then n else 0
  {
    hide Repeat, Count;
    RepeatOne(t);
    forall u ensures Count(fired + Repeat(t, n), u) == Count(fired, u) + if u == t then n else 0 {
      CountRepeat(fired, t, n, u);
    }
  }

  lemma OthersStand(a: Account, b: Account, t: Timer, time: nat)
    requires forall u :: u != t ==> At(b.period, u) == At(a.period, u) && (u in b.autoReload <==> u in a.autoReload)
    requires forall u :: u != t ==> (u in b.queued <==> u in a.queued) && At(b.due, u) == At(a.due, u)
    requires forall u :: u != t ==> Count(b.fired, u) == Count(a.fired, u)
    ensures AllRun(a, b, {t}, time)
  {
    hide Count, ExpiryAt;
    forall u | u != t ensures Runs(a, b, u, time) { StandStill(a, b, u, time); }
  }

  /** What that comes to for the two kinds of timers. */
  lemma Accounts(a: Account, b: Account, commanded: set<Timer>, time: nat)
    requires AllRun(a, b, commanded, time)
    ensures forall t :: t in a.queued && t in b.autoReload && t !in commanded ==>
              t in b.queued && Calls(a, b, t) >= 0 && At(b.due, t) == At(a.due, t) + Calls(a, b, t) * At(b.period, t)
    ensures forall t :: t !in b.autoReload && t !in commanded ==> Calls(a, b, t) <= 1
  {
    hide Count;
    forall t | t !in commanded ensures Runs(a, b, t, time) {}
  }

  /** The expiries from `from` on that have come at `time`. */
  function Expiries(from: nat, period: nat, reloads: bool, time: nat): nat
    requires period > 0
  {
    if from > time then 0 else if reloads then Further(from, period, time) + 1 else 1
  }

  /** A timer that is not late has had one callback for each of its expiries. */
  lemma CaughtUp(a: Account, b: Account, t: Timer, time: nat)
    requires Runs(a, b, t, time) && t in a.queued && At(a.period, t) > 0
    requires t in b.queued ==> At(b.due, t) > time
    ensures Calls(a, b, t) == Expiries(At(a.due, t), At(a.period, t), t in a.autoReload, time)
  {
    hide Count, ExpiryAt, Further;
    if t in a.autoReload { ExactCalls(At(a.due, t), At(a.period, t), Calls(a, b, t), time); }
  }

  lemma ExactCalls(from: nat, period: nat, calls: nat, time: nat)
    requires period > 0 && ExpiryAt(from, period, calls) > time
    requires calls > 0 ==> ExpiryAt(from, period, calls) <= time + period
    ensures calls == Expiries(from, period, true, time)
  {
    hide Further;
    if calls > 0 {
      ExpiryStep(from, period, calls - 1);
      ExpiryCount(from, period, calls - 1, time);
    }
  }
}

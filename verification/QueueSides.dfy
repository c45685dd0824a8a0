/** One direction of a queue.  Seen from the receivers, what is available are the
    messages, and cTxLock counts what interrupts added while the queue was locked;
    seen from the senders they are the free slots, and cRxLock. */
module QueueSides {
  import opened Basics
  import opened Rings

  const UNLOCKED: int := -1   // queueUNLOCKED

  datatype Side = Side(
    avail: nat,          // messages, or free slots
    waiters: seq<Task>,  // xTasksWaitingToReceive, or xTasksWaitingToSend
    woken: set<Task>,    // waiters taken off the list that have not yet tried again
    lock: int            // cTxLock, or cRxLock
  )

  /** xTaskRemoveFromEventList, if the list is not empty. */
  function WakeOne(s: Side): Side {
    if s.waiters == [] then s else s.(waiters := s.waiters[1..], woken := s.woken + {s.waiters[0]})
  }

  /** A task adds to this side, or with `more` zero leaves something it could have
      taken: the first waiter is woken. */
  function Post(s: Side, more: nat): Side { WakeOne(s.(avail := s.avail + more)) }

  /** Something is taken from this side, if there is anything. */
  function Use(s: Side): Side { s.(avail := if s.avail > 0 then s.avail - 1 else 0) }

  /** A task that tries again is no longer one that was woken and has not. */
  function Tried(s: Side, t: Task): Side { s.(woken := s.woken - {t}) }

  /** What an interrupt does: wake a waiter, or, with the queue locked, count;
      the count stops at the number of tasks. */
  function Signal(s: Side, tasks: nat): Side {
    if s.lock == UNLOCKED then WakeOne(s) else if s.lock < tasks then s.(lock := s.lock + 1) else s
  }

  function Lock(s: Side): Side { if s.lock == UNLOCKED then s.(lock := 0) else s }

  function WakeMany(s: Side, n: int): Side
    decreases |s.waiters|
  {
    if n <= 0 || s.waiters == [] then s else WakeMany(WakeOne(s), n - 1)
  }

  /** One half of prvUnlockQueue. */
  function Unlock(s: Side): Side { WakeMany(s, s.lock).(lock := UNLOCKED) }

  /** No task twice on the list, and none both on it and woken. */
  ghost predicate Clean(s: Side) { NoDuplicates(s.waiters) && forall t :: t in s.waiters ==> t !in s.woken }

  function Pending(s: Side): nat { |s.woken| + (if s.lock > 0 then s.lock else 0) }

  /** If anyone waits, everything available is spoken for: by a woken task, or by
      the count that the unlocking task will work off, or the count is at its cap. */
  ghost predicate Covered(s: Side, cap: int) {
    s.waiters == [] || s.avail <= Pending(s) || s.lock >= cap
  }

  lemma WakeOneKeeps(s: Side)
    requires Clean(s)
    ensures Clean(WakeOne(s))
    ensures s.waiters != [] ==> |WakeOne(s).woken| == |s.woken| + 1 && |WakeOne(s).waiters| == |s.waiters| - 1
  {
    if s.waiters != [] {
      assert s.waiters[0] in s.waiters;
      forall t | t in s.waiters[1..] ensures t !in WakeOne(s).woken {
        assert t in s.waiters;
      }
    }
  }

  /** The first n of the line are woken, and the others keep their order. */
  ghost predicate Serves(s: Side, s': Side, n: nat) {
    && n <= |s.waiters| && s'.waiters == s.waiters[n..]
    && (forall t :: t in s.waiters[..n] ==> t in s'.woken)
    && (forall t :: t in s'.woken ==> t in s.woken || t in s.waiters[..n])
  }

  /** Waking takes the first. */
  lemma WakeServesFirst(s: Side)
    ensures var s' := WakeOne(s);
            && Serves(s, s', if s.waiters == [] then 0 else 1) && (forall t :: t in s.woken ==> t in s'.woken)
            && s'.avail == s.avail && s'.lock == s.lock
  {
    if s.waiters != [] { assert s.waiters[..1] == [s.waiters[0]]; }
  }

  function Smaller(a: nat, b: nat): nat { if a < b then a else b }

  /** Unlocking takes the first ones, as many as were counted. */
  lemma {:induction false} WakeManyServes(s: Side, n: nat)
    ensures Serves(s, WakeMany(s, n), Smaller(n, |s.waiters|))
    decreases |s.waiters|
  {
    if n > 0 && s.waiters != [] {
      WakeServesFirst(s);
      var s1, m := WakeOne(s), Smaller(n, |s.waiters|);
      WakeManyServes(s1, n - 1);
      assert s.waiters[..m] == [s.waiters[0]] + s1.waiters[..m - 1];
      assert s1.waiters[m - 1..] == s.waiters[m..];
      hide WakeMany;
      KeepsWoken(s1, n - 1);
    }
  }

  lemma {:induction false} KeepsWoken(s: Side, n: int)
    ensures forall t :: t in s.woken ==> t in WakeMany(s, n).woken
    decreases |s.waiters|
  {
    if n > 0 && s.waiters != [] { KeepsWoken(WakeOne(s), n - 1); }
  }

  ghost predicate SideOk(s: Side, cap: int) { Clean(s) && s.lock >= UNLOCKED && Covered(s, cap) }

  /** One more thing available, one waiter woken for it. */
  lemma PostKeeps(s: Side, more: nat, cap: int)
    requires SideOk(s, cap) && more <= 1
    ensures SideOk(Post(s, more), cap)
  {
    WakeOneKeeps(s);
  }

  lemma WithoutOne(ts: set<Task>, t: Task)
    ensures |ts - {t}| == if t in ts then |ts| - 1 else |ts|
  {
    if t in ts { assert ts == (ts - {t}) + {t}; } else { assert ts - {t} == ts; }
  }

  /** A task that tries again takes what it was woken for, or finds nothing. */
  lemma TakeKeeps(s: Side, t: Task, cap: int)
    requires SideOk(s, cap)
    ensures SideOk(Tried(Use(s), t), cap) && SideOk(Use(s), cap)
  {
    WithoutOne(s.woken, t);
  }

  /** A task that peeks takes nothing and wakes the next. */
  lemma PeekKeeps(s: Side, t: Task, cap: int)
    requires SideOk(s, cap)
    ensures SideOk(Post(Tried(s, t), 0), cap)
  {
    WithoutOne(s.woken, t);
    WakeOneKeeps(Tried(s, t));
  }

  lemma SignalKeeps(s: Side, more: nat, tasks: nat, cap: int)
    requires SideOk(s, cap) && more <= 1 && cap <= tasks
    ensures SideOk(Signal(s.(avail := s.avail + more), tasks), cap)
  {
    WakeOneKeeps(s);
  }

  lemma {:induction false} WakeManyKeeps(s: Side, n: int)
    requires Clean(s)
    ensures var s' := WakeMany(s, n);
            && Clean(s') && s'.avail == s.avail && s'.lock == s.lock
            && (s'.waiters != [] && n >= 0 ==> |s'.woken| == |s.woken| + n && |s'.waiters| == |s.waiters| - n)
            && (forall t :: t in s'.waiters ==> t in s.waiters)
            && (forall t :: t in s'.woken <==> t in s.woken || (t in s.waiters && t !in s'.waiters))
    decreases |s.waiters|
  {
    if n > 0 && s.waiters != [] {
      WakeOneKeeps(s);
      assert s.waiters == [s.waiters[0]] + s.waiters[1..];
      WakeManyKeeps(WakeOne(s), n - 1);
    }
  }

  /** Unlocking works the count off: whoever still waits afterwards waits for
      something that is not there, or that a woken task will take. */
  lemma UnlockKeeps(s: Side, cap: int)
    requires SideOk(s, cap) && (|s.waiters| <= cap || cap == UNLOCKED)
    ensures SideOk(Unlock(s), cap)
  {
    WakeManyKeeps(s, s.lock);
  }

  lemma LockKeeps(s: Side, cap: int)
    requires SideOk(s, cap)
    ensures SideOk(Lock(s), cap)
  {
  }

  // ---------------------------------------------------------- the lock, as a whole

  /** k interrupts, each with one thing more. */
  function Signals(s: Side, k: nat, tasks: nat): Side
    decreases k
  {
    if k == 0 then s else Signals(Signal(s.(avail := s.avail + 1), tasks), k - 1, tasks)
  }

  lemma {:induction false} LockedSignals(s: Side, k: nat, tasks: nat)
    requires 0 <= s.lock <= tasks
    ensures Signals(s, k, tasks) == s.(avail := s.avail + k, lock := if s.lock + k <= tasks then s.lock + k else tasks)
    decreases k
  {
    if k > 0 { LockedSignals(Signal(s.(avail := s.avail + 1), tasks), k - 1, tasks); }
  }

  lemma {:induction false} UnlockedSignals(s: Side, k: nat, tasks: nat)
    requires s.lock == UNLOCKED
    ensures Signals(s, k, tasks) == WakeMany(s, k).(avail := s.avail + k)
    decreases k
  {
    if k > 0 {
      UnlockedSignals(Signal(s.(avail := s.avail + 1), tasks), k - 1, tasks);
      AvailApart(WakeOne(s), s.avail + 1, k - 1);
    }
  }

  lemma {:induction false} AvailApart(s: Side, a: nat, n: int)
    ensures WakeMany(s.(avail := a), n) == WakeMany(s, n).(avail := a)
    decreases |s.waiters|
  {
    if n > 0 && s.waiters != [] { AvailApart(WakeOne(s), a, n - 1); }
  }

  lemma {:induction false} LockApart(s: Side, l: int, n: int)
    ensures WakeMany(s.(lock := l), n) == WakeMany(s, n).(lock := l) && WakeMany(s, n).lock == s.lock
    decreases |s.waiters|
  {
    if n > 0 && s.waiters != [] { LockApart(WakeOne(s), l, n - 1); }
  }

  lemma {:induction false} WakeEnough(s: Side, m: int, n: int)
    requires |s.waiters| <= m <= n
    ensures WakeMany(s, m) == WakeMany(s, n)
    decreases |s.waiters|
  {
    if s.waiters != [] { WakeEnough(WakeOne(s), m - 1, n - 1); }
  }

  /** Whatever interrupts add while the queue is locked, unlocking it leaves it as if
      it had never been locked, although the count stops at the number of tasks. */
  lemma LockDefers(s: Side, k: nat, tasks: nat)
    requires s.lock == UNLOCKED && |s.waiters| <= tasks
    ensures Unlock(Signals(Lock(s), k, tasks)) == Signals(s, k, tasks)
  {
    hide WakeMany, Signals;
    var n := if k <= tasks then k else tasks;
    LockedSignals(Lock(s), k, tasks);
    UnlockedSignals(s, k, tasks);
    AvailApart(s.(lock := n), s.avail + k, n);
    LockApart(s, n, n);
    if k > tasks { WakeEnough(s, tasks, k); }
  }
}

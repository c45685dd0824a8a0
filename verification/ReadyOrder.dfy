/** In what order tasks that become ready get their turn. */
module ReadyOrder {
  import opened Basics
  import opened Rings
  import opened Ticks
  import opened Scheduler
  import opened SchedulerSafety

  /** The order in which the members take turns after `ts` have joined one by one: behind
      everyone else, only before the member whose turn it is. */
  function Joined(r: Ring<Task>, ts: seq<Task>): seq<Task>
    requires WellFormed(r)
  {
    var o := VisitOrder(r);
    if r.index == 0 then o + ts else o[..|o| - 1] + ts + [Owner(r)]
  }

  lemma NoneJoined(r: Ring<Task>)
    requires WellFormed(r)
    ensures Joined(r, []) == VisitOrder(r)
  {
    InsertEndOrder(r, 0);
  }

  lemma Regroup(a: seq<Task>, x: Task, ts: seq<Task>, w: seq<Task>)
    ensures a + [x] + ts + w == a + ([x] + ts) + w
  {
  }

  lemma AllButLast(a: seq<Task>, x: Task, w: Task)
    ensures (a + [x] + [w])[..|a| + 1] == a + [x] && |a + [x] + [w]| == |a| + 2
  {
  }

  lemma InsertEndIndex(r: Ring<Task>, x: Task)
    requires WellFormed(r)
    ensures (InsertEnd(r, x).index == 0) == (r.index == 0) && (r.index > 0 ==> Owner(InsertEnd(r, x)) == Owner(r))
  {
  }

  lemma JoinedOne(r: Ring<Task>, x: Task, ts: seq<Task>)
    requires WellFormed(r)
    ensures Joined(InsertEnd(r, x), ts) == Joined(r, [x] + ts)
  {
    hide InsertEnd, VisitOrder, Owner;
    InsertEndOrder(r, x);
    InsertEndIndex(r, x);
    var o := VisitOrder(r);
    if r.index == 0 {
      Regroup(o, x, ts, []);
      assert o + [x] + ts + [] == o + [x] + ts && o + ([x] + ts) + [] == o + ([x] + ts);
    } else {
      AllButLast(o[..|o| - 1], x, Owner(r));
      Regroup(o[..|o| - 1], x, ts, [Owner(r)]);
    }
  }

  /** Those of one priority, in the same order. */
  function OfPriority(ts: seq<Task>, priority: map<Task, nat>, p: nat): seq<Task> {
    if ts == [] then []
    else (if At(priority, ts[0]) == p then [ts[0]] else []) + OfPriority(ts[1..], priority, p)
  }

  lemma NoneOf(priority: map<Task, nat>, p: nat)
    ensures OfPriority([], priority, p) == []
  {
  }

  lemma FirstJoins(r: Ring<Task>, ts: seq<Task>, priority: map<Task, nat>, p: nat)
    requires WellFormed(r) && ts != []
    ensures var r' := if At(priority, ts[0]) == p then InsertEnd(r, ts[0]) else r;
            Joined(r, OfPriority(ts, priority, p)) == Joined(r', OfPriority(ts[1..], priority, p))
  {
    hide Joined, InsertEnd;
    var rest := OfPriority(ts[1..], priority, p);
    JoinedOne(r, ts[0], rest);
    assert [] + rest == rest;
  }

  /** A blocked task that becomes ready joins the list of its priority, and no other
      list changes. */
  lemma MovedJoins(k: Kernel, t: Task, lo: int, p: nat)
    requires Core(k, lo) && Blocked(k, t) && p < MAX_PRIORITIES
    ensures t in k.priority
    ensures MoveToReady(k, t).ready[p] == if At(k.priority, t) == p then InsertEnd(k.ready[p], t) else k.ready[p]
    ensures MoveToReady(k, t).priority == k.priority
  {
    hide Timing, Bits, Events, InsertEnd, Without, NoDuplicates;
    assert t in k.priority;
    assert !InReady(k.ready, k.priority, t);
  }

  lemma MovedDelayed(k: Kernel, t: Task)
    requires Typed(k)
    ensures var k' := MoveToReady(RemoveEvent(k, t), t);
            && k'.delayed == Without(k.delayed, t) && k'.overflow == Without(k.overflow, t)
            && k'.pending == Without(k.pending, t)
            && k'.wake == k.wake && k'.tick == k.tick && k'.priority == k.priority
  {
  }

  lemma WithoutHead(ts: seq<Task>)
    requires ts != []
    ensures Without(ts, ts[0]) == ts[1..]
  {
    WithoutCons(ts, ts[0]);
  }

  /** The first n tasks of the delayed list, and only they, are due. */
  ghost predicate Due(k: Kernel, n: nat) {
    && n <= |k.delayed| && (forall i :: 0 <= i < n ==> At(k.wake, k.delayed[i]) <= k.tick)
    && (n < |k.delayed| ==> At(k.wake, k.delayed[n]) > k.tick)
  }

  lemma DueStep(k: Kernel, n: nat)
    requires Core(k, k.tick - 1) && Due(k, n) && n > 0
    ensures var k' := UnblockHead(k);
            && Core(k', k'.tick - 1) && Due(k', n - 1) && UnblockDue(k) == UnblockDue(k')
            && k'.priority == k.priority && k'.delayed == k.delayed[1..] && k'.wake == k.wake
  {
    hide Timing, Bits, Partition, ReadyLists, Events, InReady, MoveToReady, RemoveEvent, Without;
    UnblockHeadKeeps(k, k.tick - 1);
    MovedDelayed(k, k.delayed[0]);
    WithoutHead(k.delayed);
  }

  /** At a tick the tasks whose time has come join in the order of the delayed list, the
      earlier sleeper first. */
  lemma {:induction false} DueJoinInOrder(k: Kernel, n: nat, p: nat)
    requires Core(k, k.tick - 1) && Due(k, n) && p < MAX_PRIORITIES
    ensures var k' := UnblockDue(k);
            && WellFormed(k.ready[p]) && WellFormed(k'.ready[p])
            && VisitOrder(k'.ready[p]) == Joined(k.ready[p], OfPriority(k.delayed[..n], k.priority, p))
    decreases n
  {
    hide Timing, Bits, Partition, ReadyLists, Events, InReady, Joined, VisitOrder, InsertEnd, OfPriority;
    hide UnblockHead;
    if n == 0 {
      NoneDue(k, p);
    } else {
      hide UnblockDue, Due;
      DueStep(k, n);
      HeadJoins(k, k.tick - 1, p);
      DueJoinInOrder(UnblockHead(k), n - 1, p);
      FirstDue(k.delayed, n);
      FirstJoins(k.ready[p], k.delayed[..n], k.priority, p);
    }
  }

  lemma NoneDue(k: Kernel, p: nat)
    requires Core(k, k.tick - 1) && Due(k, 0) && p < MAX_PRIORITIES
    ensures WellFormed(k.ready[p]) && UnblockDue(k).ready == k.ready
    ensures VisitOrder(k.ready[p]) == Joined(k.ready[p], OfPriority(k.delayed[..0], k.priority, p))
  {
    hide Timing, Bits, Partition, ReadyLists, Events, InReady, Joined, VisitOrder, OfPriority, UnblockHead;
    NoneJoined(k.ready[p]);
    NoneOf(k.priority, p);
  }

  lemma FirstDue(ts: seq<Task>, n: nat)
    requires 0 < n <= |ts|
    ensures ts[..n][1..] == ts[1..][..n - 1] && ts[..n][0] == ts[0]
  {
  }

  /** The rest stay, and the next unblock time is the first of theirs. */
  lemma {:induction false} OthersSleepOn(k: Kernel, n: nat)
    requires Core(k, k.tick - 1) && Due(k, n)
    ensures var k' := UnblockDue(k);
            && k'.delayed == k.delayed[n..]
            && k'.nextUnblock == if k'.delayed == [] then MAX_DELAY else At(k.wake, k'.delayed[0])
    decreases n
  {
    hide Timing, Bits, Partition, ReadyLists, Events, InReady, UnblockHead;
    if n == 0 {
      assert k.delayed[0..] == k.delayed;
    } else {
      DueStep(k, n);
      hide UnblockDue;
      OthersSleepOn(UnblockHead(k), n - 1);
      assert k.delayed[1..][n - 1..] == k.delayed[n..];
    }
  }

  lemma HeadJoins(k: Kernel, lo: int, p: nat)
    requires Core(k, lo) && k.delayed != [] && p < MAX_PRIORITIES
    ensures var t := k.delayed[0];
            UnblockHead(k).ready[p] == if At(k.priority, t) == p then InsertEnd(k.ready[p], t) else k.ready[p]
  {
    hide Timing, Bits, Partition, ReadyLists, Events, InReady, MoveToReady, InsertEnd;
    var t := k.delayed[0];
    assert t in k.delayed && Blocked(k, t);
    RemoveEventKeeps(k, t, lo);
    assert Blocked(RemoveEvent(k, t), t);
    MovedJoins(RemoveEvent(k, t), t, lo, p);
  }

  /** The tasks held back while the scheduler was suspended join in the order in which
      their events came. */
  lemma {:induction false} PendingJoinInOrder(k: Kernel, lo: int, p: nat)
    requires Core(k, lo) && p < MAX_PRIORITIES && (forall t :: t in k.pending ==> Blocked(k, t))
    ensures var k' := DrainPending(k);
            && WellFormed(k.ready[p]) && WellFormed(k'.ready[p])
            && VisitOrder(k'.ready[p]) == Joined(k.ready[p], OfPriority(k.pending, k.priority, p))
    decreases |k.pending|
  {
    hide Timing, Bits, Partition, ReadyLists, InReady, MoveToReady, RemoveEvent, Joined, VisitOrder, InsertEnd;
    hide Without, NoDuplicates, OfPriority;
    if k.pending == [] {
      NoneJoined(k.ready[p]);
      NoneOf(k.priority, p);
    } else {
      var t := k.pending[0];
      assert t in k.pending;
      var k1 := RemoveEvent(k, t);
      RemoveEventKeeps(k, t, lo);
      StillBlocked(k, t);
      MoveToReadyKeeps(k1, t, lo);
      MovedJoins(k1, t, lo, p);
      MovedDelayed(k, t);
      WithoutHead(k.pending);
      PendingBlocked(k, t);
      PendingJoinInOrder(MoveToReady(k1, t), lo, p);
      FirstJoins(k.ready[p], k.pending, k.priority, p);
    }
  }

  lemma StillBlocked(k: Kernel, t: Task)
    requires Typed(k)
    ensures var k1 := RemoveEvent(k, t);
            k1.ready == k.ready && k1.priority == k.priority && Blocked(k1, t) == Blocked(k, t) && t !in k1.eventOf
  {
  }

  lemma PendingBlocked(k: Kernel, t: Task)
    requires Typed(k) && NoDuplicates(k.pending) && k.pending != [] && t == k.pending[0]
    requires Partition(k.ready, k.delayed, k.overflow, k.priority)
    requires forall u :: u in k.pending ==> Blocked(k, u)
    ensures var k' := MoveToReady(RemoveEvent(k, t), t); forall u :: u in k'.pending ==> Blocked(k', u)
  {
    MovedDelayed(k, t);
    hide MoveToReady, RemoveEvent, Without;
    WithoutMembers(k.delayed, t);
    WithoutMembers(k.overflow, t);
    WithoutMembers(k.pending, t);
  }

  /** prvResetNextTaskUnblockTime finds the least wake time of the current list. */
  lemma ResetNextExact(k: Kernel, lo: int)
    requires Core(k, lo)
    ensures var next := ResetNextUnblock(k).nextUnblock;
            && (k.delayed == [] ==> next == MAX_DELAY)
            && (k.delayed != [] ==> exists t :: t in k.delayed && next == At(k.wake, t))
            && (forall t :: t in k.delayed ==> next <= At(k.wake, t))
  {
    hide Bits, Partition, ReadyLists, Events, InReady;
    if k.delayed != [] {
      HeadIsFirst(k.delayed, k.wake);
      assert k.delayed[0] in k.delayed;
    }
  }
}

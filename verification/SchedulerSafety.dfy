/** What every step of the scheduler keeps. */
module SchedulerSafety {
  import opened Basics
  import opened Rings
  import opened Scheduler
  import opened Ticks

  ghost predicate OneOf(a: bool, b: bool, c: bool) {
    (a && !b && !c) || (!a && b && !c) || (!a && !b && c)
  }

  ghost predicate InReady(ready: seq<Ring<Task>>, priority: map<Task, nat>, t: Task) {
    t in priority && priority[t] < |ready| && t in ready[priority[t]].items
  }

  /** A ready list holds tasks of its own priority only, each once. */
  ghost predicate ReadyLists(ready: seq<Ring<Task>>, priority: map<Task, nat>) {
    && (forall p :: 0 <= p < |ready| ==> NoDuplicates(ready[p].items))
    && (forall p, t :: 0 <= p < |ready| && t in ready[p].items ==> t in priority && priority[t] == p)
  }

  /** The state item of each task is in exactly one list. */
  ghost predicate Partition(ready: seq<Ring<Task>>, delayed: seq<Task>, overflow: seq<Task>, priority: map<Task, nat>) {
    && NoDuplicates(delayed) && NoDuplicates(overflow)
    && (forall t :: t in delayed ==> t in priority)
    && (forall t :: t in overflow ==> t in priority)
    && (forall t :: t in priority ==> OneOf(InReady(ready, priority, t), t in delayed, t in overflow))
  }

  /** The event item of each task is in at most one list, and a task on an event
      list is blocked. */
  ghost predicate Events(pending: seq<Task>, eventOf: map<Task, nat>, delayed: seq<Task>, overflow: seq<Task>,
                         priority: map<Task, nat>) {
    && NoDuplicates(pending)
    && (forall t :: t in pending ==> t in priority && t !in eventOf)
    && (forall t :: t in eventOf ==> t in delayed || t in overflow)
  }

  /** Both delayed lists are sorted, wake times of the current one lie above `lo`
      and none precedes the cached next unblock time. */
  ghost predicate Timing(delayed: seq<Task>, overflow: seq<Task>, wake: map<Task, nat>, next: nat, lo: int) {
    && Sorted(delayed, wake) && Sorted(overflow, wake) && next <= MAX_DELAY
    && (forall t :: t in delayed ==> lo < At(wake, t) <= MAX_DELAY && next <= At(wake, t))
    && (forall t :: t in overflow ==> At(wake, t) <= MAX_DELAY)
  }

  /** A bit is set exactly for the non-empty ready lists; the generic variable
      bounds them from above. */
  ghost predicate Bits(ready: seq<Ring<Task>>, top: set<nat>, bound: nat) {
    && (forall p :: p in top <==> 0 <= p < |ready| && ready[p].items != [])
    && (forall p :: 0 <= p < |ready| && ready[p].items != [] ==> p <= bound)
    && bound < |ready|
  }

  ghost predicate Tasks(k: Kernel) {
    k.base.Keys == k.priority.Keys && k.current in k.priority && k.idle in k.priority
  }

  /** Everything that also holds inside xTaskResumeAll and, with `lo` one below
      the tick count, inside xTaskIncrementTick. */
  ghost predicate Core(k: Kernel, lo: int) {
    && Typed(k) && Tasks(k) && k.tick < WRAP
    && ReadyLists(k.ready, k.priority)
    && Partition(k.ready, k.delayed, k.overflow, k.priority)
    && Events(k.pending, k.eventOf, k.delayed, k.overflow, k.priority)
    && Timing(k.delayed, k.overflow, k.wake, k.nextUnblock, lo)
    && Bits(k.ready, k.top, k.bound)
    && InReady(k.ready, k.priority, k.idle)
  }

  /** The invariant at step boundaries. */
  ghost predicate Inv(k: Kernel) {
    Core(k, k.tick) && (k.suspended == 0 ==> k.pending == [] && k.pended == 0)
  }

  // -------------------------------------------------- moving to a ready list

  lemma RemoveThenAdd(r: Ring<Task>, t: Task)
    requires WellFormed(r) && NoDuplicates(r.items)
    ensures var r' := InsertEnd(Drop(r, t), t);
            NoDuplicates(r'.items) && forall x :: x in r'.items <==> x == t || x in r.items
  {
    DropMembers(r, t);
    InsertEndMembers(Drop(r, t), t);
  }

  /** Effect of MoveToReady on the lists, by membership. */
  lemma MoveToReadyLists(k: Kernel, t: Task)
    requires Typed(k) && t in k.priority && ReadyLists(k.ready, k.priority)
    requires Partition(k.ready, k.delayed, k.overflow, k.priority)
    ensures var k' := MoveToReady(k, t);
            && ReadyLists(k'.ready, k.priority)
            && Partition(k'.ready, k'.delayed, k'.overflow, k.priority)
            && InReady(k'.ready, k.priority, t)
            && (forall x :: InReady(k.ready, k.priority, x) ==> InReady(k'.ready, k.priority, x))
            && (forall x :: x in k'.delayed <==> x != t && x in k.delayed)
            && (forall x :: x in k'.overflow <==> x != t && x in k.overflow)
  {
    hide Drop, InsertEnd, Without, NoDuplicates, WellFormed;
    WithoutMembers(k.delayed, t);
    WithoutMembers(k.overflow, t);
    RemoveThenAdd(k.ready[k.priority[t]], t);
  }

  lemma TimingWithout(k: Kernel, t: Task, lo: int)
    requires Timing(k.delayed, k.overflow, k.wake, k.nextUnblock, lo)
    requires Partition(k.ready, k.delayed, k.overflow, k.priority)
    ensures Timing(Without(k.delayed, t), Without(k.overflow, t), k.wake, k.nextUnblock, lo)
  {
    WithoutSorted(k.delayed, t, k.wake);
    WithoutSorted(k.overflow, t, k.wake);
    WithoutMembers(k.delayed, t);
    WithoutMembers(k.overflow, t);
  }

  lemma BitsAfterAdd(k: Kernel, p: nat, r: Ring<Task>)
    requires Bits(k.ready, k.top, k.bound) && p < |k.ready| && r.items != []
    ensures Bits(k.ready[p := r], k.top + {p}, Larger(k.bound, p))
  {
  }

  lemma MoveToReadyKeeps(k: Kernel, t: Task, lo: int)
    requires Core(k, lo) && t in k.priority && t !in k.eventOf
    ensures Core(MoveToReady(k, t), lo)
  {
    hide Drop, InsertEnd, Without, Timing, Bits, Partition, ReadyLists;
    var p, k' := k.priority[t], MoveToReady(k, t);
    var r := InsertEnd(Drop(k.ready[p], t), t);
    MoveToReadyLists(k, t);
    TimingWithout(k, t, lo);
    assert k'.ready[p] == r && k'.ready == k.ready[p := r];
    BitsAfterAdd(k, p, r);
  }

  lemma RemoveEventKeeps(k: Kernel, t: Task, lo: int)
    requires Core(k, lo)
    ensures Core(RemoveEvent(k, t), lo)
    ensures forall x :: x in RemoveEvent(k, t).pending <==> x != t && x in k.pending
    ensures |RemoveEvent(k, t).pending| == if t in k.pending then |k.pending| - 1 else |k.pending|
  {
    hide Without, Timing, Bits, Partition, ReadyLists;
    WithoutMembers(k.pending, t);
  }

  // ---------------------------------------------------------------- the tick

  lemma UnblockHeadKeeps(k: Kernel, lo: int)
    requires Core(k, lo) && k.delayed != []
    ensures Core(UnblockHead(k), lo)
  {
    hide MoveToReady, Timing, Bits, ReadyLists;
    var t := k.delayed[0];
    assert t in k.delayed;
    RemoveEventKeeps(k, t, lo);
    MoveToReadyKeeps(RemoveEvent(k, t), t, lo);
  }

  lemma {:induction false} UnblockDueKeeps(k: Kernel)
    requires Core(k, k.tick - 1)
    ensures Core(UnblockDue(k), k.tick)
    decreases |k.delayed|
  {
    hide UnblockHead, Bits, Partition, ReadyLists, Events;
    if k.delayed != [] {
      if k.tick < At(k.wake, k.delayed[0]) {
        HeadIsFirst(k.delayed, k.wake);
      } else {
        assert k.tick == UnblockHead(k).tick by { UnblockHeadFrame(k); }
        UnblockHeadKeeps(k, k.tick - 1);
        UnblockDueKeeps(UnblockHead(k));
      }
    }
  }

  lemma HeadIsFirst(s: seq<Task>, wake: map<Task, nat>)
    requires Sorted(s, wake) && s != []
    ensures forall t :: t in s ==> At(wake, s[0]) <= At(wake, t)
  {
  }

  lemma UnblockHeadFrame(k: Kernel)
    requires Typed(k) && k.delayed != []
    ensures var k' := UnblockHead(k);
            k' == k.(ready := k'.ready, top := k'.top, bound := k'.bound, delayed := k'.delayed,
                     overflow := k'.overflow, pending := k'.pending, eventOf := k'.eventOf)
  {
  }

  lemma ResetNextKeeps(k: Kernel, lo: int)
    requires Core(k, lo)
    ensures Core(ResetNextUnblock(k), lo)
  {
    hide Bits, Partition, ReadyLists, Events;
    if k.delayed != [] {
      HeadIsFirst(k.delayed, k.wake);
      assert k.delayed[0] in k.delayed;
    }
  }

  lemma EmptyIff(s: seq<Task>)
    ensures s == [] <==> forall t :: t !in s
  {
    assert s != [] ==> s[0] in s;
  }

  /** The assertion in taskSWITCH_DELAYED_LISTS: when the tick count wraps no
      task can be left in the current delayed list. */
  lemma EmptyAtSwitch(k: Kernel)
    requires Core(k, MAX_DELAY)
    ensures k.delayed == []
  {
    hide Bits, ReadyLists, Partition;
    EmptyIff(k.delayed);
  }

  lemma SwitchFindsEmpty(k: Kernel)
    requires Core(k, k.tick) && (k.tick + 1) % WRAP == 0
    ensures k.delayed == [] && k.tick == MAX_DELAY
  {
    hide Bits, ReadyLists, Partition, Timing, Events, InReady;
    EmptyAtSwitch(k);
  }

  lemma SwapPartition(k: Kernel)
    requires Partition(k.ready, k.delayed, k.overflow, k.priority)
    ensures Partition(k.ready, k.overflow, k.delayed, k.priority)
  {
  }

  lemma SwitchListsKeeps(k: Kernel)
    requires Core(k, MAX_DELAY)
    ensures Core(SwitchDelayedLists(k), -1)
  {
    hide Bits, ReadyLists, Partition, ResetNextUnblock;
    EmptyAtSwitch(k);
    SwapPartition(k);
    var k' := k.(delayed := k.overflow, overflow := k.delayed, overflows := k.overflows + 1);
    ResetNextKeeps(k'.(nextUnblock := 0), -1);
    ResetIgnoresNext(k');
  }

  lemma ResetIgnoresNext(k: Kernel)
    ensures ResetNextUnblock(k.(nextUnblock := 0)) == ResetNextUnblock(k)
  {
  }

  lemma AdvanceTickKeeps(k: Kernel)
    requires Core(k, k.tick)
    ensures Core(AdvanceTick(k), (k.tick + 1) % WRAP)
  {
    hide UnblockDue, SwitchDelayedLists, Bits, Partition, ReadyLists, Events;
    var k1 := k.(tick := (k.tick + 1) % WRAP);
    if k1.tick == 0 {
      SwitchListsKeeps(k1);
      assert SwitchDelayedLists(k1).tick == 0 by { SwitchListsFrame(k1); }
    }
    var k2 := if k1.tick == 0 then SwitchDelayedLists(k1) else k1;
    assert Core(k2, k2.tick - 1);
    if k2.tick >= k2.nextUnblock { UnblockDueKeeps(k2); }
  }

  lemma SwitchListsFrame(k: Kernel)
    ensures SwitchDelayedLists(k).tick == k.tick
  {
  }

  // ------------------------------------------------------------- xTaskResumeAll

  lemma {:induction false} DrainPendingKeeps(k: Kernel, lo: int)
    requires Core(k, lo)
    ensures Core(DrainPending(k), lo) && DrainPending(k).pending == []
    ensures var k' := DrainPending(k);
            k' == k.(ready := k'.ready, top := k'.top, bound := k'.bound, delayed := k'.delayed,
                     overflow := k'.overflow, pending := [], eventOf := k'.eventOf)
    decreases |k.pending|
  {
    hide Timing, Bits, Partition, ReadyLists, InsertEnd, Drop, Without;
    if k.pending != [] {
      var t := k.pending[0];
      assert t in k.pending;
      var k1 := RemoveEvent(k, t);
      RemoveEventKeeps(k, t, lo);
      MoveToReadyKeeps(k1, t, lo);
      DrainPendingKeeps(MoveToReady(k1, t), lo);
    }
  }

  lemma {:induction false} AdvanceTicksKeeps(k: Kernel, n: nat)
    requires Core(k, k.tick) && k.pending == []
    ensures var k' := AdvanceTicks(k, n); Core(k', k'.tick) && k'.pending == [] && k'.suspended == k.suspended
    decreases n
  {
    hide AdvanceTick, Timing, Bits, Partition, ReadyLists, Events, InReady;
    if n > 0 {
      AdvanceTickKeeps(k);
      AdvanceTickFrame(k);
      AdvanceTicksKeeps(AdvanceTick(k), n - 1);
    }
  }

  lemma {:induction false} UnblockDueFrame(k: Kernel)
    requires Typed(k)
    ensures var k' := UnblockDue(k);
            k' == k.(ready := k'.ready, top := k'.top, bound := k'.bound, delayed := k'.delayed,
                     nextUnblock := k'.nextUnblock,
                     overflow := k'.overflow, pending := k'.pending, eventOf := k'.eventOf)
    ensures k.pending == [] ==> UnblockDue(k).pending == []
    decreases |k.delayed|
  {
    hide MoveToReady;
    if k.delayed != [] && k.tick >= At(k.wake, k.delayed[0]) {
      UnblockHeadFrame(k);
      UnblockHeadPending(k);
      hide UnblockHead;
      UnblockDueFrame(UnblockHead(k));
    }
  }

  lemma UnblockHeadPending(k: Kernel)
    requires Typed(k) && k.delayed != []
    ensures k.pending == [] ==> UnblockHead(k).pending == []
  {
  }

  lemma AdvanceTickFrame(k: Kernel)
    requires Core(k, k.tick)
    ensures var k' := AdvanceTick(k);
            && k'.tick == (k.tick + 1) % WRAP && k'.overflows == k.overflows + (if k.tick == MAX_DELAY then 1 else 0)
            && (k.pending == [] ==> k'.pending == [])
            && k' == k.(ready := k'.ready, top := k'.top, bound := k'.bound, delayed := k'.delayed,
                        overflow := k'.overflow,
                        nextUnblock := k'.nextUnblock, pending := k'.pending, eventOf := k'.eventOf,
                        tick := k'.tick, overflows := k'.overflows)
  {
    hide UnblockDue, Timing, Bits, Partition, ReadyLists, Events, InReady;
    var k1 := k.(tick := (k.tick + 1) % WRAP);
    UnblockDueFrame(if k1.tick == 0 then SwitchDelayedLists(k1) else k1);
  }

  lemma ResumeAllKeeps(k: Kernel)
    requires Inv(k) && k.suspended > 0
    ensures Inv(ResumeAll(k))
  {
    hide DrainPending, AdvanceTicks, ResetNextUnblock, Timing, Bits, Partition, ReadyLists, Events, InReady;
    var k1 := k.(suspended := k.suspended - 1);
    if k1.suspended == 0 {
      CoreSuspended(k, k1);
      DrainPendingKeeps(k1, k1.tick);
      var k2 := DrainPending(k1);
      ResetNextKeeps(k2, k2.tick);
      ResetFrame(k2);
      var k3 := if k1.pending == [] then k2 else ResetNextUnblock(k2);
      AdvanceTicksKeeps(k3, k3.pended);
      var k4 := AdvanceTicks(k3, k3.pended);
      CoreSuspended(k4, k4.(pended := 0));
    } else {
      CoreSuspended(k, k1);
    }
  }

  lemma ResetFrame(k: Kernel)
    ensures ResetNextUnblock(k) == k.(nextUnblock := ResetNextUnblock(k).nextUnblock)
  {
  }

  /** The core says nothing about the suspension depth and the pended ticks. */
  lemma CoreSuspended(k: Kernel, k': Kernel)
    requires Core(k, k.tick) && k' == k.(suspended := k'.suspended, pended := k'.pended)
    ensures Core(k', k'.tick)
  {
  }

  // ------------------------------------------------------------------ blocking

  ghost predicate MayBlock(k: Kernel) {
    InReady(k.ready, k.priority, k.current) && k.current != k.idle && k.current !in k.eventOf
  }

  /** A task leaves its ready list. */
  lemma LeftReady(ready: seq<Ring<Task>>, priority: map<Task, nat>, t: Task, r: Ring<Task>)
    requires ReadyLists(ready, priority) && InReady(ready, priority, t) && WellFormed(ready[priority[t]])
    requires r == Drop(ready[priority[t]], t)
    ensures ReadyLists(ready[priority[t] := r], priority)
    ensures forall x :: InReady(ready[priority[t] := r], priority, x) <==> x != t && InReady(ready, priority, x)
  {
    hide Drop, NoDuplicates, WellFormed;
    DropMembers(ready[priority[t]], t);
  }

  /** The current task leaves its ready list for one of the delayed lists. */
  lemma BlockLists(k: Kernel, r: Ring<Task>, d: seq<Task>, o: seq<Task>)
    requires Typed(k) && Tasks(k) && ReadyLists(k.ready, k.priority)
    requires Partition(k.ready, k.delayed, k.overflow, k.priority)
    requires InReady(k.ready, k.priority, k.current) && r == Drop(k.ready[k.priority[k.current]], k.current)
    requires NoDuplicates(d) && NoDuplicates(o)
    requires || ((forall x :: x in d <==> x == k.current || x in k.delayed) && o == k.overflow)
             || ((forall x :: x in o <==> x == k.current || x in k.overflow) && d == k.delayed)
    ensures var ready' := k.ready[k.priority[k.current] := r];
            && ReadyLists(ready', k.priority) && Partition(ready', d, o, k.priority)
            && forall x :: InReady(ready', k.priority, x) <==> x != k.current && InReady(k.ready, k.priority, x)
  {
    hide Drop, NoDuplicates, WellFormed, ReadyLists, InReady;
    assert k.priority[k.current] < |k.ready| && WellFormed(k.ready[k.priority[k.current]]);
    LeftReady(k.ready, k.priority, k.current, r);
  }

  lemma SameValues(s: seq<Task>, wake: map<Task, nat>, t: Task, v: nat)
    requires Sorted(s, wake) && t !in s
    ensures Sorted(s, wake[t := v])
  {
  }

  lemma InsertTimed(s: seq<Task>, wake: map<Task, nat>, t: Task, v: nat)
    requires Sorted(s, wake) && NoDuplicates(s) && t !in s
    ensures var w, s' := wake[t := v], InsertSorted(s, t, wake[t := v]);
            && Sorted(s', w) && Sorted(s, w)
            && forall x :: x in s' <==> x == t || x in s
  {
    hide NoDuplicates, InsertSorted;
    SameValues(s, wake, t, v);
    InsertSortedStable(s, t, wake[t := v]);
    InsertMembers(s, t, wake[t := v]);
    hide Sorted;
  }

  /** A task put in the current list wakes later than now. */
  lemma BlockTiming(k: Kernel, t: Task, v: nat, lo: int)
    requires Timing(k.delayed, k.overflow, k.wake, k.nextUnblock, lo) && t !in k.delayed && t !in k.overflow
    requires NoDuplicates(k.delayed) && NoDuplicates(k.overflow) && v <= MAX_DELAY
    ensures var w := k.wake[t := v];
            && (lo < v ==> Timing(InsertSorted(k.delayed, t, w), k.overflow, w, if v < k.nextUnblock then v
                                  else k.nextUnblock, lo))
            && Timing(k.delayed, InsertSorted(k.overflow, t, w), w, k.nextUnblock, lo)
  {
    hide NoDuplicates, InsertSorted, Sorted;
    InsertTimed(k.delayed, k.wake, t, v);
    InsertTimed(k.overflow, k.wake, t, v);
  }

  lemma BitsAfterDrop(k: Kernel, p: nat, r: Ring<Task>)
    requires Bits(k.ready, k.top, k.bound) && p < |k.ready|
    requires r.items != [] ==> k.ready[p].items != []
    ensures Bits(k.ready[p := r], if r.items == [] then k.top - {p} else k.top + {p}, k.bound)
    ensures k.ready[p].items != [] && r.items != [] ==> k.top + {p} == k.top
  {
  }

  /** prvAddCurrentTaskToDelayedList for a ready task, written out. */
  lemma BlockForm(k: Kernel, ticks: nat)
    requires Core(k, k.tick) && MayBlock(k)
    ensures var t, p, v := k.current, k.priority[k.current], (k.tick + ticks) % WRAP;
            var r, w := Drop(k.ready[p], t), k.wake[t := v];
            var k1 := k.(ready := k.ready[p := r], top := if r.items == [] then k.top - {p} else k.top, wake := w);
            BlockCurrent(k, ticks) ==
              if v < k.tick then k1.(overflow := InsertSorted(k.overflow, t, w))
              else k1.(delayed := InsertSorted(k.delayed, t, w), nextUnblock := if v < k.nextUnblock then v
                       else k.nextUnblock)
  {
    hide Bits, ReadyLists, Timing, InsertSorted, Drop;
    assert k.current !in k.delayed && k.current !in k.overflow;
    assert Without(k.delayed, k.current) == k.delayed && Without(k.overflow, k.current) == k.overflow;
  }

  lemma ReadyIsNotDelayed(k: Kernel, t: Task)
    requires Partition(k.ready, k.delayed, k.overflow, k.priority) && InReady(k.ready, k.priority, t)
    ensures t !in k.delayed && t !in k.overflow && NoDuplicates(k.delayed) && NoDuplicates(k.overflow)
    ensures k.ready[k.priority[t]].items != []
  {
  }

  lemma BlockedLists(k: Kernel, ticks: nat)
    requires Core(k, k.tick) && MayBlock(k)
    ensures var k' := BlockCurrent(k, ticks);
            && ReadyLists(k'.ready, k.priority) && Partition(k'.ready, k'.delayed, k'.overflow, k.priority)
            && InReady(k'.ready, k.priority, k.idle) && Blocked(k', k.current)
            && (forall x :: x in k.delayed ==> x in k'.delayed)
            && (forall x :: x in k.overflow ==> x in k'.overflow)
  {
    hide Bits, ReadyLists, Partition, Timing, NoDuplicates, InsertSorted, Drop, BlockCurrent;
    var t, v := k.current, (k.tick + ticks) % WRAP;
    var w := k.wake[t := v];
    BlockForm(k, ticks);
    ReadyIsNotDelayed(k, t);
    InsertMembers(k.delayed, t, w);
    InsertMembers(k.overflow, t, w);
    var r, k' := Drop(k.ready[k.priority[t]], t), BlockCurrent(k, ticks);
    BlockLists(k, r, k'.delayed, k'.overflow);
  }

  lemma BlockCurrentKeeps(k: Kernel, ticks: nat)
    requires Core(k, k.tick) && MayBlock(k) && 1 <= ticks <= MAX_DELAY
    ensures Core(BlockCurrent(k, ticks), k.tick) && Blocked(BlockCurrent(k, ticks), k.current)
  {
    hide Bits, ReadyLists, Partition, Timing, NoDuplicates, InsertSorted, Drop, BlockCurrent, InReady;
    var t, p := k.current, k.priority[k.current];
    BlockForm(k, ticks);
    BlockedLists(k, ticks);
    ReadyIsNotDelayed(k, t);
    BlockTiming(k, t, (k.tick + ticks) % WRAP, k.tick);
    BitsAfterDrop(k, p, Drop(k.ready[p], t));
  }

  lemma PlaceOnEventListKeeps(k: Kernel, e: nat, ticks: nat)
    requires Core(k, k.tick) && MayBlock(k) && k.current !in k.pending && 1 <= ticks <= MAX_DELAY
    ensures Core(PlaceOnEventList(k, e, ticks), k.tick)
  {
    hide Bits, ReadyLists, Partition, Timing, BlockCurrent, InsertSorted, Drop;
    BlockForm(k, ticks);
    BlockCurrentKeeps(k, ticks);
  }

  // ------------------------------------------------------------------- events

  lemma ReadyOrPendKeeps(k: Kernel, t: Task, lo: int)
    requires Core(k, lo) && t in k.priority && t !in k.eventOf && t !in k.pending
    ensures Core(ReadyOrPend(k, t), lo)
  {
    hide Bits, ReadyLists, Partition, Timing, MoveToReady;
    if k.suspended == 0 {
      MoveToReadyKeeps(k, t, lo);
    }
  }

  lemma RemoveFromEventListKeeps(k: Kernel, t: Task, lo: int)
    requires Core(k, lo) && t in k.priority
    ensures Core(RemoveFromEventList(k, t), lo)
  {
    hide Bits, ReadyLists, Partition, Timing, ReadyOrPend;
    RemoveEventKeeps(k, t, lo);
    ReadyOrPendKeeps(RemoveEvent(k, t), t, lo);
  }

  lemma RemoveFromUnorderedKeeps(k: Kernel, t: Task, v: nat, lo: int)
    requires Core(k, lo) && t in k.priority
    ensures Core(RemoveFromUnorderedEventList(k, t, v), lo)
  {
    hide Bits, ReadyLists, Partition, Timing, Events, MoveToReady, InReady;
    var k1 := k.(eventValue := k.eventValue[t := InUse(v)]);
    assert Core(k1, lo);
    RemoveEventKeeps(k1, t, lo);
    MoveToReadyKeeps(RemoveEvent(k1, t), t, lo);
  }

  // -------------------------------------------------------- effective priority

  /** Another task shares the ready list of `t`. */
  ghost predicate SharesList(k: Kernel, t: Task)
    requires Typed(k)
  {
    HasOther(k.ready[Priority(k, t)].items, t)
  }

  ghost predicate HasOther(s: seq<Task>, t: Task) {
    exists x :: x != t && x in s
  }

  /** The lists after a ready task changes priority. */
  lemma RepriorityLists(k: Kernel, t: Task, p: nat, ready': seq<Ring<Task>>)
    requires Typed(k) && ReadyLists(k.ready, k.priority) && Partition(k.ready, k.delayed, k.overflow, k.priority)
    requires t in k.priority && InReady(k.ready, k.priority, t) && p < MAX_PRIORITIES
    requires var p0 := k.priority[t]; var mid := k.ready[p0 := Drop(k.ready[p0], t)];
             ready' == mid[p := InsertEnd(mid[p], t)]
    ensures ReadyLists(ready', k.priority[t := p])
    ensures Partition(ready', k.delayed, k.overflow, k.priority[t := p])
    ensures forall x :: InReady(k.ready, k.priority, x) ==> InReady(ready', k.priority[t := p], x)
  {
    hide Drop, InsertEnd, NoDuplicates, WellFormed;
    var p0 := k.priority[t];
    var mid := k.ready[p0 := Drop(k.ready[p0], t)];
    DropMembers(k.ready[p0], t);
    InsertEndMembers(mid[p], t);
  }

  lemma RepriorityBlocked(k: Kernel, t: Task, p: nat)
    requires Typed(k) && ReadyLists(k.ready, k.priority) && Partition(k.ready, k.delayed, k.overflow, k.priority)
    requires t in k.priority && !InReady(k.ready, k.priority, t) && p < MAX_PRIORITIES
    ensures ReadyLists(k.ready, k.priority[t := p])
    ensures Partition(k.ready, k.delayed, k.overflow, k.priority[t := p])
    ensures forall x :: InReady(k.ready, k.priority, x) ==> InReady(k.ready, k.priority[t := p], x)
  {
  }

  /** The bits after a ready task moves from list p0 to list p while the bit for
      `cleared` is reset if list p0 became empty: right exactly when the bit reset
      is that of p0, or p0 is p, or p0 keeps a member. */
  lemma RepriorityBits(ready: seq<Ring<Task>>, top: set<nat>, bound: nat, p0: nat, p: nat, cleared: nat, r0: Ring<Task>,
                       r: Ring<Task>)
    requires Bits(ready, top, bound) && p0 < |ready| && p < |ready| && ready[p0].items != [] && r.items != []
    requires cleared == p0 || cleared == p
    ensures Bits(ready[p0 := r0][p := r], (if r0.items == [] then top - {cleared} else top) + {p}, Larger(bound, p))
            <==> cleared == p0 || p == p0 || r0.items != []
  {
    var ready', top' := ready[p0 := r0][p := r], (if r0.items == [] then top - {cleared} else top) + {p};
    if !(cleared == p0 || p == p0 || r0.items != []) {
      assert p0 in top' && ready'[p0].items == [];
    }
  }

  lemma DropLeaves(k: Kernel, t: Task)
    requires Typed(k) && ReadyLists(k.ready, k.priority) && InReady(k.ready, k.priority, t)
    ensures Drop(k.ready[k.priority[t]], t).items == [] <==> !SharesList(k, t)
  {
    var r := k.ready[k.priority[t]];
    hide Drop;
    DropMembers(r, t);
    EmptyIff(Drop(r, t).items);
    if x :| x != t && x in r.items {
      assert x in Drop(r, t).items;
    }
  }

  lemma RepriorityForm(k: Kernel, t: Task, p: nat, cleared: nat)
    requires Core(k, k.tick) && InReady(k.ready, k.priority, t) && p < MAX_PRIORITIES
    ensures var p0 := k.priority[t]; var r0 := Drop(k.ready[p0], t); var mid := k.ready[p0 := r0];
            Reprioritise(k, t, p, cleared) ==
              k.(ready := mid[p := InsertEnd(mid[p], t)], priority := k.priority[t := p],
                 top := (if r0.items == [] then k.top - {cleared} else k.top) + {p}, bound := Larger(k.bound, p))
  {
    hide Bits, ReadyLists, Timing, InsertEnd, Drop;
    ReadyIsNotDelayed(k, t);
  }

  lemma ReprioritiseKeeps(k: Kernel, t: Task, p: nat, cleared: nat)
    requires Core(k, k.tick) && t in k.priority && p < MAX_PRIORITIES
    requires cleared == k.priority[t] || cleared == p
    ensures Core(Reprioritise(k, t, p, cleared), k.tick) <==>
              InReady(k.ready, k.priority, t) ==> cleared == k.priority[t] || p == k.priority[t] || SharesList(k, t)
  {
    hide Bits, ReadyLists, Partition, Timing, InsertEnd, Drop, SharesList;
    if InReady(k.ready, k.priority, t) {
      var p0 := k.priority[t];
      var r0 := Drop(k.ready[p0], t);
      var mid := k.ready[p0 := r0];
      var r := InsertEnd(mid[p], t);
      RepriorityForm(k, t, p, cleared);
      RepriorityLists(k, t, p, mid[p := r]);
      DropLeaves(k, t);
      ReadyIsNotDelayed(k, t);
      assert r.items != [] by { assert InReady(mid[p := r], k.priority[t := p], t); }
      RepriorityBits(k.ready, k.top, k.bound, p0, p, cleared, r0, r);
    } else {
      RepriorityBlocked(k, t, p);
    }
  }

  lemma Below(k: Kernel, t: Task, w: nat)
    requires Typed(k) && w < MAX_PRIORITIES
    ensures At(k.priority, t) < MAX_PRIORITIES && At(k.base, t) < MAX_PRIORITIES
    ensures Larger(At(k.base, t), w) < MAX_PRIORITIES
  {
  }

  lemma PriorityInheritKeeps(k: Kernel, holder: Task)
    requires Core(k, k.tick) && holder in k.priority
    ensures Core(PriorityInherit(k, holder), k.tick)
  {
    hide Bits, ReadyLists, Partition, Timing, Events, InReady, Reprioritise, SharesList;
    var p := Priority(k, k.current);
    var k1 := RevalueEvent(k, holder, p);
    assert Core(k1, k.tick);
    ReprioritiseKeeps(k1, holder, p, k.priority[holder]);
  }

  lemma PriorityDisinheritKeeps(k: Kernel)
    requires Core(k, k.tick)
    ensures Core(PriorityDisinherit(k), k.tick)
  {
    hide Bits, ReadyLists, Partition, Timing, Events, InReady, Reprioritise, SharesList;
    var t, p := k.current, At(k.base, k.current);
    var k1 := k.(eventValue := k.eventValue[t := MAX_PRIORITIES - p]);
    assert Core(k1, k.tick);
    ReprioritiseKeeps(k1, t, p, k.priority[t]);
  }

  /** vTaskPriorityDisinheritAfterTimeout resets the bit of the priority it has
      just assigned.  The bitmap, and with it the invariant, survives exactly when
      the holder is not ready, keeps its priority, or leaves another task behind in
      its old ready list. */
  lemma DisinheritAfterTimeoutKeepsIff(k: Kernel, holder: Task, waiting: nat)
    requires Core(k, k.tick) && holder in k.priority && waiting < MAX_PRIORITIES
    ensures Core(DisinheritAfterTimeout(k, holder, waiting), k.tick) <==>
              || !InReady(k.ready, k.priority, holder)
              || k.priority[holder] == Larger(At(k.base, holder), waiting)
              || SharesList(k, holder)
  {
    hide Bits, ReadyLists, Partition, Timing, Events, InReady, Reprioritise;
    var p := Larger(At(k.base, holder), waiting);
    var k1 := RevalueEvent(k, holder, p);
    assert Core(k1, k.tick);
    ReprioritiseKeeps(k1, holder, p, p);
    assert SharesList(k1, holder) <==> SharesList(k, holder);
  }

  // ------------------------------------------------------------ context switch

  /** A turned list has the same members, so nothing else changes. */
  lemma SameItems(k: Kernel, ready': seq<Ring<Task>>)
    requires Typed(k) && ReadyLists(k.ready, k.priority) && Partition(k.ready, k.delayed, k.overflow, k.priority)
    requires |ready'| == |k.ready| && forall q :: 0 <= q < |k.ready| ==> ready'[q].items == k.ready[q].items
    ensures ReadyLists(ready', k.priority) && Partition(ready', k.delayed, k.overflow, k.priority)
    ensures forall t :: InReady(ready', k.priority, t) <==> InReady(k.ready, k.priority, t)
  {
    hide NoDuplicates;
    assert forall t :: InReady(ready', k.priority, t) <==> InReady(k.ready, k.priority, t);
  }

  lemma SelectKeeps(k: Kernel, p: nat)
    requires Core(k, k.tick) && p < MAX_PRIORITIES && k.ready[p].items != []
    requires forall q :: 0 <= q < |k.ready| && k.ready[q].items != [] ==> q <= p
    ensures Core(SelectFrom(k, p), k.tick)
  {
    hide Timing, Events, Partition;
    var r, k' := Advance(k.ready[p]), SelectFrom(k, p);
    assert Owner(r) in k.ready[p].items;
    assert k'.current in k.priority;
    SameItems(k, k'.ready);
    hide ReadyLists, InReady;
  }

  /** vTaskSwitchContext while the scheduler is not suspended. */
  function SwitchContext(k: Kernel): (k': Kernel)
    requires Core(k, k.tick)
    ensures Core(k', k.tick)
  {
    TopIsNonEmpty(k);
    var p := Highest(k.top, MAX_PRIORITIES);
    SelectKeeps(k, p);
    SelectFrom(k, p)
  }

  lemma TopIsNonEmpty(k: Kernel)
    requires Core(k, k.tick)
    ensures k.priority[k.idle] in k.top && k.priority[k.idle] < MAX_PRIORITIES
  {
  }

  /** The task switched in is ready, and no ready task is more urgent. */
  lemma SwitchedInIsMostUrgent(k: Kernel)
    requires Core(k, k.tick)
    ensures var k' := SwitchContext(k);
            && InReady(k'.ready, k'.priority, k'.current)
            && forall t :: InReady(k'.ready, k'.priority, t) ==> k'.priority[t] <= k'.priority[k'.current]
  {
    hide Timing, Events, Partition;
    TopIsNonEmpty(k);
    var p := Highest(k.top, MAX_PRIORITIES);
    var r, k' := Advance(k.ready[p]), SelectFrom(k, p);
    assert Owner(r) in k.ready[p].items;
    forall t | InReady(k'.ready, k'.priority, t) ensures k'.priority[t] <= p {
      var q := k'.priority[t];
      assert k'.ready[q].items == k.ready[q].items;
      assert q in k.top;
    }
  }
}

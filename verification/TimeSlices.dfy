/** Tasks of equal priority take turns: whom a context switch brings in, and who runs
    over any number of them. */
module TimeSlices {
  import opened Basics
  import opened Rings
  import opened Arithmetic
  import opened Scheduler
  import opened SchedulerSafety
  import opened SchedulerRuns

  /** List p is not empty, and every list of a higher priority is. */
  ghost predicate IsTop(ready: seq<Ring<Task>>, p: nat) {
    p < |ready| && ready[p].items != [] && forall q :: p < q < |ready| ==> ready[q].items == []
  }

  lemma TopIsHighest(k: Kernel, p: nat)
    requires Core(k, k.tick) && IsTop(k.ready, p)
    ensures p < MAX_PRIORITIES && p in k.top && Highest(k.top, MAX_PRIORITIES) == p
  {
    hide Timing, Events, Partition, ReadyLists, InReady;
    assert p in k.top;
  }

  /** The task switched in is the next of the topmost list in the order in which its
      members take turns, and then the last; no other list is touched. */
  lemma SwitchTakesNext(k: Kernel, p: nat)
    requires Core(k, k.tick) && IsTop(k.ready, p)
    ensures WellFormed(k.ready[p])
    ensures var k', o := SwitchContext(k), VisitOrder(k.ready[p]);
            && k'.current == o[0] && |k'.ready| == |k.ready| && k'.ready[p].items == k.ready[p].items
            && WellFormed(k'.ready[p]) && VisitOrder(k'.ready[p]) == o[1..] + [o[0]]
            && (forall q :: 0 <= q < |k.ready| && q != p ==> k'.ready[q] == k.ready[q])
            && k' == k.(current := k'.current, ready := k'.ready, bound := k'.bound)
  {
    hide Timing, Events, Partition, ReadyLists, InReady, Bits, Highest, Advance, VisitOrder, Owner;
    TopIsHighest(k, p);
    AdvanceRotates(k.ready[p]);
    FirstOf(VisitOrder(k.ready[p]));
  }

  lemma FirstOf(o: seq<Task>)
    ensures o != [] ==> o[..1] == [o[0]]
  {
  }

  /** From k to k' the next task of the topmost list is switched in. */
  ghost predicate TakesTurn(k: Kernel, k': Kernel) {
    exists p :: IsTop(k.ready, p) && Turns(k, k', p)
  }

  ghost predicate Turns(k: Kernel, k': Kernel, p: nat) {
    && p < |k.ready| && p < |k'.ready| && WellFormed(k.ready[p]) && WellFormed(k'.ready[p]) && k.ready[p].items != []
    && var o := VisitOrder(k.ready[p]); k'.current == o[0] && VisitOrder(k'.ready[p]) == o[1..] + [o[0]]
  }

  lemma SwitchTurns(k: Kernel)
    requires Core(k, k.tick)
    ensures TakesTurn(k, SwitchContext(k))
  {
    hide Timing, Events, Partition, ReadyLists, SwitchContext, VisitOrder, Highest;
    TopIsNonEmpty(k);
    var p := Highest(k.top, MAX_PRIORITIES);
    assert IsTop(k.ready, p) by {
      forall q | p < q < |k.ready| ensures k.ready[q].items == [] { assert q in k.top <==> k.ready[q].items != []; }
    }
    SwitchTakesNext(k, p);
    assert Turns(k, SwitchContext(k), p);
  }

  /** Throughout the run list p is the topmost, and only switches change it. */
  ghost predicate Slices(k: Kernel, es: seq<Event>, p: nat)
    requires Inv(k) && Runs(k, es)
    decreases |es|
  {
    IsTop(k.ready, p) && (es == [] || (StepKeeps(k, es[0]);
      var k' := Step(k, es[0]);
      && (!es[0].Switch? ==> p < |k'.ready| && k'.ready[p] == k.ready[p])
      && Slices(k', es[1..], p)))
  }

  /** The tasks that the switches of a run bring in, in order. */
  ghost function SwitchedIn(k: Kernel, es: seq<Event>): seq<Task>
    requires Inv(k) && Runs(k, es)
    decreases |es|
  {
    if es == [] then []
    else
      StepKeeps(k, es[0]);
      var k' := Step(k, es[0]);
      (if es[0].Switch? then [k'.current] else []) + SwitchedIn(k', es[1..])
  }

  lemma Turned(o: seq<Task>, i: nat)
    requires o != []
    ensures (o[1..] + [o[0]])[i % |o|] == o[(i + 1) % |o|]
  {
    var n := |o|;
    if n > 1 { AddMod(i, 1, n); }
  }

  /** Round robin: whatever happens between the switches, the i-th of them brings in the
      i-th member of the list in turn, around and around. */
  lemma {:induction false} RoundRobin(k: Kernel, es: seq<Event>, p: nat, i: nat)
    requires Inv(k) && Runs(k, es) && Slices(k, es, p) && i < |SwitchedIn(k, es)|
    ensures WellFormed(k.ready[p]) && SwitchedIn(k, es)[i] == VisitOrder(k.ready[p])[i % |k.ready[p].items|]
    decreases |es|
  {
    hide Core, Step, Enabled, VisitOrder, WellFormed;
    StepKeeps(k, es[0]);
    ListFormed(k, p);
    var k', o := Step(k, es[0]), VisitOrder(k.ready[p]);
    if !es[0].Switch? {
      RoundRobin(k', es[1..], p, i);
    } else {
      SwitchIs(k);
      SwitchTakesNext(k, p);
      if i > 0 {
        RoundRobin(k', es[1..], p, i - 1);
        Turned(o, i - 1);
      } else {
        Start(|o|);
      }
    }
  }

  lemma Start(n: nat)
    requires n > 0
    ensures 0 % n == 0
  {
  }

  lemma SwitchIs(k: Kernel)
    requires Inv(k) && Enabled(k, Switch)
    ensures Step(k, Switch) == SwitchContext(k)
  {
    hide Core, SwitchContext;
  }

  lemma ListFormed(k: Kernel, p: nat)
    requires Inv(k) && IsTop(k.ready, p)
    ensures WellFormed(k.ready[p])
  {
    hide Timing, Events, Partition, ReadyLists, InReady, Bits;
  }

  /** Over as many switches as the topmost list has members, each of them is switched
      in exactly once. */
  lemma EachTaskOnce(k: Kernel, es: seq<Event>, p: nat)
    requires Inv(k) && Runs(k, es) && Slices(k, es, p) && |SwitchedIn(k, es)| == |k.ready[p].items|
    ensures NoDuplicates(SwitchedIn(k, es)) && multiset(SwitchedIn(k, es)) == multiset(k.ready[p].items)
  {
    hide Core, Step, Enabled, Runs, Slices, SwitchedIn, NoDuplicates;
    ListTop(k, es, p);
    var ts, r := SwitchedIn(k, es), k.ready[p];
    ListFormed(k, p);
    forall i | 0 <= i < |ts| ensures ts[i] == VisitOrder(r)[i] {
      RoundRobin(k, es, p, i);
      Small(i, |ts|);
    }
    assert ts == VisitOrder(r);
    Rotated(r.items, r.index);
    Distinct(k, p);
    RotatedDistinct(r.items, r.index);
  }

  lemma Small(i: nat, n: nat)
    requires i < n
    ensures i % n == i
  {
  }

  lemma ListTop(k: Kernel, es: seq<Event>, p: nat)
    requires Inv(k) && Runs(k, es) && Slices(k, es, p)
    ensures IsTop(k.ready, p)
  {
    hide Core, Step, Enabled;
  }

  lemma Distinct(k: Kernel, p: nat)
    requires Inv(k) && IsTop(k.ready, p)
    ensures NoDuplicates(k.ready[p].items)
  {
    hide Timing, Events, Partition, InReady, Bits;
  }

  lemma RotatedDistinct(s: seq<Task>, n: nat)
    requires NoDuplicates(s) && n <= |s|
    ensures NoDuplicates(s[n..] + s[..n])
  {
    var o := s[n..] + s[..n];
    forall i, j | 0 <= i < j < |o| ensures o[i] != o[j] {
      assert o[i] == s[if i < |s| - n then i + n else i + n - |s|];
      assert o[j] == s[if j < |s| - n then j + n else j + n - |s|];
    }
  }
}

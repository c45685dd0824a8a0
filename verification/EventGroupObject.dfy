/** event_groups.c as it runs: the loop over the waiting tasks. */
module EventGroupObject {
  import opened Basics
  import opened EventGroups
  import opened Rings

  class EventGroup {
    var bits: Bits
    var waiters: seq<Task>
    var value: map<Task, Bits>

    ghost function State(): Group
      reads this
    {
      Group(bits, waiters, value)
    }

    constructor ()
      ensures State() == Group(0, [], map[])
    {
      bits, waiters, value := 0, [], map[];
    }

    /** xEventGroupSetBits: the walk looks one item ahead, because a task that is
        unblocked leaves the list. */
    method SetBits(more: Bits) returns (now: Bits)
      requires NoDuplicates(waiters)
      modifies this
      ensures State() == Set(old(State()), more) && now == bits
    {
      hide Or, Minus, And, Met, Wanted, WantsClear, Snapshot, Remaining, ToClear, Stamp, Without;
      var toClear: Bits := 0;
      bits := Or(bits, more);
      ghost var done, ws, was := [], waiters, value;
      var rest := waiters;
      NoneYet(was, bits);
      while rest != []
        invariant ws == done + rest && bits == Or(old(bits), more)
        invariant waiters == Remaining(done, was, bits) + rest
        invariant toClear == ToClear(done, was, bits)
        invariant value == Stamp(done, was, bits)
        decreases |rest|
      {
        var t := rest[0];
        Fresh(done, rest);
        StampExact(done, was, bits, t);
        var v := ValueOf(value, t);
        RemainingMore(done, t, was, bits);
        ToClearMore(done, t, was, bits);
        StampMore(done, t, was, bits);
        if Met(bits, v) {
          if WantsClear(v) {
            toClear := Or(toClear, Wanted(v));
          } else {
            OrZero(toClear);
          }
          TakeOff(Remaining(done, was, bits), t, rest, done, was, bits);
          waiters := Without(waiters, t);
          value := value[t := Snapshot(bits)];
        } else {
          OrZero(toClear);
          Regroup(waiters, Remaining(done, was, bits), rest);
        }
        Regroup(ws, done, rest);
        done, rest := done + [t], rest[1..];
      }
      assert done + rest == done && Remaining(done, was, bits) + rest == Remaining(done, was, bits);
      bits := Minus(bits, toClear);
      now := bits;
    }

    /** xEventGroupWaitBits up to the point where the task blocks or returns. */
    method WaitBits(t: Task, wanted: Bits, all: bool, clear: bool, block: bool) returns (met: bool, seen: Bits)
      modifies this
      ensures State() == Next(old(State()), Wait(t, wanted, all, clear, block))
      ensures met == Test(old(bits), wanted, all) && seen == old(bits)
    {
      hide And, Minus, Stored;
      seen := bits;
      met := Test(seen, wanted, all);
      if met {
        if clear {
          bits := Minus(bits, wanted);
        }
      } else if block {
        waiters, value := waiters + [t], value[t := Stored(wanted, all, clear)];
      }
    }

    /** xEventGroupSync up to the same point. */
    method Rendezvous(t: Task, more: Bits, wanted: Bits, block: bool) returns (met: bool)
      requires NoDuplicates(waiters)
      modifies this
      ensures State() == Next(old(State()), Sync(t, more, wanted, block))
      ensures met == Test(Or(old(bits), more), wanted, true)
    {
      hide And, Minus, Or, Stored, Set;
      var original := bits;
      var _ := SetBits(more);
      met := Test(Or(original, more), wanted, true);
      if met {
        bits := Minus(bits, wanted);
      } else if block {
        waiters, value := waiters + [t], value[t := Stored(wanted, true, true)];
      }
    }
  }

  lemma Fresh(done: seq<Task>, rest: seq<Task>)
    requires NoDuplicates(done + rest) && rest != []
    ensures rest[0] !in done && NoDuplicates(rest) && rest[0] !in rest[1..]
  {
    var ws := done + rest;
    forall i | 0 <= i < |done| ensures done[i] != rest[0] {
      assert ws[i] != ws[|done|];
    }
    forall i, j | 0 <= i < j < |rest| ensures rest[i] != rest[j] {
      assert ws[|done| + i] != ws[|done| + j];
    }
  }

  lemma Regroup(all: seq<Task>, front: seq<Task>, rest: seq<Task>)
    requires all == front + rest && rest != []
    ensures all == (front + [rest[0]]) + rest[1..]
  {
  }

  lemma NoneYet(value: map<Task, Bits>, bits: Bits)
    ensures Remaining([], value, bits) == [] && ToClear([], value, bits) == 0 && Stamp([], value, bits) == value
  {
  }

  // The specification functions, one waiter further on.

  lemma {:induction false} RemainingMore(done: seq<Task>, t: Task, value: map<Task, Bits>, bits: Bits)
    ensures var kept := Remaining(done, value, bits);
            Remaining(done + [t], value, bits) == if Met(bits, ValueOf(value, t)) then kept else kept + [t]
    decreases |done|
  {
    hide Met;
    if done == [] {
      assert done + [t] == [t];
    } else {
      assert (done + [t])[1..] == done[1..] + [t];
      RemainingMore(done[1..], t, value, bits);
    }
  }

  lemma {:induction false} ToClearMore(done: seq<Task>, t: Task, value: map<Task, Bits>, bits: Bits)
    ensures ToClear(done + [t], value, bits) == Or(ToClear(done, value, bits), Asked(value, bits, t))
    decreases |done|
  {
    hide Or, Met, Wanted, WantsClear;
    if done == [] {
      assert done + [t] == [t] && [t][1..] == [];
      OrZero(Asked(value, bits, t));
    } else {
      assert (done + [t])[1..] == done[1..] + [t];
      ToClearMore(done[1..], t, value, bits);
      OrLaws(Wanted(ValueOf(value, done[0])), ToClear(done[1..], value, bits), Asked(value, bits, t));
    }
  }

  lemma {:induction false} StampMore(done: seq<Task>, t: Task, value: map<Task, Bits>, bits: Bits)
    requires t !in done
    ensures var was := Stamp(done, value, bits);
            Stamp(done + [t], value, bits) == if Met(bits, ValueOf(value, t)) then was[t := Snapshot(bits)] else was
    decreases |done|
  {
    hide Met, Snapshot;
    if done == [] {
      assert done + [t] == [t] && [t][1..] == [];
    } else {
      assert (done + [t])[1..] == done[1..] + [t];
      StampMore(done[1..], t, value, bits);
    }
  }

  /** Taking the waiter under consideration off the list. */
  lemma TakeOff(kept: seq<Task>, t: Task, rest: seq<Task>, done: seq<Task>, value: map<Task, Bits>, bits: Bits)
    requires kept == Remaining(done, value, bits) && t !in done && rest != [] && rest[0] == t
    ensures Without(kept + rest, t) == kept + rest[1..]
  {
    hide Met;
    RemainingExact(done, value, bits, t);
    WithoutAt(kept, t, rest[1..]);
    assert rest == [t] + rest[1..];
  }

  lemma {:induction false} WithoutAt(kept: seq<Task>, t: Task, rest: seq<Task>)
    requires t !in kept
    ensures Without(kept + ([t] + rest), t) == kept + rest
    decreases |kept|
  {
    hide Without;
    WithoutCons(kept + ([t] + rest), t);
    if kept != [] {
      var all := kept + ([t] + rest);
      assert all[1..] == kept[1..] + ([t] + rest);
      WithoutAt(kept[1..], t, rest);
    }
  }
}

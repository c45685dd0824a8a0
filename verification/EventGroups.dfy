/** Event groups: setting bits, waiting for them, and what no state can show. */
module EventGroups {
  import opened Basics
  import opened Rings

  type Bits = bv32

  const CLEAR_ON_EXIT: Bits := 0x0100_0000   // eventCLEAR_EVENTS_ON_EXIT_BIT
  const UNBLOCKED: Bits := 0x0200_0000       // eventUNBLOCKED_DUE_TO_BIT_SET
  const WAIT_FOR_ALL: Bits := 0x0400_0000    // eventWAIT_FOR_ALL_BITS
  const CONTROL: Bits := 0xff00_0000         // eventEVENT_BITS_CONTROL_BYTES
  const IN_USE: Bits := 0x8000_0000          // taskEVENT_LIST_ITEM_VALUE_IN_USE

  function Or(a: Bits, b: Bits): Bits { a | b }

  function And(a: Bits, b: Bits): Bits { a & b }

  function Minus(a: Bits, b: Bits): Bits { a & !b }

  // -------------------------------------------------------------- one condition

  /** prvTestWaitCondition */
  predicate Test(bits: Bits, wanted: Bits, all: bool) {
    if all then And(bits, wanted) == wanted else And(bits, wanted) != 0
  }

  function Flags(all: bool, clear: bool): Bits {
    if all then if clear then 0x8500_0000 else 0x8400_0000 else if clear then 0x8100_0000 else 0x8000_0000
  }

  /** The value a waiting task leaves in its event list item. */
  function Stored(wanted: Bits, all: bool, clear: bool): Bits { Or(wanted, Flags(all, clear)) }

  function Wanted(v: Bits): Bits { Minus(v, CONTROL) }

  predicate WantsAll(v: Bits) { And(v, WAIT_FOR_ALL) != 0 }

  predicate WantsClear(v: Bits) { And(v, CLEAR_ON_EXIT) != 0 }

  /** The condition as xEventGroupSetBits reads it back from the item. */
  predicate Met(bits: Bits, v: Bits) { Test(bits, Wanted(v), WantsAll(v)) }

  lemma FlagsMean(all: bool, clear: bool)
    ensures var f := Flags(all, clear);
            && f == (if clear then CLEAR_ON_EXIT else 0) | (if all then WAIT_FOR_ALL else 0) | IN_USE
            && Minus(f, CONTROL) == 0 && (And(f, WAIT_FOR_ALL) != 0) == all && (And(f, CLEAR_ON_EXIT) != 0) == clear
            && And(f, IN_USE) != 0
  {
  }

  lemma Separate(wanted: Bits, f: Bits)
    requires And(wanted, CONTROL) == 0 && Minus(f, CONTROL) == 0
    ensures Minus(Or(wanted, f), CONTROL) == wanted && And(Or(wanted, f), CONTROL) == f
  {
  }

  lemma FlagOf(wanted: Bits, f: Bits, m: Bits)
    requires And(wanted, CONTROL) == 0 && Minus(m, CONTROL) == 0
    ensures And(Or(wanted, f), m) == And(f, m)
  {
  }

  lemma FlagsControl()
    ensures Minus(WAIT_FOR_ALL, CONTROL) == 0 && Minus(CLEAR_ON_EXIT, CONTROL) == 0 && Minus(IN_USE, CONTROL) == 0
  {
  }

  /** What was stored is read back: the bits, and the two flags. */
  lemma StoredMeans(wanted: Bits, all: bool, clear: bool)
    requires And(wanted, CONTROL) == 0
    ensures var v := Stored(wanted, all, clear);
            Wanted(v) == wanted && WantsAll(v) == all && WantsClear(v) == clear && And(v, IN_USE) != 0
  {
    hide And, Or, Minus, Flags;
    var f := Flags(all, clear);
    FlagsMean(all, clear);
    FlagsControl();
    Separate(wanted, f);
    FlagOf(wanted, f, WAIT_FOR_ALL);
    FlagOf(wanted, f, CLEAR_ON_EXIT);
    FlagOf(wanted, f, IN_USE);
  }

  /** Fewer bits meet fewer conditions. */
  lemma Monotone(bits: Bits, less: Bits, wanted: Bits, all: bool)
    requires Test(Minus(bits, less), wanted, all)
    ensures Test(bits, wanted, all)
  {
  }

  lemma OrLaws(a: Bits, b: Bits, c: Bits)
    ensures Or(a, b) == Or(b, a) && Or(Or(a, b), c) == Or(a, Or(b, c))
  {
  }

  // ------------------------------------------------------------------ the group

  datatype Group = Group(
    bits: Bits,               // uxEventBits
    waiters: seq<Task>,       // xTasksWaitingForBits
    value: map<Task, Bits>    // the event list item values
  )

  function ValueOf(value: map<Task, Bits>, t: Task): Bits { if t in value then value[t] else 0 }

  /** What an unblocked task finds in its item. */
  function Snapshot(bits: Bits): Bits { Or(Or(bits, UNBLOCKED), IN_USE) }

  lemma SnapshotFlags(bits: Bits)
    ensures And(Snapshot(bits), UNBLOCKED) != 0
  {
  }

  lemma SnapshotBits(bits: Bits)
    requires And(bits, CONTROL) == 0
    ensures Minus(Snapshot(bits), CONTROL) == bits
  {
  }

  lemma StoredFlag(wanted: Bits, all: bool, clear: bool)
    requires And(wanted, CONTROL) == 0
    ensures And(Stored(wanted, all, clear), UNBLOCKED) == 0
  {
    hide And, Or, Minus, Flags;
    UnblockedIsControl();
    FlagOf(wanted, Flags(all, clear), UNBLOCKED);
    FlagsUnset(all, clear);
  }

  lemma UnblockedIsControl()
    ensures Minus(UNBLOCKED, CONTROL) == 0
  {
  }

  lemma FlagsUnset(all: bool, clear: bool)
    ensures And(Flags(all, clear), UNBLOCKED) == 0
  {
  }

  /** What a task that returns from its wait makes of its item: the bits that met its
      condition if they unblocked it, and otherwise the mark of a time-out. */
  function Returned(item: Bits, now: Bits): (bool, Bits) {
    if And(item, UNBLOCKED) != 0 then (true, Minus(item, CONTROL)) else (false, Minus(now, CONTROL))
  }

  /** A task unblocked by a set returns the bits that were set then, whatever has
      been cleared since; one that timed out is told so. */
  lemma ReturnedExactly(bits: Bits, wanted: Bits, all: bool, clear: bool, now: Bits)
    requires And(bits, CONTROL) == 0 && And(wanted, CONTROL) == 0
    ensures Returned(Snapshot(bits), now) == (true, bits)
    ensures !Returned(Stored(wanted, all, clear), now).0
  {
    hide And, Or, Minus, Flags, Snapshot;
    SnapshotFlags(bits);
    SnapshotBits(bits);
    StoredFlag(wanted, all, clear);
  }

  function Remaining(ws: seq<Task>, value: map<Task, Bits>, bits: Bits): seq<Task> {
    if ws == [] then []
    else if Met(bits, ValueOf(value, ws[0])) then Remaining(ws[1..], value, bits)
    else [ws[0]] + Remaining(ws[1..], value, bits)
  }

  function ToClear(ws: seq<Task>, value: map<Task, Bits>, bits: Bits): Bits {
    if ws == [] then 0
    else
      var v, rest := ValueOf(value, ws[0]), ToClear(ws[1..], value, bits);
      if Met(bits, v) && WantsClear(v) then Or(Wanted(v), rest) else rest
  }

  function Stamp(ws: seq<Task>, value: map<Task, Bits>, bits: Bits): map<Task, Bits> {
    if ws == [] then value
    else
      var rest := Stamp(ws[1..], value, bits);
      if Met(bits, ValueOf(value, ws[0])) then rest[ws[0] := Snapshot(bits)] else rest
  }

  /** xEventGroupSetBits */
  function Set(g: Group, more: Bits): Group {
    var bits := Or(g.bits, more);
    Group(Minus(bits, ToClear(g.waiters, g.value, bits)), Remaining(g.waiters, g.value, bits),
          Stamp(g.waiters, g.value, bits))
  }

  lemma {:induction false} RemainingExact(ws: seq<Task>, value: map<Task, Bits>, bits: Bits, t: Task)
    ensures t in Remaining(ws, value, bits) <==> t in ws && !Met(bits, ValueOf(value, t))
    ensures NoDuplicates(ws) ==> NoDuplicates(Remaining(ws, value, bits))
    decreases |ws|
  {
    hide Met;
    if ws != [] {
      assert ws == [ws[0]] + ws[1..];
      RemainingExact(ws[1..], value, bits, t);
      RemainingExact(ws[1..], value, bits, ws[0]);
      if NoDuplicates(ws) { assert ws[0] !in ws[1..]; }
    }
  }

  lemma {:induction false} StampExact(ws: seq<Task>, value: map<Task, Bits>, bits: Bits, t: Task)
    ensures ValueOf(Stamp(ws, value, bits), t) ==
              if t in ws && Met(bits, ValueOf(value, t)) then Snapshot(bits) else ValueOf(value, t)
    decreases |ws|
  {
    hide Met, Snapshot;
    if ws != [] {
      assert ws == [ws[0]] + ws[1..];
      StampExact(ws[1..], value, bits, t);
    }
  }

  /** Setting bits unblocks exactly the waiters whose condition the old bits and the
      new ones meet together, and tells each of them the same. */
  lemma SetExact(g: Group, more: Bits, t: Task)
    ensures var g', bits := Set(g, more), Or(g.bits, more);
            && (t in g'.waiters <==> t in g.waiters && !Met(bits, ValueOf(g.value, t)))
            && ValueOf(g'.value, t) == if t in g.waiters && Met(bits, ValueOf(g.value, t)) then Snapshot(bits)
                 else ValueOf(g.value, t)
  {
    hide Met, Snapshot, Or;
    RemainingExact(g.waiters, g.value, Or(g.bits, more), t);
    StampExact(g.waiters, g.value, Or(g.bits, more), t);
  }

  // -------------------------------------------------------- order independence

  function Asked(value: map<Task, Bits>, bits: Bits, t: Task): Bits {
    var v := ValueOf(value, t);
    if Met(bits, v) && WantsClear(v) then Wanted(v) else 0
  }

  lemma OrZero(a: Bits)
    ensures Or(0, a) == a && Or(a, 0) == a
  {
  }

  lemma {:induction false} ClearOne(ws: seq<Task>, value: map<Task, Bits>, bits: Bits, t: Task)
    requires t in ws
    ensures ToClear(ws, value, bits) == Or(Asked(value, bits, t), ToClear(Without(ws, t), value, bits))
    decreases |ws|
  {
    hide Met, Or, WantsClear, Wanted, Without;
    WithoutCons(ws, t);
    var rest := ToClear(ws[1..], value, bits);
    OrZero(rest);
    assert ToClear(ws, value, bits) == Or(Asked(value, bits, ws[0]), rest);
    if ws[0] != t {
      ClearOne(ws[1..], value, bits, t);
      var r := ToClear(Without(ws[1..], t), value, bits);
      OrZero(r);
      var w := [ws[0]] + Without(ws[1..], t);
      assert w[1..] == Without(ws[1..], t);
      assert ToClear(w, value, bits) == Or(Asked(value, bits, ws[0]), r);
      OrLaws(Asked(value, bits, ws[0]), Asked(value, bits, t), r);
      OrLaws(Asked(value, bits, t), Asked(value, bits, ws[0]), r);
    }
  }

  lemma {:induction false} WithoutMultiset(ws: seq<Task>, t: Task)
    requires t in ws
    ensures multiset(Without(ws, t)) == multiset(ws) - multiset{t} && |Without(ws, t)| == |ws| - 1
    decreases |ws|
  {
    hide Without;
    WithoutCons(ws, t);
    assert ws == [ws[0]] + ws[1..];
    if ws[0] != t {
      WithoutMultiset(ws[1..], t);
    }
  }

  /** The bits cleared do not depend on the order of the waiters. */
  lemma {:induction false} OrderIndependent(ws: seq<Task>, ws': seq<Task>, value: map<Task, Bits>, bits: Bits)
    requires multiset(ws) == multiset(ws')
    ensures ToClear(ws, value, bits) == ToClear(ws', value, bits)
    decreases |ws|
  {
    hide Or, Met, WantsClear, Wanted;
    if ws == [] {
      assert |multiset(ws')| == 0;
    } else {
      var t := ws[0];
      assert t in multiset(ws);
      ClearOne(ws, value, bits, t);
      ClearOne(ws', value, bits, t);
      WithoutMultiset(ws, t);
      WithoutMultiset(ws', t);
      OrderIndependent(Without(ws, t), Without(ws', t), value, bits);
    }
  }

  lemma OrMask(a: Bits, b: Bits, mask: Bits)
    ensures And(Or(a, b), mask) == 0 <==> And(a, mask) == 0 && And(b, mask) == 0
  {
    hide And, Or;
    Distribute(a, b, mask);
    NoneOfBoth(And(a, mask), And(b, mask));
  }

  lemma Distribute(a: Bits, b: Bits, mask: Bits)
    ensures And(Or(a, b), mask) == Or(And(a, mask), And(b, mask))
  {
  }

  lemma NoneOfBoth(a: Bits, b: Bits)
    ensures Or(a, b) == 0 <==> a == 0 && b == 0
  {
  }

  /** The bits cleared are the union of what the unblocked waiters asked to clear. */
  lemma {:induction false} UnionExact(ws: seq<Task>, value: map<Task, Bits>, bits: Bits, mask: Bits)
    ensures And(ToClear(ws, value, bits), mask) == 0 <==> forall t :: t in ws ==> And(Asked(value, bits, t), mask) == 0
    decreases |ws|
  {
    hide And, Or, Met, WantsClear, Wanted, Asked;
    if ws == [] {
      NothingMasked(mask);
    } else {
      assert ws == [ws[0]] + ws[1..];
      UnionExact(ws[1..], value, bits, mask);
      ToClearHead(ws, value, bits);
      OrMask(Asked(value, bits, ws[0]), ToClear(ws[1..], value, bits), mask);
    }
  }

  lemma NothingMasked(mask: Bits)
    ensures And(0, mask) == 0
  {
  }

  lemma ToClearHead(ws: seq<Task>, value: map<Task, Bits>, bits: Bits)
    requires ws != []
    ensures ToClear(ws, value, bits) == Or(Asked(value, bits, ws[0]), ToClear(ws[1..], value, bits))
  {
    hide Or, Met, WantsClear, Wanted;
    OrZero(ToClear(ws[1..], value, bits));
  }

  // --------------------------------------------------------------------- runs

  datatype Event =
    | SetBits(more: Bits)
    | ClearBits(less: Bits)
    | Wait(task: Task, wanted: Bits, all: bool, clear: bool, block: bool)
    | Sync(task: Task, more: Bits, wanted: Bits, block: bool)
    | TimeOut(task: Task)                                          // the tick takes a waiter off
    | GiveUp(task: Task, wanted: Bits, all: bool, clear: bool)     // and it returns

  /** The assertions on entry, and that a waiting task does not run. */
  predicate Enabled(g: Group, e: Event) {
    match e
    case SetBits(more) => And(more, CONTROL) == 0
    case ClearBits(less) => And(less, CONTROL) == 0
    case Wait(t, wanted, _, _, _) => t !in g.waiters && wanted != 0 && And(wanted, CONTROL) == 0
    case Sync(t, more, wanted, _) => t !in g.waiters && wanted != 0 && And(wanted, CONTROL) == 0
        && And(more, CONTROL) == 0
    case TimeOut(t) => t in g.waiters
    case GiveUp(t, wanted, _, _) => t !in g.waiters && wanted != 0 && And(wanted, CONTROL) == 0
  }

  function Join(g: Group, t: Task, wanted: Bits, all: bool, clear: bool): Group {
    g.(waiters := g.waiters + [t], value := g.value[t := Stored(wanted, all, clear)])
  }

  function Next(g: Group, e: Event): Group {
    match e
    case SetBits(more) => Set(g, more)
    case ClearBits(less) => g.(bits := Minus(g.bits, less))
    case Wait(t, wanted, all, clear, block) =>
      if Test(g.bits, wanted, all) then if clear then g.(bits := Minus(g.bits, wanted)) else g
      else if block then Join(g, t, wanted, all, clear)
      else g
    case Sync(t, more, wanted, block) =>
      var g' := Set(g, more);
      if Test(Or(g.bits, more), wanted, true) then g'.(bits := Minus(g'.bits, wanted))
      else if block then Join(g', t, wanted, true, true)
      else g'
    case TimeOut(t) => g.(waiters := Without(g.waiters, t))
    case GiveUp(t, wanted, all, clear) =>
      if Test(g.bits, wanted, all) && clear then g.(bits := Minus(g.bits, wanted)) else g
  }

  lemma MinusExact(a: Bits, b: Bits)
    ensures And(Minus(a, b), b) == 0 && Minus(Minus(a, b), b) == Minus(a, b) && Or(Minus(a, b), And(a, b)) == a
  {
  }

  /** A wait that is met clears all its bits and no others, if asked to, and nothing
      otherwise; one that is not met changes no bits, and if it blocks, the new waiter
      is the last and its item asks for what the call asked for. */
  lemma WaitExact(g: Group, t: Task, wanted: Bits, all: bool, clear: bool, block: bool)
    requires Enabled(g, Wait(t, wanted, all, clear, block))
    ensures var g', met := Next(g, Wait(t, wanted, all, clear, block)), Test(g.bits, wanted, all);
            && (met && clear ==> And(g'.bits, wanted) == 0 && Or(g'.bits, And(g.bits, wanted)) == g.bits)
            && (!(met && clear) ==> g'.bits == g.bits)
            && (met || !block ==> g'.waiters == g.waiters && g'.value == g.value)
            && (!met && block ==>
                  && g'.waiters == g.waiters + [t]
                  && forall bits :: Met(bits, ValueOf(g'.value, t)) == Test(bits, wanted, all))
  {
    hide And, Or, Minus, Test, Stored, Wanted, WantsAll;
    MinusExact(g.bits, wanted);
    StoredMeans(wanted, all, clear);
  }

  /** A rendezvous releases exactly those whose bits are now all there, with the same
      snapshot, before it looks at its own: the last to arrive does not wait and leaves
      its bits cleared, and one that comes early waits for exactly its own. */
  lemma SyncExact(g: Group, t: Task, more: Bits, wanted: Bits, block: bool, u: Task)
    requires Enabled(g, Sync(t, more, wanted, block)) && u != t
    ensures var g', bits := Next(g, Sync(t, more, wanted, block)), Or(g.bits, more);
            && (u in g'.waiters <==> u in g.waiters && !Met(bits, ValueOf(g.value, u)))
            && (u in g.waiters && Met(bits, ValueOf(g.value, u)) ==> ValueOf(g'.value, u) == Snapshot(bits))
            && (Test(bits, wanted, true) ==> t !in g'.waiters && And(g'.bits, wanted) == 0)
            && (!Test(bits, wanted, true) && block ==>
                t in g'.waiters && forall b :: Met(b, ValueOf(g'.value, t)) == Test(b, wanted, true))
  {
    hide And, Or, Minus, Test, Stored, Wanted, WantsAll, Met, Snapshot, Set;
    SetExact(g, more, u);
    SetExact(g, more, t);
    MinusExact(Set(g, more).bits, wanted);
    MetAsTested(wanted, true, true);
  }

  lemma MetAsTested(wanted: Bits, all: bool, clear: bool)
    requires And(wanted, CONTROL) == 0
    ensures forall b :: Met(b, Stored(wanted, all, clear)) == Test(b, wanted, all)
  {
    hide And, Or, Minus, Test, Stored, Wanted, WantsAll;
    StoredMeans(wanted, all, clear);
  }

  lemma StillFree(a: Bits, b: Bits)
    requires And(a, CONTROL) == 0
    ensures And(Minus(a, b), CONTROL) == 0
    ensures And(b, CONTROL) == 0 ==> And(Or(a, b), CONTROL) == 0
  {
  }

  /** The control byte of the event bits stays free. */
  lemma NextFree(g: Group, e: Event)
    requires And(g.bits, CONTROL) == 0 && Enabled(g, e)
    ensures And(Next(g, e).bits, CONTROL) == 0
  {
    hide And, Or, Minus, Test, ToClear, Remaining, Stamp, Stored;
    match e
    case SetBits(more) =>
      StillFree(g.bits, more);
      StillFree(Or(g.bits, more), ToClear(g.waiters, g.value, Or(g.bits, more)));
    case ClearBits(less) => StillFree(g.bits, less);
    case Wait(_, wanted, _, _, _) => StillFree(g.bits, wanted);
    case Sync(_, more, wanted, _) =>
      StillFree(g.bits, more);
      StillFree(Or(g.bits, more), ToClear(g.waiters, g.value, Or(g.bits, more)));
      StillFree(Set(g, more).bits, wanted);
    case TimeOut(_) =>
    case GiveUp(_, wanted, _, _) => StillFree(g.bits, wanted);
  }

  /** No waiter's condition is met. */
  ghost predicate NoneMet(g: Group) {
    NoDuplicates(g.waiters) && forall t :: t in g.waiters ==> !Met(g.bits, ValueOf(g.value, t))
  }

  lemma FewerBits(g: Group, less: Bits)
    requires NoneMet(g)
    ensures NoneMet(g.(bits := Minus(g.bits, less)))
  {
    hide Test, NoDuplicates;
    forall t | t in g.waiters ensures !Met(Minus(g.bits, less), ValueOf(g.value, t)) {
      var v := ValueOf(g.value, t);
      if Met(Minus(g.bits, less), v) { Monotone(g.bits, less, Wanted(v), WantsAll(v)); }
    }
  }

  /** After setting bits nobody is left whose condition is met, whatever held before. */
  lemma SetLeavesNoneMet(g: Group, more: Bits)
    requires NoDuplicates(g.waiters)
    ensures NoneMet(Set(g, more))
  {
    hide Met, Or, Minus, Snapshot;
    var bits := Or(g.bits, more);
    var g1 := Group(bits, Remaining(g.waiters, g.value, bits), Stamp(g.waiters, g.value, bits));
    forall t ensures (t in g1.waiters ==> !Met(bits, ValueOf(g1.value, t))) && NoDuplicates(g1.waiters) {
      RemainingExact(g.waiters, g.value, bits, t);
      StampExact(g.waiters, g.value, bits, t);
    }
    FewerBits(g1, ToClear(g.waiters, g.value, bits));
  }

  lemma JoinKeeps(g: Group, t: Task, wanted: Bits, all: bool, clear: bool)
    requires NoneMet(g) && t !in g.waiters && And(wanted, CONTROL) == 0 && !Test(g.bits, wanted, all)
    ensures NoneMet(Join(g, t, wanted, all, clear))
  {
    hide Test, Stored, And, Wanted, WantsAll;
    StoredMeans(wanted, all, clear);
  }

  lemma NextKeeps(g: Group, e: Event)
    requires NoneMet(g) && Enabled(g, e)
    ensures NoneMet(Next(g, e))
  {
    hide Met, Test, Set, Minus, Or, And, Stored;
    match e
    case SetBits(more) => SetLeavesNoneMet(g, more);
    case ClearBits(less) => FewerBits(g, less);
    case Wait(t, wanted, all, clear, block) =>
      FewerBits(g, wanted);
      if block && !Test(g.bits, wanted, all) { JoinKeeps(g, t, wanted, all, clear); }
    case Sync(t, more, wanted, block) =>
      SetLeavesNoneMet(g, more);
      FewerBits(Set(g, more), wanted);
      if !Test(Or(g.bits, more), wanted, true) {
        StillUnmet(g, more, t, wanted);
        JoinKeeps(Set(g, more), t, wanted, true, true);
      }
    case TimeOut(t) => WithoutMembers(g.waiters, t);
    case GiveUp(t, wanted, all, clear) => FewerBits(g, wanted);
  }

  lemma StillUnmet(g: Group, more: Bits, t: Task, wanted: Bits)
    requires t !in g.waiters && !Test(Or(g.bits, more), wanted, true)
    ensures t !in Set(g, more).waiters && !Test(Set(g, more).bits, wanted, true)
  {
    hide Met, Test, Or, Minus;
    SetExact(g, more, t);
    var bits := Or(g.bits, more);
    var less := ToClear(g.waiters, g.value, bits);
    if Test(Minus(bits, less), wanted, true) { Monotone(bits, less, wanted, true); }
  }

  ghost predicate Runs(g: Group, es: seq<Event>)
    decreases |es|
  {
    es == [] || (Enabled(g, es[0]) && Runs(Next(g, es[0]), es[1..]))
  }

  ghost function Run(g: Group, es: seq<Event>): Group
    requires Runs(g, es)
    decreases |es|
  {
    if es == [] then g else Run(Next(g, es[0]), es[1..])
  }

  /** In every reachable state, no task waits for bits that are set. */
  lemma {:induction false} NobodyWaitsInVain(g: Group, es: seq<Event>)
    requires NoneMet(g) && And(g.bits, CONTROL) == 0 && Runs(g, es)
    ensures NoneMet(Run(g, es)) && And(Run(g, es).bits, CONTROL) == 0
    decreases |es|
  {
    hide Next, NoneMet, Enabled, And;
    if es != [] {
      NextFree(g, es[0]);
      NextKeeps(g, es[0]);
      NobodyWaitsInVain(Next(g, es[0]), es[1..]);
    }
  }
}

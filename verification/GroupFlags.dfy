/** The bits of an event group one by one, and its waiters one by one, over every run. */
module GroupFlags {
  import opened Basics
  import opened Rings
  import opened EventGroups
  import W = WordBits

  predicate Has(bits: Bits, flag: Bits) { And(bits, flag) != 0 }

  /** The bits a step sets. */
  function Adds(e: Event): Bits { if e.SetBits? || e.Sync? then e.more else 0 }

  /** `t` is a waiter that the step unblocks. */
  predicate Unblocks(g: Group, e: Event, t: Task) {
    (e.SetBits? || e.Sync?) && t in g.waiters && Met(Or(g.bits, e.more), ValueOf(g.value, t))
  }

  /** The condition a call finds met when it looks for itself. */
  predicate Finds(g: Group, e: Event) {
    match e
    case Wait(_, wanted, all, _, _) => Test(g.bits, wanted, all)
    case GiveUp(_, wanted, all, _) => Test(g.bits, wanted, all)
    case Sync(_, more, wanted, _) => Test(Or(g.bits, more), wanted, true)
    case _ => false
  }

  /** The item of a waiter that asked for the flag and for its clearing. */
  predicate Clears(item: Bits, flag: Bits) { WantsClear(item) && Has(Wanted(item), flag) }

  ghost predicate LowersFor(g: Group, e: Event, flag: Bits) {
    exists t :: Unblocks(g, e, t) && Clears(ValueOf(g.value, t), flag)
  }

  /** A flag is cleared by name, by a call that finds what it wants and clears it, or on
      behalf of a waiter that is unblocked and asked for that. */
  ghost predicate Lowers(g: Group, e: Event, flag: Bits) {
    || (e.ClearBits? && Has(e.less, flag))
    || (Finds(g, e) && (e.Sync? || e.clear) && Has(e.wanted, flag))
    || LowersFor(g, e, flag)
  }

  lemma OrFlag(a: Bits, b: Bits, flag: Bits)
    ensures Has(Or(a, b), flag) <==> Has(a, flag) || Has(b, flag)
  {
    hide And, Or;
    OrMask(a, b, flag);
  }

  lemma SameTest(a: Bits, flag: Bits)
    ensures Has(a, flag) == W.Hit(a, flag)
  {
  }

  lemma SameCut(a: Bits, b: Bits)
    ensures Minus(a, b) == W.Cut(a, b)
  {
  }

  lemma MinusFlag(a: Bits, b: Bits, flag: Bits)
    requires W.IsFlag(flag)
    ensures Has(Minus(a, b), flag) <==> Has(a, flag) && !Has(b, flag)
  {
    hide W.IsFlag, W.Hit, W.Cut, Minus, Has;
    W.CutHits(a, b, flag);
    SameCut(a, b);
    SameTest(a, flag);
    SameTest(b, flag);
    SameTest(Minus(a, b), flag);
  }

  /** What setting bits leaves of a flag. */
  lemma SetFlag(g: Group, e: Event, flag: Bits)
    requires W.IsFlag(flag) && (e.SetBits? || e.Sync?)
    ensures Has(Set(g, e.more).bits, flag) <==>
              && (Has(g.bits, flag) || Has(e.more, flag))
              && !LowersFor(g, e, flag)
  {
    hide W.IsFlag, And, Or, Minus, Met, WantsClear, Wanted;
    var bits := Or(g.bits, e.more);
    OrFlag(g.bits, e.more, flag);
    MinusFlag(bits, ToClear(g.waiters, g.value, bits), flag);
    UnionExact(g.waiters, g.value, bits, flag);
    NothingMasked(flag);
    forall t | t in g.waiters
      ensures Has(Asked(g.value, bits, t), flag) <==> Unblocks(g, e, t) && Clears(ValueOf(g.value, t), flag)
    {
    }
  }

  lemma FlagStep(g: Group, e: Event, flag: Bits)
    requires Enabled(g, e) && W.IsFlag(flag)
    ensures Has(Next(g, e).bits, flag) <==> (Has(g.bits, flag) || Has(Adds(e), flag)) && !Lowers(g, e, flag)
  {
    hide W.IsFlag, Has, Or, Minus, Test, Set, LowersFor;
    if e.SetBits? || e.Sync? {
      SetFlag(g, e, flag);
      if e.Sync? { MinusFlag(Set(g, e.more).bits, e.wanted, flag); }
    } else {
      NotSet(g, e, flag);
      if e.ClearBits? { MinusFlag(g.bits, e.less, flag); }
      if e.Wait? || e.GiveUp? { MinusFlag(g.bits, e.wanted, flag); }
    }
  }

  lemma NotSet(g: Group, e: Event, flag: Bits)
    requires !e.SetBits? && !e.Sync?
    ensures !Has(Adds(e), flag) && !LowersFor(g, e, flag)
  {
    hide And;
    NothingMasked(flag);
  }

  /** What becomes of a flag that is up, or not, at the start of a run. */
  ghost predicate LeftUp(g: Group, es: seq<Event>, flag: Bits, up: bool)
    requires Runs(g, es)
    decreases |es|
  {
    if es == [] then up
    else LeftUp(Next(g, es[0]), es[1..], flag, (up || Has(Adds(es[0]), flag)) && !Lowers(g, es[0], flag))
  }

  /** A flag is up exactly if somebody set it, or it was up before, and nothing that
      clears it came after. */
  lemma {:induction false} FlagsExact(g: Group, es: seq<Event>, flag: Bits)
    requires Runs(g, es) && W.IsFlag(flag)
    ensures Has(Run(g, es).bits, flag) <==> LeftUp(g, es, flag, Has(g.bits, flag))
    decreases |es|
  {
    hide W.IsFlag, Has, Next, Lowers, Enabled, Adds;
    if es != [] {
      FlagStep(g, es[0], flag);
      FlagsExact(Next(g, es[0]), es[1..], flag);
    }
  }

  /** A call joins the waiters exactly if it may block and does not find what it wants;
      a waiter leaves exactly if it is unblocked or its time is over, and otherwise keeps
      its condition. */
  lemma WaitersExact(g: Group, e: Event, t: Task)
    requires Enabled(g, e) && NoDuplicates(g.waiters)
    ensures var g', joins := Next(g, e), (e.Wait? || e.Sync?) && e.task == t && e.block && !Finds(g, e);
            && (t in g'.waiters <==> joins || (t in g.waiters && !Unblocks(g, e, t) && e != TimeOut(t)))
            && (t in g.waiters && t in g'.waiters ==> ValueOf(g'.value, t) == ValueOf(g.value, t))
            && (Unblocks(g, e, t) ==> ValueOf(g'.value, t) == Snapshot(Or(g.bits, e.more)))
  {
    hide And, Or, Minus, Test, Set, Met, Snapshot, Stored;
    match e
    case SetBits(more) => SetExact(g, more, t);
    case Sync(_, more, _, _) => SetExact(g, more, t);
    case TimeOut(u) => WithoutMembers(g.waiters, u);
    case _ =>
  }
}

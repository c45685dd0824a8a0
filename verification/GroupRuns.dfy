/** An event group in the kernel.  Its waiters keep what they wait for in their event
    list items, which xEventGroupSetBits reads back; tasks elsewhere come and go, and
    priorities change, in between. */
module GroupRuns {
  import opened Basics
  import opened Rings
  import opened Ticks
  import opened Scheduler
  import opened SchedulerSafety
  import opened SchedulerRuns
  import opened EventItems
  import opened StoredBits
  import opened KernelStart
  import G = EventGroups

  function ToNat(b: G.Bits): nat { b as nat }

  function ToBits(n: nat): G.Bits { if n < WRAP then n as bv32 else 0 }

  lemma RoundTrip(b: G.Bits)
    ensures ToNat(b) < WRAP && ToBits(ToNat(b)) == b
  {
  }

  lemma MarkedInUse(b: G.Bits)
    requires G.And(b, G.IN_USE) != 0
    ensures ToNat(b) >= VALUE_IN_USE
  {
    assert b >= 0x8000_0000;
  }

  lemma SnapshotInUse(bits: G.Bits)
    ensures G.And(G.Snapshot(bits), G.IN_USE) != 0
  {
  }

  /** The value of the event list item, as the event group reads it. */
  function Item(k: Kernel, t: Task): G.Bits { ToBits(At(k.eventValue, t)) }

  datatype System = System(
    k: Kernel,
    g: G.Group,    // the values in it are those the waiters stored
    list: nat      // xTasksWaitingForBits
  )

  predicate OnList(k: Kernel, t: Task, list: nat) { t in k.eventOf && k.eventOf[t] == list }

  ghost predicate Keeps(k: Kernel, value: map<Task, G.Bits>, t: Task) {
    At(k.eventValue, t) == ToNat(G.ValueOf(value, t)) && At(k.eventValue, t) >= VALUE_IN_USE
  }

  /** The list of the kernel is that of the group, and every item on it still has the
      value its task stored. */
  ghost predicate Linked(s: System) {
    && Inv(s.k) && NoDuplicates(s.g.waiters)
    && (forall t :: t in s.g.waiters <==> OnList(s.k, t, s.list))
    && (forall t :: t in s.g.waiters ==> Keeps(s.k, s.g.value, t))
  }

  datatype Move =
    | Other(event: Event)                                              // a step that is not on the group
    | Clear(less: G.Bits)
    | Set(more: G.Bits)
    | Wait(wanted: G.Bits, all: bool, clear: bool, ticks: nat)         // by the running task
    | Sync(more: G.Bits, wanted: G.Bits, ticks: nat)

  ghost predicate Caller(s: System, wanted: G.Bits, ticks: nat) {
    && s.k.suspended > 0 && MayBlock(s.k) && s.k.current !in s.k.pending && ticks <= MAX_DELAY
    && wanted != 0 && G.And(wanted, G.CONTROL) == 0
  }

  ghost predicate Allowed(s: System, m: Move)
    requires Linked(s)
  {
    match m
    case Other(e) =>
      && Enabled(s.k, e) && (e.Wait? || e.WaitBits? ==> e.event != s.list)
      && (e.Signal? || e.SignalBits? ==> !OnList(s.k, e.task, s.list))
    case Clear(less) => G.And(less, G.CONTROL) == 0
    case Set(more) => s.k.suspended > 0 && G.And(more, G.CONTROL) == 0
    case Wait(wanted, _, _, n) => Caller(s, wanted, n)
    case Sync(more, wanted, n) => Caller(s, wanted, n) && G.And(more, G.CONTROL) == 0
  }

  /** The waiters that are still on the list; the tick has taken off the others. */
  function Still(ws: seq<Task>, k: Kernel, list: nat): seq<Task> {
    if ws == [] then []
    else (if OnList(k, ws[0], list) then [ws[0]] else []) + Still(ws[1..], k, list)
  }

  lemma {:induction false} StillExact(ws: seq<Task>, k: Kernel, list: nat, t: Task)
    ensures t in Still(ws, k, list) <==> t in ws && OnList(k, t, list)
    ensures NoDuplicates(ws) ==> NoDuplicates(Still(ws, k, list))
    decreases |ws|
  {
    if ws != [] {
      assert ws == [ws[0]] + ws[1..];
      StillExact(ws[1..], k, list, t);
      StillExact(ws[1..], k, list, ws[0]);
      if NoDuplicates(ws) { assert ws[0] !in ws[1..]; }
    }
  }

  // ------------------------------------------------------------------ delivery

  ghost predicate Deliverable(k: Kernel, ws: seq<Task>) {
    Inv(k) && k.suspended > 0 && NoDuplicates(ws) && forall t :: t in ws ==> t in k.eventOf
  }

  ghost function Stamped(k: Kernel, t: Task, bits: G.Bits): Kernel
    requires Inv(k) && k.suspended > 0 && t in k.eventOf
  {
    Step(k, SignalBits(t, ToNat(G.Snapshot(bits))))
  }

  /** One waiter is unblocked: nothing changes for the others. */
  lemma StampedOne(k: Kernel, u: Task, bits: G.Bits, t: Task)
    requires Inv(k) && k.suspended > 0 && u in k.eventOf
    ensures var k' := Stamped(k, u, bits);
            && Inv(k') && k'.suspended == k.suspended && k'.current == k.current && k'.idle == k.idle
            && Released(k, k', t) && k'.priority.Keys == k.priority.Keys
            && (t in k'.eventOf <==> t in k.eventOf && t != u)
            && At(k'.eventValue, t) == if t == u then ToNat(G.Snapshot(bits)) else At(k.eventValue, t)
  {
    hide Core, ToNat, G.Snapshot;
    var e := SignalBits(u, ToNat(G.Snapshot(bits)));
    StepKeeps(k, e);
    StepReleases(k, e, t);
    SnapshotInUse(bits);
    MarkedInUse(G.Snapshot(bits));
    StampedForm(k, u, ToNat(G.Snapshot(bits)), t);
  }

  lemma StampedForm(k: Kernel, u: Task, v: nat, t: Task)
    requires Inv(k) && k.suspended > 0 && u in k.eventOf && v >= VALUE_IN_USE
    ensures var k' := Step(k, SignalBits(u, v));
            && k'.suspended == k.suspended && k'.current == k.current && k'.idle == k.idle && k'.priority == k.priority
            && (t in k'.eventOf <==> t in k.eventOf && t != u)
            && At(k'.eventValue, t) == if t == u then v else At(k.eventValue, t)
  {
    hide Timing, Bits, ReadyLists, Partition, Events, InReady, Drop, Without, InsertEnd;
  }

  lemma DeliverRest(k: Kernel, ws: seq<Task>, bits: G.Bits)
    requires Deliverable(k, ws) && ws != []
    ensures Deliverable(k, ws[1..]) && Deliverable(Stamped(k, ws[0], bits), ws[1..])
  {
    hide Inv, Stamped;
    forall t | t in ws[1..] ensures t in ws && t != ws[0] && t in Stamped(k, ws[0], bits).eventOf {
      StampedOne(k, ws[0], bits, t);
    }
    StampedOne(k, ws[0], bits, ws[0]);
  }

  /** The loop of xEventGroupSetBits over the list, reading the items of the kernel. */
  ghost function Deliver(k: Kernel, ws: seq<Task>, bits: G.Bits): (k': Kernel)
    requires Deliverable(k, ws)
    ensures Inv(k')
    decreases |ws|
  {
    if ws == [] then k
    else
      DeliverRest(k, ws, bits);
      Deliver(if G.Met(bits, Item(k, ws[0])) then Stamped(k, ws[0], bits) else k, ws[1..], bits)
  }

  predicate Hit(k: Kernel, ws: seq<Task>, bits: G.Bits, t: Task) { t in ws && G.Met(bits, Item(k, t)) }

  ghost predicate DeliveredTo(k: Kernel, k': Kernel, bits: G.Bits, hit: bool, t: Task) {
    && k'.suspended == k.suspended && k'.current == k.current && k'.idle == k.idle
    && k'.priority.Keys == k.priority.Keys && Released(k, k', t)
    && (t in k'.eventOf <==> t in k.eventOf && !hit)
    && At(k'.eventValue, t) == if hit then ToNat(G.Snapshot(bits)) else At(k.eventValue, t)
  }

  /** It unblocks exactly those whose item is met, and tells them all the same. */
  lemma {:induction false} Delivered(k: Kernel, ws: seq<Task>, bits: G.Bits, t: Task)
    requires Deliverable(k, ws)
    ensures DeliveredTo(k, Deliver(k, ws, bits), bits, Hit(k, ws, bits, t), t)
    decreases |ws|
  {
    hide Inv, Stamped, G.Met, ToBits, ToNat, G.Snapshot, Blocked;
    if ws != [] {
      DeliverRest(k, ws, bits);
      assert ws == [ws[0]] + ws[1..] && ws[0] !in ws[1..];
      var k1 := if G.Met(bits, Item(k, ws[0])) then Stamped(k, ws[0], bits) else k;
      StampedOne(k, ws[0], bits, t);
      Delivered(k1, ws[1..], bits, t);
    }
  }

  lemma LinkedDeliverable(s: System)
    requires Linked(s) && s.k.suspended > 0
    ensures Deliverable(s.k, s.g.waiters)
  {
  }

  /** The running task can still block after it has unblocked others. */
  lemma StillCaller(s: System, bits: G.Bits, wanted: G.Bits, ticks: nat)
    requires Linked(s) && Caller(s, wanted, ticks)
    ensures Deliverable(s.k, s.g.waiters)
    ensures var k := Deliver(s.k, s.g.waiters, bits);
            k.suspended > 0 && MayBlock(k) && k.current !in k.pending && k.current == s.k.current
  {
    hide Timing, Bits, ReadyLists, Events, Shape, Deliver, G.And;
    LinkedDeliverable(s);
    Delivered(s.k, s.g.waiters, bits, s.k.current);
    ReadyIsNotDelayed(s.k, s.k.current);
  }

  // ---------------------------------------------------------------------- moves

  ghost function Placed(k: Kernel, list: nat, v: G.Bits, ticks: nat): Kernel
    requires Inv(k) && k.suspended > 0 && MayBlock(k) && k.current !in k.pending && 1 <= ticks <= MAX_DELAY
  {
    Step(k, WaitBits(list, ToNat(v), ticks))
  }

  ghost function WaitMove(s: System, wanted: G.Bits, all: bool, clear: bool, n: nat): System
    requires Linked(s) && Caller(s, wanted, n)
  {
    var g := G.Next(s.g, G.Wait(s.k.current, wanted, all, clear, n > 0));
    if G.Test(s.g.bits, wanted, all) || n == 0 then s.(g := g)
    else System(Placed(s.k, s.list, G.Stored(wanted, all, clear), n), g, s.list)
  }

  ghost function SetMove(s: System, more: G.Bits): System
    requires Linked(s) && s.k.suspended > 0
  {
    LinkedDeliverable(s);
    System(Deliver(s.k, s.g.waiters, G.Or(s.g.bits, more)), G.Set(s.g, more), s.list)
  }

  ghost function SyncMove(s: System, more: G.Bits, wanted: G.Bits, n: nat): System
    requires Linked(s) && Caller(s, wanted, n)
  {
    var g, bits := G.Next(s.g, G.Sync(s.k.current, more, wanted, n > 0)), G.Or(s.g.bits, more);
    StillCaller(s, bits, wanted, n);
    var k := Deliver(s.k, s.g.waiters, bits);
    if G.Test(bits, wanted, true) || n == 0 then System(k, g, s.list)
    else System(Placed(k, s.list, G.Stored(wanted, true, true), n), g, s.list)
  }

  ghost function OtherMove(s: System, e: Event): System
    requires Linked(s) && Enabled(s.k, e)
  {
    var k := Step(s.k, e);
    System(k, s.g.(waiters := Still(s.g.waiters, k, s.list)), s.list)
  }

  ghost function Next(s: System, m: Move): System
    requires Linked(s) && Allowed(s, m)
  {
    match m
    case Other(e) => OtherMove(s, e)
    case Clear(less) => s.(g := G.Next(s.g, G.ClearBits(less)))
    case Set(more) => SetMove(s, more)
    case Wait(wanted, all, clear, n) => WaitMove(s, wanted, all, clear, n)
    case Sync(more, wanted, n) => SyncMove(s, more, wanted, n)
  }

  lemma ListedBlocked(k: Kernel, t: Task)
    requires Inv(k) && t in k.eventOf
    ensures Blocked(k, t)
  {
    hide Timing, Bits, ReadyLists, Partition, InReady, Shape;
  }

  lemma UntouchedByOther(s: System, e: Event, t: Task)
    requires Linked(s) && Allowed(s, Other(e)) && t in s.g.waiters
    ensures Keeps(Step(s.k, e), s.g.value, t)
  {
    hide Core, Step, ToNat, At;
    assert OnList(s.k, t, s.list);
    ListedBlocked(s.k, t);
    if (e.Disinherit? || e.WaitBits? || e.ResetItem?) && s.k.current == t { RunningIsNotBlocked(s.k, e); }
    StepKeepsValue(s.k, e, t);
  }

  lemma OtherLinked(s: System, e: Event)
    requires Linked(s) && Allowed(s, Other(e))
    ensures Linked(Next(s, Other(e)))
  {
    hide Inv, Step, Enabled, Still, Keeps, NoDuplicates;
    var k := Step(s.k, e);
    StepKeeps(s.k, e);
    StillExact(s.g.waiters, k, s.list, 0);
    forall t ensures t in Still(s.g.waiters, k, s.list) <==> OnList(k, t, s.list) {
      StillExact(s.g.waiters, k, s.list, t);
      StepEventOf(s.k, e, t);
    }
    forall t | t in Still(s.g.waiters, k, s.list) ensures Keeps(k, s.g.value, t) {
      StillExact(s.g.waiters, k, s.list, t);
      UntouchedByOther(s, e, t);
    }
  }

  /** What is read back is what was stored. */
  lemma ReadsStored(s: System, t: Task)
    requires Linked(s) && t in s.g.waiters
    ensures Item(s.k, t) == G.ValueOf(s.g.value, t)
  {
    hide Inv, ToNat, ToBits;
    assert Keeps(s.k, s.g.value, t);
    RoundTrip(G.ValueOf(s.g.value, t));
  }

  lemma SetLinked(s: System, more: G.Bits)
    requires Linked(s) && s.k.suspended > 0
    ensures Deliverable(s.k, s.g.waiters)
    ensures Linked(System(Deliver(s.k, s.g.waiters, G.Or(s.g.bits, more)), G.Set(s.g, more), s.list))
  {
    hide Inv, Deliver, G.Set, G.Met, Item, ToNat, G.Snapshot, G.Or, NoDuplicates, Blocked;
    LinkedDeliverable(s);
    var bits := G.Or(s.g.bits, more);
    var k, g := Deliver(s.k, s.g.waiters, bits), G.Set(s.g, more);
    forall t ensures (t in g.waiters <==> OnList(k, t, s.list)) && (t in g.waiters ==> Keeps(k, g.value, t)) {
      Delivered(s.k, s.g.waiters, bits, t);
      G.SetExact(s.g, more, t);
      if t in s.g.waiters { ReadsStored(s, t); }
    }
    SetDistinct(s.g, more);
  }

  lemma SetDistinct(g: G.Group, more: G.Bits)
    requires NoDuplicates(g.waiters)
    ensures NoDuplicates(G.Set(g, more).waiters)
  {
    G.RemainingExact(g.waiters, g.value, G.Or(g.bits, more), 0);
  }

  lemma PlacedLinked(s: System, v: G.Bits, ticks: nat)
    requires Linked(s) && s.k.suspended > 0 && MayBlock(s.k) && s.k.current !in s.k.pending && 1 <= ticks <= MAX_DELAY
    requires G.And(v, G.IN_USE) != 0
    ensures var t := s.k.current;
            Linked(System(Placed(s.k, s.list, v, ticks),
                          s.g.(waiters := s.g.waiters + [t], value := s.g.value[t := v]), s.list))
  {
    hide Inv, MayBlock, Placed, ToNat, G.And;
    var t := s.k.current;
    PlacedForm(s.k, s.list, v, ticks);
    MarkedInUse(v);
    NotListed(s.k);
    var k, g := Placed(s.k, s.list, v, ticks), s.g.(waiters := s.g.waiters + [t], value := s.g.value[t := v]);
    forall u ensures (u in g.waiters <==> OnList(k, u, s.list)) && (u in g.waiters ==> Keeps(k, g.value, u)) {
      assert u in s.g.waiters <==> OnList(s.k, u, s.list);
      assert u in s.g.waiters ==> Keeps(s.k, s.g.value, u);
    }
    assert t !in s.g.waiters && NoDuplicates(g.waiters) by { assert !OnList(s.k, t, s.list); }
  }

  lemma NotListed(k: Kernel)
    requires MayBlock(k)
    ensures k.current !in k.eventOf
  {
  }

  lemma PlacedForm(k: Kernel, list: nat, v: G.Bits, ticks: nat)
    requires Inv(k) && k.suspended > 0 && MayBlock(k) && k.current !in k.pending && 1 <= ticks <= MAX_DELAY
    ensures var k' := Placed(k, list, v, ticks);
            && Inv(k') && k'.eventOf == k.eventOf[k.current := list]
            && k'.eventValue == k.eventValue[k.current := InUse(ToNat(v))]
  {
    hide Timing, Bits, ReadyLists, Partition, Events, Shape, BlockCurrent, ToNat, InReady;
    StepKeeps(k, WaitBits(list, ToNat(v), ticks));
    BlockForm(k, ticks);
  }

  lemma WaitLinked(s: System, wanted: G.Bits, all: bool, clear: bool, n: nat)
    requires Linked(s) && Allowed(s, Move.Wait(wanted, all, clear, n))
    ensures Linked(Next(s, Move.Wait(wanted, all, clear, n)))
  {
    hide Inv, MayBlock, Placed, Keeps, NoDuplicates, G.Test, G.And, G.Minus, G.Stored;
    if !G.Test(s.g.bits, wanted, all) && n > 0 {
      G.StoredMeans(wanted, all, clear);
      PlacedLinked(s, G.Stored(wanted, all, clear), n);
    }
  }

  lemma SyncLinked(s: System, more: G.Bits, wanted: G.Bits, n: nat)
    requires Linked(s) && Allowed(s, Sync(more, wanted, n))
    ensures Linked(Next(s, Sync(more, wanted, n)))
  {
    hide Inv, MayBlock, Placed, Keeps, NoDuplicates, G.Test, G.And, G.Minus, G.Stored, G.Set, G.Or, Deliver;
    var bits := G.Or(s.g.bits, more);
    StillCaller(s, bits, wanted, n);
    SetLinked(s, more);
    if !G.Test(bits, wanted, true) && n > 0 {
      G.StoredMeans(wanted, true, true);
      PlacedLinked(System(Deliver(s.k, s.g.waiters, bits), G.Set(s.g, more), s.list), G.Stored(wanted, true, true), n);
    }
  }

  lemma NextLinked(s: System, m: Move)
    requires Linked(s) && Allowed(s, m)
    ensures Linked(Next(s, m))
  {
    hide Inv, Enabled, Step, MayBlock, Keeps, NoDuplicates, Deliver, G.And, G.Set, G.Or;
    match m
    case Other(e) => OtherLinked(s, e);
    case Clear(_) =>
    case Set(more) => SetLinked(s, more);
    case Wait(wanted, all, clear, n) => WaitLinked(s, wanted, all, clear, n);
    case Sync(more, wanted, n) => SyncLinked(s, more, wanted, n);
  }

  // --------------------------------------------------------------------- runs

  /** And nobody on the list waits for bits that are set. */
  ghost predicate Good(s: System) { Linked(s) && G.NoneMet(s.g) && G.And(s.g.bits, G.CONTROL) == 0 }

  lemma {:induction false} FewerWaiters(g: G.Group, ws: seq<Task>)
    requires G.NoneMet(g) && NoDuplicates(ws) && forall t :: t in ws ==> t in g.waiters
    ensures G.NoneMet(g.(waiters := ws))
  {
    hide G.Met, NoDuplicates;
  }

  lemma NextGood(s: System, m: Move)
    requires Good(s) && Allowed(s, m)
    ensures Good(Next(s, m))
  {
    hide Inv, MayBlock, Step, Deliver, Placed, Still, Enabled, Keeps, NoDuplicates, G.NoneMet, G.Set, G.Test, G.And,
      G.Or, G.Minus, G.Stored;
    NextLinked(s, m);
    match m
    case Other(e) => OtherGood(s, e);
    case Clear(less) => GroupGood(s, m, G.ClearBits(less));
    case Set(more) => GroupGood(s, m, G.SetBits(more));
    case Wait(wanted, all, clear, n) => NotWaiting(s); GroupGood(s, m, G.Wait(s.k.current, wanted, all, clear, n > 0));
    case Sync(more, wanted, n) => NotWaiting(s); GroupGood(s, m, G.Sync(s.k.current, more, wanted, n > 0));
  }

  lemma OtherGood(s: System, e: Event)
    requires Good(s) && Allowed(s, Other(e))
    ensures G.NoneMet(Next(s, Other(e)).g) && Next(s, Other(e)).g.bits == s.g.bits
  {
    hide Inv, Step, Still, Enabled, Keeps, NoDuplicates, G.NoneMet, G.And;
    var k := Step(s.k, e);
    StillExact(s.g.waiters, k, s.list, 0);
    forall t | t in Still(s.g.waiters, k, s.list) ensures t in s.g.waiters { StillExact(s.g.waiters, k, s.list, t); }
    FewerWaiters(s.g, Still(s.g.waiters, k, s.list));
  }

  lemma NotWaiting(s: System)
    requires Linked(s) && MayBlock(s.k)
    ensures s.k.current !in s.g.waiters
  {
    hide Inv;
    assert !OnList(s.k, s.k.current, s.list);
  }

  lemma GroupGood(s: System, m: Move, e: G.Event)
    requires Good(s) && Allowed(s, m) && G.Enabled(s.g, e) && Next(s, m).g == G.Next(s.g, e)
    ensures G.NoneMet(Next(s, m).g) && G.And(Next(s, m).g.bits, G.CONTROL) == 0
  {
    hide Linked, Allowed, Next, G.Next, G.NoneMet, G.Enabled, G.And;
    G.NextKeeps(s.g, e);
    G.NextFree(s.g, e);
  }

  ghost predicate Runs(s: System, ms: seq<Move>)
    requires Good(s)
    decreases |ms|
  {
    ms == [] || (Allowed(s, ms[0]) && (NextGood(s, ms[0]); Runs(Next(s, ms[0]), ms[1..])))
  }

  ghost function Run(s: System, ms: seq<Move>): (s': System)
    requires Good(s) && Runs(s, ms)
    ensures Good(s')
    decreases |ms|
  {
    if ms == [] then s else NextGood(s, ms[0]); Run(Next(s, ms[0]), ms[1..])
  }

  /** A new event group, before the scheduler starts. */
  ghost predicate Start(s: System) { Initial(s.k) && s.g.waiters == [] && s.g.bits == 0 }

  lemma StartIsGood(s: System)
    requires Start(s)
    ensures Good(s)
  {
    hide Inv, Initial;
    InitialHolds(s.k);
    G.NothingMasked(G.CONTROL);
  }

  /** In every state reached from the start: no task on the list of the event group has
      an item whose condition the bits meet, read from the kernel as xEventGroupSetBits
      reads it. */
  lemma NobodyOverlooked(s: System, ms: seq<Move>, t: Task)
    requires Start(s) && (StartIsGood(s); Runs(s, ms))
    ensures Good(s) && Runs(s, ms)
    ensures var s' := Run(s, ms); OnList(s'.k, t, s.list) ==> !G.Met(s'.g.bits, Item(s'.k, t))
  {
    hide Run, Runs, Inv, G.Met, Item;
    StartIsGood(s);
    SameList(s, ms);
    if OnList(Run(s, ms).k, t, s.list) {
      ReadsStored(Run(s, ms), t);
    }
  }

  lemma {:induction false} SameList(s: System, ms: seq<Move>)
    requires Good(s) && Runs(s, ms)
    ensures Run(s, ms).list == s.list
    decreases |ms|
  {
    if ms != [] {
      NextGood(s, ms[0]);
      SameList(Next(s, ms[0]), ms[1..]);
      ListStays(s, ms[0]);
    }
  }

  lemma ListStays(s: System, m: Move)
    requires Linked(s) && Allowed(s, m)
    ensures Next(s, m).list == s.list
  {
    hide Linked, Allowed, Step, Deliver, Still, Placed;
  }

  // ----------------------------------------------------- from the store to the return

  lemma SetKeepsValue(g: G.Group, more: G.Bits, t: Task)
    requires t in G.Set(g, more).waiters
    ensures t in g.waiters && G.ValueOf(G.Set(g, more).value, t) == G.ValueOf(g.value, t)
  {
    hide G.Set, G.Met, G.Or, G.Snapshot;
    G.SetExact(g, more, t);
  }

  lemma ValueStays(s: System, m: Move, t: Task)
    requires Linked(s) && Allowed(s, m) && t in s.g.waiters && t in Next(s, m).g.waiters
    ensures G.ValueOf(Next(s, m).g.value, t) == G.ValueOf(s.g.value, t)
  {
    hide Inv, MayBlock, Step, Deliver, Still, Placed, G.Set, G.Test, G.And, G.Stored, G.Minus, Keeps;
    match m
    case Other(_) =>
    case Clear(_) =>
    case Set(more) => SetKeepsValue(s.g, more, t);
    case Wait(_, _, _, _) => NotWaiting(s);
    case Sync(more, _, _) =>
      NotWaiting(s);
      assert t != s.k.current;
      SetKeepsValue(s.g, more, t);
  }

  ghost predicate StaysOn(s: System, ms: seq<Move>, t: Task)
    requires Good(s) && Runs(s, ms)
    decreases |ms|
  {
    t in s.g.waiters && (ms == [] || (NextGood(s, ms[0]); StaysOn(Next(s, ms[0]), ms[1..], t)))
  }

  lemma {:induction false} StoredStays(s: System, ms: seq<Move>, t: Task)
    requires Good(s) && Runs(s, ms) && StaysOn(s, ms, t)
    ensures Item(Run(s, ms).k, t) == G.ValueOf(s.g.value, t)
    decreases |ms|
  {
    hide Next, Allowed, Linked, G.NoneMet, Item, G.And;
    if ms == [] {
      ReadsStored(s, t);
    } else {
      NextGood(s, ms[0]);
      StoredStays(Next(s, ms[0]), ms[1..], t);
      ValueStays(s, ms[0], t);
    }
  }

  /** As long as it waits, whatever runs, blocks, or changes its priority meanwhile, the
      condition read back from its item is the one the caller gave. */
  lemma ConditionSurvives(s: System, wanted: G.Bits, all: bool, clear: bool, n: nat, ms: seq<Move>)
    requires Good(s) && Allowed(s, Move.Wait(wanted, all, clear, n)) && !G.Test(s.g.bits, wanted, all) && n > 0
    requires Good(Next(s, Move.Wait(wanted, all, clear, n)))
    requires var s1 := Next(s, Move.Wait(wanted, all, clear, n)); Runs(s1, ms) && StaysOn(s1, ms, s.k.current)
    ensures var item := Item(Run(Next(s, Move.Wait(wanted, all, clear, n)), ms).k, s.k.current);
            G.WantsClear(item) == clear && forall bits :: G.Met(bits, item) == G.Test(bits, wanted, all)
  {
    hide Linked, Runs, Run, StaysOn, Placed, MayBlock, G.Stored, G.Test, G.Wanted, G.WantsAll, G.WantsClear, Item,
      G.And, G.NoneMet;
    var s1, t := Next(s, Move.Wait(wanted, all, clear, n)), s.k.current;
    StoredStays(s1, ms, t);
    G.StoredMeans(wanted, all, clear);
  }

  /** The task has not yet looked at its item. */
  ghost predicate Unread(k: Kernel, es: seq<Event>, t: Task)
    requires Inv(k) && SchedulerRuns.Runs(k, es)
    decreases |es|
  {
    es == [] || (!Rewrites(k, es[0], t) && (StepKeeps(k, es[0]); Unread(Step(k, es[0]), es[1..], t)))
  }

  lemma {:induction false} UnreadStays(k: Kernel, es: seq<Event>, t: Task)
    requires Inv(k) && SchedulerRuns.Runs(k, es) && Unread(k, es, t) && At(k.eventValue, t) >= VALUE_IN_USE
    ensures At(SchedulerRuns.Run(k, es).eventValue, t) == At(k.eventValue, t)
    decreases |es|
  {
    hide Step, Inv, Enabled, Rewrites, At;
    if es != [] {
      StepKeeps(k, es[0]);
      StepKeepsValue(k, es[0], t);
      UnreadStays(Step(k, es[0]), es[1..], t);
    }
  }

  /** The item of the task says that these bits unblocked it. */
  ghost predicate Told(k: Kernel, t: Task, bits: G.Bits) {
    At(k.eventValue, t) == ToNat(G.Snapshot(bits)) && G.And(bits, G.CONTROL) == 0
  }

  /** A set tells every waiter whose condition it meets. */
  lemma SetTells(s: System, more: G.Bits, t: Task)
    requires Good(s) && Allowed(s, Set(more)) && t in s.g.waiters
    requires G.Met(G.Or(s.g.bits, more), G.ValueOf(s.g.value, t))
    ensures Told(Next(s, Set(more)).k, t, G.Or(s.g.bits, more))
  {
    hide Inv, Deliver, Released, G.Met, G.Or, G.And, G.Snapshot, ToNat, Item, G.NoneMet, G.Set, NoDuplicates, Keeps;
    var bits := G.Or(s.g.bits, more);
    LinkedDeliverable(s);
    ReadsStored(s, t);
    Delivered(s.k, s.g.waiters, bits, t);
    G.StillFree(s.g.bits, more);
  }

  /** Bits once delivered are the ones the task returns when it gets to run, whatever
      happens to its priority and to the bits of the group until then. */
  lemma DeliveredSurvives(k: Kernel, es: seq<Event>, t: Task, bits: G.Bits, now: G.Bits)
    requires Inv(k) && SchedulerRuns.Runs(k, es) && Unread(k, es, t) && Told(k, t, bits)
    ensures G.Returned(Item(SchedulerRuns.Run(k, es), t), now) == (true, bits)
  {
    hide Inv, Unread, SchedulerRuns.Runs, SchedulerRuns.Run, G.And, G.Snapshot, G.Returned, ToNat, ToBits;
    SnapshotInUse(bits);
    MarkedInUse(G.Snapshot(bits));
    RoundTrip(G.Snapshot(bits));
    UnreadStays(k, es, t);
    G.NothingMasked(G.CONTROL);
    G.ReturnedExactly(bits, 0, false, false, now);
  }
}

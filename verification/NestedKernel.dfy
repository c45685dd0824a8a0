/** The kernel through the run of NestedMutexes: a task waits for one mutex while it
    holds another, gives up, and leaves a stale bit behind. */
module NestedKernel {
  import opened Basics
  import opened Rings
  import opened Ticks
  import opened Scheduler
  import opened SchedulerSafety
  import opened SchedulerRuns
  import opened KernelStart
  import opened WakeTimes
  import opened KernelMutexes
  import opened StaleBits
  import N = NestedMutexes

  // ---------------------------------------------------------------------- any runs

  ghost predicate Reaches(j: Joint, ms: seq<Move>, j': Joint)
    decreases |ms|
  {
    Together(j) && if ms == [] then j' == j else Allowed(j, ms[0]) && Reaches(Next(j, ms[0]), ms[1..], j')
  }

  /** Some run of the kernel leads from j to j'. */
  ghost predicate Gets(j: Joint, j': Joint) { exists ms :: Reaches(j, ms, j') }

  lemma OneMove(j: Joint, m: Move)
    requires Together(j) && Allowed(j, m) && Together(Next(j, m))
    ensures Gets(j, Next(j, m))
  {
    hide Together, Allowed, Next;
    assert [m][1..] == [] && Reaches(Next(j, m), [], Next(j, m));
    assert Reaches(j, [m], Next(j, m));
  }

  lemma Onwards(j: Joint, j1: Joint, j2: Joint)
    requires Gets(j, j1) && Gets(j1, j2)
    ensures Gets(j, j2)
  {
    hide Reaches;
    var ms :| Reaches(j, ms, j1);
    var ns :| Reaches(j1, ns, j2);
    Joined(j, ms, j1, ns, j2);
  }

  lemma {:induction false} Joined(j: Joint, ms: seq<Move>, j1: Joint, ns: seq<Move>, j2: Joint)
    requires Reaches(j, ms, j1) && Reaches(j1, ns, j2)
    ensures Reaches(j, ms + ns, j2)
    decreases |ms|
  {
    hide Together, Allowed, Next;
    if ms == [] {
      assert [] + ns == ns;
    } else {
      Joined(Next(j, ms[0]), ms[1..], j1, ns, j2);
      assert (ms + ns)[1..] == ms[1..] + ns;
    }
  }

  // ------------------------------------------------------------------ single moves

  /** The clock and every wake time are the same, and nobody was woken. */
  ghost predicate SameTimes(k: Kernel, k': Kernel) {
    && Clock(k') == Clock(k) && k'.idle == k.idle
    && forall t :: (Blocked(k', t) <==> Blocked(k, t)) && (Blocked(k, t) ==> Due(k', t) == Due(k, t))
  }

  /** Nobody on the list has been made ready. */
  lemma {:induction false} CatchNone(s: M.System, ts: seq<Task>, k: Kernel)
    requires MB.Books(s) && forall t :: t in ts ==> Blocked(k, t)
    ensures Catch(s, ts, k) == s
    decreases |ts|
  {
    hide MB.Books;
    if ts != [] {
      assert ts[0] in ts;
      CatchNone(s, ts[1..], k);
    }
  }

  /** Only `u` has. */
  lemma {:induction false} CatchOnly(s: M.System, ts: seq<Task>, k: Kernel, u: Task)
    requires MB.Books(s) && NoDuplicates(ts) && u in ts && forall t :: t in ts && t != u ==> Blocked(k, t)
    ensures Catch(s, ts, k) == CatchOne(s, u, k)
    decreases |ts|
  {
    hide MB.Books, CatchOne, Blocked;
    KeysOf(s);
    CatchBooks(s, u, k);
    CatchBooks(s, ts[0], k);
    assert ts == [ts[0]] + ts[1..] && ts[0] !in ts[1..];
    if ts[0] == u {
      CatchNone(CatchOne(s, u, k), ts[1..], k);
    } else {
      StillAsleep(s, ts[0], k);
      CatchOnly(s, ts[1..], k, u);
    }
  }

  lemma StillAsleep(s: M.System, t: Task, k: Kernel)
    requires M.Shaped(s) && Blocked(k, t)
    ensures CatchOne(s, t, k) == s
  {
    hide M.Shaped;
  }

  lemma OtherIs(j: Joint, e: Event)
    requires Together(j) && MayOther(j, e) && !IsBlockEvent(e) && SameTimes(j.k, Step(j.k, e))
    ensures Allowed(j, Other(e)) && Next(j, Other(e)) == Joint(Step(j.k, e), j.s) && Together(Next(j, Other(e)))
  {
    hide Inv, MB.Books, Queued, Represents, Step, Catch, Enabled, Acts, Blocked;
    NextTogether(j, Other(e));
    forall t | t in Sleepers(j.k) ensures Blocked(Step(j.k, e), t) { SleepersAre(j.k, t); }
    CatchNone(j.s, Sleepers(j.k), Step(j.k, e));
  }

  lemma Suspends(j: Joint)
    requires Together(j)
    ensures Allowed(j, Other(SuspendAll)) && Together(Next(j, Other(SuspendAll)))
    ensures Next(j, Other(SuspendAll)) == Joint(j.k.(suspended := j.k.suspended + 1), j.s)
  {
    hide Inv, MB.Books, Queued, Represents;
    OtherIs(j, SuspendAll);
  }

  lemma NothingHeld(k: Kernel)
    requires Inv(k) && k.suspended == 0
    ensures k.pending == [] && k.pended == 0
  {
  }

  /** Resuming with nothing held back only resumes. */
  lemma Resumes(j: Joint)
    requires Together(j) && j.k.suspended == 1 && j.k.pending == [] && j.k.pended == 0
    ensures Allowed(j, Other(ResumeAll)) && Together(Next(j, Other(ResumeAll)))
    ensures Next(j, Other(ResumeAll)) == Joint(j.k.(suspended := 0), j.s)
  {
    hide Core, MB.Books, Queued, Represents, Scheduler.ResumeAll;
    ResumedFrame(j.k);
    OtherIs(j, ResumeAll);
  }

  lemma ResumedFrame(k: Kernel)
    requires Inv(k) && k.suspended == 1 && k.pending == [] && k.pended == 0
    ensures var k' := Scheduler.ResumeAll(k); k' == k.(suspended := 0)
  {
    hide Timing, Bits, ReadyLists, Partition, Events, InReady, Shape, Tasks;
  }

  /** The context switch brings in the one most urgent task that can run. */
  lemma Switches(j: Joint, t: Task)
    requires Together(j) && j.k.suspended == 0 && M.Keys(j.s) && t in j.s.base && MT.Runnable(j.s.status[t])
    requires forall u :: u in j.s.base && u != t && MT.Runnable(j.s.status[u]) ==> j.s.prio[u] < j.s.prio[t]
    ensures Allowed(j, Other(Switch)) && Together(Next(j, Other(Switch)))
    ensures var j' := Next(j, Other(Switch));
            j'.s == j.s && SameTimes(j.k, j'.k) && j'.k.suspended == 0 && j'.k.current == t
  {
    hide Core, MB.Books, Queued, Represents, SwitchContext, InReady, Next, Allowed;
    SwitchFrame(j.k);
    SwitchedInIsMostUrgent(j.k);
    MaySwitch(j);
    OtherIs(j, Switch);
    var j' := Next(j, Other(Switch));
    CurrentKnown(j');
    RunnableIsReady(j', j'.k.current);
    RunnableIsReady(j', t);
  }

  lemma MaySwitch(j: Joint)
    requires Together(j) && j.k.suspended == 0
    ensures MayOther(j, Switch) && Step(j.k, Switch) == SwitchContext(j.k)
  {
    hide Core, MB.Books, Queued, Represents, SwitchContext;
  }

  lemma SwitchFrame(k: Kernel)
    requires Inv(k)
    ensures var k' := SwitchContext(k); SameTimes(k, k') && k'.suspended == k.suspended
  {
    hide Timing, Bits, ReadyLists, Partition, Events, InReady, Shape, Highest, Tasks, Advance;
  }

  // ------------------------------------------------------------- blocking and waking

  /** `t` is blocked from now on, to be woken at `due`; all else is as it was. */
  ghost predicate NowSleeps(k: Kernel, k': Kernel, t: Task, due: nat) {
    && Clock(k') == Clock(k) && k'.idle == k.idle && k'.suspended == k.suspended && k'.current == k.current
    && k'.pending == k.pending && k'.pended == k.pended && Blocked(k', t) && Due(k', t) == due
    && forall u :: u != t ==> (Blocked(k', u) <==> Blocked(k, u)) && (Blocked(k, u) ==> Due(k', u) == Due(k, u))
  }

  lemma StaysDue(k: Kernel, k': Kernel, t: Task)
    requires StaysBlocked(k, k', t) && k'.overflows == k.overflows
    ensures (Blocked(k', t) <==> Blocked(k, t)) && (Blocked(k, t) ==> Due(k', t) == Due(k, t))
  {
  }

  lemma BlockSleeps(k: Kernel, e: Event)
    requires Inv(k) && Enabled(k, e) && IsBlockEvent(e)
    ensures NowSleeps(k, Step(k, e), k.current, Clock(k) + e.ticks)
  {
    hide Inv, Step, Blocked, Due, Clock, StaysBlocked;
    var k' := Step(k, e);
    BlockDue(k, e);
    StepBlocks(k, e);
    StepFrame(k, e);
    StepCurrent(k, e);
    forall u | u != k.current
      ensures (Blocked(k', u) <==> Blocked(k, u)) && (Blocked(k, u) ==> Due(k', u) == Due(k, u))
    {
      if Blocked(k, u) {
        StepEffect(k, e, u);
        StaysDue(k, k', u);
      }
    }
  }

  lemma StepCurrent(k: Kernel, e: Event)
    requires Inv(k) && Enabled(k, e) && IsBlockEvent(e)
    ensures Step(k, e).current == k.current && Step(k, e).idle == k.idle
  {
    hide Core, BlockCurrent;
    BlockForm(k, e.ticks);
  }

  lemma InheritSame(k: Kernel, h: Task)
    requires Inv(k) && h in k.priority
    ensures var k' := Step(k, Inherit(h)); SameTimes(k, k') && SameWaits(k, k') && k'.pended == k.pended
  {
    hide Core, PriorityInherit, Due;
    var k' := Step(k, Inherit(h));
    InheritWaits(k, h);
    StepFrame(k, Inherit(h));
    forall t ensures (Blocked(k', t) <==> Blocked(k, t)) && (Blocked(k, t) ==> Due(k', t) == Due(k, t)) {
      PriorityEffect(k, Inherit(h), t);
      StaysDue(k, k', t);
    }
  }

  lemma SuspensionApart(k: Kernel, k2: Kernel, t: Task, due: nat)
    requires NowSleeps(k.(suspended := 1), k2, t, due) && k.suspended == 0
    ensures NowSleeps(k, k2.(suspended := 0), t, due)
  {
    hide Blocked, Due;
    var k1, k3 := k.(suspended := 1), k2.(suspended := 0);
    forall u ensures Blocked(k1, u) == Blocked(k, u) && Due(k1, u) == Due(k, u) { SuspensionOnly(k, 1, u); }
    forall u ensures Blocked(k3, u) == Blocked(k2, u) && Due(k3, u) == Due(k2, u) { SuspensionOnly(k2, 0, u); }
  }

  lemma SuspensionOnly(k: Kernel, n: nat, t: Task)
    ensures var k' := k.(suspended := n); Blocked(k', t) == Blocked(k, t) && Due(k', t) == Due(k, t)
  {
  }

  /** What a task needs to block. */
  ghost predicate CanBlock(j: Joint)
    requires Together(j)
  {
    Acts(j) && j.k.current != j.k.idle && j.k.suspended > 0 && j.k.pending == []
  }

  lemma SuspendedCanBlock(j: Joint)
    requires Together(j) && Acts(j) && j.k.current != j.k.idle && j.k.suspended == 0
    ensures var j1 := Joint(j.k.(suspended := 1), j.s);
            && Allowed(j, Other(SuspendAll)) && Next(j, Other(SuspendAll)) == j1
            && Together(j1) && CanBlock(j1) && j1.k.pended == 0
  {
    hide Inv, MB.Books, Queued, Represents, InReady, MI.MostUrgent, Next, Allowed;
    NothingHeld(j.k);
    Suspends(j);
  }

  lemma MayBlockOn(j: Joint, e: Event)
    requires Together(j) && CanBlock(j) && IsBlockEvent(e) && 1 <= e.ticks <= MAX_DELAY
    ensures Enabled(j.k, e)
  {
    hide Core, MB.Books, Queued, Represents, InReady, MI.MostUrgent;
    CurrentKnown(j);
    ReadyIff(j.k, j.k.current);
    ListedIsBlocked(j.k, j.k.current);
  }

  /** Suspend, block with move m, resume. */
  lemma Region(j: Joint, m: Move, due: nat) returns (j': Joint)
    requires Together(j) && Acts(j) && j.k.current != j.k.idle && j.k.suspended == 0
    requires var j1 := Joint(j.k.(suspended := 1), j.s);
             && Together(j1) && Allowed(j1, m) && Together(Next(j1, m))
             && NowSleeps(j1.k, Next(j1, m).k, j.k.current, due)
    ensures Gets(j, j') && Together(j') && NowSleeps(j.k, j'.k, j.k.current, due)
    ensures j'.s == Next(Joint(j.k.(suspended := 1), j.s), m).s
  {
    hide Together, Acts, Allowed, Next, NowSleeps, CanBlock, Gets;
    SuspendedCanBlock(j);
    var j1 := Joint(j.k.(suspended := 1), j.s);
    OneMove(j, Other(SuspendAll));
    var j2 := Next(j1, m);
    OneMove(j1, m);
    Onwards(j, j1, j2);
    SleepHolds(j1, j2, j.k.current, due);
    Resumes(j2);
    j' := Next(j2, Other(ResumeAll));
    OneMove(j2, Other(ResumeAll));
    Onwards(j, j2, j');
    SuspensionApart(j.k, j2.k, j.k.current, due);
  }

  lemma SleepHolds(j1: Joint, j2: Joint, t: Task, due: nat)
    requires Together(j1) && CanBlock(j1) && j1.k.pended == 0 && j1.k.suspended == 1 && NowSleeps(j1.k, j2.k, t, due)
    ensures j2.k.suspended == 1 && j2.k.pending == [] && j2.k.pended == 0
  {
    hide Together, Acts, Blocked, Due, Clock;
  }

  /** The running task goes to sleep for n ticks. */
  lemma Sleeps(j: Joint, n: nat) returns (j': Joint)
    requires Together(j) && Acts(j) && MI.Is(j.s.status, j.k.current, M.Ready) && j.k.current != j.k.idle
    requires j.k.suspended == 0 && 1 <= n <= MAX_DELAY
    ensures Gets(j, j') && Together(j') && NowSleeps(j.k, j'.k, j.k.current, Clock(j.k) + n)
    ensures M.Shaped(j.s) && M.Enabled(j.s, M.Sleep(j.k.current)) && j'.s == M.Next(j.s, M.Sleep(j.k.current))
  {
    hide Together, Acts, CanBlock, NowSleeps, M.Next, M.Enabled, M.Shaped, Next, Allowed;
    var j1 := Joint(j.k.(suspended := 1), j.s);
    SuspendedCanBlock(j);
    SleepMove(j1, n);
    j' := Region(j, Other(Delay(n)), Clock(j.k) + n);
  }

  lemma SleepMove(j: Joint, n: nat)
    requires Together(j) && CanBlock(j) && MI.Is(j.s.status, j.k.current, M.Ready) && 1 <= n <= MAX_DELAY
    ensures Allowed(j, Other(Delay(n))) && M.Shaped(j.s) && M.Enabled(j.s, M.Sleep(j.k.current))
    ensures var j' := Next(j, Other(Delay(n)));
            && Together(j') && NowSleeps(j.k, j'.k, j.k.current, Clock(j.k) + n)
            && j'.s == M.Next(j.s, M.Sleep(j.k.current))
  {
    hide Inv, MB.TaskOk, MB.HeldBy, MB.MutexOk, Queued, Represents, M.MutexShaped, M.StatusShaped, Step, NowSleeps,
      InReady, MI.MostUrgent, Enabled;
    CurrentKnown(j);
    MayBlockOn(j, Delay(n));
    BlockSleeps(j.k, Delay(n));
    NextTogether(j, Other(Delay(n)));
  }

  /** The running task waits for mutex m, for at most n ticks. */
  lemma Waits(j: Joint, m: M.Id, n: nat) returns (j': Joint)
    requires Together(j) && Acts(j) && j.k.current != j.k.idle && j.k.suspended == 0 && 1 <= n <= MAX_DELAY
    requires M.Shaped(j.s) && M.Enabled(j.s, M.Wait(j.k.current, m))
    ensures Gets(j, j') && Together(j') && NowSleeps(j.k, j'.k, j.k.current, Clock(j.k) + n)
    ensures j'.s == M.Next(j.s, M.Wait(j.k.current, m))
  {
    hide Together, Acts, CanBlock, NowSleeps, M.Next, M.Enabled, M.Shaped, Next, Allowed;
    var j1 := Joint(j.k.(suspended := 1), j.s);
    SuspendedCanBlock(j);
    WaitMove(j1, m, n);
    j' := Region(j, Block(m, n), Clock(j.k) + n);
  }

  lemma WaitMove(j: Joint, m: M.Id, n: nat)
    requires Together(j) && CanBlock(j) && 1 <= n <= MAX_DELAY
    requires M.Shaped(j.s) && M.Enabled(j.s, M.Wait(j.k.current, m))
    ensures Allowed(j, Block(m, n))
    ensures var j' := Next(j, Block(m, n));
            && Together(j') && NowSleeps(j.k, j'.k, j.k.current, Clock(j.k) + n)
            && j'.s == M.Next(j.s, M.Wait(j.k.current, m))
  {
    hide Inv, MB.Books, Queued, Represents, M.MutexShaped, M.StatusShaped, NowSleeps, InReady, MI.MostUrgent, Enabled,
      M.Next, Blocks;
    MayBlockOn(j, Wait(m, n));
    NextTogether(j, Block(m, n));
    BlocksSleeps(j, m, n);
  }

  lemma BlocksSleeps(j: Joint, m: M.Id, n: nat)
    requires Together(j) && m in j.s.mutex && Enabled(j.k, Wait(m, n))
    ensures NowSleeps(j.k, Blocks(j, m, n), j.k.current, Clock(j.k) + n)
  {
    hide Core, MB.Books, Queued, Represents, Step, Enabled, Blocked, Due, SameWaits;
    var k1 := Lent(j, m);
    LentWaits(j, m);
    LentKeys(j, m);
    StillMayBlock(j.k, k1, m, n);
    BlockSleeps(k1, Wait(m, n));
    SameCurrent(j.k, k1);
    LentTimes(j, m);
    SamePending(j.k, k1);
  }

  lemma SamePending(k: Kernel, k': Kernel)
    requires SameWaits(k, k')
    ensures k'.pending == k.pending && k'.idle == k.idle
  {
  }

  lemma LentTimes(j: Joint, m: M.Id)
    requires Together(j) && m in j.s.mutex
    ensures SameTimes(j.k, Lent(j, m)) && Lent(j, m).pended == j.k.pended
  {
    hide Core, MB.Books, Queued, Represents, Step, Blocked, Due, Clock;
    if j.s.mutex[m].holder.Some? {
      HolderKnown(j, m);
      InheritSame(j.k, j.s.mutex[m].holder.value);
    }
  }

  /** A tick at which exactly `u` is due. */
  lemma Wakes(j: Joint, u: Task)
    requires Together(j) && j.k.suspended == 0 && Blocked(j.k, u) && Due(j.k, u) == Clock(j.k) + 1
    requires forall t :: Blocked(j.k, t) && t != u ==> Due(j.k, t) > Clock(j.k) + 1
    ensures Allowed(j, Other(Tick)) && Together(Next(j, Other(Tick)))
    ensures var j' := Next(j, Other(Tick));
            && j'.s == CatchOne(j.s, u, j'.k) && Clock(j'.k) == Clock(j.k) + 1 && !Blocked(j'.k, u)
            && j'.k.suspended == 0 && j'.k.idle == j.k.idle
            && forall t :: t != u ==> (Blocked(j'.k, t) <==> Blocked(j.k, t)) &&
                                      (Blocked(j.k, t) ==> Due(j'.k, t) == Due(j.k, t))
  {
    hide Core, MB.Books, Queued, Represents, IncrementTick, Catch, CatchOne, Due, Clock;
    Known(j.k, u);
    NextTogether(j, Other(Tick));
    var k := IncrementTick(j.k);
    TickedFrame(j.k);
    TickEffect(j.k, u);
    forall t | t != u ensures (Blocked(k, t) <==> Blocked(j.k, t)) && (Blocked(j.k, t) ==> Due(k, t) == Due(j.k, t)) {
      TickEffect(j.k, t);
    }
    SleepersOnce(j.k);
    forall t | t in Sleepers(j.k) && t != u ensures Blocked(k, t) { SleepersAre(j.k, t); }
    SleepersAre(j.k, u);
    CatchOnly(j.s, Sleepers(j.k), k, u);
  }

  lemma TickedFrame(k: Kernel)
    requires Inv(k)
    ensures IncrementTick(k).suspended == k.suspended && IncrementTick(k).idle == k.idle
  {
    hide Timing, Bits, ReadyLists, Partition, Events, InReady, Shape, Tasks, AdvanceTick;
    AdvanceTickFrame(k);
  }

  lemma SleepersOnce(k: Kernel)
    requires Inv(k)
    ensures NoDuplicates(Sleepers(k))
  {
    hide Timing, Bits, ReadyLists, Events, InReady, Shape, Tasks;
    var ts := Sleepers(k);
    forall i, l | 0 <= i < l < |ts| ensures ts[i] != ts[l] {
      if i < |k.delayed| <= l { assert k.delayed[i] in k.delayed && k.overflow[l - |k.delayed|] in k.overflow; }
    }
  }

  // ------------------------------------------------------------------------ the run

  /** The kernel when the account is State(c), with `t` running and tasks 2 and 3, if
      they are blocked, to be woken at these times. */
  ghost predicate Stage(j: Joint, c: N.Setup, t: Task, clock: nat, d2: nat, d3: nat) {
    && Together(j) && j.s == N.State(c) && j.k.current == t && j.k.suspended == 0 && j.k.idle == 0
    && Clock(j.k) == clock
    && (Blocked(j.k, 2) ==> Due(j.k, 2) == d2) && (Blocked(j.k, 3) ==> Due(j.k, 3) == d3)
  }

  lemma ShapedState(j: Joint, c: N.Setup)
    requires Together(j) && j.s == N.State(c)
    ensures M.Shaped(N.State(c)) && MB.Books(N.State(c))
  {
    hide Inv, Queued, Represents, N.State;
  }

  /** Tasks 0 and 1 are never blocked here, and there are no others. */
  lemma WhoIsBlocked(j: Joint, c: N.Setup, t: Task)
    requires Together(j) && j.s == N.State(c) && j.k.suspended == 0
    ensures Blocked(j.k, t) ==> (t == 2 && !MT.Runnable(c.st2)) || (t == 3 && !MT.Runnable(c.st3))
    ensures (!MT.Runnable(c.st2) ==> Blocked(j.k, 2)) && (!MT.Runnable(c.st3) ==> Blocked(j.k, 3))
  {
    hide Core, MB.Books, Queued, Agrees, N.State, Blocked, InReady;
    N.Known(c);
    if Blocked(j.k, t) { BlockedKnown(j.k, t); }
    forall u | u in j.s.base ensures Blocked(j.k, u) <==> !MT.Runnable(j.s.status[u]) {
      RunnableIsReady(j, u);
      ReadyIff(j.k, u);
    }
  }

  lemma BlockedKnown(k: Kernel, t: Task)
    requires Inv(k) && Blocked(k, t)
    ensures t in k.priority
  {
    hide Timing, Bits, ReadyLists, Events, InReady, Shape, Tasks;
  }

  /** `t` is the one most urgent task that can run. */
  predicate Leads(c: N.Setup, t: Task) {
    match t
    case 1 => !MT.Runnable(c.st2) && !MT.Runnable(c.st3) && c.p1 > 0
    case 2 => MT.Runnable(c.st2) && !MT.Runnable(c.st3) && c.p2 > c.p1 && c.p2 > 0
    case 3 => MT.Runnable(c.st3) && (MT.Runnable(c.st2) ==> c.p2 < 3) && c.p1 < 3
    case _ => false
  }

  lemma LeadsIs(c: N.Setup, t: Task)
    requires Leads(c, t)
    ensures var s := N.State(c);
            && M.Keys(s) && t in s.base && MT.Runnable(s.status[t])
            && forall u :: u in s.base && u != t && MT.Runnable(s.status[u]) ==> s.prio[u] < s.prio[t]
  {
    hide N.State;
    N.Known(c);
    KeysState(c);
  }

  lemma KeysState(c: N.Setup)
    ensures M.Keys(N.State(c))
  {
    hide N.Four;
    N.Known(c);
  }

  lemma Switched(j: Joint, c: N.Setup, u: Task, t: Task, clock: nat, d2: nat, d3: nat)
    returns (j': Joint)
    requires Stage(j, c, u, clock, d2, d3) && Leads(c, t)
    ensures Gets(j, j') && Stage(j', c, t, clock, d2, d3)
  {
    hide Together, Allowed, Next, Due, Clock, Blocked, N.State, M.Keys, MT.Runnable, Gets;
    LeadsIs(c, t);
    Switches(j, t);
    j' := Next(j, Other(Switch));
    OneMove(j, Other(Switch));
  }

  /** The running task makes a step that is none of the kernel's. */
  lemma Stepped(j: Joint, c: N.Setup, c': N.Setup, m: Move, clock: nat, d2: nat, d3: nat)
    returns (j': Joint)
    requires Stage(j, c, j.k.current, clock, d2, d3) && (m.Take? || m.Late? || m.Look?)
    requires M.Shaped(N.State(c)) && N.Goes(N.State(c), Own(m, j.k.current), N.State(c')) && Leads(c, j.k.current)
    ensures Gets(j, j') && Stage(j', c', j.k.current, clock, d2, d3)
  {
    hide Together, Next, Due, Clock, Blocked, N.State, M.Enabled, M.Next, M.Shaped, Gets, MT.Runnable;
    ActsIn(j, c, Own(m, j.k.current));
    NextTogether(j, m);
    StepIs(j, m);
    j' := Next(j, m);
    OneMove(j, m);
  }

  lemma StepIs(j: Joint, m: Move)
    requires Together(j) && (m.Take? || m.Late? || m.Look?) && Allowed(j, m)
    ensures Next(j, m) == Joint(j.k, M.Next(j.s, Own(m, j.k.current)))
  {
    hide Together, Allowed, M.Next;
  }

  lemma ActsIn(j: Joint, c: N.Setup, e: M.Event)
    requires Together(j) && j.s == N.State(c) && j.k.suspended == 0 && M.Shaped(j.s) && M.Enabled(j.s, e)
    requires Leads(c, j.k.current) && MT.Urgent(j.s, e) && e.task == j.k.current && !e.Expire? && !e.Awake?
    ensures Acts(j)
  {
    hide Together, N.State, M.Enabled, M.Shaped, InReady, MI.MostUrgent;
    LeadsIs(c, j.k.current);
    RunnableIsReady(j, j.k.current);
  }

  /** The running task, 2 or 3, is blocked until `due`. */
  lemma SleepsOn(j: Joint, c: N.Setup, t: Task, clock: nat, d2: nat, d3: nat, j': Joint, c': N.Setup, due: nat)
    requires Stage(j, c, t, clock, d2, d3) && Together(j') && j'.s == N.State(c') && NowSleeps(j.k, j'.k, t, due)
    ensures t == 2 ==> Stage(j', c', 2, clock, due, d3)
    ensures t == 3 ==> Stage(j', c', 3, clock, d2, due)
  {
    hide Together, Due, Clock, Blocked, N.State;
  }

  lemma Slept(j: Joint, c: N.Setup, c': N.Setup, t: Task, n: nat, clock: nat, d2: nat, d3: nat)
    returns (j': Joint)
    requires Stage(j, c, t, clock, d2, d3) && Leads(c, t) && (t == 2 || t == 3) && 1 <= n <= MAX_DELAY
    requires M.Shaped(N.State(c)) && N.Goes(N.State(c), M.Sleep(t), N.State(c'))
    ensures Gets(j, j')
    ensures Stage(j', c', t, clock, if t == 2 then clock + n else d2, if t == 3 then clock + n else d3)
  {
    hide Together, Due, Clock, Blocked, N.State, M.Next, M.Shaped, Gets, NowSleeps, Acts;
    ActsIn(j, c, M.Sleep(t));
    IsReadyNow(j.s, t);
    j' := Sleeps(j, n);
    SleepsOn(j, c, t, clock, d2, d3, j', c', clock + n);
  }

  lemma IsReadyNow(s: M.System, t: Task)
    requires M.Shaped(s) && M.Enabled(s, M.Sleep(t))
    ensures MI.Is(s.status, t, M.Ready)
  {
  }

  lemma Waited(j: Joint, c: N.Setup, c': N.Setup, t: Task, m: M.Id, n: nat, clock: nat, d2: nat, d3: nat)
    returns (j': Joint)
    requires Stage(j, c, t, clock, d2, d3) && Leads(c, t) && (t == 2 || t == 3) && 1 <= n <= MAX_DELAY
    requires M.Shaped(N.State(c)) && N.Goes(N.State(c), M.Wait(t, m), N.State(c'))
    ensures Gets(j, j')
    ensures Stage(j', c', t, clock, if t == 2 then clock + n else d2, if t == 3 then clock + n else d3)
  {
    hide Together, Due, Clock, Blocked, N.State, M.Next, M.Enabled, M.Shaped, Gets, NowSleeps, Acts;
    ActsIn(j, c, M.Wait(t, m));
    j' := Waits(j, m, n);
    SleepsOn(j, c, t, clock, d2, d3, j', c', clock + n);
  }

  /** The tick that wakes task u, 2 or 3. */
  lemma Ticked(j: Joint, c: N.Setup, c': N.Setup, e: M.Event, clock: nat, d2: nat, d3: nat)
    returns (j': Joint)
    requires Stage(j, c, j.k.current, clock, d2, d3) && (e.Expire? || e.Awake?) && (e.task == 2 || e.task == 3)
    requires M.Shaped(N.State(c)) && N.Goes(N.State(c), e, N.State(c'))
    requires if e.task == 2 then d2 == clock + 1 && (MT.Runnable(c.st3) || d3 > clock + 1)
             else d3 == clock + 1 && (MT.Runnable(c.st2) || d2 > clock + 1)
    ensures Gets(j, j') && Stage(j', c', j'.k.current, clock + 1, d2, d3)
  {
    hide Together, Due, Clock, Blocked, N.State, M.Next, M.Shaped, Gets, Next, Allowed, CatchOne;
    var u := e.task;
    ShapedState(j, c);
    WokenStatus(c, e);
    WhoIsBlocked(j, c, u);
    forall t | Blocked(j.k, t) && t != u ensures Due(j.k, t) > clock + 1 { WhoIsBlocked(j, c, t); }
    Wakes(j, u);
    j' := Next(j, Other(Tick));
    CaughtIs(j.s, e, j'.k);
    OneMove(j, Other(Tick));
  }

  lemma WokenStatus(c: N.Setup, e: M.Event)
    requires M.Shaped(N.State(c)) && M.Enabled(N.State(c), e) && (e.Expire? || e.Awake?) && (e.task == 2 || e.task == 3)
    ensures (e.task == 2 ==> !MT.Runnable(c.st2)) && (e.task == 3 ==> !MT.Runnable(c.st3))
  {
    hide N.State, M.Shaped;
    N.Known(c);
  }

  lemma CaughtIs(s: M.System, e: M.Event, k: Kernel)
    requires MB.Books(s) && M.Enabled(s, e) && (e.Expire? || e.Awake?) && !Blocked(k, e.task)
    ensures CatchOne(s, e.task, k) == M.Next(s, e)
  {
    hide MB.TaskOk, MB.HeldBy, MB.MutexOk, M.MutexShaped, M.StatusShaped, M.Next, Blocked;
  }

  // ---------------------------------------------------------------------- the start

  const FOUR_TASKS := [NewTask(0, 0), NewTask(1, 1), NewTask(2, 2), NewTask(3, 3)]

  lemma FourTasks()
    ensures Creatable(map[], FOUR_TASKS) && Priorities(map[], FOUR_TASKS) == N.Four<nat>(0, 1, 2, 3)
  {
    var ns := FOUR_TASKS;
    var a, b, c: map<Task, nat> := map[0 := 0], map[0 := 0, 1 := 1], map[0 := 0, 1 := 1, 2 := 2];
    assert ns[1..] == [ns[1], ns[2], ns[3]] && ns[1..][1..] == [ns[2], ns[3]] && ns[1..][1..][1..] == [ns[3]];
    assert [ns[3]][1..] == [];
    assert Creatable(c, [ns[3]]) && Priorities(c, [ns[3]]) == N.Four<nat>(0, 1, 2, 3);
    assert Creatable(b, [ns[2], ns[3]]) && Priorities(b, [ns[2], ns[3]]) == N.Four<nat>(0, 1, 2, 3) by {
      assert [ns[2], ns[3]][1..] == [ns[3]] && b[2 := 2] == c;
    }
    assert Creatable(a, ns[1..]) && Priorities(a, ns[1..]) == N.Four<nat>(0, 1, 2, 3) by { assert a[1 := 1] == b; }
  }

  lemma Begins() returns (j: Joint)
    ensures Start(j) && Stage(j, N.C0, 3, Clock(j.k), 0, 0)
  {
    hide Creatable, CreateAll, Priorities, N.Four, Inv, Together, Sound, MI.Start;
    FourTasks();
    var k := CreateAll(NoTasks(0, 0), FOUR_TASKS);
    CreateFrame(NoTasks(0, 0), FOUR_TASKS);
    j := Joint(k, N.State(N.C0));
    assert StartsWith(k, FOUR_TASKS, 0);
    InitialHolds(k);
    N.StartReaches();
    N.FourIs<nat>(0, 1, 2, 3);
    assert N.C0.p1 == 1 && N.C0.p2 == 2 && j.s.prio == N.Four<nat>(0, 1, 2, 3);
    StartTogether(j);
    CurrentKnown(j);
  }

  // ------------------------------------------------------------------------ the run

  lemma Shaped(j: Joint, c: N.Setup, t: Task, clock: nat, d2: nat, d3: nat)
    requires Stage(j, c, t, clock, d2, d3)
    ensures M.Shaped(N.State(c))
  {
    hide Inv, Queued, Represents, N.State, Due, Clock, Blocked;
    ShapedState(j, c);
  }

  /** Tasks 3 and 2 go to sleep. */
  lemma Part1(j: Joint, now: nat) returns (j': Joint)
    requires Stage(j, N.C0, 3, now, 0, 0)
    ensures Gets(j, j') && Stage(j', N.C2, 1, now, now + 1, now + 2)
  {
    hide Gets, Stage, M.Shaped, N.Goes, N.State;
    Shaped(j, N.C0, 3, now, 0, 0); N.Go0();
    var j1 := Slept(j, N.C0, N.C1, 3, 2, now, 0, 0);
    var j2 := Switched(j1, N.C1, 3, 2, now, 0, now + 2); Onwards(j, j1, j2);
    Shaped(j2, N.C1, 2, now, 0, now + 2); N.Go1();
    var j3 := Slept(j2, N.C1, N.C2, 2, 1, now, 0, now + 2); Onwards(j, j2, j3);
    j' := Switched(j3, N.C2, 2, 1, now, now + 1, now + 2); Onwards(j, j3, j');
  }

  /** Task 1 takes mutex 0; task 2 wakes up, takes mutex 1 and waits for mutex 0. */
  lemma Part2(j: Joint, now: nat) returns (j': Joint)
    requires Stage(j, N.C2, 1, now, now + 1, now + 2)
    ensures Gets(j, j') && Stage(j', N.C6, 2, now + 1, now + 3, now + 2)
  {
    hide Gets, Stage, M.Shaped, N.Goes, N.State;
    Running(j, N.C2, 1, now, now + 1, now + 2); N.Go2();
    var j1 := Stepped(j, N.C2, N.C3, Take(0), now, now + 1, now + 2);
    Running(j1, N.C3, 1, now, now + 1, now + 2); N.Go3();
    var j2 := Ticked(j1, N.C3, N.C4, M.Awake(2), now, now + 1, now + 2); Onwards(j, j1, j2);
    var j3 := Switched(j2, N.C4, j2.k.current, 2, now + 1, now + 1, now + 2); Onwards(j, j2, j3);
    Running(j3, N.C4, 2, now + 1, now + 1, now + 2); N.Go4();
    var j4 := Stepped(j3, N.C4, N.C5, Take(1), now + 1, now + 1, now + 2); Onwards(j, j3, j4);
    Running(j4, N.C5, 2, now + 1, now + 1, now + 2); N.Go5();
    j' := Waited(j4, N.C5, N.C6, 2, 0, 2, now + 1, now + 1, now + 2); Onwards(j, j4, j');
  }

  lemma Running(j: Joint, c: N.Setup, t: Task, clock: nat, d2: nat, d3: nat)
    requires Stage(j, c, t, clock, d2, d3)
    ensures j.k.current == t && M.Shaped(N.State(c))
  {
    hide Together, N.State, Due, Clock, Blocked, M.Shaped;
    Shaped(j, c, t, clock, d2, d3);
  }

  /** Task 3 wakes up and waits for mutex 1; the wait of task 2 times out. */
  lemma Part3(j: Joint, now: nat) returns (j': Joint)
    requires Stage(j, N.C6, 2, now, now + 2, now + 1)
    ensures Gets(j, j') && Stage(j', N.C9, 2, now + 2, now + 2, now + 11)
  {
    hide Gets, Stage, M.Shaped, N.Goes, N.State;
    Running(j, N.C6, 2, now, now + 2, now + 1); N.Go6();
    var j1 := Ticked(j, N.C6, N.C7, M.Awake(3), now, now + 2, now + 1);
    var j2 := Switched(j1, N.C7, j1.k.current, 3, now + 1, now + 2, now + 1); Onwards(j, j1, j2);
    Running(j2, N.C7, 3, now + 1, now + 2, now + 1); N.Go7();
    var j3 := Waited(j2, N.C7, N.C8, 3, 1, 10, now + 1, now + 2, now + 1); Onwards(j, j2, j3);
    Running(j3, N.C8, 3, now + 1, now + 2, now + 11); N.Go8();
    var j4 := Ticked(j3, N.C8, N.C9, M.Expire(2), now + 1, now + 2, now + 11); Onwards(j, j3, j4);
    j' := Switched(j4, N.C9, j4.k.current, 2, now + 2, now + 2, now + 11); Onwards(j, j4, j');
  }

  /** It finds that its time is over, and mutex 0 still held. */
  lemma Part4(j: Joint, now: nat) returns (j': Joint)
    requires Stage(j, N.C9, 2, now, now, now + 9)
    ensures Gets(j, j') && Stage(j', N.C11, 2, now, now, now + 9)
  {
    hide Gets, Stage, M.Shaped, N.Goes, N.State;
    Running(j, N.C9, 2, now, now, now + 9); N.Go9();
    var j1 := Stepped(j, N.C9, N.C10, Late(0), now, now, now + 9);
    Running(j1, N.C10, 2, now, now, now + 9); N.Go10();
    j' := Stepped(j1, N.C10, N.C11, Look, now, now, now + 9); Onwards(j, j1, j');
  }

  // -------------------------------------------------------------------- the stale bit

  lemma OnlyMember(k: Kernel, h: Task)
    requires Inv(k) && InReady(k.ready, k.priority, h)
    requires forall t :: t in k.priority && t != h && InReady(k.ready, k.priority, t) ==> k.priority[t] != k.priority[h]
    ensures Typed(k) && k.ready[k.priority[h]].items == [h] && k.priority[h] in k.top
  {
    hide Timing, Partition, Events, Tasks;
    var ts := k.ready[k.priority[h]].items;
    forall t | t in ts ensures t == h { assert InReady(k.ready, k.priority, t) && k.priority[t] == k.priority[h]; }
    OneMember(ts, h);
  }

  lemma OneMember(ts: seq<Task>, h: Task)
    requires NoDuplicates(ts) && h in ts && forall t :: t in ts ==> t == h
    ensures ts == [h]
  {
    assert ts[0] in ts && ts[|ts| - 1] in ts;
  }

  /** A ready task, alone at its priority, is lowered: its list is empty, its bit is not
      reset. */
  lemma BitStays(k: Kernel, h: Task, w: nat)
    requires Typed(k) && h in k.priority && w < MAX_PRIORITIES && k.priority[h] != Larger(At(k.base, h), w)
    requires k.ready[k.priority[h]].items == [h] && k.priority[h] in k.top
    ensures var k' := DisinheritAfterTimeout(k, h, w); k.priority[h] in k'.top && k'.ready[k.priority[h]].items == []
  {
    hide InsertEnd, Without;
    Below(k, h, w);
    DropOnly(k.ready[k.priority[h]], h);
    hide Drop;
  }

  lemma DropOnly(r: Ring<Task>, t: Task)
    requires WellFormed(r) && r.items == [t]
    ensures Drop(r, t).items == []
  {
  }

  lemma Last(j: Joint, now: nat)
    requires Stage(j, N.C11, 2, now, now, now + 9)
    ensures Together(j) && Allowed(j, Leave) && Lowers(j.s, 0) && j.s.mutex[0].holder == Some(1)
    ensures M.MostUrgentWaiter(j.s, 0) == 0 && MI.Is(j.s.status, 2, M.Leaving(0))
  {
    hide Inv, Queued, Represents, N.State, MB.Books, Due, Clock, InReady, M.MutexShaped, M.StatusShaped;
    Running(j, N.C11, 2, now, now, now + 9);
    N.Known(N.C11);
    ActsIn(j, N.C11, M.Leave(2));
  }

  /** From the start of the scheduler a run of the kernel, made by most urgent tasks
      throughout, leads to a time-out that leaves the bit of priority 2 set although no
      task of that priority is ready. */
  lemma StaleBit() returns (j: Joint, j': Joint)
    ensures Start(j) && Gets(j, j') && Together(j') && Allowed(j', Leave)
    ensures var k := Next(j', Leave).k; 2 in k.top && |k.ready| > 2 && k.ready[2].items == []
  {
    hide Start, Gets, Stage, Inv, Together, Allowed, Next;
    j := Begins();
    var now := Clock(j.k);
    var j1 := Part1(j, now);
    var j2 := Part2(j1, now); Onwards(j, j1, j2);
    var j3 := Part3(j2, now + 1); Onwards(j, j2, j3);
    j' := Part4(j3, now + 3); Onwards(j, j3, j');
    Last(j', now + 3);
    LastLeaves(j', now + 3);
  }

  lemma LastLeaves(j: Joint, now: nat)
    requires Stage(j, N.C11, 2, now, now, now + 9) && Together(j) && Allowed(j, Leave)
    ensures var k := Next(j, Leave).k; 2 in k.top && |k.ready| > 2 && k.ready[2].items == []
  {
    hide Core, MB.Books, Queued, Agrees, N.State, Due, Clock, Blocked, M.Next, DisinheritAfterTimeout, InReady;
    Last(j, now);
    N.Known(N.C11);
    CurrentKnown(j);
    forall t | t in j.s.base ensures InReady(j.k.ready, j.k.priority, t) <==> MT.Runnable(j.s.status[t]) {
      RunnableIsReady(j, t);
    }
    OnlyMember(j.k, 1);
    Known(j.k, 1);
    BitStays(j.k, 1, 0);
    MoveKnown(j, Leave);
  }
}

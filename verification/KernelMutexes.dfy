/** Mutexes in the kernel: the account that `Mutexes` keeps of holders, waiters and
    priorities, next to the scheduler whose lists those priorities decide. */
module KernelMutexes {
  import opened Basics
  import opened Rings
  import opened Scheduler
  import opened SchedulerSafety
  import opened SchedulerRuns
  import opened WakeTimes
  import opened EventItems
  import opened StoredBits
  import M = Mutexes
  import MB = MutexBooks
  import MI = MutexInversion
  import MT = MutexTimeouts

  // ------------------------------------------------------------ the waiting lines

  /** The tasks in line for a mutex are those that wait for it, each once. */
  ghost predicate Lined(x: M.Mutex, m: M.Id, status: map<Task, M.Status>) {
    NoDuplicates(x.waiters) && forall t :: t in x.waiters <==> MI.Is(status, t, M.Waiting(m))
  }

  ghost predicate Queued(s: M.System) { forall m :: m in s.mutex ==> Lined(s.mutex[m], m, s.status) }

  lemma {:induction false} EnlistDistinct(ts: seq<Task>, t: Task, prio: map<Task, nat>)
    requires t in prio && (forall x :: x in ts ==> x in prio) && NoDuplicates(ts) && t !in ts
    ensures NoDuplicates(M.Enlist(ts, t, prio))
    decreases |ts|
  {
    if ts != [] && prio[ts[0]] >= prio[t] {
      assert ts == [ts[0]] + ts[1..] && ts[0] !in ts[1..];
      EnlistDistinct(ts[1..], t, prio);
      MB.EnlistMembers(ts[1..], t, prio);
    }
  }

  lemma StatusQueued(s: M.System, s': M.System, t: Task, st: M.Status)
    requires Queued(s) && M.Keys(s) && t in s.base && !s.status[t].Waiting? && !st.Waiting?
    requires s'.status == s.status[t := st] && s'.mutex.Keys == s.mutex.Keys
    requires forall m :: m in s.mutex ==> s'.mutex[m].waiters == s.mutex[m].waiters
    ensures Queued(s')
  {
    hide NoDuplicates;
    forall m | m in s'.mutex ensures Lined(s'.mutex[m], m, s'.status) { assert Lined(s.mutex[m], m, s.status); }
  }

  lemma WaitQueued(s: M.System, t: Task, m: M.Id)
    requires M.Shaped(s) && Queued(s) && M.CanTake(s, t, m)
    ensures Queued(M.BlockOn(s, t, m))
  {
    hide M.Enlist, NoDuplicates, M.StatusShaped;
    var s' := M.BlockOn(s, t, m);
    assert Lined(s.mutex[m], m, s.status) && M.MutexShaped(s.mutex[m], s.base.Keys);
    MB.EnlistMembers(s.mutex[m].waiters, t, s.prio);
    EnlistDistinct(s.mutex[m].waiters, t, s.prio);
    forall n | n in s'.mutex ensures Lined(s'.mutex[n], n, s'.status) { assert Lined(s.mutex[n], n, s.status); }
  }

  lemma TailDistinct(ts: seq<Task>)
    requires NoDuplicates(ts) && ts != []
    ensures NoDuplicates(ts[1..]) && forall t :: t in ts[1..] <==> t in ts && t != ts[0]
  {
  }

  lemma GiveQueued(s: M.System, t: Task, m: M.Id)
    requires M.Shaped(s) && Queued(s) && t in s.base && m in s.mutex
    ensures Queued(M.HandOver(s, t, m))
  {
    hide NoDuplicates, M.StatusShaped, M.MutexShaped;
    M.ReleaseShaped(s, t, m);
    var s', ws := M.HandOver(s, t, m), s.mutex[m].waiters;
    assert Lined(s.mutex[m], m, s.status);
    if ws != [] {
      TailDistinct(ws);
      assert ws[0] in ws && MI.Is(s.status, ws[0], M.Waiting(m));
    }
    MT.HandOverEffect(s, t, m);
    assert s'.mutex[m].waiters == if ws == [] then [] else ws[1..];
    forall n | n in s'.mutex ensures Lined(s'.mutex[n], n, s'.status) { assert Lined(s.mutex[n], n, s.status); }
  }

  lemma TimeOutQueued(s: M.System, t: Task, m: M.Id)
    requires M.Shaped(s) && Queued(s) && t in s.base && s.status[t] == M.Waiting(m) && m in s.mutex
    ensures Queued(M.TimeOut(s, t, m))
  {
    hide NoDuplicates, Without, M.StatusShaped, M.MutexShaped;
    var s' := M.TimeOut(s, t, m);
    assert Lined(s.mutex[m], m, s.status);
    WithoutMembers(s.mutex[m].waiters, t);
    forall n | n in s'.mutex ensures Lined(s'.mutex[n], n, s'.status) { assert Lined(s.mutex[n], n, s.status); }
  }

  lemma NextQueued(s: M.System, e: M.Event)
    requires M.Shaped(s) && Queued(s) && M.Enabled(s, e)
    ensures Queued(M.Next(s, e))
  {
    hide Queued, M.StatusShaped, M.MutexShaped, M.BlockOn, M.HandOver, M.TimeOut, M.Disinherit;
    match e
    case Wait(t, m) => WaitQueued(s, t, m);
    case Give(t, m) =>
      if s.mutex[m].depth > 1 { StatusQueued(s, M.Next(s, e), t, s.status[t]); } else { GiveQueued(s, t, m); }
    case Expire(t) => MT.LeavesOne(s, t); TimeOutQueued(s, t, s.status[t].m);
    case Leave(t) =>
      MT.LeavesOne(s, t);
      MT.GiveUpEffect(s, t, s.status[t].m);
      StatusQueued(s, M.Next(s, e), t, M.Ready);
    case Look(t) => MT.LeavesOne(s, t); StatusQueued(s, M.Next(s, e), t, M.Next(s, e).status[t]);
    case Again(t, m) => StatusQueued(s, M.Next(s, e), t, s.status[t]);
    case Take(t, m) => StatusQueued(s, M.Next(s, e), t, M.Ready);
    case Late(t, m) => StatusQueued(s, M.Next(s, e), t, M.Expired(m));
    case Fail(t, m) => StatusQueued(s, M.Next(s, e), t, M.Ready);
    case Sleep(t) => StatusQueued(s, M.Next(s, e), t, M.Asleep);
    case Awake(t) => StatusQueued(s, M.Next(s, e), t, M.Ready);
  }

  // ------------------------------------------------------- priorities in the kernel

  predicate IsPriorityEvent(e: Event) { e.Inherit? || e.Disinherit? || e.DisinheritTimeout? }

  lemma StepPriority(k: Kernel, e: Event)
    requires Inv(k) && Enabled(k, e) && !IsPriorityEvent(e)
    ensures Step(k, e).priority == k.priority && Step(k, e).base == k.base
  {
    hide Timing, Bits, ReadyLists, Events, Partition, Shape, InReady, Tasks, AdvanceTick, Scheduler.ResumeAll,
      BlockCurrent, MoveToReady, RemoveEvent, SwitchContext;
    StepTasks(k, e);
    match e
    case Tick => AdvanceTickFrame(k);
    case ResumeAll => ResumeKeepsValue(k);
    case Delay(n) => BlockKeepsValue(k, n);
    case Wait(_, n) => BlockKeepsValue(k, n);
    case WaitBits(_, _, n) => BlockKeepsValue(k, n);
    case Signal(u) => ReleasedPriority(k, u);
    case SignalBits(u, v) => ReleasedPriority(k.(eventValue := k.eventValue[u := InUse(v)]), u);
    case Wake(u) => MoveKeepsValue(k, u);
    case WakeFromISR(u) => MoveKeepsValue(k, u);
    case Switch => SwitchKeepsValue(k);
    case _ =>
  }

  lemma ReleasedPriority(k: Kernel, u: Task)
    requires Typed(k)
    ensures RemoveEvent(k, u).priority == k.priority && MoveToReady(RemoveEvent(k, u), u).priority == k.priority
  {
    hide MoveToReady, Without;
    MoveKeepsValue(RemoveEvent(k, u), u);
  }

  /** The same lists of blocked and of waiting tasks. */
  ghost predicate SameWaits(k: Kernel, k': Kernel) {
    && k'.pending == k.pending && k'.eventOf == k.eventOf && k'.current == k.current && k'.idle == k.idle
    && k'.suspended == k.suspended && k'.base == k.base && (forall t :: Blocked(k', t) <==> Blocked(k, t))
  }

  lemma ReprioritiseWaits(k: Kernel, u: Task, p: nat, cleared: nat)
    requires Core(k, k.tick) && u in k.priority && p < MAX_PRIORITIES
    ensures var k' := Reprioritise(k, u, p, cleared); SameWaits(k, k') && k'.priority == k.priority[u := p]
  {
    hide Timing, Bits, ReadyLists, Partition, Events, Reprioritise, InReady, Shape;
    ReprioritiseFrame(k, u, p, cleared);
    ReprioritisedTo(k, u, p, cleared);
    forall t ensures Blocked(Reprioritise(k, u, p, cleared), t) <==> Blocked(k, t) {
      RepriorityEffect(k, u, p, cleared, t);
    }
  }

  lemma RevalueKeeps(k: Kernel, t: Task, p: nat)
    requires Core(k, k.tick) && p < MAX_PRIORITIES
    ensures var k' := RevalueEvent(k, t, p); Core(k', k'.tick) && k' == k.(eventValue := k'.eventValue)
  {
  }

  lemma InheritWaits(k: Kernel, h: Task)
    requires Inv(k) && h in k.priority
    ensures var k' := PriorityInherit(k, h);
            && SameWaits(k, k') && k'.priority == k.priority[h := Larger(k.priority[h], Priority(k, k.current))]
  {
    hide Core, Reprioritise, RevalueEvent;
    var p := Priority(k, k.current);
    Known(k, k.current);
    RevalueKeeps(k, h, p);
    if Priority(k, h) < p {
      ReprioritiseWaits(RevalueEvent(k, h, p), h, p, Priority(k, h));
    }
  }

  lemma Known(k: Kernel, t: Task)
    requires Inv(k)
    ensures Typed(k) && Priority(k, t) < MAX_PRIORITIES && At(k.base, t) < MAX_PRIORITIES
  {
    hide Timing, Bits, ReadyLists, Partition, Events, InReady, Tasks;
    Below(k, t, 0);
  }

  lemma DisinheritWaits(k: Kernel)
    requires Inv(k) && k.current in k.priority && k.current in k.base
    ensures var k' := PriorityDisinherit(k);
            SameWaits(k, k') && k'.priority == k.priority[k.current := k.base[k.current]]
  {
    hide Core, Reprioritise;
    var t, p := k.current, At(k.base, k.current);
    Known(k, t);
    if Priority(k, t) != p {
      var k1 := k.(eventValue := k.eventValue[t := MAX_PRIORITIES - p]);
      RevaluedCore(k, k1.eventValue);
      ReprioritiseWaits(k1, t, p, Priority(k, t));
    }
  }

  lemma RevaluedCore(k: Kernel, value: map<Task, nat>)
    requires Core(k, k.tick)
    ensures Core(k.(eventValue := value), k.tick)
  {
  }

  lemma LowerWaits(k: Kernel, h: Task, w: nat)
    requires Inv(k) && h in k.priority && w < MAX_PRIORITIES
    ensures var k' := DisinheritAfterTimeout(k, h, w);
            SameWaits(k, k') && k'.priority == k.priority[h := Larger(At(k.base, h), w)]
  {
    hide Core, Reprioritise, RevalueEvent;
    var p := Larger(At(k.base, h), w);
    Known(k, h);
    RevalueKeeps(k, h, p);
    if Priority(k, h) != p {
      ReprioritiseWaits(RevalueEvent(k, h, p), h, p, p);
    }
  }

  // ------------------------------------------------------------------ the agreement

  /** Who can run is ready, or is held back by suspension; who waits for a mutex is on
      its event list, and nobody else is. */
  ghost predicate Agrees(k: Kernel, st: M.Status, ids: set<M.Id>, t: Task) {
    && (!Blocked(k, t) ==> MT.Runnable(st))
    && (MT.Runnable(st) && Blocked(k, t) ==> t in k.pending)
    && (st.Waiting? ==> t in k.eventOf && k.eventOf[t] == st.m)
    && (t in k.eventOf && k.eventOf[t] in ids ==> st == M.Waiting(k.eventOf[t]))
  }

  ghost predicate Represents(k: Kernel, s: M.System) {
    && M.Keys(s) && k.priority == s.prio && k.base == s.base
    && forall t :: t in s.base ==> Agrees(k, s.status[t], s.mutex.Keys, t)
  }

  datatype Joint = Joint(k: Kernel, s: M.System)

  ghost predicate Together(j: Joint) { Inv(j.k) && MB.Books(j.s) && Queued(j.s) && Represents(j.k, j.s) }

  // ---------------------------------------------- what the kernel does to waiting tasks

  function Free(st: M.Status): M.Status {
    match st
    case Waiting(m) => M.Trying(m)
    case Asleep => M.Ready
    case _ => st
  }

  /** A task that the kernel has made ready leaves its line, or wakes up. */
  ghost function CatchOne(s: M.System, t: Task, k: Kernel): (s': M.System)
    requires M.Shaped(s)
  {
    if t !in s.base || Blocked(k, t) then s
    else if s.status[t].Waiting? then M.Next(s, M.Expire(t))
    else if s.status[t].Asleep? then M.Next(s, M.Awake(t))
    else s
  }

  lemma CatchBooks(s: M.System, t: Task, k: Kernel)
    requires MB.Books(s)
    ensures MB.Books(CatchOne(s, t, k))
  {
    hide MB.TaskOk, MB.HeldBy, MB.MutexOk, M.MutexShaped, M.StatusShaped, M.Next, Blocked;
    if t in s.base && s.status[t].Waiting? { MB.NextBooks(s, M.Expire(t)); }
    if t in s.base && s.status[t].Asleep? { MB.NextBooks(s, M.Awake(t)); }
  }

  ghost function Catch(s: M.System, ts: seq<Task>, k: Kernel): (s': M.System)
    requires MB.Books(s)
    ensures MB.Books(s')
    decreases |ts|
  {
    if ts == [] then s else CatchBooks(s, ts[0], k); Catch(CatchOne(s, ts[0], k), ts[1..], k)
  }

  ghost predicate Caught(s: M.System, s': M.System, hit: bool, t: Task)
    requires M.Keys(s) && M.Keys(s')
  {
    && s'.base == s.base && s'.prio == s.prio && s'.held == s.held && s'.mutex.Keys == s.mutex.Keys
    && (t in s.base ==> s'.status[t] == if hit then Free(s.status[t]) else s.status[t])
  }

  lemma FreedEffect(s: M.System, t: Task)
    requires M.Shaped(s) && t in s.base
    ensures s.status[t].Waiting? ==>
              var s' := M.Next(s, M.Expire(t));
              s'.prio == s.prio && s'.held == s.held && s'.status == s.status[t := M.Trying(s.status[t].m)]
    ensures s.status[t].Asleep? ==>
              var s' := M.Next(s, M.Awake(t));
              s'.prio == s.prio && s'.held == s.held && s'.status == s.status[t := M.Ready]
  {
    hide M.MutexShaped, M.StatusShaped, Without;
    if s.status[t].Waiting? { MT.LeavesOne(s, t); }
  }

  lemma CaughtOne(s: M.System, u: Task, k: Kernel, t: Task)
    requires MB.Books(s)
    ensures MB.Books(CatchOne(s, u, k)) && Caught(s, CatchOne(s, u, k), t == u && !Blocked(k, t), t)
    ensures Queued(s) ==> Queued(CatchOne(s, u, k))
  {
    hide MB.MutexOk, MB.TaskOk, MB.HeldBy, M.MutexShaped, M.StatusShaped, Queued, Blocked, M.Next;
    CatchBooks(s, u, k);
    if u in s.base && !Blocked(k, u) && !MT.Runnable(s.status[u]) {
      var e := if s.status[u].Waiting? then M.Expire(u) else M.Awake(u);
      FreedEffect(s, u);
      MI.NextIds(s, e);
      if Queued(s) { NextQueued(s, e); }
    }
  }

  lemma {:induction false} CatchExact(s: M.System, ts: seq<Task>, k: Kernel, t: Task)
    requires MB.Books(s)
    ensures Caught(s, Catch(s, ts, k), t in ts && !Blocked(k, t), t)
    ensures Queued(s) ==> Queued(Catch(s, ts, k))
    decreases |ts|
  {
    hide MB.MutexOk, MB.TaskOk, MB.HeldBy, M.MutexShaped, M.StatusShaped, Queued, CatchOne, Blocked;
    if ts != [] {
      assert ts == [ts[0]] + ts[1..];
      CaughtOne(s, ts[0], k, t);
      CatchExact(CatchOne(s, ts[0], k), ts[1..], k, t);
    }
  }

  /** Taking off the lists is nothing a task does: it keeps what scheduled runs keep. */
  lemma {:induction false} CatchGuarded(s: M.System, ts: seq<Task>, k: Kernel)
    requires MI.Good(s) && MT.Guarded(s)
    ensures MI.Good(Catch(s, ts, k)) && MT.Guarded(Catch(s, ts, k))
    decreases |ts|
  {
    hide MB.Books, MI.Bounded, MI.Calm, MT.Guarded, M.Next, Blocked;
    if ts != [] {
      var t := ts[0];
      assert MB.Books(s);
      KeysOf(s);
      CatchBooks(s, t, k);
      if t in s.base && !Blocked(k, t) && s.status[t].Waiting? { MT.NextGuarded(s, M.Expire(t)); }
      if t in s.base && !Blocked(k, t) && s.status[t].Asleep? { MT.NextGuarded(s, M.Awake(t)); }
      CatchGuarded(CatchOne(s, t, k), ts[1..], k);
    }
  }

  lemma KeysOf(s: M.System)
    requires MB.Books(s)
    ensures M.Shaped(s) && M.Keys(s)
  {
  }

  // -------------------------------------------------------------------------- moves

  datatype Move =
    | Other(event: Event)             // a step of the kernel that is about no mutex
    | Take(m: M.Id) | Again(m: M.Id) | Block(m: M.Id, ticks: nat) | Give(m: M.Id)
    | Late(m: M.Id) | Fail(m: M.Id) | Look | Leave

  /** The running task is ready, and no task that can run is more urgent. */
  ghost predicate Acts(j: Joint)
    requires Together(j)
  {
    InReady(j.k.ready, j.k.priority, j.k.current) && MI.MostUrgent(j.s, j.k.current)
  }

  function Own(m: Move, t: Task): M.Event
    requires !m.Other?
  {
    match m
    case Take(x) => M.Take(t, x)
    case Again(x) => M.Again(t, x)
    case Block(x, _) => M.Wait(t, x)
    case Give(x) => M.Give(t, x)
    case Late(x) => M.Late(t, x)
    case Fail(x) => M.Fail(t, x)
    case Look => M.Look(t)
    case Leave => M.Leave(t)
  }

  predicate OnMutex(j: Joint, t: Task) { t in j.k.eventOf && j.k.eventOf[t] in j.s.mutex }

  ghost predicate MayOther(j: Joint, e: Event)
    requires Together(j)
  {
    && Enabled(j.k, e) && !IsPriorityEvent(e)
    && (IsBlockEvent(e) ==> Acts(j) && MI.Is(j.s.status, j.k.current, M.Ready))
    && (e.Wait? || e.WaitBits? ==> e.event !in j.s.mutex)
    && (e.Signal? || e.SignalBits? ==> !OnMutex(j, e.task))
  }

  /** Steps are made by the running task; a task that gives up does so with the
      scheduler running. */
  ghost predicate Allowed(j: Joint, m: Move)
    requires Together(j)
  {
    if m.Other? then MayOther(j, m.event)
    else
      && Acts(j) && M.Enabled(j.s, Own(m, j.k.current))
      && (m.Block? ==> Enabled(j.k, Wait(m.m, m.ticks)))
      && (m.Leave? ==> j.k.suspended == 0)
  }

  lemma CurrentKnown(j: Joint)
    requires Together(j)
    ensures j.k.current in j.s.base && j.k.current in j.k.priority && j.k.priority == j.s.prio && M.Keys(j.s)
  {
    hide Timing, Bits, ReadyLists, Partition, Events, InReady, Shape, MB.Books, Queued, Agrees;
  }

  lemma HolderKnown(j: Joint, m: M.Id)
    requires Together(j) && m in j.s.mutex && j.s.mutex[m].holder.Some?
    ensures var h := j.s.mutex[m].holder.value; h in j.s.base && h in j.k.priority && j.s.held[h] > 0
  {
    hide Inv, Queued, Agrees, MB.Books;
    KeysOf(j.s);
    MT.HolderHolds(j.s, m);
  }

  // ......................................................................... blocking

  /** xTaskPriorityInherit, if the mutex has a holder. */
  ghost function Lent(j: Joint, m: M.Id): (k: Kernel)
    requires Together(j) && m in j.s.mutex
  {
    if j.s.mutex[m].holder == None then j.k
    else
      var h := j.s.mutex[m].holder.value;
      HolderKnown(j, m);
      Step(j.k, Inherit(h))
  }

  lemma LentWaits(j: Joint, m: M.Id)
    requires Together(j) && m in j.s.mutex
    ensures var k, o := Lent(j, m), j.s.mutex[m].holder;
            && Inv(k) && SameWaits(j.k, k)
            && k.priority == if o == None then j.k.priority
                             else j.s.prio[o.value := Larger(MI.P(j.s.prio, o.value), MI.P(j.s.prio, j.k.current))]
  {
    hide Core, Queued, MB.Books, Agrees, PriorityInherit;
    CurrentKnown(j);
    if j.s.mutex[m].holder.Some? {
      var h := j.s.mutex[m].holder.value;
      HolderKnown(j, m);
      InheritWaits(j.k, h);
      StepKeeps(j.k, Inherit(h));
    }
  }

  /** A task that is not blocked is ready. */
  lemma ReadyIff(k: Kernel, t: Task)
    requires Inv(k) && t in k.priority
    ensures InReady(k.ready, k.priority, t) <==> !Blocked(k, t)
  {
    hide Timing, Bits, ReadyLists, Events, Shape, InReady;
  }

  lemma StillMayBlock(k: Kernel, k': Kernel, m: M.Id, ticks: nat)
    requires Inv(k) && Inv(k') && SameWaits(k, k') && k'.priority.Keys == k.priority.Keys && Enabled(k, Wait(m, ticks))
    ensures Enabled(k', Wait(m, ticks))
  {
    hide Inv;
    ReadyIff(k, k.current);
    ReadyIff(k', k.current);
  }

  ghost function Blocks(j: Joint, m: M.Id, ticks: nat): (k: Kernel)
    requires Together(j) && m in j.s.mutex && Enabled(j.k, Wait(m, ticks))
  {
    LentWaits(j, m);
    LentKeys(j, m);
    StillMayBlock(j.k, Lent(j, m), m, ticks);
    Step(Lent(j, m), Wait(m, ticks))
  }

  lemma LentKeys(j: Joint, m: M.Id)
    requires Together(j) && m in j.s.mutex
    ensures Lent(j, m).priority.Keys == j.k.priority.Keys
  {
    hide Inv, Queued, MB.Books, Agrees, Lent;
    CurrentKnown(j);
    LentWaits(j, m);
    if j.s.mutex[m].holder.Some? { HolderKnown(j, m); }
  }

  // ............................................................................ giving

  /** xTaskPriorityDisinherit, with the last mutex. */
  ghost function Returned(j: Joint): (k: Kernel)
    requires Together(j) && InReady(j.k.ready, j.k.priority, j.k.current)
  {
    CurrentKnown(j);
    if j.s.held[j.k.current] == 1 then Step(j.k, Disinherit) else j.k
  }

  lemma ReturnedWaits(j: Joint)
    requires Together(j) && InReady(j.k.ready, j.k.priority, j.k.current)
    ensures var k, t := Returned(j), j.k.current;
            && Inv(k) && SameWaits(j.k, k) && M.Keys(j.s) && t in j.s.base
            && k.priority == if j.s.held[t] == 1 then j.s.prio[t := j.s.base[t]] else j.s.prio
  {
    hide Core, Queued, MB.Books, Agrees, PriorityDisinherit;
    CurrentKnown(j);
    DisinheritWaits(j.k);
    if j.s.held[j.k.current] == 1 { StepKeeps(j.k, Disinherit); }
  }

  lemma FirstWaits(j: Joint, m: M.Id)
    requires Together(j) && m in j.s.mutex && j.s.mutex[m].waiters != []
    ensures var w := j.s.mutex[m].waiters[0];
            w in j.s.base && j.s.status[w] == M.Waiting(m) && w in j.k.eventOf && j.k.eventOf[w] == m
  {
    hide Inv, MB.Books;
    assert Lined(j.s.mutex[m], m, j.s.status);
    assert j.s.mutex[m].waiters[0] in j.s.mutex[m].waiters;
  }

  ghost function Gives(j: Joint, m: M.Id): (k: Kernel)
    requires Together(j) && m in j.s.mutex && InReady(j.k.ready, j.k.priority, j.k.current)
  {
    if j.s.mutex[m].depth > 1 then j.k
    else if j.s.mutex[m].waiters == [] then Returned(j)
    else
      ReturnedWaits(j);
      FirstWaits(j, m);
      Step(Returned(j), Signal(j.s.mutex[m].waiters[0]))
  }

  // .......................................................................... leaving

  lemma WaiterKnown(j: Joint, m: M.Id)
    requires Together(j) && m in j.s.mutex
    ensures M.Shaped(j.s) && M.MostUrgentWaiter(j.s, m) < MAX_PRIORITIES
  {
    hide Inv, MB.HeldBy, MB.TaskOk, MB.MutexOk, Queued, Agrees, M.StatusShaped;
    assert M.MutexShaped(j.s.mutex[m], j.s.base.Keys);
    if j.s.mutex[m].waiters != [] { Known(j.k, j.s.mutex[m].waiters[0]); }
    Known(j.k, j.k.current);
  }

  /** Whom the time-out disinherits, if anyone. */
  predicate Lowers(s: M.System, m: M.Id)
    requires M.Keys(s) && m in s.mutex
  {
    var o := s.mutex[m].holder; o.Some? && o.value in s.base && s.held[o.value] == 1
  }

  ghost function Leaves(j: Joint, m: M.Id): (k: Kernel)
    requires Together(j) && m in j.s.mutex
  {
    WaiterKnown(j, m);
    Known(j.k, j.k.current);
    if Lowers(j.s, m) then DisinheritAfterTimeout(j.k, j.s.mutex[m].holder.value, M.MostUrgentWaiter(j.s, m)) else j.k
  }

  // .......................................................................... all moves

  /** The tasks that were blocked: some may not be any more. */
  function Sleepers(k: Kernel): seq<Task> { k.delayed + k.overflow }

  ghost function OtherNext(j: Joint, e: Event): Joint
    requires Together(j) && MayOther(j, e)
  {
    var k := Step(j.k, e);
    Joint(k, if IsBlockEvent(e) then M.Next(j.s, M.Sleep(j.k.current)) else Catch(j.s, Sleepers(j.k), k))
  }

  lemma MoveKnown(j: Joint, m: Move)
    requires Together(j) && !m.Other? && Allowed(j, m)
    ensures j.k.current in j.s.status && InReady(j.k.ready, j.k.priority, j.k.current)
    ensures (m.Block? || m.Give? ==> m.m in j.s.mutex) && (m.Block? ==> Enabled(j.k, Wait(m.m, m.ticks)))
    ensures m.Leave? ==> MT.Busy(j.s.status[j.k.current]) && j.s.status[j.k.current].m in j.s.mutex
  {
    hide Inv, MB.TaskOk, MB.HeldBy, MB.MutexOk, Queued, Represents, M.MutexShaped, M.StatusShaped, InReady, Enabled,
      MI.MostUrgent;
    if m.Leave? { MT.LeavesOne(j.s, j.k.current); }
  }

  ghost function KernelNext(j: Joint, m: Move): Kernel
    requires Together(j) && !m.Other? && Allowed(j, m)
  {
    MoveKnown(j, m);
    if m.Block? then Blocks(j, m.m, m.ticks)
    else if m.Give? then Gives(j, m.m)
    else if m.Leave? then Leaves(j, j.s.status[j.k.current].m)
    else j.k
  }

  ghost function Next(j: Joint, m: Move): Joint
    requires Together(j) && Allowed(j, m)
  {
    if m.Other? then OtherNext(j, m.event) else Joint(KernelNext(j, m), M.Next(j.s, Own(m, j.k.current)))
  }

  // ------------------------------------------------------------------- preservation

  /** Nobody is blocked by the step, and who stays blocked stays where it is, unless the
      step takes it off its event list. */
  ghost predicate Loosens(k: Kernel, k': Kernel, t: Task, signalled: bool) {
    && (Blocked(k', t) ==> Blocked(k, t)) && (t in k.pending && Blocked(k', t) ==> t in k'.pending)
    && (t in k'.eventOf ==> t in k.eventOf && k'.eventOf[t] == k.eventOf[t])
    && (t in k.eventOf && Blocked(k', t) && !signalled ==> t in k'.eventOf)
  }

  predicate Signals(e: Event, t: Task) { (e.Signal? || e.SignalBits?) && e.task == t }

  lemma StepLoosens(k: Kernel, e: Event, t: Task)
    requires Inv(k) && Enabled(k, e) && !IsBlockEvent(e)
    ensures Loosens(k, Step(k, e), t, Signals(e, t))
  {
    hide Core, Step, MoveToReady, Blocked;
    if IsSignal(e) { SignalLoosens(k, e, t); } else { StepReleases(k, e, t); }
  }

  lemma SignalLoosens(k: Kernel, e: Event, t: Task)
    requires Inv(k) && Enabled(k, e) && IsSignal(e)
    ensures Loosens(k, Step(k, e), t, Signals(e, t))
  {
    hide Timing, Bits, ReadyLists, Partition, Events, InReady, Shape, MoveToReady, Without;
    if Blocked(k, t) { StepEffect(k, e, t); } else { NotBlockedBy(k, e, t); }
    match e
    case Signal(u) => SignalReleases(k, u, t); StepEventOf(k, e, t);
    case Wake(u) => MoveFrame(k, u);
    case WakeFromISR(u) => MoveFrame(k, u);
  }

  lemma NotBlockedBy(k: Kernel, e: Event, t: Task)
    requires Inv(k) && Enabled(k, e) && IsSignal(e) && !Blocked(k, t)
    ensures !Blocked(Step(k, e), t)
  {
    hide Timing, Bits, ReadyLists, InReady, Shape, MoveToReady, RemoveEvent;
    match e
    case Signal(u) =>
      EventTasksKnown(k, u);
      RemoveEventKeeps(k, u, k.tick);
      RemoveEventFrame(k, u);
      MoveToReadyLists(RemoveEvent(k, u), u);
    case Wake(u) => MoveToReadyLists(k, u);
    case WakeFromISR(u) => MoveToReadyLists(k, u);
  }

  lemma AgreesAfter(k: Kernel, k': Kernel, st: M.Status, ids: set<M.Id>, t: Task, signalled: bool)
    requires Agrees(k, st, ids, t) && Loosens(k, k', t, signalled) && (st.Waiting? ==> st.m in ids)
    requires signalled ==> !(t in k.eventOf && k.eventOf[t] in ids)
    requires t in k'.eventOf ==> Blocked(k', t)
    ensures Agrees(k', if Blocked(k, t) && !Blocked(k', t) then Free(st) else st, ids, t)
  {
    hide Blocked;
  }

  lemma ListedIsBlocked(k: Kernel, t: Task)
    requires Inv(k)
    ensures t in k.eventOf ==> Blocked(k, t)
  {
    hide Timing, Bits, ReadyLists, Partition, InReady, Shape;
  }

  lemma SleepersAre(k: Kernel, t: Task)
    ensures t in Sleepers(k) <==> Blocked(k, t)
  {
  }

  lemma OtherKeeps(j: Joint, e: Event)
    requires Together(j) && MayOther(j, e) && !IsBlockEvent(e)
    ensures Together(OtherNext(j, e))
  {
    hide Inv, Enabled, Step, MB.MutexOk, MB.TaskOk, MB.HeldBy, Queued, Agrees, Blocked, Catch, Acts, M.MutexShaped,
      M.StatusShaped;
    var k, s := Step(j.k, e), Catch(j.s, Sleepers(j.k), Step(j.k, e));
    StepKeeps(j.k, e);
    StepPriority(j.k, e);
    CatchExact(j.s, Sleepers(j.k), k, j.k.current);
    forall t | t in s.base ensures Agrees(k, s.status[t], s.mutex.Keys, t) {
      CatchExact(j.s, Sleepers(j.k), k, t);
      SleepersAre(j.k, t);
      StepLoosens(j.k, e, t);
      ListedIsBlocked(k, t);
      WaitsForOne(j.s, t);
      AgreesAfter(j.k, k, j.s.status[t], j.s.mutex.Keys, t, Signals(e, t));
    }
  }

  lemma WaitsForOne(s: M.System, t: Task)
    requires MB.Books(s) && t in s.base
    ensures s.status[t].Waiting? ==> s.status[t].m in s.mutex
  {
    hide MB.MutexOk, MB.TaskOk, MB.HeldBy, M.MutexShaped;
    assert M.StatusShaped(s.status[t], s.mutex.Keys);
  }

  /** The running task is blocked, on event list `list` if there is one. */
  ghost predicate NowBlocked(k: Kernel, k': Kernel, list: Option<nat>) {
    && k'.pending == k.pending && (forall t :: Blocked(k', t) <==> t == k.current || Blocked(k, t))
    && k'.eventOf == if list.Some? then k.eventOf[k.current := list.value] else k.eventOf
  }

  function ListOf(e: Event): Option<nat>
    requires IsBlockEvent(e)
  {
    if e.Delay? then None else Some(e.event)
  }

  lemma StepBlocks(k: Kernel, e: Event)
    requires Inv(k) && Enabled(k, e) && IsBlockEvent(e)
    ensures NowBlocked(k, Step(k, e), ListOf(e))
  {
    hide Core, BlockCurrent;
    forall t ensures Blocked(Step(k, e), t) <==> t == k.current || Blocked(k, t) { BlockedOnly(k, e.ticks, t); }
    BlockedOnly(k, e.ticks, k.current);
  }

  lemma AgreesBlocked(k: Kernel, k': Kernel, list: Option<nat>, st: M.Status, ids: set<M.Id>, t: Task)
    requires NowBlocked(k, k', list) && (t != k.current ==> Agrees(k, st, ids, t))
    requires t == k.current ==>
               && k.current !in k.eventOf
               && st == if list.Some? && list.value in ids then M.Waiting(list.value) else M.Asleep
    ensures Agrees(k', st, ids, t)
  {
    hide Blocked;
  }

  lemma SleepKeeps(j: Joint, e: Event)
    requires Together(j) && MayOther(j, e) && IsBlockEvent(e)
    ensures Together(OtherNext(j, e))
  {
    hide Inv, Step, MB.MutexOk, MB.TaskOk, MB.HeldBy, Queued, Agrees, Blocked, NowBlocked, M.MutexShaped,
      M.StatusShaped, MI.MostUrgent;
    var k, s := Step(j.k, e), M.Next(j.s, M.Sleep(j.k.current));
    StepKeeps(j.k, e);
    StepPriority(j.k, e);
    StepBlocks(j.k, e);
    MB.NextBooks(j.s, M.Sleep(j.k.current));
    NextQueued(j.s, M.Sleep(j.k.current));
    forall t | t in s.base ensures Agrees(k, s.status[t], s.mutex.Keys, t) {
      AgreesBlocked(j.k, k, ListOf(e), s.status[t], s.mutex.Keys, t);
    }
  }

  predicate IsQuiet(e: M.Event) { e.Take? || e.Again? || e.Late? || e.Fail? || e.Look? }

  lemma QuietEffect(s: M.System, e: M.Event)
    requires M.Shaped(s) && M.Enabled(s, e) && IsQuiet(e)
    ensures var s' := M.Next(s, e);
            && e.task in s.base && s'.prio == s.prio && e.task in s'.status && MT.Runnable(s'.status[e.task])
            && s'.status == s.status[e.task := s'.status[e.task]]
  {
    hide M.MutexShaped, M.StatusShaped;
    if e.Look? { MT.LeavesOne(s, e.task); }
  }

  /** The account after a step of the running task that changes nothing in the kernel. */
  lemma QuietKeeps(j: Joint, m: Move)
    requires Together(j) && !m.Other? && !m.Block? && !m.Give? && !m.Leave? && Allowed(j, m)
    ensures Together(Next(j, m))
  {
    hide Inv, MB.MutexOk, MB.TaskOk, MB.HeldBy, Queued, Blocked, M.MutexShaped, M.StatusShaped, M.Enabled, M.Next,
      MI.MostUrgent, InReady, Agrees;
    var e, t := Own(m, j.k.current), j.k.current;
    MB.NextBooks(j.s, e);
    NextQueued(j.s, e);
    CurrentKnown(j);
    ReadyIff(j.k, t);
    ListedIsBlocked(j.k, t);
    MI.NextIds(j.s, e);
    QuietEffect(j.s, e);
    var s := M.Next(j.s, e);
    RunningAgrees(j.k, s.status[t], s.mutex.Keys, t);
    forall u | u in s.base ensures Agrees(j.k, s.status[u], s.mutex.Keys, u) {}
  }

  lemma RunningAgrees(k: Kernel, st: M.Status, ids: set<M.Id>, t: Task)
    requires !Blocked(k, t) && (t in k.eventOf ==> Blocked(k, t)) && MT.Runnable(st)
    ensures Agrees(k, st, ids, t)
  {
  }

  lemma AgreesSame(k: Kernel, k': Kernel, st: M.Status, ids: set<M.Id>, t: Task)
    requires SameWaits(k, k') && Agrees(k, st, ids, t)
    ensures Agrees(k', st, ids, t)
  {
    hide Blocked;
  }

  lemma BlockKeeps(j: Joint, m: M.Id, ticks: nat)
    requires Together(j) && Allowed(j, Block(m, ticks))
    ensures Together(Next(j, Block(m, ticks)))
  {
    hide Inv, Step, MB.MutexOk, MB.TaskOk, MB.HeldBy, Queued, Agrees, Blocked, NowBlocked, Lent, SameWaits, M.BlockOn,
      M.MutexShaped, M.StatusShaped, MI.MostUrgent, InReady;
    var t, k1, w := j.k.current, Lent(j, m), Wait(m, ticks);
    MB.NextBooks(j.s, M.Wait(t, m));
    NextQueued(j.s, M.Wait(t, m));
    MI.NextIds(j.s, M.Wait(t, m));
    MT.HeldIfEmpty(j.s, m);
    MT.WaitEffect(j.s, t, m, j.s.mutex[m].holder.value);
    LentWaits(j, m);
    LentKeys(j, m);
    StillMayBlock(j.k, k1, m, ticks);
    StepKeeps(k1, w);
    StepPriority(k1, w);
    StepBlocks(k1, w);
    SameCurrent(j.k, k1);
    var k, s := Step(k1, w), M.Next(j.s, M.Wait(t, m));
    forall u | u in s.base ensures Agrees(k, s.status[u], s.mutex.Keys, u) {
      AgreesSame(j.k, k1, j.s.status[u], j.s.mutex.Keys, u);
      AgreesBlocked(k1, k, Some(m), s.status[u], s.mutex.Keys, u);
    }
  }

  lemma SameCurrent(k: Kernel, k': Kernel)
    requires SameWaits(k, k')
    ensures k'.current == k.current && k'.base == k.base && k'.eventOf == k.eventOf && k'.suspended == k.suspended
  {
  }

  // ............................................................................ giving

  /** The head of the line is ready or held back, and nobody else is touched. */
  lemma SignalOne(k: Kernel, w: Task, u: Task)
    requires Inv(k) && w in k.eventOf
    ensures var k' := Step(k, Signal(w));
            && (u != w ==> Loosens(k, k', u, false) && (Blocked(k', u) <==> Blocked(k, u)))
            && w !in k'.eventOf && (Blocked(k', w) ==> w in k'.pending)
  {
    hide Core, Step, Blocked, StaysBlocked;
    StepLoosens(k, Signal(w), u);
    SignalReleases(k, w, u);
    SignalReleases(k, w, w);
    ListedIsBlocked(k, w);
    if u != w && Blocked(k, u) {
      StepEffect(k, Signal(w), u);
      Stays(k, Step(k, Signal(w)), u);
    }
    StepEffect(k, Signal(w), w);
    StepKeeps(k, Signal(w));
    ListedIsBlocked(Step(k, Signal(w)), w);
  }

  lemma Stays(k: Kernel, k': Kernel, t: Task)
    requires StaysBlocked(k, k', t)
    ensures Blocked(k', t) <==> Blocked(k, t)
  {
  }

  lemma GiveKeeps(j: Joint, m: M.Id)
    requires Together(j) && Allowed(j, Give(m))
    ensures Together(Next(j, Give(m)))
  {
    hide Inv, MB.MutexOk, MB.TaskOk, MB.HeldBy, Queued, Agrees, Represents, Gives, M.HandOver, M.MutexShaped,
      M.StatusShaped, MI.MostUrgent, InReady;
    var t := j.k.current;
    MB.NextBooks(j.s, M.Give(t, m));
    NextQueued(j.s, M.Give(t, m));
    MI.NextIds(j.s, M.Give(t, m));
    if j.s.mutex[m].depth > 1 {
      SameRepresents(j, m);
    } else {
      HolderKnown(j, m);
      GivesKernel(j, m);
      HandOverRepresents(j, m);
    }
  }

  /** A recursive give: nothing but the depth changes. */
  lemma SameRepresents(j: Joint, m: M.Id)
    requires Together(j) && m in j.s.mutex && InReady(j.k.ready, j.k.priority, j.k.current) && j.s.mutex[m].depth > 1
    ensures Gives(j, m) == j.k && Represents(j.k, M.Deepen(j.s, m, j.s.mutex[m].depth - 1))
  {
    hide Inv, MB.Books, Queued, Agrees, InReady;
    assert M.Deepen(j.s, m, j.s.mutex[m].depth - 1).mutex.Keys == j.s.mutex.Keys;
  }

  lemma GivesKernel(j: Joint, m: M.Id)
    requires Together(j) && m in j.s.mutex && InReady(j.k.ready, j.k.priority, j.k.current) && j.s.mutex[m].depth <= 1
    ensures var k := Gives(j, m); Inv(k) && k.priority == Returned(j).priority && k.base == j.k.base
  {
    hide Inv, Enabled, Step, MB.Books, Queued, Represents, InReady, Returned, SameWaits;
    ReturnedWaits(j);
    SameCurrent(j.k, Returned(j));
    if j.s.mutex[m].waiters != [] {
      var w := j.s.mutex[m].waiters[0];
      FirstWaits(j, m);
      SignalEnabled(Returned(j), w);
      StepKeeps(Returned(j), Signal(w));
      StepPriority(Returned(j), Signal(w));
    }
  }

  lemma HandOverRepresents(j: Joint, m: M.Id)
    requires Together(j) && m in j.s.mutex && InReady(j.k.ready, j.k.priority, j.k.current) && j.s.mutex[m].depth <= 1
    requires M.Shaped(j.s) && j.k.current in j.s.base && j.s.held[j.k.current] > 0
    requires var s := M.HandOver(j.s, j.k.current, m); M.Keys(s) && s.base == j.s.base && s.mutex.Keys == j.s.mutex.Keys
    ensures Represents(Gives(j, m), M.HandOver(j.s, j.k.current, m))
  {
    hide Inv, Enabled, Step, MB.Books, Queued, Agrees, InReady, Returned, SameWaits, M.HandOver, M.MutexShaped,
      M.StatusShaped;
    var k1, s, ws := Returned(j), M.HandOver(j.s, j.k.current, m), j.s.mutex[m].waiters;
    MT.HandOverEffect(j.s, j.k.current, m);
    ReturnedWaits(j);
    SameCurrent(j.k, k1);
    GivesKernel(j, m);
    forall u | u in s.base ensures Agrees(Gives(j, m), s.status[u], s.mutex.Keys, u) {
      AgreesSame(j.k, k1, j.s.status[u], j.s.mutex.Keys, u);
      if ws != [] { WokenAgrees(j, k1, m, u); }
    }
  }

  lemma SignalEnabled(k: Kernel, t: Task)
    requires Inv(k) && t in k.eventOf
    ensures Enabled(k, Signal(t))
  {
  }

  lemma WokenAgrees(j: Joint, k: Kernel, m: M.Id, u: Task)
    requires Together(j) && Inv(k) && k.eventOf == j.k.eventOf && m in j.s.mutex && j.s.mutex[m].waiters != []
    requires u in j.s.base && Agrees(k, j.s.status[u], j.s.mutex.Keys, u)
    ensures var w := j.s.mutex[m].waiters[0];
            && w in k.eventOf && Enabled(k, Signal(w))
            && Agrees(Step(k, Signal(w)), if u == w then M.Trying(m) else j.s.status[u], j.s.mutex.Keys, u)
  {
    hide Inv, Step, MB.Books, Queued, Represents, Blocked, Loosens;
    var w := j.s.mutex[m].waiters[0];
    KeysOf(j.s);
    FirstWaits(j, m);
    SignalEnabled(k, w);
    SignalOne(k, w, u);
    StepKeeps(k, Signal(w));
    ListedIsBlocked(Step(k, Signal(w)), u);
    WaitsForOne(j.s, u);
    if u != w { AgreesAfter(k, Step(k, Signal(w)), j.s.status[u], j.s.mutex.Keys, u, false); }
  }

  // ........................................................................... leaving

  /** The condition under which vTaskPriorityDisinheritAfterTimeout is harmless. */
  ghost predicate Harmless(j: Joint, m: M.Id)
    requires Together(j) && m in j.s.mutex
  {
    WaiterKnown(j, m);
    Known(j.k, j.k.current);
    Lowers(j.s, m) ==>
      var h := j.s.mutex[m].holder.value;
      || !InReady(j.k.ready, j.k.priority, h)
      || Priority(j.k, h) == Larger(At(j.k.base, h), M.MostUrgentWaiter(j.s, m)) || SharesList(j.k, h)
  }

  lemma LeaveKeeps(j: Joint, m: M.Id)
    requires Together(j) && Allowed(j, Leave) && m in j.s.mutex && MI.Is(j.s.status, j.k.current, M.Leaving(m))
    ensures var j' := Next(j, Leave);
            MB.Books(j'.s) && Queued(j'.s) && Represents(j'.k, j'.s) && (Inv(j'.k) <==> Harmless(j, m))
  {
    hide Core, MB.MutexOk, MB.TaskOk, MB.HeldBy, Queued, Agrees, Blocked, M.GiveUp, DisinheritAfterTimeout,
      M.MostUrgentWaiter, M.MutexShaped, M.StatusShaped, MI.MostUrgent, InReady, SharesList;
    var t, s := j.k.current, M.Next(j.s, M.Leave(j.k.current));
    MB.NextBooks(j.s, M.Leave(t));
    NextQueued(j.s, M.Leave(t));
    MI.NextIds(j.s, M.Leave(t));
    MT.GiveUpEffect(j.s, t, m);
    WaiterKnown(j, m);
    CurrentKnown(j);
    ReadyIff(j.k, t);
    ListedIsBlocked(j.k, t);
    if Lowers(j.s, m) {
      var h, w := j.s.mutex[m].holder.value, M.MostUrgentWaiter(j.s, m);
      LowerWaits(j.k, h, w);
      DisinheritAfterTimeoutKeepsIff(j.k, h, w);
      LowerFrame(j.k, h, w);
    }
    forall u | u in s.base ensures Agrees(Next(j, Leave).k, s.status[u], s.mutex.Keys, u) {
      if u == t { RunningAgrees(j.k, M.Ready, j.s.mutex.Keys, t); }
      if Lowers(j.s, m) { AgreesSame(j.k, Next(j, Leave).k, s.status[u], s.mutex.Keys, u); }
    }
  }

  lemma LowerFrame(k: Kernel, h: Task, w: nat)
    requires Inv(k) && h in k.priority && w < MAX_PRIORITIES
    ensures var k' := DisinheritAfterTimeout(k, h, w); k'.tick == k.tick && k'.pended == k.pended
  {
    hide Core, Reprioritise, RevalueEvent;
    var p := Larger(At(k.base, h), w);
    Known(k, h);
    Below(k, h, w);
    RevalueKeeps(k, h, p);
    ReprioritiseFrame(RevalueEvent(k, h, p), h, p, p);
  }

  lemma LeavingFor(j: Joint)
    requires Together(j) && Allowed(j, Leave)
    ensures j.k.current in j.s.status && j.s.status[j.k.current].Leaving? && j.s.status[j.k.current].m in j.s.mutex
  {
    hide Inv, MB.TaskOk, MB.HeldBy, MB.MutexOk, Queued, Represents, M.MutexShaped, M.StatusShaped, InReady,
      MI.MostUrgent;
    MT.LeavesOne(j.s, j.k.current);
  }

  /** Every move keeps kernel and account in step; the time-out of a waiter keeps the
      kernel right exactly if it is harmless. */
  lemma NextTogether(j: Joint, m: Move)
    requires Together(j) && Allowed(j, m)
    ensures var j' := Next(j, m); MB.Books(j'.s) && Queued(j'.s) && Represents(j'.k, j'.s)
    ensures m.Leave? ==> j.k.current in j.s.status && j.s.status[j.k.current].Leaving?
                         && j.s.status[j.k.current].m in j.s.mutex
    ensures Together(Next(j, m)) <==> (m.Leave? ==> Harmless(j, j.s.status[j.k.current].m))
  {
    hide Inv, MB.Books, Queued, Represents, Acts, M.Enabled, M.Next, KernelNext, OtherNext, Harmless, MayOther;
    match m
    case Other(e) => if IsBlockEvent(e) { SleepKeeps(j, e); } else { OtherKeeps(j, e); }
    case Block(x, n) => BlockKeeps(j, x, n);
    case Give(x) => GiveKeeps(j, x);
    case Leave => LeavingFor(j); LeaveKeeps(j, j.s.status[j.k.current].m);
    case _ => QuietKeeps(j, m);
  }
}

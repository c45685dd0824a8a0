/** When a task gives up its wait for a mutex, the holder it disinherits is not alone
    at the priority it loses. */
module MutexTimeouts {
  import opened Basics
  import opened Mutexes
  import opened MutexBooks
  import opened MutexInversion
  import opened Rings

  predicate Runnable(st: Status) { !st.Waiting? && !st.Asleep? }

  /** Inside a take, and able to run. */
  predicate Busy(st: Status) { st.Trying? || st.Expired? || st.Leaving? }

  predicate Looking(status: map<Task, Status>, t: Task) { t in status && Busy(status[t]) }

  /** Only the running task makes steps of its own, and no ready task is more urgent;
      the tick and the wake-ups of other objects come at any time. */
  ghost predicate Urgent(s: System, e: Event)
    requires Shaped(s) && Enabled(s, e)
  {
    !e.Expire? && !e.Awake? ==> MostUrgent(s, e.task)
  }

  /** And no task waits for a mutex while it holds one. */
  ghost predicate Scheduled(s: System, e: Event)
    requires Shaped(s) && Enabled(s, e)
  {
    Urgent(s, e) && (e.Wait? || e.Late? ==> s.held[e.task] == 0)
  }

  function Top(ts: seq<Task>, prio: map<Task, nat>): nat { if ts == [] then 0 else P(prio, ts[0]) }

  /** The holder has at least the priority of `t`, or exactly the one it would be given
      by a time-out, or it shares its priority with another task that can run. */
  ghost predicate Covered(ws: seq<Task>, base: nat, prio: map<Task, nat>, status: map<Task, Status>, h: Task, t: Task) {
    || P(prio, h) >= P(prio, t)
    || P(prio, h) == Larger(base, Top(ws, prio))
    || exists v :: v != h && Looking(status, v) && P(prio, v) == P(prio, h)
  }

  /** `t` once lent its priority to a holder of m, and is about to look or to leave. */
  predicate Lender(s: System, m: Id, t: Task)
    requires Shaped(s)
  {
    && m in s.mutex && t in s.base && s.mutex[m].holder.Some? && Busy(s.status[t]) && s.status[t].m == m
    && (s.inherited[t] || s.status[t].Leaving?)
  }

  ghost predicate CoveredIn(s: System, m: Id, t: Task)
    requires Shaped(s) && m in s.mutex && s.mutex[m].holder.Some?
  {
    var x := s.mutex[m];
    Covered(x.waiters, P(s.base, x.holder.value), s.prio, s.status, x.holder.value, t)
  }

  ghost predicate Guarded(s: System)
    requires Shaped(s)
  {
    forall m, t | Lender(s, m, t) :: CoveredIn(s, m, t)
  }

  // ------------------------------------------------------- what a step leaves alone

  lemma WaitEffect(s: System, t: Task, m: Id, h: Task)
    requires Shaped(s) && CanTake(s, t, m) && s.mutex[m].holder == Some(h) && h in s.base
    ensures var s' := BlockOn(s, t, m);
            && s'.prio == s.prio[h := Larger(s.prio[h], s.prio[t])] && s'.status == s.status[t := Waiting(m)]
            && s'.inherited == s.inherited[t := s'.inherited[t]]
            && s'.mutex == s.mutex[m := s'.mutex[m]] && s'.mutex[m].holder == s.mutex[m].holder
  {
    hide MutexShaped, StatusShaped, Enlist;
  }

  lemma HandOverEffect(s: System, t: Task, m: Id)
    requires Shaped(s) && t in s.base && m in s.mutex
    ensures var s', ws := HandOver(s, t, m), s.mutex[m].waiters;
            && s'.prio == (if s.held[t] <= 1 then s.prio[t := s.base[t]] else s.prio) && s'.inherited == s.inherited
            && s'.status == (if ws == [] then s.status else s.status[ws[0] := Trying(m)])
            && s'.mutex == s.mutex[m := s'.mutex[m]] && s'.mutex[m].holder == None
  {
    hide MutexShaped, StatusShaped;
    ReleaseShaped(s, t, m);
  }

  lemma GiveUpEffect(s: System, t: Task, m: Id)
    requires Shaped(s) && t in s.base && m in s.mutex
    ensures var s', o := GiveUp(s, t, m), s.mutex[m].holder;
            && s'.status == s.status[t := Ready] && s'.inherited == s.inherited && s'.mutex == s.mutex
            && s'.prio == if o.Some? && o.value in s.base && s.held[o.value] == 1
                          then s.prio[o.value := Larger(s.base[o.value], MostUrgentWaiter(s, m))] else s.prio
  {
    hide StatusShaped, MostUrgentWaiter;
    if s.mutex[m].holder.Some? { assert s.prio == s.prio[s.mutex[m].holder.value := s.prio[s.mutex[m].holder.value]]; }
  }

  /** A task without a mutex keeps its priority through every step. */
  lemma FreeKeepsPrio(s: System, e: Event, u: Task)
    requires Books(s) && Enabled(s, e) && u in s.base && s.held[u] == 0
    ensures P(Next(s, e).prio, u) == P(s.prio, u)
  {
    hide MutexShaped, StatusShaped, MutexOk, HeldBy, TaskOk, BlockOn, HandOver, GiveUp, MostUrgentWaiter;
    match e
    case Wait(t, m) =>
      HeldIfEmpty(s, m);
      WaitEffect(s, t, m, s.mutex[m].holder.value);
    case Give(t, m) => HolderHolds(s, m); HandOverEffect(s, t, m);
    case Leave(t) => LeavesOne(s, t); GiveUpEffect(s, t, s.status[t].m);
    case _ =>
  }

  /** A mutex that is not free is held. */
  lemma HeldIfEmpty(s: System, m: Id)
    requires Books(s) && m in s.mutex && s.mutex[m].count == 0
    ensures s.mutex[m].holder.Some? && s.mutex[m].holder.value in s.base && s.held[s.mutex[m].holder.value] > 0
  {
    hide HeldBy, TaskOk, Shaped;
    assert MutexOk(s.mutex[m]);
    HolderHolds(s, m);
  }

  lemma LeavesOne(s: System, t: Task)
    requires Shaped(s) && t in s.base && (s.status[t].Waiting? || Busy(s.status[t]))
    ensures s.status[t].m in s.mutex
  {
    assert StatusShaped(s.status[t], s.mutex.Keys);
  }

  lemma HolderHolds(s: System, m: Id)
    requires Books(s) && m in s.mutex
    ensures s.mutex[m].holder.Some? ==> s.mutex[m].holder.value in s.base && s.held[s.mutex[m].holder.value] > 0
  {
    hide StatusShaped;
    assert MutexShaped(s.mutex[m], s.base.Keys);
    if s.mutex[m].holder.Some? {
      var h := s.mutex[m].holder.value;
      assert TaskOk(s.base[h], s.prio[h], s.held[h], HeldBy(s.mutex, h));
      HoldsSomething(s.mutex, m, h);
    }
  }

  /** A step moves the status of its own task, and of the waiter it wakes. */
  lemma OthersKeepStatus(s: System, e: Event, u: Task)
    requires Good(s) && Enabled(s, e) && u in s.base && u != e.task
    ensures var s' := Next(s, e);
            && u in s'.status && u in s'.inherited && s'.inherited[u] == s.inherited[u]
            && (s'.status[u] == s.status[u] ||
                (&& e.Give? && s.status[u] == Waiting(e.m) && s'.status[u] == Trying(e.m)
                 && e.m in s'.mutex && s'.mutex[e.m].holder == None))
  {
    hide MutexShaped, StatusShaped, MutexOk, HeldBy, TaskOk, Calm, Bounded, BlockOn, HandOver, GiveUp, Without;
    match e
    case Wait(t, m) =>
      HeldIfEmpty(s, m);
      WaitEffect(s, t, m, s.mutex[m].holder.value);
    case Give(t, m) =>
      HandOverEffect(s, t, m);
      if s.mutex[m].waiters != [] { InLine(s, m, s.mutex[m].waiters[0]); }
    case Leave(t) => LeavesOne(s, t); GiveUpEffect(s, t, s.status[t].m);
    case _ =>
  }

  /** While a more urgent task can run, a less urgent one inside a take stays put. */
  lemma Persists(s: System, e: Event, t: Task, v: Task)
    requires Good(s) && Enabled(s, e) && Scheduled(s, e) && Looking(s.status, t) && Looking(s.status, v)
    requires P(s.prio, v) < P(s.prio, t)
    ensures Looking(Next(s, e).status, v) && P(Next(s, e).prio, v) == P(s.prio, v)
  {
    hide Bounded, MutexOk, HeldBy, TaskOk, MutexShaped, StatusShaped, Next;
    assert Calm(s.status[v], s.held[v]);
    FreeKeepsPrio(s, e, v);
    OthersKeepStatus(s, e, v);
  }

  // ------------------------------------------------------------ one step

  lemma Still(ws: seq<Task>, base: nat, prio: map<Task, nat>, status: map<Task, Status>,
              prio': map<Task, nat>, status': map<Task, Status>, h: Task, t: Task)
    requires Covered(ws, base, prio, status, h, t)
    requires P(prio', h) == P(prio, h) && P(prio', t) == P(prio, t) && Top(ws, prio') == Top(ws, prio)
    requires forall v :: Looking(status, v) && P(prio, v) < P(prio, t) ==>
            Looking(status', v) && P(prio', v) == P(prio, v)
    ensures Covered(ws, base, prio', status', h, t)
  {
    if P(prio, h) < P(prio, t) && P(prio, h) != Larger(base, Top(ws, prio)) {
      var v :| v != h && Looking(status, v) && P(prio, v) == P(prio, h);
      assert Looking(status', v) && P(prio', v) == P(prio', h);
    }
  }

  predicate Touches(s: System, e: Event, m: Id)
    requires Shaped(s) && Enabled(s, e)
  {
    match e
    case Take(_, n) => n == m
    case Again(_, n) => n == m
    case Wait(_, n) => n == m
    case Give(_, n) => n == m
    case Expire(t) => s.status[t] == Waiting(m)
    case _ => false
  }

  lemma Untouched(s: System, e: Event, m: Id)
    requires Good(s) && Enabled(s, e) && m in s.mutex && !Touches(s, e, m)
    ensures m in Next(s, e).mutex && Next(s, e).mutex[m] == s.mutex[m]
  {
    hide MutexShaped, StatusShaped, MutexOk, HeldBy, TaskOk, Calm, Bounded, BlockOn, HandOver, GiveUp, Without,
      MostUrgentWaiter;
    match e
    case Wait(t, n) =>
      HeldIfEmpty(s, n);
      WaitEffect(s, t, n, s.mutex[n].holder.value);
    case Give(t, n) => HandOverEffect(s, t, n);
    case Leave(t) => LeavesOne(s, t); GiveUpEffect(s, t, s.status[t].m);
    case _ =>
  }

  /** The holder of a mutex changes by a take or by a give only. */
  lemma HolderStays(s: System, e: Event, m: Id)
    requires Good(s) && Enabled(s, e) && m in s.mutex && !(e.Take? && e.m == m)
    requires m in Next(s, e).mutex && Next(s, e).mutex[m].holder.Some?
    ensures Next(s, e).mutex[m].holder == s.mutex[m].holder
    ensures e.Give? && s.mutex[e.m].depth <= 1 ==> e.m != m
    ensures Next(s, e).mutex[m].waiters == s.mutex[m].waiters || (e.Wait? && e.m == m)
            || (e.Expire? && s.status[e.task] == Waiting(m))
  {
    hide MutexShaped, StatusShaped, MutexOk, HeldBy, TaskOk, Calm, Bounded, BlockOn, HandOver, GiveUp, Without,
      MostUrgentWaiter;
    if !Touches(s, e, m) { Untouched(s, e, m); }
    else if e.Wait? { HeldIfEmpty(s, m); WaitEffect(s, e.task, m, s.mutex[m].holder.value); }
    else if e.Give? { HandOverEffect(s, e.task, m); }
  }

  lemma LenderBefore(s: System, e: Event, m: Id, t: Task)
    requires Good(s) && Enabled(s, e) && Shaped(Next(s, e)) && Lender(Next(s, e), m, t) && !(e.Take? && e.m == m)
    ensures m in s.mutex && t in s.base && s.mutex[m].holder == Next(s, e).mutex[m].holder
    ensures Lender(s, m, t) || (e == Expire(t) && s.status[t] == Waiting(m))
  {
    hide MutexShaped, StatusShaped, MutexOk, HeldBy, TaskOk, Calm, Bounded, Next;
    NextIds(s, e);
    HolderStays(s, e, m);
    if e.task == t { OwnBefore(s, e, m, t); } else { OthersKeepStatus(s, e, t); }
  }

  predicate Ends(e: Event) { e.Take? || e.Wait? || e.Give? || e.Fail? || e.Leave? || e.Sleep? || e.Awake? }

  lemma NotBusyAfter(s: System, e: Event)
    requires Good(s) && Enabled(s, e) && Ends(e)
    ensures e.task in Next(s, e).status && !Busy(Next(s, e).status[e.task])
  {
    hide MutexShaped, StatusShaped, MutexOk, HeldBy, TaskOk, Calm, Bounded, BlockOn, HandOver, GiveUp, Without,
      MostUrgentWaiter;
    match e
    case Wait(t, n) =>
      HeldIfEmpty(s, n);
      WaitEffect(s, t, n, s.mutex[n].holder.value);
    case Give(t, n) =>
      HandOverEffect(s, t, n);
      if s.mutex[n].waiters != [] { InLine(s, n, s.mutex[n].waiters[0]); }
    case Leave(t) => LeavesOne(s, t); GiveUpEffect(s, t, s.status[t].m);
    case _ =>
  }

  lemma OwnBefore(s: System, e: Event, m: Id, t: Task)
    requires Good(s) && Enabled(s, e) && Shaped(Next(s, e)) && Lender(Next(s, e), m, t) && e.task == t
    requires m in s.mutex && s.mutex[m].holder == Next(s, e).mutex[m].holder
    ensures t in s.base && (Lender(s, m, t) || (e == Expire(t) && s.status[t] == Waiting(m)))
  {
    hide MutexShaped, StatusShaped, MutexOk, HeldBy, TaskOk, Calm, Bounded, BlockOn, HandOver, GiveUp, Without,
      MostUrgentWaiter;
    if Ends(e) { NotBusyAfter(s, e); }
  }

  lemma WaitPrio(s: System, e: Event, h: Task)
    requires Good(s) && Enabled(s, e) && e.Wait? && h in s.base
    ensures P(Next(s, e).prio, h) == P(s.prio, h) || P(Next(s, e).prio, h) >= P(s.prio, e.task)
    ensures s.mutex[e.m].holder == Some(h) ==> P(Next(s, e).prio, h) >= P(s.prio, e.task)
  {
    hide MutexShaped, StatusShaped, MutexOk, HeldBy, TaskOk, Calm, Bounded, BlockOn, HandOver, GiveUp, Without,
      MostUrgentWaiter;
    HeldIfEmpty(s, e.m);
    WaitEffect(s, e.task, e.m, s.mutex[e.m].holder.value);
  }

  lemma GiveKeepsPrio(s: System, e: Event, m: Id, h: Task)
    requires Good(s) && Enabled(s, e) && e.Give? && h in s.base && m in s.mutex && s.mutex[m].holder == Some(h)
    requires e.m != m
    ensures P(Next(s, e).prio, h) == P(s.prio, h)
  {
    hide MutexShaped, StatusShaped, MutexOk, HeldBy, TaskOk, Calm, Bounded, BlockOn, HandOver, GiveUp, Without,
      MostUrgentWaiter;
    HandOverEffect(s, e.task, e.m);
    if e.task == h { HoldsTwo(s, h, m, e.m); }
  }

  lemma LeavePrio(s: System, e: Event, m: Id, h: Task)
    requires Good(s) && Enabled(s, e) && e.Leave? && h in s.base && m in s.mutex && s.mutex[m].holder == Some(h)
    ensures || P(Next(s, e).prio, h) == P(s.prio, h)
            || (s.status[e.task] == Leaving(m) && P(Next(s, e).prio, h) == Larger(s.base[h], MostUrgentWaiter(s, m)))
  {
    hide MutexShaped, StatusShaped, MutexOk, HeldBy, TaskOk, Calm, Bounded, BlockOn, HandOver, GiveUp, Without,
      MostUrgentWaiter;
    LeavesOne(s, e.task);
    var n := s.status[e.task].m;
    GiveUpEffect(s, e.task, n);
    if n != m && s.mutex[n].holder == Some(h) { HoldsTwo(s, h, m, n); }
  }

  lemma HoldsTwo(s: System, h: Task, m: Id, n: Id)
    requires Books(s) && h in s.base && m in s.mutex && n in s.mutex && m != n
    requires s.mutex[m].holder == s.mutex[n].holder == Some(h)
    ensures s.held[h] >= 2
  {
    TwoHoldings(s.mutex, h, m, n);
    assert TaskOk(s.base[h], s.prio[h], s.held[h], HeldBy(s.mutex, h));
  }

  lemma QuietPrio(s: System, e: Event)
    requires Good(s) && Enabled(s, e) && !e.Wait? && !e.Leave? && !(e.Give? && s.mutex[e.m].depth <= 1)
    ensures Next(s, e).prio == s.prio
  {
    hide MutexShaped, StatusShaped, MutexOk, HeldBy, TaskOk, Calm, Bounded, Without;
  }

  /** After a step that neither takes m nor takes a waiter out of its line. */
  lemma OtherCovered(s: System, e: Event, m: Id, t: Task)
    requires Good(s) && Guarded(s) && Enabled(s, e) && Scheduled(s, e) && Lender(s, m, t) && Shaped(Next(s, e))
    requires m in Next(s, e).mutex
    requires Next(s, e).mutex[m].holder == s.mutex[m].holder && Next(s, e).mutex[m].waiters == s.mutex[m].waiters
    requires e.Give? && s.mutex[e.m].depth <= 1 ==> e.m != m
    ensures Next(s, e).base == s.base ==> CoveredIn(Next(s, e), m, t)
  {
    hide MutexShaped, StatusShaped, MutexOk, HeldBy, TaskOk, Bounded, Next, Covered, MostUrgentWaiter;
    var x, s' := s.mutex[m], Next(s, e);
    var h := x.holder.value;
    HolderHolds(s, m);
    assert CoveredIn(s, m, t);
    assert Calm(s.status[t], s.held[t]);
    FreeKeepsPrio(s, e, t);
    TopStays(s, e, m);
    forall v | Looking(s.status, v) && P(s.prio, v) < P(s.prio, t)
      ensures Looking(s'.status, v) && P(s'.prio, v) == P(s.prio, v)
    {
      Persists(s, e, t, v);
    }
    if P(s'.prio, h) == P(s.prio, h) {
      Still(x.waiters, s.base[h], s.prio, s.status, s'.prio, s'.status, h, t);
    } else if e.Wait? {
      WaitPrio(s, e, h);
      AtLeast(x.waiters, s.base[h], s'.prio, s'.status, h, t);
    } else if e.Leave? {
      LeavePrio(s, e, m, h);
      TopIs(s, m);
      Exactly(x.waiters, s.base[h], s'.prio, s'.status, h, t);
    } else if e.Give? && s.mutex[e.m].depth <= 1 {
      GiveKeepsPrio(s, e, m, h);
    } else {
      QuietPrio(s, e);
    }
  }

  lemma TopIs(s: System, m: Id)
    requires Shaped(s) && m in s.mutex
    ensures MostUrgentWaiter(s, m) == Top(s.mutex[m].waiters, s.prio)
  {
    assert MutexShaped(s.mutex[m], s.base.Keys);
  }

  lemma AtLeast(ws: seq<Task>, base: nat, prio: map<Task, nat>, status: map<Task, Status>, h: Task, t: Task)
    requires P(prio, h) >= P(prio, t)
    ensures Covered(ws, base, prio, status, h, t)
  {
  }

  lemma Exactly(ws: seq<Task>, base: nat, prio: map<Task, nat>, status: map<Task, Status>, h: Task, t: Task)
    requires P(prio, h) == Larger(base, Top(ws, prio))
    ensures Covered(ws, base, prio, status, h, t)
  {
  }

  /** Those in line hold nothing, so no step moves their priorities. */
  lemma TopStays(s: System, e: Event, m: Id)
    requires Good(s) && Enabled(s, e) && m in s.mutex
    ensures Top(s.mutex[m].waiters, Next(s, e).prio) == Top(s.mutex[m].waiters, s.prio)
  {
    hide MutexShaped, StatusShaped, MutexOk, HeldBy, TaskOk, Bounded, Next;
    var ws := s.mutex[m].waiters;
    if ws != [] {
      InLine(s, m, ws[0]);
      assert Calm(s.status[ws[0]], s.held[ws[0]]);
      FreeKeepsPrio(s, e, ws[0]);
    }
  }

  /** The one who takes m is as urgent as everyone who could. */
  lemma TakeCovered(s: System, e: Event, m: Id, t: Task)
    requires Good(s) && Enabled(s, e) && Scheduled(s, e) && e.Take? && e.m == m && Shaped(Next(s, e))
    requires Lender(Next(s, e), m, t)
    ensures CoveredIn(Next(s, e), m, t)
  {
    var s' := Next(s, e);
    TakeCalm(s, e.task, m);
    NextIds(s, e);
    OthersKeepStatus(s, e, t);
    hide MutexShaped, StatusShaped, MutexOk, HeldBy, TaskOk, Bounded, Covered;
    AtLeast(s'.mutex[m].waiters, P(s'.base, e.task), s'.prio, s'.status, e.task, t);
  }

  lemma WaitCovered(s: System, e: Event, m: Id, t: Task)
    requires Good(s) && Enabled(s, e) && Scheduled(s, e) && e.Wait? && e.m == m && Lender(s, m, t) && Shaped(Next(s, e))
    requires m in Next(s, e).mutex
    requires Next(s, e).mutex[m].holder == s.mutex[m].holder
    ensures CoveredIn(Next(s, e), m, t)
  {
    hide MutexShaped, StatusShaped, MutexOk, HeldBy, TaskOk, Bounded, Next, Covered, MostUrgentWaiter;
    var s', h := Next(s, e), s.mutex[m].holder.value;
    HolderHolds(s, m);
    WaitPrio(s, e, h);
    assert Calm(s.status[t], s.held[t]);
    FreeKeepsPrio(s, e, t);
    AtLeast(s'.mutex[m].waiters, P(s'.base, h), s'.prio, s'.status, h, t);
  }

  /** A waiter taken off the list by the tick can run, at the priority it lent. */
  lemma LessCovered(ws: seq<Task>, u: Task, base: nat, prio: map<Task, nat>, status: map<Task, Status>,
                    status': map<Task, Status>,
                    h: Task, t: Task)
    requires Covered(ws, base, prio, status, h, t) && Descending(ws, prio) && NoDuplicates(ws) && u in ws && u != h
    requires Looking(status', u) && forall v :: Looking(status, v) ==> Looking(status', v)
    ensures Covered(Without(ws, u), base, prio, status', h, t)
  {
    var rest := Without(ws, u);
    WithoutMembers(ws, u);
    if rest != [] { assert rest[0] in ws; }
    var p := P(prio, h);
    if p < P(prio, t) && p == Larger(base, Top(ws, prio)) && p != Larger(base, Top(rest, prio)) {
      TopGoes(ws, u, prio);
      assert Looking(status', u) && P(prio, u) == P(prio, h);
    } else if P(prio, h) < P(prio, t) && P(prio, h) != Larger(base, Top(rest, prio)) {
      var v :| v != h && Looking(status, v) && P(prio, v) == P(prio, h);
      assert Looking(status', v);
    }
  }

  lemma TopGoes(ws: seq<Task>, u: Task, prio: map<Task, nat>)
    requires u in ws && NoDuplicates(ws) && Descending(ws, prio)
    ensures Top(Without(ws, u), prio) == Top(ws, prio) || (ws[0] == u && Top(Without(ws, u), prio) <= Top(ws, prio))
  {
    var k := IndexOf(ws, u);
    if k == 0 && |ws| > 1 { assert P(prio, ws[0]) >= P(prio, ws[1]); }
  }

  lemma ExpireCovered(s: System, u: Task, m: Id, t: Task)
    requires Good(s) && Guarded(s) && Enabled(s, Expire(u)) && s.status[u] == Waiting(m) && Lender(s, m, t) && t != u
    requires Shaped(TimeOut(s, u, m))
    ensures CoveredIn(TimeOut(s, u, m), m, t)
  {
    hide MutexShaped, StatusShaped, MutexOk, HeldBy, TaskOk, Without, Covered, Descending, Tops;
    var x, h, s' := s.mutex[m], s.mutex[m].holder.value, TimeOut(s, u, m);
    HolderIsCalm(s, m);
    assert CoveredIn(s, m, t);
    assert Bounded(x, m, s.prio, s.status) && Is(s.status, u, Waiting(m));
    assert u in x.waiters;
    LessCovered(x.waiters, u, P(s.base, h), s.prio, s.status, s'.status, h, t);
  }

  /** The waiter itself leaves the line below its holder. */
  lemma ExpiredCovered(s: System, t: Task, m: Id)
    requires Good(s) && Enabled(s, Expire(t)) && s.status[t] == Waiting(m) && m in s.mutex && s.mutex[m].holder.Some?
    requires Shaped(TimeOut(s, t, m))
    ensures CoveredIn(TimeOut(s, t, m), m, t)
  {
    hide MutexShaped, StatusShaped, MutexOk, HeldBy, TaskOk, Without, Covered, Descending;
    var x, h, s' := s.mutex[m], s.mutex[m].holder.value, TimeOut(s, t, m);
    assert Bounded(x, m, s.prio, s.status) && Is(s.status, t, Waiting(m));
    assert t in x.waiters;
    AtLeast(s'.mutex[m].waiters, P(s.base, h), s.prio, s'.status, h, t);
  }

  lemma NextCovered(s: System, e: Event, m: Id, t: Task)
    requires Good(s) && Guarded(s) && Enabled(s, e) && Scheduled(s, e) && Shaped(Next(s, e)) && Lender(Next(s, e), m, t)
    ensures CoveredIn(Next(s, e), m, t)
  {
    hide MutexShaped, StatusShaped, MutexOk, HeldBy, TaskOk, Calm, Bounded, CoveredIn, Guarded, Lender, TimeOut;
    if e.Take? && e.m == m {
      TakeCovered(s, e, m, t);
    } else {
      LenderBefore(s, e, m, t);
      LenderHas(Next(s, e), m, t);
      HolderStays(s, e, m);
      NextIds(s, e);
      if e.Wait? && e.m == m {
        WaitCovered(s, e, m, t);
      } else if e.Expire? && s.status[e.task] == Waiting(m) {
        if e.task == t { ExpiredCovered(s, t, m); } else { ExpireCovered(s, e.task, m, t); }
      } else {
        OtherCovered(s, e, m, t);
      }
    }
  }

  lemma LenderHas(s: System, m: Id, t: Task)
    requires Shaped(s) && Lender(s, m, t)
    ensures m in s.mutex && s.mutex[m].holder.Some?
  {
  }

  lemma NextGuarded(s: System, e: Event)
    requires Good(s) && Guarded(s) && Enabled(s, e) && Scheduled(s, e)
    ensures Good(Next(s, e)) && Guarded(Next(s, e))
  {
    NextKeeps(s, e);
    forall m, t | Lender(Next(s, e), m, t) ensures CoveredIn(Next(s, e), m, t) {
      NextCovered(s, e, m, t);
    }
  }

  // ------------------------------------------------------------------ runs

  ghost predicate AllScheduled(s: System, es: seq<Event>)
    requires Books(s) && Runs(s, es)
    decreases |es|
  {
    es == [] || (Scheduled(s, es[0]) && (NextBooks(s, es[0]); AllScheduled(Next(s, es[0]), es[1..])))
  }

  lemma {:induction false} RunGuarded(s: System, es: seq<Event>)
    requires Good(s) && Guarded(s) && Runs(s, es) && AllScheduled(s, es)
    ensures Good(Run(s, es)) && Guarded(Run(s, es))
    decreases |es|
  {
    hide MutexOk, TaskOk, HeldBy, Bounded, Calm, Guarded, Next, Enabled, Scheduled, Shaped;
    if es != [] {
      NextBooks(s, es[0]);
      NextGuarded(s, es[0]);
      RunGuarded(Next(s, es[0]), es[1..]);
    }
  }

  lemma StartIsGuarded(s: System)
    requires Start(s)
    ensures Good(s) && Guarded(s)
  {
    StartIsGood(s);
  }

  /** A run from the start, scheduled throughout. */
  ghost predicate FromStart(s: System, es: seq<Event>) { Books(s) && Start(s) && Runs(s, es) && AllScheduled(s, es) }

  /** Lowering the priority of `h` for the sake of m empties no ready list. */
  ghost predicate SafeToLower(s: System, m: Id, h: Task)
    requires Shaped(s) && m in s.mutex
  {
    && h in s.base
    && (|| !Runnable(s.status[h])
        || s.prio[h] == Larger(s.base[h], MostUrgentWaiter(s, m))
        || exists v :: v in s.base && v != h && Runnable(s.status[v]) && s.prio[v] == s.prio[h])
  }

  lemma GuardedIsSafe(s: System, t: Task, m: Id, h: Task)
    requires Good(s) && Guarded(s) && t in s.base && s.status[t] == Leaving(m) && MostUrgent(s, t)
    requires m in s.mutex && s.mutex[m].holder == Some(h)
    ensures SafeToLower(s, m, h)
  {
    hide MutexShaped, StatusShaped, MutexOk, HeldBy, TaskOk, Bounded, MostUrgentWaiter;
    HolderIsCalm(s, m);
    TopIs(s, m);
    assert Calm(s.status[t], s.held[t]);
    assert Lender(s, m, t);
    assert CoveredIn(s, m, t);
    if Runnable(s.status[h]) && s.prio[h] != Larger(s.base[h], MostUrgentWaiter(s, m)) {
      if P(s.prio, h) >= P(s.prio, t) {
        assert t != h && Runnable(s.status[t]) && s.prio[t] == s.prio[h];
      } else {
        var v :| v != h && Looking(s.status, v) && P(s.prio, v) == P(s.prio, h);
        assert v in s.base && Runnable(s.status[v]) && s.prio[v] == s.prio[h];
      }
    }
  }

  /** Whenever a task is about to disinherit the holder of the mutex it waited for,
      that holder cannot run, keeps its priority, or shares it with another task that
      can run: no ready list is emptied. */
  lemma LeaverSharesPriority(s: System, es: seq<Event>, t: Task, m: Id, h: Task)
    requires FromStart(s, es)
    requires var s' := Run(s, es);
             && t in s'.base && s'.status[t] == Leaving(m) && MostUrgent(s', t)
             && m in s'.mutex && s'.mutex[m].holder == Some(h)
    ensures SafeToLower(Run(s, es), m, h)
  {
    hide Run, Runs, AllScheduled, Start, Good, Guarded, Shaped, SafeToLower, MostUrgent;
    StartIsGuarded(s);
    RunGuarded(s, es);
    GuardedIsSafe(Run(s, es), t, m, h);
  }
}

/** What holds of mutexes over every run in which only holders give. */
module MutexBooks {
  import opened Basics
  import opened Mutexes
  import opened Rings

  function HeldBy(mutex: map<Id, Mutex>, t: Task): set<Id> {
    set m | m in mutex && mutex[m].holder == Some(t)
  }

  /** A mutex is free or held, never both. */
  predicate MutexOk(x: Mutex) {
    || (x.count == 1 && x.holder == None && x.depth == 0)
    || (x.count == 0 && x.holder.Some? && x.depth >= 1)
  }

  /** uxMutexesHeld counts the mutexes that name the task; the effective priority is
      never below the base priority, and equals it while no mutex is held. */
  predicate TaskOk(base: nat, prio: nat, held: nat, mine: set<Id>) {
    held == |mine| && base <= prio && (held == 0 ==> prio == base)
  }

  ghost predicate Books(s: System) {
    && Shaped(s)
    && (forall m :: m in s.mutex ==> MutexOk(s.mutex[m]))
    && (forall t :: t in s.base ==> TaskOk(s.base[t], s.prio[t], s.held[t], HeldBy(s.mutex, t)))
  }

  /** Changing a mutex without changing its holder changes no one's holdings. */
  lemma SameHolder(mutex: map<Id, Mutex>, m: Id, x: Mutex, t: Task)
    requires m in mutex && mutex[m].holder == x.holder
    ensures HeldBy(mutex[m := x], t) == HeldBy(mutex, t)
  {
  }

  lemma HolderGained(mutex: map<Id, Mutex>, m: Id, x: Mutex, t: Task)
    requires m in mutex && mutex[m].holder == None && x.holder.Some?
    ensures HeldBy(mutex[m := x], t) == if x.holder.value == t then HeldBy(mutex, t) + {m} else HeldBy(mutex, t)
    ensures x.holder.value == t ==> |HeldBy(mutex[m := x], t)| == |HeldBy(mutex, t)| + 1
  {
  }

  lemma HolderLost(mutex: map<Id, Mutex>, m: Id, x: Mutex, t: Task)
    requires m in mutex && x.holder == None && mutex[m].holder.Some?
    ensures HeldBy(mutex[m := x], t) == HeldBy(mutex, t) - {m}
    ensures |HeldBy(mutex[m := x], t)| == if mutex[m].holder.value == t then |HeldBy(mutex, t)| - 1
            else |HeldBy(mutex, t)|
  {
    if mutex[m].holder.value == t {
      assert HeldBy(mutex, t) == HeldBy(mutex[m := x], t) + {m};
    } else {
      assert HeldBy(mutex, t) == HeldBy(mutex[m := x], t);
    }
  }

  lemma HoldsSomething(mutex: map<Id, Mutex>, m: Id, t: Task)
    requires m in mutex && mutex[m].holder == Some(t)
    ensures |HeldBy(mutex, t)| > 0
  {
    assert m in HeldBy(mutex, t);
  }

  lemma {:induction false} EnlistMembers(ts: seq<Task>, t: Task, prio: map<Task, nat>)
    requires t in prio && forall x :: x in ts ==> x in prio
    ensures forall x :: x in Enlist(ts, t, prio) <==> x in ts || x == t
    decreases |ts|
  {
    if ts != [] {
      assert ts == [ts[0]] + ts[1..];
      if prio[ts[0]] >= prio[t] { EnlistMembers(ts[1..], t, prio); }
    }
  }

  lemma WakeFirstShaped(s: System, m: Id)
    requires Shaped(s) && m in s.mutex
    ensures Shaped(WakeFirst(s, m)) && WakeFirst(s, m).mutex.Keys == s.mutex.Keys
  {
    var ws := s.mutex[m].waiters;
    if ws != [] { assert ws == [ws[0]] + ws[1..]; }
  }

  /** One mutex and the status of one task change, priorities and counts at will. */
  lemma UpdateShaped(s: System, s': System, m: Id, x: Mutex, t: Task, st: Status)
    requires Shaped(s) && Keys(s') && s'.base == s.base && m in s.mutex && t in s.base
    requires s'.mutex == s.mutex[m := x] && MutexShaped(x, s.base.Keys)
    requires s'.status == s.status[t := st] && StatusShaped(st, s.mutex.Keys)
    ensures Shaped(s')
  {
    hide MutexShaped, StatusShaped, Keys;
    assert s'.mutex.Keys == s.mutex.Keys;
  }

  lemma TakeShaped(s: System, t: Task, m: Id)
    requires Shaped(s) && CanTake(s, t, m) && s.mutex[m].count > 0
    ensures Shaped(TakeFree(s, t, m))
  {
    var s' := TakeFree(s, t, m);
    UpdateShaped(s, s', m, s'.mutex[m], t, Ready);
  }

  lemma WaitShaped(s: System, t: Task, m: Id)
    requires Shaped(s) && CanTake(s, t, m)
    ensures Shaped(BlockOn(s, t, m))
  {
    hide Enlist;
    var s' := BlockOn(s, t, m);
    EnlistMembers(s.mutex[m].waiters, t, s.prio);
    UpdateShaped(s, s', m, s'.mutex[m], t, Waiting(m));
  }

  lemma TimeOutShaped(s: System, t: Task, m: Id)
    requires Shaped(s) && t in s.base && m in s.mutex
    ensures Shaped(TimeOut(s, t, m))
  {
    hide Without;
    var s' := TimeOut(s, t, m);
    WithoutSubset(s.mutex[m].waiters, t);
    UpdateShaped(s, s', m, s'.mutex[m], t, Trying(m));
  }

  lemma GiveUpShaped(s: System, t: Task, m: Id)
    requires Shaped(s) && t in s.base && m in s.mutex
    ensures Shaped(GiveUp(s, t, m))
  {
    var s' := GiveUp(s, t, m);
    UpdateShaped(s, s', m, s.mutex[m], t, s'.status[t]);
  }

  lemma DeepenShaped(s: System, m: Id, d: nat)
    requires Shaped(s) && m in s.mutex
    ensures Shaped(Deepen(s, m, d))
  {
    assert Deepen(s, m, d).mutex.Keys == s.mutex.Keys;
  }

  lemma QuietShaped(s: System, e: Event)
    requires Shaped(s) && Enabled(s, e) && (e.Late? || e.Fail? || e.Look?)
    ensures Shaped(Next(s, e)) && Quiet(s, Next(s, e))
  {
    hide MutexShaped, StatusShaped, TakeFree, BlockOn, HandOver, TimeOut, GiveUp, Deepen;
    assert StatusShaped(s.status[e.task], s.mutex.Keys);
    StatusMay(s, e.task, if e.Late? || e.Fail? then e.m else s.status[e.task].m);
  }

  lemma StatusMay(s: System, t: Task, m: Id)
    requires t in s.status
    requires m in s.mutex || (StatusShaped(s.status[t], s.mutex.Keys) && s.status[t].Expired? && m == s.status[t].m)
    ensures m in s.mutex && StatusShaped(Ready, s.mutex.Keys) && StatusShaped(Trying(m), s.mutex.Keys)
    ensures StatusShaped(Expired(m), s.mutex.Keys) && StatusShaped(Leaving(m), s.mutex.Keys)
  {
  }

  /** Nothing changes but the progress of calls. */
  predicate Quiet(s: System, s': System) {
    s'.base == s.base && s'.prio == s.prio && s'.held == s.held && s'.mutex == s.mutex
  }

  // -------------------------------------------------------------- the counting

  /** The books after one mutex changed, given who gained or lost it. */
  lemma UpdateBooks(s: System, s': System, m: Id, x: Mutex)
    requires Books(s) && Shaped(s') && s'.base == s.base && m in s.mutex && s'.mutex == s.mutex[m := x] && MutexOk(x)
    requires forall t :: t in s.base ==> TaskOk(s.base[t], s'.prio[t], s'.held[t], HeldBy(s'.mutex, t))
    ensures Books(s')
  {
    hide MutexOk, TaskOk, Shaped;
  }

  lemma TakeBooks(s: System, t: Task, m: Id)
    requires Books(s) && CanTake(s, t, m) && s.mutex[m].count > 0
    ensures Books(TakeFree(s, t, m))
  {
    var s' := TakeFree(s, t, m);
    var x := s'.mutex[m];
    TakeShaped(s, t, m);
    assert MutexOk(s.mutex[m]);
    forall u | u in s.base ensures TaskOk(s.base[u], s'.prio[u], s'.held[u], HeldBy(s'.mutex, u)) {
      assert TaskOk(s.base[u], s.prio[u], s.held[u], HeldBy(s.mutex, u));
      HolderGained(s.mutex, m, x, u);
    }
    UpdateBooks(s, s', m, x);
  }

  /** A holder may run at any priority from its base priority up. */
  lemma PrioBooks(s: System, h: Task, p: nat)
    requires Books(s) && h in s.base && p >= s.base[h] && |HeldBy(s.mutex, h)| > 0
    ensures Books(s.(prio := s.prio[h := p]))
  {
    hide HeldBy, MutexOk, MutexShaped, StatusShaped;
  }

  lemma WaitBooks(s: System, t: Task, m: Id)
    requires Books(s) && CanTake(s, t, m)
    ensures Books(BlockOn(s, t, m))
  {
    hide Enlist, HeldBy, TaskOk, MutexShaped, StatusShaped;
    var s' := BlockOn(s, t, m);
    var s1 := s'.(prio := s.prio);
    WaitShaped(s, t, m);
    assert MutexOk(s.mutex[m]);
    QuietBooks(s, s1, m, s'.mutex[m]);
    if s.mutex[m].holder.Some? {
      var h := s.mutex[m].holder.value;
      HolderKnown(s, m);
      HoldsSomething(s1.mutex, m, h);
      PrioBooks(s1, h, Larger(s.prio[h], s.prio[t]));
    }
  }

  lemma HolderKnown(s: System, m: Id)
    requires Books(s) && m in s.mutex && s.mutex[m].holder.Some?
    ensures s.mutex[m].holder.value in s.base && s.base[s.mutex[m].holder.value] <= s.prio[s.mutex[m].holder.value]
  {
    hide HeldBy;
    assert MutexShaped(s.mutex[m], s.base.Keys);
  }

  lemma ReleaseBooks(s: System, t: Task, m: Id)
    requires Books(s) && t in s.base && m in s.mutex && s.mutex[m].holder == Some(t)
    ensures Books(Release(s, t, m))
  {
    var s' := Release(s, t, m);
    var x := s'.mutex[m];
    ReleaseShaped(s, t, m);
    assert MutexOk(s.mutex[m]);
    forall u | u in s.base ensures TaskOk(s.base[u], s'.prio[u], s'.held[u], HeldBy(s'.mutex, u)) {
      assert TaskOk(s.base[u], s.prio[u], s.held[u], HeldBy(s.mutex, u));
      HolderLost(s.mutex, m, x, u);
      HoldsSomething(s.mutex, m, t);
    }
    UpdateBooks(s, s', m, x);
  }

  /** A change of one mutex, or none, that moves no holder and no priority. */
  lemma QuietBooks(s: System, s': System, m: Id, x: Mutex)
    requires Books(s) && Shaped(s') && s'.base == s.base && s'.prio == s.prio && s'.held == s.held
    requires m in s.mutex && s'.mutex == s.mutex[m := x] && MutexOk(x) && x.holder == s.mutex[m].holder
    ensures Books(s')
  {
    forall u | u in s.base ensures TaskOk(s.base[u], s'.prio[u], s'.held[u], HeldBy(s'.mutex, u)) {
      assert TaskOk(s.base[u], s.prio[u], s.held[u], HeldBy(s.mutex, u));
      SameHolder(s.mutex, m, x, u);
    }
    UpdateBooks(s, s', m, x);
  }

  lemma WakeBooks(s: System, m: Id)
    requires Books(s) && m in s.mutex
    ensures Books(WakeFirst(s, m))
  {
    WakeFirstShaped(s, m);
    var s' := WakeFirst(s, m);
    assert MutexOk(s.mutex[m]);
    assert s.mutex == s.mutex[m := s.mutex[m]];
    QuietBooks(s, s', m, s'.mutex[m]);
  }

  lemma TimeOutBooks(s: System, t: Task, m: Id)
    requires Books(s) && t in s.base && m in s.mutex
    ensures Books(TimeOut(s, t, m))
  {
    hide Without;
    TimeOutShaped(s, t, m);
    assert MutexOk(s.mutex[m]);
    QuietBooks(s, TimeOut(s, t, m), m, TimeOut(s, t, m).mutex[m]);
  }

  lemma DeepenBooks(s: System, m: Id, d: nat)
    requires Books(s) && m in s.mutex && s.mutex[m].holder.Some? && d >= 1
    ensures Books(Deepen(s, m, d))
  {
    DeepenShaped(s, m, d);
    assert MutexOk(s.mutex[m]);
    QuietBooks(s, Deepen(s, m, d), m, Deepen(s, m, d).mutex[m]);
  }

  lemma GiveUpBooks(s: System, t: Task, m: Id)
    requires Books(s) && t in s.base && m in s.mutex
    ensures Books(GiveUp(s, t, m))
  {
    hide HeldBy, TaskOk, MutexShaped, StatusShaped, MostUrgentWaiter;
    var s' := GiveUp(s, t, m);
    var s1 := s'.(prio := s.prio);
    GiveUpShaped(s, t, m);
    assert MutexOk(s.mutex[m]);
    assert s.mutex == s.mutex[m := s.mutex[m]];
    QuietBooks(s, s1, m, s.mutex[m]);
    if s.mutex[m].holder.Some? {
      var h := s.mutex[m].holder.value;
      HolderKnown(s, m);
      HoldsSomething(s1.mutex, m, h);
      PrioBooks(s1, h, Larger(s.base[h], MostUrgentWaiter(s, m)));
      assert s.prio == s.prio[h := s.prio[h]];
    }
  }

  lemma HandOverBooks(s: System, t: Task, m: Id)
    requires Books(s) && t in s.base && m in s.mutex && s.mutex[m].holder == Some(t)
    ensures Books(HandOver(s, t, m))
  {
    hide Release, WakeFirst, MutexOk, TaskOk, HeldBy, MutexShaped, StatusShaped;
    ReleaseShaped(s, t, m);
    ReleaseBooks(s, t, m);
    WakeBooks(Release(s, t, m), m);
  }

  lemma StatusBooks(s: System, t: Task, st: Status)
    requires Books(s) && t in s.base && StatusShaped(st, s.mutex.Keys)
    ensures Books(s.(status := s.status[t := st]))
  {
    hide MutexOk, TaskOk, HeldBy, MutexShaped;
  }

  lemma ProgressBooks(s: System, e: Event)
    requires Books(s) && Enabled(s, e) && (e.Late? || e.Fail? || e.Look?)
    ensures Books(Next(s, e))
  {
    hide MutexOk, TaskOk, HeldBy, Next, Shaped;
    QuietShaped(s, e);
  }

  /** Every step keeps the books. */
  lemma NextBooks(s: System, e: Event)
    requires Books(s) && Enabled(s, e)
    ensures Books(Next(s, e))
  {
    hide TakeFree, BlockOn, HandOver, TimeOut, GiveUp, Deepen, HeldBy, TaskOk, MutexOk, MutexShaped;
    match e
    case Take(t, m) => TakeBooks(s, t, m);
    case Again(t, m) => DeepenBooks(s, m, s.mutex[m].depth + 1);
    case Wait(t, m) => WaitBooks(s, t, m);
    case Give(t, m) =>
      if s.mutex[m].depth > 1 { DeepenBooks(s, m, s.mutex[m].depth - 1); } else { HandOverBooks(s, t, m); }
    case Expire(t) => TimeOutBooks(s, t, s.status[t].m);
    case Leave(t) => GiveUpBooks(s, t, s.status[t].m);
    case Late(_, _) => ProgressBooks(s, e);
    case Fail(_, _) => ProgressBooks(s, e);
    case Look(_) => ProgressBooks(s, e);
    case Sleep(t) => StatusBooks(s, t, Asleep);
    case Awake(t) => StatusBooks(s, t, Ready);
  }
}

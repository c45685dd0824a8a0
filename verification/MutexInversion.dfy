/** Priority inheritance bounds priority inversion, for tasks that wait for one mutex
    at a time. */
module MutexInversion {
  import opened Basics
  import opened Mutexes
  import opened MutexBooks
  import opened Rings

  function P(prio: map<Task, nat>, t: Task): nat { if t in prio then prio[t] else 0 }

  predicate Is(status: map<Task, Status>, t: Task, st: Status) { t in status && status[t] == st }

  ghost predicate Descending(ts: seq<Task>, prio: map<Task, nat>) {
    forall i, j :: 0 <= i < j < |ts| ==> P(prio, ts[i]) >= P(prio, ts[j])
  }

  /** `u` is at least as urgent as everyone in `ts`. */
  ghost predicate Tops(prio: map<Task, nat>, u: Task, ts: seq<Task>) {
    forall w :: w in ts ==> P(prio, w) <= P(prio, u)
  }

  ghost predicate Lined(ts: seq<Task>, m: Id, prio: map<Task, nat>, status: map<Task, Status>) {
    && NoDuplicates(ts) && Descending(ts, prio)
    && forall t :: t in ts <==> Is(status, t, Waiting(m))
  }

  /** Able to run, and about to look whether m is free. */
  predicate Eligible(status: map<Task, Status>, t: Task, m: Id) {
    Is(status, t, Trying(m)) || Is(status, t, Expired(m))
  }

  /** Someone who can take the free mutex is as urgent as everyone who still waits. */
  ghost predicate Successor(ts: seq<Task>, m: Id, prio: map<Task, nat>, status: map<Task, Status>) {
    exists u :: Eligible(status, u, m) && Tops(prio, u, ts)
  }

  ghost predicate Bounded(x: Mutex, m: Id, prio: map<Task, nat>, status: map<Task, Status>) {
    && Lined(x.waiters, m, prio, status)
    && (x.holder.Some? ==> Tops(prio, x.holder.value, x.waiters))
    && (x.holder == None && x.waiters != [] ==> Successor(x.waiters, m, prio, status))
  }

  predicate Calm(st: Status, held: nat) { st.Waiting? || st.Trying? || st.Expired? || st.Leaving? ==> held == 0 }

  ghost predicate Good(s: System) {
    && Books(s)
    && (forall m :: m in s.mutex ==> Bounded(s.mutex[m], m, s.prio, s.status))
    && (forall t :: t in s.base ==> Calm(s.status[t], s.held[t]))
  }

  /** As urgent as every task that could run. */
  ghost predicate MostUrgent(s: System, t: Task)
    requires Shaped(s)
  {
    forall u :: u in s.base && !s.status[u].Waiting? && !s.status[u].Asleep? ==> P(s.prio, u) <= P(s.prio, t)
  }

  /** Takes are made by a most urgent task; no task waits for a mutex while it holds
      one, or comes too late to. */
  ghost predicate Disciplined(s: System, e: Event)
    requires Shaped(s) && Enabled(s, e)
  {
    (e.Take? ==> MostUrgent(s, e.task)) && (e.Wait? || e.Late? ==> s.held[e.task] == 0)
  }

  /** The status of a task changes that is not, and will not be, in line for m; while
      m is free, one that is about to look stays so. */
  lemma StatusKeeps(x: Mutex, m: Id, prio: map<Task, nat>, status: map<Task, Status>, t: Task, st: Status)
    requires Bounded(x, m, prio, status)
    requires !Is(status, t, Waiting(m)) && st != Waiting(m)
    requires x.holder == None && Eligible(status, t, m) ==> st == Trying(m) || st == Expired(m)
    ensures Bounded(x, m, prio, status[t := st])
  {
    var status' := status[t := st];
    if x.holder == None && x.waiters != [] {
      var u :| Eligible(status, u, m) && Tops(prio, u, x.waiters);
      assert Eligible(status', u, m);
    }
  }

  /** The priority of a task changes that is not in line for m; as the holder of m
      it stays as urgent as those who wait. */
  lemma PrioKeeps(x: Mutex, m: Id, prio: map<Task, nat>, status: map<Task, Status>, h: Task, p: nat)
    requires Bounded(x, m, prio, status)
    requires !Is(status, h, Waiting(m)) && !Eligible(status, h, m)
    requires x.holder == Some(h) ==> forall w :: w in x.waiters ==> P(prio, w) <= p
    ensures Bounded(x, m, prio[h := p], status)
  {
    var prio' := prio[h := p];
    assert forall w :: w in x.waiters ==> P(prio', w) == P(prio, w);
    if x.holder == None && x.waiters != [] {
      var u :| Eligible(status, u, m) && Tops(prio, u, x.waiters);
      assert Tops(prio', u, x.waiters);
    }
  }

  // -------------------------------------------------------------------- events

  /** The free mutex goes to a task as urgent as any that could run, so as urgent as
      the successor, so as urgent as everyone who waits. */
  lemma TakeBounded(s: System, t: Task, m: Id, n: Id)
    requires Good(s) && CanTake(s, t, m) && s.mutex[m].count > 0 && MostUrgent(s, t) && n in s.mutex
    ensures var s' := TakeFree(s, t, m); Bounded(s'.mutex[n], n, s'.prio, s'.status)
  {
    hide TaskOk, HeldBy, MutexShaped, StatusShaped, Lined, Tops;
    var x, s' := s.mutex[m], TakeFree(s, t, m);
    assert Bounded(s.mutex[n], n, s.prio, s.status) && Bounded(x, m, s.prio, s.status);
    assert MutexOk(x);
    if n != m {
      StatusKeeps(s.mutex[n], n, s.prio, s.status, t, Ready);
    } else {
      LinedKeeps(x.waiters, m, s.prio, s.status, t, Ready);
      if x.waiters != [] {
        var u :| Eligible(s.status, u, m) && Tops(s.prio, u, x.waiters);
        TopsTransitive(s.prio, u, t, x.waiters);
      } else {
        TopsNone(s.prio, t);
      }
    }
  }

  lemma LinedKeeps(ts: seq<Task>, m: Id, prio: map<Task, nat>, status: map<Task, Status>, t: Task, st: Status)
    requires Lined(ts, m, prio, status) && !Is(status, t, Waiting(m)) && st != Waiting(m)
    ensures Lined(ts, m, prio, status[t := st])
  {
  }

  lemma TopsTransitive(prio: map<Task, nat>, u: Task, t: Task, ts: seq<Task>)
    requires Tops(prio, u, ts) && P(prio, u) <= P(prio, t)
    ensures Tops(prio, t, ts)
  {
  }

  lemma TopsNone(prio: map<Task, nat>, t: Task)
    ensures Tops(prio, t, [])
  {
  }

  lemma {:induction false} EnlistOrder(ts: seq<Task>, t: Task, prio: map<Task, nat>)
    requires t in prio && (forall x :: x in ts ==> x in prio) && NoDuplicates(ts) && Descending(ts, prio) && t !in ts
    ensures NoDuplicates(Enlist(ts, t, prio)) && Descending(Enlist(ts, t, prio), prio)
    decreases |ts|
  {
    if ts != [] && prio[ts[0]] >= prio[t] {
      var r := Enlist(ts[1..], t, prio);
      EnlistOrder(ts[1..], t, prio);
      EnlistMembers(ts[1..], t, prio);
      assert forall x :: x in ts[1..] ==> x in ts && P(prio, x) <= P(prio, ts[0]) && x != ts[0];
      Prepend(ts[0], r, prio);
    } else if ts != [] {
      assert forall x :: x in ts ==> P(prio, x) <= P(prio, ts[0]);
      Prepend(t, ts, prio);
    }
  }

  /** A new waiter stands behind everyone at least as urgent, so behind those of its
      own priority, and before everyone less urgent. */
  lemma {:induction false} EnlistStable(ts: seq<Task>, t: Task, prio: map<Task, nat>) returns (k: nat)
    requires t in prio && (forall x :: x in ts ==> x in prio) && Descending(ts, prio)
    ensures k <= |ts| && Enlist(ts, t, prio) == ts[..k] + [t] + ts[k..]
    ensures forall i :: 0 <= i < k ==> P(prio, ts[i]) >= P(prio, t)
    ensures forall i :: k <= i < |ts| ==> P(prio, ts[i]) < P(prio, t)
    decreases |ts|
  {
    if ts == [] || prio[ts[0]] < prio[t] {
      k := 0;
    } else {
      var rest := ts[1..];
      var j := EnlistStable(rest, t, prio);
      k := j + 1;
      ConsSplit(ts[0], rest, j, t);
      assert ts == [ts[0]] + rest;
    }
  }

  lemma ConsSplit(x: Task, rest: seq<Task>, j: nat, t: Task)
    requires j <= |rest|
    ensures var ts := [x] + rest; ts[..j + 1] + [t] + ts[j + 1..] == [x] + (rest[..j] + [t] + rest[j..])
  {
  }

  lemma Prepend(t: Task, ts: seq<Task>, prio: map<Task, nat>)
    requires NoDuplicates(ts) && Descending(ts, prio) && forall x :: x in ts ==> x != t && P(prio, x) <= P(prio, t)
    ensures NoDuplicates([t] + ts) && Descending([t] + ts, prio)
  {
  }

  lemma CutDescending(ts: seq<Task>, k: nat, prio: map<Task, nat>)
    requires Descending(ts, prio) && k < |ts|
    ensures Descending(ts[..k] + ts[k + 1..], prio)
  {
    var rest := ts[..k] + ts[k + 1..];
    forall i, j | 0 <= i < j < |rest| ensures P(prio, rest[i]) >= P(prio, rest[j]) {
      var i', j' := if i < k then i else i + 1, if j < k then j else j + 1;
      assert rest[i] == ts[i'] && rest[j] == ts[j'] && i' < j';
    }
  }

  lemma RemoveOrder(ts: seq<Task>, t: Task, prio: map<Task, nat>)
    requires Descending(ts, prio)
    ensures Descending(Without(ts, t), prio)
  {
    hide Descending;
    if t in ts { CutDescending(ts, IndexOf(ts, t), prio); }
  }

  /** The holder inherits before the new waiter joins the line. */
  lemma WaitBounded(s: System, t: Task, m: Id, n: Id)
    requires Good(s) && CanTake(s, t, m) && s.mutex[m].count == 0 && s.held[t] == 0 && n in s.mutex
    ensures var s' := BlockOn(s, t, m); Bounded(s'.mutex[n], n, s'.prio, s'.status)
  {
    hide TaskOk, HeldBy, MutexShaped, StatusShaped, Lined, Tops, Enlist;
    var x, s' := s.mutex[m], BlockOn(s, t, m);
    assert Bounded(s.mutex[n], n, s.prio, s.status) && Bounded(x, m, s.prio, s.status);
    assert MutexOk(x);
    var h := x.holder.value;
    HolderIsCalm(s, m);
    var p := Larger(s.prio[h], s.prio[t]);
    if n != m {
      RaiseKeeps(s.mutex[n], n, s.prio, s.status, h, p);
      StatusKeeps(s.mutex[n], n, s.prio[h := p], s.status, t, Waiting(m));
    } else {
      JoinLine(s, t, m, h, p);
    }
  }

  lemma RaiseKeeps(x: Mutex, m: Id, prio: map<Task, nat>, status: map<Task, Status>, h: Task, p: nat)
    requires Bounded(x, m, prio, status) && p >= P(prio, h)
    requires !Is(status, h, Waiting(m)) && !Eligible(status, h, m)
    ensures Bounded(x, m, prio[h := p], status)
  {
    PrioKeeps(x, m, prio, status, h, p);
  }

  /** A holder is in no line. */
  lemma HolderIsCalm(s: System, m: Id)
    requires Good(s) && m in s.mutex && s.mutex[m].holder.Some?
    ensures var h := s.mutex[m].holder.value;
            h in s.base && s.held[h] > 0 && (s.status[h].Ready? || s.status[h].Asleep?)
  {
    hide Bounded;
    var h := s.mutex[m].holder.value;
    assert MutexShaped(s.mutex[m], s.base.Keys);
    HoldsSomething(s.mutex, m, h);
    assert TaskOk(s.base[h], s.prio[h], s.held[h], HeldBy(s.mutex, h)) && Calm(s.status[h], s.held[h]);
  }

  lemma JoinLine(s: System, t: Task, m: Id, h: Task, p: nat)
    requires Good(s) && CanTake(s, t, m) && s.mutex[m].holder == Some(h) && h != t && h in s.base
    requires !s.status[h].Waiting? && p == Larger(s.prio[h], s.prio[t])
    ensures var ts, prio' := Enlist(s.mutex[m].waiters, t, s.prio), s.prio[h := p];
            Lined(ts, m, prio', s.status[t := Waiting(m)]) && Tops(prio', h, ts)
  {
    hide TaskOk, HeldBy, MutexShaped, StatusShaped, Enlist;
    var ws := s.mutex[m].waiters;
    assert Bounded(s.mutex[m], m, s.prio, s.status);
    assert t !in ws && h !in ws;
    EnlistOrder(ws, t, s.prio);
    EnlistMembers(ws, t, s.prio);
  }

  /** The giver may fall back to its base priority: it holds nothing any more. */
  lemma ReleaseBounded(s: System, t: Task, m: Id, n: Id)
    requires Good(s) && t in s.base && m in s.mutex && s.mutex[m].holder == Some(t) && s.status[t] == Ready
    requires n in s.mutex && n != m
    ensures var s' := Release(s, t, m); Bounded(s'.mutex[n], n, s'.prio, s'.status)
  {
    hide MutexShaped, StatusShaped, Lined, HeldBy;
    var s' := Release(s, t, m);
    assert Bounded(s.mutex[n], n, s.prio, s.status);
    if s'.held[t] == 0 {
      assert s.mutex[n].holder != Some(t) by {
        ReleaseBooks(s, t, m);
        assert TaskOk(s'.base[t], s'.prio[t], s'.held[t], HeldBy(s'.mutex, t));
        if s'.mutex[n].holder == Some(t) { HoldsSomething(s'.mutex, n, t); }
      }
      PrioKeeps(s.mutex[n], n, s.prio, s.status, t, s.base[t]);
    }
  }

  lemma LineMoves(ws: seq<Task>, m: Id, prio: map<Task, nat>, status: map<Task, Status>)
    requires Lined(ws, m, prio, status) && ws != []
    ensures Lined(ws[1..], m, prio, status[ws[0] := Trying(m)]) && Tops(prio, ws[0], ws[1..])
  {
    assert ws == [ws[0]] + ws[1..] && ws[0] !in ws[1..];
    forall t ensures t in ws[1..] <==> Is(status[ws[0] := Trying(m)], t, Waiting(m)) {
      assert t in ws <==> t == ws[0] || t in ws[1..];
    }
  }

  lemma LinePrio(ws: seq<Task>, m: Id, prio: map<Task, nat>, status: map<Task, Status>, t: Task, p: nat)
    requires Lined(ws, m, prio, status) && t !in ws
    ensures Lined(ws, m, prio[t := p], status)
  {
    assert forall w :: w in ws ==> P(prio[t := p], w) == P(prio, w);
  }

  /** The first in line is woken, and tops those behind it. */
  lemma WakeBounded(s: System, t: Task, m: Id)
    requires Good(s) && t in s.base && m in s.mutex && s.mutex[m].holder == Some(t) && s.status[t] == Ready
    ensures var s' := HandOver(s, t, m); Bounded(s'.mutex[m], m, s'.prio, s'.status)
  {
    hide MutexShaped, StatusShaped, HeldBy, TaskOk, Lined, Tops;
    ReleaseShaped(s, t, m);
    var ws, s' := s.mutex[m].waiters, HandOver(s, t, m);
    assert Bounded(s.mutex[m], m, s.prio, s.status);
    if t in ws { InLine(s, m, t); }
    LinePrio(ws, m, s.prio, s.status, t, s.base[t]);
    if ws != [] {
      LineMoves(ws, m, s'.prio, s.status);
      assert Eligible(s'.status, ws[0], m) && Tops(s'.prio, ws[0], ws[1..]);
    }
  }

  lemma GiveBounded(s: System, t: Task, m: Id, n: Id)
    requires Good(s) && t in s.base && m in s.mutex && s.mutex[m].holder == Some(t) && s.status[t] == Ready
    requires n in s.mutex
    ensures var s' := HandOver(s, t, m); Bounded(s'.mutex[n], n, s'.prio, s'.status)
  {
    hide MutexShaped, StatusShaped, HeldBy, TaskOk, Lined, Tops;
    ReleaseShaped(s, t, m);
    if n == m {
      WakeBounded(s, t, m);
    } else {
      var s1, ws := Release(s, t, m), s.mutex[m].waiters;
      ReleaseBounded(s, t, m, n);
      if ws != [] {
        assert Is(s.status, ws[0], Waiting(m)) by { InLine(s, m, ws[0]); }
        StatusKeeps(s1.mutex[n], n, s1.prio, s1.status, ws[0], Trying(m));
      }
    }
  }

  lemma InLine(s: System, m: Id, w: Task)
    requires Good(s) && m in s.mutex && w in s.mutex[m].waiters
    ensures Is(s.status, w, Waiting(m))
  {
    hide Books;
    assert Bounded(s.mutex[m], m, s.prio, s.status);
  }

  lemma TimeOutBounded(s: System, t: Task, m: Id, n: Id)
    requires Good(s) && t in s.base && m in s.mutex && s.status[t] == Waiting(m) && n in s.mutex
    ensures var s' := TimeOut(s, t, m); Bounded(s'.mutex[n], n, s'.prio, s'.status)
  {
    hide MutexShaped, StatusShaped, HeldBy, TaskOk, Without;
    var s', ws := TimeOut(s, t, m), s.mutex[m].waiters;
    assert Bounded(s.mutex[n], n, s.prio, s.status) && Bounded(s.mutex[m], m, s.prio, s.status);
    if n != m {
      StatusKeeps(s.mutex[n], n, s.prio, s.status, t, Trying(m));
    } else {
      RemoveOrder(ws, t, s.prio);
      WithoutMembers(ws, t);
      var x' := s'.mutex[m];
      if x'.holder == None && x'.waiters != [] {
        assert x'.waiters[0] in ws;
        var u :| Eligible(s.status, u, m) && Tops(s.prio, u, ws);
        assert Eligible(s'.status, u, m) && Tops(s.prio, u, x'.waiters);
      }
    }
  }

  /** A call gets on or fails: whoever stops looking leaves a mutex that is held. */
  lemma ProgressBounded(s: System, e: Event, n: Id)
    requires Good(s) && Enabled(s, e) && (e.Late? || e.Fail? || e.Look?) && n in s.mutex
    ensures var s' := Next(s, e); s'.mutex == s.mutex && s'.prio == s.prio && Bounded(s.mutex[n], n, s'.prio, s'.status)
  {
    hide MutexShaped, HeldBy, TaskOk, Lined, Tops, Successor;
    var s' := Next(s, e);
    StatusOf(s, e);
    assert Bounded(s.mutex[n], n, s.prio, s.status) && MutexOk(s.mutex[n]);
    StatusKeeps(s.mutex[n], n, s.prio, s.status, e.task, s'.status[e.task]);
  }

  lemma StatusOf(s: System, e: Event)
    requires Shaped(s) && Enabled(s, e) && (e.Late? || e.Fail? || e.Look?)
    ensures var s' := Next(s, e); s'.mutex == s.mutex && s'.prio == s.prio && s'.held == s.held
    ensures e.task in s.base && Next(s, e).status == s.status[e.task := Next(s, e).status[e.task]]
  {
    QuietShaped(s, e);
  }

  /** After a time-out the holder, whoever it is by then, keeps the priority of the
      first still in line; it is not the task that timed out. */
  lemma GiveUpBounded(s: System, t: Task, m: Id, n: Id)
    requires Good(s) && t in s.base && m in s.mutex && s.status[t] == Leaving(m) && n in s.mutex
    ensures s.mutex[m].holder != Some(t)
    ensures var s' := GiveUp(s, t, m); s'.mutex == s.mutex && Bounded(s.mutex[n], n, s'.prio, s'.status)
  {
    hide MutexShaped, StatusShaped, HeldBy, TaskOk, Lined, Tops, MostUrgentWaiter, Successor;
    var x, s' := s.mutex[m], GiveUp(s, t, m);
    assert Bounded(s.mutex[n], n, s.prio, s.status);
    StatusKeeps(s.mutex[n], n, s.prio, s.status, t, Ready);
    if x.holder.Some? {
      var h := x.holder.value;
      HolderIsCalm(s, m);
      var p := Larger(s.base[h], MostUrgentWaiter(s, m));
      if s.held[h] == 1 {
        if n == m { FirstInLine(s, m); } else { OnlyHolding(s, h, m, n); }
        StaysAbove(s, n, h, p, t, Ready);
      }
    }
  }

  lemma StaysAbove(s: System, n: Id, h: Task, p: nat, t: Task, st: Status)
    requires n in s.mutex && Bounded(s.mutex[n], n, s.prio, s.status[t := st])
    requires h in s.status && h != t && (s.status[h].Ready? || s.status[h].Asleep?)
    requires s.mutex[n].holder == Some(h) ==> forall w :: w in s.mutex[n].waiters ==> P(s.prio, w) <= p
    ensures Bounded(s.mutex[n], n, s.prio[h := p], s.status[t := st])
  {
    PrioKeeps(s.mutex[n], n, s.prio, s.status[t := st], h, p);
  }

  lemma FirstInLine(s: System, m: Id)
    requires Good(s) && m in s.mutex
    ensures forall w :: w in s.mutex[m].waiters ==> P(s.prio, w) <= MostUrgentWaiter(s, m)
  {
    hide TaskOk, HeldBy, StatusShaped;
    assert Bounded(s.mutex[m], m, s.prio, s.status);
    assert MutexShaped(s.mutex[m], s.base.Keys);
    var ws := s.mutex[m].waiters;
    if ws != [] { assert ws[0] in ws; }
  }

  /** A task with one mutex holds no other. */
  lemma OnlyHolding(s: System, h: Task, m: Id, n: Id)
    requires Good(s) && h in s.base && s.held[h] == 1 && m in s.mutex && s.mutex[m].holder == Some(h) && n in s.mutex
    requires n != m
    ensures s.mutex[n].holder != Some(h)
  {
    hide Bounded;
    assert TaskOk(s.base[h], s.prio[h], s.held[h], HeldBy(s.mutex, h));
    if s.mutex[n].holder == Some(h) { TwoHoldings(s.mutex, h, m, n); }
  }

  lemma TwoHoldings(mutex: map<Id, Mutex>, h: Task, m: Id, n: Id)
    requires m in mutex && n in mutex && m != n && mutex[m].holder == mutex[n].holder == Some(h)
    ensures |HeldBy(mutex, h)| >= 2
  {
    assert HeldBy(mutex, h) == {m, n} + (HeldBy(mutex, h) - {m, n});
  }

  /** What the discipline and the waiting states have to do with the books. */
  lemma NextCalm(s: System, e: Event, u: Task)
    requires Good(s) && Enabled(s, e) && Disciplined(s, e) && u in s.base
    ensures var s' := Next(s, e); u in s'.status && u in s'.held && Calm(s'.status[u], s'.held[u])
  {
    hide Bounded, Shaped, HeldBy, TaskOk, MutexOk, TakeFree, BlockOn, HandOver, TimeOut, GiveUp;
    Keyed(s);
    assert Calm(s.status[u], s.held[u]);
    match e
    case Take(t, m) => TakeCalm(s, t, m);
    case Wait(t, m) => WaitCalm(s, t, m);
    case Give(t, m) => HandOverCalm(s, t, m, u);
    case _ => OwnCalm(s, e, u);
  }

  lemma Keyed(s: System)
    ensures Shaped(s) ==> Keys(s)
  {
  }

  lemma OwnCalm(s: System, e: Event, u: Task)
    requires Good(s) && Enabled(s, e) && Disciplined(s, e) && u in s.base && !e.Take? && !e.Wait? && !e.Give?
    ensures var s' := Next(s, e); u in s'.status && u in s'.held && Calm(s'.status[u], s'.held[u])
  {
    hide Bounded, MutexShaped, StatusShaped, HeldBy, TaskOk, MutexOk, TimeOut, GiveUp;
    assert Calm(s.status[u], s.held[u]) && Calm(s.status[e.task], s.held[e.task]);
    match e
    case Expire(t) => StatusId(s, t); GiveUpCalm(s, t, s.status[t].m);
    case Leave(t) => StatusId(s, t); GiveUpCalm(s, t, s.status[t].m);
    case Late(t, m) => StatusOf(s, e);
    case Fail(t, m) => StatusOf(s, e);
    case Look(t) => StatusOf(s, e);
    case _ =>
  }

  lemma StatusId(s: System, t: Task)
    requires Shaped(s) && t in s.base && (s.status[t].Waiting? || s.status[t].Leaving?)
    ensures s.status[t].m in s.mutex
  {
    assert StatusShaped(s.status[t], s.mutex.Keys);
  }

  lemma TakeCalm(s: System, t: Task, m: Id)
    requires Shaped(s) && CanTake(s, t, m) && s.mutex[m].count > 0
    ensures var s' := TakeFree(s, t, m); s'.status == s.status[t := Ready] && s'.held == s.held[t := s.held[t] + 1]
  {
  }

  lemma WaitCalm(s: System, t: Task, m: Id)
    requires Shaped(s) && CanTake(s, t, m)
    ensures var s' := BlockOn(s, t, m); s'.status == s.status[t := Waiting(m)] && s'.held == s.held
  {
    hide Enlist, MutexShaped, StatusShaped;
  }

  lemma GiveUpCalm(s: System, t: Task, m: Id)
    requires Shaped(s) && t in s.base && m in s.mutex
    ensures var s' := GiveUp(s, t, m); s'.held == s.held && s'.status == s.status[t := Ready]
    ensures var s' := TimeOut(s, t, m); s'.held == s.held && s'.status == s.status[t := Trying(m)]
  {
    hide Without, MutexShaped, StatusShaped, MostUrgentWaiter;
  }

  lemma HandOverCalm(s: System, t: Task, m: Id, u: Task)
    requires Good(s) && t in s.base && m in s.mutex && s.status[t] == Ready && u in s.base
    ensures var s' := HandOver(s, t, m); u in s'.status && u in s'.held && Calm(s'.status[u], s'.held[u])
  {
    hide Bounded, MutexShaped, StatusShaped, HeldBy, TaskOk, MutexOk;
    assert Calm(s.status[u], s.held[u]);
    ReleaseShaped(s, t, m);
    if u in s.mutex[m].waiters { InLine(s, m, u); }
  }

  lemma NextBounded(s: System, e: Event, n: Id)
    requires Good(s) && Enabled(s, e) && Disciplined(s, e) && n in s.mutex
    ensures var s' := Next(s, e); n in s'.mutex && Bounded(s'.mutex[n], n, s'.prio, s'.status)
  {
    hide Bounded, MutexShaped, HeldBy, TaskOk, MutexOk, TakeFree, BlockOn, HandOver, TimeOut, GiveUp;
    NextIds(s, e);
    match e
    case Take(t, m) => TakeBounded(s, t, m, n);
    case Again(t, m) => DepthBounded(s, m, s.mutex[m].depth + 1, n);
    case Wait(t, m) => WaitBounded(s, t, m, n);
    case Give(t, m) =>
      if s.mutex[m].depth > 1 { DepthBounded(s, m, s.mutex[m].depth - 1, n); } else { GiveBounded(s, t, m, n); }
    case Expire(t) => TimeOutBounded(s, t, s.status[t].m, n);
    case Leave(t) => GiveUpBounded(s, t, s.status[t].m, n);
    case Late(_, _) => ProgressBounded(s, e, n);
    case Fail(_, _) => ProgressBounded(s, e, n);
    case Look(_) => ProgressBounded(s, e, n);
    case Sleep(t) => StatusKeeps(s.mutex[n], n, s.prio, s.status, t, Asleep);
    case Awake(t) => StatusKeeps(s.mutex[n], n, s.prio, s.status, t, Ready);
  }

  lemma NextIds(s: System, e: Event)
    requires Shaped(s) && Enabled(s, e)
    ensures Next(s, e).mutex.Keys == s.mutex.Keys && Next(s, e).base == s.base
  {
    hide MutexShaped, Enlist, Without, MostUrgentWaiter, HandOver;
    if e.Give? { HandOverIds(s, e.task, e.m); }
  }

  lemma HandOverIds(s: System, t: Task, m: Id)
    requires Shaped(s) && t in s.base && m in s.mutex
    ensures HandOver(s, t, m).mutex.Keys == s.mutex.Keys && HandOver(s, t, m).base == s.base
  {
    hide MutexShaped, StatusShaped;
  }

  lemma DepthBounded(s: System, m: Id, d: nat, n: Id)
    requires Good(s) && m in s.mutex && n in s.mutex
    ensures Bounded(Deepen(s, m, d).mutex[n], n, s.prio, s.status)
  {
    hide Books, Lined, Tops, Successor;
    assert Bounded(s.mutex[n], n, s.prio, s.status);
  }

  /** Every disciplined step keeps the bound. */
  lemma NextKeeps(s: System, e: Event)
    requires Good(s) && Enabled(s, e) && Disciplined(s, e)
    ensures Good(Next(s, e))
  {
    NextBooks(s, e);
    NextIds(s, e);
    forall m | m in s.mutex ensures var s' := Next(s, e); m in s'.mutex && Bounded(s'.mutex[m], m, s'.prio, s'.status) {
      NextBounded(s, e, m);
    }
    forall t | t in s.base
      ensures var s' := Next(s, e); t in s'.status && t in s'.held && Calm(s'.status[t], s'.held[t])
    {
      NextCalm(s, e, t);
    }
    hide Books, Bounded, Calm, Next;
  }

  // --------------------------------------------------------------------- runs

  ghost predicate Runs(s: System, es: seq<Event>)
    requires Books(s)
    decreases |es|
  {
    es == [] || (Enabled(s, es[0]) && (NextBooks(s, es[0]); Runs(Next(s, es[0]), es[1..])))
  }

  /** The books are right in every state a run reaches. */
  ghost function Run(s: System, es: seq<Event>): (s': System)
    requires Books(s) && Runs(s, es)
    ensures Books(s')
    decreases |es|
  {
    if es == [] then s else NextBooks(s, es[0]); Run(Next(s, es[0]), es[1..])
  }

  ghost predicate AllDisciplined(s: System, es: seq<Event>)
    requires Books(s) && Runs(s, es)
    decreases |es|
  {
    es == [] || (Disciplined(s, es[0]) && (NextBooks(s, es[0]); AllDisciplined(Next(s, es[0]), es[1..])))
  }

  /** Every task ready at its base priority, every mutex free. */
  predicate Start(s: System) {
    && Keys(s) && s.prio == s.base
    && (forall t :: t in s.held ==> s.held[t] == 0) && (forall t :: t in s.status ==> s.status[t] == Ready)
    && (forall m :: m in s.mutex ==> s.mutex[m] == Mutex(1, None, 0, []))
  }

  lemma StartIsGood(s: System)
    requires Start(s)
    ensures Good(s)
  {
    forall t | t in s.base ensures TaskOk(s.base[t], s.prio[t], s.held[t], HeldBy(s.mutex, t)) {
      assert HeldBy(s.mutex, t) == {};
    }
  }

  lemma {:induction false} RunKeeps(s: System, es: seq<Event>)
    requires Good(s) && Runs(s, es) && AllDisciplined(s, es)
    ensures Good(Run(s, es))
    decreases |es|
  {
    hide MutexOk, TaskOk, HeldBy, Bounded, Calm, Next, Enabled, Disciplined, Shaped;
    if es != [] {
      NextBooks(s, es[0]);
      NextKeeps(s, es[0]);
      RunKeeps(Next(s, es[0]), es[1..]);
    }
  }

  /** Through inheriting, giving, retaking and time-outs, no holder ever runs at a
      lower priority than a task that waits for its mutex. */
  lemma InversionBounded(s: System, es: seq<Event>, m: Id, h: Task, w: Task)
    requires Good(s) && Runs(s, es) && AllDisciplined(s, es)
    requires m in Run(s, es).mutex && Run(s, es).mutex[m].holder == Some(h) && w in Run(s, es).mutex[m].waiters
    ensures P(Run(s, es).prio, w) <= P(Run(s, es).prio, h)
  {
    hide Books, Runs, AllDisciplined, Run, Lined, Calm;
    RunKeeps(s, es);
    assert Bounded(Run(s, es).mutex[m], m, Run(s, es).prio, Run(s, es).status);
  }
}

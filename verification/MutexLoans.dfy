/** Priorities that waiters lend to the holder of a mutex, and how they get them back. */
module MutexLoans {
  import opened Basics
  import opened Mutexes
  import opened MutexBooks
  import opened MutexInversion
  import opened Rings

  /** xInheritanceOccurred is set exactly for a waiter more urgent than the holder's own
      priority, whatever others have lent already. */
  lemma LentExactly(s: System, t: Task, m: Id)
    requires Books(s) && Enabled(s, Wait(t, m))
    ensures var s', x := Next(s, Wait(t, m)), s.mutex[m];
            && x.holder.Some? && x.holder.value in s.base && t in s'.inherited && x.holder.value in s'.prio
            && (s'.inherited[t] <==> s.base[x.holder.value] < s.prio[t])
            && s'.prio == s.prio[x.holder.value := Larger(s.prio[x.holder.value], s.prio[t])]
  {
    hide TaskOk, HeldBy, Enlist, MutexShaped, StatusShaped;
    assert MutexOk(s.mutex[m]);
    HolderKnown(s, m);
  }

  /** The task that gives up leaves the holder of this mutex alone the larger of its own
      priority and those of the tasks still waiting; a holder of more keeps what it has. */
  lemma LeftWithTheRest(s: System, t: Task, h: Task)
    requires Good(s) && Enabled(s, Leave(t)) && s.mutex[s.status[t].m].holder == Some(h)
    ensures var ws, p := s.mutex[s.status[t].m].waiters, P(Next(s, Leave(t)).prio, h);
            && h in s.base
            && (s.held[h] == 1 ==>
                  && p >= s.base[h] && Tops(Next(s, Leave(t)).prio, h, ws)
                  && (p == s.base[h] || exists w :: w in ws && p == P(s.prio, w)))
            && (s.held[h] != 1 ==> Next(s, Leave(t)).prio == s.prio)
  {
    hide TaskOk, HeldBy;
    var m := s.status[t].m;
    assert StatusShaped(s.status[t], s.mutex.Keys);
    HolderKnown(s, m);
    FirstInLine(s, m);
    assert MutexShaped(s.mutex[m], s.base.Keys);
    assert Bounded(s.mutex[m], m, s.prio, s.status);
    var ws := s.mutex[m].waiters;
    if ws != [] { assert ws[0] in ws; }
  }

  lemma {:induction false} EnlistUndone(ts: seq<Task>, t: Task, prio: map<Task, nat>)
    requires t in prio && (forall x :: x in ts ==> x in prio) && t !in ts
    ensures Without(Enlist(ts, t, prio), t) == ts
    decreases |ts|
  {
    hide Without;
    var r := Enlist(ts, t, prio);
    WithoutCons(r, t);
    if ts != [] {
      assert ts == [ts[0]] + ts[1..];
      if prio[ts[0]] >= prio[t] {
        assert r[1..] == Enlist(ts[1..], t, prio);
        EnlistUndone(ts[1..], t, prio);
      } else {
        assert r[1..] == ts;
      }
    }
  }

  lemma RunCons(s: System, e: Event, es: seq<Event>)
    requires Books(s) && Enabled(s, e) && Books(Next(s, e)) && Runs(Next(s, e), es)
    ensures Runs(s, [e] + es) && Run(s, [e] + es) == Run(Next(s, e), es)
  {
    assert ([e] + es)[1..] == es;
  }

  /** `t` waits for m, its time is over, and the mutex is still held. */
  function GivingUp(t: Task, m: Id, lent: bool): seq<Event> {
    [Wait(t, m), Expire(t), Late(t, m), Look(t)] + if lent then [Leave(t)] else []
  }

  /** How far it has come: `n` of the steps. */
  function Midway(s: System, t: Task, m: Id, h: Task, n: nat): System
    requires Shaped(s) && CanTake(s, t, m) && h in s.base
  {
    var x := s.mutex[m];
    var lent := s.base[h] < s.prio[t];
    s.(prio := s.prio[h := Larger(s.prio[h], s.prio[t])], inherited := s.inherited[t := lent],
       mutex := if n == 1 then s.mutex[m := x.(waiters := Enlist(x.waiters, t, s.prio))] else s.mutex,
       status := s.status[t := if n == 1 then Waiting(m) else if n == 2 then Trying(m) else if n == 3 then Expired(m)
                               else if lent then Leaving(m) else Ready])
  }

  /** The holder's priority is its own or what the first in line has lent. */
  predicate Fair(s: System, m: Id, h: Task)
    requires Shaped(s) && m in s.mutex && h in s.base
  {
    s.mutex[m].holder == Some(h) && s.held[h] == 1 && s.prio[h] == Larger(s.base[h], MostUrgentWaiter(s, m))
  }

  lemma WaitStep(s: System, t: Task, m: Id, h: Task)
    requires Good(s) && Enabled(s, Wait(t, m)) && h in s.base && Fair(s, m, h)
    ensures Next(s, Wait(t, m)) == Midway(s, t, m, h, 1) && Books(Midway(s, t, m, h, 1))
  {
    hide TaskOk, HeldBy, Enlist, MutexShaped, StatusShaped, Bounded, Calm, MutexOk;
    NextBooks(s, Wait(t, m));
    HolderKnown(s, m);
  }

  lemma ExpireStep(s: System, t: Task, m: Id, h: Task)
    requires Good(s) && Enabled(s, Wait(t, m)) && h in s.base && Fair(s, m, h) && Books(Midway(s, t, m, h, 1))
    ensures var s1, s2 := Midway(s, t, m, h, 1), Midway(s, t, m, h, 2);
            Enabled(s1, Expire(t)) && Next(s1, Expire(t)) == s2 && Books(s2)
  {
    hide TaskOk, HeldBy, Enlist, Without, MutexShaped, StatusShaped, Bounded, Calm, MutexOk, MostUrgentWaiter;
    NextBooks(Midway(s, t, m, h, 1), Expire(t));
    LineUndone(s, t, m);
    assert s.mutex == s.mutex[m := s.mutex[m]];
  }

  lemma LineUndone(s: System, t: Task, m: Id)
    requires Good(s) && Enabled(s, Wait(t, m))
    ensures var ws := s.mutex[m].waiters;
            (forall x :: x in ws ==> x in s.prio) && Without(Enlist(ws, t, s.prio), t) == ws
  {
    hide TaskOk, HeldBy, Without, StatusShaped, Calm, MutexOk;
    assert Bounded(s.mutex[m], m, s.prio, s.status);
    assert MutexShaped(s.mutex[m], s.base.Keys);
    EnlistUndone(s.mutex[m].waiters, t, s.prio);
  }

  lemma LateStep(s: System, t: Task, m: Id, h: Task)
    requires Good(s) && Enabled(s, Wait(t, m)) && h in s.base && Books(Midway(s, t, m, h, 2))
    ensures var s2, s3 := Midway(s, t, m, h, 2), Midway(s, t, m, h, 3);
            Enabled(s2, Late(t, m)) && Next(s2, Late(t, m)) == s3 && Books(s3)
  {
    hide TaskOk, HeldBy, Enlist, MutexShaped, StatusShaped, Bounded, Calm, MutexOk;
    NextBooks(Midway(s, t, m, h, 2), Late(t, m));
  }

  lemma LookStep(s: System, t: Task, m: Id, h: Task)
    requires Good(s) && Enabled(s, Wait(t, m)) && h in s.base && Books(Midway(s, t, m, h, 3))
    ensures var s3, s4 := Midway(s, t, m, h, 3), Midway(s, t, m, h, 4);
            Enabled(s3, Look(t)) && Next(s3, Look(t)) == s4 && Books(s4)
  {
    hide TaskOk, HeldBy, Enlist, MutexShaped, StatusShaped, Bounded, Calm, MutexOk;
    NextBooks(Midway(s, t, m, h, 3), Look(t));
  }

  lemma LeaveStep(s: System, t: Task, m: Id, h: Task)
    requires Good(s) && Enabled(s, Wait(t, m)) && h in s.base && Fair(s, m, h) && s.base[h] < s.prio[t]
    requires Books(Midway(s, t, m, h, 4))
    ensures var s4 := Midway(s, t, m, h, 4);
            && Enabled(s4, Leave(t)) && Books(Next(s4, Leave(t)))
            && Next(s4, Leave(t)).(inherited := s.inherited) == s.(status := s.status[t := Ready])
  {
    hide TaskOk, HeldBy, Enlist, StatusShaped, MutexShaped, Calm, MutexOk, Bounded, MostUrgentWaiter, Next;
    var s4 := Midway(s, t, m, h, 4);
    NextBooks(s4, Leave(t));
    FirstStands(s, s4, m, h);
    LeaveIs(s4, t, m, h);
    assert s4.prio[h := s.prio[h]] == s.prio;
    assert s4.status[t := Ready] == s.status[t := Ready];
  }

  lemma LeaveIs(s: System, t: Task, m: Id, h: Task)
    requires Shaped(s) && Enabled(s, Leave(t)) && s.status[t] == Leaving(m) && m in s.mutex && h in s.base
    requires s.mutex[m].holder == Some(h) && s.held[h] == 1
    ensures Next(s, Leave(t)) ==
              s.(status := s.status[t := Ready], prio := s.prio[h := Larger(s.base[h], MostUrgentWaiter(s, m))])
  {
    hide StatusShaped, MutexShaped, MostUrgentWaiter;
    assert s.prio == s.prio[h := s.prio[h]];
  }

  /** The holder is not in line itself, so its priority does not matter to the line. */
  lemma FirstStands(s: System, s': System, m: Id, h: Task)
    requires Good(s) && Shaped(s') && m in s.mutex && s.mutex[m].holder == Some(h) && s'.mutex == s.mutex
    requires forall u :: u in s.prio && u != h ==> u in s'.prio && s'.prio[u] == s.prio[u]
    ensures MostUrgentWaiter(s', m) == MostUrgentWaiter(s, m)
  {
    hide TaskOk, HeldBy, StatusShaped, Calm, MutexOk;
    HolderIsCalm(s, m);
    assert MutexShaped(s.mutex[m], s.base.Keys);
    assert Bounded(s.mutex[m], m, s.prio, s.status);
    var ws := s.mutex[m].waiters;
    if ws != [] { assert ws[0] in ws && Is(s.status, ws[0], Waiting(m)); }
  }

  lemma NothingLent(s: System, t: Task, m: Id, h: Task)
    requires Good(s) && Enabled(s, Wait(t, m)) && h in s.base && s.base[h] >= s.prio[t]
    ensures Midway(s, t, m, h, 4).(inherited := s.inherited) == s.(status := s.status[t := Ready])
  {
    hide HeldBy, Enlist, StatusShaped, Bounded, Calm, MutexOk;
    assert s.prio == s.prio[h := s.prio[h]];
  }

  /** A wait that times out leaves no trace: the holder is back at the priority it had,
      and the others wait in the order they had. */
  lemma WaitUndone(s: System, t: Task, m: Id, h: Task)
    requires Good(s) && Enabled(s, Wait(t, m)) && h in s.base && Fair(s, m, h)
    ensures var es := GivingUp(t, m, s.base[h] < s.prio[t]);
            Runs(s, es) && Run(s, es).(inherited := s.inherited) == s.(status := s.status[t := Ready])
  {
    hide MutexOk, TaskOk, HeldBy, Enlist, MutexShaped, StatusShaped, Bounded, Calm, Next, Fair, Runs, Run;
    var lent := s.base[h] < s.prio[t];
    WaitStep(s, t, m, h);
    ExpireStep(s, t, m, h);
    LateStep(s, t, m, h);
    LookStep(s, t, m, h);
    var s4 := Midway(s, t, m, h, 4);
    var rest := if lent then [Leave(t)] else [];
    if lent { LeaveStep(s, t, m, h); } else { NothingLent(s, t, m, h); }
    RunEnd(s4, rest);
    hide Midway;
    RunFour(s, Wait(t, m), Expire(t), Late(t, m), Look(t), rest);
  }

  lemma RunEnd(s: System, es: seq<Event>)
    requires Books(s) && |es| <= 1 && (|es| == 1 ==> Enabled(s, es[0]) && Books(Next(s, es[0])))
    ensures Runs(s, es) && Run(s, es) == if es == [] then s else Next(s, es[0])
  {
    hide Books, Next;
    if es != [] {
      RunCons(s, es[0], []);
      assert [es[0]] + [] == es;
    }
  }

  lemma RunFour(s: System, e1: Event, e2: Event, e3: Event, e4: Event, rest: seq<Event>)
    requires Books(s) && Enabled(s, e1) && Books(Next(s, e1)) && Enabled(Next(s, e1), e2)
    requires var s2 := Next(Next(s, e1), e2); Books(s2) && Enabled(s2, e3) && Books(Next(s2, e3))
    requires var s3 := Next(Next(Next(s, e1), e2), e3); Enabled(s3, e4) && Books(Next(s3, e4))
    requires Runs(Next(Next(Next(Next(s, e1), e2), e3), e4), rest)
    ensures var es := [e1, e2, e3, e4] + rest;
            Runs(s, es) && Run(s, es) == Run(Next(Next(Next(Next(s, e1), e2), e3), e4), rest)
  {
    hide MutexOk, TaskOk, HeldBy, MutexShaped, StatusShaped, Enabled, Next, Runs, Run;
    var s1 := Next(s, e1);
    var s2 := Next(s1, e2);
    var s3 := Next(s2, e3);
    RunCons(s3, e4, rest);
    RunCons(s2, e3, [e4] + rest);
    RunCons(s1, e2, [e3] + ([e4] + rest));
    RunCons(s, e1, [e2] + ([e3] + ([e4] + rest)));
    assert [e1, e2, e3, e4] + rest == [e1] + ([e2] + ([e3] + ([e4] + rest)));
  }
}

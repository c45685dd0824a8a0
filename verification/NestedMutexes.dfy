/** A run in which a task waits for one mutex while it holds another, and gives up. */
module NestedMutexes {
  import opened Basics
  import opened Rings
  import opened Mutexes
  import opened MutexBooks
  import opened MutexInversion
  import opened MutexTimeouts

  ghost predicate AllUrgent(s: System, es: seq<Event>)
    requires Books(s) && Runs(s, es)
    decreases |es|
  {
    es == [] || (Urgent(s, es[0]) && (NextBooks(s, es[0]); AllUrgent(Next(s, es[0]), es[1..])))
  }

  ghost predicate Reaches(s: System, es: seq<Event>, s': System) {
    Books(s) && Runs(s, es) && AllUrgent(s, es) && Run(s, es) == s'
  }

  ghost predicate Goes(s: System, e: Event, s': System)
    requires Shaped(s)
  {
    Enabled(s, e) && Urgent(s, e) && Next(s, e) == s'
  }

  lemma Reached(s: System, es: seq<Event>, s': System)
    requires Reaches(s, es, s')
    ensures Shaped(s')
  {
  }

  lemma One(s: System, e: Event, s': System)
    requires Books(s) && Goes(s, e, s')
    ensures Reaches(s, [e], s')
  {
    hide HeldBy, TaskOk, MutexOk, Shaped, Next, Enabled, Urgent;
    NextBooks(s, e);
    var rest: seq<Event> := [e][1..];
    assert rest == [];
    assert Runs(s', rest) && AllUrgent(s', rest) && Run(s', rest) == s';
  }

  lemma {:induction false} Extend(s: System, es: seq<Event>, s': System, e: Event, s'': System)
    requires Reaches(s, es, s') && Shaped(s') && Goes(s', e, s'')
    ensures Reaches(s, es + [e], s'')
    decreases |es|
  {
    hide HeldBy, TaskOk, MutexOk, Shaped, Next, Enabled, Urgent;
    if es == [] {
      One(s, e, s'');
      assert [] + [e] == [e];
    } else {
      NextBooks(s, es[0]);
      Extend(Next(s, es[0]), es[1..], s', e, s'');
      assert (es + [e])[1..] == es[1..] + [e] && (es + [e])[0] == es[0];
    }
  }

  const FREE := Mutex(1, None, 0, [])

  function Held(t: Task, ws: seq<Task>): Mutex { Mutex(0, Some(t), 1, ws) }

  function Four<T>(a: T, b: T, c: T, d: T): map<Task, T> { map[0 := a, 1 := b, 2 := c, 3 := d] }

  function Two(a: Mutex, b: Mutex): map<Id, Mutex> { map[0 := a, 1 := b] }

  /** What changes: priorities, held counts, status and inheritance of tasks 1 to 3. */
  datatype Setup = Setup(p1: nat, p2: nat, h1: nat, h2: nat, st2: Status, st3: Status, i2: bool, i3: bool, a: Mutex,
                         b: Mutex)

  /** Tasks 0 to 3 with base priorities 0 to 3, and the mutexes 0 and 1. */
  function State(c: Setup): System {
    System(Four(0, 1, 2, 3), Four(0, c.p1, c.p2, 3), Four(0, c.h1, c.h2, 0), Four(Ready, Ready, c.st2, c.st3),
           Four(false, false, c.i2, c.i3), Two(c.a, c.b))
  }

  lemma FourIs<T>(a: T, b: T, c: T, d: T)
    ensures var m := Four(a, b, c, d); m.Keys == {0, 1, 2, 3} && m[0] == a && m[1] == b && m[2] == c && m[3] == d
  {
  }

  lemma Put<T>(a: T, b: T, c: T, d: T, x: T)
    ensures Four(a, b, c, d)[1 := x] == Four(a, x, c, d) && Four(a, b, c, d)[2 := x] == Four(a, b, x, d)
    ensures Four(a, b, c, d)[3 := x] == Four(a, b, c, x)
  {
  }

  lemma Known(c: Setup)
    ensures var s := State(c);
            && s.base.Keys == s.prio.Keys == s.held.Keys == s.status.Keys == s.inherited.Keys == {0, 1, 2, 3}
            && s.mutex.Keys == {0, 1}
            && s.base[1] == 1 && s.base[2] == 2 && s.prio[0] == 0 && s.prio[1] == c.p1 && s.prio[2] == c.p2
            && s.prio[3] == 3
            && s.held[1] == c.h1 && s.held[2] == c.h2 && s.status[0] == s.status[1] == Ready && s.status[2] == c.st2
            && s.status[3] == c.st3
            && s.inherited[2] == c.i2 && s.inherited[3] == c.i3 && s.mutex[0] == c.a && s.mutex[1] == c.b
  {
    hide Four;
    FourIs<nat>(0, 1, 2, 3);
    FourIs(0, c.p1, c.p2, 3);
    FourIs(0, c.h1, c.h2, 0);
    FourIs(Ready, Ready, c.st2, c.st3);
    FourIs(false, false, c.i2, c.i3);
  }

  lemma SetStatus(c: Setup, st: Status)
    ensures State(c).status[2 := st] == State(c.(st2 := st)).status
    ensures State(c).status[3 := st] == State(c.(st3 := st)).status
    ensures State(c).status[1 := Ready] == State(c).status
  {
    hide Four;
    Put(Ready, Ready, c.st2, c.st3, st);
    Put(Ready, Ready, c.st2, c.st3, Ready);
  }

  lemma SetPrio(c: Setup, p: nat)
    ensures State(c).prio[1 := p] == State(c.(p1 := p)).prio && State(c).prio[2 := p] == State(c.(p2 := p)).prio
  {
    hide Four;
    Put(0, c.p1, c.p2, 3, p);
  }

  lemma SetHeld(c: Setup, n: nat)
    ensures State(c).held[1 := n] == State(c.(h1 := n)).held && State(c).held[2 := n] == State(c.(h2 := n)).held
  {
    hide Four;
    Put(0, c.h1, c.h2, 0, n);
  }

  lemma SetInherited(c: Setup, i: bool)
    ensures State(c).inherited[2 := i] == State(c.(i2 := i)).inherited
    ensures State(c).inherited[3 := i] == State(c.(i3 := i)).inherited
  {
    hide Four;
    Put(false, false, c.i2, c.i3, i);
  }

  lemma SetMutex(c: Setup, x: Mutex)
    ensures State(c).mutex[0 := x] == State(c.(a := x)).mutex && State(c).mutex[1 := x] == State(c.(b := x)).mutex
  {
  }

  const C0 := Setup(1, 2, 0, 0, Ready, Ready, false, false, FREE, FREE)
  const C1 := C0.(st3 := Asleep)
  const C2 := C1.(st2 := Asleep)
  const C3 := C2.(h1 := 1, a := Held(1, []))
  const C4 := C3.(st2 := Ready)
  const C5 := C4.(h2 := 1, b := Held(2, []))
  const C6 := C5.(p1 := 2, st2 := Waiting(0), i2 := true, a := Held(1, [2]))
  const C7 := C6.(st3 := Ready)
  const C8 := C7.(p2 := 3, st3 := Waiting(1), i3 := true, b := Held(2, [3]))
  const C9 := C8.(st2 := Trying(0), a := Held(1, []))
  const C10 := C9.(st2 := Expired(0))
  const C11 := C10.(st2 := Leaving(0))

  lemma Go0()
    requires Shaped(State(C0))
    ensures Goes(State(C0), Sleep(3), State(C1))
  {
    hide Shaped, Four, Two;
    Known(C0);
    SetStatus(C0, Asleep);
  }

  lemma Go1()
    requires Shaped(State(C1))
    ensures Goes(State(C1), Sleep(2), State(C2))
  {
    hide Shaped, Four, Two;
    Known(C1);
    SetStatus(C1, Asleep);
  }

  lemma May2()
    requires Shaped(State(C2))
    ensures Enabled(State(C2), Take(1, 0)) && Urgent(State(C2), Take(1, 0))
  {
    hide Shaped, Four, Two;
    Known(C2);
  }

  lemma Go2()
    requires Shaped(State(C2))
    ensures Goes(State(C2), Take(1, 0), State(C3))
  {
    hide Shaped, Four, Two, Urgent;
    Known(C2);
    May2();
    SetHeld(C2, 1); SetMutex(C2, Held(1, [])); SetStatus(C2, Ready);
  }

  lemma Go3()
    requires Shaped(State(C3))
    ensures Goes(State(C3), Awake(2), State(C4))
  {
    hide Shaped, Four, Two;
    Known(C3);
    SetStatus(C3, Ready);
  }

  lemma May4()
    requires Shaped(State(C4))
    ensures Enabled(State(C4), Take(2, 1)) && Urgent(State(C4), Take(2, 1))
  {
    hide Shaped, Four, Two;
    Known(C4);
  }

  lemma Go4()
    requires Shaped(State(C4))
    ensures Goes(State(C4), Take(2, 1), State(C5))
  {
    hide Shaped, Four, Two, Urgent;
    Known(C4);
    May4();
    SetHeld(C4, 1); SetMutex(C4, Held(2, [])); SetStatus(C4, Ready);
  }

  lemma Go5()
    requires Shaped(State(C5))
    ensures Goes(State(C5), Wait(2, 0), State(C6))
  {
    hide Shaped, Four, Two;
    Known(C5);
    SetPrio(C5, 2); SetStatus(C5, Waiting(0)); SetInherited(C5, true); SetMutex(C5, Held(1, [2]));
  }

  lemma Go6()
    requires Shaped(State(C6))
    ensures Goes(State(C6), Awake(3), State(C7))
  {
    hide Shaped, Four, Two;
    Known(C6);
    SetStatus(C6, Ready);
  }

  lemma Go7()
    requires Shaped(State(C7))
    ensures Goes(State(C7), Wait(3, 1), State(C8))
  {
    hide Shaped, Four, Two;
    Known(C7);
    SetPrio(C7, 3); SetStatus(C7, Waiting(1)); SetInherited(C7, true); SetMutex(C7, Held(2, [3]));
  }

  lemma Go8()
    requires Shaped(State(C8))
    ensures Goes(State(C8), Expire(2), State(C9))
  {
    hide Shaped, Four, Two, Without;
    Known(C8);
    SetStatus(C8, Trying(0)); SetMutex(C8, Held(1, [])); Gone();
  }

  lemma Go9()
    requires Shaped(State(C9))
    ensures Goes(State(C9), Late(2, 0), State(C10))
  {
    hide Shaped, Four, Two;
    Known(C9);
    SetStatus(C9, Expired(0)); SetInherited(C9, true);
  }

  lemma Go10()
    requires Shaped(State(C10))
    ensures Goes(State(C10), Look(2), State(C11))
  {
    hide Shaped, Four, Two;
    Known(C10);
    SetStatus(C10, Leaving(0));
  }

  lemma Gone()
    ensures Without<Task>([2], 2) == []
  {
  }

  /** Task 1 holds mutex 0.  Task 2 holds mutex 1 and waits for mutex 0, so task 1
      inherits its priority.  Task 3 waits for mutex 1, so task 2 inherits in turn,
      and is then more urgent than task 1 when its own wait times out. */
  lemma NestedTimeout() returns (es: seq<Event>)
    ensures Start(State(C0)) && Reaches(State(C0), es, State(C11))
  {
    hide Reaches, Goes, Shaped, State;
    StartReaches();
    es := [];
    Reached(State(C0), es, State(C0)); Go0(); Extend(State(C0), es, State(C0), Sleep(3), State(C1));
    es := es + [Sleep(3)];
    Reached(State(C0), es, State(C1)); Go1(); Extend(State(C0), es, State(C1), Sleep(2), State(C2));
    es := es + [Sleep(2)];
    Reached(State(C0), es, State(C2)); Go2(); Extend(State(C0), es, State(C2), Take(1, 0), State(C3));
    es := es + [Take(1, 0)];
    Reached(State(C0), es, State(C3)); Go3(); Extend(State(C0), es, State(C3), Awake(2), State(C4));
    es := es + [Awake(2)];
    Reached(State(C0), es, State(C4)); Go4(); Extend(State(C0), es, State(C4), Take(2, 1), State(C5));
    es := es + [Take(2, 1)];
    Reached(State(C0), es, State(C5)); Go5(); Extend(State(C0), es, State(C5), Wait(2, 0), State(C6));
    es := es + [Wait(2, 0)];
    Reached(State(C0), es, State(C6)); Go6(); Extend(State(C0), es, State(C6), Awake(3), State(C7));
    es := es + [Awake(3)];
    Reached(State(C0), es, State(C7)); Go7(); Extend(State(C0), es, State(C7), Wait(3, 1), State(C8));
    es := es + [Wait(3, 1)];
    Reached(State(C0), es, State(C8)); Go8(); Extend(State(C0), es, State(C8), Expire(2), State(C9));
    es := es + [Expire(2)];
    Reached(State(C0), es, State(C9)); Go9(); Extend(State(C0), es, State(C9), Late(2, 0), State(C10));
    es := es + [Late(2, 0)];
    Reached(State(C0), es, State(C10)); Go10(); Extend(State(C0), es, State(C10), Look(2), State(C11));
    es := es + [Look(2)];
  }

  lemma StartReaches()
    ensures Start(State(C0)) && Reaches(State(C0), [], State(C0))
  {
    StartIsGood(State(C0));
  }
}

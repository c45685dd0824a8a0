/** Recursive mutexes: a task holds one as long as it has taken it more often than
    given it back. */
module RecursiveMutexes {
  import opened Basics
  import opened Mutexes
  import opened MutexBooks
  import opened MutexInversion

  /** How deep `t` is in the mutex. */
  function Depth(s: System, t: Task, m: Id): nat {
    if m in s.mutex && s.mutex[m].holder == Some(t) then s.mutex[m].depth else 0
  }

  /** A take, first or recursive, goes one deeper and a give one back. */
  function Change(e: Event, t: Task, m: Id): int {
    if e == Take(t, m) || e == Again(t, m) then 1 else if e == Give(t, m) then -1 else 0
  }

  /** The takes of `m` by `t`, less its gives. */
  function Balance(es: seq<Event>, t: Task, m: Id): int {
    if es == [] then 0 else Change(es[0], t, m) + Balance(es[1..], t, m)
  }

  lemma NextDepth(s: System, e: Event, t: Task, m: Id)
    requires Books(s) && Enabled(s, e)
    ensures Depth(Next(s, e), t, m) == Depth(s, t, m) + Change(e, t, m)
    ensures Next(s, e).mutex.Keys == s.mutex.Keys
  {
    hide Next, MutexOk, TaskOk, HeldBy, MutexShaped, StatusShaped;
    NextIds(s, e);
    if e.Give? {
      GiveDepth(s, e, t, m);
    } else if e.Take? || e.Again? {
      TakeDepth(s, e, t, m);
    } else {
      HolderStays(s, e, m);
    }
  }

  lemma TakeDepth(s: System, e: Event, t: Task, m: Id)
    requires Books(s) && Enabled(s, e) && (e.Take? || e.Again?)
    ensures Depth(Next(s, e), t, m) == Depth(s, t, m) + Change(e, t, m)
  {
    hide TaskOk, HeldBy, MutexShaped, StatusShaped;
    assert MutexOk(s.mutex[e.m]);
  }

  lemma GiveDepth(s: System, e: Event, t: Task, m: Id)
    requires Books(s) && Enabled(s, e) && e.Give? && Next(s, e).mutex.Keys == s.mutex.Keys
    ensures Depth(Next(s, e), t, m) == Depth(s, t, m) + Change(e, t, m)
  {
    hide TaskOk, HeldBy, HandOver, MutexShaped, StatusShaped;
    assert MutexOk(s.mutex[e.m]);
    HandOverMutexes(s, e.task, e.m, m);
  }

  /** Waiting, and giving up waiting, change no holder. */
  lemma HolderStays(s: System, e: Event, m: Id)
    requires Books(s) && Enabled(s, e) && !e.Take? && !e.Again? && !e.Give?
    ensures m in s.mutex && m in Next(s, e).mutex ==>
              Next(s, e).mutex[m].holder == s.mutex[m].holder && Next(s, e).mutex[m].depth == s.mutex[m].depth
  {
    hide TaskOk, HeldBy, Enlist, MostUrgentWaiter, MutexOk, MutexShaped, StatusShaped;
  }

  /** A mutex that is handed over is nobody's for a moment; the others stay as they are. */
  lemma HandOverMutexes(s: System, t: Task, m: Id, n: Id)
    requires Shaped(s) && t in s.base && m in s.mutex
    ensures m in HandOver(s, t, m).mutex && HandOver(s, t, m).mutex[m].holder == None
    ensures n != m && n in s.mutex ==> n in HandOver(s, t, m).mutex && HandOver(s, t, m).mutex[n] == s.mutex[n]
  {
    hide MutexShaped, StatusShaped;
  }

  /** Over every run, for every task and mutex. */
  lemma {:induction false} RunDepth(s: System, es: seq<Event>, t: Task, m: Id)
    requires Books(s) && Runs(s, es)
    ensures Depth(Run(s, es), t, m) == Depth(s, t, m) + Balance(es, t, m) && Run(s, es).mutex.Keys == s.mutex.Keys
    decreases |es|
  {
    hide MutexOk, TaskOk, HeldBy, MutexShaped, StatusShaped, Next, Depth, Change;
    if es != [] {
      NextBooks(s, es[0]);
      NextDepth(s, es[0], t, m);
      RunDepth(Next(s, es[0]), es[1..], t, m);
    }
  }

  /** From the start on a task holds a mutex exactly if it has taken it more often than
      given it. */
  lemma HeldWhileTaken(s: System, es: seq<Event>, t: Task, m: Id)
    requires Start(s) && Books(s) && Runs(s, es) && m in s.mutex
    ensures m in Run(s, es).mutex && Depth(Run(s, es), t, m) == Balance(es, t, m)
    ensures Run(s, es).mutex[m].holder == Some(t) <==> Balance(es, t, m) > 0
  {
    hide Runs, Run, TaskOk, HeldBy, MutexShaped, StatusShaped;
    RunDepth(s, es, t, m);
    assert MutexOk(Run(s, es).mutex[m]);
  }

  /** Its next give frees the mutex exactly if the difference is one; after any more the
      mutex is still its own. */
  lemma GivesMatchTakes(s: System, es: seq<Event>, t: Task, m: Id)
    requires Start(s) && Books(s) && Runs(s, es) && m in s.mutex && Enabled(Run(s, es), Give(t, m))
    ensures var x := Next(Run(s, es), Give(t, m)).mutex;
            m in x && x[m].holder == if Balance(es, t, m) == 1 then None else Some(t)
  {
    hide Runs, Run, Next, TaskOk, HeldBy, MutexShaped, StatusShaped;
    var s', e := Run(s, es), Give(t, m);
    HeldWhileTaken(s, es, t, m);
    NextDepth(s', e, t, m);
    NextBooks(s', e);
    GiveHolder(s', t, m);
    assert MutexOk(Next(s', e).mutex[m]);
  }

  lemma GiveHolder(s: System, t: Task, m: Id)
    requires Books(s) && Enabled(s, Give(t, m)) && m in Next(s, Give(t, m)).mutex
    ensures var x := Next(s, Give(t, m)).mutex[m]; x.holder == None || x.holder == Some(t)
  {
    hide TaskOk, HeldBy, HandOver, MutexShaped, StatusShaped;
    HandOverMutexes(s, t, m, m);
  }
}

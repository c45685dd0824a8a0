/** The bit that vTaskPriorityDisinheritAfterTimeout resets: what it takes to leave a
    stale bit behind, and why tasks that wait for one mutex at a time never do. */
module StaleBits {
  import opened Basics
  import opened Scheduler
  import opened SchedulerSafety
  import opened SchedulerRuns
  import opened KernelStart
  import opened WakeTimes
  import opened KernelMutexes

  // ------------------------------------------------------------ one mutex at a time

  /** No task waits for a mutex, or comes too late to, while it holds one. */
  ghost predicate OneAtATime(j: Joint, m: Move)
    requires Together(j) && Allowed(j, m)
  {
    m.Block? || m.Late? ==> j.k.current in j.s.held && j.s.held[j.k.current] == 0
  }

  ghost predicate Sound(j: Joint) { Together(j) && MI.Good(j.s) && MT.Guarded(j.s) }

  lemma Shares(k: Kernel, h: Task, v: Task)
    requires Typed(k) && h in k.priority && v != h && InReady(k.ready, k.priority, v) && k.priority[v] == k.priority[h]
    ensures SharesList(k, h)
  {
  }

  /** With the scheduler running, who can run is ready. */
  lemma RunnableIsReady(j: Joint, t: Task)
    requires Together(j) && j.k.suspended == 0 && t in j.s.base
    ensures InReady(j.k.ready, j.k.priority, t) <==> t in j.s.status && MT.Runnable(j.s.status[t])
  {
    hide Core, MB.Books, Queued, Blocked, InReady;
    assert Agrees(j.k, j.s.status[t], j.s.mutex.Keys, t);
    ReadyIff(j.k, t);
  }

  lemma SafeIsHarmless(j: Joint, m: M.Id)
    requires Together(j) && j.k.suspended == 0 && m in j.s.mutex && M.Shaped(j.s)
    requires Lowers(j.s, m) ==> MT.SafeToLower(j.s, m, j.s.mutex[m].holder.value)
    ensures Harmless(j, m)
  {
    hide Inv, MB.Books, Queued, M.MutexShaped, M.StatusShaped, InReady, SharesList, M.MostUrgentWaiter, Agrees;
    if Lowers(j.s, m) {
      var h := j.s.mutex[m].holder.value;
      RunnableIsReady(j, h);
      Known(j.k, h);
      if v :| v in j.s.base && v != h && MT.Runnable(j.s.status[v]) && j.s.prio[v] == j.s.prio[h] {
        RunnableIsReady(j, v);
        Shares(j.k, h, v);
      }
    }
  }

  lemma LeavesHarmlessly(j: Joint)
    requires Sound(j) && Allowed(j, Leave)
    ensures j.k.current in j.s.status && j.s.status[j.k.current].Leaving? && j.s.status[j.k.current].m in j.s.mutex
    ensures Harmless(j, j.s.status[j.k.current].m)
  {
    LeavingFor(j);
    var t, m := j.k.current, j.s.status[j.k.current].m;
    KeysOf(j.s);
    assert MI.MostUrgent(j.s, t) && j.k.suspended == 0;
    hide Together, Allowed, Harmless, MI.Good, MT.Guarded, M.Shaped, MI.MostUrgent, MT.SafeToLower;
    if Lowers(j.s, m) { MT.GuardedIsSafe(j.s, t, m, j.s.mutex[m].holder.value); }
    SafeIsHarmless(j, m);
  }

  /** The account of such a run is a scheduled one. */
  lemma NextGuarded(j: Joint, m: Move)
    requires Sound(j) && Allowed(j, m) && OneAtATime(j, m)
    ensures MI.Good(Next(j, m).s) && MT.Guarded(Next(j, m).s)
  {
    hide Inv, Queued, Represents, MI.Good, MT.Guarded, MB.TaskOk, MB.HeldBy, MB.MutexOk, KernelNext, Catch, M.Next,
      M.MutexShaped, M.StatusShaped, MI.MostUrgent, InReady, Enabled;
    KeysOf(j.s);
    if !m.Other? {
      MT.NextGuarded(j.s, Own(m, j.k.current));
    } else if IsBlockEvent(m.event) {
      MT.NextGuarded(j.s, M.Sleep(j.k.current));
    } else {
      CatchGuarded(j.s, Sleepers(j.k), Step(j.k, m.event));
    }
  }

  lemma NextSound(j: Joint, m: Move)
    requires Sound(j) && Allowed(j, m) && OneAtATime(j, m)
    ensures Sound(Next(j, m))
  {
    hide Together, Allowed, OneAtATime, Harmless, MI.Good, MT.Guarded, Next;
    NextTogether(j, m);
    NextGuarded(j, m);
    if m.Leave? { LeavesHarmlessly(j); }
  }

  ghost predicate Runs(j: Joint, ms: seq<Move>)
    requires Sound(j)
    decreases |ms|
  {
    ms == [] || (Allowed(j, ms[0]) && OneAtATime(j, ms[0]) && (NextSound(j, ms[0]); Runs(Next(j, ms[0]), ms[1..])))
  }

  ghost function Run(j: Joint, ms: seq<Move>): (j': Joint)
    requires Sound(j) && Runs(j, ms)
    ensures Sound(j')
    decreases |ms|
  {
    if ms == [] then j else NextSound(j, ms[0]); Run(Next(j, ms[0]), ms[1..])
  }

  /** The scheduler as it starts, all mutexes free. */
  ghost predicate Start(j: Joint) { Initial(j.k) && MI.Start(j.s) && j.k.priority == j.s.prio && j.k.base == j.s.base }

  lemma StartTogether(j: Joint)
    requires Start(j)
    ensures Together(j) && Sound(j)
  {
    hide Inv, Initial, MI.Start, MI.Good, MT.Guarded, MB.Books, Queued, Represents;
    InitialHolds(j.k);
    MI.StartIsGood(j.s);
    MT.StartIsGuarded(j.s);
    GoodBooks(j.s);
    StartQueued(j.s);
    StartRepresents(j);
  }

  lemma StartQueued(s: M.System)
    requires MI.Start(s)
    ensures Queued(s)
  {
  }

  lemma StartRepresents(j: Joint)
    requires MI.Start(j.s) && Quiet(j.k) && j.k.priority == j.s.prio && j.k.base == j.s.base
    ensures Represents(j.k, j.s)
  {
  }

  lemma GoodBooks(s: M.System)
    requires MI.Good(s)
    ensures MB.Books(s)
  {
  }

  /** Over every run of the kernel from its start, with ticks, interrupts and other
      waits in between, in which the running task is a most urgent one and no task waits
      for a mutex while it holds one: the time-out of a waiter is a step the scheduler
      allows, and keeps its lists and bits right. */
  lemma TimeoutKeepsBits(j: Joint, ms: seq<Move>, m: M.Id)
    requires Start(j) && (StartTogether(j); Runs(j, ms))
    ensures Sound(j) && Runs(j, ms) && Inv(Run(j, ms).k)
    ensures var j' := Run(j, ms);
            Allowed(j', Leave) && MI.Is(j'.s.status, j'.k.current, M.Leaving(m)) ==>
              && m in j'.s.mutex && Harmless(j', m) && Inv(Next(j', Leave).k)
  {
    hide Start, Runs, Run, Harmless, Inv, MI.Good, MT.Guarded, Allowed, MB.Books, Queued, Represents, Next;
    StartTogether(j);
    var j' := Run(j, ms);
    if Allowed(j', Leave) && MI.Is(j'.s.status, j'.k.current, M.Leaving(m)) {
      LeavesHarmlessly(j');
      NextTogether(j', Leave);
    }
  }
}

/** When a task waits for a notification, and for how long. */
module NotificationWaits {
  import opened Basics
  import opened Rings
  import opened Scheduler
  import opened SchedulerSafety
  import opened SchedulerRuns
  import opened WakeTimes
  import opened Notifications
  import opened KernelStart

  /** There is nothing for the call to fetch. */
  predicate Empty(s: System, m: Move) {
    if m.TakeBegin? then At(s.value, s.k.current) == 0 else StateOf(s, s.k.current) != Received
  }

  /** A call blocks exactly if it finds nothing and may wait; the task is then due after
      that many ticks. */
  lemma BlocksExactly(s: System, m: Move)
    requires Good(s) && Allowed(s, m) && (m.TakeBegin? || m.WaitBegin?)
    ensures Good(Next(s, m)) && (Allowed(Next(s, m), Block) <==> Empty(s, m) && m.ticks > 0)
    ensures Allowed(Next(s, m), Block) ==>
              var t, k' := s.k.current, Next(Next(s, m), Block).k;
              Blocked(k', t) && WakeTimes.Due(k', t) == Clock(s.k) + m.ticks && Clock(k') == Clock(s.k)
  {
    NextKeeps(s, m);
    BeginsToWait(s, m);
    hide Good, Next, Allowed, Step;
    if Empty(s, m) && m.ticks > 0 { BlocksFor(Next(s, m)); }
  }

  lemma BeginsToWait(s: System, m: Move)
    requires Good(s) && Allowed(s, m) && (m.TakeBegin? || m.WaitBegin?) && Good(Next(s, m))
    ensures var s' := Next(s, m);
            && (Allowed(s', Block) <==> Empty(s, m) && m.ticks > 0) && s'.k == s.k
            && (Allowed(s', Block) ==> PhaseOf(s', s.k.current) == Marked(m.ticks))
  {
    hide Inv, TaskOk, ValuesBounded;
  }

  lemma BlocksFor(s: System)
    requires Good(s) && Allowed(s, Block)
    ensures PhaseOf(s, s.k.current).Marked?
    ensures var t, k' := s.k.current, Next(s, Block).k;
            && Blocked(k', t) && Clock(k') == Clock(s.k)
            && WakeTimes.Due(k', t) == Clock(s.k) + PhaseOf(s, s.k.current).ticks
  {
    hide TaskOk, ValuesBounded, Core, Step, WakeTimes.Due, Clock;
    MarkedMayBlock(s);
    BlockDue(s.k, Delay(PhaseOf(s, s.k.current).ticks));
  }

  // ------------------------------------------------------- nobody sleeps on a token

  /** A task marked as waiting in a take has nothing to take. */
  ghost predicate Penniless(s: System, t: Task) { StateOf(s, t) == WaitingNotification ==> At(s.value, t) == 0 }

  lemma StaysPenniless(s: System, m: Move, t: Task)
    requires Good(s) && Allowed(s, m) && Counts(s, m, t) && Penniless(s, t)
    ensures Penniless(Next(s, m), t)
  {
    hide Inv, TaskOk, ValuesBounded, Apply, BlockCurrent, MoveToReady, ReadyOrPend, Step;
  }

  lemma {:induction false} PennilessRun(s: System, ms: seq<Move>, t: Task)
    requires Good(s) && Moves(s, ms) && CountsOnly(s, ms, t) && Penniless(s, t)
    ensures Penniless(After(s, ms), t)
    decreases |ms|
  {
    hide Good, Next, Counts, Allowed, Penniless;
    if ms != [] {
      NextKeeps(s, ms[0]);
      StaysPenniless(s, ms[0], t);
      PennilessRun(Next(s, ms[0]), ms[1..], t);
    }
  }

  /** Used as a counting semaphore, from the start: a task that waits while there is
      something to take is ready, or held back only while the scheduler is suspended. */
  lemma NobodySleepsOnAToken(s: System, ms: seq<Move>, t: Task)
    requires Start(s) && (StartIsGood(s); Moves(s, ms) && CountsOnly(s, ms, t))
    ensures Good(s) && Moves(s, ms)
    ensures var s' := After(s, ms);
            PhaseOf(s', t).Entered? && At(s'.value, t) != 0 ==>
              InReady(s'.k.ready, s'.k.priority, t) || (s'.k.suspended > 0 && t in s'.k.pending)
  {
    hide After, Moves, CountsOnly, Inv, InReady, Initial;
    StartIsGood(s);
    PennilessRun(s, ms, t);
    var s' := After(s, ms);
    ReceivedIsNoticed(s', t);
    assert TaskOk(s'.k, StateOf(s', t), PhaseOf(s', t), t);
  }
}

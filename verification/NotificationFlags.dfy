/** Notification values used as a set of flags: who raises and who lowers one of them. */
module NotificationFlags {
  import opened Basics
  import opened Rings
  import opened Ticks
  import opened WordBits
  import opened Notifications
  import opened Scheduler
  import opened SchedulerRuns
  import opened SchedulerSafety

  /** As far as `t` is concerned nothing counts: no increments and no decrements. */
  ghost predicate UsesFlags(s: System, m: Move, t: Task) {
    (Gives(m, t) ==> m.action != Increment) && (m.TakeEnd? && s.k.current == t ==> m.clear)
  }

  /** The notification replaces the value. */
  predicate Replaces(s: System, m: Move, t: Task) {
    && Gives(m, t)
    && (m.action == SetWithOverwrite || (m.action == SetWithoutOverwrite && StateOf(s, t) != Received))
  }

  predicate Raises(s: System, m: Move, t: Task, flag: bv32) {
    Gives(m, t) && (m.action == SetBits || Replaces(s, m, t)) && Up(m.x, flag)
  }

  /** The wait clears the flag on entry unless it finds a notification, on exit if it
      does; a take that clears lowers them all. */
  predicate Lowers(s: System, m: Move, t: Task, flag: bv32) {
    || (Replaces(s, m, t) && !Up(m.x, flag))
    || (s.k.current == t && m.WaitBegin? && StateOf(s, t) != Received && Up(m.bits, flag))
    || (s.k.current == t && m.WaitEnd? && StateOf(s, t) == Received && Up(m.bits, flag))
    || (s.k.current == t && m.TakeEnd?)
  }

  lemma FlagMove(s: System, m: Move, t: Task, flag: bv32)
    requires Good(s) && Allowed(s, m) && UsesFlags(s, m, t) && IsFlag(flag)
    ensures Up(At(Next(s, m).value, t), flag) <==>
              Raises(s, m, t, flag) || (Up(At(s.value, t), flag) && !Lowers(s, m, t, flag))
  {
    hide Inv, TaskOk, Or, ClearBits, Up, IsFlag, BlockCurrent, MoveToReady, ReadyOrPend, Step;
    var v := At(s.value, t);
    assert v < WRAP;
    NoneUp(flag);
    if m.Notify? || m.NotifyISR? { FlagOf(v, m.x, flag); }
    if m.WaitBegin? || m.WaitEnd? { FlagOf(v, m.bits, flag); }
  }

  ghost predicate OnlyFlags(s: System, ms: seq<Move>, t: Task)
    requires Good(s) && Moves(s, ms)
    decreases |ms|
  {
    ms == [] || (UsesFlags(s, ms[0], t) && (NextKeeps(s, ms[0]); OnlyFlags(Next(s, ms[0]), ms[1..], t)))
  }

  /** Whether the flag is up in the end: the last that touched it raised it, or nobody
      did and it was up before. */
  ghost predicate LeftUp(s: System, ms: seq<Move>, t: Task, flag: bv32, up: bool)
    requires Good(s) && Moves(s, ms)
    decreases |ms|
  {
    if ms == [] then up
    else NextKeeps(s, ms[0]);
         LeftUp(Next(s, ms[0]), ms[1..], t, flag, Raises(s, ms[0], t, flag) || (up && !Lowers(s, ms[0], t, flag)))
  }

  /** Over every run, for every bit of the value. */
  lemma {:induction false} FlagsExact(s: System, ms: seq<Move>, t: Task, flag: bv32)
    requires Good(s) && Moves(s, ms) && OnlyFlags(s, ms, t) && IsFlag(flag)
    ensures Up(At(After(s, ms).value, t), flag) <==> LeftUp(s, ms, t, flag, Up(At(s.value, t), flag))
    decreases |ms|
  {
    hide Good, Next, Allowed, UsesFlags, Raises, Lowers, Up, At, IsFlag;
    if ms != [] {
      NextKeeps(s, ms[0]);
      FlagMove(s, ms[0], t, flag);
      FlagsExact(Next(s, ms[0]), ms[1..], t, flag);
    }
  }
}

/** Direct-to-task notifications on top of the scheduler: a waiter marks itself,
    enters the delayed list and returns in separate steps, with interrupts between. */
module Notifications {
  import opened Basics
  import opened Rings
  import opened Scheduler
  import opened Ticks
  import opened SchedulerSafety
  import opened SchedulerRuns
  import opened KernelStart
  import opened WakeTimes
  import opened EventItems
  import opened WordBits

  datatype NotifyState = NotWaiting | WaitingNotification | Received

  /** Where a task is inside ulTaskGenericNotifyTake or xTaskGenericNotifyWait. */
  datatype Phase =
    | Out                  // in neither
    | Marked(ticks: nat)   // has set its state to waiting and is about to block
    | Entered              // has put itself in a delayed list
    | Passed               // has decided not to block

  datatype Action = SetBits | Increment | SetWithOverwrite | SetWithoutOverwrite | NoAction

  datatype System = System(
    k: Kernel,
    state: map<Task, NotifyState>,  // ucNotifyState
    value: map<Task, nat>,          // ulNotifiedValue
    phase: map<Task, Phase>
  )

  function StateOf(s: System, t: Task): NotifyState { if t in s.state then s.state[t] else NotWaiting }

  function PhaseOf(s: System, t: Task): Phase { if t in s.phase then s.phase[t] else Out }

  /** The value after a notification; the second result is the return value. */
  function Apply(a: Action, was: NotifyState, v: nat, x: nat): (r: (nat, bool))
    requires v < WRAP && x < WRAP
    ensures r.0 < WRAP
  {
    match a
    case SetBits => (Or(v, x), true)
    case Increment => ((v + 1) % WRAP, true)
    case SetWithOverwrite => (x, true)
    case SetWithoutOverwrite => if was != Received then (x, true) else (v, false)
    case NoAction => (v, true)
  }

  datatype Move =
    | Other(event: Event)                           // any other step of the kernel
    | TakeBegin(ticks: nat)                         // the critical section that marks
    | WaitBegin(bits: Word, ticks: nat)
    | Block                                         // prvAddCurrentTaskToDelayedList
    | Notify(task: Task, action: Action, x: Word)    // by the running task
    | NotifyISR(task: Task, action: Action, x: Word) // by an interrupt
    | TakeEnd(clear: bool)                          // the final critical section
    | WaitEnd(bits: Word)

  ghost predicate Running(s: System) { InReady(s.k.ready, s.k.priority, s.k.current) && s.k.current != s.k.idle }

  ghost predicate Allowed(s: System, m: Move)
    requires Inv(s.k)
  {
    var t := s.k.current;
    match m
    case Other(e) =>
      && Enabled(s.k, e) && !e.Wake? && !e.WakeFromISR?
      && (IsBlockEvent(e) ==> PhaseOf(s, t) == Out)
      && (PhaseOf(s, t).Marked? ==> e.Tick? || e.Signal?)
    case TakeBegin(n) => s.k.suspended > 0 && Running(s) && PhaseOf(s, t) == Out && n <= MAX_DELAY
    case WaitBegin(_, n) => s.k.suspended > 0 && Running(s) && PhaseOf(s, t) == Out && n <= MAX_DELAY
    case Block => PhaseOf(s, t).Marked?
    case Notify(u, _, _) => u in s.k.base && PhaseOf(s, t) == Out
    case NotifyISR(u, _, _) => u in s.k.base
    case TakeEnd(_) => s.k.suspended == 0 && Running(s) && (PhaseOf(s, t).Entered? || PhaseOf(s, t).Passed?)
    case WaitEnd(_) => s.k.suspended == 0 && Running(s) && (PhaseOf(s, t).Entered? || PhaseOf(s, t).Passed?)
  }

  function Begin(s: System, wait: bool, v: nat, ticks: nat): System {
    var t := s.k.current;
    if !wait then s.(phase := s.phase[t := Passed])
    else s.(state := s.state[t := WaitingNotification], value := s.value[t := v],
            phase := s.phase[t := if ticks > 0 then Marked(ticks) else Passed])
  }

  function End(s: System, v: nat): System {
    var t := s.k.current;
    s.(state := s.state[t := NotWaiting], value := s.value[t := v], phase := s.phase[t := Out])
  }

  /** What a notification does to the state and the value of the task. */
  function Mail(s: System, u: Task, a: Action, x: nat): System
    requires ValuesBounded(s) && x < WRAP
  {
    s.(state := s.state[u := Received], value := s.value[u := Apply(a, StateOf(s, u), At(s.value, u), x).0])
  }

  ghost predicate ValuesBounded(s: System) { forall t :: At(s.value, t) < WRAP }

  /** What must hold of each task between any two moves. */
  ghost predicate TaskOk(k: Kernel, st: NotifyState, ph: Phase, t: Task) {
    && (st == WaitingNotification ==> ph != Out && t !in k.pending)
    && (ph != Out ==> t in k.base && t !in k.eventOf)
    && (ph.Marked? ==>
          && t == k.current && k.suspended > 0 && InReady(k.ready, k.priority, t) && t != k.idle
          && 1 <= ph.ticks <= MAX_DELAY
          && (st == WaitingNotification || (st == Received && t in k.pending)))
    && (ph.Entered? ==> st != NotWaiting)
    && (ph.Entered? && st == Received && Blocked(k, t) ==> t in k.pending)
    && (t in k.pending ==> Blocked(k, t) || ph != Out)
  }

  ghost predicate Good(s: System) {
    Inv(s.k) && ValuesBounded(s) && forall t :: TaskOk(s.k, StateOf(s, t), PhaseOf(s, t), t)
  }

  ghost function EnterWait(s: System): System
    requires Good(s) && PhaseOf(s, s.k.current).Marked?
  {
    MarkedMayBlock(s);
    s.(k := Step(s.k, Delay(PhaseOf(s, s.k.current).ticks)), phase := s.phase[s.k.current := Entered])
  }

  ghost function Notified(s: System, u: Task, a: Action, x: nat, isr: bool): System
    requires Good(s) && x < WRAP
  {
    if StateOf(s, u) == WaitingNotification then
      NotifiedTaskIsFree(s, u);
      Mail(s, u, a, x).(k := Step(s.k, if isr then WakeFromISR(u) else Wake(u)))
    else Mail(s, u, a, x)
  }

  ghost function Next(s: System, m: Move): System
    requires Good(s) && Allowed(s, m)
  {
    var t, v := s.k.current, At(s.value, s.k.current);
    match m
    case Other(e) => s.(k := Step(s.k, e))
    case TakeBegin(n) => Begin(s, v == 0, v, n)
    case WaitBegin(bits, n) => Begin(s, StateOf(s, t) != Received, ClearBits(v, bits), n)
    case Block => EnterWait(s)
    case Notify(u, a, x) => Notified(s, u, a, x, false)
    case NotifyISR(u, a, x) => Notified(s, u, a, x, true)
    case TakeEnd(clear) => End(s, if v == 0 || clear then 0 else v - 1)
    case WaitEnd(bits) => End(s, if StateOf(s, t) == Received then ClearBits(v, bits) else v)
  }

  lemma MarkedMayBlock(s: System)
    requires Good(s) && PhaseOf(s, s.k.current).Marked?
    ensures Enabled(s.k, Delay(PhaseOf(s, s.k.current).ticks))
  {
    assert TaskOk(s.k, StateOf(s, s.k.current), PhaseOf(s, s.k.current), s.k.current);
    hide Core;
  }

  /** A task that waits for a notification is on no event list and not held back:
      the assertions of the notify functions hold. */
  lemma NotifiedTaskIsFree(s: System, u: Task)
    requires Good(s) && StateOf(s, u) == WaitingNotification
    ensures u !in s.k.eventOf && u !in s.k.pending && Enabled(s.k, Wake(u)) && Enabled(s.k, WakeFromISR(u))
  {
    assert TaskOk(s.k, StateOf(s, u), PhaseOf(s, u), u);
    hide Timing, Bits, Partition, ReadyLists, Events, InReady, Shape;
  }

  /** A running task outside any wait is not on the pending ready list, so it may
      use its event list item to block on a queue or an event group. */
  lemma RunningIsNotHeldBack(s: System)
    requires Good(s) && Running(s) && PhaseOf(s, s.k.current) == Out
    ensures s.k.current !in s.k.pending && s.k.current !in s.k.eventOf
  {
    hide Timing, Bits, ReadyLists, Shape;
    assert TaskOk(s.k, StateOf(s, s.k.current), PhaseOf(s, s.k.current), s.k.current);
    ReadyIsNotDelayed(s.k, s.k.current);
  }

  // ------------------------------------------------------------- preservation

  lemma ReleasedKeeps(k: Kernel, k': Kernel, st: NotifyState, ph: Phase, t: Task)
    requires TaskOk(k, st, ph, t) && Released(k, k', t) && k'.base == k.base
    requires ph.Marked? ==> k' == k.(pended := k'.pended, pending := k'.pending, eventOf := k'.eventOf)
    requires ph.Marked? && t in k.pending ==> t in k'.pending
    ensures TaskOk(k', st, ph, t)
  {
    hide InReady;
  }

  lemma BlockEventKeeps(s: System, e: Event, t: Task)
    requires Good(s) && Allowed(s, Other(e)) && IsBlockEvent(e)
    ensures TaskOk(Step(s.k, e), StateOf(s, t), PhaseOf(s, t), t)
  {
    hide Core, BlockCurrent, ValuesBounded;
    BlockedOnly(s.k, e.ticks, t);
    assert TaskOk(s.k, StateOf(s, t), PhaseOf(s, t), t);
  }

  lemma SignalKeeps(s: System, u: Task, t: Task)
    requires Good(s) && Allowed(s, Other(Signal(u)))
    ensures TaskOk(Step(s.k, Signal(u)), StateOf(s, t), PhaseOf(s, t), t)
  {
    hide Core, ValuesBounded, MoveToReady, Without;
    assert TaskOk(s.k, StateOf(s, t), PhaseOf(s, t), t) && TaskOk(s.k, StateOf(s, u), PhaseOf(s, u), u);
    SignalReleases(s.k, u, t);
    StepTasks(s.k, Signal(u));
    EventTaskBlocked(s.k, u);
    if s.k.suspended == 0 || t != u {
      if s.k.suspended > 0 { SignalPending(s.k, u, t); }
      ReleasedKeeps(s.k, Step(s.k, Signal(u)), StateOf(s, t), PhaseOf(s, t), t);
    }
  }

  lemma SignalPending(k: Kernel, u: Task, t: Task)
    requires Typed(k) && k.suspended > 0
    ensures t != u && t in k.pending ==> t in RemoveFromEventList(k, u).pending
  {
  }

  lemma EventTaskBlocked(k: Kernel, u: Task)
    requires Inv(k) && u in k.eventOf
    ensures Blocked(k, u)
  {
    hide Timing, Bits, ReadyLists, InReady, Partition;
  }

  lemma OtherKeeps(s: System, e: Event, t: Task)
    requires Good(s) && Allowed(s, Other(e)) && !IsBlockEvent(e) && !e.Signal?
    ensures TaskOk(Step(s.k, e), StateOf(s, t), PhaseOf(s, t), t)
  {
    hide Core, ValuesBounded;
    assert TaskOk(s.k, StateOf(s, t), PhaseOf(s, t), t);
    StepReleases(s.k, e, t);
    StepTasks(s.k, e);
    ReleasedKeeps(s.k, Step(s.k, e), StateOf(s, t), PhaseOf(s, t), t);
  }

  lemma OtherMoveKeeps(s: System, e: Event, t: Task)
    requires Good(s) && Allowed(s, Other(e))
    ensures TaskOk(Step(s.k, e), StateOf(s, t), PhaseOf(s, t), t)
  {
    hide Good, Allowed, TaskOk, Step;
    if IsBlockEvent(e) { BlockEventKeeps(s, e, t); }
    else if e.Signal? { SignalKeeps(s, e.task, t); }
    else { OtherKeeps(s, e, t); }
  }

  /** The marked task enters its delayed list; a notification that came in between
      has put it on the pending ready list, and stays there. */
  lemma BlockMoveKeeps(s: System, t: Task)
    requires Good(s) && Allowed(s, Block)
    ensures var s' := Next(s, Block); TaskOk(s'.k, StateOf(s', t), PhaseOf(s', t), t)
  {
    hide Core, BlockCurrent, ValuesBounded;
    MarkedMayBlock(s);
    assert TaskOk(s.k, StateOf(s, t), PhaseOf(s, t), t);
    BlockedOnly(s.k, PhaseOf(s, s.k.current).ticks, t);
  }

  lemma WokenKeeps(s: System, u: Task, t: Task, isr: bool)
    requires Good(s) && StateOf(s, u) == WaitingNotification && (isr || PhaseOf(s, s.k.current) == Out)
    ensures var k' := if isr then ReadyOrPend(s.k, u) else MoveToReady(s.k, u);
            TaskOk(k', if t == u then Received else StateOf(s, t), PhaseOf(s, t), t)
  {
    hide Core, ValuesBounded, MoveToReady;
    NotifiedTaskIsFree(s, u);
    assert TaskOk(s.k, StateOf(s, t), PhaseOf(s, t), t) && TaskOk(s.k, StateOf(s, u), PhaseOf(s, u), u);
    if isr && s.k.suspended > 0 {
    } else {
      MoveReleases(s.k, u, t);
    }
  }

  lemma MoveReleases(k: Kernel, u: Task, t: Task)
    requires Core(k, k.tick) && u in k.base && u !in k.pending
    ensures var k' := MoveToReady(k, u);
            && Released(k, k', t) && k'.base == k.base && k'.suspended == k.suspended && k'.current == k.current
            && k'.idle == k.idle
            && k'.pending == k.pending && (t == u ==> !Blocked(k', t))
            && (InReady(k.ready, k.priority, t) ==> InReady(k'.ready, k'.priority, t))
  {
    hide Timing, Bits, ReadyLists, Partition, InReady, Shape, Events, InsertEnd, Drop, Without;
    MoveToReadyLists(k, u);
  }

  lemma MailKeeps(s: System, m: Move, t: Task)
    requires Good(s) && Allowed(s, m) && (m.Notify? || m.NotifyISR?)
    ensures var s' := Next(s, m); TaskOk(s'.k, StateOf(s', t), PhaseOf(s', t), t)
  {
    hide Core, ValuesBounded, MoveToReady, ReadyOrPend, Apply;
    assert TaskOk(s.k, StateOf(s, t), PhaseOf(s, t), t);
    if StateOf(s, m.task) == WaitingNotification {
      WokenKeeps(s, m.task, t, m.NotifyISR?);
      hide TaskOk;
    }
  }

  /** The moves of the running task that leave the kernel alone. */
  lemma OwnMoveKeeps(s: System, m: Move, t: Task)
    requires Good(s) && Allowed(s, m) && !m.Other? && !m.Block? && !m.Notify? && !m.NotifyISR?
    ensures var s' := Next(s, m); TaskOk(s'.k, StateOf(s', t), PhaseOf(s', t), t)
  {
    hide Core, ValuesBounded;
    assert TaskOk(s.k, StateOf(s, t), PhaseOf(s, t), t);
    RunningIsFree(s.k);
  }

  lemma RunningIsFree(k: Kernel)
    requires Inv(k) && InReady(k.ready, k.priority, k.current)
    ensures !Blocked(k, k.current) && k.current !in k.eventOf && k.current in k.base
  {
    hide Timing, Bits, ReadyLists, Shape;
    ReadyIsNotDelayed(k, k.current);
  }

  /** Every move keeps the invariant. */
  lemma NextKeeps(s: System, m: Move)
    requires Good(s) && Allowed(s, m)
    ensures Good(Next(s, m))
  {
    NextKernel(s, m);
    NextValues(s, m);
    forall t ensures var s' := Next(s, m); TaskOk(s'.k, StateOf(s', t), PhaseOf(s', t), t) {
      if m.Other? { OtherMoveKeeps(s, m.event, t); }
      else if m.Block? { BlockMoveKeeps(s, t); }
      else if m.Notify? || m.NotifyISR? { MailKeeps(s, m, t); }
      else { OwnMoveKeeps(s, m, t); }
    }
    hide Inv, ValuesBounded, TaskOk, Allowed;
  }

  lemma NextKernel(s: System, m: Move)
    requires Good(s) && Allowed(s, m)
    ensures Inv(Next(s, m).k)
  {
    hide Inv, ValuesBounded, TaskOk, BlockCurrent, MoveToReady, ReadyOrPend, Apply;
    match m
    case Other(e) => StepKeeps(s.k, e);
    case Block => MarkedMayBlock(s); StepKeeps(s.k, Delay(PhaseOf(s, s.k.current).ticks));
    case Notify(u, _, _) =>
      if StateOf(s, u) == WaitingNotification { NotifiedTaskIsFree(s, u); StepKeeps(s.k, Wake(u)); }
    case NotifyISR(u, _, _) =>
      if StateOf(s, u) == WaitingNotification { NotifiedTaskIsFree(s, u); StepKeeps(s.k, WakeFromISR(u)); }
    case _ =>
  }

  lemma NextValues(s: System, m: Move)
    requires Good(s) && Allowed(s, m)
    ensures ValuesBounded(Next(s, m))
  {
    hide Inv, TaskOk, BlockCurrent, MoveToReady, ReadyOrPend, Apply, ClearBits;
    forall t ensures At(Next(s, m).value, t) < WRAP {
      assert At(s.value, t) < WRAP && At(s.value, s.k.current) < WRAP;
    }
  }

  // --------------------------------------------------------------------- runs

  ghost predicate Moves(s: System, ms: seq<Move>)
    requires Good(s)
    decreases |ms|
  {
    ms == [] || (Allowed(s, ms[0]) && (NextKeeps(s, ms[0]); Moves(Next(s, ms[0]), ms[1..])))
  }

  ghost function After(s: System, ms: seq<Move>): (s': System)
    requires Good(s) && Moves(s, ms)
    ensures Good(s')
    decreases |ms|
  {
    if ms == [] then s else NextKeeps(s, ms[0]); After(Next(s, ms[0]), ms[1..])
  }

  ghost predicate Start(s: System) { Initial(s.k) && s.state == map[] && s.value == map[] && s.phase == map[] }

  lemma StartIsGood(s: System)
    requires Start(s)
    ensures Good(s)
  {
    hide Core, Initial;
    InitialHolds(s.k);
    hide InReady;
  }

  /** A task in a wait that has been notified is ready or held back by suspension. */
  ghost predicate Noticed(s: System, t: Task) {
    PhaseOf(s, t).Entered? && StateOf(s, t) == Received ==>
      InReady(s.k.ready, s.k.priority, t) || (s.k.suspended > 0 && t in s.k.pending)
  }

  lemma ReceivedIsNoticed(s: System, t: Task)
    requires Good(s)
    ensures Noticed(s, t)
  {
    hide Timing, Bits, ReadyLists, Events, InReady, Shape;
    assert TaskOk(s.k, StateOf(s, t), PhaseOf(s, t), t);
  }

  /** In every state reached from the start a task that was notified while it waits is
      ready, or the scheduler is suspended and holds it on the pending ready list. */
  lemma NoNotificationLost(s: System, ms: seq<Move>, t: Task)
    requires Start(s) && (StartIsGood(s); Moves(s, ms))
    ensures Good(s) && Moves(s, ms) && Noticed(After(s, ms), t)
  {
    hide After, Moves, Good, Noticed;
    StartIsGood(s);
    ReceivedIsNoticed(After(s, ms), t);
  }

  /** The task has been notified and has not yet returned from its wait. */
  ghost predicate Informed(s: System, t: Task) {
    StateOf(s, t) == Received && (PhaseOf(s, t).Marked? || PhaseOf(s, t).Entered?)
  }

  predicate Returns(s: System, m: Move, t: Task) { (m.TakeEnd? || m.WaitEnd?) && s.k.current == t }

  ghost predicate NeverReturns(s: System, ms: seq<Move>, t: Task)
    requires Good(s) && Moves(s, ms)
    decreases |ms|
  {
    ms == [] || (!Returns(s, ms[0], t) && (NextKeeps(s, ms[0]); NeverReturns(Next(s, ms[0]), ms[1..], t)))
  }

  lemma StaysInformed(s: System, m: Move, t: Task)
    requires Good(s) && Allowed(s, m) && Informed(s, t) && !Returns(s, m, t)
    ensures Informed(Next(s, m), t)
  {
    hide Inv, TaskOk, BlockCurrent, MoveToReady, ReadyOrPend, Apply, ClearBits, ValuesBounded;
  }

  lemma {:induction false} InformedRun(s: System, ms: seq<Move>, t: Task)
    requires Good(s) && Moves(s, ms) && Informed(s, t) && NeverReturns(s, ms, t)
    ensures Informed(After(s, ms), t)
    decreases |ms|
  {
    hide Good, Next, Informed, Returns, Allowed;
    if ms != [] {
      NextKeeps(s, ms[0]);
      StaysInformed(s, ms[0], t);
      InformedRun(Next(s, ms[0]), ms[1..], t);
    }
  }

  /** An interrupt that notifies a task at any point after the task marked itself
      as waiting, be it before or after it entered the delayed list: whatever
      follows, the task is ready as soon as the scheduler is not suspended. */
  lemma NotifiedInWindow(s: System, ms: seq<Move>, t: Task)
    requires Good(s) && Moves(s, ms) && ms != [] && ms[0].NotifyISR? && ms[0].task == t
    requires PhaseOf(s, t).Marked? || PhaseOf(s, t).Entered?
    requires NeverReturns(s, ms, t) && After(s, ms).k.suspended == 0
    ensures var k := After(s, ms).k; InReady(k.ready, k.priority, t)
  {
    hide Good, Next, InReady, Allowed, Returns, Informed;
    NextKeeps(s, ms[0]);
    NotifyInforms(s, ms[0]);
    InformedRun(Next(s, ms[0]), ms[1..], t);
    ReadyWhenInformed(After(s, ms), t);
  }

  lemma NotifyInforms(s: System, m: Move)
    requires Good(s) && Allowed(s, m) && m.NotifyISR? && (PhaseOf(s, m.task).Marked? || PhaseOf(s, m.task).Entered?)
    ensures Informed(Next(s, m), m.task)
  {
    hide Good, Apply, ReadyOrPend;
  }

  lemma ReadyWhenInformed(s: System, t: Task)
    requires Good(s) && Informed(s, t) && s.k.suspended == 0
    ensures InReady(s.k.ready, s.k.priority, t)
  {
    hide Timing, Bits, ReadyLists, Events, InReady, Shape;
    assert TaskOk(s.k, StateOf(s, t), PhaseOf(s, t), t);
  }

  // ------------------------------------------------------- counting semaphore use

  /** As far as `t` is concerned notifications only increment and takes only
      decrement. */
  ghost predicate Counts(s: System, m: Move, t: Task) {
    && ((m.Notify? || m.NotifyISR?) && m.task == t ==> m.action == Increment)
    && (s.k.current == t ==> !m.WaitBegin? && !m.WaitEnd? && (m.TakeEnd? ==> !m.clear))
  }

  ghost predicate CountsOnly(s: System, ms: seq<Move>, t: Task)
    requires Good(s) && Moves(s, ms)
    decreases |ms|
  {
    ms == [] || (Counts(s, ms[0], t) && (NextKeeps(s, ms[0]); CountsOnly(Next(s, ms[0]), ms[1..], t)))
  }

  predicate Gives(m: Move, t: Task) { (m.Notify? || m.NotifyISR?) && m.task == t }

  predicate Takes(s: System, m: Move, t: Task) { m.TakeEnd? && s.k.current == t && At(s.value, t) != 0 }

  function Given(ms: seq<Move>, t: Task): nat {
    if ms == [] then 0 else (if Gives(ms[0], t) then 1 else 0) + Given(ms[1..], t)
  }

  ghost function Taken(s: System, ms: seq<Move>, t: Task): nat
    requires Good(s) && Moves(s, ms)
    decreases |ms|
  {
    if ms == [] then 0
    else NextKeeps(s, ms[0]); (if Takes(s, ms[0], t) then 1 else 0) + Taken(Next(s, ms[0]), ms[1..], t)
  }

  /** How often the 32-bit value wrapped to zero. */
  ghost function Wraps(s: System, ms: seq<Move>, t: Task): nat
    requires Good(s) && Moves(s, ms)
    decreases |ms|
  {
    if ms == [] then 0
    else NextKeeps(s, ms[0]);
         (if Gives(ms[0], t) && At(s.value, t) == MAX_DELAY then 1 else 0) + Wraps(Next(s, ms[0]), ms[1..], t)
  }

  lemma CountStep(s: System, m: Move, t: Task)
    requires Good(s) && Allowed(s, m) && Counts(s, m, t)
    ensures At(s.value, t) + (if Gives(m, t) then 1 else 0) ==
            At(Next(s, m).value, t) + (if Takes(s, m, t) then 1 else 0) + (if Gives(m, t) && At(s.value, t) == MAX_DELAY
                then WRAP else 0)
  {
    hide Inv, TaskOk, BlockCurrent, MoveToReady, ReadyOrPend, ClearBits, Or, Step;
    assert At(s.value, t) < WRAP;
  }

  /** Increments are takes plus the value left, modulo 2^32. */
  lemma {:induction false} NotificationsConserved(s: System, ms: seq<Move>, t: Task)
    requires Good(s) && Moves(s, ms) && CountsOnly(s, ms, t)
    ensures At(s.value, t) + Given(ms, t) == At(After(s, ms).value, t) + Taken(s, ms, t) + WRAP * Wraps(s, ms, t)
    decreases |ms|
  {
    hide Good, Next, Counts, Allowed, Gives, Takes, At;
    if ms != [] {
      NextKeeps(s, ms[0]);
      CountStep(s, ms[0], t);
      NotificationsConserved(Next(s, ms[0]), ms[1..], t);
    }
  }

  // ----------------------------------------------------------------- mailbox use

  /** As far as `t` is concerned values are sent without overwriting and received by
      waits, whatever bits those clear. */
  ghost predicate Posts(s: System, m: Move, t: Task) {
    && ((m.Notify? || m.NotifyISR?) && m.task == t ==> m.action == SetWithoutOverwrite)
    && (s.k.current == t ==> !m.TakeBegin? && !m.TakeEnd?)
  }

  ghost predicate PostsOnly(s: System, ms: seq<Move>, t: Task)
    requires Good(s) && Moves(s, ms)
    decreases |ms|
  {
    ms == [] || (Posts(s, ms[0], t) && (NextKeeps(s, ms[0]); PostsOnly(Next(s, ms[0]), ms[1..], t)))
  }

  /** The value that waits to be fetched. */
  function InBox(s: System, t: Task): seq<nat> { if StateOf(s, t) == Received then [At(s.value, t)] else [] }

  /** The value a move puts in the box: a send that returned success. */
  ghost function PostedBy(s: System, m: Move, t: Task): seq<nat>
    requires Good(s) && Allowed(s, m)
  {
    if (m.Notify? || m.NotifyISR?) && m.task == t && Apply(m.action, StateOf(s, t), At(s.value, t), m.x).1 then [m.x]
        else []
  }

  /** The value a move takes out: a wait that returned success. */
  function FetchedBy(s: System, m: Move, t: Task): seq<nat> {
    if m.WaitEnd? && s.k.current == t && StateOf(s, t) == Received then [At(s.value, t)] else []
  }

  ghost function AllPosted(s: System, ms: seq<Move>, t: Task): seq<nat>
    requires Good(s) && Moves(s, ms)
    decreases |ms|
  {
    if ms == [] then [] else NextKeeps(s, ms[0]); PostedBy(s, ms[0], t) + AllPosted(Next(s, ms[0]), ms[1..], t)
  }

  ghost function AllFetched(s: System, ms: seq<Move>, t: Task): seq<nat>
    requires Good(s) && Moves(s, ms)
    decreases |ms|
  {
    if ms == [] then [] else NextKeeps(s, ms[0]); FetchedBy(s, ms[0], t) + AllFetched(Next(s, ms[0]), ms[1..], t)
  }

  lemma PostStep(s: System, m: Move, t: Task)
    requires Good(s) && Allowed(s, m) && Posts(s, m, t)
    ensures InBox(s, t) + PostedBy(s, m, t) == FetchedBy(s, m, t) + InBox(Next(s, m), t)
  {
    hide Inv, TaskOk, BlockCurrent, MoveToReady, ReadyOrPend, ClearBits, Or, Step;
    assert At(s.value, t) < WRAP;
  }

  /** Used as a mailbox of one value: over every run the values sent with success are,
      in order, the values fetched with success and the one still in the box. */
  lemma {:induction false} MailboxKeepsAll(s: System, ms: seq<Move>, t: Task)
    requires Good(s) && Moves(s, ms) && PostsOnly(s, ms, t)
    ensures InBox(s, t) + AllPosted(s, ms, t) == AllFetched(s, ms, t) + InBox(After(s, ms), t)
    decreases |ms|
  {
    hide Good, Next, Posts, Allowed, InBox, PostedBy, FetchedBy;
    if ms != [] {
      NextKeeps(s, ms[0]);
      PostStep(s, ms[0], t);
      var s' := Next(s, ms[0]);
      MailboxKeepsAll(s', ms[1..], t);
      Chain(InBox(s, t), PostedBy(s, ms[0], t), FetchedBy(s, ms[0], t), InBox(s', t),
            AllPosted(s', ms[1..], t), AllFetched(s', ms[1..], t), InBox(After(s, ms), t));
    }
  }

  lemma Chain(a: seq<nat>, p: seq<nat>, f: seq<nat>, b: seq<nat>, ps: seq<nat>, fs: seq<nat>, c: seq<nat>)
    requires a + p == f + b && b + ps == fs + c
    ensures a + (p + ps) == (f + fs) + c
  {
    assert a + (p + ps) == (a + p) + ps == f + (b + ps) == (f + fs) + c;
  }
}

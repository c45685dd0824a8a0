/** The queue protocol with a clock: the timeout state and the block time of every
    call, and a tick that takes overdue waiters off the event lists. */
module QueueTimeouts {
  import opened Basics
  import opened Ticks
  import opened Timeouts
  import opened QueueSides
  import P = QueueProtocol

  /** The locals of a call. */
  datatype Call = Call(
    asked: nat,    // the block time the caller gave
    left: nat,     // xTicksToWait
    timed: bool,   // xEntryTimeSet
    begun: nat,    // when that happened
    since: nat     // the time for which xTimeOut stands
  )

  datatype Timed = Timed(
    q: P.Queue,
    clock: nat,               // unbounded time
    call: map<Task, Call>
  )

  datatype Event =
    | Tick
    | Begin(task: Task, op: P.Op, ticks: Word)
    | Do(event: P.Event)

  function CallOf(s: Timed, t: Task): Call { if t in s.call then s.call[t] else Call(0, 0, false, 0, 0) }

  /** When the delayed list gives the waiter up. */
  function Due(s: Timed, t: Task): nat { CallOf(s, t).since + CallOf(s, t).left }

  /** What xTaskCheckForTimeOut says of a call. */
  predicate Answer(c: Call, clock: nat) {
    Expires(Low(c.since), Overflows(c.since), c.left, Low(clock), Overflows(clock))
  }

  /** While the scheduler is suspended ticks are held back, so the clock stands. */
  ghost predicate Enabled(s: Timed, e: Event) {
    match e
    case Tick => s.q.owner == P.Nobody && forall t :: P.Waits(s.q, t) ==> s.clock < Due(s, t)
    case Begin(t, op, _) => P.Enabled(s.q, P.Enter(t, op))
    case Do(e) =>
      && P.Enabled(s.q, e) && !e.Enter?
      && (e.Try? ==> (e.again <==> CallOf(s, e.task).left > 0))
      && (e.Check? ==> (e.expired <==> Answer(CallOf(s, e.task), s.clock)))
      && (e.TimeOut? ==> s.clock >= Due(s, e.task))
  }

  /** A first try that fails sets the timeout state. */
  function Started(c: Call, clock: nat): Call {
    if c.timed then c else c.(timed := true, begun := clock, since := clock)
  }

  function Checked(c: Call, clock: nat): Call {
    if Answer(c, clock) then c.(left := 0) else c.(left := c.left - Minus(Low(clock), Low(c.since)), since := clock)
  }

  function Update(s: Timed, e: P.Event): map<Task, Call>
    requires P.Enabled(s.q, e)
  {
    if e.Try? && P.PcOf(P.Next(s.q, e), e.task).Suspending? then
      s.call[e.task := Started(CallOf(s, e.task), s.clock)]
    else if e.Check? then s.call[e.task := Checked(CallOf(s, e.task), s.clock)]
    else s.call
  }

  ghost function Next(s: Timed, e: Event): Timed
    requires Enabled(s, e)
  {
    match e
    case Tick => s.(clock := s.clock + 1)
    case Begin(t, op, n) => s.(q := P.Next(s.q, P.Enter(t, op)), call := s.call[t := Call(n, n, false, 0, 0)])
    case Do(e) => Timed(P.Next(s.q, e), s.clock, Update(s, e))
  }

  // ---------------------------------------------------------------- invariant

  /** The time left reaches to the end of the wait; with `exact`, just to it. */
  predicate Reaches(c: Call, exact: bool) {
    if exact then c.since + c.left == c.begun + c.asked else c.since + c.left >= c.begun + c.asked
  }

  predicate CallOk(c: Call, pc: P.Pc, clock: nat, listed: bool, exact: bool) {
    && c.left <= c.asked < WRAP
    && (!c.timed ==> pc.Trying? && c.left == c.asked && !listed)
    && (c.timed ==> c.begun <= c.since <= clock && if c.left > 0 then Reaches(c, exact) else clock >= c.begun + c.asked)
    && (pc.Suspending? || pc.Held? || pc.Checking? || pc.Placing? || listed ==> c.left > 0)
    && ((pc.UnlockingTx? || pc.UnlockingRx? || pc.Resuming?) && pc.expired ==> c.left == 0)
    && (pc.Placing? ==> c.since == clock)
    && (listed ==> clock <= c.since + c.left)
  }

  ghost predicate TaskOk(s: Timed, t: Task, exact: bool) {
    P.PcOf(s.q, t).Out? || CallOk(CallOf(s, t), P.PcOf(s.q, t), s.clock, P.Waits(s.q, t), exact)
  }

  ghost predicate Ok(s: Timed, exact: bool) { P.Good(s.q, false) && forall t :: TaskOk(s, t, exact) }

  /** A check less than two overflows after the timeout state was set. */
  predicate Close(s: Timed, e: Event) {
    e.Do? && e.event.Check? ==>
      var c := CallOf(s, e.event.task); c.since <= s.clock && Epoch(s.clock) <= Epoch(c.since) + 1
  }

  // ------------------------------------------------------------- preservation

  /** Expiry is never reported early; otherwise the time left still reaches as far. */
  lemma CheckedReaches(c: Call, clock: nat, exact: bool)
    requires c.timed && c.begun <= c.since <= clock && 0 < c.left <= c.asked < WRAP && Reaches(c, exact)
    requires exact ==> Epoch(clock) <= Epoch(c.since) + 1
    ensures var c' := Checked(c, clock); c' == c.(left := c'.left, since := if Answer(c, clock) then c.since else clock)
    ensures var c' := Checked(c, clock);
            if Answer(c, clock) then c'.left == 0 && clock >= c.begun + c.asked
            else
              && 0 < c'.left <= c.left && c'.since == clock && Reaches(c', exact)
              && (exact ==> clock < c.begun + c.asked)
  {
    hide Low, Epoch, Overflows, TurnShows, Expires;
    ExpiresExactly(c.since, c.left, clock);
    Elapsed(c.since, clock);
    Late(c.since, c.left, clock);
    Remains(clock - c.since);
    if exact {
      OneOverflow(c.since, c.left, clock);
      Short(c.since, clock, c.left);
    }
  }

  lemma Remains(d: nat)
    ensures d % WRAP <= d
  {
  }

  lemma Late(start: nat, ticks: nat, time: nat)
    requires start <= time && ticks < WRAP
    ensures !TurnShows(start, ticks, time) ==> time - start >= ticks
    ensures !Expires(Low(start), Overflows(start), ticks, Low(time), Overflows(time)) ==>
            Minus(Low(time), Low(start)) < ticks
  {
  }

  lemma PcOnlyOwn(q: P.Queue, e: P.Event, u: Task)
    requires P.Enabled(q, e)
    ensures P.IsISR(e) || e.TimeOut? || e.Reset? || u != e.task ==> P.PcOf(P.Next(q, e), u) == P.PcOf(q, u)
  {
  }

  /** Nobody comes onto a list but the task that is placed there. */
  lemma ListedBefore(q: P.Queue, e: P.Event, u: Task)
    requires P.Good(q, false) && P.Enabled(q, e)
    ensures P.Waits(P.Next(q, e), u) ==> P.Waits(q, u) || (e.Place? && e.task == u)
    ensures e.TimeOut? ==> !P.Waits(P.Next(q, e), e.task)
  {
    hide P.PcOk, SideOk, P.Next, P.Good;
    P.SidesClean(q, false);
    P.UnlockShrinks(q.rx, u);
    P.UnlockShrinks(q.tx, u);
    if e.TimeOut? {
      P.TimedOut(q, e.task);
    }
    Lists(q, e, u);
  }

  lemma Lists(q: P.Queue, e: P.Event, u: Task)
    requires Clean(q.rx) && Clean(q.tx) && P.Enabled(q, e)
    requires P.Shrinks(q.rx, Unlock(q.rx), u) && P.Shrinks(q.tx, Unlock(q.tx), u)
    ensures P.Waits(P.Next(q, e), u) ==> P.Waits(q, u) || (e.Place? && e.task == u)
  {
    hide Unlock;
  }

  /** The step is one in the call of `u`. */
  predicate Own(e: P.Event, u: Task) { !P.IsISR(e) && !e.TimeOut? && !e.Reset? && e.task == u }

  lemma BystanderKeeps(s: Timed, e: P.Event, u: Task, exact: bool)
    requires Ok(s, exact) && Enabled(s, Do(e)) && !Own(e, u)
    ensures TaskOk(Next(s, Do(e)), u, exact)
  {
    hide P.Good, P.Next, P.Waits;
    PcOnlyOwn(s.q, e, u);
    ListedBefore(s.q, e, u);
    assert TaskOk(s, u, exact);
  }

  lemma NotListed(s: Timed, t: Task, exact: bool)
    requires Ok(s, exact) && !P.MayBeListed(P.PcOf(s.q, t))
    ensures !P.Waits(s.q, t)
  {
    hide SideOk;
    assert P.PcOk(s.q.rx, s.q.tx, s.q.owner, s.q.tasks, P.PcOf(s.q, t), t);
  }

  lemma OwnKeeps(s: Timed, e: P.Event, exact: bool)
    requires Ok(s, exact) && Enabled(s, Do(e)) && !P.IsISR(e) && Own(e, e.task) && (exact ==> Close(s, Do(e)))
    ensures TaskOk(Next(s, Do(e)), e.task, exact)
  {
    hide P.Good, P.Waits, Answer, Checked;
    var t := e.task;
    assert TaskOk(s, t, exact);
    ListedBefore(s.q, e, t);
    var c := CallOf(s, t);
    if e.Check? {
      CheckedReaches(c, s.clock, exact);
      NotListed(s, t, exact);
    } else if e.Try? {
      assert !P.Waits(s.q, t);
    }
  }

  lemma TickKeeps(s: Timed, u: Task, exact: bool)
    requires Ok(s, exact) && Enabled(s, Tick)
    ensures TaskOk(Next(s, Tick), u, exact)
  {
    hide SideOk, P.Waits;
    assert TaskOk(s, u, exact);
    assert P.PcOk(s.q.rx, s.q.tx, s.q.owner, s.q.tasks, P.PcOf(s.q, u), u);
  }

  lemma NextKeeps(s: Timed, e: Event, exact: bool)
    requires Ok(s, exact) && Enabled(s, e) && (exact ==> Close(s, e))
    ensures Ok(Next(s, e), exact)
  {
    hide P.Good, P.Next, P.Waits, CallOk;
    match e
    case Tick =>
      forall u ensures TaskOk(Next(s, e), u, exact) { TickKeeps(s, u, exact); }
    case Begin(t, op, n) =>
      P.NextKeeps(s.q, P.Enter(t, op), false);
      forall u ensures TaskOk(Next(s, e), u, exact) { BeginKeeps(s, t, op, n, u, exact); }
    case Do(e') =>
      P.NextKeeps(s.q, e', false);
      forall u ensures TaskOk(Next(s, e), u, exact) {
        if Own(e', u) { OwnKeeps(s, e', exact); } else { BystanderKeeps(s, e', u, exact); }
      }
  }

  lemma BeginKeeps(s: Timed, t: Task, op: P.Op, n: Word, u: Task, exact: bool)
    requires Ok(s, exact) && Enabled(s, Begin(t, op, n))
    ensures TaskOk(Next(s, Begin(t, op, n)), u, exact)
  {
    hide P.Good;
    assert TaskOk(s, u, exact);
  }

  // --------------------------------------------------------------------- runs

  ghost predicate Runs(s: Timed, es: seq<Event>)
    decreases |es|
  {
    es == [] || (Enabled(s, es[0]) && Runs(Next(s, es[0]), es[1..]))
  }

  ghost function Run(s: Timed, es: seq<Event>): Timed
    requires Runs(s, es)
    decreases |es|
  {
    if es == [] then s else Run(Next(s, es[0]), es[1..])
  }

  ghost predicate AllClose(s: Timed, es: seq<Event>)
    requires Runs(s, es)
    decreases |es|
  {
    es == [] || (Close(s, es[0]) && AllClose(Next(s, es[0]), es[1..]))
  }

  lemma {:induction false} RunKeeps(s: Timed, es: seq<Event>, exact: bool)
    requires Ok(s, exact) && Runs(s, es) && (exact ==> AllClose(s, es))
    ensures Ok(Run(s, es), exact)
    decreases |es|
  {
    hide Ok, Enabled, Next, Close;
    if es != [] {
      NextKeeps(s, es[0], exact);
      RunKeeps(Next(s, es[0]), es[1..], exact);
    }
  }

  ghost predicate Fresh(s: Timed) { P.Fresh(s.q) }

  lemma FreshIsOk(s: Timed, exact: bool)
    requires Fresh(s)
    ensures Ok(s, exact)
  {
    P.FreshIsGood(s.q);
    hide P.Good;
  }

  /** The step with which a call of `t` returns errQUEUE_EMPTY or errQUEUE_FULL. */
  ghost predicate ComesBackEmpty(s: Timed, e: P.Event, t: Task)
    requires P.Enabled(s.q, e)
  {
    || e == P.Resume(t, true)
    || (e == P.Try(t, false) && !P.PcOf(s.q, t).op.Overwrite? && P.SideOf(s.q, P.PcOf(s.q, t).op).avail == 0)
  }

  /** A call that blocks comes back empty only when the whole time it was given has
      passed since it first found nothing, whatever wrapped and however often it was
      woken for nothing. */
  lemma NeverEarly(s: Timed, es: seq<Event>, e: P.Event, t: Task)
    requires Fresh(s) && Runs(s, es) && Enabled(Run(s, es), Do(e)) && ComesBackEmpty(Run(s, es), e, t)
    ensures var c := CallOf(Run(s, es), t); c.asked > 0 ==> c.timed && Run(s, es).clock >= c.begun + c.asked
  {
    hide Run, Runs, P.Good;
    FreshIsOk(s, false);
    RunKeeps(s, es, false);
    assert TaskOk(Run(s, es), t, false);
  }

  /** With checks that are not two overflows apart it is also never late: nobody stays
      on a list beyond the end of its wait, and the first check after it says so. */
  lemma NeverLate(s: Timed, es: seq<Event>, t: Task)
    requires Fresh(s) && Runs(s, es) && AllClose(s, es)
    ensures var s', c := Run(s, es), CallOf(Run(s, es), t);
            && (P.Waits(s'.q, t) ==> c.timed && s'.clock <= c.begun + c.asked)
            && (forall x :: Enabled(s', Do(P.Check(t, x))) && Close(s', Do(P.Check(t, x))) ==>
                              (x <==> s'.clock >= c.begun + c.asked))
  {
    hide Run, Runs, AllClose, P.Good, Answer;
    FreshIsOk(s, true);
    RunKeeps(s, es, true);
    var s', c := Run(s, es), CallOf(Run(s, es), t);
    assert TaskOk(s', t, true);
    if P.Waits(s'.q, t) { Listed(s', t); }
    if P.PcOf(s'.q, t).Checking? && Epoch(s'.clock) <= Epoch(c.since) + 1 {
      CheckedReaches(c, s'.clock, true);
    }
  }

  lemma Listed(s: Timed, t: Task)
    requires Ok(s, true) && P.Waits(s.q, t)
    ensures !P.PcOf(s.q, t).Out?
  {
    hide SideOk;
    assert P.PcOk(s.q.rx, s.q.tx, s.q.owner, s.q.tasks, P.PcOf(s.q, t), t);
  }
}

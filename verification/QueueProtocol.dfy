/** Tasks and interrupts on one queue or semaphore.  A step is one critical section
    of queue.c; interrupts come between any two.  Overwriting is for items that have
    bytes: for others it miscounts, see QueueObject. */
module QueueProtocol {
  import opened Basics
  import opened QueueSides
  import opened Rings

  datatype Op = Send | Overwrite | Receive | Peek

  /** How far a task has come in xQueueGenericSend, xQueueReceive, xQueuePeek or
      xQueueSemaphoreTake.  `expired` is the answer of xTaskCheckForTimeOut. */
  datatype Pc =
    | Out
    | Trying(op: Op)                        // at the top of the loop, or asleep before it
    | Suspending(op: Op)                    // found nothing, about to suspend the scheduler
    | Held(op: Op)                          // scheduler suspended, about to lock
    | Checking(op: Op)                      // queue locked
    | Placing(op: Op)                       // still nothing: about to join the event list
    | UnlockingTx(op: Op, expired: bool)
    | UnlockingRx(op: Op, expired: bool)
    | Resuming(op: Op, expired: bool)

  datatype Owner = Nobody | By(task: Task)

  datatype Queue = Queue(
    length: nat,
    rx: Side,
    tx: Side,
    owner: Owner,          // the task that has suspended the scheduler
    pc: map<Task, Pc>,
    tasks: set<Task>
  )

  datatype Event =
    | Enter(task: Task, op: Op)
    | Try(task: Task, again: bool)          // again: there is block time left
    | Suspend(task: Task)
    | LockQueue(task: Task)
    | Check(task: Task, expired: bool)
    | Place(task: Task, at: nat)            // the event list is kept by priority
    | UnlockTx(task: Task)
    | UnlockRx(task: Task)
    | Resume(task: Task, giveUp: bool)
    | TimeOut(task: Task)                   // the tick takes a waiter off its list
    | PutISR | OverwriteISR | GetISR
    | Reset(task: Task)                     // xQueueGenericReset

  function PcOf(q: Queue, t: Task): Pc { if t in q.pc then q.pc[t] else Out }

  predicate Waits(q: Queue, t: Task) { t in q.rx.waiters || t in q.tx.waiters }

  /** A task acts unless it is blocked or another has suspended the scheduler. */
  predicate MayRun(q: Queue, t: Task) {
    t in q.tasks && !Waits(q, t) && (q.owner == Nobody || q.owner == By(t))
  }

  function SideOf(q: Queue, op: Op): Side { if op == Send || op == Overwrite then q.tx else q.rx }

  predicate Enabled(q: Queue, e: Event) {
    match e
    case Enter(t, op) => MayRun(q, t) && PcOf(q, t) == Out && (op == Overwrite ==> q.length == 1)
    case Try(t, _) => MayRun(q, t) && PcOf(q, t).Trying? && q.owner == Nobody
    case Suspend(t) => MayRun(q, t) && PcOf(q, t).Suspending? && q.owner == Nobody
    case LockQueue(t) => PcOf(q, t).Held?
    case Check(t, _) => PcOf(q, t).Checking?
    case Place(t, at) => PcOf(q, t).Placing? && at <= |SideOf(q, PcOf(q, t).op).waiters|
    case UnlockTx(t) => PcOf(q, t).UnlockingTx?
    case UnlockRx(t) => PcOf(q, t).UnlockingRx?
    case Resume(t, g) => PcOf(q, t).Resuming? && (g ==> PcOf(q, t).expired)
    case TimeOut(t) => Waits(q, t)
    case PutISR => true
    case OverwriteISR => q.length == 1
    case GetISR => true
    case Reset(t) => MayRun(q, t) && PcOf(q, t) == Out && q.owner == Nobody
  }

  function Insert(ts: seq<Task>, at: nat, t: Task): seq<Task>
    requires at <= |ts|
  {
    ts[..at] + [t] + ts[at..]
  }

  function Go(q: Queue, t: Task, pc: Pc): Queue { q.(pc := q.pc[t := pc]) }

  /** The critical section at the top of the loop. */
  function TryOp(q: Queue, t: Task, op: Op, again: bool): Queue {
    var n := if SideOf(q, op).avail > 0 then 1 else 0;
    var q' := Go(q, t, if n == 0 && again && op != Overwrite then Suspending(op) else Out);
    match op
    case Send => q'.(tx := Tried(Use(q.tx), t), rx := if n == 1 then Post(q.rx, 1) else q.rx)
    case Overwrite => q'.(tx := Use(q.tx), rx := Post(q.rx, n))
    case Receive => q'.(rx := Tried(Use(q.rx), t), tx := if n == 1 then Post(q.tx, 1) else q.tx)
    case Peek => q'.(rx := if n == 1 then Post(Tried(q.rx, t), 0) else Tried(q.rx, t))
  }

  /** Interrupts that send, overwrite or receive. */
  function IsrOp(q: Queue, e: Event): Queue
    requires e.PutISR? || e.OverwriteISR? || e.GetISR?
  {
    var n := |q.tasks|;
    match e
    case PutISR =>
      if q.tx.avail == 0 then q
      else q.(tx := Use(q.tx), rx := Signal(q.rx.(avail := q.rx.avail + 1), n))
    case OverwriteISR =>
      if q.tx.avail == 0 then q.(rx := Signal(q.rx, n))
      else q.(tx := Use(q.tx), rx := Signal(q.rx.(avail := q.rx.avail + 1), n))
    case GetISR =>
      if q.rx.avail == 0 then q
      else q.(rx := Use(q.rx), tx := Signal(q.tx.(avail := q.tx.avail + 1), n))
  }

  function Next(q: Queue, e: Event): Queue
    requires Enabled(q, e)
  {
    match e
    case Enter(t, op) => Go(q, t, Trying(op))
    case Try(t, again) => TryOp(q, t, PcOf(q, t).op, again)
    case Suspend(t) => Go(q, t, Held(PcOf(q, t).op)).(owner := By(t))
    case LockQueue(t) => Go(q, t, Checking(PcOf(q, t).op)).(rx := Lock(q.rx), tx := Lock(q.tx))
    case Check(t, expired) =>
      var op := PcOf(q, t).op;
      Go(q, t, if !expired && SideOf(q, op).avail == 0 then Placing(op) else UnlockingTx(op, expired))
    case Place(t, at) =>
      var op := PcOf(q, t).op;
      var q' := Go(q, t, UnlockingTx(op, false));
      if op == Send || op == Overwrite then q'.(tx := q.tx.(waiters := Insert(q.tx.waiters, at, t)))
      else q'.(rx := q.rx.(waiters := Insert(q.rx.waiters, at, t)))
    case UnlockTx(t) => Go(q, t, UnlockingRx(PcOf(q, t).op, PcOf(q, t).expired)).(rx := Unlock(q.rx))
    case UnlockRx(t) => Go(q, t, Resuming(PcOf(q, t).op, PcOf(q, t).expired)).(tx := Unlock(q.tx))
    case Resume(t, g) => Go(q, t, if g then Out else Trying(PcOf(q, t).op)).(owner := Nobody)
    case TimeOut(t) =>
      q.(rx := q.rx.(waiters := Without(q.rx.waiters, t)), tx := q.tx.(waiters := Without(q.tx.waiters, t)))
    case PutISR => IsrOp(q, e)
    case OverwriteISR => IsrOp(q, e)
    case GetISR => IsrOp(q, e)
    case Reset(_) =>
      q.(rx := q.rx.(avail := 0, lock := UNLOCKED),
         tx := WakeOne(q.tx.(avail := q.length, lock := UNLOCKED)))
  }

  lemma SendIs(q: Queue, t: Task, again: bool)
    requires Enabled(q, Try(t, again)) && (PcOf(q, t).op == Send || PcOf(q, t).op == Overwrite)
    ensures var over, room := PcOf(q, t).op == Overwrite, q.tx.avail > 0;
            Next(q, Try(t, again)) ==
              q.(pc := q.pc[t := if !room && again && !over then Suspending(Send) else Out],
                 tx := if over then Use(q.tx) else Tried(Use(q.tx), t),
                 rx := if room || over then Post(q.rx, if room then 1 else 0) else q.rx)
  {
  }

  lemma ReceiveIs(q: Queue, t: Task, again: bool)
    requires Enabled(q, Try(t, again)) && PcOf(q, t).op == Receive
    ensures Next(q, Try(t, again)) ==
              q.(pc := q.pc[t := if q.rx.avail == 0 && again then Suspending(Receive) else Out],
                 rx := Tried(Use(q.rx), t), tx := if q.rx.avail > 0 then Post(q.tx, 1) else q.tx)
  {
  }

  lemma PeekIs(q: Queue, t: Task, again: bool)
    requires Enabled(q, Try(t, again)) && PcOf(q, t).op == Peek
    ensures Next(q, Try(t, again)) ==
              q.(pc := q.pc[t := if q.rx.avail == 0 && again then Suspending(Peek) else Out],
                 rx := if q.rx.avail > 0 then Post(Tried(q.rx, t), 0) else Tried(q.rx, t))
  {
  }

  lemma ResetIs(q: Queue, t: Task)
    requires Enabled(q, Reset(t))
    ensures var tx := q.tx.(avail := q.length, lock := UNLOCKED);
            Next(q, Reset(t)) == q.(rx := q.rx.(avail := 0, lock := UNLOCKED), tx := WakeOne(tx))
  {
  }

  lemma TimedOut(q: Queue, t: Task)
    requires Good(q, false) && Waits(q, t)
    ensures !Waits(Next(q, TimeOut(t)), t)
  {
    hide PcOk, Covered, NoDuplicates, Without;
    WithoutMembers(q.rx.waiters, t);
    WithoutMembers(q.tx.waiters, t);
  }

  lemma IsrIs(q: Queue, e: Event)
    requires Enabled(q, e) && (e.PutISR? || e.OverwriteISR? || e.GetISR?)
    ensures Next(q, e) == IsrOp(q, e)
  {
  }

  // ------------------------------------------------------ a call that blocks at once

  /** The queue while `t` holds the scheduler, at `pc` and with these lock counts. */
  function Holding(q: Queue, t: Task, pc: Pc, rx: int, tx: int): Queue {
    q.(owner := By(t), pc := q.pc[t := pc], rx := q.rx.(lock := rx), tx := q.tx.(lock := tx))
  }

  /** `t` joins the list of its side. */
  function Listed(q: Queue, t: Task, op: Op, at: nat): Queue
    requires at <= |SideOf(q, op).waiters|
  {
    if op == Send || op == Overwrite then q.(tx := q.tx.(waiters := Insert(q.tx.waiters, at, t)))
    else q.(rx := q.rx.(waiters := Insert(q.rx.waiters, at, t)))
  }

  lemma Begins(q: Queue, t: Task, op: Op)
    requires MayRun(q, t) && q.owner == Nobody && PcOf(q, t) == Suspending(op)
    requires q.rx.lock == q.tx.lock == UNLOCKED && SideOf(q, op).avail == 0
    ensures Enabled(q, Suspend(t)) && Next(q, Suspend(t)) == Holding(q, t, Held(op), UNLOCKED, UNLOCKED)
    ensures var r := Holding(q, t, Held(op), UNLOCKED, UNLOCKED);
            Enabled(r, LockQueue(t)) && Next(r, LockQueue(t)) == Holding(q, t, Checking(op), 0, 0)
    ensures var r := Holding(q, t, Checking(op), 0, 0);
            Enabled(r, Check(t, false)) && Next(r, Check(t, false)) == Holding(q, t, Placing(op), 0, 0)
  {
  }

  lemma Joins(q: Queue, t: Task, op: Op, at: nat)
    requires at <= |SideOf(q, op).waiters|
    ensures var r := Holding(q, t, Placing(op), 0, 0);
            && Enabled(r, Place(t, at))
            && Next(r, Place(t, at)) == Holding(Listed(q, t, op, at), t, UnlockingTx(op, false), 0, 0)
  {
  }

  lemma Ends(q: Queue, t: Task, op: Op)
    requires q.rx.lock == q.tx.lock == UNLOCKED && q.owner == Nobody
    ensures var r := Holding(q, t, UnlockingTx(op, false), 0, 0);
            Enabled(r, UnlockTx(t)) && Next(r, UnlockTx(t)) == Holding(q, t, UnlockingRx(op, false), UNLOCKED, 0)
    ensures var r := Holding(q, t, UnlockingRx(op, false), UNLOCKED, 0);
            Enabled(r, UnlockRx(t)) && Next(r, UnlockRx(t)) == Holding(q, t, Resuming(op, false), UNLOCKED, UNLOCKED)
    ensures var r := Holding(q, t, Resuming(op, false), UNLOCKED, UNLOCKED);
            Enabled(r, Resume(t, false)) && Next(r, Resume(t, false)) == Go(q, t, Trying(op))
  {
  }

  // ---------------------------------------------------------------- invariants

  predicate Owns(pc: Pc) { !pc.Out? && !pc.Trying? && !pc.Suspending? }

  predicate MayBeListed(pc: Pc) { pc.Trying? || ((pc.UnlockingTx? || pc.UnlockingRx? || pc.Resuming?) && !pc.expired) }

  ghost predicate Accounted(s: Side, n: nat) { s.avail <= Pending(s) || s.lock >= n }

  ghost predicate PcOk(rx: Side, tx: Side, owner: Owner, tasks: set<Task>, pc: Pc, t: Task) {
    && (t in rx.waiters || t in rx.woken ==> t in tasks && MayBeListed(pc) && (pc.op == Receive || pc.op == Peek))
    && (t in tx.waiters || t in tx.woken ==> t in tasks && MayBeListed(pc) && pc.op == Send)
    && (Owns(pc) ==> owner == By(t) && t in tasks)
    && (pc.Checking? || pc.Placing? ==> rx.lock >= 0 && tx.lock >= 0)
    && (!pc.Out? && !pc.Trying? ==> pc.op != Overwrite)
    && (pc.Placing? ==> Accounted(if pc.op == Send then tx else rx, |tasks|))
  }

  /** The invariant; without `senders` the claim about waiting senders is left out. */
  ghost predicate Good(q: Queue, senders: bool) {
    && q.rx.avail + q.tx.avail == q.length
    && SideOk(q.rx, |q.tasks|) && SideOk(q.tx, if senders then |q.tasks| else UNLOCKED)
    && forall t :: PcOk(q.rx, q.tx, q.owner, q.tasks, PcOf(q, t), t)
  }

  // -------------------------------------------------------------- preservation

  /** Nobody new on the list, and nobody newly woken who was not on it. */
  ghost predicate Shrinks(s: Side, s': Side, t: Task) {
    (t in s'.waiters ==> t in s.waiters) && (t in s'.woken ==> t in s.woken || t in s.waiters)
  }

  lemma UnlockShrinks(s: Side, t: Task)
    requires Clean(s)
    ensures Shrinks(s, Unlock(s), t)
  {
    WakeManyKeeps(s, s.lock);
  }

  lemma InsertKeeps(ts: seq<Task>, at: nat, t: Task)
    requires NoDuplicates(ts) && t !in ts && at <= |ts|
    ensures NoDuplicates(Insert(ts, at, t)) && forall x :: x in Insert(ts, at, t) <==> x in ts || x == t
  {
    var r := Insert(ts, at, t);
    forall x ensures x in r <==> x in ts || x == t {
      assert ts == ts[..at] + ts[at..];
    }
    forall i, j | 0 <= i < j < |r| ensures r[i] != r[j] {
      var i0, j0 := if i < at then i else i - 1, if j < at then j else j - 1;
      if i == at { assert r[j] == ts[j0]; }
      else if j == at { assert r[i] == ts[i0]; }
      else { assert r[i] == ts[i0] && r[j] == ts[j0]; }
    }
  }

  /** A task that did not move itself, when no list gained members. */
  lemma BystanderKeeps(q: Queue, rx: Side, tx: Side, owner: Owner, u: Task)
    requires PcOk(q.rx, q.tx, q.owner, q.tasks, PcOf(q, u), u)
    requires Shrinks(q.rx, rx, u) && Shrinks(q.tx, tx, u)
    requires owner == q.owner || !Owns(PcOf(q, u))
    requires PcOf(q, u).Checking? || PcOf(q, u).Placing? ==> rx.lock >= 0 && tx.lock >= 0
    requires PcOf(q, u).Placing? ==> Accounted(if PcOf(q, u).op == Send then tx else rx, |q.tasks|)
    ensures PcOk(rx, tx, owner, q.tasks, PcOf(q, u), u)
  {
  }

  predicate IsISR(e: Event) { e.PutISR? || e.OverwriteISR? || e.GetISR? }

  lemma IsrKeeps(q: Queue, e: Event, senders: bool, u: Task)
    requires Good(q, senders) && Enabled(q, e) && IsISR(e)
    ensures var q' := Next(q, e); PcOk(q'.rx, q'.tx, q'.owner, q'.tasks, PcOf(q', u), u)
  {
    hide Clean, Covered;
    var q' := Next(q, e);
    assert PcOk(q.rx, q.tx, q.owner, q.tasks, PcOf(q, u), u);
    BystanderKeeps(q, q'.rx, q'.tx, q'.owner, u);
  }

  lemma PostShrinks(s: Side, more: nat, t: Task)
    ensures Shrinks(s, Post(s, more), t)
  {
  }

  lemma TryKeeps(q: Queue, e: Event, senders: bool, u: Task)
    requires Good(q, senders) && Enabled(q, e) && e.Try?
    ensures var q' := Next(q, e); PcOk(q'.rx, q'.tx, q'.owner, q'.tasks, PcOf(q', u), u)
  {
    hide SideOk, Post, Accounted;
    var q' := Next(q, e);
    assert PcOk(q.rx, q.tx, q.owner, q.tasks, PcOf(q, u), u);
    assert PcOk(q.rx, q.tx, q.owner, q.tasks, PcOf(q, e.task), e.task);
    PostShrinks(q.rx, 0, u);
    PostShrinks(q.rx, 1, u);
    PostShrinks(q.tx, 1, u);
    PostShrinks(Tried(q.rx, e.task), 0, u);
    if u != e.task {
      BystanderKeeps(q, q'.rx, q'.tx, q'.owner, u);
    }
  }

  lemma ResetKeeps(q: Queue, e: Event, senders: bool, u: Task)
    requires Good(q, senders) && Enabled(q, e) && e.Reset?
    ensures var q' := Next(q, e); PcOk(q'.rx, q'.tx, q'.owner, q'.tasks, PcOf(q', u), u)
  {
    hide SideOk;
    var q' := Next(q, e);
    assert PcOk(q.rx, q.tx, q.owner, q.tasks, PcOf(q, u), u);
    BystanderKeeps(q, q'.rx, q'.tx, q'.owner, u);
  }

  lemma PlaceKeeps(q: Queue, e: Event, senders: bool, u: Task)
    requires Good(q, senders) && Enabled(q, e) && (e.Place? || e.TimeOut?)
    ensures var q' := Next(q, e); PcOk(q'.rx, q'.tx, q'.owner, q'.tasks, PcOf(q', u), u)
  {
    hide Covered, Insert, Without, NoDuplicates;
    var q' := Next(q, e);
    assert PcOk(q.rx, q.tx, q.owner, q.tasks, PcOf(q, u), u);
    assert PcOk(q.rx, q.tx, q.owner, q.tasks, PcOf(q, e.task), e.task);
    if e.TimeOut? {
      WithoutMembers(q.rx.waiters, e.task);
      WithoutMembers(q.tx.waiters, e.task);
    } else if PcOf(q, e.task).op == Send {
      InsertKeeps(q.tx.waiters, e.at, e.task);
    } else {
      InsertKeeps(q.rx.waiters, e.at, e.task);
    }
  }

  lemma OwnStepKeeps(q: Queue, e: Event, senders: bool, u: Task)
    requires Good(q, senders) && Enabled(q, e) && !IsISR(e) && !e.Try? && !e.Reset? && !e.Place? && !e.TimeOut?
    ensures var q' := Next(q, e); PcOk(q'.rx, q'.tx, q'.owner, q'.tasks, PcOf(q', u), u)
  {
    hide Covered, Clean, Unlock;
    UnlockShrinks(q.rx, u);
    UnlockShrinks(q.tx, u);
    assert PcOk(q.rx, q.tx, q.owner, q.tasks, PcOf(q, u), u);
    assert PcOk(q.rx, q.tx, q.owner, q.tasks, PcOf(q, e.task), e.task);
  }

  // ------------------------------------------------------------ the two sides

  lemma PlaceCovers(s: Side, at: nat, t: Task, n: nat)
    requires Clean(s) && s.lock >= UNLOCKED && Accounted(s, n) && at <= |s.waiters| && t !in s.waiters && t !in s.woken
    ensures SideOk(s.(waiters := Insert(s.waiters, at, t)), n)
  {
    hide Insert;
    InsertKeeps(s.waiters, at, t);
  }

  lemma TimeOutKeeps(s: Side, t: Task, n: int)
    requires SideOk(s, n)
    ensures SideOk(s.(waiters := Without(s.waiters, t)), n)
  {
    WithoutMembers(s.waiters, t);
  }

  /** The list never holds more tasks than there are. */
  lemma {:induction false} ListFits(ts: seq<Task>, tasks: set<Task>)
    requires NoDuplicates(ts) && forall t :: t in ts ==> t in tasks
    ensures |ts| <= |tasks|
    decreases |ts|
  {
    if ts != [] {
      assert ts[0] in tasks && ts[0] !in ts[1..];
      assert tasks == (tasks - {ts[0]}) + {ts[0]};
      ListFits(ts[1..], tasks - {ts[0]});
    }
  }

  lemma SideFits(q: Queue, senders: bool)
    requires Good(q, senders)
    ensures |q.rx.waiters| <= |q.tasks| && |q.tx.waiters| <= |q.tasks|
  {
    hide Covered, NoDuplicates;
    forall t | t in q.rx.waiters || t in q.tx.waiters ensures t in q.tasks {
      assert PcOk(q.rx, q.tx, q.owner, q.tasks, PcOf(q, t), t);
    }
    ListFits(q.rx.waiters, q.tasks);
    ListFits(q.tx.waiters, q.tasks);
  }

  lemma TrySides(q: Queue, e: Event, senders: bool)
    requires Good(q, senders) && Enabled(q, e) && e.Try?
    ensures SidesGood(Next(q, e), senders)
  {
    hide PcOk, SideOk;
    var t, n, m := e.task, |q.tasks|, if senders then |q.tasks| else UNLOCKED;
    match PcOf(q, t).op
    case Send => PostKeeps(q.rx, 1, n); TakeKeeps(q.tx, t, m);
    case Overwrite => PostKeeps(q.rx, 0, n); PostKeeps(q.rx, 1, n); TakeKeeps(q.tx, t, m);
    case Receive => PostKeeps(q.tx, 1, m); TakeKeeps(q.rx, t, n);
    case Peek => PeekKeeps(q.rx, t, n); TakeKeeps(q.rx, t, n);
  }

  ghost predicate SidesGood(q: Queue, senders: bool) {
    && q.rx.avail + q.tx.avail == q.length
    && SideOk(q.rx, |q.tasks|) && SideOk(q.tx, if senders then |q.tasks| else UNLOCKED)
  }

  lemma IsrSides(q: Queue, e: Event, senders: bool)
    requires Good(q, senders) && Enabled(q, e) && IsISR(e)
    ensures SidesGood(Next(q, e), senders)
  {
    hide PcOk, SideOk;
    var n, m := |q.tasks|, if senders then |q.tasks| else UNLOCKED;
    SignalKeeps(q.rx, 0, n, n);
    SignalKeeps(q.rx, 1, n, n);
    SignalKeeps(q.tx, 1, n, m);
    TakeKeeps(q.rx, 0, n);
    TakeKeeps(q.tx, 0, m);
    SignalAvail(q);
  }

  lemma SignalAvail(q: Queue)
    ensures forall s: Side, n {:trigger Signal(s, n)} :: Signal(s, n).avail == s.avail
  {
  }

  lemma ListSides(q: Queue, e: Event, senders: bool)
    requires Good(q, senders) && Enabled(q, e) && (e.Place? || e.TimeOut?)
    ensures SidesGood(Next(q, e), senders)
  {
    hide Insert, Without, NoDuplicates;
    var n, m := |q.tasks|, if senders then |q.tasks| else UNLOCKED;
    assert PcOk(q.rx, q.tx, q.owner, q.tasks, PcOf(q, e.task), e.task);
    if e.TimeOut? {
      TimeOutKeeps(q.rx, e.task, n);
      TimeOutKeeps(q.tx, e.task, m);
    } else if PcOf(q, e.task).op == Send {
      PlaceCovers(q.tx, e.at, e.task, n);
    } else {
      PlaceCovers(q.rx, e.at, e.task, n);
    }
  }

  lemma OwnSides(q: Queue, e: Event, senders: bool)
    requires Good(q, senders) && Enabled(q, e) && !IsISR(e) && !e.Try? && !e.Reset? && !e.Place? && !e.TimeOut?
    ensures SidesGood(Next(q, e), senders)
  {
    hide PcOk, SideOk, Unlock;
    assert Clean(q.rx) && Clean(q.tx) by { SidesClean(q, senders); }
    SideFits(q, senders);
    LockKeeps(q.rx, |q.tasks|);
    LockKeeps(q.tx, if senders then |q.tasks| else UNLOCKED);
    UnlockKeeps(q.rx, |q.tasks|);
    UnlockKeeps(q.tx, if senders then |q.tasks| else UNLOCKED);
    UnlockAvail(q.rx);
    UnlockAvail(q.tx);
  }

  lemma SidesClean(q: Queue, senders: bool)
    requires Good(q, senders)
    ensures Clean(q.rx) && Clean(q.tx)
  {
  }

  lemma UnlockAvail(s: Side)
    requires Clean(s)
    ensures Unlock(s).avail == s.avail
  {
    WakeManyKeeps(s, s.lock);
  }

  /** The part of the senders' claim that xQueueGenericReset can break: it frees
      every slot and wakes one sender. */
  predicate ResetServesAll(q: Queue) { |q.tx.waiters| <= 1 || q.length <= |q.tx.woken| + 1 }

  lemma ResetSides(q: Queue, e: Event, senders: bool)
    requires Good(q, senders) && Enabled(q, e) && e.Reset?
    ensures SidesGood(Next(q, e), false)
    ensures |q.tasks| > 0 ==> (SidesGood(Next(q, e), true) <==> ResetServesAll(q))
  {
    hide PcOk, Next, NoDuplicates;
    ResetIs(q, e.task);
    WakeOneKeeps(q.tx);
  }

  /** Every step keeps the invariant; a reset keeps the claim about the senders
      exactly when it serves all of them. */
  lemma NextKeeps(q: Queue, e: Event, senders: bool)
    requires Good(q, senders) && Enabled(q, e)
    ensures Good(Next(q, e), senders && (e.Reset? ==> ResetServesAll(q)))
    ensures e.Reset? ==> (Good(Next(q, e), true) <==> ResetServesAll(q))
  {
    forall u ensures var q' := Next(q, e); PcOk(q'.rx, q'.tx, q'.owner, q'.tasks, PcOf(q', u), u) {
      PcKeeps(q, e, senders, u);
    }
    if e.Reset? {
      assert e.task in q.tasks;
      ResetSides(q, e, senders);
    } else if e.Try? { TrySides(q, e, senders); }
    else if IsISR(e) { IsrSides(q, e, senders); }
    else if e.Place? || e.TimeOut? { ListSides(q, e, senders); }
    else { OwnSides(q, e, senders); }
    hide PcOk, SideOk, Next;
  }

  lemma PcKeeps(q: Queue, e: Event, senders: bool, u: Task)
    requires Good(q, senders) && Enabled(q, e)
    ensures var q' := Next(q, e); PcOk(q'.rx, q'.tx, q'.owner, q'.tasks, PcOf(q', u), u)
  {
    hide PcOk, SideOk, Good, Next;
    if e.Try? { TryKeeps(q, e, senders, u); }
    else if e.Reset? { ResetKeeps(q, e, senders, u); }
    else if IsISR(e) { IsrKeeps(q, e, senders, u); }
    else if e.Place? || e.TimeOut? { PlaceKeeps(q, e, senders, u); }
    else { OwnStepKeeps(q, e, senders, u); }
  }

  // --------------------------------------------------------------------- runs

  ghost predicate Runs(q: Queue, es: seq<Event>)
    decreases |es|
  {
    es == [] || (Enabled(q, es[0]) && Runs(Next(q, es[0]), es[1..]))
  }

  ghost function Run(q: Queue, es: seq<Event>): Queue
    requires Runs(q, es)
    decreases |es|
  {
    if es == [] then q else Run(Next(q, es[0]), es[1..])
  }

  /** Every reset of the run comes when it can serve all waiting senders. */
  ghost predicate ResetsServe(q: Queue, es: seq<Event>)
    requires Runs(q, es)
    decreases |es|
  {
    es == [] || ((es[0].Reset? ==> ResetServesAll(q)) && ResetsServe(Next(q, es[0]), es[1..]))
  }

  /** A queue as xQueueGenericCreate leaves it. */
  predicate Fresh(q: Queue) {
    && q.rx == Side(0, [], {}, UNLOCKED) && q.tx == Side(q.length, [], {}, UNLOCKED)
    && q.owner == Nobody && q.pc == map[]
  }

  lemma FreshIsGood(q: Queue)
    requires Fresh(q)
    ensures Good(q, true)
  {
  }

  lemma {:induction false} RunKeeps(q: Queue, es: seq<Event>, senders: bool)
    requires Good(q, senders) && Runs(q, es) && (senders ==> ResetsServe(q, es))
    ensures Good(Run(q, es), senders)
    decreases |es|
  {
    hide Good, Next, Enabled, ResetServesAll;
    if es != [] {
      NextKeeps(q, es[0], senders);
      RunKeeps(Next(q, es[0]), es[1..], senders);
    }
  }

  /** No receiver misses its wake-up, in any interleaving of tasks and interrupts
      and whatever the queue is reset: while one waits, every message is matched by
      a receiver that was woken and has not tried yet or by the lock count. */
  lemma NoLostReceiver(q: Queue, es: seq<Event>)
    requires Fresh(q) && Runs(q, es)
    ensures var r := Run(q, es).rx;
            && (r.waiters != [] ==>
                  r.avail <= |r.woken| + (if r.lock > 0 then r.lock else 0) || r.lock >= |Run(q, es).tasks|)
            && (r.waiters != [] && r.lock == UNLOCKED && r.woken == {} ==> r.avail == 0)
  {
    hide Run, Runs, Enabled;
    FreshIsGood(q);
    assert Good(q, false);
    RunKeeps(q, es, false);
  }

  /** The mirror image for senders and free slots. */
  lemma NoLostSender(q: Queue, es: seq<Event>)
    requires Fresh(q) && Runs(q, es) && ResetsServe(q, es)
    ensures var s := Run(q, es).tx;
            && (s.waiters != [] ==>
                  s.avail <= |s.woken| + (if s.lock > 0 then s.lock else 0) || s.lock >= |Run(q, es).tasks|)
            && (s.waiters != [] && s.lock == UNLOCKED && s.woken == {} ==> s.avail == 0)
  {
    hide Run, Runs, Enabled, ResetsServe;
    FreshIsGood(q);
    RunKeeps(q, es, true);
  }

  // ---------------------------------------------------------- a sender that is lost

  lemma {:induction false} Then(q: Queue, es: seq<Event>, e: Event)
    requires Runs(q, es) && Enabled(Run(q, es), e)
    ensures Runs(q, es + [e]) && Run(q, es + [e]) == Next(Run(q, es), e)
    decreases |es|
  {
    hide Next, Enabled;
    if es == [] {
      assert [] + [e] == [e] && [e][1..] == [];
      assert Runs(Next(q, e), []);
    } else {
      Then(Next(q, es[0]), es[1..], e);
      assert (es + [e])[1..] == es[1..] + [e];
    }
  }

  lemma FailsToSend(q: Queue, t: Task)
    requires MayRun(q, t) && q.owner == Nobody && PcOf(q, t) == Out && q.tx.avail == 0 && t !in q.tx.woken
    ensures Enabled(q, Enter(t, Send))
    ensures var r := Next(q, Enter(t, Send));
            Enabled(r, Try(t, true)) && Next(r, Try(t, true)) == Go(q, t, Suspending(Send))
  {
    assert q.tx.woken - {t} == q.tx.woken;
  }

  /** A sender that finds the queue full goes to sleep at the end of the list. */
  lemma SenderBlocks(q: Queue, es: seq<Event>, t: Task) returns (fs: seq<Event>)
    requires Runs(q, es)
    requires var r := Run(q, es);
             && MayRun(r, t) && r.owner == Nobody && PcOf(r, t) == Out && r.tx.avail == 0 && t !in r.tx.woken
             && r.rx.lock == r.tx.lock == UNLOCKED
    ensures Runs(q, fs)
    ensures var r := Run(q, es);
            Run(q, fs) == Go(r.(tx := r.tx.(waiters := r.tx.waiters + [t])), t, Trying(Send))
  {
    hide Next, Enabled, Run, Runs;
    var r, at := Run(q, es), |Run(q, es).tx.waiters|;
    FailsToSend(r, t);
    fs := es;
    Then(q, fs, Enter(t, Send)); fs := fs + [Enter(t, Send)];
    Then(q, fs, Try(t, true)); fs := fs + [Try(t, true)];
    var r' := Go(r, t, Suspending(Send));
    Begins(r', t, Send);
    Then(q, fs, Suspend(t)); fs := fs + [Suspend(t)];
    Then(q, fs, LockQueue(t)); fs := fs + [LockQueue(t)];
    Then(q, fs, Check(t, false)); fs := fs + [Check(t, false)];
    Joins(r', t, Send, at);
    Then(q, fs, Place(t, at)); fs := fs + [Place(t, at)];
    Ends(Listed(r', t, Send, at), t, Send);
    Then(q, fs, UnlockTx(t)); fs := fs + [UnlockTx(t)];
    Then(q, fs, UnlockRx(t)); fs := fs + [UnlockRx(t)];
    Then(q, fs, Resume(t, false)); fs := fs + [Resume(t, false)];
  }

  /** A queue of length two, full, with two senders asleep. */
  const CROWDED := Queue(2, Side(2, [], {}, UNLOCKED), Side(0, [1, 2], {}, UNLOCKED), Nobody,
                         map[1 := Trying(Send), 2 := Trying(Send)], {0, 1, 2})

  lemma Crowds() returns (q: Queue, es: seq<Event>)
    ensures Fresh(q) && Runs(q, es) && Run(q, es) == CROWDED
  {
    q := Queue(2, Side(0, [], {}, UNLOCKED), Side(2, [], {}, UNLOCKED), Nobody, map[], {0, 1, 2});
    es := [PutISR, PutISR];
    assert es[1..] == [PutISR];
    var full := q.(rx := q.rx.(avail := 2), tx := q.tx.(avail := 0));
    assert Runs(q, es) && Run(q, es) == full;
    hide Runs, Run;
    es := SenderBlocks(q, es, 1);
    es := SenderBlocks(q, es, 2);
  }

  /** From a new queue of length two: it fills up, two senders wait for it; a reset
      wakes one of them, and the other goes on waiting although a slot stays free for it. */
  lemma ResetLosesSender() returns (q: Queue, es: seq<Event>)
    ensures Fresh(q) && Runs(q, es)
    ensures var s := Run(q, es).tx; s.waiters == [2] && s.woken == {1} && s.avail == 2 && s.lock == UNLOCKED
  {
    hide Runs, Run;
    q, es := Crowds();
    Then(q, es, Reset(0));
    es := es + [Reset(0)];
    assert [1, 2][1..] == [2];
    assert Next(CROWDED, Reset(0)).tx.woken == {1};
  }
}

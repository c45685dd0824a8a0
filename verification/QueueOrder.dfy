/** Whom a queue wakes: the waiter with the smallest item value, and among equals the
    one that came first. */
module QueueOrder {
  import opened Basics
  import opened Rings
  import opened QueueSides
  import P = QueueProtocol

  // ---------------------------------------------------------------- whom a step wakes

  function First(s: Side): nat { if s.waiters == [] then 0 else 1 }

  /** How many receivers a step wakes: one for an item that a task adds or leaves, none
      while the queue is locked, and then as many as were counted. */
  function ReceiversServed(q: P.Queue, e: P.Event): nat
    requires P.Enabled(q, e)
  {
    match e
    case Try(t, _) =>
      var op := P.PcOf(q, t).op;
      if op == P.Overwrite || (op == P.Send && q.tx.avail > 0) || (op == P.Peek && q.rx.avail > 0) then First(q.rx)
      else 0
    case PutISR => if q.tx.avail > 0 && q.rx.lock == UNLOCKED then First(q.rx) else 0
    case OverwriteISR => if q.rx.lock == UNLOCKED then First(q.rx) else 0
    case UnlockTx(_) => if q.rx.lock > 0 then Smaller(q.rx.lock, |q.rx.waiters|) else 0
    case _ => 0
  }

  function SendersServed(q: P.Queue, e: P.Event): nat
    requires P.Enabled(q, e)
  {
    match e
    case Try(t, _) => if P.PcOf(q, t).op == P.Receive && q.rx.avail > 0 then First(q.tx) else 0
    case GetISR => if q.rx.avail > 0 && q.tx.lock == UNLOCKED then First(q.tx) else 0
    case UnlockRx(_) => if q.tx.lock > 0 then Smaller(q.tx.lock, |q.tx.waiters|) else 0
    case Reset(_) => First(q.tx)
    case _ => 0
  }

  lemma NobodyServed(s: Side, s': Side)
    requires s'.waiters == s.waiters && forall t :: t in s'.woken ==> t in s.woken
    ensures Serves(s, s', 0)
  {
  }

  lemma UnlockServes(s: Side)
    ensures Serves(s, Unlock(s), if s.lock > 0 then Smaller(s.lock, |s.waiters|) else 0)
  {
    if s.lock > 0 { WakeManyServes(s, s.lock); } else { NobodyServed(s, Unlock(s)); }
  }

  lemma PostServes(s: Side, more: nat, t: Task)
    ensures Serves(s, Post(s, more), First(s)) && Serves(s, Post(Tried(s, t), more), First(s))
  {
    WakeServesFirst(s.(avail := s.avail + more));
    WakeServesFirst(Tried(s, t).(avail := s.avail + more));
  }

  lemma SignalServes(s: Side, more: nat, tasks: nat)
    ensures Serves(s, Signal(s.(avail := s.avail + more), tasks), if s.lock == UNLOCKED then First(s) else 0)
  {
    WakeServesFirst(s.(avail := s.avail + more));
  }

  /** Every step wakes as many receivers as that, from the front of their list. */
  lemma ReceiversAreServed(q: P.Queue, e: P.Event)
    requires P.Enabled(q, e) && !e.Place? && !e.TimeOut?
    ensures Serves(q.rx, P.Next(q, e).rx, ReceiversServed(q, e))
  {
    hide Serves, Post, Unlock, Signal;
    if e.Try? {
      TryServes(q, e.task, e.again);
    } else if e.PutISR? {
      SignalServes(q.rx, 1, |q.tasks|);
      NobodyServed(q.rx, q.rx);
    } else if e.OverwriteISR? {
      SignalServes(q.rx, 0, |q.tasks|);
      SignalServes(q.rx, 1, |q.tasks|);
    } else if e.UnlockTx? {
      UnlockServes(q.rx);
    } else {
      NobodyServed(q.rx, P.Next(q, e).rx);
    }
  }

  lemma TryServes(q: P.Queue, t: Task, again: bool)
    requires P.Enabled(q, P.Try(t, again))
    ensures var q' := P.Next(q, P.Try(t, again));
            && Serves(q.rx, q'.rx, ReceiversServed(q, P.Try(t, again)))
            && Serves(q.tx, q'.tx, SendersServed(q, P.Try(t, again)))
  {
    hide Serves, Post;
    var q' := P.Next(q, P.Try(t, again));
    PostServes(q.rx, 0, t);
    PostServes(q.rx, 1, t);
    PostServes(q.tx, 1, t);
    match P.PcOf(q, t).op
    case Send => NobodyServed(q.rx, q.rx); NobodyServed(q.tx, q'.tx);
    case Overwrite => NobodyServed(q.tx, q'.tx);
    case Receive => NobodyServed(q.rx, q'.rx); NobodyServed(q.tx, q.tx);
    case Peek => NobodyServed(q.tx, q'.tx); NobodyServed(q.rx, Tried(q.rx, t));
  }

  lemma SendersAreServed(q: P.Queue, e: P.Event)
    requires P.Enabled(q, e) && !e.Place? && !e.TimeOut?
    ensures Serves(q.tx, P.Next(q, e).tx, SendersServed(q, e))
  {
    hide Serves, Post, Unlock, Signal;
    if e.Try? {
      TryServes(q, e.task, e.again);
    } else if e.GetISR? {
      SignalServes(q.tx, 1, |q.tasks|);
      NobodyServed(q.tx, q.tx);
    } else if e.UnlockRx? {
      UnlockServes(q.tx);
    } else if e.Reset? {
      ResetServes(q, e);
    } else {
      NobodyServed(q.tx, P.Next(q, e).tx);
    }
  }

  lemma ResetServes(q: P.Queue, e: P.Event)
    requires P.Enabled(q, e) && e.Reset?
    ensures Serves(q.tx, P.Next(q, e).tx, First(q.tx))
  {
    P.ResetIs(q, e.task);
    WakeServesFirst(q.tx.(avail := q.length, lock := UNLOCKED));
  }

  /** A step from `q` to `q'` wakes whom it should, first come, first served. */
  ghost predicate InTurn(q: P.Queue, e: P.Event, q': P.Queue)
    requires P.Enabled(q, e)
  {
    Serves(q.rx, q'.rx, ReceiversServed(q, e)) && Serves(q.tx, q'.tx, SendersServed(q, e))
  }

  lemma StepServes(q: P.Queue, e: P.Event)
    requires P.Enabled(q, e) && !e.Place? && !e.TimeOut?
    ensures InTurn(q, e, P.Next(q, e))
  {
    ReceiversAreServed(q, e);
    SendersAreServed(q, e);
  }

  // ------------------------------------------------------------------------ the lines

  /** A queue, and when each task joined its event list. */
  datatype Line = Line(q: P.Queue, count: nat, arrived: map<Task, nat>)

  /** `t` is served before `u`: the smaller item value, or the earlier of equals. */
  predicate Before(value: map<Task, nat>, arrived: map<Task, nat>, t: Task, u: Task) {
    At(value, t) < At(value, u) || (At(value, t) == At(value, u) && At(arrived, t) < At(arrived, u))
  }

  ghost predicate Ranked(ws: seq<Task>, value: map<Task, nat>, arrived: map<Task, nat>, count: nat) {
    && (forall i, j :: 0 <= i < j < |ws| ==> Before(value, arrived, ws[i], ws[j]))
    && (forall t :: t in ws ==> At(arrived, t) < count)
  }

  /** Tasks join by the values of their event list items. */
  predicate Allowed(l: Line, e: P.Event, value: map<Task, nat>) {
    && P.Enabled(l.q, e)
    && (e.Place? ==> e.at == InsertPosition(P.SideOf(l.q, P.PcOf(l.q, e.task).op).waiters, value, At(value, e.task)))
  }

  function Next(l: Line, e: P.Event): Line
    requires P.Enabled(l.q, e)
  {
    if e.Place? then Line(P.Next(l.q, e), l.count + 1, l.arrived[e.task := l.count])
    else l.(q := P.Next(l.q, e))
  }

  ghost predicate Orderly(l: Line, value: map<Task, nat>) {
    && P.Good(l.q, false)
    && Ranked(l.q.rx.waiters, value, l.arrived, l.count) && Ranked(l.q.tx.waiters, value, l.arrived, l.count)
  }

  lemma RankedTail(ws: seq<Task>, n: nat, value: map<Task, nat>, arrived: map<Task, nat>, count: nat)
    requires Ranked(ws, value, arrived, count) && n <= |ws|
    ensures Ranked(ws[n..], value, arrived, count)
    ensures forall t, u :: t in ws[..n] && u in ws[n..] ==> Before(value, arrived, t, u)
  {
    hide Before;
    forall t, u | t in ws[..n] && u in ws[n..] ensures Before(value, arrived, t, u) {
      var i :| 0 <= i < n && ws[i] == t;
      var j :| n <= j < |ws| && ws[j] == u;
    }
  }

  lemma RankedDrop(ws: seq<Task>, k: nat, value: map<Task, nat>, arrived: map<Task, nat>, count: nat)
    requires Ranked(ws, value, arrived, count) && k < |ws|
    ensures Ranked(ws[..k] + ws[k + 1..], value, arrived, count)
  {
    hide Before;
    var r := ws[..k] + ws[k + 1..];
    forall i | 0 <= i < |r| ensures r[i] == ws[if i < k then i else i + 1] && r[i] in ws {
    }
  }

  lemma RankedCut(ws: seq<Task>, t: Task, value: map<Task, nat>, arrived: map<Task, nat>, count: nat)
    requires Ranked(ws, value, arrived, count)
    ensures Ranked(Without(ws, t), value, arrived, count)
  {
    hide Ranked;
    if t in ws { RankedDrop(ws, IndexOf(ws, t), value, arrived, count); }
  }

  lemma RankedIsSorted(ws: seq<Task>, value: map<Task, nat>, arrived: map<Task, nat>, count: nat)
    requires Ranked(ws, value, arrived, count)
    ensures Sorted(ws, value)
  {
    forall i, j | 0 <= i < j < |ws| ensures At(value, ws[i]) <= At(value, ws[j]) {
      assert Before(value, arrived, ws[i], ws[j]);
    }
  }

  /** A line into which nobody came, when somebody else joined another. */
  lemma RankedElsewhere(ws: seq<Task>, t: Task, value: map<Task, nat>, arrived: map<Task, nat>, count: nat)
    requires Ranked(ws, value, arrived, count) && t !in ws
    ensures Ranked(ws, value, arrived[t := count], count + 1)
    ensures forall u :: u in ws ==> At(arrived[t := count], u) < count
  {
    forall i, j | 0 <= i < j < |ws| ensures Before(value, arrived[t := count], ws[i], ws[j]) {
      assert ws[i] in ws && ws[j] in ws && Before(value, arrived, ws[i], ws[j]);
    }
  }

  /** The newcomer stands behind its equals. */
  lemma RankedInsert(ws: seq<Task>, t: Task, value: map<Task, nat>, arrived: map<Task, nat>, count: nat)
    requires Ranked(ws, value, arrived, count) && t !in ws
    ensures var at := InsertPosition(ws, value, At(value, t));
            at <= |ws| && Ranked(P.Insert(ws, at, t), value, arrived[t := count], count + 1)
  {
    var at, arrived' := InsertPosition(ws, value, At(value, t)), arrived[t := count];
    RankedIsSorted(ws, value, arrived, count);
    InsertSortedStable(ws, t, value);
    RankedElsewhere(ws, t, value, arrived, count);
    RankedSplice(ws, at, t, value, arrived', count);
  }

  lemma RankedSplice(ws: seq<Task>, at: nat, t: Task, value: map<Task, nat>, arrived: map<Task, nat>, count: nat)
    requires at <= |ws| && (forall u :: u in ws ==> At(arrived, u) < count) && At(arrived, t) == count
    requires Ranked(ws, value, arrived, count + 1)
    requires forall i :: 0 <= i < at ==> At(value, ws[i]) <= At(value, t)
    requires forall i :: at <= i < |ws| ==> At(value, ws[i]) > At(value, t)
    ensures Ranked(P.Insert(ws, at, t), value, arrived, count + 1)
  {
    var r := P.Insert(ws, at, t);
    forall i | 0 <= i < |ws| ensures At(arrived, ws[i]) < count {
      assert ws[i] in ws;
    }
    forall i, j | 0 <= i < j < |r| ensures Before(value, arrived, r[i], r[j]) {
      if i != at && j != at {
        assert r[i] == ws[if i < at then i else i - 1] && r[j] == ws[if j < at then j else j - 1];
      }
    }
  }

  lemma NextOrderly(l: Line, e: P.Event, value: map<Task, nat>)
    requires Orderly(l, value) && Allowed(l, e, value)
    ensures Orderly(Next(l, e), value)
  {
    hide Ranked, P.Good, InsertPosition;
    P.NextKeeps(l.q, e, false);
    if e.Place? {
      PlaceOrderly(l, e, value);
    } else if e.TimeOut? {
      RankedCut(l.q.rx.waiters, e.task, value, l.arrived, l.count);
      RankedCut(l.q.tx.waiters, e.task, value, l.arrived, l.count);
    } else {
      hide P.Next;
      ReceiversAreServed(l.q, e);
      SendersAreServed(l.q, e);
      RankedTail(l.q.rx.waiters, ReceiversServed(l.q, e), value, l.arrived, l.count);
      RankedTail(l.q.tx.waiters, SendersServed(l.q, e), value, l.arrived, l.count);
    }
  }

  lemma PlaceOrderly(l: Line, e: P.Event, value: map<Task, nat>)
    requires Orderly(l, value) && Allowed(l, e, value) && e.Place?
    ensures var l' := Next(l, e);
            && Ranked(l'.q.rx.waiters, value, l'.arrived, l'.count)
            && Ranked(l'.q.tx.waiters, value, l'.arrived, l'.count)
  {
    hide Ranked, InsertPosition, SideOk, P.Insert;
    var t, rx, tx := e.task, l.q.rx.waiters, l.q.tx.waiters;
    assert P.PcOk(l.q.rx, l.q.tx, l.q.owner, l.q.tasks, P.PcOf(l.q, t), t);
    assert t !in rx && t !in tx;
    RankedElsewhere(rx, t, value, l.arrived, l.count);
    RankedElsewhere(tx, t, value, l.arrived, l.count);
    RankedInsert(rx, t, value, l.arrived, l.count);
    RankedInsert(tx, t, value, l.arrived, l.count);
  }

  // --------------------------------------------------------------------------- runs

  ghost predicate Runs(l: Line, es: seq<P.Event>, value: map<Task, nat>)
    decreases |es|
  {
    es == [] || (Allowed(l, es[0], value) && Runs(Next(l, es[0]), es[1..], value))
  }

  ghost function Run(l: Line, es: seq<P.Event>, value: map<Task, nat>): Line
    requires Runs(l, es, value)
    decreases |es|
  {
    if es == [] then l else Run(Next(l, es[0]), es[1..], value)
  }

  lemma {:induction false} RunOrderly(l: Line, es: seq<P.Event>, value: map<Task, nat>)
    requires Orderly(l, value) && Runs(l, es, value)
    ensures Orderly(Run(l, es, value), value)
    decreases |es|
  {
    hide Orderly, Next, P.Enabled;
    if es != [] {
      NextOrderly(l, es[0], value);
      RunOrderly(Next(l, es[0]), es[1..], value);
    }
  }

  lemma FreshIsOrderly(l: Line, value: map<Task, nat>)
    requires P.Fresh(l.q)
    ensures Orderly(l, value)
  {
    P.FreshIsGood(l.q);
    hide P.Good;
  }

  /** In every interleaving: a receiver that a step takes off the list, unless its time
      is over, has been woken, and nobody who goes on waiting has a smaller item value,
      or the same and has waited longer; the same for senders. */
  lemma MostUrgentFirst(l: Line, es: seq<P.Event>, value: map<Task, nat>, e: P.Event, t: Task, u: Task)
    requires P.Fresh(l.q) && Runs(l, es, value) && Allowed(Run(l, es, value), e, value) && !e.TimeOut?
    ensures var l', q := Run(l, es, value), P.Next(Run(l, es, value).q, e);
            && (t in l'.q.rx.waiters && t !in q.rx.waiters ==>
                  t in q.rx.woken && (u in q.rx.waiters ==> Before(value, l'.arrived, t, u)))
            && (t in l'.q.tx.waiters && t !in q.tx.waiters ==>
                  t in q.tx.woken && (u in q.tx.waiters ==> Before(value, l'.arrived, t, u)))
  {
    hide Runs, Run, P.Good, Before, P.Next, P.Enabled, Ranked;
    FreshIsOrderly(l, value);
    RunOrderly(l, es, value);
    var l' := Run(l, es, value);
    if e.Place? {
      NobodyLeaves(l'.q, e, t);
    } else {
      ReceiversAreServed(l'.q, e);
      SendersAreServed(l'.q, e);
      var rx, tx, n, m := l'.q.rx.waiters, l'.q.tx.waiters, ReceiversServed(l'.q, e), SendersServed(l'.q, e);
      RankedTail(rx, n, value, l'.arrived, l'.count);
      RankedTail(tx, m, value, l'.arrived, l'.count);
      Halves(rx, n);
      Halves(tx, m);
    }
  }

  lemma Halves(ws: seq<Task>, n: nat)
    requires n <= |ws|
    ensures forall t :: t in ws <==> t in ws[..n] || t in ws[n..]
  {
    assert ws == ws[..n] + ws[n..];
  }

  lemma NobodyLeaves(q: P.Queue, e: P.Event, t: Task)
    requires P.Enabled(q, e) && e.Place?
    ensures t in q.rx.waiters ==> t in P.Next(q, e).rx.waiters
    ensures t in q.tx.waiters ==> t in P.Next(q, e).tx.waiters
  {
    Halves(q.rx.waiters, if e.at <= |q.rx.waiters| then e.at else 0);
    Halves(q.tx.waiters, if e.at <= |q.tx.waiters| then e.at else 0);
  }
}

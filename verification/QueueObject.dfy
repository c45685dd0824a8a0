/** The queue itself: storage, pointers, counters, event lists and lock counts,
    updated in place as queue.c does. */
module QueueObject {
  import opened Basics
  import opened Arithmetic
  import O = QueueOrder
  import opened QueueSides
  import opened QueueStorage
  import opened Rings
  import P = QueueProtocol

  datatype Position = Back | Front | Overwrite
  const INT8_MAX: int := 127

  /** A bounded deque; overwriting is for queues of length one. */
  function Put(items: seq<Item>, x: Item, at: Position): seq<Item> {
    match at
    case Back => items + [x]
    case Front => [x] + items
    case Overwrite => [x]
  }

  function WithWaiter(q: P.Queue, op: P.Op, t: Task, value: map<Task, nat>): P.Queue {
    if op == P.Send || op == P.Overwrite then q.(tx := q.tx.(waiters := InsertSorted(q.tx.waiters, t, value)))
    else q.(rx := q.rx.(waiters := InsertSorted(q.rx.waiters, t, value)))
  }

  class Queue {
    const length: nat
    const itemSize: nat
    const storage: array<Byte>
    var messages: nat      // uxMessagesWaiting
    var writeTo: int       // pcWriteTo - pcHead
    var readFrom: int      // pcReadFrom - pcHead
    ghost var last: nat    // the slot readFrom points at
    var receivers: seq<Task>
    var senders: seq<Task>
    var txLock: int
    var rxLock: int
    ghost var wokenReceivers: set<Task>
    ghost var wokenSenders: set<Task>
    ghost var owner: P.Owner         // who has suspended the scheduler
    ghost var pc: map<Task, P.Pc>    // how far each task has come
    ghost var known: set<Task>       // all tasks

    ghost predicate Laid()
      reads `messages, `readFrom, `last
    {
      && 0 < length && storage.Length == length * itemSize && messages <= length
      && last < length && readFrom == last * itemSize
    }

    ghost predicate Valid()
      reads `messages, `readFrom, `last, `writeTo
    {
      Laid() && writeTo == Slot(length, last + 1 + messages) * itemSize
    }

    ghost function Items(): seq<Item>
      reads `messages, `readFrom, `last, storage
      requires Laid()
    {
      Contents(Slots(storage[..], length, itemSize), last, messages)
    }

    lemma Fits()
      requires Valid()
      ensures Laid() && messages <= length && |Items()| == messages
    {
    }

    /** The documented relation between the two positions. */
    lemma WriteSlot()
      requires Valid()
      ensures writeTo == ((last + 1 + messages) % length) * itemSize
    {
      SlotIsMod(length, last + 1 + messages);
    }

    ghost function Rx(): Side
      reads this
    {
      Side(messages, receivers, wokenReceivers, txLock)
    }

    ghost function Tx(): Side
      reads this
      requires messages <= length
    {
      Side(length - messages, senders, wokenSenders, rxLock)
    }

    /** The queue as a state of the protocol. */
    ghost function View(): P.Queue
      reads this
      requires messages <= length
    {
      P.Queue(length, Rx(), Tx(), owner, pc, known)
    }

    /** The state is one of those in which no receiver is lost. */
    ghost predicate Safe()
      reads this
    {
      Valid() && P.Good(View(), false)
    }

    /** Every step of the protocol keeps it so. */
    lemma Keeps(e: P.Event)
      requires Valid() && P.Enabled(View(), e)
      ensures P.Good(View(), false) ==> P.Good(P.Next(View(), e), false)
      ensures !e.Place? && !e.TimeOut? ==> O.InTurn(View(), e, P.Next(View(), e))
    {
      if !e.Place? && !e.TimeOut? { O.StepServes(View(), e); }
      if P.Good(View(), false) { P.NextKeeps(View(), e, false); }
    }

    /** While a receiver waits and nobody has been woken or counted, there is nothing. */
    lemma NoneLost()
      requires Safe() && receivers != [] && txLock == UNLOCKED && wokenReceivers == {}
      ensures messages == 0
    {
    }

    constructor (length: nat, itemSize: nat, ghost known: set<Task>)
      requires length > 0
      ensures Safe() && this.length == length && this.itemSize == itemSize && fresh(storage)
      ensures Items() == [] && P.Fresh(View()) && this.known == known
    {
      this.length, this.itemSize := length, itemSize;
      storage := new Byte[length * itemSize];
      messages, writeTo, readFrom, last := 0, 0, (length - 1) * itemSize, length - 1;
      receivers, senders, txLock, rxLock := [], [], UNLOCKED, UNLOCKED;
      wokenReceivers, wokenSenders := {}, {};
      owner, pc, this.known := P.Nobody, map[], known;
      new;
      P.FreshIsGood(View());
    }

    /** memcpy into the slot at offset `to`. */
    method CopyIn(to: nat, x: Item, ghost k: nat)
      requires storage.Length == length * itemSize && |x| == itemSize && k < length && to == k * itemSize
      modifies storage
      ensures Slots(storage[..], length, itemSize) == Slots(old(storage[..]), length, itemSize)[k := x]
    {
      Scale(k, length, itemSize);
      forall i | 0 <= i < itemSize {
        storage[to + i] := x[i];
      }
      CopyIntoSlot(old(storage[..]), storage[..], length, itemSize, k, x);
    }

    /** The queueSEND_TO_BACK branch: the item at the write position. */
    method WriteAtBack(x: Item)
      requires Valid() && |x| == itemSize > 0
      modifies this`writeTo, storage
      ensures Laid()
      ensures var was := Slots(old(storage[..]), length, itemSize);
              Slots(storage[..], length, itemSize) == was[Slot(length, last + 1 + messages) := x]
      ensures writeTo == After(length, Slot(length, last + 1 + messages)) * itemSize
    {
      ghost var w := Slot(length, last + 1 + messages);
      Scale(w, length, itemSize);
      Next(w, length, itemSize);
      CopyIn(writeTo, x, w);
      writeTo := writeTo + itemSize;
      if writeTo >= storage.Length {
        writeTo := 0;
      }
    }

    /** The other branch: the item at the read position, which then moves back. */
    method WriteAtFront(x: Item)
      requires Valid() && |x| == itemSize > 0
      modifies this`readFrom, this`last, storage
      ensures Laid() && last == Before(length, old(last))
      ensures Slots(storage[..], length, itemSize) == Slots(old(storage[..]), length, itemSize)[old(last) := x]
    {
      Scale(last, length, itemSize);
      Previous(last, length, itemSize);
      CopyIn(readFrom, x, last);
      readFrom := readFrom - itemSize;
      if readFrom < 0 {
        readFrom := storage.Length - itemSize;
      }
      last := Before(length, last);
    }

    /** prvCopyDataToQueue for a queue that is no mutex.  The queue holds the deque
        it should exactly when there was room or there are bytes to overwrite: an
        overwrite of a full queue with items of size zero counts one item too many. */
    method CopyTo(x: Item, at: Position)
      requires Valid() && |x| == itemSize
      requires at == Overwrite ==> length == 1
      requires at != Overwrite ==> messages < length
      modifies this`messages, this`writeTo, this`readFrom, this`last, storage
      ensures Valid() <==> old(messages) < length || itemSize > 0
      ensures Valid() ==> Items() == Put(old(Items()), x, at)
      ensures messages == if Valid() && old(messages) == length then length else old(messages) + 1
    {
      hide Contents, Slots;
      ghost var slots, was, n := Slots(storage[..], length, itemSize), last, messages;
      var count := messages;
      if itemSize == 0 {
        SizelessSlots(storage[..], length);
        Sizeless(slots, last, n, x);
      } else if at == Back {
        WriteAtBack(x);
        WriteBack(slots, was, n, x);
      } else {
        WriteAtFront(x);
        if at == Overwrite && count > 0 {
          count := count - 1;
        }
        if n < length { WriteFront(slots, was, n, x); }
        if length == 1 { OnlySlot(slots, x); }
      }
      messages := count + 1;
    }

    /** prvCopyDataFromQueue: the read position moves on, then the item is copied out. */
    method CopyFrom() returns (x: Item)
      requires Valid() && messages > 0
      modifies this`readFrom, this`last
      ensures Laid() && |x| == itemSize && x == old(Items())[0]
      ensures last == (if itemSize == 0 then old(last) else After(length, old(last)))
      ensures itemSize > 0 ==> Contents(Slots(storage[..], length, itemSize), last, messages - 1) == old(Items())[1..]
      ensures itemSize > 0 ==> writeTo == Slot(length, last + messages) * itemSize
    {
      ghost var slots := Slots(storage[..], length, itemSize);
      x := [];
      if itemSize != 0 {
        ReadFront(slots, last, messages);
        Next(last, length, itemSize);
        readFrom := readFrom + itemSize;
        if readFrom >= storage.Length {
          readFrom := 0;
        }
        last := After(length, last);
        Scale(last, length, itemSize);
        x := storage[readFrom..readFrom + itemSize];
      } else {
        SizelessSlots(storage[..], length);
        Blank(slots, last, messages);
      }
    }

    /** Receiving takes the head of the deque. */
    method Take() returns (x: Item)
      requires Valid() && messages > 0
      modifies this`readFrom, this`last, this`messages
      ensures Valid() && [x] + Items() == old(Items()) && messages == old(messages) - 1
    {
      hide Contents, Slots;
      x := CopyFrom();
      if itemSize == 0 {
        SizelessSlots(storage[..], length);
        Sizeless(Slots(storage[..], length, itemSize), last, messages - 1, x);
      }
      messages := messages - 1;
    }

    /** xQueuePeek: copy out, then restore the read position. */
    method Look() returns (x: Item)
      requires Valid() && messages > 0
      modifies this`readFrom, this`last
      ensures Valid() && Items() == old(Items()) && x == Items()[0]
    {
      var original := readFrom;
      x := CopyFrom();
      readFrom := original;
      last := old(last);
    }

    // ---------------------------------------------- event lists and lock counts

    method WakeReceiver()
      modifies `receivers, `wokenReceivers
      ensures Rx() == WakeOne(old(Rx()))
      ensures if old(receivers) == [] then receivers == [] && wokenReceivers == old(wokenReceivers)
              else old(receivers) == [old(receivers)[0]] + receivers
                   && wokenReceivers == old(wokenReceivers) + {old(receivers)[0]}
    {
      if receivers != [] {
        wokenReceivers := wokenReceivers + {receivers[0]};
        receivers := receivers[1..];
      }
    }

    method WakeSender()
      requires messages <= length
      modifies `senders, `wokenSenders
      ensures Tx() == WakeOne(old(Tx()))
      ensures if old(senders) == [] then senders == [] && wokenSenders == old(wokenSenders)
              else old(senders) == [old(senders)[0]] + senders
                   && wokenSenders == old(wokenSenders) + {old(senders)[0]}
    {
      if senders != [] {
        wokenSenders := wokenSenders + {senders[0]};
        senders := senders[1..];
      }
    }

    /** xQueueGenericSendFromISR; the assertion of prvIncrementQueueTxLock holds
        with up to 127 tasks. */
    method SendFromISR(x: Item, at: Position, tasks: nat) returns (ok: bool)
      requires Valid() && |x| == itemSize && (at == Overwrite ==> length == 1)
      requires tasks == |known| <= INT8_MAX && txLock >= UNLOCKED
      modifies `messages, `writeTo, `readFrom, `last, storage, `receivers, `wokenReceivers, `txLock
      ensures ok <==> old(messages) < length || at == Overwrite
      ensures Valid() <==> (ok ==> old(messages) < length || itemSize > 0)
      ensures Valid() ==> Items() == if ok then Put(old(Items()), x, at) else old(Items())
      ensures Valid() ==> View() == P.Next(old(View()), if at == Overwrite then P.OverwriteISR else P.PutISR)
      ensures Valid() ==> O.InTurn(old(View()), if at == Overwrite then P.OverwriteISR else P.PutISR, View())
      ensures old(Safe()) && Valid() ==> Safe()
    {
      hide Contents, Slots, Valid, Laid, Items, Put, P.Next, P.Good, P.Enabled, P.PcOf, O.InTurn;
      Fits();
      P.IsrIs(View(), if at == Overwrite then P.OverwriteISR else P.PutISR);
      Keeps(if at == Overwrite then P.OverwriteISR else P.PutISR);
      ok := messages < length || at == Overwrite;
      if ok {
        var lock := txLock;
        CopyTo(x, at);
        if lock == UNLOCKED {
          WakeReceiver();
        } else if lock < tasks {
          assert lock != INT8_MAX;
          txLock := lock + 1;
        }
      }
    }

    /** xQueueReceiveFromISR */
    method ReceiveFromISR(tasks: nat) returns (x: Option<Item>)
      requires Valid() && tasks == |known| <= INT8_MAX && rxLock >= UNLOCKED
      modifies `messages, `readFrom, `last, `senders, `wokenSenders, `rxLock
      ensures Valid() && (x == None <==> old(Items()) == [])
      ensures if x.Some? then [x.value] + Items() == old(Items()) else Items() == old(Items())
      ensures View() == P.Next(old(View()), P.GetISR)
      ensures O.InTurn(old(View()), P.GetISR, View())
      ensures old(Safe()) ==> Safe()
    {
      hide Contents, Slots, Valid, Laid, Items, P.Next, P.Good, P.Enabled, P.PcOf, O.InTurn;
      Fits();
      P.IsrIs(View(), P.GetISR);
      Keeps(P.GetISR);
      x := None;
      if messages > 0 {
        var lock := rxLock;
        var item := Take();
        x := Some(item);
        if lock == UNLOCKED {
          WakeSender();
        } else if lock < tasks {
          assert lock != INT8_MAX;
          rxLock := lock + 1;
        }
      }
    }

    /** The critical section at the top of the loop of xQueueGenericSend, entered by
        `t` with or without time left to wait. */
    method TrySend(x: Item, at: Position, ghost t: Task, ghost again: bool) returns (ok: bool)
      requires Valid() && |x| == itemSize && (at == Overwrite ==> length == 1)
      requires P.Enabled(View(), P.Try(t, again))
              && P.PcOf(View(), t).op == if at == Overwrite then P.Overwrite else P.Send
      modifies `messages, `writeTo, `readFrom, `last, storage, `receivers, `wokenReceivers, `wokenSenders, `pc
      ensures ok <==> old(messages) < length || at == Overwrite
      ensures Valid() <==> (ok ==> old(messages) < length || itemSize > 0)
      ensures Valid() ==> Items() == if ok then Put(old(Items()), x, at) else old(Items())
      ensures Valid() ==> View() == P.Next(old(View()), P.Try(t, again))
      ensures Valid() ==> O.InTurn(old(View()), P.Try(t, again), View())
      ensures old(Safe()) && Valid() ==> Safe()
    {
      hide Contents, Slots, Valid, Laid, Items, Put, P.Next, P.Good, P.Enabled, P.PcOf, O.InTurn;
      Fits();
      P.SendIs(View(), t, again);
      Keeps(P.Try(t, again));
      ok := messages < length || at == Overwrite;
      if ok {
        CopyTo(x, at);
        WakeReceiver();
      }
      wokenSenders := if at == Overwrite then wokenSenders else wokenSenders - {t};
      pc := pc[t := if !ok && again then P.Suspending(P.Send) else P.Out];
    }

    /** The same of xQueueReceive and xQueueSemaphoreTake. */
    method TryReceive(ghost t: Task, ghost again: bool) returns (x: Option<Item>)
      requires Valid() && P.Enabled(View(), P.Try(t, again)) && P.PcOf(View(), t).op == P.Receive
      modifies `messages, `readFrom, `last, `senders, `wokenSenders, `wokenReceivers, `pc
      ensures Valid() && (x == None <==> old(Items()) == [])
      ensures if x.Some? then [x.value] + Items() == old(Items()) else Items() == old(Items())
      ensures View() == P.Next(old(View()), P.Try(t, again))
      ensures O.InTurn(old(View()), P.Try(t, again), View())
      ensures old(Safe()) ==> Safe()
    {
      hide Contents, Slots, Valid, Laid, Items, P.Next, P.Good, P.Enabled, P.PcOf, O.InTurn;
      Fits();
      P.ReceiveIs(View(), t, again);
      Keeps(P.Try(t, again));
      x := None;
      if messages > 0 {
        var item := Take();
        x := Some(item);
        WakeSender();
      }
      wokenReceivers := wokenReceivers - {t};
      pc := pc[t := if x == None && again then P.Suspending(P.Receive) else P.Out];
    }

    /** The same of xQueuePeek: the item stays, and another receiver is woken for it. */
    method TryPeek(ghost t: Task, ghost again: bool) returns (x: Option<Item>)
      requires Valid() && P.Enabled(View(), P.Try(t, again)) && P.PcOf(View(), t).op == P.Peek
      modifies `readFrom, `last, `receivers, `wokenReceivers, `pc
      ensures Valid() && Items() == old(Items())
      ensures if Items() == [] then x == None else x == Some(Items()[0])
      ensures View() == P.Next(old(View()), P.Try(t, again))
      ensures O.InTurn(old(View()), P.Try(t, again), View())
      ensures old(Safe()) ==> Safe()
    {
      hide Contents, Slots, Valid, Laid, Items, P.Next, P.Good, P.Enabled, P.PcOf, O.InTurn;
      Fits();
      P.PeekIs(View(), t, again);
      Keeps(P.Try(t, again));
      x := None;
      wokenReceivers := wokenReceivers - {t};
      if messages > 0 {
        var item := Look();
        x := Some(item);
        WakeReceiver();
      }
      pc := pc[t := if x == None && again then P.Suspending(P.Peek) else P.Out];
    }

    // ------------------------------------------- the rest of a call that finds nothing

    /** A task calls xQueueGenericSend, xQueueReceive, xQueueSemaphoreTake or xQueuePeek. */
    ghost method Enter(t: Task, op: P.Op)
      requires Valid() && P.Enabled(View(), P.Enter(t, op))
      modifies `pc
      ensures Valid() && View() == P.Next(old(View()), P.Enter(t, op))
      ensures old(Safe()) ==> Safe()
    {
      Keeps(P.Enter(t, op));
      hide P.Good;
      pc := pc[t := P.Trying(op)];
    }

    /** vTaskSuspendAll */
    ghost method Suspend(t: Task)
      requires Valid() && P.Enabled(View(), P.Suspend(t))
      modifies `pc, `owner
      ensures Valid() && View() == P.Next(old(View()), P.Suspend(t))
      ensures old(Safe()) ==> Safe()
    {
      Keeps(P.Suspend(t));
      hide P.Good;
      pc, owner := pc[t := P.Held(pc[t].op)], P.By(t);
    }

    /** prvIsQueueFull for a sender, prvIsQueueEmpty for a receiver. */
    method Nothing(op: P.Op) returns (b: bool)
      requires Valid()
      ensures b <==> P.SideOf(View(), op).avail == 0
    {
      b := if op == P.Send || op == P.Overwrite then messages == length else messages == 0;
    }

    /** xTaskCheckForTimeOut has answered; is the task to block? */
    method Check(op: P.Op, expired: bool, ghost t: Task) returns (block: bool)
      requires Valid() && P.PcOf(View(), t) == P.Checking(op)
      modifies `pc
      ensures Valid() && View() == P.Next(old(View()), P.Check(t, expired))
      ensures block <==> !expired && P.SideOf(old(View()), op).avail == 0
      ensures P.PcOf(View(), t) == if block then P.Placing(op) else P.UnlockingTx(op, expired)
      ensures old(Safe()) ==> Safe()
    {
      Keeps(P.Check(t, expired));
      hide P.Good;
      block := Nothing(op);
      block := block && !expired;
      pc := pc[t := if block then P.Placing(op) else P.UnlockingTx(op, expired)];
    }

    /** vTaskPlaceOnEventList: the list is kept by the values of the event list items. */
    method Place(op: P.Op, t: Task, value: map<Task, nat>) returns (ghost at: nat)
      requires Valid() && P.PcOf(View(), t) == P.Placing(op)
      modifies `receivers, `senders, `pc
      ensures at == InsertPosition(P.SideOf(old(View()), op).waiters, value, At(value, t))
      ensures P.Enabled(old(View()), P.Place(t, at))
      ensures Valid() && View() == P.Next(old(View()), P.Place(t, at))
      ensures P.SideOf(View(), op).waiters == InsertSorted(P.SideOf(old(View()), op).waiters, t, value)
      ensures old(Safe()) ==> Safe()
    {
      hide P.Good, InsertPosition;
      if op == P.Send || op == P.Overwrite {
        at := InsertPosition(senders, value, At(value, t));
        Keeps(P.Place(t, at));
        senders := InsertSorted(senders, t, value);
      } else {
        at := InsertPosition(receivers, value, At(value, t));
        Keeps(P.Place(t, at));
        receivers := InsertSorted(receivers, t, value);
      }
      pc := pc[t := P.UnlockingTx(op, false)];
    }

    /** xTaskResumeAll, and after a time-out a last look whether there is anything. */
    method Resume(op: P.Op, expired: bool, ghost t: Task) returns (giveUp: bool)
      requires Valid() && P.PcOf(View(), t) == P.Resuming(op, expired)
      modifies `pc, `owner
      ensures giveUp <==> expired && P.SideOf(old(View()), op).avail == 0
      ensures Valid() && View() == P.Next(old(View()), P.Resume(t, giveUp))
      ensures old(Safe()) ==> Safe()
    {
      Keeps(P.Resume(t, expired));
      Keeps(P.Resume(t, false));
      hide P.Good;
      giveUp := Nothing(op);
      giveUp := giveUp && expired;
      pc, owner := pc[t := if giveUp then P.Out else P.Trying(op)], P.Nobody;
    }

    /** The tick takes the event list item of a waiter off its list. */
    method TimeOut(t: Task)
      requires Valid() && P.Enabled(View(), P.TimeOut(t))
      modifies `receivers, `senders
      ensures Valid() && View() == P.Next(old(View()), P.TimeOut(t))
      ensures old(Safe()) ==> Safe() && !P.Waits(View(), t)
    {
      Keeps(P.TimeOut(t));
      if Safe() {
        P.TimedOut(View(), t);
      }
      hide P.Good;
      receivers, senders := Without(receivers, t), Without(senders, t);
    }

    /** prvLockQueue */
    method LockQueue(ghost t: Task)
      requires Valid() && P.Enabled(View(), P.LockQueue(t))
      modifies `txLock, `rxLock, `pc
      ensures Valid() && View() == P.Next(old(View()), P.LockQueue(t))
      ensures old(Safe()) ==> Safe()
    {
      Keeps(P.LockQueue(t));
      hide P.Good;
      if rxLock == UNLOCKED { rxLock := 0; }
      if txLock == UNLOCKED { txLock := 0; }
      pc := pc[t := P.Checking(pc[t].op)];
    }

    /** The loops of prvUnlockQueue. */
    method WakeCountedReceivers()
      modifies `receivers, `wokenReceivers
      ensures Rx() == WakeMany(old(Rx()), txLock)
    {
      var lock := txLock;
      while lock > 0 && receivers != []
        invariant WakeMany(Rx(), lock) == WakeMany(old(Rx()), txLock)
      {
        WakeReceiver();
        lock := lock - 1;
      }
    }

    method WakeCountedSenders()
      requires messages <= length
      modifies `senders, `wokenSenders
      ensures Tx() == WakeMany(old(Tx()), rxLock)
    {
      var lock := rxLock;
      while lock > 0 && senders != []
        invariant WakeMany(Tx(), lock) == WakeMany(old(Tx()), rxLock)
      {
        WakeSender();
        lock := lock - 1;
      }
    }

    /** prvUnlockQueue, first critical section. */
    method UnlockReceivers(ghost t: Task)
      requires Valid() && P.Enabled(View(), P.UnlockTx(t))
      modifies `receivers, `wokenReceivers, `txLock, `pc
      ensures Valid() && View() == P.Next(old(View()), P.UnlockTx(t))
      ensures O.InTurn(old(View()), P.UnlockTx(t), View())
      ensures old(Safe()) ==> Safe()
    {
      Keeps(P.UnlockTx(t));
      hide P.Good, O.InTurn, WakeMany;
      WakeCountedReceivers();
      txLock := UNLOCKED;
      pc := pc[t := P.UnlockingRx(pc[t].op, pc[t].expired)];
    }

    /** prvUnlockQueue, second critical section. */
    method UnlockSenders(ghost t: Task)
      requires Valid() && P.Enabled(View(), P.UnlockRx(t))
      modifies `senders, `wokenSenders, `rxLock, `pc
      ensures Valid() && View() == P.Next(old(View()), P.UnlockRx(t))
      ensures O.InTurn(old(View()), P.UnlockRx(t), View())
      ensures old(Safe()) ==> Safe()
    {
      Keeps(P.UnlockRx(t));
      hide P.Good, O.InTurn, WakeMany;
      WakeCountedSenders();
      rxLock := UNLOCKED;
      pc := pc[t := P.Resuming(pc[t].op, pc[t].expired)];
    }

    /** The second half of the loop when nothing comes between: the task ends up in
        its place on the event list, and the queue is otherwise as before. */
    method Await(op: P.Op, t: Task, value: map<Task, nat>)
      requires Safe() && owner == P.Nobody && rxLock == txLock == UNLOCKED && P.SideOf(View(), op).avail == 0
      requires t in known && !P.Waits(View(), t) && P.PcOf(View(), t) == P.Suspending(op)
      modifies `pc, `owner, `txLock, `rxLock, `receivers, `senders, `wokenReceivers, `wokenSenders
      ensures Safe() && View() == P.Go(WithWaiter(old(View()), op, t, value), t, P.Trying(op))
    {
      hide P.Good, InsertSorted, P.Insert, P.Next, P.Enabled;
      ghost var q := View();
      P.Begins(q, t, op);
      Suspend(t);
      LockQueue(t);
      var block := Check(op, false, t);
      ghost var at := Place(op, t, value);
      P.Joins(q, t, op, at);
      P.Ends(P.Listed(q, t, op, at), t, op);
      UnlockReceivers(t);
      UnlockSenders(t);
      var giveUp := Resume(op, false, t);
    }

    /** xQueueGenericReset of a queue in use: one sender is woken. */
    method Reset(ghost t: Task)
      requires Valid() && P.Enabled(View(), P.Reset(t))
      modifies `messages, `writeTo, `readFrom, `last, `rxLock, `txLock, `senders, `wokenSenders
      ensures Valid() && Items() == [] && View() == P.Next(old(View()), P.Reset(t))
      ensures O.InTurn(old(View()), P.Reset(t), View())
      ensures old(Safe()) ==> Safe()
    {
      hide Contents, Slots, Valid, Laid, Items, P.Next, P.Good, P.Enabled, P.PcOf, O.InTurn;
      Fits();
      P.ResetIs(View(), t);
      Keeps(P.Reset(t));
      Empty();
      rxLock, txLock := UNLOCKED, UNLOCKED;
      WakeSender();
    }

    method Empty()
      requires Valid()
      modifies `messages, `writeTo, `readFrom, `last
      ensures Valid() && messages == 0 && Items() == []
    {
      messages, writeTo, readFrom, last := 0, 0, (length - 1) * itemSize, length - 1;
    }
  }

  /** Two overwrites of a queue of length one with items of size zero. */
  method OverwriteTwice() returns (q: Queue)
    ensures q.length == 1 && q.itemSize == 0 && q.messages == 2
  {
    q := new Queue(1, 0, {});
    q.CopyTo([], Overwrite);
    q.CopyTo([], Overwrite);
  }

  /** A queue with a receiver on its list and nothing in it. */
  function Starving(length: nat, t: Task, u: Task): P.Queue {
    P.Queue(length, Side(0, [t], {}, UNLOCKED), Side(length, [], {}, UNLOCKED), P.Nobody,
            map[t := P.Trying(P.Receive)], {t, u})
  }

  /** The same once `u` has sent. */
  function Fed(length: nat, t: Task, u: Task): P.Queue
    requires length > 0
  {
    P.Queue(length, Side(1, [], {t}, UNLOCKED), Side(length - 1, [], {}, UNLOCKED), P.Nobody,
            map[t := P.Trying(P.Receive), u := P.Out], {t, u})
  }

  lemma Feeds(length: nat, t: Task, u: Task)
    requires length > 0 && t != u
    ensures Starving(length, t, u).rx.avail == 0
    ensures var a := Starving(length, t, u); var b := P.Go(a, u, P.Trying(P.Send));
            && P.Enabled(a, P.Enter(u, P.Send)) && P.Next(a, P.Enter(u, P.Send)) == b
            && P.PcOf(b, u) == P.Trying(P.Send)
            && P.Enabled(b, P.Try(u, true)) && P.Next(b, P.Try(u, true)) == Fed(length, t, u)
    ensures var c := Fed(length, t, u); P.Enabled(c, P.Try(t, true)) && P.PcOf(c, t) == P.Trying(P.Receive)
  {
  }

  /** From a new queue `t` receives and has to wait. */
  method Starve(length: nat, size: nat, t: Task, u: Task) returns (q: Queue)
    requires length > 0 && t != u
    ensures fresh(q) && fresh(q.storage) && q.Safe() && q.length == length && q.itemSize == size
    ensures q.View() == Starving(length, t, u) && q.Items() == []
  {
    hide P.Good, Queue.Items, Contents, Slots;
    q := new Queue(length, size, {t, u});
    q.Enter(t, P.Receive);
    var y := q.TryReceive(t, true);
    q.Await(P.Receive, t, map[]);
    assert q.receivers == [t];
  }

  /** Then `u` sends, which wakes it. */
  method Feed(q: Queue, x: Item, t: Task, u: Task)
    requires q.Safe() && q.length > 0 && q.itemSize == |x| && t != u
    requires q.View() == Starving(q.length, t, u) && q.Items() == []
    modifies q, q.storage
    ensures q.Safe() && q.View() == Fed(q.length, t, u) && q.Items() == [x]
  {
    hide P.Good, Queue.Items, Contents, Slots, P.Next, P.Enabled, Starving, Fed;
    Feeds(q.length, t, u);
    q.Enter(u, P.Send);
    var ok := q.TrySend(x, Back, u, true);
  }

  /** And `t` gets what was sent. */
  method Handover(length: nat, x: Item, t: Task, u: Task) returns (q: Queue, y: Option<Item>)
    requires length > 0 && t != u
    ensures q.Safe() && y == Some(x) && q.messages == 0
  {
    hide P.Good, Queue.Items, Contents, Slots, P.Next, P.Enabled, Starving, Fed;
    Feeds(length, t, u);
    q := Starve(length, |x|, t, u);
    Feed(q, x, t, u);
    y := q.TryReceive(t, true);
    Singleton(y, x, q.Items());
    q.Fits();
  }

  lemma Singleton(y: Option<Item>, x: Item, rest: seq<Item>)
    requires if y.Some? then [y.value] + rest == [x] else rest == [x]
    requires y == None ==> [x] == []
    ensures y == Some(x) && rest == []
  {
    assert y.Some? ==> ([y.value] + rest)[0] == x && |[y.value] + rest| == 1;
  }

  lemma Next(k: nat, length: nat, size: nat)
    requires k < length && size > 0
    ensures k * size + size >= length * size <==> k + 1 == length
    ensures After(length, k) * size == if k + 1 == length then 0 else k * size + size
  {
    if k + 1 < length { Apart(k + 1, length, size); Scale(k, length, size); }
  }

  lemma Previous(k: nat, length: nat, size: nat)
    requires k < length && size > 0
    ensures k * size - size < 0 <==> k == 0
    ensures Before(length, k) * size == if k == 0 then length * size - size else k * size - size
  {
    if k > 0 { Scale(k - 1, length, size); } else { Scale(length - 1, length, size); }
  }

  lemma OnlySlot(slots: seq<Item>, x: Item)
    requires |slots| == 1
    ensures Contents(slots[0 := x], 0, 1) == [x]
  {
    ContentsAt(slots[0 := x], 0, 1, 0);
  }

  lemma SizelessSlots(bytes: seq<Byte>, length: nat)
    requires |bytes| == 0
    ensures Slots(bytes, length, 0) == seq(length, _ => [])
  {
  }

  lemma Sizeless(slots: seq<Item>, last: nat, n: nat, x: Item)
    requires last < |slots| && n <= |slots| && slots == seq(|slots|, _ => []) && x == []
    ensures Contents(slots, last, n) == seq(n, _ => [])
    ensures n < |slots| ==> Contents(slots, last, n + 1) == Contents(slots, last, n) + [x]
    ensures n < |slots| ==> Contents(slots, last, n + 1) == [x] + Contents(slots, last, n)
  {
    Blank(slots, last, n);
    if n < |slots| { Blank(slots, last, n + 1); }
  }

  lemma Blank(slots: seq<Item>, last: nat, n: nat)
    requires last < |slots| && n <= |slots| && slots == seq(|slots|, _ => [])
    ensures Contents(slots, last, n) == seq(n, _ => [])
  {
    forall i | 0 <= i < n ensures Contents(slots, last, n)[i] == [] {
      ContentsAt(slots, last, n, i);
    }
  }
}

/** tasks.c as it runs: the kernel's variables and its linked lists updated in place,
    each operation proved to take the step that the state machine of Scheduler takes. */
module TaskKernel {
  import opened Basics
  import opened Rings
  import opened Scheduler
  import opened Ticks
  import opened SchedulerSafety
  import opened SchedulerRuns
  import opened KernelStart
  import opened ReadyBitmap
  import B = ListBanks
  import W = WakeTimes
  import TimeSlices

  /** The running task lends its priority to `h`, or has lent it already. */
  predicate Lends(k: Kernel, h: Task) {
    Priority(k, h) < Priority(k, k.current) || At(k.base, h) < Priority(k, k.current)
  }

  /** From k to k' the holder has risen to the running task's priority, if it was below. */
  ghost predicate Inherited(k: Kernel, k': Kernel, h: Task) {
    && At(k'.priority, h) == Larger(Priority(k, h), Priority(k, k.current))
    && (Core(k, k.tick) ==> Core(k', k.tick))
  }

  lemma InheritMeans(k: Kernel, h: Task)
    requires Typed(k) && h in k.priority
    ensures Inherited(k, PriorityInherit(k, h), h)
  {
    hide Core;
    if Core(k, k.tick) {
      PriorityInheritKeeps(k, h);
    }
  }

  /** From k to k' the running task has gone back to its base priority. */
  ghost predicate Disinherited(k: Kernel, k': Kernel) {
    At(k'.priority, k.current) == At(k.base, k.current) && (Core(k, k.tick) ==> Core(k', k.tick))
  }

  lemma DisinheritMeans(k: Kernel)
    requires Typed(k) && k.current in k.priority
    ensures Disinherited(k, PriorityDisinherit(k))
  {
    hide Core;
    if Core(k, k.tick) {
      PriorityDisinheritKeeps(k);
    }
  }

  /** From k to k' the holder has gone to its base priority or to that of a waiter, and
      lists and bitmap are right exactly if no list was emptied. */
  ghost predicate Lowered(k: Kernel, k': Kernel, h: Task, waiting: nat) {
    && At(k'.priority, h) == Larger(At(k.base, h), waiting)
    && (h in k.priority && Core(k, k.tick) ==>
          (Core(k', k.tick) <==> !InReady(k.ready, k.priority, h) || k.priority[h] == Larger(At(k.base, h), waiting) ||
                                 SharesList(k, h)))
  }

  lemma LowerMeans(k: Kernel, h: Task, waiting: nat)
    requires Typed(k) && h in k.priority && waiting < MAX_PRIORITIES
    ensures Lowered(k, DisinheritAfterTimeout(k, h, waiting), h, waiting)
  {
    hide Core, InReady, SharesList;
    if Core(k, k.tick) {
      DisinheritAfterTimeoutKeepsIff(k, h, waiting);
    }
  }

  class TaskKernel {
    const states: B.ListBank     // by state list item: the ready lists, then the two delayed lists
    const events: B.ListBank     // by event list item: xPendingReadyList, then the event lists
    var priority: map<Task, nat>
    var base: map<Task, nat>
    var current: Task
    var idle: Task
    var topReady: bv32           // uxTopReadyPriority as the port uses it
    ghost var bound: nat         // uxTopReadyPriority as the generic code uses it
    var delayed: nat             // pxDelayedTaskList
    var overflow: nat            // pxOverflowDelayedTaskList
    var tick: nat
    var overflows: nat
    var nextUnblock: nat
    var suspended: nat
    var pended: nat

    /** prvInitialiseTaskLists, the creation of tasks, and vTaskStartScheduler, with
        the event lists of all queues and event groups. */
    constructor (ns: seq<NewTask>, idle: Task, eventLists: nat)
      requires Creatable(map[], ns) && NewTask(idle, 0) in ns
      ensures Valid() && fresh(states.repr) && fresh(events.repr) && |events.lists| == eventLists + 1
      ensures State() == CreateAll(NoTasks(idle, 0), ns).(wake := states.Values()) && Inv(State())
    {
      hide Inv, Creatable, CreateAll, ItemValues, Priorities, Names, Prepared, Sound, Shape, EventOf, Unturned,
        B.ListBank.Valid, B.ListBank.View, B.ListBank.Values, B.ListBank.Separate, B.Empty;
      Startable(ns);
      states := new B.ListBank(MAX_PRIORITIES + 2, Names(ns), map[]);
      events := new B.ListBank(eventLists + 1, Names(ns), ItemValues(map[], ns));
      priority, base, current, this.idle := Priorities(map[], ns), Priorities(map[], ns), idle, idle;
      topReady, bound, delayed, overflow := 0, 0, MAX_PRIORITIES, MAX_PRIORITIES + 1;
      tick, overflows, nextUnblock, suspended, pended := 0, 0, MAX_DELAY, 0, 0;
      new;
      NoneCreated(ns);
      CreateTasks(ns);
      StartInv(ns, idle, states.Values());
    }

    ghost predicate Prepared(ns: seq<NewTask>)
      reads this, states.repr, events.repr
    {
      && Creatable(map[], ns) && Wired() && Sound() && (forall n :: n in ns ==> n.priority < MAX_PRIORITIES)
      && priority == base == Priorities(map[], ns) && events.Values() == ItemValues(map[], ns)
      && states.View() == B.Empty(MAX_PRIORITIES + 2)
      && State() == NoTasks(idle, 0).(priority := priority, base := base, eventValue := events.Values(),
                                      wake := states.Values())
    }

    lemma NoneCreated(ns: seq<NewTask>)
      requires Creatable(map[], ns) && forall n :: n in ns ==> n.priority < MAX_PRIORITIES
      requires Wired() && states.Valid() && events.Valid() && states.View() == B.Empty(MAX_PRIORITIES + 2)
      requires events.View() == B.Empty(|events.lists|)
      requires (forall t :: t in states.item <==> t in Names(ns)) && (forall t :: t in events.item <==> t in Names(ns))
      requires forall t :: t in events.item ==> At(events.Values(), t) == At(ItemValues(map[], ns), t)
      requires priority == base == Priorities(map[], ns) && current == idle
      requires topReady == 0 && bound == 0 && tick == overflows == suspended == pended == 0 && nextUnblock == MAX_DELAY
      ensures Prepared(ns)
    {
      hide B.ListBank.Valid, B.ListBank.View, B.ListBank.Values, B.ListBank.Separate, Fits, Recorded, Creatable,
        Priorities, ItemValues, Names, Shape;
      NothingRecorded();
      Named(map[], ns);
      ItemsNamed(map[], ns);
      ValuesOver();
      NoEvents(|events.lists|);
      assert events.Values() == ItemValues(map[], ns);
      TypedStart(ns, State(), idle);
      assert states.View()[..MAX_PRIORITIES] == NoTasks(idle, 0).ready;
    }

    lemma ValuesOver()
      requires Wired()
      ensures events.Values().Keys == events.item.Keys
    {
      hide B.ListBank.Separate;
    }

    /** As in `full` but for the lists and the running task, which are as in k. */
    ghost predicate During(full: Kernel, k: Kernel)
      reads this, states.repr, events.repr
    {
      && Sound() && Booting(k) && AllHome(states.View(), k.priority) && Agree(k.priority, priority)
      && State() == full.(ready := k.ready, top := k.top, bound := k.bound, current := k.current)
    }

    /** prvAddNewTaskToReadyList for each task. */
    method CreateTasks(ns: seq<NewTask>)
      requires Prepared(ns)
      modifies states.repr, `topReady, `bound, `current
      ensures Valid() && State() == CreateAll(NoTasks(idle, 0), ns).(wake := states.Values())
    {
      hide During, Sound, Shape, B.ListBank.Valid, B.ListBank.View, B.ListBank.Values, B.ListBank.Separate, CreateAll,
        Recorded, AllHome, Create, Creatable, Booting;
      ghost var full, none := State(), NoTasks(idle, 0);
      ghost var k := none;
      Begin(ns);
      for i := 0 to |ns|
        invariant Creatable(map[], ns) && Creatable(map[], ns[..i]) && k == CreateAll(none, ns[..i]) && During(full, k)
        invariant priority == Priorities(map[], ns) && (k.priority == map[] <==> i == 0)
      {
        CreateNext(none, ns, i);
        PriorityOf(map[], ns, i);
        CreateOne(ns[i], i == 0, full, k);
        k := Create(k, ns[i]);
      }
      assert ns[..|ns|] == ns;
      Finish(ns, full, k);
    }

    lemma Begin(ns: seq<NewTask>)
      requires Prepared(ns)
      ensures Creatable(map[], ns[..0]) && CreateAll(NoTasks(idle, 0), ns[..0]) == NoTasks(idle, 0)
      ensures During(State(), NoTasks(idle, 0))
    {
      hide B.ListBank.Valid, B.ListBank.View, B.ListBank.Values, B.ListBank.Separate, Fits, Recorded, Shape;
      assert ns[..0] == [];
      NoneBoots(idle);
      NothingRecorded();
      assert states.View()[..MAX_PRIORITIES] == NoTasks(idle, 0).ready;
    }

    lemma Finish(ns: seq<NewTask>, full: Kernel, k: Kernel)
      requires Creatable(map[], ns) && k == CreateAll(NoTasks(idle, 0), ns) && During(full, k)
      requires priority == Priorities(map[], ns)
      requires full == NoTasks(idle, 0).(priority := priority, base := priority, eventValue := full.eventValue,
                                         wake := full.wake)
      requires (forall n :: n in ns ==> n.priority < MAX_PRIORITIES) && full.eventValue == ItemValues(map[], ns)
      ensures Valid() && State() == k.(wake := full.wake)
    {
      hide B.ListBank.Valid, B.ListBank.View, B.ListBank.Values, B.ListBank.Separate, Fits, Recorded, Shape, AllHome,
        CreateAll, Creatable, Booting, Priorities;
      CreateFrame(NoTasks(idle, 0), ns);
    }

    method CreateOne(n: NewTask, first: bool, ghost full: Kernel, ghost k: Kernel)
      requires During(full, k) && n.task !in k.priority && n.task in priority
      requires priority[n.task] == n.priority < MAX_PRIORITIES
      requires (first <==> k.priority == map[]) && full.delayed == full.overflow == []
      modifies states.repr, `topReady, `bound, `current
      ensures During(full, Create(k, n))
    {
      hide Shape, AllHome, B.ListBank.Valid, B.ListBank.View, B.ListBank.Values, B.ListBank.Separate, EventOf, Unturned,
        Rings.InsertEnd, Booting, Create, AddToReady, Agree;
      TaskAdded(full, State(), states.View(), k, n);
      MakeCurrent(n.task, first || priority[current] <= n.priority);
      AddToReadyList(n.task);
    }

    method MakeCurrent(t: Task, now: bool)
      requires Sound()
      modifies `current
      ensures Sound() && State() == old(State()).(current := if now then t else old(current))
    {
      hide Shape, AllHome, B.ListBank.Valid, B.ListBank.View, B.ListBank.Values, B.ListBank.Separate, EventOf, Unturned;
      if now {
        current := t;
      }
    }

    ghost predicate Wired()
      reads `delayed, `overflow
    {
      && states.Separate() && |states.lists| == MAX_PRIORITIES + 2 && events.Separate() && |events.lists| > 0
      && states.repr !! events.repr && this !in states.repr && this !in events.repr
      && MAX_PRIORITIES <= delayed < MAX_PRIORITIES + 2 && overflow == 2 * MAX_PRIORITIES + 1 - delayed
    }

    ghost function State(): Kernel
      requires Wired()
      reads this, states.repr, events.repr
    {
      var v := states.View();
      Kernel(priority, base, current, idle, v[..MAX_PRIORITIES], Recorded(topReady), bound,
             v[delayed].items, v[overflow].items, states.Values(), events.View()[0].items,
             EventOf(events.View()), events.Values(), tick, overflows, nextUnblock, suspended, pended)
    }

    /** All that holds even while the item of a task is between two lists. */
    ghost predicate Sound()
      reads this, states.repr, events.repr
    {
      && Wired() && states.Valid() && events.Valid() && Unturned(events.View())
      && states.item.Keys == events.item.Keys == priority.Keys
      && Typed(State()) && Fits(topReady)
    }

    ghost predicate Valid()
      reads this, states.repr, events.repr
    {
      Sound() && AllHome(states.View(), priority)
    }

    /** The state list item of `t` is in no list; all others are in theirs. */
    ghost predicate Lacks(t: Task)
      reads this, states.repr, events.repr
    {
      Sound() && t in priority && B.Free(states.View(), t) && AllHome(states.View(), priority - {t})
    }

    /** uxListRemove of the state list item, with the number of items left. */
    method TakeOut(t: Task) returns (left: nat)
      requires Valid() && t in priority
      modifies states.repr
      ensures Lacks(t) && State() == RemoveState(old(State()), t)
      ensures IsReady(old(State()), t) ==> left == |State().ready[priority[t]].items|
    {
      hide Shape, AllHome, B.ListBank.Valid, B.ListBank.View, B.ListBank.Values, B.ListBank.Separate, EventOf, Unturned;
      ghost var i;
      states.Lists();
      HomeIsList(states.View(), priority, t);
      Below(State(), t, 0);
      left, i := states.Remove(t);
      Taken(old(states.View()), priority, t, i);
      assert State() == RemoveState(old(State()), t);
    }

    /** prvAddTaskToReadyList */
    method AddToReadyList(t: Task)
      requires Sound() && t in priority && B.Free(states.View(), t)
      modifies states.repr, `topReady, `bound
      ensures Sound() && State() == AddToReady(old(State()), t)
      ensures var p, v := priority[t], old(states.View());
              p < MAX_PRIORITIES && WellFormed(v[p]) && states.View() == v[p := Rings.InsertEnd(v[p], t)]
    {
      hide Shape, AllHome, B.ListBank.Valid, B.ListBank.View, B.ListBank.Values, B.ListBank.Separate, EventOf, Unturned,
        Rings.InsertEnd;
      var p := priority[t];
      Below(State(), t, 0);
      RecordedSet(topReady, p);
      StillFits(topReady, p);
      topReady := Record(topReady, p);
      bound := Larger(bound, p);
      states.Append(p, t);
      assert State() == AddToReady(old(State()), t);
    }

    method PutReady(t: Task)
      requires Lacks(t)
      modifies states.repr, `topReady, `bound
      ensures Valid() && State() == AddToReady(old(State()), t)
    {
      hide Shape, AllHome, B.ListBank.Valid, B.ListBank.View, B.ListBank.Values, B.ListBank.Separate, EventOf, Unturned,
        Rings.InsertEnd;
      AddToReadyList(t);
      Put(old(states.View()), priority, t);
    }

    /** listREMOVE_ITEM of the event list item, if it is in a list. */
    method TakeEventOut(t: Task)
      requires Sound() && t in priority
      modifies events.repr
      ensures Sound() && State() == RemoveEvent(old(State()), t) && states.View() == old(states.View())
      ensures B.Free(events.View(), t) && Gone(old(events.View()), events.View(), t)
    {
      hide Shape, AllHome, B.ListBank.Valid, B.ListBank.View, B.ListBank.Values, B.ListBank.Separate, EventOf, Unturned;
      var listed := events.Listed(t);
      if listed {
        Unlist(t);
      } else {
        NotListed(events.View(), t);
      }
    }

    method Unlist(t: Task)
      requires Sound() && t in priority && !B.Free(events.View(), t)
      modifies events.repr
      ensures Sound() && State() == RemoveEvent(old(State()), t) && states.View() == old(states.View())
      ensures B.Free(events.View(), t) && Gone(old(events.View()), events.View(), t)
    {
      hide Shape, AllHome, B.ListBank.Valid, B.ListBank.View, B.ListBank.Values, B.ListBank.Separate, EventOf, Unturned;
      events.Lists();
      var _, i := events.Remove(t);
      Unlisted(old(events.View()), priority.Keys, t, i);
      assert states.Valid() && states.View() == old(states.View()) && states.Values() == old(states.Values());
    }

    /** vListInsertEnd of the event list item into list i. */
    method EndOfEventList(t: Task, i: nat)
      requires Valid() && t in priority && B.Free(events.View(), t) && i < |events.lists|
      modifies events.repr
      ensures Valid() && events.View() == old(events.View())[i := Ring(old(events.View())[i].items + [t], 0)]
      ensures State() == Listed(old(State()), t, i)
    {
      hide Shape, AllHome, B.ListBank.Valid, B.ListBank.View, B.ListBank.Values, B.ListBank.Separate, EventOf,
        Rings.InsertEnd;
      events.Lists();
      EndOfUnturned(events.View()[i], t);
      Joins(events.View(), priority.Keys, t, i, Ring(events.View()[i].items + [t], 0));
      events.Append(i, t);
      assert states.Valid() && states.View() == old(states.View()) && states.Values() == old(states.Values());
    }

    /** vListInsert of the event list item into list i. */
    method IntoEventList(t: Task, i: nat)
      requires Valid() && t in priority && B.Free(events.View(), t) && 0 < i < |events.lists|
      modifies events.repr
      ensures Valid() && State() == Listed(old(State()), t, i)
      ensures events.View()[i].items == InsertSorted(old(events.View())[i].items, t, old(State()).eventValue)
    {
      hide Shape, AllHome, B.ListBank.Valid, B.ListBank.View, B.ListBank.Values, B.ListBank.Separate, EventOf,
        InsertSorted;
      events.Lists();
      events.Insert(i, t);
      SortedKeeps(old(events.View())[i].items, t, events.Values());
      Joins(old(events.View()), priority.Keys, t, i, events.View()[i]);
      assert states.Valid() && states.View() == old(states.View()) && states.Values() == old(states.Values());
    }

    /** listSET_LIST_ITEM_VALUE of the event list item. */
    method SetEventValue(t: Task, v: nat)
      requires Valid() && t in priority && v <= MAX_DELAY
      modifies events.repr
      ensures Valid() && State() == old(State()).(eventValue := old(State()).eventValue[t := v])
      ensures events.View() == old(events.View())
    {
      hide Shape, AllHome, B.ListBank.Valid, B.ListBank.View, B.ListBank.Values, B.ListBank.Separate, EventOf, Unturned;
      events.Set(t, v);
      assert states.Valid() && states.View() == old(states.View()) && states.Values() == old(states.Values());
    }

    /** vListInsertEnd of the event list item into xPendingReadyList. */
    method Pend(t: Task)
      requires Valid() && t in priority && B.Free(events.View(), t)
      modifies events.repr
      ensures Valid() && State() == old(State()).(pending := old(State()).pending + [t])
      ensures forall i :: 0 < i < |events.lists| ==> events.View()[i] == old(events.View())[i]
    {
      hide Shape, Sound, Valid, B.ListBank.Separate, EventOf, B.Free;
      Bare();
      EndOfEventList(t, 0);
    }

    method ResetReadyPriority(p: nat)
      requires Sound() && p < MAX_PRIORITIES
      modifies `topReady
      ensures Sound() && State() == old(State()).(top := old(State()).top - {p})
    {
      hide Shape, AllHome, B.ListBank.Valid, B.ListBank.View, B.ListBank.Values, B.ListBank.Separate, EventOf, Unturned;
      RecordedSet(topReady, p);
      StillFits(topReady, p);
      topReady := Reset(topReady, p);
    }

    /** The task moves to its ready list from wherever it is. */
    method MoveReady(t: Task)
      requires Valid() && t in priority
      modifies states.repr, `topReady, `bound
      ensures Valid() && State() == MoveToReady(old(State()), t)
    {
      hide Shape, AllHome, B.ListBank.Valid, B.ListBank.View, B.ListBank.Values, B.ListBank.Separate, EventOf, Unturned,
        RemoveState, AddToReady;
      var _ := TakeOut(t);
      PutReady(t);
    }

    /** What the abstract state needs to make sense. */
    lemma Bare()
      requires Valid()
      ensures Wired() && Typed(State())
    {
    }

    /** The head of the delayed list: state item, event item, ready list. */
    method UnblockFirst(t: Task)
      requires Valid() && State().delayed != [] && t == State().delayed[0] && t in priority
      modifies states.repr, events.repr, `topReady, `bound
      ensures Valid() && State() == UnblockHead(old(State()))
    {
      hide Shape, AllHome, B.ListBank.Valid, B.ListBank.View, B.ListBank.Values, B.ListBank.Separate, EventOf, Unturned,
        RemoveState, AddToReady, RemoveEvent;
      var _ := TakeOut(t);
      TakeEventOut(t);
      PutReady(t);
      RemovalsCommute(old(State()), t);
    }

    /** The head of the delayed list and its wake time. */
    method FirstDelayed() returns (some: bool, t: Task, at: nat)
      requires Valid()
      ensures some <==> State().delayed != []
      ensures some ==> t == State().delayed[0] && t in priority && at == At(State().wake, t)
    {
      hide Shape, AllHome, B.ListBank.Valid, B.ListBank.View, B.ListBank.Values, B.ListBank.Separate, EventOf, Unturned;
      var n := states.Length(delayed);
      some, t, at := n > 0, 0, 0;
      if some {
        t, at := states.Head(delayed);
      }
    }

    method SetNextUnblock(at: nat)
      requires Valid()
      modifies `nextUnblock
      ensures Valid() && State() == old(State()).(nextUnblock := at)
    {
      hide Shape, AllHome, B.ListBank.Valid, B.ListBank.View, B.ListBank.Values, B.ListBank.Separate, EventOf, Unturned;
      nextUnblock := at;
    }

    method ResetNextUnblockTime()
      requires Valid()
      modifies `nextUnblock
      ensures Valid() && State() == ResetNextUnblock(old(State()))
    {
      hide Shape, Sound, Valid, B.ListBank.Separate;
      Bare();
      var some, _, at := FirstDelayed();
      SetNextUnblock(if some then at else MAX_DELAY);
    }

    /** The loop of xTaskIncrementTick. */
    method UnblockDueTasks()
      requires Valid()
      modifies this, states.repr, events.repr
      ensures Valid() && State() == UnblockDue(old(State()))
    {
      hide Shape, Sound, Valid, B.ListBank.Separate, UnblockHead;
      Bare();
      var more := true;
      while more
        invariant Valid() && Wired() && Typed(State())
        invariant if more then UnblockDue(State()) == UnblockDue(old(State())) else State() == UnblockDue(old(State()))
        decreases |State().delayed|, more
      {
        var some, t, at := FirstDelayed();
        if !some {
          SetNextUnblock(MAX_DELAY);
          more := false;
        } else if tick < at {
          SetNextUnblock(at);
          more := false;
        } else {
          UnblockFirst(t);
        }
        Bare();
      }
    }

    /** xTaskIncrementTick */
    method IncrementTick()
      requires Valid() && Inv(State())
      modifies this, states.repr, events.repr
      ensures Valid() && State() == Scheduler.IncrementTick(old(State()))
    {
      hide Shape, AllHome, B.ListBank.Valid, B.ListBank.View, B.ListBank.Values, B.ListBank.Separate, EventOf, Unturned,
        Core, AdvanceTick;
      if suspended == 0 {
        CountTick();
      } else {
        pended := (pended + 1) % WRAP;
      }
    }

    /** taskSWITCH_DELAYED_LISTS; its assertion is the precondition. */
    method SwitchLists()
      requires Valid() && State().delayed == []
      modifies `delayed, `overflow, `overflows, `nextUnblock
      ensures Valid() && State() == SwitchDelayedLists(old(State()))
    {
      hide Shape, AllHome, B.ListBank.Valid, B.ListBank.View, B.ListBank.Values, B.ListBank.Separate, EventOf, Unturned;
      delayed, overflow, overflows := overflow, delayed, overflows + 1;
      ResetNextUnblockTime();
    }

    method SetTick(now: nat)
      requires Valid()
      modifies `tick
      ensures Valid() && State() == old(State()).(tick := now)
    {
      hide Shape, AllHome, B.ListBank.Valid, B.ListBank.View, B.ListBank.Values, B.ListBank.Separate, EventOf, Unturned;
      tick := now;
    }

    method CountTick()
      requires Valid() && Core(State(), tick)
      modifies this, states.repr, events.repr
      ensures Valid() && State() == AdvanceTick(old(State()))
    {
      hide Shape, Sound, Valid, B.ListBank.Separate, UnblockDue, Core, SwitchDelayedLists;
      Bare();
      ghost var k := State();
      SetTick((tick + 1) % WRAP);
      Bare();
      if tick == 0 {
        assert State().delayed == [] by { SwitchFindsEmpty(k); }
        SwitchLists();
        Bare();
      }
      if tick >= nextUnblock {
        UnblockDueTasks();
      }
    }

    /** xTaskResumeAll */
    method ResumeAll()
      requires Valid() && Inv(State()) && suspended > 0
      modifies this, states.repr, events.repr
      ensures Valid() && State() == Scheduler.ResumeAll(old(State()))
    {
      hide Shape, Sound, Valid, B.ListBank.Separate, Core, DrainPending, AdvanceTicks, ResetNextUnblock;
      Bare();
      ghost var k := State();
      SetSuspended(suspended - 1);
      Bare();
      if suspended == 0 {
        ghost var k1 := State();
        assert Core(k1, k1.tick) by { CoreSuspended(k, k1); }
        var woken := ReadyPending();
        Bare();
        if woken {
          ResetNextUnblockTime();
          Bare();
        }
        ResumeCore(k1);
        CountTicks(pended);
        Bare();
        SetPended(0);
      }
    }

    method SetSuspended(n: nat)
      requires Valid()
      modifies `suspended
      ensures Valid() && State() == old(State()).(suspended := n)
    {
      hide Shape, AllHome, B.ListBank.Valid, B.ListBank.View, B.ListBank.Values, B.ListBank.Separate, EventOf, Unturned;
      suspended := n;
    }

    method SetPended(n: nat)
      requires Valid()
      modifies `pended
      ensures Valid() && State() == old(State()).(pended := n)
    {
      hide Shape, AllHome, B.ListBank.Valid, B.ListBank.View, B.ListBank.Values, B.ListBank.Separate, EventOf, Unturned;
      pended := n;
    }

    /** The loop over xPendingReadyList. */
    method ReadyPending() returns (any: bool)
      requires Valid()
      modifies this, states.repr, events.repr
      ensures Valid() && State() == DrainPending(old(State())) && (any <==> old(State()).pending != [])
    {
      hide Shape, Sound, Valid, B.ListBank.Separate, MoveToReady, RemoveEvent;
      Bare();
      var more, t := FirstPending();
      any := more;
      while more
        invariant Valid() && Wired() && Typed(State()) && DrainPending(State()) == DrainPending(old(State()))
        invariant more == (State().pending != []) && (more ==> t == State().pending[0] && t in priority)
        decreases |State().pending|
      {
        ReadyOne(t);
        Bare();
        more, t := FirstPending();
      }
    }

    method FirstPending() returns (some: bool, t: Task)
      requires Valid()
      ensures (some <==> State().pending != []) && (some ==> t == State().pending[0] && t in priority)
    {
      hide Shape, AllHome, B.ListBank.Valid, B.ListBank.View, B.ListBank.Values, B.ListBank.Separate, EventOf, Unturned;
      var n := events.Length(0);
      some, t := n > 0, 0;
      if some {
        var value;
        t, value := events.Head(0);
      }
    }

    method ReadyOne(t: Task)
      requires Valid() && t in priority && State().pending != [] && t == State().pending[0]
      modifies states.repr, events.repr, `topReady, `bound
      ensures Valid() && State() == MoveToReady(RemoveEvent(old(State()), t), t)
      ensures |State().pending| < |old(State()).pending|
    {
      hide Shape, AllHome, B.ListBank.Valid, B.ListBank.View, B.ListBank.Values, B.ListBank.Separate, EventOf, Unturned,
        MoveToReady;
      TakeEventOut(t);
      WithoutShrinks(old(State()).pending, t);
      MoveReady(t);
      MoveKeepsPending(RemoveEvent(old(State()), t), t);
    }

    /** The loop over the ticks held back. */
    method CountTicks(n: nat)
      requires Valid() && Core(State(), tick)
      modifies this, states.repr, events.repr
      ensures Valid() && State() == AdvanceTicks(old(State()), n)
    {
      hide Shape, Sound, Valid, B.ListBank.Separate, Core, AdvanceTick;
      Bare();
      var i := n;
      while i > 0
        invariant Valid() && Wired() && Typed(State())
        invariant Core(State(), tick) && AdvanceTicks(State(), i) == AdvanceTicks(old(State()), n)
      {
        AdvanceTickKeeps(State());
        AdvanceTickFrame(State());
        CountTick();
        Bare();
        i := i - 1;
      }
    }

    /** uxListRemove of a ready task, with the reset that follows it. */
    method LeaveReadyList(t: Task)
      requires Valid() && t in priority && IsReady(State(), t)
      modifies states.repr, `topReady
      ensures Lacks(t) && State() == LeaveReady(old(State()), t)
    {
      hide Shape, AllHome, B.ListBank.Valid, B.ListBank.View, B.ListBank.Values, B.ListBank.Separate, EventOf, Unturned;
      Below(State(), t, 0);
      var left := TakeOut(t);
      if left == 0 {
        ResetReadyPriority(priority[t]);
      }
    }

    method SetWake(t: Task, at: nat)
      requires Lacks(t) && at <= MAX_DELAY
      modifies states.repr
      ensures Lacks(t) && State() == old(State()).(wake := old(State()).wake[t := at])
    {
      hide Shape, AllHome, B.ListBank.Valid, B.ListBank.View, B.ListBank.Values, B.ListBank.Separate, EventOf, Unturned;
      states.Set(t, at);
    }

    /** vListInsert of the state list item into one of the delayed lists. */
    method Enqueue(t: Task, late: bool)
      requires Lacks(t)
      modifies states.repr
      ensures Valid()
      ensures var k := old(State());
              State() == if late then k.(overflow := InsertSorted(k.overflow, t, k.wake))
                  else k.(delayed := InsertSorted(k.delayed, t, k.wake))
    {
      hide Shape, AllHome, B.ListBank.Valid, B.ListBank.View, B.ListBank.Values, B.ListBank.Separate, EventOf, Unturned,
        InsertSorted;
      ghost var v := states.View();
      var i := if late then overflow else delayed;
      states.Insert(i, t);
      Queued(v, priority, t, i, states.View()[i], states.Values());
    }

    /** prvAddCurrentTaskToDelayedList: the running task is blocked, and due the given
        number of ticks after now. */
    method AddCurrentToDelayedList(ticks: nat)
      requires Valid() && current in priority && IsReady(State(), current)
      modifies states.repr, `topReady, `nextUnblock
      ensures Valid() && State() == BlockCurrent(old(State()), ticks)
      ensures Inv(old(State())) && Enabled(old(State()), Delay(ticks)) ==> SleepsFor(old(State()), ticks, State())
    {
      hide Shape, Sound, Valid, Inv, Enabled, BlockCurrent, SleepsFor, B.ListBank.Separate;
      Bare();
      BlockSleeps(State(), ticks);
      Block(ticks);
    }

    method Block(ticks: nat)
      requires Valid() && current in priority && IsReady(State(), current)
      modifies states.repr, `topReady, `nextUnblock
      ensures Valid() && State() == BlockCurrent(old(State()), ticks)
    {
      hide Shape, Sound, Valid, Lacks, B.ListBank.Separate, EventOf, InsertSorted, LeaveReady, BlockCurrent;
      Bare();
      BlockIs(State(), ticks);
      LeaveReadyList(current);
      Between(current);
      var at := (tick + ticks) % WRAP;
      SetWake(current, at);
      Between(current);
      FallAsleep(current, at);
    }

    method FallAsleep(t: Task, at: nat)
      requires Lacks(t)
      modifies states.repr, `nextUnblock
      ensures Valid()
      ensures var k := old(State());
              State() == if at < k.tick then k.(overflow := InsertSorted(k.overflow, t, k.wake))
                  else if at < k.nextUnblock then
                    k.(delayed := InsertSorted(k.delayed, t, k.wake), nextUnblock := at)
                  else k.(delayed := InsertSorted(k.delayed, t, k.wake))
    {
      hide Shape, Sound, Valid, Lacks, B.ListBank.Separate, EventOf, InsertSorted;
      Between(t);
      if at < tick {
        Enqueue(t, true);
      } else {
        Enqueue(t, false);
        Bare();
        if at < nextUnblock {
          SetNextUnblock(at);
        }
      }
    }

    /** taskSELECT_HIGHEST_PRIORITY_TASK as the port does it, with the assertion
        that the chosen list is not empty. */
    method SwitchContext()
      requires Valid() && Core(State(), tick)
      modifies states.repr, `current, `bound
      ensures Valid() && State() == SchedulerSafety.SwitchContext(old(State()))
      ensures TimeSlices.TakesTurn(old(State()), State())
    {
      TimeSlices.SwitchTurns(State());
      hide Shape, AllHome, B.ListBank.Valid, B.ListBank.View, B.ListBank.Values, B.ListBank.Separate, EventOf, Unturned,
        CountLeadingZeros, ReadyLists, Partition, Events, Timing, InReady, WellFormed;
      TopIsNonEmpty(State());
      HighestRecorded(topReady, At(priority, idle));
      var p := 31 - CountLeadingZeros(topReady);
      assert State().ready[p].items != [];
      Select(p);
    }

    method Select(p: nat)
      requires Valid() && p < MAX_PRIORITIES && State().ready[p].items != []
      modifies states.repr, `current, `bound
      ensures Valid() && State() == SelectFrom(old(State()), p)
    {
      hide Shape, AllHome, B.ListBank.Valid, B.ListBank.View, B.ListBank.Values, B.ListBank.Separate, EventOf, Unturned,
        Advance;
      ghost var v := states.View();
      RingOk(State(), p);
      TurnedHome(v, priority, p);
      current := states.Advance(p);
      bound := p;
      assert State() == SelectFrom(old(State()), p);
    }

    /** The generic form: a scan downwards from uxTopReadyPriority.  Its assertion
        that the scan does not pass priority zero is checked in the loop, and it
        picks the list the port picks. */
    method ScanReadyLists(top: nat) returns (p: nat)
      requires Valid() && Core(State(), tick) && top == bound
      ensures p == Highest(State().top, MAX_PRIORITIES)
    {
      hide Shape, AllHome, B.ListBank.Valid, B.ListBank.View, B.ListBank.Values, B.ListBank.Separate, EventOf, Unturned,
        ReadyLists, Partition, Events, Timing, InReady, Tasks, WellFormed;
      TopIsNonEmpty(State());
      ghost var h := Highest(State().top, MAX_PRIORITIES);
      p := top;
      var n := states.Length(p);
      while n == 0
        invariant h <= p < MAX_PRIORITIES && n == |State().ready[p].items|
        invariant forall q :: p < q < MAX_PRIORITIES ==> State().ready[q].items == []
        decreases p
      {
        assert p > 0;
        p := p - 1;
        n := states.Length(p);
      }
    }

    /** vTaskPlaceOnEventList: the running task joins event list e by its item value, and
        is blocked. */
    method PlaceOnEventList(e: nat, ticks: nat)
      requires Valid() && current in priority && IsReady(State(), current) && B.Free(events.View(), current)
      requires e + 1 < |events.lists|
      modifies states.repr, events.repr, `topReady, `nextUnblock
      ensures Valid() && State() == Scheduler.PlaceOnEventList(old(State()), e, ticks)
      ensures events.View()[e + 1].items == InsertSorted(old(events.View())[e + 1].items, current, State().eventValue)
    {
      hide Shape, Sound, Valid, B.ListBank.Separate, EventOf, B.Free, BlockCurrent, InsertSorted;
      Bare();
      BlockApart(State(), e, ticks);
      IntoEventList(current, e + 1);
      Bare();
      Block(ticks);
    }

    /** vTaskPlaceOnUnorderedEventList */
    method PlaceOnUnorderedEventList(e: nat, v: Word, ticks: nat)
      requires Valid() && current in priority && IsReady(State(), current) && B.Free(events.View(), current)
      requires e + 1 < |events.lists|
      modifies states.repr, events.repr, `topReady, `nextUnblock
      ensures Valid() && State() == Scheduler.PlaceOnUnorderedEventList(old(State()), e, v, ticks)
      ensures events.View()[e + 1].items == old(events.View())[e + 1].items + [current]
    {
      hide Shape, Sound, Valid, B.ListBank.Separate, EventOf, B.Free, BlockCurrent;
      Bare();
      UnorderedApart(State(), e, v, ticks);
      SetEventValue(current, InUse(v));
      Bare();
      EndOfEventList(current, e + 1);
      Bare();
      Block(ticks);
    }

    /** xTaskRemoveFromEventList: the head of event list e leaves it, and is ready, or
        held back while the scheduler is suspended. */
    method WakeFirst(e: nat) returns (t: Task)
      requires Valid() && e + 1 < |events.lists| && events.View()[e + 1].items != []
      modifies states.repr, events.repr, `topReady, `bound
      ensures var ts := old(events.View())[e + 1].items; t == ts[0] && events.View()[e + 1].items == ts[1..]
      ensures t in old(State()).eventOf && old(State()).eventOf[t] == e
      ensures Valid() && State() == RemoveFromEventList(old(State()), t)
      ensures if suspended > 0 then t in State().pending else Inv(old(State())) ==>
              InReady(State().ready, State().priority, t)
    {
      hide Shape, Sound, Valid, B.ListBank.Separate, EventOf, B.Free, ReadyOrPend, RemoveEvent, Inv, InReady;
      Bare();
      t := FirstWaiter(e);
      WokenIs(State(), t);
      Wake(t);
    }

    method FirstWaiter(e: nat) returns (t: Task)
      requires Valid() && e + 1 < |events.lists| && events.View()[e + 1].items != []
      ensures t in priority && t == events.View()[e + 1].items[0] && t in State().eventOf && State().eventOf[t] == e
      ensures Without(events.View()[e + 1].items, t) == events.View()[e + 1].items[1..]
    {
      hide Shape, Fits, Recorded, Without, B.OneEach, AllHome, B.ListBank.Valid, B.ListBank.View, B.ListBank.Values,
        B.ListBank.Separate, EventOf, Unturned;
      var value;
      t, value := events.Head(e + 1);
      events.Lists();
      FirstIs(events.View(), priority.Keys, e);
    }

    method Wake(t: Task)
      requires Valid() && t in priority
      modifies states.repr, events.repr, `topReady, `bound
      ensures Gone(old(events.View()), events.View(), t)
      ensures Valid() && State() == RemoveFromEventList(old(State()), t)
    {
      hide Shape, Sound, Valid, B.ListBank.Separate, EventOf, B.Free, MoveToReady, RemoveEvent, Without;
      Bare();
      FreeEvent(t);
      Bare();
      if suspended == 0 {
        MoveReady(t);
      } else {
        Pend(t);
      }
    }

    method FreeEvent(t: Task)
      requires Valid() && t in priority
      modifies events.repr
      ensures Valid() && State() == RemoveEvent(old(State()), t) && B.Free(events.View(), t)
      ensures Gone(old(events.View()), events.View(), t)
    {
      hide Shape, AllHome, B.ListBank.Valid, B.ListBank.View, B.ListBank.Values, B.ListBank.Separate, EventOf, Unturned,
        RemoveEvent;
      TakeEventOut(t);
    }

    /** vTaskRemoveFromUnorderedEventList */
    method WakeWithBits(t: Task, v: Word)
      requires Valid() && t in priority
      modifies states.repr, events.repr, `topReady, `bound
      ensures Valid() && State() == RemoveFromUnorderedEventList(old(State()), t, v)
    {
      hide Shape, AllHome, B.ListBank.Valid, B.ListBank.View, B.ListBank.Values, B.ListBank.Separate, EventOf, Unturned,
        MoveToReady, RemoveEvent, EventOf, Unturned;
      SetEventValue(t, InUse(v));
      TakeEventOut(t);
      MoveReady(t);
    }

    method SetPriority(t: Task, p: nat)
      requires Lacks(t) && p < MAX_PRIORITIES
      modifies `priority
      ensures Lacks(t) && State() == old(State()).(priority := old(State()).priority[t := p])
    {
      hide Shape, AllHome, B.ListBank.Valid, B.ListBank.View, B.ListBank.Values, B.ListBank.Separate, EventOf, Unturned;
      ghost var k := State();
      priority := priority[t := p];
      Retyped(k, t, p);
      assert priority - {t} == old(priority) - {t};
    }

    method SetBlockedPriority(t: Task, p: nat)
      requires Valid() && t in priority && !IsReady(State(), t) && p < MAX_PRIORITIES
      modifies `priority
      ensures Valid() && State() == old(State()).(priority := old(State()).priority[t := p])
    {
      hide Shape, AllHome, B.ListBank.Valid, B.ListBank.View, B.ListBank.Values, B.ListBank.Separate, EventOf, Unturned;
      ghost var k := State();
      Below(k, t, 0);
      BlockedHome(states.View(), priority, t, p);
      priority := priority[t := p];
      Retyped(k, t, p);
    }

    /** The part the inheritance functions share: the new priority, and the move
        between ready lists.  The list that is left decides whether the bit of
        `cleared` is reset. */
    method ChangePriority(t: Task, p: nat, cleared: nat)
      requires Valid() && t in priority && p < MAX_PRIORITIES && cleared < MAX_PRIORITIES
      modifies states.repr, `priority, `topReady, `bound
      ensures Valid() && State() == Reprioritise(old(State()), t, p, cleared)
    {
      hide Shape, AllHome, B.ListBank.Valid, B.ListBank.View, B.ListBank.Values, B.ListBank.Separate, EventOf, Unturned,
        Rings.InsertEnd;
      Below(State(), t, 0);
      var isReady := states.Contains(priority[t], t);
      if isReady {
        Relist(t, p, cleared);
      } else {
        SetBlockedPriority(t, p);
      }
    }

    method Relist(t: Task, p: nat, cleared: nat)
      requires Valid() && t in priority && IsReady(State(), t) && p < MAX_PRIORITIES && cleared < MAX_PRIORITIES
      modifies states.repr, `priority, `topReady, `bound
      ensures Valid() && State() == Reprioritise(old(State()), t, p, cleared)
    {
      hide Shape, Sound, Valid, Lacks, B.ListBank.Separate, EventOf, RemoveState, AddToReady, Reprioritise;
      Bare();
      Below(State(), t, 0);
      RelistForm(State(), t, p, cleared);
      var left := TakeOut(t);
      Between(t);
      SetPriority(t, p);
      Between(t);
      if left == 0 {
        ClearBit(t, cleared);
        Between(t);
      }
      PutReady(t);
    }

    lemma Between(t: Task)
      requires Lacks(t)
      ensures Wired() && Typed(State()) && t in priority
    {
    }

    method ClearBit(t: Task, p: nat)
      requires Lacks(t) && p < MAX_PRIORITIES
      modifies `topReady
      ensures Lacks(t) && State() == old(State()).(top := old(State()).top - {p})
    {
      hide Shape, AllHome, B.ListBank.Valid, B.ListBank.View, B.ListBank.Values, B.ListBank.Separate, EventOf, Unturned,
        B.Free;
      ResetReadyPriority(p);
    }

    method RevalueEventItem(t: Task, p: nat)
      requires Valid() && t in priority && p < MAX_PRIORITIES
      modifies events.repr
      ensures Valid() && State() == RevalueEvent(old(State()), t, p)
    {
      hide Shape, AllHome, B.ListBank.Valid, B.ListBank.View, B.ListBank.Values, B.ListBank.Separate, EventOf, Unturned;
      var v := events.ValueOf(t);
      if v < VALUE_IN_USE {
        SetEventValue(t, MAX_PRIORITIES - p);
      }
    }

    /** xTaskPriorityInherit; the result says whether a priority was, or already
        had been, inherited. */
    method Inherit(holder: Option<Task>) returns (inherited: bool)
      requires Valid() && current in priority && (holder.Some? ==> holder.value in priority)
      modifies states.repr, events.repr, `priority, `topReady, `bound
      ensures Valid() && State() == if holder.Some? then PriorityInherit(old(State()), holder.value) else old(State())
      ensures inherited <==> holder.Some? && Lends(old(State()), holder.value)
      ensures holder.Some? ==> Inherited(old(State()), State(), holder.value)
    {
      hide Shape, AllHome, B.ListBank.Valid, B.ListBank.View, B.ListBank.Values, B.ListBank.Separate, EventOf, Unturned,
        Reprioritise, RevalueEvent, Inherited;
      inherited := false;
      if holder.Some? {
        var h, p := holder.value, priority[current];
        var was, low := priority[h], At(base, h) < p;
        Below(State(), current, 0);
        Below(State(), h, 0);
        if was < p {
          RevalueEventItem(h, p);
          RevalueFrame(old(State()), h, p);
          ChangePriority(h, p, was);
          inherited := true;
        } else {
          inherited := low;
        }
        InheritMeans(old(State()), h);
      }
    }

    /** xTaskPriorityDisinherit, with the holder's uxMutexesHeld before the give; the
        result says whether the priority has changed. */
    method Disinherit(holder: Option<Task>, held: nat) returns (changed: bool)
      requires Valid() && current in priority && (holder.Some? ==> holder.value == current && held > 0)
      modifies states.repr, events.repr, `priority, `topReady, `bound
      ensures changed <==> holder.Some? && held == 1 && At(base, current) != At(old(priority), current)
      ensures Valid()
      ensures State() == if holder.Some? && held == 1 then PriorityDisinherit(old(State())) else old(State())
      ensures holder.Some? && held == 1 ==> Disinherited(old(State()), State())
    {
      hide Shape, AllHome, B.ListBank.Valid, B.ListBank.View, B.ListBank.Values, B.ListBank.Separate, EventOf, Unturned,
        Reprioritise, Disinherited;
      changed := false;
      if holder.Some? {
        var t, p := current, At(base, current);
        var was := priority[t];
        Below(State(), t, 0);
        if was != p && held == 1 {
          SetEventValue(t, MAX_PRIORITIES - p);
          ChangePriority(t, p, was);
          changed := true;
        }
        DisinheritMeans(old(State()));
      }
    }

    /** vTaskPriorityDisinheritAfterTimeout, with the holder's uxMutexesHeld. */
    method DisinheritOnTimeout(holder: Option<Task>, waiting: nat, held: nat)
      requires Valid() && (holder.Some? ==> holder.value in priority && held > 0) && waiting < MAX_PRIORITIES
      modifies states.repr, events.repr, `priority, `topReady, `bound
      ensures Valid()
      ensures State() == if holder.Some? && held == 1 then DisinheritAfterTimeout(old(State()), holder.value, waiting)
              else old(State())
      ensures holder.Some? && held == 1 ==> Lowered(old(State()), State(), holder.value, waiting)
    {
      hide Shape, AllHome, B.ListBank.Valid, B.ListBank.View, B.ListBank.Values, B.ListBank.Separate, EventOf, Unturned,
        Reprioritise, RevalueEvent, Lowered;
      if holder.Some? {
        var h := holder.value;
        var p := if At(base, h) < waiting then waiting else At(base, h);
        Below(State(), h, waiting);
        if priority[h] != p && held == 1 {
          RevalueEventItem(h, p);
          RevalueFrame(old(State()), h, p);
          ChangePriority(h, p, p);
        }
        LowerMeans(old(State()), h, waiting);
      }
    }
  }

  /** The state list item of a task is in a delayed list or in the ready list of its
      priority. */
  ghost predicate Home(v: seq<Ring<Task>>, priority: map<Task, nat>, t: Task)
    requires |v| == MAX_PRIORITIES + 2 && t in priority
  {
    t in v[5].items || t in v[6].items || (priority[t] < MAX_PRIORITIES && t in v[priority[t]].items)
  }

  ghost predicate AllHome(v: seq<Ring<Task>>, priority: map<Task, nat>) {
    |v| == MAX_PRIORITIES + 2 && forall t :: t in priority ==> Home(v, priority, t)
  }

  lemma HomeIsList(v: seq<Ring<Task>>, priority: map<Task, nat>, t: Task)
    requires AllHome(v, priority) && t in priority
    ensures !B.Free(v, t)
  {
    assert Home(v, priority, t);
  }

  /** Which list that is, and that `t` is on no other. */
  lemma HomeAt(v: seq<Ring<Task>>, priority: map<Task, nat>, t: Task, i: nat)
    requires AllHome(v, priority) && t in priority && B.OneEach(v, priority.Keys) && i < |v| && t in v[i].items
    ensures i == 5 || i == 6 || i == priority[t]
    ensures forall j :: 0 <= j < |v| && j != i ==> t !in v[j].items
  {
    hide NoDuplicates;
    assert Home(v, priority, t);
  }

  /** Nobody else is affected when `t` is taken off list i. */
  lemma DropHome(v: seq<Ring<Task>>, priority: map<Task, nat>, t: Task, i: nat)
    requires AllHome(v, priority) && t in priority && B.OneEach(v, priority.Keys) && i < |v| && t in v[i].items
    ensures B.Free(v[i := Drop(v[i], t)], t) && AllHome(v[i := Drop(v[i], t)], priority - {t})
  {
    HomeAt(v, priority, t, i);
    assert WellFormed(v[i]) && NoDuplicates(v[i].items);
    hide Drop, NoDuplicates, B.OneEach;
    DropMembers(v[i], t);
    var v' := v[i := Drop(v[i], t)];
    forall u | u in priority - {t} ensures Home(v', priority - {t}, u) { assert Home(v, priority, u); }
  }

  lemma Absent(r: Ring<Task>, t: Task)
    requires WellFormed(r) && t !in r.items
    ensures Drop(r, t) == r && Without(r.items, t) == r.items
  {
  }

  lemma DropItems(r: Ring<Task>, t: Task)
    requires WellFormed(r)
    ensures Drop(r, t).items == Without(r.items, t)
  {
  }

  lemma Taken(v: seq<Ring<Task>>, priority: map<Task, nat>, t: Task, i: nat)
    requires AllHome(v, priority) && t in priority && priority[t] < MAX_PRIORITIES
    requires B.OneEach(v, priority.Keys) && i < |v| && t in v[i].items
    ensures var v', p := v[i := Drop(v[i], t)], priority[t];
            && B.Free(v', t) && AllHome(v', priority - {t})
            && v'[..MAX_PRIORITIES] == v[..MAX_PRIORITIES][p := Drop(v[p], t)]
            && v'[5].items == Without(v[5].items, t) && v'[6].items == Without(v[6].items, t)
            && (t in v[p].items ==> i == p)
  {
    hide Drop, Without, NoDuplicates, Home, B.Free;
    DropHome(v, priority, t, i);
    HomeAt(v, priority, t, i);
    DropItems(v[i], t);
    forall j | 0 <= j < |v| && j != i ensures Drop(v[j], t) == v[j] && Without(v[j].items, t) == v[j].items {
      Absent(v[j], t);
    }
  }

  lemma Put(v: seq<Ring<Task>>, priority: map<Task, nat>, t: Task)
    requires t in priority && AllHome(v, priority - {t}) && priority[t] < MAX_PRIORITIES && WellFormed(v[priority[t]])
    ensures var p := priority[t]; var v' := v[p := Rings.InsertEnd(v[p], t)];
            AllHome(v', priority) && v'[..MAX_PRIORITIES] == v[..MAX_PRIORITIES][p := Rings.InsertEnd(v[p], t)]
                && v'[5] == v[5] && v'[6] == v[6]
  {
    var p := priority[t];
    var v' := v[p := Rings.InsertEnd(v[p], t)];
    EndKeeps(v[p], t);
    hide Rings.InsertEnd;
    forall u | u in priority ensures Home(v', priority, u) { if u != t { assert Home(v, priority - {t}, u); } }
  }

  lemma EndKeeps(r: Ring<Task>, t: Task)
    requires WellFormed(r)
    ensures forall u :: u in r.items || u == t ==> u in Rings.InsertEnd(r, t).items
  {
  }

  /** The pending ready list is never turned. */
  lemma EndOfUnturned(r: Ring<Task>, t: Task)
    requires r.index == 0
    ensures Rings.InsertEnd(r, t) == Ring(r.items + [t], 0)
  {
  }

  // -------------------------------------------------------------- event lists

  /** Lists in which the index is never moved: all but the ready lists. */
  ghost predicate Unturned(v: seq<Ring<Task>>) { forall i :: 0 <= i < |v| ==> v[i].index == 0 }

  ghost function Waiters(v: seq<Ring<Task>>): set<Task> { set i, t | 1 <= i < |v| && t in v[i].items :: t }

  /** Which event list a task is on; list 0 is that of the pending tasks. */
  ghost function EventOf(v: seq<Ring<Task>>): map<Task, nat> {
    map t | t in Waiters(v) :: var i :| 1 <= i < |v| && t in v[i].items; i - 1
  }

  lemma EventAt(v: seq<Ring<Task>>, tasks: set<Task>, i: nat, t: Task)
    requires B.OneEach(v, tasks) && 1 <= i < |v| && t in v[i].items
    ensures t in EventOf(v) && EventOf(v)[t] == i - 1
  {
    hide NoDuplicates, WellFormed;
    assert t in Waiters(v);
  }

  lemma EventIs(v: seq<Ring<Task>>, t: Task)
    requires t in EventOf(v)
    ensures EventOf(v)[t] + 1 < |v| && t in v[EventOf(v)[t] + 1].items
  {
  }

  lemma EventsAre(v: seq<Ring<Task>>, m: map<Task, nat>)
    requires forall t :: t in m ==> m[t] + 1 < |v| && t in v[m[t] + 1].items
    requires forall i, t :: 1 <= i < |v| && t in v[i].items ==> t in m && m[t] == i - 1
    ensures EventOf(v) == m
  {
    hide EventOf;
    forall t | t in m ensures t in EventOf(v) { Waits(v, m[t] + 1, t); }
    forall t | t in EventOf(v) ensures t in m && EventOf(v)[t] == m[t] { EventIs(v, t); }
  }

  lemma Waits(v: seq<Ring<Task>>, i: nat, t: Task)
    requires 1 <= i < |v| && t in v[i].items
    ensures t in EventOf(v)
  {
    assert t in Waiters(v);
  }

  lemma NoEvents(n: nat)
    ensures EventOf(B.Empty(n)) == map[] && Unturned(B.Empty(n)) && (n > 0 ==> B.Empty(n)[0].items == [])
  {
    assert forall t :: t !in Waiters(B.Empty(n));
  }

  lemma NotListed(v: seq<Ring<Task>>, t: Task)
    requires |v| > 0 && B.Free(v, t)
    ensures Without(v[0].items, t) == v[0].items && EventOf(v) - {t} == EventOf(v) && Gone(v, v, t)
  {
    assert t !in Waiters(v);
  }

  /** `t` has left whatever event list it was on. */
  ghost predicate Gone(v: seq<Ring<Task>>, v': seq<Ring<Task>>, t: Task) {
    |v'| == |v| && forall i :: 0 < i < |v| ==> v'[i].items == Without(v[i].items, t)
  }

  lemma Unlisted(v: seq<Ring<Task>>, tasks: set<Task>, t: Task, i: nat)
    requires B.OneEach(v, tasks) && i < |v| && t in v[i].items && Unturned(v)
    ensures var v' := v[i := Drop(v[i], t)];
            && B.Free(v', t) && Unturned(v') && v'[0].items == Without(v[0].items, t) && Gone(v, v', t)
            && EventOf(v') == EventOf(v) - {t}
  {
    hide Drop, Without, EventOf, NoDuplicates;
    var v' := v[i := Drop(v[i], t)];
    DropItems(v[i], t);
    DropUnturned(v[i], t);
    DropMembers(v[i], t);
    forall j | 0 <= j < |v| && j != i ensures t !in v[j].items && Without(v[j].items, t) == v[j].items {
      Absent(v[j], t);
    }
    var m := EventOf(v) - {t};
    forall u | u in m ensures m[u] + 1 < |v'| && u in v'[m[u] + 1].items { EventIs(v, u); }
    forall j, u | 1 <= j < |v'| && u in v'[j].items ensures u in m && m[u] == j - 1 { EventAt(v, tasks, j, u); }
    EventsAre(v', m);
  }

  lemma DropUnturned(r: Ring<Task>, t: Task)
    requires r.index == 0
    ensures Drop(r, t).index == 0
  {
  }

  lemma FirstIs(v: seq<Ring<Task>>, tasks: set<Task>, e: nat)
    requires B.OneEach(v, tasks) && e + 1 < |v| && v[e + 1].items != []
    ensures var t := v[e + 1].items[0];
            t in EventOf(v) && EventOf(v)[t] == e && Without(v[e + 1].items, t) == v[e + 1].items[1..]
  {
    hide EventOf, Without;
    EventAt(v, tasks, e + 1, v[e + 1].items[0]);
    HeadGone(v[e + 1].items);
  }

  lemma HeadGone(ts: seq<Task>)
    requires ts != []
    ensures Without(ts, ts[0]) == ts[1..]
  {
  }

  /** A task that was on no list joins list i. */
  lemma Joins(v: seq<Ring<Task>>, tasks: set<Task>, t: Task, i: nat, r: Ring<Task>)
    requires B.OneEach(v, tasks) && i < |v| && B.Free(v, t) && Unturned(v) && r.index == 0
    requires (forall u :: u in r.items <==> u in v[i].items || u == t)
    ensures Unturned(v[i := r]) && EventOf(v[i := r]) == if i == 0 then EventOf(v) else EventOf(v)[t := i - 1]
  {
    hide EventOf, NoDuplicates, WellFormed, B.OneEach;
    var v', m := v[i := r], if i == 0 then EventOf(v) else EventOf(v)[t := i - 1];
    forall u | u in m ensures m[u] + 1 < |v'| && u in v'[m[u] + 1].items {
      if u in EventOf(v) { EventIs(v, u); }
    }
    forall j, u | 1 <= j < |v'| && u in v'[j].items ensures u in m && m[u] == j - 1 {
      if u != t { EventAt(v, tasks, j, u); }
    }
    EventsAre(v', m);
  }

  /** The kernel with the event list item of `t` in list i. */
  function Listed(k: Kernel, t: Task, i: nat): Kernel {
    if i == 0 then k.(pending := k.pending + [t]) else k.(eventOf := k.eventOf[t := i - 1])
  }

  /** Blocking has nothing to do with event lists. */
  lemma BlockApart(k: Kernel, e: nat, ticks: nat)
    requires Typed(k)
    ensures BlockCurrent(k.(eventOf := k.eventOf[k.current := e]), ticks) == Scheduler.PlaceOnEventList(k, e, ticks)
  {
    hide Drop, Without, InsertSorted, LeaveReady, Shape;
    LeaveApart(k, k.eventOf[k.current := e], k.eventValue);
    LeftFrame(k, k.current);
  }

  lemma UnorderedApart(k: Kernel, e: nat, v: nat, ticks: nat)
    requires Typed(k)
    ensures BlockCurrent(k.(eventOf := k.eventOf[k.current := e],
                            eventValue := k.eventValue[k.current := InUse(v)]), ticks) ==
              Scheduler.PlaceOnUnorderedEventList(k, e, v, ticks)
  {
    hide Drop, Without, InsertSorted, LeaveReady, Shape, InUse;
    LeaveApart(k, k.eventOf[k.current := e], k.eventValue[k.current := InUse(v)]);
    LeftFrame(k, k.current);
  }

  lemma LeaveApart(k: Kernel, eventOf: map<Task, nat>, eventValue: map<Task, nat>)
    requires Typed(k)
    ensures LeaveReady(k.(eventOf := eventOf, eventValue := eventValue), k.current) ==
              LeaveReady(k, k.current).(eventOf := eventOf, eventValue := eventValue)
  {
    hide Drop, Without, WellFormed;
  }

  lemma RemovalsCommute(k: Kernel, t: Task)
    requires Typed(k)
    ensures RemoveEvent(RemoveState(k, t), t) == RemoveState(RemoveEvent(k, t), t)
  {
    hide Drop, Without;
  }

  lemma MoveKeepsPending(k: Kernel, t: Task)
    requires Typed(k)
    ensures MoveToReady(k, t).pending == k.pending
  {
  }

  lemma WithoutShrinks(s: seq<Task>, t: Task)
    requires t in s
    ensures |Without(s, t)| < |s|
  {
  }

  lemma ResumeCore(k: Kernel)
    requires Core(k, k.tick)
    ensures var k2 := DrainPending(k);
            && k2.tick == k.tick && k2.pended == k.pended && Core(k2, k.tick) && Core(ResetNextUnblock(k2), k.tick)
            && ResetNextUnblock(k2).tick == k.tick && ResetNextUnblock(k2).pended == k.pended
  {
    hide Shape, ReadyLists, Partition, Events, Timing, Bits, InReady, Tasks, DrainPending;
    DrainPendingKeeps(k, k.tick);
    ResetNextKeeps(DrainPending(k), k.tick);
  }

  lemma Queued(v: seq<Ring<Task>>, priority: map<Task, nat>, t: Task, i: nat, r: Ring<Task>, value: map<Task, nat>)
    requires t in priority && AllHome(v, priority - {t}) && (i == 5 || i == 6)
    requires r.items == InsertSorted(v[i].items, t, value)
    ensures var v' := v[i := r]; AllHome(v', priority) && v'[..MAX_PRIORITIES] == v[..MAX_PRIORITIES]
  {
    var v' := v[i := r];
    SortedKeeps(v[i].items, t, value);
    hide InsertSorted;
    forall u | u in priority ensures Home(v', priority, u) { if u != t { assert Home(v, priority - {t}, u); } }
  }

  lemma SortedKeeps(s: seq<Task>, t: Task, value: map<Task, nat>)
    ensures forall u :: u in s || u == t <==> u in InsertSorted(s, t, value)
  {
    var k := InsertPosition(s, value, At(value, t));
    assert s == s[..k] + s[k..];
  }

  lemma TurnedHome(v: seq<Ring<Task>>, priority: map<Task, nat>, p: nat)
    requires AllHome(v, priority) && p < MAX_PRIORITIES && WellFormed(v[p]) && v[p].items != []
    ensures var v' := v[p := Advance(v[p])];
            AllHome(v', priority) && v'[..MAX_PRIORITIES] == v[..MAX_PRIORITIES][p := Advance(v[p])]
  {
    var v' := v[p := Advance(v[p])];
    forall u | u in priority ensures Home(v', priority, u) { assert Home(v, priority, u); }
  }

  lemma BlockIs(k: Kernel, ticks: nat)
    requires Typed(k)
    ensures var t, at := k.current, (k.tick + ticks) % WRAP;
            var k1 := LeaveReady(k, t).(wake := k.wake[t := at]);
            && k1.wake == LeaveReady(k, t).wake[t := at]
            && BlockCurrent(k, ticks) ==
                 if at < k.tick then k1.(overflow := InsertSorted(k1.overflow, t, k1.wake))
                 else if at < k.nextUnblock then
                   k1.(delayed := InsertSorted(k1.delayed, t, k1.wake), nextUnblock := at)
                 else k1.(delayed := InsertSorted(k1.delayed, t, k1.wake))
  {
    hide InsertSorted, LeaveReady, Shape;
    LeftFrame(k, k.current);
  }

  lemma LeftFrame(k: Kernel, t: Task)
    requires Typed(k)
    ensures var k' := LeaveReady(k, t);
            k' == k.(ready := k'.ready, top := k'.top, delayed := k'.delayed, overflow := k'.overflow)
  {
    hide Drop, Without;
  }

  /** From k to k' the running task blocks, to be woken `ticks` ticks later. */
  ghost predicate SleepsFor(k: Kernel, ticks: nat, k': Kernel) {
    Blocked(k', k.current) && W.Due(k', k.current) == W.Clock(k) + ticks
  }

  lemma BlockSleeps(k: Kernel, ticks: nat)
    requires Typed(k)
    ensures Inv(k) && Enabled(k, Delay(ticks)) ==> SleepsFor(k, ticks, BlockCurrent(k, ticks))
  {
    hide Inv, BlockCurrent, W.Due, W.Clock, Shape;
    if Inv(k) && Enabled(k, Delay(ticks)) { W.BlockDue(k, Delay(ticks)); }
  }

  /** A task taken off an event list is held back, or ready. */
  lemma WokenIs(k: Kernel, t: Task)
    requires Typed(k) && t in k.priority
    ensures var k' := RemoveFromEventList(k, t);
            if k.suspended > 0 then t in k'.pending else Inv(k) ==> InReady(k'.ready, k'.priority, t)
    ensures RemoveFromEventList(k, t).suspended == k.suspended
  {
    hide Drop, Without, Rings.InsertEnd;
    if Inv(k) { MoveToReadyLists(RemoveEvent(k, t), t); }
  }

  lemma RingOk(k: Kernel, p: nat)
    requires Typed(k) && p < MAX_PRIORITIES
    ensures WellFormed(k.ready[p])
  {
  }

  lemma RelistForm(k: Kernel, t: Task, p: nat, cleared: nat)
    requires Typed(k) && IsReady(k, t) && p < MAX_PRIORITIES
    ensures RemoveState(k, t).priority == k.priority
    ensures var k1 := RemoveState(k, t).(priority := k.priority[t := p]);
            var k2 := if k1.ready[Priority(k, t)].items == [] then k1.(top := k1.top - {cleared}) else k1;
            Typed(k2) && Reprioritise(k, t, p, cleared) == AddToReady(k2, t)
  {
    hide Drop, Without, Rings.InsertEnd;
  }

  lemma Retyped(k: Kernel, t: Task, p: nat)
    requires Typed(k) && p < MAX_PRIORITIES
    ensures Typed(k.(priority := k.priority[t := p]))
  {
  }

  lemma BlockedHome(v: seq<Ring<Task>>, priority: map<Task, nat>, t: Task, p: nat)
    requires AllHome(v, priority) && t in priority && priority[t] < MAX_PRIORITIES && t !in v[priority[t]].items
    ensures AllHome(v, priority[t := p])
  {
    assert Home(v, priority, t);
    var priority' := priority[t := p];
    forall u | u in priority' ensures Home(v, priority', u) { assert Home(v, priority, u); }
  }

  lemma RevalueFrame(k: Kernel, t: Task, p: nat)
    requires Typed(k) && p < MAX_PRIORITIES
    ensures RevalueEvent(k, t, p) == k.(eventValue := RevalueEvent(k, t, p).eventValue)
  {
  }

  // ----------------------------------------------------------------- the start

  function Names(ns: seq<NewTask>): (ts: seq<Task>)
    ensures |ts| == |ns| && forall i :: 0 <= i < |ns| ==> ts[i] == ns[i].task
  {
    seq(|ns|, i requires 0 <= i < |ns| => ns[i].task)
  }

  lemma Startable(ns: seq<NewTask>)
    requires Creatable(map[], ns)
    ensures forall n :: n in ns ==> n.priority < MAX_PRIORITIES
    ensures forall t :: t in ItemValues(map[], ns) ==> ItemValues(map[], ns)[t] <= MAX_DELAY
  {
    hide ItemValues;
    CreateFrame(NoTasks(0, 0), ns);
    ItemsNamed(map[], ns);
  }

  lemma StartInv(ns: seq<NewTask>, idle: Task, wake: map<Task, nat>)
    requires Creatable(map[], ns) && NewTask(idle, 0) in ns
    ensures Inv(CreateAll(NoTasks(idle, 0), ns).(wake := wake))
  {
    var k := CreateAll(NoTasks(idle, 0), ns);
    CreateFrame(NoTasks(idle, 0), ns);
    assert StartsWith(k, ns, 0);
    InitialHolds(k);
    hide StartsWith, CreateAll, ReadyLists, Partition, Events, Bits, InReady, Shape, Tasks;
  }

  lemma {:induction false} Named(known: map<Task, nat>, ns: seq<NewTask>)
    ensures forall t :: t in Priorities(known, ns) <==> t in known || t in Names(ns)
    decreases |ns|
  {
    if ns != [] {
      Named(known[ns[0].task := ns[0].priority], ns[1..]);
      assert Names(ns) == [ns[0].task] + Names(ns[1..]);
    }
  }

  lemma {:induction false} ItemsNamed(known: map<Task, nat>, ns: seq<NewTask>)
    requires forall n :: n in ns ==> n.priority < MAX_PRIORITIES
    requires forall t :: t in known ==> known[t] <= MAX_PRIORITIES
    ensures forall t :: t in ItemValues(known, ns) <==> t in known || t in Names(ns)
    ensures forall t :: t in ItemValues(known, ns) ==> ItemValues(known, ns)[t] <= MAX_PRIORITIES
    decreases |ns|
  {
    if ns != [] {
      ItemsNamed(known[ns[0].task := MAX_PRIORITIES - ns[0].priority], ns[1..]);
      assert Names(ns) == [ns[0].task] + Names(ns[1..]);
    }
  }

  ghost predicate Agree(some: map<Task, nat>, all: map<Task, nat>) {
    forall t :: t in some ==> t in all && all[t] == some[t]
  }

  lemma AgreeMore(k: Kernel, all: map<Task, nat>, t: Task)
    requires Agree(k.priority, all) && t in all
    ensures Agree(k.priority[t := all[t]], all)
    ensures k.current in k.priority ==> k.current in all && all[k.current] == At(k.priority, k.current)
  {
  }

  /** A creation in k, and the same addition to the kernel with all tables filled. */
  lemma OneMore(full: Kernel, was: Kernel, k: Kernel, n: NewTask)
    requires Typed(k) && Typed(was)
    requires was == full.(ready := k.ready, top := k.top, bound := k.bound, current := k.current)
    requires n.priority < MAX_PRIORITIES && At(was.priority, n.task) == n.priority
    ensures var first, k' := k.priority == map[] || At(k.priority, k.current) <= n.priority, Create(k, n);
            AddToReady(was.(current := if first then n.task else was.current), n.task) ==
              full.(ready := k'.ready, top := k'.top, bound := k'.bound, current := k'.current)
  {
    hide Rings.InsertEnd;
  }

  lemma TaskAdded(full: Kernel, was: Kernel, v: seq<Ring<Task>>, k: Kernel, n: NewTask)
    requires Booting(k) && Typed(was)
    requires was == full.(ready := k.ready, top := k.top, bound := k.bound, current := k.current)
    requires n.task !in k.priority && n.task in was.priority && was.priority[n.task] == n.priority < MAX_PRIORITIES
    requires AllHome(v, k.priority) && Agree(k.priority, was.priority) && v[..MAX_PRIORITIES] == k.ready
    requires v[5].items == v[6].items == []
    ensures Typed(k) && B.Free(v, n.task) && (k.priority != map[] ==> k.current in was.priority)
    ensures var first, k' := k.priority == map[] || At(was.priority, k.current) <= n.priority, Create(k, n);
            && Booting(k') && Agree(k'.priority, was.priority)
            && AddToReady(was.(current := if first then n.task else was.current), n.task) ==
                 full.(ready := k'.ready, top := k'.top, bound := k'.bound, current := k'.current)
            && (WellFormed(v[n.priority]) ==>
                AllHome(v[n.priority := Rings.InsertEnd(v[n.priority], n.task)], k'.priority))
  {
    hide Booting, AllHome, Agree, Create, AddToReady, B.Free, Rings.InsertEnd, Shape;
    CreateKeeps(k, n);
    Led(k);
    AllHomeSize(v, k.priority);
    NotYetListed(k, v, n.task);
    AgreeMore(k, was.priority, n.task);
    OneMore(full, was, k, n);
    if WellFormed(v[n.priority]) { PutNew(v, k.priority, n.task, n.priority); }
  }

  lemma AllHomeSize(v: seq<Ring<Task>>, priority: map<Task, nat>)
    requires AllHome(v, priority)
    ensures |v| == MAX_PRIORITIES + 2
  {
  }

  lemma TypedStart(ns: seq<NewTask>, k: Kernel, idle: Task)
    requires Creatable(map[], ns) && k.priority == k.base == Priorities(map[], ns) && k.ready == NoTasks(idle, 0).ready
    ensures Typed(k)
  {
    CreateFrame(NoTasks(idle, 0), ns);
    assert Typed(CreateAll(NoTasks(idle, 0), ns));
  }

  lemma NoneBoots(idle: Task)
    ensures Booting(NoTasks(idle, 0))
  {
  }

  lemma Led(k: Kernel)
    requires Booting(k)
    ensures Typed(k) && (k.priority != map[] ==> k.current in k.priority)
  {
  }

  /** A task that was not created is on none of the lists. */
  lemma NotYetListed(k: Kernel, v: seq<Ring<Task>>, t: Task)
    requires Booting(k) && t !in k.priority && |v| == MAX_PRIORITIES + 2
    requires v[..MAX_PRIORITIES] == k.ready && v[5].items == [] && v[6].items == []
    ensures B.Free(v, t)
  {
    assert forall i :: 0 <= i < MAX_PRIORITIES ==> v[i] == k.ready[i];
  }

  lemma PutNew(v: seq<Ring<Task>>, priority: map<Task, nat>, t: Task, p: nat)
    requires t !in priority && AllHome(v, priority) && p < MAX_PRIORITIES && WellFormed(v[p])
    ensures var v' := v[p := Rings.InsertEnd(v[p], t)];
            && AllHome(v', priority[t := p])
            && v'[..MAX_PRIORITIES] == v[..MAX_PRIORITIES][p := Rings.InsertEnd(v[p], t)]
            && v'[5] == v[5] && v'[6] == v[6]
  {
    assert priority[t := p] - {t} == priority;
    Put(v, priority[t := p], t);
  }
}

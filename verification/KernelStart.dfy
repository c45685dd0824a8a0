/** The state in which the scheduler starts, built by the creation of tasks. */
module KernelStart {
  import opened Basics
  import opened Rings
  import opened Scheduler
  import opened Ticks
  import opened SchedulerSafety

  datatype NewTask = NewTask(task: Task, priority: nat)

  /** prvInitialiseTaskLists, and the counters that vTaskStartScheduler sets. */
  function NoTasks(idle: Task, tick: nat): (k: Kernel)
    ensures Typed(k)
  {
    Kernel(map[], map[], idle, idle, seq(MAX_PRIORITIES, _ => Ring([], 0)), {}, 0,
           [], [], map[], [], map[], map[], tick, 0, MAX_DELAY, 0, 0)
  }

  /** prvInitialiseNewTask and prvAddNewTaskToReadyList, before the scheduler runs. */
  function Create(k: Kernel, n: NewTask): (k': Kernel)
    requires Typed(k) && n.priority < MAX_PRIORITIES
    ensures Typed(k') && k'.priority == k.priority[n.task := n.priority]
  {
    var first := k.priority == map[] || Priority(k, k.current) <= n.priority;
    AddToReady(k.(priority := k.priority[n.task := n.priority], base := k.base[n.task := n.priority],
                  eventValue := k.eventValue[n.task := MAX_PRIORITIES - n.priority],
                  current := if first then n.task else k.current), n.task)
  }

  /** New tasks, each once, of priorities that exist. */
  predicate Creatable(known: map<Task, nat>, ns: seq<NewTask>)
    decreases |ns|
  {
    ns == [] || (&& ns[0].priority < MAX_PRIORITIES && ns[0].task !in known
                 && Creatable(known[ns[0].task := ns[0].priority], ns[1..]))
  }

  ghost function CreateAll(k: Kernel, ns: seq<NewTask>): (k': Kernel)
    requires Typed(k) && Creatable(k.priority, ns)
    ensures Typed(k')
    decreases |ns|
  {
    if ns == [] then k else CreateAll(Create(k, ns[0]), ns[1..])
  }

  /** Nothing is blocked or held back. */
  predicate Quiet(k: Kernel) {
    && k.delayed == [] && k.overflow == [] && k.pending == [] && k.eventOf == map[]
    && k.nextUnblock == MAX_DELAY && k.suspended == 0 && k.pended == 0
  }

  ghost predicate AllReady(k: Kernel) {
    && ReadyLists(k.ready, k.priority) && Bits(k.ready, k.top, k.bound)
    && (forall t :: t in k.priority ==> InReady(k.ready, k.priority, t))
  }

  /** The current task is a most urgent one. */
  ghost predicate Leads(priority: map<Task, nat>, current: Task) {
    priority != map[] ==> current in priority && forall t :: t in priority ==> priority[t] <= priority[current]
  }

  ghost predicate Booting(k: Kernel) {
    Typed(k) && k.base == k.priority && AllReady(k) && Leads(k.priority, k.current) && Quiet(k) && k.tick < WRAP
  }

  lemma CreateReady(k: Kernel, n: NewTask)
    requires Typed(k) && AllReady(k) && n.task !in k.priority && n.priority < MAX_PRIORITIES
    ensures AllReady(Create(k, n))
  {
    hide InsertEnd, WellFormed, Bits, ReadyLists;
    var r := InsertEnd(k.ready[n.priority], n.task);
    NotYetReady(k.ready, k.priority, n.task, n.priority);
    InsertEndMembers(k.ready[n.priority], n.task);
    BitsAfterAdd(k, n.priority, r);
    ListsAfterAdd(k.ready, k.priority, n.task, n.priority, r);
  }

  lemma NotYetReady(ready: seq<Ring<Task>>, priority: map<Task, nat>, t: Task, p: nat)
    requires ReadyLists(ready, priority) && t !in priority && p < |ready|
    ensures NoDuplicates(ready[p].items) && t !in ready[p].items
  {
  }

  lemma ListsAfterAdd(ready: seq<Ring<Task>>, priority: map<Task, nat>, t: Task, p: nat, r: Ring<Task>)
    requires ReadyLists(ready, priority) && t !in priority && p < |ready|
    requires NoDuplicates(r.items) && forall u :: u in r.items <==> u == t || u in ready[p].items
    ensures ReadyLists(ready[p := r], priority[t := p])
  {
    hide NoDuplicates;
  }

  lemma CreateLeads(priority: map<Task, nat>, current: Task, t: Task, p: nat)
    requires Leads(priority, current) && t !in priority
    ensures Leads(priority[t := p], if priority == map[] || At(priority, current) <= p then t else current)
  {
  }

  lemma CreateKeeps(k: Kernel, n: NewTask)
    requires Booting(k) && n.task !in k.priority && n.priority < MAX_PRIORITIES
    ensures Booting(Create(k, n)) && Create(k, n).idle == k.idle
  {
    CreateReady(k, n);
    CreateLeads(k.priority, k.current, n.task, n.priority);
    hide AllReady, InsertEnd, Leads, Shape;
  }

  lemma {:induction false} CreateAllKeeps(k: Kernel, ns: seq<NewTask>)
    requires Booting(k) && Creatable(k.priority, ns)
    ensures var k' := CreateAll(k, ns);
            && Booting(k') && k'.idle == k.idle
            && (forall t :: t in k.priority ==> t in k'.priority) && (forall n :: n in ns ==> n.task in k'.priority)
    decreases |ns|
  {
    hide AllReady, Leads, Create, Quiet;
    if ns != [] {
      CreateKeeps(k, ns[0]);
      CreateAllKeeps(Create(k, ns[0]), ns[1..]);
      assert ns == [ns[0]] + ns[1..];
    }
  }

  /** vTaskStartScheduler after any creations, that of the idle task among them. */
  ghost predicate StartsWith(k: Kernel, ns: seq<NewTask>, tick: nat) {
    tick < WRAP && Creatable(map[], ns) && NewTask(k.idle, 0) in ns && k == CreateAll(NoTasks(k.idle, tick), ns)
  }

  ghost predicate Initial(k: Kernel) { exists ns, tick :: StartsWith(k, ns, tick) }

  /** However many tasks are created, in whatever order, the kernel starts in a state
      that satisfies the invariant, with every task ready and a most urgent one running. */
  lemma InitialHolds(k: Kernel)
    requires Initial(k)
    ensures Inv(k) && Quiet(k)
    ensures forall t :: t in k.priority ==> InReady(k.ready, k.priority, t) && k.priority[t] <= k.priority[k.current]
  {
    var ns, tick :| StartsWith(k, ns, tick);
    CreateAllKeeps(NoTasks(k.idle, tick), ns);
    BootingHolds(k);
    hide StartsWith, CreateAll, Creatable, Inv, InReady, Quiet;
  }

  lemma BootingHolds(k: Kernel)
    requires Booting(k) && k.idle in k.priority
    ensures Inv(k)
    ensures forall t :: t in k.priority ==> InReady(k.ready, k.priority, t) && k.priority[t] <= k.priority[k.current]
  {
    hide ReadyLists, Bits, Shape;
  }

  // ------------------------------------------------- creation, one task at a time

  function Priorities(known: map<Task, nat>, ns: seq<NewTask>): map<Task, nat>
    decreases |ns|
  {
    if ns == [] then known else Priorities(known[ns[0].task := ns[0].priority], ns[1..])
  }

  function ItemValues(known: map<Task, nat>, ns: seq<NewTask>): map<Task, nat>
    requires forall n :: n in ns ==> n.priority < MAX_PRIORITIES
    decreases |ns|
  {
    if ns == [] then known else ItemValues(known[ns[0].task := MAX_PRIORITIES - ns[0].priority], ns[1..])
  }

  lemma OneFrame(k: Kernel, n: NewTask)
    requires Typed(k) && n.priority < MAX_PRIORITIES
    ensures var k' := Create(k, n);
            k' == k.(priority := k.priority[n.task := n.priority], base := k.base[n.task := n.priority],
                     eventValue := k.eventValue[n.task := MAX_PRIORITIES - n.priority],
                     ready := k'.ready, top := k'.top, bound := k'.bound, current := k'.current)
  {
    hide Shape, InsertEnd;
  }

  /** Creation fills the tables and the ready lists, and nothing else. */
  lemma {:induction false} CreateFrame(k: Kernel, ns: seq<NewTask>)
    requires Typed(k) && Creatable(k.priority, ns)
    ensures forall n :: n in ns ==> n.priority < MAX_PRIORITIES
    ensures var k' := CreateAll(k, ns);
            k' == k.(priority := Priorities(k.priority, ns), base := Priorities(k.base, ns),
                     eventValue := ItemValues(k.eventValue, ns),
                     ready := k'.ready, top := k'.top, bound := k'.bound, current := k'.current)
    decreases |ns|
  {
    hide Shape, Create;
    if ns != [] {
      OneFrame(k, ns[0]);
      CreateFrame(Create(k, ns[0]), ns[1..]);
      assert forall n :: n in ns ==> n == ns[0] || n in ns[1..];
    }
  }

  lemma {:induction false} CreateNext(k: Kernel, ns: seq<NewTask>, i: nat)
    requires Typed(k) && Creatable(k.priority, ns) && i < |ns|
    ensures Creatable(k.priority, ns[..i]) && Creatable(k.priority, ns[..i + 1]) && ns[i].priority < MAX_PRIORITIES
    ensures CreateAll(k, ns[..i + 1]) == Create(CreateAll(k, ns[..i]), ns[i])
    ensures ns[i].task !in CreateAll(k, ns[..i]).priority
    decreases |ns|
  {
    hide Shape, Create;
    if i > 0 {
      CreateNext(Create(k, ns[0]), ns[1..], i - 1);
      assert ns[..i][1..] == ns[1..][..i - 1] && ns[..i + 1][1..] == ns[1..][..i];
    } else {
      assert ns[..1] == [ns[0]] && ns[..1][1..] == [] && ns[..0] == [];
    }
  }

  lemma {:induction false} KnownStay(known: map<Task, nat>, ns: seq<NewTask>, t: Task)
    requires Creatable(known, ns) && t in known
    ensures t in Priorities(known, ns) && Priorities(known, ns)[t] == known[t]
    decreases |ns|
  {
    if ns != [] { KnownStay(known[ns[0].task := ns[0].priority], ns[1..], t); }
  }

  lemma {:induction false} PriorityOf(known: map<Task, nat>, ns: seq<NewTask>, i: nat)
    requires Creatable(known, ns) && i < |ns|
    ensures ns[i].task in Priorities(known, ns) && Priorities(known, ns)[ns[i].task] == ns[i].priority
    decreases |ns|
  {
    var known' := known[ns[0].task := ns[0].priority];
    if i == 0 { KnownStay(known', ns[1..], ns[0].task); } else { PriorityOf(known', ns[1..], i - 1); }
  }

  // --------------------------------------------------------------- creation order

  /** The tasks created with priority p, in order. */
  function Created(ns: seq<NewTask>, p: nat): seq<Task> {
    if ns == [] then []
    else
      var n := ns[|ns| - 1];
      Created(ns[..|ns| - 1], p) + if n.priority == p then [n.task] else []
  }

  /** The last to be created of the most urgent, by its place. */
  ghost predicate LeadsFrom(ns: seq<NewTask>, i: nat) {
    && i < |ns| && (forall j :: 0 <= j < i ==> ns[j].priority <= ns[i].priority)
    && (forall j :: i < j < |ns| ==> ns[j].priority < ns[i].priority)
  }

  ghost predicate LastLeader(ns: seq<NewTask>, t: Task, p: nat) {
    exists i: nat :: LeadsFrom(ns, i) && ns[i] == NewTask(t, p)
  }

  lemma LeaderNext(ns: seq<NewTask>, t: Task, p: nat, n: NewTask)
    requires ns == [] || LastLeader(ns, t, p)
    ensures if ns == [] || p <= n.priority then LastLeader(ns + [n], n.task, n.priority) else LastLeader(ns + [n], t, p)
  {
    var all := ns + [n];
    if ns == [] {
      assert LeadsFrom(all, 0);
    } else {
      var i: nat :| LeadsFrom(ns, i) && ns[i] == NewTask(t, p);
      if p <= n.priority { NewLeader(ns, i, n); } else { OldLeader(ns, i, n); }
    }
  }

  lemma NewLeader(ns: seq<NewTask>, i: nat, n: NewTask)
    requires LeadsFrom(ns, i) && ns[i].priority <= n.priority
    ensures LeadsFrom(ns + [n], |ns|) && (ns + [n])[|ns|] == n
  {
    forall j | 0 <= j < |ns| ensures (ns + [n])[j].priority <= n.priority {
      assert (ns + [n])[j] == ns[j] && ns[j].priority <= ns[i].priority;
    }
  }

  lemma OldLeader(ns: seq<NewTask>, i: nat, n: NewTask)
    requires LeadsFrom(ns, i) && ns[i].priority > n.priority
    ensures LeadsFrom(ns + [n], i) && (ns + [n])[i] == ns[i]
  {
  }

  lemma CreatedNext(ns: seq<NewTask>, n: NewTask, p: nat)
    ensures Created(ns + [n], p) == Created(ns, p) + if n.priority == p then [n.task] else []
  {
    assert (ns + [n])[..|ns|] == ns;
  }

  /** The ready lists hold the created tasks in their order, with the index at the end,
      and the last of the most urgent ones is to run. */
  ghost predicate Follows(k: Kernel, ns: seq<NewTask>)
    requires Typed(k)
  {
    && (forall p :: 0 <= p < MAX_PRIORITIES ==> k.ready[p] == Ring(Created(ns, p), 0))
    && (if ns == [] then k.priority == map[]
        else k.current in k.priority && LastLeader(ns, k.current, k.priority[k.current]))
  }

  lemma FollowsNext(k: Kernel, ns: seq<NewTask>, n: NewTask)
    requires Typed(k) && Follows(k, ns) && n.priority < MAX_PRIORITIES && n.task !in k.priority
    requires ns != [] ==> k.priority != map[]
    ensures Follows(Create(k, n), ns + [n]) && Create(k, n).priority != map[]
  {
    hide Created, LastLeader, InsertEnd;
    LeaderNext(ns, k.current, Priority(k, k.current), n);
    var k' := Create(k, n);
    forall p | 0 <= p < MAX_PRIORITIES ensures k'.ready[p] == Ring(Created(ns + [n], p), 0) {
      CreatedNext(ns, n, p);
      AddedLast(Created(ns, p), n.task);
    }
    assert n.task in k'.priority;
  }

  lemma AddedLast(ts: seq<Task>, t: Task)
    ensures InsertEnd(Ring(ts, 0), t) == Ring(ts + [t], 0) && ts + [] == ts
  {
  }

  lemma NoneYet(idle: Task, tick: nat)
    ensures NoTasks(idle, tick).priority == map[] && Creatable(map[], [])
    ensures Follows(CreateAll(NoTasks(idle, tick), []), [])
  {
  }

  /** So it is after any creations. */
  lemma {:induction false} StartsInOrder(idle: Task, tick: nat, ns: seq<NewTask>, n: nat)
    requires Creatable(map[], ns) && n <= |ns|
    ensures Creatable(map[], ns[..n]) && Follows(CreateAll(NoTasks(idle, tick), ns[..n]), ns[..n])
    ensures n > 0 ==> CreateAll(NoTasks(idle, tick), ns[..n]).priority != map[]
    decreases n
  {
    hide Shape, Create, Follows, NoTasks, Creatable, CreateAll;
    var none := NoTasks(idle, tick);
    if n == 0 {
      NoneYet(idle, tick);
      assert ns[..0] == [];
    } else {
      NoneYet(idle, tick);
      CreateNext(none, ns, n - 1);
      StartsInOrder(idle, tick, ns, n - 1);
      FollowsNext(CreateAll(none, ns[..n - 1]), ns[..n - 1], ns[n - 1]);
      assert ns[..n - 1] + [ns[n - 1]] == ns[..n];
    }
  }
}

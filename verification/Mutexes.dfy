/** Mutexes with priority inheritance, over any number of tasks and mutexes. */
module Mutexes {
  import opened Basics
  import opened Rings

  type Id = nat

  datatype Mutex = Mutex(
    count: nat,            // uxMessagesWaiting
    holder: Option<Task>,  // xMutexHolder
    depth: nat,            // uxRecursiveCallCount
    waiters: seq<Task>     // xTasksWaitingToReceive, most urgent first
  )

  datatype Status =
    | Ready                // or running, outside any take
    | Asleep               // blocked on something else
    | Waiting(m: Id)       // on the event list of m
    | Trying(m: Id)        // taken off the list: at the top of the loop again
    | Expired(m: Id)       // its time is over: about to look whether m is free
    | Leaving(m: Id)       // it was not, and the priority lent is to be taken back

  datatype System = System(
    base: map<Task, nat>,        // uxBasePriority
    prio: map<Task, nat>,        // uxPriority
    held: map<Task, nat>,        // uxMutexesHeld
    status: map<Task, Status>,
    inherited: map<Task, bool>,  // xInheritanceOccurred of the take in progress
    mutex: map<Id, Mutex>
  )

  datatype Event =
    | Take(task: Task, m: Id)    // the mutex is free
    | Again(task: Task, m: Id)   // a recursive take by the holder
    | Wait(task: Task, m: Id)    // the mutex is held: inherit and block
    | Give(task: Task, m: Id)    // by the holder; recursive or not
    | Expire(task: Task)         // the tick takes it off the event list
    | Late(task: Task, m: Id)    // xTaskCheckForTimeOut says that the time is over
    | Fail(task: Task, m: Id)    // the mutex is held and there is no time left to wait
    | Look(task: Task)           // prvIsQueueEmpty after the time-out
    | Leave(task: Task)          // the critical section that disinherits
    | Sleep(task: Task) | Awake(task: Task)

  predicate MutexShaped(x: Mutex, tasks: set<Task>) {
    (x.holder.Some? ==> x.holder.value in tasks) && forall t :: t in x.waiters ==> t in tasks
  }

  predicate StatusShaped(st: Status, ids: set<Id>) {
    st.Waiting? || st.Trying? || st.Expired? || st.Leaving? ==> st.m in ids
  }

  predicate Keys(s: System) {
    s.prio.Keys == s.base.Keys && s.held.Keys == s.base.Keys && s.status.Keys == s.base.Keys
        && s.inherited.Keys == s.base.Keys
  }

  predicate Shaped(s: System) {
    && Keys(s)
    && (forall m :: m in s.mutex ==> MutexShaped(s.mutex[m], s.base.Keys))
    && (forall t :: t in s.status ==> StatusShaped(s.status[t], s.mutex.Keys))
  }

  predicate CanTake(s: System, t: Task, m: Id)
    requires Shaped(s)
  {
    t in s.base && m in s.mutex && (s.status[t] == Ready || s.status[t] == Trying(m))
  }

  /** Only holders give; nothing else is asked of the tasks. */
  predicate Enabled(s: System, e: Event)
    requires Shaped(s)
  {
    match e
    case Take(t, m) => CanTake(s, t, m) && s.mutex[m].count > 0
    case Again(t, m) => CanTake(s, t, m) && s.mutex[m].holder == Some(t)
    case Wait(t, m) => CanTake(s, t, m) && s.mutex[m].count == 0
    case Give(t, m) => t in s.base && m in s.mutex && s.status[t] == Ready && s.mutex[m].holder == Some(t)
    case Expire(t) => t in s.base && s.status[t].Waiting?
    case Late(t, m) => CanTake(s, t, m)
    case Fail(t, m) => CanTake(s, t, m) && s.mutex[m].count == 0
    case Look(t) => t in s.base && s.status[t].Expired?
    case Leave(t) => t in s.base && s.status[t].Leaving?
    case Sleep(t) => t in s.base && s.status[t] == Ready
    case Awake(t) => t in s.base && s.status[t] == Asleep
  }

  /** vListInsert by priority: behind every waiter at least as urgent. */
  function Enlist(ts: seq<Task>, t: Task, prio: map<Task, nat>): seq<Task>
    requires t in prio && forall x :: x in ts ==> x in prio
  {
    if ts == [] then [t]
    else if prio[ts[0]] >= prio[t] then [ts[0]] + Enlist(ts[1..], t, prio)
    else [t] + ts
  }

  /** prvGetDisinheritPriorityAfterTimeout */
  function MostUrgentWaiter(s: System, m: Id): nat
    requires Shaped(s) && m in s.mutex
  {
    var ws := s.mutex[m].waiters;
    if ws == [] then 0 else s.prio[ws[0]]
  }

  /** vTaskPriorityDisinheritAfterTimeout */
  function Disinherit(s: System, h: Task, waiting: nat): System
    requires Keys(s) && h in s.base
  {
    var p := Larger(s.base[h], waiting);
    if s.prio[h] != p && s.held[h] == 1 then s.(prio := s.prio[h := p]) else s
  }

  /** xTaskPriorityDisinherit, when the running task gives its mutex. */
  function GivePrio(s: System, t: Task): System
    requires Shaped(s) && t in s.base
  {
    var n := if s.held[t] > 0 then s.held[t] - 1 else 0;
    s.(held := s.held[t := n], prio := if n == 0 then s.prio[t := s.base[t]] else s.prio)
  }

  function WakeFirst(s: System, m: Id): System
    requires Shaped(s) && m in s.mutex
  {
    var x := s.mutex[m];
    if x.waiters == [] then s
    else s.(mutex := s.mutex[m := x.(waiters := x.waiters[1..])], status := s.status[x.waiters[0] := Trying(m)])
  }

  /** The critical section at the top of xQueueSemaphoreTake, with the mutex free. */
  function TakeFree(s: System, t: Task, m: Id): System
    requires Shaped(s) && CanTake(s, t, m) && s.mutex[m].count > 0
  {
    var x := s.mutex[m];
    s.(mutex := s.mutex[m := x.(count := x.count - 1, holder := Some(t), depth := x.depth + 1)],
       held := s.held[t := s.held[t] + 1], status := s.status[t := Ready])
  }

  /** xTaskPriorityInherit and vTaskPlaceOnEventList. */
  function BlockOn(s: System, t: Task, m: Id): System
    requires Shaped(s) && CanTake(s, t, m)
  {
    var x := s.mutex[m];
    var s' := s.(mutex := s.mutex[m := x.(waiters := Enlist(x.waiters, t, s.prio))],
                 status := s.status[t := Waiting(m)]);
    if x.holder == None then s'.(inherited := s.inherited[t := false])
    else
      var h := x.holder.value;
      s'.(prio := s.prio[h := Larger(s.prio[h], s.prio[t])],
          inherited := s.inherited[t := s.prio[h] < s.prio[t] || s.base[h] < s.prio[t]])
  }

  /** prvCopyDataToQueue for a mutex: the holder gives up its priority and its hold. */
  function Release(s: System, t: Task, m: Id): System
    requires Shaped(s) && t in s.base && m in s.mutex
  {
    var x := s.mutex[m];
    GivePrio(s, t).(mutex := s.mutex[m := x.(count := x.count + 1, holder := None, depth := 0)])
  }

  /** The tick takes a waiter off the event list; it will try once more. */
  function TimeOut(s: System, t: Task, m: Id): System
    requires Shaped(s) && t in s.base && m in s.mutex
  {
    s.(mutex := s.mutex[m := s.mutex[m].(waiters := Without(s.mutex[m].waiters, t))],
       status := s.status[t := Trying(m)])
  }

  /** The time is over, on a first pass without any inheritance. */
  function RunLate(s: System, t: Task, m: Id): System
    requires Shaped(s) && CanTake(s, t, m)
  {
    s.(status := s.status[t := Expired(m)], inherited := s.inherited[t := s.inherited[t] && s.status[t].Trying?])
  }

  /** After the time-out: a mutex free by then is tried again; otherwise the call
      fails, and if the holder inherited because of it, that is undone next. */
  function LookAgain(s: System, t: Task, m: Id): System
    requires Shaped(s) && t in s.base && m in s.mutex
  {
    s.(status := s.status[t := if s.mutex[m].count > 0 then Trying(m) else if s.inherited[t] then Leaving(m)
                          else Ready])
  }

  /** The critical section of the time-out, some time later.  The mutex may have been
      given since, or have another holder: then that one is disinherited. */
  function GiveUp(s: System, t: Task, m: Id): System
    requires Shaped(s) && t in s.base && m in s.mutex
  {
    var s' := s.(status := s.status[t := Ready]);
    if s.mutex[m].holder.Some? then Disinherit(s', s.mutex[m].holder.value, MostUrgentWaiter(s, m)) else s'
  }

  function Deepen(s: System, m: Id, depth: nat): System
    requires m in s.mutex
  {
    s.(mutex := s.mutex[m := s.mutex[m].(depth := depth)])
  }

  /** xQueueGenericSend on a mutex: release it, then wake the first in line. */
  function HandOver(s: System, t: Task, m: Id): System
    requires Shaped(s) && t in s.base && m in s.mutex
  {
    ReleaseShaped(s, t, m);
    WakeFirst(Release(s, t, m), m)
  }

  function Next(s: System, e: Event): System
    requires Shaped(s) && Enabled(s, e)
  {
    match e
    case Take(t, m) => TakeFree(s, t, m)
    case Again(t, m) => Deepen(s, m, s.mutex[m].depth + 1)
    case Wait(t, m) => BlockOn(s, t, m)
    case Give(t, m) =>
      if s.mutex[m].depth > 1 then Deepen(s, m, s.mutex[m].depth - 1)
      else HandOver(s, t, m)
    case Expire(t) => TimeOut(s, t, s.status[t].m)
    case Late(t, m) => RunLate(s, t, m)
    case Fail(t, m) => s.(status := s.status[t := Ready])
    case Look(t) => LookAgain(s, t, s.status[t].m)
    case Leave(t) => GiveUp(s, t, s.status[t].m)
    case Sleep(t) => s.(status := s.status[t := Asleep])
    case Awake(t) => s.(status := s.status[t := Ready])
  }

  lemma ReleaseShaped(s: System, t: Task, m: Id)
    requires Shaped(s) && t in s.base && m in s.mutex
    ensures Shaped(Release(s, t, m)) && m in Release(s, t, m).mutex
  {
    assert Release(s, t, m).mutex.Keys == s.mutex.Keys;
  }
}

/** The single-core scheduler of tasks.c as a state machine.  One step is one
    critical section, or one region in which the scheduler is suspended, less
    the interrupts it admits: those are steps of their own. */
module Scheduler {
  import opened Basics
  import opened Rings
  import opened Ticks

  const MAX_PRIORITIES: nat := 5                // configMAX_PRIORITIES
  const VALUE_IN_USE: nat := 0x8000_0000        // taskEVENT_LIST_ITEM_VALUE_IN_USE

  datatype Kernel = Kernel(
    priority: map<Task, nat>,    // uxPriority of every task
    base: map<Task, nat>,        // uxBasePriority
    current: Task,               // pxCurrentTCB
    idle: Task,                  // the idle task, which never blocks
    ready: seq<Ring<Task>>,      // pxReadyTasksLists
    top: set<nat>,               // the bits set in uxTopReadyPriority
    bound: nat,                  // the same variable under generic task selection
    delayed: seq<Task>,          // pxDelayedTaskList
    overflow: seq<Task>,         // pxOverflowDelayedTaskList
    wake: map<Task, nat>,        // xItemValue of the state list item
    pending: seq<Task>,          // xPendingReadyList
    eventOf: map<Task, nat>,     // the event list that contains the task's event list item
    eventValue: map<Task, nat>,  // xItemValue of the event list item
    tick: nat,                   // xTickCount
    overflows: nat,              // xNumOfOverflows
    nextUnblock: nat,            // xNextTaskUnblockTime
    suspended: nat,              // uxSchedulerSuspended
    pended: nat                  // xPendedTicks
  )

  function Priority(k: Kernel, t: Task): nat { At(k.priority, t) }

  /** The ready lists exist and every priority names one of them. */
  ghost predicate Shape(ready: seq<Ring<Task>>, priority: map<Task, nat>, base: map<Task, nat>) {
    && |ready| == MAX_PRIORITIES
    && (forall p :: 0 <= p < |ready| ==> WellFormed(ready[p]))
    && (forall t :: t in priority ==> priority[t] < MAX_PRIORITIES)
    && (forall t :: t in base ==> base[t] < MAX_PRIORITIES)
  }

  ghost predicate Typed(k: Kernel) { Shape(k.ready, k.priority, k.base) }

  predicate Blocked(k: Kernel, t: Task) { t in k.delayed || t in k.overflow }

  predicate IsReady(k: Kernel, t: Task)
    requires Typed(k)
  {
    t in k.ready[Priority(k, t)].items
  }

  // ------------------------------------------------------------- operations

  /** uxListRemove of the task's state list item, from whichever list holds it. */
  function RemoveState(k: Kernel, t: Task): (k': Kernel)
    requires Typed(k)
    ensures Typed(k')
  {
    var p := Priority(k, t);
    k.(ready := k.ready[p := Drop(k.ready[p], t)], delayed := Without(k.delayed, t), overflow := Without(k.overflow, t))
  }

  /** listREMOVE_ITEM of the task's event list item, if it is in a list. */
  function RemoveEvent(k: Kernel, t: Task): (k': Kernel)
    requires Typed(k)
    ensures Typed(k')
  {
    k.(pending := Without(k.pending, t), eventOf := k.eventOf - {t})
  }

  /** prvAddTaskToReadyList */
  function AddToReady(k: Kernel, t: Task): (k': Kernel)
    requires Typed(k)
    ensures Typed(k')
  {
    var p := Priority(k, t);
    k.(ready := k.ready[p := InsertEnd(k.ready[p], t)], top := k.top + {p}, bound := Larger(k.bound, p))
  }

  function MoveToReady(k: Kernel, t: Task): (k': Kernel)
    requires Typed(k)
    ensures Typed(k')
  {
    AddToReady(RemoveState(k, t), t)
  }

  /** prvResetNextTaskUnblockTime */
  function ResetNextUnblock(k: Kernel): Kernel {
    k.(nextUnblock := if k.delayed == [] then MAX_DELAY else At(k.wake, k.delayed[0]))
  }

  /** taskSWITCH_DELAYED_LISTS */
  function SwitchDelayedLists(k: Kernel): Kernel {
    ResetNextUnblock(k.(delayed := k.overflow, overflow := k.delayed, overflows := k.overflows + 1))
  }

  /** The task at the head of the delayed list leaves it, and any event list. */
  function UnblockHead(k: Kernel): (k': Kernel)
    requires Typed(k) && k.delayed != []
    ensures Typed(k') && |k'.delayed| < |k.delayed|
  {
    MoveToReady(RemoveEvent(k, k.delayed[0]), k.delayed[0])
  }

  /** The loop of xTaskIncrementTick. */
  function UnblockDue(k: Kernel): (k': Kernel)
    requires Typed(k)
    ensures Typed(k')
    decreases |k.delayed|
  {
    if k.delayed == [] then k.(nextUnblock := MAX_DELAY)
    else if k.tick < At(k.wake, k.delayed[0]) then k.(nextUnblock := At(k.wake, k.delayed[0]))
    else UnblockDue(UnblockHead(k))
  }

  /** xTaskIncrementTick while the scheduler is not suspended. */
  function AdvanceTick(k: Kernel): (k': Kernel)
    requires Typed(k)
    ensures Typed(k')
  {
    var k1 := k.(tick := (k.tick + 1) % WRAP);
    var k2 := if k1.tick == 0 then SwitchDelayedLists(k1) else k1;
    if k2.tick >= k2.nextUnblock then UnblockDue(k2) else k2
  }

  /** xTaskIncrementTick */
  function IncrementTick(k: Kernel): (k': Kernel)
    requires Typed(k)
    ensures Typed(k')
  {
    if k.suspended == 0 then AdvanceTick(k) else PendTicks(k, 1)
  }

  /** xTaskResumeAll: the loop over xPendingReadyList. */
  function DrainPending(k: Kernel): (k': Kernel)
    requires Typed(k)
    ensures Typed(k')
    decreases |k.pending|
  {
    if k.pending == [] then k
    else DrainPending(MoveToReady(RemoveEvent(k, k.pending[0]), k.pending[0]))
  }

  function AdvanceTicks(k: Kernel, n: nat): (k': Kernel)
    requires Typed(k)
    ensures Typed(k')
    decreases n
  {
    if n == 0 then k else AdvanceTicks(AdvanceTick(k), n - 1)
  }

  /** xTaskResumeAll */
  function ResumeAll(k: Kernel): (k': Kernel)
    requires Typed(k) && k.suspended > 0
    ensures Typed(k')
  {
    var k1 := k.(suspended := k.suspended - 1);
    if k1.suspended > 0 then k1
    else
      var k2 := DrainPending(k1);
      var k3 := if k1.pending == [] then k2 else ResetNextUnblock(k2);
      AdvanceTicks(k3, k3.pended).(pended := 0)
  }

  /** uxListRemove from a ready list, with the reset of the bit that follows it. */
  function LeaveReady(k: Kernel, t: Task): (k': Kernel)
    requires Typed(k)
    ensures Typed(k')
  {
    var p, k1 := Priority(k, t), RemoveState(k, t);
    if k1.ready[p].items == [] then k1.(top := k1.top - {p}) else k1
  }

  /** prvAddCurrentTaskToDelayedList */
  function BlockCurrent(k: Kernel, ticks: nat): (k': Kernel)
    requires Typed(k)
    ensures Typed(k')
  {
    var t, at := k.current, (k.tick + ticks) % WRAP;
    var k1 := LeaveReady(k, t).(wake := k.wake[t := at]);
    if at < k.tick then
      k1.(overflow := InsertSorted(k1.overflow, t, k1.wake))
    else
      k1.(delayed := InsertSorted(k1.delayed, t, k1.wake),
          nextUnblock := if at < k1.nextUnblock then at else k1.nextUnblock)
  }

  /** vTaskPlaceOnEventList.  The event item and the state item are different
      list items, so the order of their two insertions does not matter. */
  function PlaceOnEventList(k: Kernel, e: nat, ticks: nat): (k': Kernel)
    requires Typed(k)
    ensures Typed(k')
  {
    BlockCurrent(k, ticks).(eventOf := k.eventOf[k.current := e])
  }

  /** A 32-bit item value with the in-use bit set. */
  function InUse(v: nat): (r: nat)
    ensures r >= VALUE_IN_USE
  {
    if v < VALUE_IN_USE then VALUE_IN_USE + v else v
  }

  /** vTaskPlaceOnUnorderedEventList, with the value to store in the event item. */
  function PlaceOnUnorderedEventList(k: Kernel, e: nat, v: nat, ticks: nat): (k': Kernel)
    requires Typed(k)
    ensures Typed(k')
  {
    PlaceOnEventList(k, e, ticks).(eventValue := k.eventValue[k.current := InUse(v)])
  }

  /** A task unblocked by an event: straight to its ready list, or held on the
      pending ready list while the scheduler is suspended. */
  function ReadyOrPend(k: Kernel, t: Task): (k': Kernel)
    requires Typed(k)
    ensures Typed(k')
  {
    if k.suspended == 0 then MoveToReady(k, t) else k.(pending := k.pending + [t])
  }

  /** xTaskRemoveFromEventList, where `t` is the head of the event list. */
  function RemoveFromEventList(k: Kernel, t: Task): (k': Kernel)
    requires Typed(k)
    ensures Typed(k')
  {
    ReadyOrPend(RemoveEvent(k, t), t)
  }

  /** vTaskRemoveFromUnorderedEventList */
  function RemoveFromUnorderedEventList(k: Kernel, t: Task, v: nat): (k': Kernel)
    requires Typed(k)
    ensures Typed(k')
  {
    MoveToReady(RemoveEvent(k.(eventValue := k.eventValue[t := InUse(v)]), t), t)
  }

  /** The change of effective priority shared by the three inheritance functions.
      A ready task changes lists; the bit for `cleared` is reset when the list it
      leaves becomes empty. */
  function Reprioritise(k: Kernel, t: Task, p: nat, cleared: nat): (k': Kernel)
    requires Typed(k) && p < MAX_PRIORITIES
    ensures Typed(k')
  {
    if IsReady(k, t) then
      var k1 := RemoveState(k, t);
      var k2 := if k1.ready[Priority(k, t)].items == [] then k1.(top := k1.top - {cleared}) else k1;
      AddToReady(k2.(priority := k2.priority[t := p]), t)
    else
      k.(priority := k.priority[t := p])
  }

  /** The event item value follows the priority unless an event group uses it. */
  function RevalueEvent(k: Kernel, t: Task, p: nat): (k': Kernel)
    requires Typed(k) && p < MAX_PRIORITIES
    ensures Typed(k')
  {
    if At(k.eventValue, t) < VALUE_IN_USE then k.(eventValue := k.eventValue[t := MAX_PRIORITIES - p]) else k
  }

  /** xTaskPriorityInherit: what it does to the holder. */
  function PriorityInherit(k: Kernel, holder: Task): (k': Kernel)
    requires Typed(k)
    ensures Typed(k')
  {
    var p := Priority(k, k.current);
    if Priority(k, holder) < p then Reprioritise(RevalueEvent(k, holder, p), holder, p, Priority(k, holder)) else k
  }

  /** xTaskPriorityDisinherit once the running task has given its last mutex. */
  function PriorityDisinherit(k: Kernel): (k': Kernel)
    requires Typed(k)
    ensures Typed(k')
  {
    var t, p := k.current, At(k.base, k.current);
    if Priority(k, t) != p then
      Reprioritise(k.(eventValue := k.eventValue[t := MAX_PRIORITIES - p]), t, p, Priority(k, t))
    else k
  }

  /** vTaskPriorityDisinheritAfterTimeout for the holder of a single mutex.  As in
      the source, the bit that is reset is that of the new priority. */
  function DisinheritAfterTimeout(k: Kernel, holder: Task, waiting: nat): (k': Kernel)
    requires Typed(k) && waiting < MAX_PRIORITIES
    ensures Typed(k')
  {
    var p := Larger(At(k.base, holder), waiting);
    if Priority(k, holder) != p then Reprioritise(RevalueEvent(k, holder, p), holder, p, p) else k
  }

  /** uxTaskResetEventItemValue, once the running task has read its item. */
  function ResetItemValue(k: Kernel): (k': Kernel)
    requires Typed(k)
    ensures Typed(k')
  {
    k.(eventValue := k.eventValue[k.current := MAX_PRIORITIES - Priority(k, k.current)])
  }

  /** The critical section of xTaskCatchUpTicks, between suspending and resuming. */
  function PendTicks(k: Kernel, n: nat): Kernel { k.(pended := (k.pended + n) % WRAP) }

  /** The port-optimised choice: the highest bit set. */
  function Highest(bits: set<nat>, below: nat): (p: nat)
    requires exists q :: q in bits && q < below
    ensures p in bits && p < below && forall q :: q in bits && q < below ==> q <= p
    decreases below
  {
    if below - 1 in bits then below - 1 else Highest(bits, below - 1)
  }

  /** vTaskSwitchContext: the next entry of the list of the chosen priority. */
  function SelectFrom(k: Kernel, p: nat): (k': Kernel)
    requires Typed(k) && p < MAX_PRIORITIES && k.ready[p].items != []
    ensures Typed(k')
  {
    var r := Advance(k.ready[p]);
    k.(ready := k.ready[p := r], current := Owner(r), bound := p)
  }
}

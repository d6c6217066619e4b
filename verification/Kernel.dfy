/** The kernel's data (the file-scope variables of tasks.c, the scheduling fields of
    every TCB and the list-related fields of every queue) and, as functions on it,
    what each kernel operation computes. */
module Kernel {
  import opened Config
  import opened Rings
  import opened Lists

  // taskNOT_WAITING_NOTIFICATION, taskWAITING_NOTIFICATION, taskNOTIFICATION_RECEIVED
  datatype NotifyState = NotWaiting | Waiting | Received

  // queueUNLOCKED is -1; cTxLock counts for the receivers, cRxLock for the senders.
  const UNLOCKED := -1

  datatype Queue = Queue(length: nat, itemSize: nat, count: nat, rxLock: int, txLock: int)

  datatype Core = Core(
    ls: Store,
    prio: map<Task, nat>,            // uxPriority; its domain is the set of created tasks
    notify: map<Task, NotifyState>,  // ucNotifyState[0]
    value: map<Task, bv32>,          // ulNotifiedValue[0]
    cur: Task,                       // pxCurrentTCB
    tasks: nat,                      // uxCurrentNumberOfTasks
    top: nat,                        // uxTopReadyPriority
    tick: nat,                       // xTickCount
    overflows: nat,                  // xNumOfOverflows, before truncation to 32 bits
    pended: nat,                     // xPendedTicks
    nextUnblock: nat,                // xNextTaskUnblockTime
    flip: bool,                      // pxDelayedTaskList is &xDelayedTaskList[flip]
    suspended: nat,                  // uxSchedulerSuspended
    yieldPending: bool,              // xYieldPendings[0]
    queues: map<QueueId, Queue>)

  function Prio(c: Core, t: Task): nat { if t in c.prio then c.prio[t] else 0 }

  function Current(c: Core): ListId { Delay(c.flip) }      // *pxDelayedTaskList
  function Overflow(c: Core): ListId { Delay(!c.flip) }    // *pxOverflowDelayedTaskList

  function Unlink(c: Core, i: Item): Core { c.(ls := RemoveItem(c.ls, i)) }

  // prvAddTaskToReadyList
  function AddReady(c: Core, t: Task): Core {
    c.(top := if Prio(c, t) > c.top then Prio(c, t) else c.top,
       ls := AddEnd(c.ls, Ready(Prio(c, t)), StateItem(t)))
  }

  function MakeReady(c: Core, t: Task): Core { AddReady(Unlink(c, StateItem(t)), t) }

  // prvResetNextTaskUnblockTime
  function ResetNext(c: Core): Core {
    c.(nextUnblock := if IsEmpty(c.ls, Current(c)) then MAX_DELAY else Val(c.ls, Head(c.ls, Current(c))))
  }

  // taskSWITCH_DELAYED_LISTS
  function SwitchDelayed(c: Core): Core {
    ResetNext(c.(flip := !c.flip, overflows := c.overflows + 1))
  }

  /* The lists are well formed, each kind of item is only on its own kind of list, and a
     task with its event item on a list has its state item on one. */
  ghost predicate Sound(s: Store) {
    && Valid(s)
    && forall t :: HomeOk(Home(s, t)) && EventHomeOk(EventHome(s, t)) && (EventHome(s, t).On? ==> Home(s, t).On?)
  }

  predicate HomeOk(w: Where) { w.On? ==> w.l.Ready? || w.l.Delay? || w.l.Suspended? }
  predicate EventHomeOk(w: Where) { w.On? ==> w.l.Pending? || w.l.Wait? }

  /* The change one operation makes: task t's items move, every other item stays, and
     item values stay. */
  ghost predicate Moves(s: Store, s': Store, t: Task, home: Where, event: Where) {
    && (forall u :: Home(s', u) == if u == t then home else Home(s, u))
    && (forall u :: EventHome(s', u) == if u == t then event else EventHome(s, u))
    && s'.val == s.val
  }

  // One round of the unblocking loop: the task at the head of the current delayed
  // list leaves it, and its event list if it is on one, for its ready list.
  function WakeHead(c: Core): Core
    requires !IsEmpty(c.ls, Current(c))
  {
    var t := Head(c.ls, Current(c)).t;
    AddReady(Unlink(Unlink(c, Head(c.ls, Current(c))), EventItem(t)), t)
  }

  lemma StateHead(s: Store, l: ListId)
    requires Sound(s) && !IsEmpty(s, l) && (l.Ready? || l.Delay? || l.Suspended?)
    ensures Head(s, l).StateItem? && Home(s, Head(s, l).t) == On(l)
  {
    HeadFacts(s, l);
    assert EventHome(s, Head(s, l).t) != On(l);
  }

  lemma EventHead(s: Store, l: ListId)
    requires Sound(s) && !IsEmpty(s, l) && (l.Pending? || l.Wait?)
    ensures Head(s, l).EventItem? && EventHome(s, Head(s, l).t) == On(l)
  {
    HeadFacts(s, l);
    assert Home(s, Head(s, l).t) != On(l);
  }

  lemma StateAt(s: Store, t: Task)
    ensures At(s, StateItem(t)) == Home(s, t)
  {}

  lemma EventAt(s: Store, t: Task)
    ensures At(s, EventItem(t)) == EventHome(s, t)
  {}

  lemma WakeHeadFacts(c: Core)
    requires Sound(c.ls) && !IsEmpty(c.ls, Current(c))
    ensures Sound(WakeHead(c).ls) && OrderKept(c.ls, WakeHead(c).ls)
    ensures var h := Head(c.ls, Current(c));
            && h.StateItem? && Home(c.ls, h.t) == On(Current(c))
            && Moves(c.ls, WakeHead(c).ls, h.t, On(Ready(Prio(c, h.t))), Nowhere)
    ensures |ListOf(WakeHead(c).ls, Current(c)).items| < |ListOf(c.ls, Current(c)).items|
  {
    hide Valid, RemoveItem, AddEnd, ListOf, IsEmpty, Head, Home, EventHome, Precedes;
    var h := Head(c.ls, Current(c));
    StateHead(c.ls, Current(c));
    StateAt(c.ls, h.t);
    RemoveFacts(c.ls, h);
    var s1 := RemoveItem(c.ls, h);
    EventAt(s1, h.t);
    RemoveAny(s1, EventItem(h.t));
    var s2 := RemoveItem(s1, EventItem(h.t));
    StateAt(s2, h.t);
    AddEndFacts(s2, Ready(Prio(c, h.t)), h);
  }

  // The unblocking loop of xTaskIncrementTick; also whether it asks for a switch.
  function WakeExpired(c: Core): (r: (Core, bool))
    requires Sound(c.ls)
    ensures Sound(r.0.ls)
    decreases |ListOf(c.ls, Current(c)).items|
  {
    if IsEmpty(c.ls, Current(c)) then (c.(nextUnblock := MAX_DELAY), false)
    else
      var h := Head(c.ls, Current(c));
      if c.tick < Val(c.ls, h) then (c.(nextUnblock := Val(c.ls, h)), false)
      else
        WakeHeadFacts(c);
        var w := WakeExpired(WakeHead(c));
        (w.0, w.1 || Prio(c, h.t) > Prio(c, c.cur))
  }

  // The first half of xTaskIncrementTick: the tick itself and the swap on wrap.
  function Advance32(c: Core): Core {
    var c1 := c.(tick := Add32(c.tick, 1));
    if c1.tick == 0 then SwitchDelayed(c1) else c1
  }

  // xTaskIncrementTick
  function IncrementTick(c: Core): (r: (Core, bool))
    requires Sound(c.ls)
    ensures Sound(r.0.ls)
  {
    if c.suspended == 0 then
      var c1 := Advance32(c);
      var w := if c1.tick >= c1.nextUnblock then WakeExpired(c1) else (c1, false);
      (w.0, w.1 || |ListOf(w.0.ls, Ready(Prio(c, c.cur))).items| > 1 || c.yieldPending)
    else
      (c.(pended := Add32(c.pended, 1)), false)
  }

  // taskSELECT_HIGHEST_PRIORITY_TASK: the first non-empty ready list from p down.
  function HighestReady(s: Store, p: nat): (h: nat)
    ensures h <= p
  {
    if IsEmpty(s, Ready(p)) && p > 0 then HighestReady(s, p - 1) else p
  }

  // vTaskSwitchContext
  function SwitchContext(c: Core): Core {
    if c.suspended != 0 then c.(yieldPending := true)
    else
      var p := HighestReady(c.ls, c.top);
      if IsEmpty(c.ls, Ready(p)) then c
      else c.(yieldPending := false, top := p, ls := AdvanceIn(c.ls, Ready(p)),
              cur := AtCursor(Advance(ListOf(c.ls, Ready(p)))).t)
  }

  // prvAddCurrentTaskToDelayedList
  function DelayCurrent(c: Core, n: nat, forever: bool): Core {
    var i := StateItem(c.cur);
    var c1 := Unlink(c, i);
    if n == MAX_DELAY && forever then c1.(ls := AddEnd(c1.ls, Suspended, i))
    else
      var wake := Add32(c.tick, n);
      var s := SetVal(c1.ls, i, wake);
      if wake < c.tick then c1.(ls := AddSorted(s, Overflow(c), i))
      else c1.(ls := AddSorted(s, Current(c), i),
               nextUnblock := if wake < c.nextUnblock then wake else c.nextUnblock)
  }

  // vTaskPlaceOnEventList
  function PlaceOnEventList(c: Core, l: ListId, n: nat): Core {
    DelayCurrent(c.(ls := AddSorted(c.ls, l, EventItem(c.cur))), n, true)
  }

  // xTaskRemoveFromEventList on a non-empty list
  function RemoveFromEventList(c: Core, l: ListId): (Core, bool)
    requires !IsEmpty(c.ls, l)
  {
    var t := Head(c.ls, l).t;
    var c1 := Unlink(c, Head(c.ls, l));
    var c2 := if c.suspended == 0 then MakeReady(c1, t)
              else c1.(ls := AddEnd(c1.ls, Pending, EventItem(t)));
    if Prio(c, t) > Prio(c, c.cur) then (c2.(yieldPending := true), true) else (c2, false)
  }

  // Wake the head of an event list if there is one; whether a yield is now due.
  function WakeOne(c: Core, l: ListId): (Core, bool) {
    if IsEmpty(c.ls, l) then (c, false) else RemoveFromEventList(c, l)
  }

  // One round of xTaskResumeAll's draining loop.
  function DrainHead(c: Core): Core
    requires !IsEmpty(c.ls, Pending)
  {
    var t := Head(c.ls, Pending).t;
    var c1 := MakeReady(Unlink(c, Head(c.ls, Pending)), t);
    if Prio(c, t) > Prio(c, c.cur) then c1.(yieldPending := true) else c1
  }

  lemma DrainHeadFacts(c: Core)
    requires Sound(c.ls) && !IsEmpty(c.ls, Pending)
    ensures Sound(DrainHead(c).ls) && OrderKept(c.ls, DrainHead(c).ls)
    ensures var h := Head(c.ls, Pending);
            && h.EventItem? && EventHome(c.ls, h.t) == On(Pending) && Home(c.ls, h.t).On?
            && Moves(c.ls, DrainHead(c).ls, h.t, On(Ready(Prio(c, h.t))), Nowhere)
    ensures |ListOf(DrainHead(c).ls, Pending).items| < |ListOf(c.ls, Pending).items|
  {
    hide Valid, RemoveItem, AddEnd, ListOf, IsEmpty, Head, Home, EventHome, Precedes;
    var h := Head(c.ls, Pending);
    EventHead(c.ls, Pending);
    EventAt(c.ls, h.t);
    RemoveFacts(c.ls, h);
    var s1 := RemoveItem(c.ls, h);
    StateAt(s1, h.t);
    RemoveFacts(s1, StateItem(h.t));
    var s2 := RemoveItem(s1, StateItem(h.t));
    StateAt(s2, h.t);
    AddEndFacts(s2, Ready(Prio(c, h.t)), StateItem(h.t));
  }

  function Drain(c: Core): (r: Core)
    requires Sound(c.ls)
    ensures Sound(r.ls)
    decreases |ListOf(c.ls, Pending).items|
  {
    if IsEmpty(c.ls, Pending) then c
    else DrainHeadFacts(c); Drain(DrainHead(c))
  }

  // The deferred ticks of xTaskResumeAll.
  function Replay(c: Core, n: nat): (r: Core)
    requires Sound(c.ls)
    ensures Sound(r.ls)
    decreases n
  {
    if n == 0 then c
    else
      var k := IncrementTick(c);
      Replay(k.0.(yieldPending := k.0.yieldPending || k.1), n - 1)
  }

  function SuspendAll(c: Core): Core { c.(suspended := c.suspended + 1) }

  // xTaskResumeAll up to its yield: the scheduler is running again, the pending ready
  // list is drained and the deferred ticks are processed.
  function Unsuspend(c: Core): Core
    requires Sound(c.ls)
  {
    var c1 := Drain(c);
    var c2 := if IsEmpty(c.ls, Pending) then c1 else ResetNext(c1);
    if c2.pended > 0 then Replay(c2, c2.pended).(pended := 0) else c2
  }

  // xTaskResumeAll; also whether it has already yielded.
  function ResumeAll(c: Core): (Core, bool)
    requires Sound(c.ls) && c.suspended > 0
  {
    var c1 := c.(suspended := c.suspended - 1);
    if c1.suspended > 0 then (c1, false)
    else
      var c2 := Unsuspend(c1);
      if c2.yieldPending then (SwitchContext(c2), true) else (c2, false)
  }

  // vTaskSuspend's first critical section.
  function SuspendTask(c: Core, t: Task): Core {
    var c1 := Unlink(Unlink(c, StateItem(t)), EventItem(t));
    c1.(ls := AddEnd(c1.ls, Suspended, StateItem(t)),
        notify := if AwaitsNotify(c, t) then c.notify[t := NotWaiting] else c.notify)
  }

  predicate AwaitsNotify(c: Core, t: Task) { t in c.notify && c.notify[t] == Waiting }

  // prvTaskIsTaskSuspended
  predicate IsSuspended(c: Core, t: Task) {
    && Home(c.ls, t) == On(Suspended) && EventHome(c.ls, t).Nowhere?
    && !AwaitsNotify(c, t)
  }

  // taskYIELD_ANY_CORE_IF_USING_PREEMPTION
  function YieldTo(c: Core, t: Task): Core {
    if Prio(c, c.cur) < Prio(c, t) then SwitchContext(c) else c
  }

  // vTaskResume
  function ResumeTask(c: Core, t: Task): Core {
    if t != c.cur && IsSuspended(c, t) then YieldTo(MakeReady(c, t), t) else c
  }

  // xTaskResumeFromISR
  function ResumeFromISR(c: Core, t: Task): Core {
    if !IsSuspended(c, t) then c
    else if c.suspended == 0 then
      var c1 := MakeReady(c, t);
      if Prio(c, t) > Prio(c, c.cur) then c1.(yieldPending := true) else c1
    else c.(ls := AddEnd(c.ls, Pending, EventItem(t)))
  }

  // vTaskPrioritySet up to its yield, and whether it yields.
  function PriorityChange(c: Core, t: Task, p: nat): (Core, bool) {
    var to := if p >= MAX_PRIORITIES then MAX_PRIORITIES - 1 else p;
    var was := Prio(c, t);
    if to == was then (c, false)
    else
      var c1 := c.(prio := c.prio[t := to], ls := SetVal(c.ls, EventItem(t), MAX_PRIORITIES - to));
      var c2 := if StateItem(t) in c.ls.box && c.ls.box[StateItem(t)] == Ready(was) then MakeReady(c1, t) else c1;
      (c2, if to > was then t != c.cur && to > Prio(c, c.cur) else t == c.cur)
  }

  // vTaskPrioritySet
  function PrioritySet(c: Core, t: Task, p: nat): Core {
    var r := PriorityChange(c, t, p);
    if r.1 then SwitchContext(r.0) else r.0
  }

  // prvInitialiseNewTask and prvAddNewTaskToReadyList's critical section, the scheduler running.
  function CreateTask(c: Core, t: Task, p: nat): Core {
    var q := if p >= MAX_PRIORITIES then MAX_PRIORITIES - 1 else p;
    AddReady(c.(prio := c.prio[t := q], notify := c.notify[t := NotWaiting], value := c.value[t := 0],
                tasks := c.tasks + 1, ls := SetVal(c.ls, EventItem(t), MAX_PRIORITIES - q)), t)
  }

  /* ----- direct-to-task notifications ----- */

  datatype NotifyAction = SetBits(b: bv32) | Increment | Overwrite(v: bv32) | NoOverwrite(v: bv32) | NoAction

  function NotifiedValue(v: bv32, s: NotifyState, a: NotifyAction): bv32 {
    match a
    case SetBits(b) => v | b
    case Increment => v + 1
    case Overwrite(w) => w
    case NoOverwrite(w) => if s != Received then w else v
    case NoAction => v
  }

  function Received1(c: Core, t: Task, a: NotifyAction): Core {
    if t in c.notify && t in c.value then
      c.(notify := c.notify[t := Received], value := c.value[t := NotifiedValue(c.value[t], c.notify[t], a)])
    else c
  }

  // xTaskGenericNotify
  function Notify(c: Core, t: Task, a: NotifyAction): Core {
    var c1 := Received1(c, t, a);
    if AwaitsNotify(c, t) then YieldTo(MakeReady(c1, t), t) else c1
  }

  // xTaskGenericNotifyFromISR, and vTaskGenericNotifyGiveFromISR with Increment
  function NotifyFromISR(c: Core, t: Task, a: NotifyAction): Core {
    var c1 := Received1(c, t, a);
    if AwaitsNotify(c, t) then
      var c2 := if c.suspended == 0 then MakeReady(c1, t)
                else c1.(ls := AddEnd(c1.ls, Pending, EventItem(t)));
      if Prio(c, t) > Prio(c, c.cur) then c2.(yieldPending := true) else c2
    else c1
  }

  /* ----- time-outs ----- */

  // TimeOut_t: xOverflowCount and xTimeOnEntering.
  datatype TimeOut = TimeOut(overflowCount: nat, entered: nat)

  // vTaskInternalSetTimeOutState
  function SetTimeOut(c: Core): TimeOut { TimeOut(c.overflows % TWO_32, c.tick) }

  // xTaskCheckForTimeOut: expired, the new snapshot, the ticks still to wait.
  function CheckForTimeOut(c: Core, to: TimeOut, wait: nat): (bool, TimeOut, nat) {
    var elapsed := Sub32(c.tick, to.entered);
    if wait == MAX_DELAY then (false, to, wait)
    else if c.overflows % TWO_32 != to.overflowCount && c.tick >= to.entered then (true, to, 0)
    else if elapsed < wait then (false, SetTimeOut(c), wait - elapsed)
    else (true, to, 0)
  }

  /* ----- periodic delay ----- */

  // xTaskDelayUntil's decision: whether to delay, and the new *pxPreviousWakeTime.
  function DelayUntil(tick: nat, previous: nat, increment: nat): (bool, nat) {
    var wake := Add32(previous, increment);
    (if tick < previous then wake < previous && wake > tick else wake < previous || wake > tick, wake)
  }
}

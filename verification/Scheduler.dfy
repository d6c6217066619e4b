/** The kernel's file-scope variables as they are updated in place, and its routines step by
    step; each is proved to compute the function of the same purpose in Kernel or Queues, about
    which everything else is proved. */
module Scheduling {
  import opened Config
  import opened Rings
  import opened Lists
  import opened Kernel
  import opened Queues
  import opened Shape
  import opened Clock
  import opened Priority

  class Scheduler {
    var lists: Store                     // every List_t and ListItem_t
    var priorities: map<Task, nat>       // uxPriority of each TCB
    var notifyStates: map<Task, NotifyState>
    var notifiedValues: map<Task, bv32>
    var current: Task                    // pxCurrentTCB
    var numberOfTasks: nat
    var topReadyPriority: nat
    var tickCount: nat
    var numOfOverflows: nat
    var pendedTicks: nat
    var nextTaskUnblockTime: nat
    var flipped: bool                    // pxDelayedTaskList points at the second list
    var schedulerSuspended: nat
    var yieldPending: bool
    var queues: map<QueueId, Queue>

    ghost function View(): Core
      reads this
    {
      Core(lists, priorities, notifyStates, notifiedValues, current, numberOfTasks, topReadyPriority, tickCount,
           numOfOverflows,
           pendedTicks, nextTaskUnblockTime, flipped, schedulerSuspended, yieldPending, queues)
    }

    function PriorityOf(t: Task): nat
      reads this
    {
      if t in priorities then priorities[t] else 0
    }

    function DelayedList(): ListId
      reads this
    {
      Delay(flipped)
    }

    constructor (c: Core)
      ensures View() == c
    {
      lists, priorities, notifyStates, notifiedValues := c.ls, c.prio, c.notify, c.value;
      current, numberOfTasks, topReadyPriority, tickCount, numOfOverflows := c.cur, c.tasks, c.top, c.tick, c.overflows;
      pendedTicks, nextTaskUnblockTime, flipped, schedulerSuspended := c.pended, c.nextUnblock, c.flip, c.suspended;
      yieldPending, queues := c.yieldPending, c.queues;
    }

    // prvAddTaskToReadyList
    method AddTaskToReadyList(t: Task)
      modifies this`lists, this`topReadyPriority
      ensures View() == AddReady(old(View()), t)
    {
      if PriorityOf(t) > topReadyPriority {
        topReadyPriority := PriorityOf(t);
      }
      lists := AddEnd(lists, Ready(PriorityOf(t)), StateItem(t));
    }

    // prvResetNextTaskUnblockTime
    method ResetNextTaskUnblockTime()
      modifies this`nextTaskUnblockTime
      ensures View() == ResetNext(old(View()))
    {
      if IsEmpty(lists, DelayedList()) {
        nextTaskUnblockTime := MAX_DELAY;
      } else {
        nextTaskUnblockTime := Val(lists, Head(lists, DelayedList()));
      }
    }

    // taskSWITCH_DELAYED_LISTS
    method SwitchDelayedLists()
      modifies this`flipped, this`numOfOverflows, this`nextTaskUnblockTime
      ensures View() == SwitchDelayed(old(View()))
    {
      flipped := !flipped;
      numOfOverflows := numOfOverflows + 1;
      ResetNextTaskUnblockTime();
    }

    // The body of the unblocking loop for the task at the head of the delayed list.
    method UnblockHead() returns (t: Task)
      requires !IsEmpty(lists, DelayedList())
      modifies this`lists, this`topReadyPriority
      ensures View() == WakeHead(old(View())) && t == old(Head(lists, DelayedList()).t)
    {
      var item := Head(lists, DelayedList());
      t := item.t;
      lists := RemoveItem(lists, item);
      if EventItem(t) in lists.box {
        lists := RemoveItem(lists, EventItem(t));
      }
      AddTaskToReadyList(t);
    }

    // The unblocking loop of xTaskIncrementTick.
    method UnblockExpired() returns (switchRequired: bool)
      requires Sound(lists)
      modifies this`lists, this`topReadyPriority, this`nextTaskUnblockTime
      ensures Sound(lists)
      ensures (View(), switchRequired) == WakeExpired(old(View()))
    {
      hide Sound, WakeHead, Head, IsEmpty, Val;
      ghost var was := View();
      switchRequired := false;
      var more := true;
      while more
        invariant Sound(lists)
        invariant if more then WakeExpired(was) == (WakeExpired(View()).0, switchRequired || WakeExpired(View()).1)
                  else (View(), switchRequired) == WakeExpired(was)
        decreases more, |ListOf(lists, DelayedList()).items|
      {
        if IsEmpty(lists, DelayedList()) {
          nextTaskUnblockTime := MAX_DELAY;
          more := false;
        } else {
          var itemValue := Val(lists, Head(lists, DelayedList()));
          if tickCount < itemValue {
            nextTaskUnblockTime := itemValue;
            more := false;
          } else {
            ghost var c := View();
            WakeHeadFacts(c);
            WakeHeadFrame(c);
            var t := UnblockHead();
            if PriorityOf(t) > PriorityOf(current) {
              switchRequired := true;
            }
          }
        }
      }
    }

    /** xTaskIncrementTick */
    method IncrementTick() returns (switchRequired: bool)
      requires Sound(lists)
      modifies this
      ensures Sound(lists)
      ensures (View(), switchRequired) == Kernel.IncrementTick(old(View()))
    {
      hide Sound, WakeExpired, Head, IsEmpty, Val;
      switchRequired := false;
      if schedulerSuspended == 0 {
        ghost var was := View();
        var constTickCount := Add32(tickCount, 1);
        tickCount := constTickCount;
        if constTickCount == 0 {
          SwitchDelayedLists();
        }
        assert View() == Advance32(was);
        if constTickCount >= nextTaskUnblockTime {
          WakeExpiredFrame(View());
          switchRequired := UnblockExpired();
        }
        if |ListOf(lists, Ready(PriorityOf(current))).items| > 1 {
          switchRequired := true;
        }
        if yieldPending {
          switchRequired := true;
        }
      } else {
        pendedTicks := Add32(pendedTicks, 1);
      }
    }

    // taskSELECT_HIGHEST_PRIORITY_TASK
    method SelectHighestPriorityTask()
      requires exists p: nat :: p <= topReadyPriority && !IsEmpty(lists, Ready(p))
      modifies this`lists, this`topReadyPriority, this`current
      ensures !IsEmpty(old(lists), Ready(HighestReady(old(lists), old(topReadyPriority))))
      ensures View() == var (c, p) := (old(View()), HighestReady(old(lists), old(topReadyPriority)));
                        c.(top := p, ls := AdvanceIn(c.ls, Ready(p)),
                           cur := AtCursor(Advance(ListOf(c.ls, Ready(p)))).t)
    {
      hide AdvanceIn;
      HighestReadyFacts(lists, topReadyPriority);
      var topPriority: nat := topReadyPriority;
      while IsEmpty(lists, Ready(topPriority))
        invariant topPriority <= topReadyPriority
        invariant HighestReady(lists, topReadyPriority) == HighestReady(lists, topPriority)
        invariant !IsEmpty(lists, Ready(HighestReady(lists, topReadyPriority)))
        decreases topPriority
      {
        topPriority := topPriority - 1;
      }
      current := AtCursor(Advance(ListOf(lists, Ready(topPriority)))).t;
      lists := AdvanceIn(lists, Ready(topPriority));
      topReadyPriority := topPriority;
    }

    /** vTaskSwitchContext */
    method SwitchContext()
      requires exists p: nat :: p <= topReadyPriority && !IsEmpty(lists, Ready(p))
      modifies this
      ensures View() == Kernel.SwitchContext(old(View()))
    {
      hide IsEmpty, AdvanceIn;
      if schedulerSuspended != 0 {
        yieldPending := true;
      } else {
        yieldPending := false;
        HighestReadyFacts(lists, topReadyPriority);
        SelectHighestPriorityTask();
      }
    }

    // A ready task is one that a switch can choose.
    lemma CanSwitch(t: Task)
      requires Shaped(View()) && OnReady(Home(lists, t))
      ensures exists p: nat :: p <= topReadyPriority && !IsEmpty(lists, Ready(p))
    {
      hide IsEmpty, Home, Sound;
      SomeReadyList(View(), t);
      assert HighestReady(lists, topReadyPriority) <= topReadyPriority;
    }

    /** prvAddCurrentTaskToDelayedList */
    method AddCurrentTaskToDelayedList(ticksToWait: nat, canBlockIndefinitely: bool)
      modifies this`lists, this`nextTaskUnblockTime
      ensures View() == DelayCurrent(old(View()), ticksToWait, canBlockIndefinitely)
    {
      var constTickCount := tickCount;
      lists := RemoveItem(lists, StateItem(current));
      if ticksToWait == MAX_DELAY && canBlockIndefinitely {
        lists := AddEnd(lists, Suspended, StateItem(current));
      } else {
        var timeToWake := Add32(constTickCount, ticksToWait);
        lists := SetVal(lists, StateItem(current), timeToWake);
        if timeToWake < constTickCount {
          lists := AddSorted(lists, Delay(!flipped), StateItem(current));
        } else {
          lists := AddSorted(lists, DelayedList(), StateItem(current));
          if timeToWake < nextTaskUnblockTime {
            nextTaskUnblockTime := timeToWake;
          }
        }
      }
    }

    /** vTaskPlaceOnEventList */
    method PlaceOnEventList(l: ListId, ticksToWait: nat)
      modifies this`lists, this`nextTaskUnblockTime
      ensures View() == Kernel.PlaceOnEventList(old(View()), l, ticksToWait)
    {
      lists := AddSorted(lists, l, EventItem(current));
      AddCurrentTaskToDelayedList(ticksToWait, true);
    }

    /** xTaskRemoveFromEventList */
    method RemoveFromEventList(l: ListId) returns (higherPriority: bool)
      requires !IsEmpty(lists, l)
      modifies this`lists, this`topReadyPriority, this`yieldPending
      ensures (View(), higherPriority) == Kernel.RemoveFromEventList(old(View()), l)
    {
      hide IsEmpty, Head, RemoveItem, AddEnd;
      var t := Head(lists, l).t;
      lists := RemoveItem(lists, Head(lists, l));
      if schedulerSuspended == 0 {
        lists := RemoveItem(lists, StateItem(t));
        AddTaskToReadyList(t);
      } else {
        lists := AddEnd(lists, Pending, EventItem(t));
      }
      higherPriority := PriorityOf(t) > PriorityOf(current);
      if higherPriority {
        yieldPending := true;
      }
    }

    // vTaskSuspendAll
    method SuspendAll()
      modifies this`schedulerSuspended
      ensures View() == Kernel.SuspendAll(old(View()))
    {
      schedulerSuspended := schedulerSuspended + 1;
    }

    // The draining loop of xTaskResumeAll; whether there was anything to drain.
    method DrainPending() returns (any: bool)
      requires Sound(lists)
      modifies this`lists, this`topReadyPriority, this`yieldPending
      ensures Sound(lists)
      ensures View() == Drain(old(View())) && any == !IsEmpty(old(lists), Pending)
    {
      hide Sound, DrainHead, Head, IsEmpty, RemoveItem, AddEnd, Home, EventHome;
      any := false;
      while !IsEmpty(lists, Pending)
        invariant Sound(lists)
        invariant Drain(old(View())) == Drain(View())
        invariant any || View() == old(View())
        invariant any ==> !IsEmpty(old(lists), Pending)
        decreases |ListOf(lists, Pending).items|
      {
        ghost var c := View();
        DrainHeadFacts(c);
        DrainHeadFrame(c);
        any := true;
        ReadyHead();
      }
    }

    method ReadyHead()
      requires !IsEmpty(lists, Pending)
      modifies this`lists, this`topReadyPriority, this`yieldPending
      ensures View() == DrainHead(old(View()))
    {
      hide IsEmpty, Head, RemoveItem, AddEnd;
      var t := Head(lists, Pending).t;
      lists := RemoveItem(lists, Head(lists, Pending));
      lists := RemoveItem(lists, StateItem(t));
      AddTaskToReadyList(t);
      if PriorityOf(t) > PriorityOf(current) {
        yieldPending := true;
      }
    }

    // The deferred ticks of xTaskResumeAll, of which there are some.
    method ProcessPendedTicks()
      requires Sound(lists) && pendedTicks > 0
      modifies this
      ensures Sound(lists)
      ensures View() == Replay(old(View()), old(pendedTicks)).(pended := 0)
    {
      hide Sound, Kernel.IncrementTick;
      var pendedCounts := pendedTicks;
      while pendedCounts > 0
        invariant Sound(lists)
        invariant Replay(old(View()), old(pendedTicks)) == Replay(View(), pendedCounts)
      {
        IncrementTickFrame(View());
        var switchRequired := IncrementTick();
        if switchRequired {
          yieldPending := true;
        }
        pendedCounts := pendedCounts - 1;
      }
      pendedTicks := 0;
    }

    /** xTaskResumeAll */
    method ResumeAll(ghost idle: Task) returns (alreadyYielded: bool)
      requires Shaped(View()) && schedulerSuspended > 0 && OnReady(Home(lists, idle))
      modifies this
      ensures (View(), alreadyYielded) == Kernel.ResumeAll(old(View()))
    {
      hide Sound, Drain, Replay, IsEmpty, Home, EventHome, TaskOk, Kernel.SwitchContext, Unsuspend, Wakes;
      alreadyYielded := false;
      schedulerSuspended := schedulerSuspended - 1;
      if schedulerSuspended == 0 {
        ghost var c := View();
        SameButYield(old(View()), c);
        UnsuspendWakes(c);
        ReadyStays(c, Unsuspend(c), idle);
        Unpend();
        if yieldPending {
          alreadyYielded := true;
          CanSwitch(idle);
          SwitchContext();
        }
      }
    }

    // The pending ready list drained, and the deferred ticks processed.
    method Unpend()
      requires Sound(lists)
      modifies this
      ensures View() == Unsuspend(old(View()))
    {
      hide Sound, Drain, Replay, IsEmpty, ResetNext, Home, EventHome;
      DrainExact(View());
      var any := DrainPending();
      if any {
        ghost var c := View();
        ResetNextTaskUnblockTime();
        ResetNextFrame(c);
      }
      if pendedTicks > 0 {
        ProcessPendedTicks();
      }
    }
  
    /* ----- suspension, resumption, priorities, creation ----- */

    // vTaskSuspend's first critical section
    method SuspendTask(t: Task)
      modifies this`lists, this`notifyStates
      ensures View() == Kernel.SuspendTask(old(View()), t)
    {
      lists := RemoveItem(lists, StateItem(t));
      if EventItem(t) in lists.box {
        lists := RemoveItem(lists, EventItem(t));
      }
      lists := AddEnd(lists, Suspended, StateItem(t));
      if t in notifyStates && notifyStates[t] == Waiting {
        notifyStates := notifyStates[t := NotWaiting];
      }
    }

    // taskYIELD_ANY_CORE_IF_USING_PREEMPTION
    method YieldTo(t: Task, ghost idle: Task)
      requires Shaped(View()) && OnReady(Home(lists, idle))
      modifies this
      ensures View() == Kernel.YieldTo(old(View()), t)
    {
      hide Shaped, Home, Kernel.SwitchContext;
      if PriorityOf(current) < PriorityOf(t) {
        CanSwitch(idle);
        SwitchContext();
      }
    }

    // vTaskResume
    method ResumeTask(t: Task, ghost idle: Task)
      requires Shaped(View()) && OnReady(Home(lists, idle)) && t in priorities
      modifies this
      ensures View() == Kernel.ResumeTask(old(View()), t)
    {
      hide Shaped, Home, EventHome, Kernel.YieldTo, RemoveItem, AddEnd, Wakes;
      var isSuspended := Home(lists, t) == On(Suspended) && EventHome(lists, t) == Nowhere
                      && !(t in notifyStates && notifyStates[t] == Waiting);
      if t != current && isSuspended {
        ghost var c := View();
        MakeReadyWakes(c, t);
        WakesShaped(c, MakeReady(c, t));
        ReadyStays(c, MakeReady(c, t), idle);
        lists := RemoveItem(lists, StateItem(t));
        AddTaskToReadyList(t);
        YieldTo(t, idle);
      }
    }

    // vTaskPrioritySet up to its yield; whether it is to yield.
    method ChangePriority(t: Task, p: nat) returns (yieldRequired: bool)
      modifies this`priorities, this`lists, this`topReadyPriority
      ensures (View(), yieldRequired) == PriorityChange(old(View()), t, p)
    {
      hide RemoveItem, AddEnd, SetVal;
      var newPriority := if p >= MAX_PRIORITIES then MAX_PRIORITIES - 1 else p;
      var priorityUsedOnEntry := PriorityOf(t);
      yieldRequired := false;
      if priorityUsedOnEntry != newPriority {
        yieldRequired := if newPriority > priorityUsedOnEntry then t != current && newPriority > PriorityOf(current)
          else t == current;
        SameBox(lists, EventItem(t), MAX_PRIORITIES - newPriority);
        priorities := priorities[t := newPriority];
        lists := SetVal(lists, EventItem(t), MAX_PRIORITIES - newPriority);
        if StateItem(t) in lists.box && lists.box[StateItem(t)] == Ready(priorityUsedOnEntry) {
          lists := RemoveItem(lists, StateItem(t));
          AddTaskToReadyList(t);
        }
      }
    }

    /** vTaskPrioritySet */
    method PrioritySet(t: Task, p: nat, ghost idle: Task)
      requires Shaped(View()) && OnReady(Home(lists, idle)) && t in priorities
      modifies this
      ensures View() == Kernel.PrioritySet(old(View()), t, p)
    {
      hide Sound, TaskOk, Home, EventHome, Kernel.SwitchContext, PriorityChange, OrderKept;
      PriorityChangeShaped(View(), t, p);
      var yieldRequired := ChangePriority(t, p);
      if yieldRequired {
        CanSwitch(idle);
        SwitchContext();
      }
    }

    static lemma SameBox(s: Store, i: Item, v: nat)
      ensures SetVal(s, i, v).box == s.box
    {}

    // prvInitialiseNewTask, as far as scheduling goes
    method InitialiseNewTask(t: Task, priority: nat)
      requires priority < MAX_PRIORITIES
      modifies this`priorities, this`lists, this`notifyStates, this`notifiedValues
      ensures View() == var c := old(View());
                        c.(prio := c.prio[t := priority], notify := c.notify[t := NotWaiting], value := c.value[t := 0],
                           ls := SetVal(c.ls, EventItem(t), MAX_PRIORITIES - priority))
    {
      hide SetVal;
      priorities := priorities[t := priority];
      lists := SetVal(lists, EventItem(t), MAX_PRIORITIES - priority);
      notifyStates := notifyStates[t := NotWaiting];
      notifiedValues := notifiedValues[t := 0];
    }

    // xTaskCreate's part: the task is initialised, and added to its ready list by
    // prvAddNewTaskToReadyList's critical section.
    method CreateTask(t: Task, p: nat)
      modifies this
      ensures View() == Kernel.CreateTask(old(View()), t, p)
    {
      hide AddReady, SetVal;
      InitialiseNewTask(t, if p >= MAX_PRIORITIES then MAX_PRIORITIES - 1 else p);
      numberOfTasks := numberOfTasks + 1;
      AddTaskToReadyList(t);
    }

    /* ----- time-outs ----- */

    /** xTaskCheckForTimeOut */
    method CheckForTimeOut(timeOut: TimeOut, ticksToWait: nat)
      returns (expired: bool, timeOut': TimeOut, ticksToWait': nat)
      ensures (expired, timeOut', ticksToWait') == Kernel.CheckForTimeOut(View(), timeOut, ticksToWait)
    {
      var elapsedTime := Sub32(tickCount, timeOut.entered);
      timeOut', ticksToWait' := timeOut, ticksToWait;
      if ticksToWait == MAX_DELAY {
        expired := false;
      } else if numOfOverflows % TWO_32 != timeOut.overflowCount && tickCount >= timeOut.entered {
        expired := true;
        ticksToWait' := 0;
      } else if elapsedTime < ticksToWait {
        ticksToWait' := ticksToWait - elapsedTime;
        timeOut' := TimeOut(numOfOverflows % TWO_32, tickCount);
        expired := false;
      } else {
        ticksToWait' := 0;
        expired := true;
      }
    }

    /** xTaskDelayUntil, between suspending and resuming the scheduler */
    method DelayUntil(previousWakeTime: nat, timeIncrement: nat) returns (shouldDelay: bool, previousWakeTime': nat)
      modifies this`lists, this`nextTaskUnblockTime
      ensures (shouldDelay, previousWakeTime') == Kernel.DelayUntil(old(tickCount), previousWakeTime, timeIncrement)
      ensures View() == if shouldDelay then DelayCurrent(old(View()), Sub32(previousWakeTime', old(tickCount)),
                                                         false) else old(View())
    {
      hide DelayCurrent;
      var constTickCount := tickCount;
      var timeToWake := Add32(previousWakeTime, timeIncrement);
      shouldDelay := false;
      if constTickCount < previousWakeTime {
        if timeToWake < previousWakeTime && timeToWake > constTickCount {
          shouldDelay := true;
        }
      } else {
        if timeToWake < previousWakeTime || timeToWake > constTickCount {
          shouldDelay := true;
        }
      }
      previousWakeTime' := timeToWake;
      if shouldDelay {
        AddCurrentTaskToDelayedList(Sub32(timeToWake, constTickCount), false);
      }
    }

    /* ----- queue.c ----- */

    // prvLockQueue
    method LockQueue(q: QueueId)
      requires q in queues
      modifies this`queues
      ensures View() == Queues.LockQueue(old(View()), q)
    {
      if queues[q].rxLock == UNLOCKED {
        queues := queues[q := queues[q].(rxLock := 0)];
      }
      if queues[q].txLock == UNLOCKED {
        queues := queues[q := queues[q].(txLock := 0)];
      }
    }

    /** Either critical section of prvUnlockQueue: the deferred wake-ups of one side are made good. */
    method UnlockSide(q: QueueId, s: Side)
      requires q in queues
      modifies this
      ensures View() == Queues.UnlockSide(old(View()), q, s)
    {
      hide IsEmpty, Kernel.RemoveFromEventList;
      ghost var c, n := View(), LockOf(queues[q], s);
      var lock := LockOf(queues[q], s);
      var more := true;
      while more && lock > 0
        invariant queues == c.queues
        invariant lock > 0 ==> n == LockOf(queues[q], s) && 0 < lock <= n
        invariant WakeMany(c, Wait(q, s), if n > 0 then n else 0) ==
                  if more && lock > 0 then WakeMany(View(), Wait(q, s), lock) else View()
        decreases more, lock
      {
        if !IsEmpty(lists, Wait(q, s)) {
          RemoveFromEventListFrame(View(), Wait(q, s));
          var higherPriority := RemoveFromEventList(Wait(q, s));
          if higherPriority {
            yieldPending := true;   // vTaskMissedYield
          }
          lock := lock - 1;
        } else {
          more := false;
        }
      }
      queues := queues[q := SetLock(queues[q], s, UNLOCKED)];
    }

    // The waking half of a send or receive: the event list's head, if any, and a yield if it is due.
    method WakeAndYield(l: ListId, ghost idle: Task)
      requires Shaped(View()) && OnReady(Home(lists, idle)) && l.Wait?
      modifies this
      ensures View() == YieldIf(WakeOne(old(View()), l))
    {
      hide Shaped, Home, IsEmpty, Kernel.RemoveFromEventList, Kernel.SwitchContext, Wakes;
      if !IsEmpty(lists, l) {
        ghost var c := View();
        RemoveFromEventListWakes(c, l);
        WakesShaped(c, Kernel.RemoveFromEventList(c, l).0);
        ReadyStays(c, Kernel.RemoveFromEventList(c, l).0, idle);
        var higherPriority := RemoveFromEventList(l);
        if higherPriority {
          CanSwitch(idle);
          SwitchContext();
        }
      }
    }

    /** The critical section at the head of xQueueReceive: whether an item was received. */
    method TryReceive(q: QueueId, ghost idle: Task) returns (received: bool)
      requires Shaped(View()) && OnReady(Home(lists, idle)) && q in queues
      modifies this
      ensures received == (old(queues)[q].count > 0)
      ensures View() == if received then ReceiveNow(old(View()), q) else old(View())
    {
      hide Shaped, Home, WakeOne, YieldIf;
      received := queues[q].count > 0;
      if received {
        SetQueueShaped(View(), q, queues[q].(count := queues[q].count - 1));
        queues := queues[q := queues[q].(count := queues[q].count - 1)];
        WakeAndYield(Wait(q, Side.Send), idle);
      }
    }

    /** The critical section at the head of xQueueGenericSend: whether there was room. */
    method TrySend(q: QueueId, pos: Position, ghost idle: Task) returns (sent: bool)
      requires Shaped(View()) && OnReady(Home(lists, idle)) && q in queues
      modifies this
      ensures sent == HasRoom(old(queues)[q], pos)
      ensures View() == if sent then SendNow(old(View()), q, pos) else old(View())
    {
      hide Shaped, Home, WakeOne, YieldIf, CountAfterCopy;
      sent := queues[q].count < queues[q].length || pos.Overwrite?;
      if sent {
        SetQueueShaped(View(), q, queues[q].(count := CountAfterCopy(queues[q], pos)));
        queues := queues[q := queues[q].(count := CountAfterCopy(queues[q], pos))];
        WakeAndYield(Wait(q, Recv), idle);
      }
    }

    static lemma SetQueueShaped(c: Core, q: QueueId, d: Queue)
      requires Shaped(c)
      ensures Shaped(SetQueue(c, q, d)) && SetQueue(c, q, d).ls == c.ls
    {
      hide Shaped;
      SameButYield(c, SetQueue(c, q, d));
    }

    // Wake a waiter, or count the wake-up if the queue is locked.
    method WakeOrCount(q: QueueId, s: Side)
      requires q in queues
      modifies this
      ensures View() == Queues.WakeOrCount(old(View()), q, s)
    {
      hide IsEmpty, Kernel.RemoveFromEventList;
      var lock := LockOf(queues[q], s);
      if lock == UNLOCKED {
        if !IsEmpty(lists, Wait(q, s)) {
          var _ := RemoveFromEventList(Wait(q, s));
        }
      } else if lock < numberOfTasks {
        queues := queues[q := SetLock(queues[q], s, lock + 1)];
      }
    }

    /** xQueueGenericSendFromISR, and with items of size zero xQueueGiveFromISR */
    method SendFromISR(q: QueueId, pos: Position) returns (sent: bool)
      requires q in queues
      modifies this
      ensures sent == HasRoom(old(queues)[q], pos) && View() == Queues.SendFromISR(old(View()), q, pos)
    {
      hide Queues.WakeOrCount, CountAfterCopy;
      sent := queues[q].count < queues[q].length || pos.Overwrite?;
      if sent {
        queues := queues[q := queues[q].(count := CountAfterCopy(queues[q], pos))];
        WakeOrCount(q, Recv);
      }
    }

    /** xQueueReceiveFromISR */
    method ReceiveFromISR(q: QueueId) returns (received: bool)
      requires q in queues
      modifies this
      ensures received == (old(queues)[q].count > 0) && View() == Queues.ReceiveFromISR(old(View()), q)
    {
      hide Queues.WakeOrCount;
      received := queues[q].count > 0;
      if received {
        queues := queues[q := queues[q].(count := queues[q].count - 1)];
        WakeOrCount(q, Side.Send);
      }
    }
  }
}

/** The order in which waiting tasks are woken: by priority, and among equals by arrival. */
module Ordering {
  import opened Config
  import opened Lists
  import opened Kernel
  import opened Queues
  import opened Shape
  import opened Clock
  import opened Priority
  import opened Machine
  import opened Invariant
  import opened CoreSteps
  import opened Steps
  import opened Blocking
  import opened Boot
  import opened Runs
  import opened Timeline
  import opened Theorems

  // Event items carry the complement of their tasks' priorities.
  ghost predicate ValuesOk(c: Core) {
    forall t :: t in c.prio ==> Val(c.ls, EventItem(t)) == MAX_PRIORITIES - Prio(c, t)
  }

  // Every queue event list has its tasks in descending order of priority.
  ghost predicate ByPriority(c: Core) {
    forall l: ListId, t, u :: l.Wait? && Before(c, l, t, u) ==> Prio(c, t) >= Prio(c, u)
  }

  // Task t comes before task u on event list l.
  ghost predicate Before(c: Core, l: ListId, t: Task, u: Task) { Precedes(c.ls, l, EventItem(t), EventItem(u)) }

  ghost predicate Listed(c: Core, t: Task, l: ListId) { EventHome(c.ls, t) == On(l) }

  lemma BeforeListed(c: Core, l: ListId, t: Task, u: Task)
    requires Valid(c.ls) && Before(c, l, t, u)
    ensures Listed(c, t, l) && Listed(c, u, l) && t != u && !Before(c, l, u, t)
  {
    PrecedesOn(c.ls, l, EventItem(t), EventItem(u));
  }

  lemma OneBefore(c: Core, l: ListId, t: Task, u: Task)
    requires Valid(c.ls) && Listed(c, t, l) && Listed(c, u, l) && t != u
    ensures Before(c, l, t, u) || Before(c, l, u, t)
  {
    var items := ListOf(c.ls, l).items;
    assert In(c.ls, EventItem(t), l) && In(c.ls, EventItem(u), l);
    assert EventItem(t) in items && EventItem(u) in items;
    var a :| 0 <= a < |items| && items[a] == EventItem(t);
    var b :| 0 <= b < |items| && items[b] == EventItem(u);
  }

  /* ----- what a step may do to the order ----- */

  /* Two tasks are in a new order only because one of them has just joined the list: it goes
     after all of at least its priority, and before the rest.  Waiting tasks keep their priorities. */
  ghost predicate OrderStep(c: Core, c': Core) {
    && (forall l: ListId, t :: l.Wait? && Listed(c', t, l) ==> Prio(c', t) == Prio(c, t))
    && (forall l: ListId, t, u :: l.Wait? && Before(c', l, t, u) ==>
          || Before(c, l, t, u)
          || (!Listed(c, u, l) && Prio(c, t) >= Prio(c, u))
          || (!Listed(c, t, l) && Prio(c, t) > Prio(c, u)))
  }

  lemma OrderKeeps(c: Core, c': Core)
    requires ByPriority(c) && OrderStep(c, c') && Valid(c'.ls)
    ensures ByPriority(c')
  {
    hide Before, Valid, Listed, Prio;
    forall l: ListId, t, u | l.Wait? && Before(c', l, t, u) ensures Prio(c', t) >= Prio(c', u) {
      BeforeListed(c', l, t, u);
    }
  }

  /* The fact that a whole run keeps about two tasks, t waiting throughout: u is not waiting with
     it, or has a higher priority, or comes after it. */
  ghost predicate After(c: Core, l: ListId, t: Task, u: Task) {
    !Listed(c, u, l) || Prio(c, u) > Prio(c, t) || Before(c, l, t, u)
  }

  lemma AfterKept(c: Core, c': Core, l: ListId, t: Task, u: Task)
    requires OrderStep(c, c') && Valid(c.ls) && Valid(c'.ls) && t != u && l.Wait?
    requires Listed(c, t, l) && Listed(c', t, l) && After(c, l, t, u)
    ensures After(c', l, t, u)
  {
    hide Before, Valid, EventHome, Prio;
    if Listed(c', u, l) && !Before(c', l, t, u) {
      OneBefore(c', l, t, u);
      assert Before(c', l, u, t);
      if Before(c, l, u, t) { BeforeListed(c, l, u, t); }
    }
  }

  /* ----- the operations ----- */

  ghost predicate InOrder(c: Core, c': Core) { OrderStep(c, c') && ValuesOk(c') }

  lemma KeptInOrder(c: Core, c': Core)
    requires ValuesOk(c) && OrderKept(c.ls, c'.ls) && c'.prio == c.prio && c'.ls.val == c.ls.val
    ensures InOrder(c, c')
  {
    hide Precedes, EventHome;
    ValSame(c.ls, c'.ls);
  }

  lemma WakesInOrder(c: Core, c': Core)
    requires ValuesOk(c) && Wakes(c, c')
    ensures InOrder(c, c')
  {
    hide Sound, Home, EventHome, OrderKept, KeptOrWoken, InOrder, ValuesOk;
    KeptInOrder(c, c');
  }

  lemma StillInOrder(c: Core, c': Core)
    requires ValuesOk(c) && c'.ls == c.ls && c'.prio == c.prio
    ensures InOrder(c, c')
  {
    hide Precedes, InOrder, ValuesOk;
    KeptInOrder(c, c');
  }

  lemma SuspendInOrder(c: Core, t: Task)
    requires ValuesOk(c) && Shaped(c) && t in c.prio
    ensures InOrder(c, SuspendTask(c, t))
  {
    hide Sound, TaskOk, Home, EventHome, RemoveItem, AddEnd, OrderKept, ValuesOk, InOrder;
    InPrio(c, t);
    SuspendTaskFacts(c, t);
    KeptInOrder(c, SuspendTask(c, t));
  }

  // Blocking moves a state item only: the event lists stay.
  lemma DelayKeepsWaits(c: Core, n: nat, forever: bool, l: ListId)
    requires Sound(c.ls) && Home(c.ls, c.cur).On? && l.Wait?
    ensures ListOf(DelayCurrent(c, n, forever).ls, l) == ListOf(c.ls, l)
  {
    hide Valid, RemoveItem, AddEnd, AddSorted, ListOf, Home, EventHome, Add32, SetVal, OrderKept, Puts;
    StateAt(c.ls, c.cur);
    RemoveFacts(c.ls, StateItem(c.cur));
    var s1 := RemoveItem(c.ls, StateItem(c.cur));
    UnlinkFacts(c.ls, c.cur);
    StateAt(s1, c.cur);
    if n == MAX_DELAY && forever {
      AddEndFacts(s1, Suspended, StateItem(c.cur));
    } else {
      var v := Add32(c.tick, n);
      SetValFacts(s1, StateItem(c.cur), v);
      AddSortedFacts(SetVal(s1, StateItem(c.cur), v), DelayTarget(c, n, forever), StateItem(c.cur));
    }
  }

  lemma DelayInOrder(c: Core, n: nat, forever: bool)
    requires ValuesOk(c) && Sound(c.ls) && Home(c.ls, c.cur).On?
    ensures InOrder(c, DelayCurrent(c, n, forever))
  {
    hide Sound, Home, EventHome, DelayCurrent, Precedes, ListOf;
    var c' := DelayCurrent(c, n, forever);
    DelayCurrentFrame(c, n, forever);
    DelayCurrentFacts(c, n, forever);
    forall l: ListId, t, u | l.Wait? && Before(c', l, t, u) ensures Before(c, l, t, u) {
      DelayKeepsWaits(c, n, forever, l);
      OrderSame(c.ls, c'.ls, l, EventItem(t), EventItem(u));
    }
    EventValues(c, c', DelayTarget(c, n, forever).Suspended?, Add32(c.tick, n));
  }

  lemma EventValues(c: Core, c': Core, same: bool, v: nat)
    requires c'.ls.val == if same then c.ls.val else c.ls.val[StateItem(c.cur) := v]
    ensures forall t :: Val(c'.ls, EventItem(t)) == Val(c.ls, EventItem(t))
  {}

  lemma EnlistInOrder(c: Core, l: ListId)
    requires ValuesOk(c) && ByPriority(c) && Shaped(c) && EventHome(c.ls, c.cur).Nowhere? && l.Wait?
    ensures InOrder(c, Enlist(c, l))
  {
    hide Shaped, Home, EventHome, AddSorted, Before, Listed, ByPriority, Val;
    var c' := Enlist(c, l);
    AddSortedVal(c.ls, l, EventItem(c.cur));
    forall k: ListId, t, u | k.Wait? && Before(c', k, t, u)
      ensures Before(c, k, t, u) || (!Listed(c, u, k) && Prio(c, t) >= Prio(c, u))
           || (!Listed(c, t, k) && Prio(c, t) > Prio(c, u))
    {
      EnlistPair(c, l, k, t, u);
    }
  }

  lemma EnlistPair(c: Core, l: ListId, l': ListId, t: Task, u: Task)
    requires ValuesOk(c) && ByPriority(c) && Shaped(c) && EventHome(c.ls, c.cur).Nowhere? && l.Wait? && l'.Wait?
    requires Before(Enlist(c, l), l', t, u)
    ensures Before(c, l', t, u) || (!Listed(c, u, l') && Prio(c, t) >= Prio(c, u))
            || (!Listed(c, t, l') && Prio(c, t) > Prio(c, u))
  {
    hide Home, EventHome, Precedes, AddSorted, TaskOk, ListOf, ByPriority, Val, Valid, Ordered, ValuesFit;
    ShapedSound(c);
    EventAt(c.ls, c.cur);
    if l' != l {
      AddSortedFacts(c.ls, l, EventItem(c.cur));
      OrderSame(c.ls, Enlist(c, l).ls, l', EventItem(t), EventItem(u));
    } else {
      WaitOrdered(c, l);
      AddSortedOrder(c.ls, l, EventItem(c.cur), EventItem(t), EventItem(u));
      EventAt(c.ls, t);
      EventAt(c.ls, u);
      InPrio(c, t);
      InPrio(c, u);
    }
  }

  // A list in descending order of priority is in ascending order of item values.
  lemma WaitOrdered(c: Core, l: ListId)
    requires ValuesOk(c) && ByPriority(c) && Shaped(c) && l.Wait?
    ensures Ordered(c.ls, l) && ValuesFit(c.ls, l)
  {
    hide Valid, Home, EventHome, Precedes, ListOf, Val, TaskOk;
    forall i, j | Precedes(c.ls, l, i, j) ensures Val(c.ls, i) <= Val(c.ls, j) {
      PrecedesOn(c.ls, l, i, j);
      WaitItem(c, l, i);
      WaitItem(c, l, j);
      assert Before(c, Wait(l.q, l.s), i.t, j.t);
    }
    forall i | At(c.ls, i) == On(l) ensures Val(c.ls, i) <= MAX_DELAY { WaitItem(c, l, i); }
  }

  lemma WaitItem(c: Core, l: ListId, i: Item)
    requires Shaped(c) && l.Wait? && At(c.ls, i) == On(l)
    ensures i.EventItem? && i.t in c.prio
  {
    assert HomeOk(Home(c.ls, i.t)) && EventHomeOk(EventHome(c.ls, i.t));
    InPrio(c, i.t);
  }

  lemma PlaceInOrder(c: Core, l: ListId, n: nat)
    requires ValuesOk(c) && ByPriority(c) && Shaped(c) && EventHome(c.ls, c.cur).Nowhere? && l.Wait?
    requires Home(c.ls, c.cur).On?
    ensures InOrder(c, PlaceOnEventList(c, l, n))
  {
    hide Sound, Home, EventHome, DelayCurrent, AddSorted, TaskOk, Before, Listed, ByPriority, Prio;
    ShapedSound(c);
    EnlistInOrder(c, l);
    EnlistFacts(c, l);
    DelayInOrder(Enlist(c, l), n, true);
    DelayBefore(Enlist(c, l), n, true);
    ThenQuiet(c, Enlist(c, l), PlaceOnEventList(c, l, n));
  }

  lemma ThenQuiet(c: Core, c1: Core, c': Core)
    requires OrderStep(c, c1) && c'.prio == c1.prio
    requires forall l: ListId, t, u :: l.Wait? && Before(c', l, t, u) ==> Before(c1, l, t, u)
    requires forall l: ListId, t :: l.Wait? && Listed(c', t, l) ==> Listed(c1, t, l)
    ensures OrderStep(c, c')
  {
    hide Before, Listed;
  }

  // A block alone brings no new order at all.
  lemma DelayBefore(c: Core, n: nat, forever: bool)
    requires Sound(c.ls) && Home(c.ls, c.cur).On?
    ensures forall l: ListId, t, u :: l.Wait? && Before(DelayCurrent(c, n, forever), l, t, u) ==> Before(c, l, t, u)
    ensures forall l: ListId, t :: l.Wait? && Listed(DelayCurrent(c, n, forever), t, l) ==> Listed(c, t, l)
    ensures DelayCurrent(c, n, forever).prio == c.prio
  {
    hide Sound, Home, EventHome, DelayCurrent, Precedes, ListOf;
    var c' := DelayCurrent(c, n, forever);
    DelayCurrentFrame(c, n, forever);
    DelayCurrentFacts(c, n, forever);
    forall l: ListId, t, u | l.Wait? && Before(c', l, t, u) ensures Before(c, l, t, u) {
      DelayKeepsWaits(c, n, forever, l);
      OrderSame(c.ls, c'.ls, l, EventItem(t), EventItem(u));
    }
  }

  lemma CreateInOrder(c: Core, t: Task, p: nat)
    requires ValuesOk(c) && Shaped(c) && t !in c.prio
    ensures InOrder(c, CreateTask(c, t, p))
  {
    hide Sound, TaskOk, Home, EventHome, Precedes, CreateTask, Prio, Val, Shaped;
    CreateTaskShaped(c, t, p);
    CreateFrame(c, t, p);
    var c' := CreateTask(c, t, p);
    CreateEventVal(c, t, p);
    forall l: ListId, u | l.Wait? && Listed(c', u, l) ensures Prio(c', u) == Prio(c, u) { InPrio(c, u); }
    forall l: ListId, u, v | l.Wait? && Before(c', l, u, v) ensures Before(c, l, u, v) {}
    assert ValuesOk(c');
  }

  lemma CreateEventVal(c: Core, t: Task, p: nat)
    ensures forall u :: Val(CreateTask(c, t, p).ls, EventItem(u)) ==
                        if u == t then MAX_PRIORITIES - Prio(CreateTask(c, t, p), t) else Val(c.ls, EventItem(u))
  {}

  // Changing the priority of a task that is not waiting on a queue.
  lemma PriorityInOrder(c: Core, t: Task, p: nat)
    requires ValuesOk(c) && Shaped(c) && t in c.prio && !OnWait(EventHome(c.ls, t))
    ensures InOrder(c, PriorityChange(c, t, p).0)
  {
    hide Sound, TaskOk, Home, EventHome, Precedes, PriorityChange, Prio, Val;
    var c' := PriorityChange(c, t, p).0;
    PriorityChangeShaped(c, t, p);
    PriorityChangeFrame(c, t, p);
    PriorityChangeSame(c, t, p);
    PriorityEventVal(c, t, p);
    assert ValuesOk(c');
    forall l: ListId, u | l.Wait? && Listed(c', u, l) ensures Prio(c', u) == Prio(c, u) {}
    forall l: ListId, u, v | l.Wait? && Before(c', l, u, v) ensures Before(c, l, u, v) {}
    assert OrderStep(c, c');
  }

  lemma PriorityEventVal(c: Core, t: Task, p: nat)
    ensures var c' := PriorityChange(c, t, p).0;
            forall u :: Val(c'.ls, EventItem(u)) ==
              if u == t && Prio(c', t) != Prio(c, t) then MAX_PRIORITIES - Prio(c', t) else Val(c.ls, EventItem(u))
  {
    hide MakeReady;
    var to := if p >= MAX_PRIORITIES then MAX_PRIORITIES - 1 else p;
    var c1 := c.(prio := c.prio[t := to], ls := SetVal(c.ls, EventItem(t), MAX_PRIORITIES - to));
    MakeReadyFrame(c1, t);
    MakeReadyVal(c1, t);
  }

  lemma PrioritySetInOrder(c: Core, t: Task, p: nat, idle: Task)
    requires ValuesOk(c) && CoreOk(c, idle) && t in c.prio && !OnWait(EventHome(c.ls, t))
    ensures InOrder(c, PrioritySet(c, t, p))
  {
    hide Sound, TaskOk, Home, EventHome, Clocked, Precedes, PriorityChange, SwitchContext, Prio, Val;
    PriorityInOrder(c, t, p);
    PriorityCore(c, t, p, idle);
    var (c1, y) := PriorityChange(c, t, p);
    if y {
      SwitchSmooth(c1, idle);
      SwitchContextFacts(c1);
      WakesInOrder(c1, SwitchContext(c1));
      ThenQuiet(c, c1, SwitchContext(c1));
    }
  }

  /* ----- every step ----- */

  ghost predicate OrderOk(c: Core) { ValuesOk(c) && ByPriority(c) }

  // The step does not change the priority of a task waiting on a queue.
  ghost predicate LeavesWaiters(m: Machine, s: Step) { s.CallPrioritySet? ==> !OnWait(EventHome(m.c.ls, s.t)) }

  lemma HeadInOrder(m: Machine, p: Pc)
    requires Inv(m) && ValuesOk(m.c) && PcOf(m, m.c.cur) == p && p.InQueue? && p.q in m.c.queues
    ensures InOrder(m.c, QueueTop(m, p).c)
  {
    hide EventHome, Home, PcOk, PriorityOk, QueuesOk, Clocked, Shaped, Wakes, ValuesOk, OrderStep, Attempt, CanGo;
    StillInOrder(m.c, m.c);
    if CanGo(QueueOf(m.c, p.q), p.op) {
      AttemptSmooth(m.c, p.q, p.op, m.idle);
      WakesInOrder(m.c, Attempt(m.c, p.q, p.op));
    }
  }

  lemma QueueInOrder(m: Machine, p: Pc)
    requires Inv(m) && OrderOk(m.c) && PcOf(m, m.c.cur) == p && p.InQueue?
    ensures Sound(m.c.ls) && (p.at.ToResume? ==> m.c.suspended > 0)
    ensures InOrder(m.c, QueueStep(m, p).c)
  {
    hide EventHome, Home, PriorityOk, QueuesOk, Clocked, Shaped, Sound, Wakes, InOrder, ValuesOk, ByPriority,
         QueueTop, QueueOf, UnlockSide, PlaceOnEventList, CheckForTimeOut, MustBlock, ResumeAll, TaskOk;
    CoreShaped(m.c, m.idle);
    assert TaskPcOk(m, m.c.cur);
    var c := m.c;
    StillInOrder(c, c);
    StillInOrder(c, SuspendAll(c));
    StillInOrder(c, LockQueue(c, p.q));
    match p.at
    case AtTop => HeadInOrder(m, p);
    case ToPlace => PlaceInOrder(c, Wait(p.q, SideOf(p.op)), p.wait);
    case ToUnlockTx(a) =>
      UnlockSmooth(c, p.q, Recv);
      WakesInOrder(c, UnlockSide(c, p.q, Recv));
    case ToUnlockRx(a) =>
      UnlockSmooth(c, p.q, Side.Send);
      WakesInOrder(c, UnlockSide(c, p.q, Side.Send));
    case ToResume(a) =>
      ResumeAllWakes(c);
      WakesInOrder(c, ResumeAll(c).0);
    case _ =>
  }

  lemma DelayStepInOrder(m: Machine, p: Pc)
    requires Inv(m) && ValuesOk(m.c) && PcOf(m, m.c.cur) == p && p.InDelay?
    ensures Sound(m.c.ls) && (p.dAt.DResume? ==> m.c.suspended > 0)
    ensures InOrder(m.c, DelayStep(m, p).c)
  {
    hide EventHome, Home, PriorityOk, QueuesOk, Clocked, Shaped, Sound, Wakes, InOrder, ValuesOk, DelayTicks,
         DelayCurrent, ResumeAll;
    CoreShaped(m.c, m.idle);
    assert TaskPcOk(m, m.c.cur);
    StillInOrder(m.c, m.c);
    StillInOrder(m.c, SuspendAll(m.c));
    ResumeInOrder(m.c);
    InPrio(m.c, m.c.cur);
    if p.dAt.DAdd? { DelayInOrder(m.c, DelayTicks(m.c, p.d), false); }
  }

  lemma ResumeInOrder(c: Core)
    requires Shaped(c) && ValuesOk(c) && Sound(c.ls)
    ensures c.suspended > 0 ==> InOrder(c, ResumeAll(c).0)
  {
    hide Shaped, Wakes, ValuesOk, InOrder, ResumeAll, Sound;
    if c.suspended > 0 {
      ResumeAllWakes(c);
      WakesInOrder(c, ResumeAll(c).0);
    }
  }

  lemma NotifyStepInOrder(m: Machine, p: Pc)
    requires Inv(m) && ValuesOk(m.c) && PcOf(m, m.c.cur) == p && p.InNotify?
    ensures Sound(m.c.ls) && (p.nAt.NResume? ==> m.c.suspended > 0)
    ensures InOrder(m.c, NotifyStep(m, p).c)
  {
    hide EventHome, Home, PriorityOk, QueuesOk, Clocked, Shaped, Sound, Wakes, InOrder, ValuesOk, DelayCurrent,
         ResumeAll, MarkWaiting, Consume, NothingYet;
    CoreShaped(m.c, m.idle);
    assert TaskPcOk(m, m.c.cur);
    HasRecord(m.c);
    MarkFrame(m.c, p.k);
    ConsumeFrame(m.c, p.k);
    StillInOrder(m.c, m.c);
    StillInOrder(m.c, SuspendAll(m.c));
    StillInOrder(m.c, MarkWaiting(m.c, p.k));
    StillInOrder(m.c, Consume(m.c, p.k));
    ResumeInOrder(m.c);
    InPrio(m.c, m.c.cur);
    if p.nAt.NAdd? { DelayInOrder(m.c, p.nWait, true); }
  }

  lemma GoInOrder(m: Machine)
    requires Inv(m) && Enabled(m, Continue) && OrderOk(m.c)
    ensures Sound(m.c.ls) && CanResume(m) && InOrder(m.c, Go(m).c)
  {
    hide EventHome, Home, QueuesOk, Clocked, Shaped, Sound, InOrder, ValuesOk, ByPriority, QueueStep, DelayStep,
         NotifyStep, SwitchContext, ResetNext, CurOk, HighOk, TaskPcOk, Wakes;
    CoreShaped(m.c, m.idle);
    Runs.Ready(m);
    var p := PcOf(m, m.c.cur);
    match p
    case Yielding(next) =>
      SwitchSmooth(m.c, m.idle);
      WakesInOrder(m.c, SwitchContext(m.c));
    case InQueue(_, _, _, _, _, _) => QueueInOrder(m, p);
    case InDelay(d, at) => DelayStepInOrder(m, p);
    case InNotify(_, _, _, _) => NotifyStepInOrder(m, p);
    case InSuspend(t) =>
      ResetNextFrame(m.c);
      StillInOrder(m.c, ResetNext(m.c));
    case InCreate(t) =>
      CreatedYield(m.c, t, m.idle);
      WakesInOrder(m.c, YieldTo(m.c, t));
  }

  lemma TaskOpInOrder(c: Core, s: Step, idle: Task)
    requires CoreOk(c, idle) && ValuesOk(c) && OnTask(s) && !s.CallNotifyOther?
    requires (if s.CallCreate? then s.t !in c.prio else s.t in c.prio)
    requires s.CallPrioritySet? ==> !OnWait(EventHome(c.ls, s.t))
    ensures InOrder(c, TaskOp(c, s))
  {
    hide EventHome, Home, Clocked, Shaped, InOrder, ValuesOk, Wakes, SuspendTask, ResumeTask, PrioritySet, CreateTask,
         Notify;
    match s
    case CallSuspend(t) => SuspendInOrder(c, t);
    case CallResume(t) =>
      ResumeTaskSmooth(c, t);
      WakesInOrder(c, ResumeTask(c, t));
    case CallPrioritySet(t, p) => PrioritySetInOrder(c, t, p, idle);
    case CallCreate(t, p) => CreateInOrder(c, t, p);
  }

  lemma NotifyInOrder(m: Machine, t: Task, a: NotifyAction)
    requires PcOk(m) && CoreOk(m.c, m.idle) && ValuesOk(m.c) && t in m.c.prio
    ensures InOrder(m.c, Notify(m.c, t, a)) && InOrder(m.c, NotifyFromISR(m.c, t, a))
  {
    hide EventHome, Home, Clocked, Shaped, CurOk, InOrder, ValuesOk, Wakes, Notify, NotifyFromISR, ParkedOn;
    assert TaskPcOk(m, t);
    NotifySmooth(m.c, t, a);
    NotifyFromISRSmooth(m.c, t, a);
    WakesInOrder(m.c, Notify(m.c, t, a));
    WakesInOrder(m.c, NotifyFromISR(m.c, t, a));
  }

  lemma CallInOrder(m: Machine, s: Step)
    requires Inv(m) && Enabled(m, s) && IsCall(s) && OrderOk(m.c) && LeavesWaiters(m, s) && Sound(m.c.ls)
    requires CanResume(m)
    ensures InOrder(m.c, Apply(m, s).c)
  {
    hide PriorityOk, QueuesOk, Shaped, Clocked, Home, EventHome, Sound, PcOk, InOrder, ValuesOk, ByPriority,
         CanResume, TaskOp, Apply, ResumeAll, Reset;
    if s.CallNotifyOther? {
      TaskOpApplies(m, s);
      NotifyInOrder(m, s.t, s.a);
      NotifyIsOp(m.c, s);
    } else if OnTask(s) {
      TaskOpApplies(m, s);
      TaskOpInOrder(m.c, s, m.idle);
    } else {
      OtherCallInOrder(m, s);
    }
  }

  lemma OtherCallInOrder(m: Machine, s: Step)
    requires Inv(m) && Enabled(m, s) && IsCall(s) && !OnTask(s) && ValuesOk(m.c) && Sound(m.c.ls) && CanResume(m)
    ensures InOrder(m.c, Apply(m, s).c)
  {
    hide EventHome, Home, PriorityOk, QueuesOk, Clocked, Shaped, Sound, PcOk, InOrder, ValuesOk, CanResume, ResumeAll,
         Reset, Wakes;
    CoreShaped(m.c, m.idle);
    var c := m.c;
    if s.CallResumeAll? {
      ResumeInOrder(c);
    } else if s.CallReset? {
      ResetSmooth(c, s.q, m.idle);
      WakesInOrder(c, Reset(c, s.q));
    } else {
      StillInOrder(c, Apply(m, s).c);
    }
  }

  lemma InterruptInOrder(m: Machine, s: Step)
    requires Inv(m) && Enabled(m, s) && !IsCall(s) && !s.Continue? && ValuesOk(m.c) && Sound(m.c.ls) && CanResume(m)
    ensures InOrder(m.c, Apply(m, s).c)
  {
    hide EventHome, Home, PriorityOk, QueuesOk, Clocked, Shaped, Sound, PcOk, InOrder, ValuesOk, IncrementTick,
         SwitchContext, NotifyFromISR, ResumeFromISR, CanResume, SendFromISR, ReceiveFromISR, Tick, Apply, Enabled;
    InterruptApplies(m, s);
    var c := m.c;
    match s
    case TickInterrupt => TickInOrder(m);
    case IsrSend(q, pos) => IsrInOrder(c, q, pos);
    case IsrReceive(q) => IsrInOrder(c, q, Back);
    case IsrNotify(t, a) => NotifyInOrder(m, t, a);
    case IsrResume(t) =>
      ResumeFromISRSmooth(c, t);
      WakesInOrder(c, ResumeFromISR(c, t));
    case Yield => YieldInOrder(c, m.idle);
  }

  lemma TickInOrder(m: Machine)
    requires Shaped(m.c) && ValuesOk(m.c) && Sound(m.c.ls)
    ensures InOrder(m.c, Tick(m).c)
  {
    hide Home, Shaped, Sound, InOrder, ValuesOk, Wakes, IncrementTick, SwitchContext;
    IncrementTickWakes(m.c);
    WakesThenSwitch(m.c, IncrementTick(m.c).0);
    WakesInOrder(m.c, Tick(m).c);
  }

  lemma YieldInOrder(c: Core, idle: Task)
    requires CoreOk(c, idle) && ValuesOk(c)
    ensures InOrder(c, SwitchContext(c))
  {
    hide Home, Clocked, Shaped, InOrder, ValuesOk, Wakes, SwitchContext;
    SwitchSmooth(c, idle);
    WakesInOrder(c, SwitchContext(c));
  }

  lemma IsrInOrder(c: Core, q: QueueId, pos: Position)
    requires Shaped(c) && ValuesOk(c) && q in c.queues
    ensures InOrder(c, SendFromISR(c, q, pos)) && InOrder(c, ReceiveFromISR(c, q))
  {
    hide Shaped, InOrder, ValuesOk, Wakes, WakeOrCount, SetQueue;
    var d := c.queues[q];
    StillInOrder(c, c);
    if HasRoom(d, pos) {
      WakeOrCountSmooth(c, q, d.(count := CountAfterCopy(d, pos)), Recv);
      WakesInOrder(c, SendFromISR(c, q, pos));
    }
    if d.count > 0 {
      WakeOrCountSmooth(c, q, d.(count := d.count - 1), Side.Send);
      WakesInOrder(c, ReceiveFromISR(c, q));
    }
  }

  /** Every step but a change of a waiter's priority keeps every event list in priority order,
      with the tasks already on it in the same order. */
  lemma StepInOrder(m: Machine, s: Step)
    requires Inv(m) && Enabled(m, s) && OrderOk(m.c) && LeavesWaiters(m, s)
    ensures Sound(m.c.ls) && CanResume(m) && OrderOk(Apply(m, s).c) && OrderStep(m.c, Apply(m, s).c)
  {
    hide Inv, Sound, CanResume, Enabled, ValuesOk, ByPriority, OrderStep, LeavesWaiters, Go, Apply;
    Runs.Ready(m);
    if IsCall(s) {
      CallInOrder(m, s);
    } else if s.Continue? {
      GoInOrder(m);
      GoIsContinue(m);
    } else {
      InterruptInOrder(m, s);
    }
    StepKeeps(m, s);
    InvValid(m);
    InvValid(Apply(m, s));
    OrderKeeps(m.c, Apply(m, s).c);
  }

  lemma InvValid(m: Machine)
    requires Inv(m)
    ensures Valid(m.c.ls)
  {
    hide Valid, TaskOk, PcOk, PriorityOk, QueuesOk, Home, EventHome, Clocked;
  }

  /* ----- whole runs ----- */

  // No step of the run changes the priority of a task while it waits on a queue.
  ghost predicate LeavesAll(m: Machine, ss: seq<Step>)
    requires Inv(m) && Possible(m, ss)
    decreases |ss|
  {
    ss == [] || (LeavesWaiters(m, ss[0]) && (StepKeeps(m, ss[0]); LeavesAll(Apply(m, ss[0]), ss[1..])))
  }

  // Task t is on event list l at the end of every part of the run.
  ghost predicate WaitsThrough(m: Machine, ss: seq<Step>, t: Task, l: ListId)
    requires Inv(m) && Possible(m, ss)
    decreases |ss|
  {
    Listed(m.c, t, l) && (ss == [] || (StepKeeps(m, ss[0]); WaitsThrough(Apply(m, ss[0]), ss[1..], t, l)))
  }

  lemma {:induction false} RunInOrder(m: Machine, ss: seq<Step>)
    requires Inv(m) && Possible(m, ss) && OrderOk(m.c) && LeavesAll(m, ss)
    ensures OrderOk(Exec(m, ss).c)
    decreases |ss|
  {
    hide Inv, Apply, Enabled, OrderOk, OrderStep, LeavesWaiters, Sound, CanResume;
    if ss != [] {
      StepKeeps(m, ss[0]);
      StepInOrder(m, ss[0]);
      RunInOrder(Apply(m, ss[0]), ss[1..]);
    }
  }

  lemma {:induction false} RunAfter(m: Machine, ss: seq<Step>, l: ListId, t: Task, u: Task)
    requires Inv(m) && Possible(m, ss) && OrderOk(m.c) && LeavesAll(m, ss) && l.Wait? && t != u
    requires WaitsThrough(m, ss, t, l) && After(m.c, l, t, u)
    ensures After(Exec(m, ss).c, l, t, u) && Listed(Exec(m, ss).c, t, l)
    decreases |ss|
  {
    hide Inv, Apply, Enabled, OrderOk, OrderStep, LeavesWaiters, Sound, CanResume, After, Listed, Valid;
    if ss != [] {
      StepKeeps(m, ss[0]);
      StepInOrder(m, ss[0]);
      var m' := Apply(m, ss[0]);
      InvValid(m);
      InvValid(m');
      StillThere(m', ss[1..], t, l);
      AfterKept(m.c, m'.c, l, t, u);
      RunAfter(m', ss[1..], l, t, u);
    }
  }

  lemma StillThere(m: Machine, ss: seq<Step>, t: Task, l: ListId)
    requires Inv(m) && Possible(m, ss) && WaitsThrough(m, ss, t, l)
    ensures Listed(m.c, t, l)
  {
    hide Inv, Listed, Possible;
  }

  lemma StartInOrder(ps: seq<nat>, qs: map<QueueId, Queue>)
    requires FreshQueues(qs)
    ensures OrderOk(Start(ps, qs).c)
  {
    hide AllReady, Created, Precedes, EventHome;
    CreatedReady(ps + [0]);
    CreatedValues(ps + [0]);
    NobodyWaits(Created(ps + [0]), |ps| + 1);
    var (c, c') := (Created(ps + [0]), Start(ps, qs).c);
    assert forall t :: Prio(c', t) == Prio(c, t) && Val(c'.ls, EventItem(t)) == Val(c.ls, EventItem(t));
    forall l: ListId, t, u | l.Wait? ensures !Before(c', l, t, u) { assert !Before(c, l, t, u); }
  }

  lemma NobodyWaits(c: Core, n: nat)
    requires AllReady(c, n)
    ensures forall l: ListId, t, u :: l.Wait? ==> !Before(c, l, t, u)
  {
    hide Home, EventHome, Before, TaskOk, Valid;
    forall l: ListId, t, u | l.Wait? ensures !Before(c, l, t, u) {
      if Before(c, l, t, u) { BeforeListed(c, l, t, u); }
    }
  }

  lemma {:induction false} CreatedValues(ps: seq<nat>)
    ensures ValuesOk(Created(ps))
  {
    hide CreateTask, Val;
    if ps != [] {
      CreatedValues(ps[..|ps| - 1]);
      var (c, t, p) := (Created(ps[..|ps| - 1]), |ps| - 1, ps[|ps| - 1]);
      CreateFrame(c, t, p);
      CreateEventVal(c, t, p);
    }
  }

  /** Wake order: in every run that changes no waiting task's priority, the task that the next
      wake-up takes off a queue's event list is one of highest priority there, and of those one
      that has waited longest: a task of its priority that was waiting all along since it came
      is not passed over. */
  lemma WakeOrder(m: Machine, ss: seq<Step>, l: ListId)
    requires Inv(m) && Possible(m, ss) && OrderOk(m.c) && LeavesAll(m, ss) && l.Wait? && !IsEmpty(Exec(m, ss).c.ls, l)
    ensures var (c, h) := (Exec(m, ss).c, Head(Exec(m, ss).c.ls, l));
            && h.EventItem? && Listed(c, h.t, l) && !Listed(WakeOne(c, l).0, h.t, l)
            && (forall u :: u != h.t ==> EventHome(WakeOne(c, l).0.ls, u) == EventHome(c.ls, u))
            && (forall u :: Listed(c, u, l) ==> Prio(c, u) <= Prio(c, h.t))
            && (forall t :: WaitsThrough(m, ss, t, l) && Prio(c, t) == Prio(c, h.t) ==> Listed(m.c, h.t, l))
  {
    hide Inv, Apply, Enabled, OrderStep, LeavesAll, Before, WaitsThrough, Possible, Sound, Valid, Exec, ValuesOk,
         IsEmpty, Head, Listed, WakeOne, Prio;
    var m' := Exec(m, ss);
    var c, h := m'.c, Head(m'.c.ls, l);
    RunInOrder(m, ss);
    HeadLeaves(m', l);
    forall u | Listed(c, u, l) ensures Prio(c, u) <= Prio(c, h.t) {
      if u != h.t { HeadBefore(m', l, u); }
    }
    forall t | WaitsThrough(m, ss, t, l) && Prio(c, t) == Prio(c, h.t) ensures Listed(m.c, h.t, l) {
      if !Listed(m.c, h.t, l) {
        StillThere(m, ss, t, l);
        RunAfter(m, ss, l, t, h.t);
        HeadBefore(m', l, t);
        InvValid(m');
        BeforeListed(c, l, h.t, t);
      }
    }
  }

  lemma HeadLeaves(m: Machine, l: ListId)
    requires Inv(m) && l.Wait? && !IsEmpty(m.c.ls, l)
    ensures var h := Head(m.c.ls, l);
            && h.EventItem? && Listed(m.c, h.t, l) && !Listed(WakeOne(m.c, l).0, h.t, l)
            && (forall u :: u != h.t ==> EventHome(WakeOne(m.c, l).0.ls, u) == EventHome(m.c.ls, u))
  {
    hide PcOk, PriorityOk, QueuesOk, Clocked, TaskOk, Sound, Home, EventHome, RemoveFromEventList, IsEmpty, Head,
         OrderKept;
    RemoveFromEventListFacts(m.c, l);
  }

  lemma HeadBefore(m: Machine, l: ListId, u: Task)
    requires Inv(m) && l.Wait? && !IsEmpty(m.c.ls, l) && Listed(m.c, u, l) && u != Head(m.c.ls, l).t
    ensures Before(m.c, l, Head(m.c.ls, l).t, u)
  {
    hide IsEmpty, Head, Home, EventHome, Precedes, Clocked, PcOk, PriorityOk, QueuesOk, TaskOk, Valid;
    var h := Head(m.c.ls, l);
    HeadFacts(m.c.ls, l);
    EventHead(m.c.ls, l);
    EventAt(m.c.ls, u);
    assert EventItem(u) != h;
    assert Precedes(m.c.ls, l, h, EventItem(u));
  }

  /* ----- what a change of a waiter's priority does ----- */

  /** vTaskPrioritySet rewrites the item value of a waiting task where it stands.  Its list is
      still in order of priority exactly if the new priority fits between its neighbours'. */
  lemma PriorityKeepsOrder(c: Core, t: Task, p: nat, l: ListId)
    requires Shaped(c) && OrderOk(c) && t in c.prio && l.Wait? && Listed(c, t, l)
    ensures var c' := PriorityChange(c, t, p).0;
            ByPriority(c') <==> forall u :: (Before(c, l, u, t) ==> Prio(c, u) >= Prio(c', t))
                                            && (Before(c, l, t, u) ==> Prio(c', t) >= Prio(c, u))
  {
    hide Home, EventHome, Precedes, TaskOk, Valid, PriorityChange, OrderKept, Prio, ValuesOk;
    var c' := PriorityChange(c, t, p).0;
    PriorityChangeFrame(c, t, p);
    PriorityChangeShaped(c, t, p);
    SameWaits(c, t, p);
    if forall u :: (Before(c, l, u, t) ==> Prio(c, u) >= Prio(c', t))
                   && (Before(c, l, t, u) ==> Prio(c', t) >= Prio(c, u)) {
      forall k: ListId, u, v | k.Wait? && Before(c', k, u, v) ensures Prio(c', u) >= Prio(c', v) {
        assert Before(c, k, u, v);
        BeforeListed(c, k, u, v);
      }
    }
    if ByPriority(c') {
      forall u ensures (Before(c, l, u, t) ==> Prio(c, u) >= Prio(c', t))
             && (Before(c, l, t, u) ==> Prio(c', t) >= Prio(c, u)) {
        if Before(c, l, u, t) { BeforeListed(c, l, u, t); assert Before(c', l, u, t); }
        if Before(c, l, t, u) { BeforeListed(c, l, t, u); assert Before(c', l, t, u); }
      }
    }
  }

  lemma SameWaits(c: Core, t: Task, p: nat)
    requires Shaped(c) && t in c.prio
    ensures var c' := PriorityChange(c, t, p).0;
            forall l: ListId, u, v :: l.Wait? ==> Before(c', l, u, v) == Before(c, l, u, v)
  {
    hide Home, EventHome, Precedes, TaskOk, Valid, PriorityChange, OrderKept, Prio;
    PriorityChangeShaped(c, t, p);
    var c' := PriorityChange(c, t, p).0;
    forall l: ListId, u, v | l.Wait? ensures Before(c', l, u, v) == Before(c, l, u, v) {
      if Before(c, l, u, v) {
        BeforeListed(c, l, u, v);
        OneBefore(c', l, u, v);
        if Before(c', l, v, u) { OrderKeptBefore(c, c', l, v, u); }
      } else if Before(c', l, u, v) {
        OrderKeptBefore(c, c', l, u, v);
      }
    }
  }

  lemma OrderKeptBefore(c: Core, c': Core, l: ListId, u: Task, v: Task)
    requires OrderKept(c.ls, c'.ls) && l.Wait? && Before(c', l, u, v)
    ensures Before(c, l, u, v)
  {
    hide Precedes;
  }
}

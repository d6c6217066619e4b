/** Time over whole steps: no tick is lost or made up, and a sleeping task wakes on time. */
module Timeline {
  import opened Config
  import opened Lists
  import opened Kernel
  import opened Queues
  import opened Shape
  import opened Clock
  import opened Priority
  import opened Machine
  import opened Invariant
  import opened CoreSteps
  import opened Steps
  import opened Blocking
  import opened QueueSteps
  import opened Runs

  // The ticks that have happened, so far as the kernel knows: those of the clock, and those pended.
  function Total(c: Core): nat { Now(c) + c.pended }

  // Whether xPendedTicks wraps when n ticks arrive.
  predicate PendedWraps(c: Core, n: nat) { c.suspended > 0 && c.pended + n >= TWO_32 }

  // n ticks arrive, and all but a wrap of xPendedTicks is kept.
  ghost predicate Elapses(c: Core, c': Core, n: nat) {
    Total(c') == Total(c) + n - (if PendedWraps(c, n) then TWO_32 else 0) && c'.pended < TWO_32 && Now(c') >= Now(c)
    && (c.suspended > 0 && c'.suspended > 0 ==> Now(c') == Now(c))
  }

  // A task that a send, receive or notification may wake before its deadline.
  ghost predicate Early(c: Core, t: Task) { EventHome(c.ls, t).On? || AwaitsNotify(c, t) }

  /* A sleeping task is made ready if its deadline has come, and otherwise sleeps on until the
     same deadline, unless it was waiting for something else besides. */
  ghost predicate Sleeps(c: Core, c': Core, t: Task) {
    Delayed(c, t) ==>
      if Deadline(c, t) <= Now(c') then Home(c'.ls, t) == On(Lists.Ready(Prio(c, t))) && EventHome(c'.ls, t).Nowhere?
      else (Delayed(c', t) && Deadline(c', t) == Deadline(c, t)) || (Early(c, t) && OnReady(Home(c'.ls, t)))
  }

  ghost predicate AllSleep(c: Core, c': Core, ex: set<Task> := {}) { forall t :: t !in ex ==> Sleeps(c, c', t) }

  lemma DeadlineAhead(c: Core, t: Task)
    requires Clocked(c) && Delayed(c, t)
    ensures Deadline(c, t) > Now(c)
  {
    hide Home, Val, TimeOrdered;
    assert Home(c.ls, t) == On(Current(c)) || Home(c.ls, t) == On(Overflow(c));
  }

  // Nothing has moved, and no time has passed.
  lemma StillSleeps(c: Core, c': Core)
    requires Clocked(c) && c.pended < TWO_32 && c'.ls == c.ls && c'.tick == c.tick && c'.flip == c.flip
    requires c'.overflows == c.overflows && c'.pended == c.pended
    ensures AllSleep(c, c') && Elapses(c, c', 0)
  {
    hide Home, EventHome, Val, Clocked;
    forall t ensures Sleeps(c, c', t) { if Delayed(c, t) { DeadlineAhead(c, t); } }
  }

  lemma SmoothSleeps(c: Core, c': Core)
    requires Clocked(c) && c.pended < TWO_32 && Smooth(c, c')
    ensures AllSleep(c, c') && Elapses(c, c', 0)
  {
    hide Home, EventHome, Sound, OrderKept, Clocked;
    assert forall t :: WakeTime(c', t) == WakeTime(c, t);
    forall t ensures Sleeps(c, c', t) {
      if Delayed(c, t) {
        DeadlineAhead(c, t);
        assert Home(c'.ls, t) == Home(c.ls, t) || CanRouse(c, t);
        assert KeptOrWoken(c, c', t);
      }
    }
  }

  lemma TickSleeps(c: Core, idle: Task)
    requires CoreOk(c, idle) && c.pended < TWO_32
    ensures var r := IncrementTick(c); var c' := if r.1 then SwitchContext(r.0) else r.0;
            AllSleep(c, c') && Elapses(c, c', 1)
  {
    hide Home, EventHome, Shaped, Wakes, Clocked, IncrementTick, SwitchContext, Deadline, Now;
    ShapedSound(c);
    var r := IncrementTick(c);
    IncrementTickFrame(c);
    if c.suspended > 0 {
      forall t ensures Sleeps(c, r.0, t) {
        if Delayed(c, t) { DeadlineAhead(c, t); SameDeadline(c, r.0, t); }
      }
    } else {
      TickExact(c);
      IncrementTickWakes(c);
      WakesShaped(c, r.0);
      ReadyStays(c, r.0, idle);
      SwitchSleeps(c, r.0, idle, 1);
    }
  }

  lemma SameDeadline(c: Core, c': Core, t: Task)
    requires c'.ls == c.ls && c'.flip == c.flip && Now(c') == Now(c) && c'.tick == c.tick
    ensures Deadline(c', t) == Deadline(c, t) && Delayed(c', t) == Delayed(c, t)
  {}

  // A switch at the end of an operation wakes nobody.
  lemma SwitchSleeps(c: Core, c1: Core, r: Task, n: nat)
    requires Shaped(c1) && OnReady(Home(c1.ls, r)) && AllSleep(c, c1) && Elapses(c, c1, n)
    ensures AllSleep(c, SwitchContext(c1)) && Elapses(c, SwitchContext(c1), n)
  {
    hide Home, EventHome, Shaped, Wakes, SwitchContext, Deadline, Now, Rouses;
    SwitchSmooth(c1, r);
    SwitchContextFacts(c1);
    var c2 := SwitchContext(c1);
    SwitchDeadlines(c1, c2);
    forall t ensures Sleeps(c, c2, t) { assert Sleeps(c, c1, t); }
  }

  lemma SwitchDeadlines(c: Core, c': Core)
    requires Wakes(c, c') && SameClock(c, c') && forall t :: Home(c'.ls, t) == Home(c.ls, t)
    ensures Now(c') == Now(c) && forall t :: Deadline(c', t) == Deadline(c, t)
  {
    hide Home, EventHome, Sound, OrderKept, KeptOrWoken;
    forall t ensures WakeTime(c', t) == WakeTime(c, t) {}
  }

  lemma ResumeSleeps(c: Core, idle: Task)
    requires CoreOk(c, idle) && c.suspended > 0 && c.pended < TWO_32
    ensures AllSleep(c, ResumeAll(c).0) && Elapses(c, ResumeAll(c).0, 0)
  {
    hide Home, EventHome, Shaped, Wakes, Clocked, Unsuspend, SwitchContext, Deadline, Now;
    ShapedSound(c);
    var c1 := c.(suspended := c.suspended - 1);
    SameButYield(c, c1);
    YieldKeepsTime(c, c1);
    SameNow(c, c1);
    StillSleeps(c, c1);
    if c1.suspended == 0 {
      UnsuspendExact(c1);
      UnsuspendWakes(c1);
      ReadyStays(c1, Unsuspend(c1), idle);
      var c2 := Unsuspend(c1);
      forall t ensures Sleeps(c, c2, t) {
        SameDeadline(c, c1, t);
      }
      SwitchSleeps(c, c2, idle, 0);
    }
  }

  lemma SameNow(c: Core, c': Core)
    requires c'.tick == c.tick && c'.overflows == c.overflows
    ensures Now(c') == Now(c)
  {}

  lemma DelaySleeps(c: Core, n: nat, forever: bool, idle: Task)
    requires CoreOk(c, idle) && c.pended < TWO_32 && 0 < n < TWO_32 && OnReady(Home(c.ls, c.cur))
    ensures AllSleep(c, DelayCurrent(c, n, forever)) && Elapses(c, DelayCurrent(c, n, forever), 0)
  {
    hide Home, EventHome, Shaped, Clocked, DelayCurrent, Deadline, Now;
    ShapedSound(c);
    DelayCurrentTimed(c, n, forever);
    DelayCurrentFrame(c, n, forever);
    forall t ensures Sleeps(c, DelayCurrent(c, n, forever), t) { if Delayed(c, t) { DeadlineAhead(c, t); } }
  }

  lemma PlaceSleeps(c: Core, l: ListId, n: nat, idle: Task)
    requires CoreOk(c, idle) && c.pended < TWO_32 && 0 < n < TWO_32 && OnReady(Home(c.ls, c.cur))
    requires EventHome(c.ls, c.cur).Nowhere? && l.Wait?
    ensures AllSleep(c, PlaceOnEventList(c, l, n)) && Elapses(c, PlaceOnEventList(c, l, n), 0)
  {
    hide Home, EventHome, Shaped, Clocked, DelayCurrent, Deadline, Now, AddSorted;
    ShapedSound(c);
    PlaceOnEventListTimed(c, l, n);
    DelayCurrentFrame(Enlist(c, l), n, true);
    var c' := PlaceOnEventList(c, l, n);
    forall t ensures Sleeps(c, c', t) { if Delayed(c, t) { DeadlineAhead(c, t); } }
  }

  // Only task t's items may have moved, and no time has passed.
  lemma OthersSleep(c: Core, c': Core, t: Task)
    requires Clocked(c) && c.pended < TWO_32 && c'.tick == c.tick && c'.flip == c.flip && c'.overflows == c.overflows
    requires c'.pended == c.pended
    requires forall u :: u != t ==> Home(c'.ls, u) == Home(c.ls, u) && WakeTime(c', u) == WakeTime(c, u)
    ensures AllSleep(c, c', {t}) && Elapses(c, c', 0)
    ensures !Delayed(c, t) ==> AllSleep(c, c')
  {
    hide Home, EventHome, Val, Clocked;
    forall u ensures u != t ==> Sleeps(c, c', u) { if Delayed(c, u) { DeadlineAhead(c, u); } }
  }

  lemma SuspendSleeps(c: Core, t: Task, idle: Task)
    requires CoreOk(c, idle) && c.pended < TWO_32 && t in c.prio
    ensures AllSleep(c, SuspendTask(c, t), {t}) && Elapses(c, SuspendTask(c, t), 0)
  {
    hide Home, EventHome, Sound, TaskOk, Clocked, RemoveItem, AddEnd, OrderKept;
    InPrio(c, t);
    SuspendTaskFacts(c, t);
    ValSame(c.ls, SuspendTask(c, t).ls);
    OthersSleep(c, SuspendTask(c, t), t);
  }

  lemma CreateSleeps(c: Core, t: Task, p: nat, idle: Task)
    requires CoreOk(c, idle) && c.pended < TWO_32 && t !in c.prio
    ensures AllSleep(c, CreateTask(c, t, p)) && Elapses(c, CreateTask(c, t, p), 0)
  {
    hide Home, EventHome, Sound, TaskOk, Clocked, AddEnd, OrderKept, SetVal;
    InPrio(c, t);
    CreateTaskShaped(c, t, p);
    CreateVal(c, t, p);
    OthersSleep(c, CreateTask(c, t, p), t);
  }

  lemma PrioritySleeps(c: Core, t: Task, p: nat, idle: Task)
    requires CoreOk(c, idle) && c.pended < TWO_32 && t in c.prio
    ensures AllSleep(c, PrioritySet(c, t, p)) && Elapses(c, PrioritySet(c, t, p), 0)
  {
    hide Home, EventHome, Sound, TaskOk, Clocked, OrderKept, PriorityChange, SwitchContext, Deadline;
    var (c1, y) := PriorityChange(c, t, p);
    PriorityChangeShaped(c, t, p);
    PriorityChangeSame(c, t, p);
    PriorityCore(c, t, p, idle);
    OthersSleep(c, c1, t);
    if !OnReady(Home(c.ls, t)) { HomesSleep(c, c1); }
    if y { SwitchSleeps(c, c1, idle, 0); }
  }

  lemma HomesSleep(c: Core, c': Core)
    requires Clocked(c) && SameClock(c, c')
    requires forall u :: Home(c'.ls, u) == Home(c.ls, u) && Val(c'.ls, StateItem(u)) == Val(c.ls, StateItem(u))
    ensures AllSleep(c, c')
  {
    hide Home, EventHome, Val, Clocked;
    forall t ensures Sleeps(c, c', t) { if Delayed(c, t) { DeadlineAhead(c, t); } }
  }

  /* ----- every step ----- */

  ghost predicate TimePasses(m: Machine, m': Machine) {
    m'.ticks >= m.ticks && AllSleep(m.c, m'.c) && Elapses(m.c, m'.c, m'.ticks - m.ticks)
  }

  lemma AtTopTime(m: Machine, p: Pc)
    requires Inv(m) && m.c.pended < TWO_32 && PcOf(m, m.c.cur) == p && p.InQueue? && p.at.AtTop? && p.q in m.c.queues
    ensures TimePasses(m, QueueTop(m, p))
  {
    hide EventHome, Home, PcOk, PriorityOk, QueuesOk, Smooth, Clocked, Shaped, AllSleep, Attempt, CanGo;
    if CanGo(QueueOf(m.c, p.q), p.op) {
      AttemptSmooth(m.c, p.q, p.op, m.idle);
      SmoothSleeps(m.c, Attempt(m.c, p.q, p.op));
    } else {
      StillSleeps(m.c, m.c);
    }
  }

  lemma QueueTime(m: Machine, p: Pc)
    requires Inv(m) && m.c.pended < TWO_32 && PcOf(m, m.c.cur) == p && p.InQueue?
    ensures Sound(m.c.ls) && (p.at.ToResume? ==> m.c.suspended > 0)
    ensures TimePasses(m, QueueStep(m, p))
  {
    hide EventHome, Home, PriorityOk, QueuesOk, Smooth, Clocked, Shaped, Sound, AllSleep, QueueTop, QueueOf,
         UnlockSide, LockQueue, PlaceOnEventList, CheckForTimeOut, MustBlock, ResumeAll, Elapses;
    CoreShaped(m.c, m.idle);
    assert TaskPcOk(m, m.c.cur);
    var c := m.c;
    StillSleeps(c, c);
    StillSleeps(c, SuspendAll(c));
    match p.at
    case AtTop => AtTopTime(m, p);
    case ToLock =>
      LockCore(c, p.q, m.idle);
      SmoothSleeps(c, LockQueue(c, p.q));
    case ToPlace => PlaceSleeps(c, Wait(p.q, SideOf(p.op)), p.wait, m.idle);
    case ToUnlockTx(a) =>
      UnlockSmooth(c, p.q, Recv);
      SmoothSleeps(c, UnlockSide(c, p.q, Recv));
    case ToUnlockRx(a) =>
      UnlockSmooth(c, p.q, Side.Send);
      SmoothSleeps(c, UnlockSide(c, p.q, Side.Send));
    case ToResume(a) => ResumeSleeps(c, m.idle);
    case _ =>
  }

  lemma DelayTime(m: Machine, p: Pc)
    requires Inv(m) && m.c.pended < TWO_32 && PcOf(m, m.c.cur) == p && p.InDelay?
    ensures Sound(m.c.ls) && (p.dAt.DResume? ==> m.c.suspended > 0)
    ensures TimePasses(m, DelayStep(m, p))
  {
    hide EventHome, Home, PriorityOk, QueuesOk, Clocked, Shaped, Sound, AllSleep, DelayTicks, DelayCurrent, ResumeAll,
         Elapses;
    CoreShaped(m.c, m.idle);
    assert TaskPcOk(m, m.c.cur);
    StillSleeps(m.c, m.c);
    StillSleeps(m.c, SuspendAll(m.c));
    DelayTicksBound(m.c, p.d);
    match p.dAt
    case DSuspend =>
    case DAdd => if DelayTicks(m.c, p.d) > 0 { DelaySleeps(m.c, DelayTicks(m.c, p.d), false, m.idle); }
    case DResume => ResumeSleeps(m.c, m.idle);
  }

  lemma NotifyTime(m: Machine, p: Pc)
    requires Inv(m) && m.c.pended < TWO_32 && PcOf(m, m.c.cur) == p && p.InNotify?
    ensures Sound(m.c.ls) && (p.nAt.NResume? ==> m.c.suspended > 0)
    ensures TimePasses(m, NotifyStep(m, p))
  {
    hide EventHome, Home, PriorityOk, QueuesOk, Clocked, Shaped, Sound, AllSleep, DelayCurrent, ResumeAll,
         MarkWaiting, Consume, NothingYet, Elapses, AwaitsNotify;
    CoreShaped(m.c, m.idle);
    assert TaskPcOk(m, m.c.cur);
    StillSleeps(m.c, m.c);
    StillSleeps(m.c, SuspendAll(m.c));
    HasRecord(m.c);
    MarkFrame(m.c, p.k);
    ConsumeFrame(m.c, p.k);
    StillSleeps(m.c, MarkWaiting(m.c, p.k));
    StillSleeps(m.c, Consume(m.c, p.k));
    match p.nAt
    case NAdd => if p.block { DelaySleeps(m.c, p.nWait, true, m.idle); }
    case NResume => ResumeSleeps(m.c, m.idle);
    case _ =>
  }

  lemma GoTime(m: Machine)
    requires Inv(m) && Enabled(m, Continue) && m.c.pended < TWO_32
    ensures Sound(m.c.ls) && CanResume(m) && TimePasses(m, Go(m))
  {
    hide EventHome, Home, QueuesOk, Clocked, Shaped, Sound, AllSleep, Elapses, QueueStep, DelayStep, NotifyStep,
         SwitchContext, ResetNext, CurOk, HighOk, TaskPcOk, Smooth;
    CoreShaped(m.c, m.idle);
    Runs.Ready(m);
    var p := PcOf(m, m.c.cur);
    match p
    case Yielding(next) =>
      SwitchSmooth(m.c, m.idle);
      SmoothSleeps(m.c, SwitchContext(m.c));
    case InQueue(_, _, _, _, _, _) => QueueTime(m, p);
    case InDelay(d, at) => DelayTime(m, p);
    case InNotify(_, _, _, _) => NotifyTime(m, p);
    case InSuspend(t) =>
      ResetNextFrame(m.c);
      StillSleeps(m.c, ResetNext(m.c));
    case InCreate(t) =>
      CreatedYield(m.c, t, m.idle);
      SmoothSleeps(m.c, YieldTo(m.c, t));
  }

  // The one task that a step may stop sleeping for good.
  function Stopped(s: Step): set<Task> { if s.CallSuspend? then {s.t} else {} }

  ghost predicate StepTimely(m: Machine, m': Machine, s: Step) {
    m'.ticks >= m.ticks && AllSleep(m.c, m'.c, Stopped(s)) && Elapses(m.c, m'.c, m'.ticks - m.ticks)
  }

  // What each interrupt does to the kernel's data.
  lemma InterruptApplies(m: Machine, s: Step)
    requires Sound(m.c.ls) && CanResume(m) && Enabled(m, s) && !IsCall(s) && !s.Continue?
    ensures s.TickInterrupt? ==> Apply(m, s) == Tick(m)
    ensures s.IsrSend? ==> Apply(m, s).c == SendFromISR(m.c, s.q, s.pos) && s.q in m.c.queues
                           && (s.pos.Overwrite? ==> m.c.queues[s.q].length == 1)
    ensures s.IsrReceive? ==> Apply(m, s).c == ReceiveFromISR(m.c, s.q) && s.q in m.c.queues
    ensures s.IsrNotify? ==> Apply(m, s).c == NotifyFromISR(m.c, s.t, s.a) && s.t in m.c.prio
    ensures s.IsrResume? ==> Apply(m, s).c == ResumeFromISR(m.c, s.t) && s.t in m.c.prio
    ensures s.Yield? ==> Apply(m, s).c == SwitchContext(m.c)
    ensures !s.TickInterrupt? ==> Apply(m, s).ticks == m.ticks
  {
    hide Sound, CanResume, Tick, SendFromISR, ReceiveFromISR, NotifyFromISR, ResumeFromISR, SwitchContext, Go;
  }

  lemma InterruptTime(m: Machine, s: Step)
    requires Inv(m) && Enabled(m, s) && m.c.pended < TWO_32 && !IsCall(s) && !s.Continue? && Sound(m.c.ls)
    requires CanResume(m)
    ensures StepTimely(m, Apply(m, s), s)
  {
    hide EventHome, Home, PriorityOk, QueuesOk, PcOk, Clocked, Shaped, Sound, AllSleep, Elapses, IncrementTick,
         SwitchContext, NotifyFromISR, ResumeFromISR, SendFromISR, ReceiveFromISR, CanResume, Apply, Enabled;
    InterruptApplies(m, s);
    var c := m.c;
    match s
    case TickInterrupt => TickSleeps(c, m.idle);
    case IsrSend(q, pos) => SendIsrSleeps(c, q, pos);
    case IsrReceive(q) => ReceiveIsrSleeps(c, q);
    case IsrNotify(t, a) => NotifyIsrSleeps(m, t, a);
    case IsrResume(t) =>
      ResumeFromISRSmooth(c, t);
      SmoothSleeps(c, ResumeFromISR(c, t));
    case Yield => YieldSleeps(c, m.idle);
  }

  lemma NotifyIsrSleeps(m: Machine, t: Task, a: NotifyAction)
    requires PcOk(m) && CoreOk(m.c, m.idle) && m.c.pended < TWO_32 && t in m.c.prio
    ensures AllSleep(m.c, NotifyFromISR(m.c, t, a)) && Elapses(m.c, NotifyFromISR(m.c, t, a), 0)
  {
    hide EventHome, Home, Clocked, Shaped, CurOk, AllSleep, Elapses, Smooth, NotifyFromISR, ParkedOn;
    assert TaskPcOk(m, t);
    NotifyFromISRSmooth(m.c, t, a);
    SmoothSleeps(m.c, NotifyFromISR(m.c, t, a));
  }

  lemma YieldSleeps(c: Core, idle: Task)
    requires CoreOk(c, idle) && c.pended < TWO_32
    ensures AllSleep(c, SwitchContext(c)) && Elapses(c, SwitchContext(c), 0)
  {
    hide Home, Clocked, Shaped, AllSleep, Elapses, Smooth, SwitchContext;
    SwitchSmooth(c, idle);
    SmoothSleeps(c, SwitchContext(c));
  }

  lemma SendIsrSleeps(c: Core, q: QueueId, pos: Position)
    requires Shaped(c) && Clocked(c) && c.pended < TWO_32 && q in c.queues
    ensures AllSleep(c, SendFromISR(c, q, pos)) && Elapses(c, SendFromISR(c, q, pos), 0)
  {
    hide Shaped, Clocked, AllSleep, Elapses, Smooth, WakeOrCount, SetQueue;
    StillSleeps(c, c);
    if HasRoom(c.queues[q], pos) {
      WakeOrCountSmooth(c, q, c.queues[q].(count := CountAfterCopy(c.queues[q], pos)), Recv);
      SmoothSleeps(c, SendFromISR(c, q, pos));
    }
  }

  lemma ReceiveIsrSleeps(c: Core, q: QueueId)
    requires Shaped(c) && Clocked(c) && c.pended < TWO_32 && q in c.queues
    ensures AllSleep(c, ReceiveFromISR(c, q)) && Elapses(c, ReceiveFromISR(c, q), 0)
  {
    hide Shaped, Clocked, AllSleep, Elapses, Smooth, WakeOrCount, SetQueue;
    StillSleeps(c, c);
    if c.queues[q].count > 0 {
      WakeOrCountSmooth(c, q, c.queues[q].(count := c.queues[q].count - 1), Side.Send);
      SmoothSleeps(c, ReceiveFromISR(c, q));
    }
  }

  predicate OnTask(s: Step) {
    s.CallSuspend? || s.CallResume? || s.CallPrioritySet? || s.CallCreate? || s.CallNotifyOther?
  }

  // What the call does to the kernel's data.
  function TaskOp(c: Core, s: Step): Core {
    match s
    case CallSuspend(t) => SuspendTask(c, t)
    case CallResume(t) => ResumeTask(c, t)
    case CallPrioritySet(t, p) => PrioritySet(c, t, p)
    case CallCreate(t, p) => CreateTask(c, t, p)
    case CallNotifyOther(t, a) => Notify(c, t, a)
    case _ => c
  }

  lemma TaskOpApplies(m: Machine, s: Step)
    requires Sound(m.c.ls) && CanResume(m) && Enabled(m, s) && OnTask(s)
    ensures Apply(m, s).c == TaskOp(m.c, s) && Apply(m, s).ticks == m.ticks
  {
    hide Sound, CanResume, Enabled, SuspendTask, ResumeTask, PrioritySet, CreateTask, Notify;
  }

  lemma TaskOpSleeps(c: Core, s: Step, idle: Task)
    requires CoreOk(c, idle) && c.pended < TWO_32 && OnTask(s) && !s.CallNotifyOther?
    requires (if s.CallCreate? then s.t !in c.prio else s.t in c.prio)
    ensures AllSleep(c, TaskOp(c, s), Stopped(s)) && Elapses(c, TaskOp(c, s), 0)
  {
    hide EventHome, Home, Clocked, Shaped, AllSleep, Elapses, Smooth, SuspendTask, ResumeTask, PrioritySet,
         CreateTask, Notify;
    match s
    case CallSuspend(t) => SuspendSleeps(c, t, idle);
    case CallResume(t) =>
      ResumeTaskSmooth(c, t);
      SmoothSleeps(c, ResumeTask(c, t));
    case CallPrioritySet(t, p) => PrioritySleeps(c, t, p, idle);
    case CallCreate(t, p) => CreateSleeps(c, t, p, idle);
  }

  lemma TaskCallTime(m: Machine, s: Step)
    requires Inv(m) && Enabled(m, s) && m.c.pended < TWO_32 && OnTask(s) && Sound(m.c.ls) && CanResume(m)
    ensures StepTimely(m, Apply(m, s), s)
  {
    hide PriorityOk, QueuesOk, CoreOk, Sound, PcOk, AllSleep, Elapses, CanResume, TaskOp, Apply;
    TaskOpApplies(m, s);
    if s.CallNotifyOther? {
      NotifySleeps(m, s.t, s.a);
      NotifyIsOp(m.c, s);
    } else {
      TaskOpSleeps(m.c, s, m.idle);
    }
  }

  lemma NotifyIsOp(c: Core, s: Step)
    requires s.CallNotifyOther?
    ensures TaskOp(c, s) == Notify(c, s.t, s.a)
  {}

  lemma NotifySleeps(m: Machine, t: Task, a: NotifyAction)
    requires PcOk(m) && CoreOk(m.c, m.idle) && m.c.pended < TWO_32 && t in m.c.prio
    ensures AllSleep(m.c, Notify(m.c, t, a)) && Elapses(m.c, Notify(m.c, t, a), 0)
  {
    hide EventHome, Home, Clocked, Shaped, CurOk, AllSleep, Elapses, Smooth, Notify, ParkedOn;
    assert TaskPcOk(m, t);
    NotifySmooth(m.c, t, a);
    SmoothSleeps(m.c, Notify(m.c, t, a));
  }

  lemma CallTime(m: Machine, s: Step)
    requires Inv(m) && Enabled(m, s) && m.c.pended < TWO_32 && IsCall(s) && !OnTask(s) && Sound(m.c.ls) && CanResume(m)
    ensures StepTimely(m, Apply(m, s), s)
  {
    hide EventHome, Home, PriorityOk, QueuesOk, Clocked, Shaped, Sound, PcOk, AllSleep, Elapses, Smooth, CanResume,
         ResumeAll, Reset;
    CoreShaped(m.c, m.idle);
    var c := m.c;
    StillSleeps(c, c);
    match s
    case CallResumeAll => ResumeSleeps(c, m.idle);
    case CallSuspendAll => StillSleeps(c, SuspendAll(c));
    case CallCatchUp(n) => CatchUpSleeps(c, n);
    case CallCreateQueue(q, length, size) => StillSleeps(c, CreateQueue(c, q, length, size));
    case CallReset(q) =>
      ResetSmooth(c, q, m.idle);
      SmoothSleeps(c, Reset(c, q));
    case _ =>
  }

  lemma CatchUpSleeps(c: Core, n: nat)
    requires Clocked(c) && c.pended < TWO_32 && n < TWO_32 && c.suspended > 0
    ensures var c' := c.(pended := Add32(c.pended, n)); AllSleep(c, c') && Elapses(c, c', n)
  {
    hide Clocked, AllSleep;
    var c' := c.(pended := Add32(c.pended, n));
    StillSleeps(c, c);
    SleepsSame(c, c');
  }

  lemma SleepsSame(c: Core, c': Core)
    requires AllSleep(c, c) && c' == c.(pended := c'.pended)
    ensures AllSleep(c, c')
  {
    hide Home, EventHome, Val;
    forall t ensures Sleeps(c, c', t) { assert Sleeps(c, c, t); SameDeadline(c, c', t); }
  }

  /** One step: every tick it brings is kept, and every sleeping task sleeps on or wakes on time. */
  lemma StepTime(m: Machine, s: Step)
    requires Inv(m) && Enabled(m, s) && m.c.pended < TWO_32
    ensures Sound(m.c.ls) && CanResume(m) && StepTimely(m, Apply(m, s), s)
  {
    hide Inv, Sound, CanResume, Enabled, AllSleep, Elapses, Go;
    Runs.Ready(m);
    if OnTask(s) {
      TaskCallTime(m, s);
    } else if IsCall(s) {
      CallTime(m, s);
    } else if s.Continue? {
      GoTime(m);
    } else {
      InterruptTime(m, s);
    }
  }
}

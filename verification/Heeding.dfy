/** Notifications over whole runs: a task that waits for one does not sleep through it. */
module Heeding {
  import opened Config
  import opened Lists
  import opened Kernel
  import opened Queues
  import opened Shape
  import opened Clock
  import opened Priority
  import opened Machine
  import opened Invariant
  import opened CoreSteps
  import opened Steps
  import opened Blocking
  import opened Boot
  import opened Runs
  import opened Timeline
  import opened Theorems
  import opened Notices

  // In ulTaskNotifyTake or xTaskNotifyWait, having decided to block and not yet done.
  predicate Waits(p: Pc) {
    match p
    case Yielding(next) => Waits(next)
    case InNotify(_, _, block, at) => block && (at.NAdd? || at.NResume? || at.NFinal?)
    case _ => false
  }

  // It has yet to leave its ready list.
  predicate YetToBlock(p: Pc) { p.InNotify? && p.nAt.NAdd? }

  // It awaits a notification still, or has been sent to the pending ready list.
  ghost predicate Heard(c: Core, t: Task) { AwaitsNotify(c, t) || EventHome(c.ls, t) == On(Pending) }

  ghost predicate Attended(m: Machine, t: Task) {
    var p := PcOf(m, t);
    Waits(p) ==> Heard(m.c, t) || (OnReady(Home(m.c.ls, t)) && !YetToBlock(p))
  }

  /* ----- what each operation does to a task that waits ----- */

  ghost predicate Heeds(c: Core, c': Core, t: Task) {
    && (Heard(c, t) ==> Heard(c', t) || OnReady(Home(c'.ls, t)))
    && (Home(c'.ls, t) == Home(c.ls, t) || OnReady(Home(c'.ls, t)))
  }

  // The same, and while the scheduler is suspended it waits on or is sent to the pending ready list.
  ghost predicate Firm(c: Core, c': Core, t: Task) {
    Heeds(c, c', t) && (c.suspended > 0 && Heard(c, t) ==> Heard(c', t))
  }

  ghost predicate CalmCore(c: Core) { c.suspended == 0 ==> NonePending(c.ls) }

  lemma WakesHeed(c: Core, c': Core, t: Task)
    requires Wakes(c, c') && CalmCore(c) && c'.suspended == c.suspended
    ensures (AwaitsNotify(c, t) ==> Heard(c', t) || OnReady(Home(c'.ls, t))) ==> Heeds(c, c', t)
    ensures (AwaitsNotify(c, t) ==> Heard(c', t)) ==> Firm(c, c', t)
  {
    hide Home, EventHome, Sound, OrderKept;
    assert KeptOrWoken(c, c', t);
  }

  // Nobody's record changes.
  lemma SmoothFirm(c: Core, c': Core, t: Task)
    requires Smooth(c, c') && c'.notify == c.notify && CalmCore(c)
    ensures Firm(c, c', t)
  {
    hide Wakes, Rouses, Home, EventHome;
    WakesHeed(c, c', t);
  }

  // No item moves, and the task's own record is as it was.
  lemma StillFirm(c: Core, c': Core, t: Task)
    requires c'.ls == c.ls && (AwaitsNotify(c, t) ==> AwaitsNotify(c', t))
    ensures Firm(c, c', t)
  {
    hide Home, EventHome;
  }

  // Only another task's items move.
  lemma OthersFirm(c: Core, c': Core, t: Task)
    requires Home(c'.ls, t) == Home(c.ls, t) && EventHome(c'.ls, t) == EventHome(c.ls, t)
    requires AwaitsNotify(c', t) == AwaitsNotify(c, t)
    ensures Firm(c, c', t)
  {
    hide Home, EventHome;
  }

  lemma TickFirm(c: Core, t: Task, idle: Task)
    requires CoreOk(c, idle)
    ensures var r := IncrementTick(c); Firm(c, if r.1 then SwitchContext(r.0) else r.0, t)
  {
    hide Wakes, Shaped, Home, EventHome, Clocked, IncrementTick, SwitchContext, NonePending, Rouses;
    ShapedSound(c);
    var r := IncrementTick(c);
    IncrementTickWakes(c);
    IncrementTickFrame(c);
    WakesHeed(c, r.0, t);
    if r.1 {
      WakesShaped(c, r.0);
      ReadyStays(c, r.0, idle);
      SwitchSmooth(r.0, idle);
      WakesTrans(c, r.0, SwitchContext(r.0));
      WakesHeed(c, SwitchContext(r.0), t);
    }
  }

  lemma ResumeHeeds(c: Core, t: Task, idle: Task)
    requires CoreOk(c, idle) && c.suspended > 0
    ensures Heeds(c, ResumeAll(c).0, t)
  {
    hide Shaped, Home, EventHome, Clocked, Unsuspend, SwitchContext, Deadline;
    ShapedSound(c);
    ResumeAllCore(c, idle);
    ResumeAllWakes(c);
    ReadyKept(c, ResumeAll(c).0, t);
    var c1 := c.(suspended := c.suspended - 1);
    SameButYield(c, c1);
    YieldKeepsTime(c, c1);
    if c1.suspended == 0 {
      UnsuspendExact(c1);
      UnsuspendWakes(c1);
      SwitchContextFacts(Unsuspend(c1));
    }
  }

  lemma ReadyKept(c: Core, c': Core, t: Task)
    requires Wakes(c, c')
    ensures Home(c'.ls, t) == Home(c.ls, t) || OnReady(Home(c'.ls, t))
  {
    hide Home, EventHome, Sound, OrderKept;
    assert KeptOrWoken(c, c', t);
  }

  lemma NotifyHeeds(m: Machine, u: Task, a: NotifyAction, t: Task)
    requires PcOk(m) && CoreOk(m.c, m.idle) && u in m.c.prio
    ensures Heeds(m.c, Notify(m.c, u, a), t) && Firm(m.c, NotifyFromISR(m.c, u, a), t)
  {
    hide EventHome, Home, Clocked, Shaped, CurOk, Wakes, Rouses, Notify, NotifyFromISR, ParkedOn, NonePending;
    assert TaskPcOk(m, u);
    NotifySmooth(m.c, u, a);
    NotifyDelivers(m.c, u, a);
    WakesHeed(m.c, Notify(m.c, u, a), t);
    NotifyFromISRSmooth(m.c, u, a);
    NotifyFromISRDelivers(m.c, u, a);
    WakesHeed(m.c, NotifyFromISR(m.c, u, a), t);
    if u == t && m.c.suspended == 0 { NotifyFirm(m.c, NotifyFromISR(m.c, u, a), t); }
  }

  lemma NotifyFirm(c: Core, c': Core, t: Task)
    requires c.suspended == 0
    ensures Heeds(c, c', t) ==> Firm(c, c', t)
  {}

  lemma SuspendHeeds(c: Core, u: Task, t: Task)
    requires Shaped(c) && u in c.prio && t != u
    ensures Firm(c, SuspendTask(c, u), t)
  {
    hide Sound, TaskOk, Home, EventHome, RemoveItem, AddEnd, OrderKept;
    InPrio(c, u);
    SuspendTaskFacts(c, u);
    OthersFirm(c, SuspendTask(c, u), t);
  }

  lemma PriorityHeeds(c: Core, u: Task, p: nat, t: Task, idle: Task)
    requires CoreOk(c, idle) && u in c.prio
    ensures Heeds(c, PrioritySet(c, u, p), t)
  {
    hide Wakes, Shaped, Home, EventHome, Clocked, PriorityChange, SwitchContext, Rouses, NonePending;
    PriorityCore(c, u, p, idle);
    PriorityChangeShaped(c, u, p);
    var (c1, y) := PriorityChange(c, u, p);
    if y {
      SwitchSmooth(c1, idle);
      SwitchContextFacts(c1);
    }
  }

  lemma CreateHeeds(c: Core, u: Task, p: nat, t: Task, idle: Task)
    requires CoreOk(c, idle) && u !in c.prio && t != u
    ensures Firm(c, CreateTask(c, u, p), t)
  {
    hide Shaped, Home, EventHome, Clocked, CreateTask;
    CreateCore(c, u, p, idle);
    OthersFirm(c, CreateTask(c, u, p), t);
  }

  lemma MovedFirm(c: Core, c': Core, u: Task, t: Task)
    requires OnlyMoved(c, c', u) && t != u
    ensures Firm(c, c', t)
  {
    hide Home, EventHome;
    OthersFirm(c, c', t);
  }

  /* ----- every step, for a task other than the one that takes it ----- */

  lemma HeadHeeds(m: Machine, p: Pc, t: Task)
    requires Inv(m) && PcOf(m, m.c.cur) == p && p.InQueue? && p.q in m.c.queues
    ensures Heeds(m.c, QueueTop(m, p).c, t)
  {
    hide EventHome, Home, PcOk, PriorityOk, QueuesOk, Clocked, Shaped, Smooth, Heeds, Attempt, CanGo;
    if CanGo(QueueOf(m.c, p.q), p.op) {
      AttemptSmooth(m.c, p.q, p.op, m.idle);
      SmoothFirm(m.c, Attempt(m.c, p.q, p.op), t);
    } else {
      StillFirm(m.c, m.c, t);
    }
  }

  lemma UnlockHeeds(m: Machine, p: Pc, s: Side, t: Task)
    requires CoreOk(m.c, m.idle) && p.InQueue? && p.q in m.c.queues
    ensures Heeds(m.c, UnlockSide(m.c, p.q, s), t)
  {
    hide EventHome, Home, Clocked, Shaped, Smooth, Heeds, UnlockSide;
    UnlockSmooth(m.c, p.q, s);
    SmoothFirm(m.c, UnlockSide(m.c, p.q, s), t);
  }

  lemma PlaceHeeds(m: Machine, p: Pc, t: Task)
    requires Inv(m) && m.c.cur != m.idle && PcOf(m, m.c.cur) == p && p.InQueue? && p.at.ToPlace? && t != m.c.cur
    ensures Heeds(m.c, QueuePlace(m, p).c, t)
  {
    hide EventHome, Home, PriorityOk, QueuesOk, Clocked, Shaped, Heeds, PlaceOnEventList;
    assert TaskPcOk(m, m.c.cur);
    PlaceCore(m.c, Wait(p.q, SideOf(p.op)), p.wait, m.idle);
    MovedFirm(m.c, QueuePlace(m, p).c, m.c.cur, t);
  }

  lemma QueueHeeds(m: Machine, p: Pc, t: Task)
    requires Inv(m) && m.c.cur != m.idle && PcOf(m, m.c.cur) == p && p.InQueue? && (t != m.c.cur || !p.at.ToPlace?)
    ensures Sound(m.c.ls) && (p.at.ToResume? ==> m.c.suspended > 0)
    ensures Heeds(m.c, QueueStep(m, p).c, t)
  {
    hide EventHome, Home, PriorityOk, QueuesOk, Clocked, Shaped, Sound, Heeds, QueueTop, QueueOf, UnlockSide,
         QueuePlace, CheckForTimeOut, MustBlock, ResumeAll, TaskOk;
    CoreShaped(m.c, m.idle);
    assert TaskPcOk(m, m.c.cur);
    StillFirm(m.c, m.c, t);
    StillFirm(m.c, SuspendAll(m.c), t);
    StillFirm(m.c, LockQueue(m.c, p.q), t);
    match p.at
    case AtTop => HeadHeeds(m, p, t);
    case ToPlace => PlaceHeeds(m, p, t);
    case ToUnlockTx(a) => UnlockHeeds(m, p, Recv, t);
    case ToUnlockRx(a) => UnlockHeeds(m, p, Side.Send, t);
    case ToResume(a) => ResumeHeeds(m.c, t, m.idle);
    case _ =>
  }

  lemma BlockHeeds(m: Machine, n: nat, forever: bool, t: Task)
    requires Inv(m) && m.c.cur != m.idle && 0 < n < TWO_32 && !Away(PcOf(m, m.c.cur), m.c.cur) && t != m.c.cur
    ensures Heeds(m.c, DelayCurrent(m.c, n, forever), t)
  {
    hide EventHome, Home, PriorityOk, QueuesOk, Clocked, Shaped, Heeds, DelayCurrent, TaskPcOk, Away;
    DelayCore(m.c, n, forever, m.idle);
    MovedFirm(m.c, DelayCurrent(m.c, n, forever), m.c.cur, t);
  }

  lemma DelayHeeds(m: Machine, p: Pc, t: Task)
    requires Inv(m) && m.c.cur != m.idle && PcOf(m, m.c.cur) == p && p.InDelay? && t != m.c.cur
    ensures Sound(m.c.ls) && (p.dAt.DResume? ==> m.c.suspended > 0)
    ensures Heeds(m.c, DelayStep(m, p).c, t)
  {
    hide EventHome, Home, PriorityOk, QueuesOk, Clocked, Shaped, Sound, Heeds, DelayTicks, DelayCurrent, ResumeAll;
    CoreShaped(m.c, m.idle);
    assert TaskPcOk(m, m.c.cur);
    StillFirm(m.c, m.c, t);
    StillFirm(m.c, SuspendAll(m.c), t);
    if p.dAt.DResume? { ResumeHeeds(m.c, t, m.idle); }
    if p.dAt.DAdd? {
      DelayTicksBound(m.c, p.d);
      if DelayTicks(m.c, p.d) > 0 { BlockHeeds(m, DelayTicks(m.c, p.d), false, t); }
    }
  }

  lemma NotifyStepHeeds(m: Machine, p: Pc, t: Task)
    requires Inv(m) && m.c.cur != m.idle && PcOf(m, m.c.cur) == p && p.InNotify? && t != m.c.cur
    ensures Sound(m.c.ls) && (p.nAt.NResume? ==> m.c.suspended > 0)
    ensures Heeds(m.c, NotifyStep(m, p).c, t)
  {
    hide EventHome, Home, PriorityOk, QueuesOk, Clocked, Shaped, Sound, Heeds, DelayCurrent, ResumeAll, MarkWaiting,
         Consume, NothingYet;
    CoreShaped(m.c, m.idle);
    assert TaskPcOk(m, m.c.cur);
    HasRecord(m.c);
    MarkFrame(m.c, p.k);
    ConsumeFrame(m.c, p.k);
    StillFirm(m.c, m.c, t);
    StillFirm(m.c, SuspendAll(m.c), t);
    StillFirm(m.c, MarkWaiting(m.c, p.k), t);
    StillFirm(m.c, Consume(m.c, p.k), t);
    if p.nAt.NResume? { ResumeHeeds(m.c, t, m.idle); }
    if p.nAt.NAdd? && p.block { BlockHeeds(m, p.nWait, true, t); }
  }

  // The next step of a task here does not put it to sleep.
  predicate StaysUp(p: Pc) { p.Yielding? || (p.InQueue? && !p.at.ToPlace?) }

  lemma GoHeeds(m: Machine, t: Task)
    requires Inv(m) && Enabled(m, Continue) && (t != m.c.cur || StaysUp(PcOf(m, t)))
    ensures Sound(m.c.ls) && CanResume(m) && Heeds(m.c, Go(m).c, t)
  {
    hide EventHome, Home, QueuesOk, Clocked, Shaped, Sound, Smooth, Heeds, QueueStep, DelayStep, NotifyStep,
         SwitchContext, ResetNext, CurOk, HighOk, TaskPcOk;
    CoreShaped(m.c, m.idle);
    Runs.Ready(m);
    var p := PcOf(m, m.c.cur);
    assert PcOf(m, m.idle) == User;
    match p
    case Yielding(next) =>
      SwitchSmooth(m.c, m.idle);
      SmoothFirm(m.c, SwitchContext(m.c), t);
    case InQueue(_, _, _, _, _, _) => QueueHeeds(m, p, t);
    case InDelay(d, at) => DelayHeeds(m, p, t);
    case InNotify(_, _, _, _) => NotifyStepHeeds(m, p, t);
    case InSuspend(u) =>
      ResetNextFrame(m.c);
      StillFirm(m.c, ResetNext(m.c), t);
    case InCreate(u) =>
      CreatedYield(m.c, u, m.idle);
      SmoothFirm(m.c, YieldTo(m.c, u), t);
  }

  lemma TaskOpHeeds(m: Machine, s: Step, t: Task)
    requires Inv(m) && Enabled(m, s) && OnTask(s) && s != CallSuspend(t) && (s.CallCreate? ==> s.t != t)
    ensures Heeds(m.c, TaskOp(m.c, s), t)
  {
    hide EventHome, Home, PcOk, PriorityOk, QueuesOk, Clocked, Shaped, Smooth, Heeds, SuspendTask, ResumeTask,
         PrioritySet, CreateTask, Notify;
    match s
    case CallSuspend(u) => SuspendHeeds(m.c, u, t);
    case CallResume(u) =>
      ResumeTaskSmooth(m.c, u);
      SmoothFirm(m.c, ResumeTask(m.c, u), t);
    case CallPrioritySet(u, p) => PriorityHeeds(m.c, u, p, t, m.idle);
    case CallCreate(u, p) => CreateHeeds(m.c, u, p, t, m.idle);
    case CallNotifyOther(u, a) => NotifyHeeds(m, u, a, t);
  }

  lemma CallHeeds(m: Machine, s: Step, t: Task)
    requires Inv(m) && Enabled(m, s) && IsCall(s) && Sound(m.c.ls) && CanResume(m)
    requires s != CallSuspend(t) && (s.CallCreate? ==> s.t != t)
    ensures Heeds(m.c, Apply(m, s).c, t)
  {
    hide EventHome, Home, PcOk, PriorityOk, QueuesOk, Clocked, Shaped, Sound, Smooth, Heeds, CanResume, TaskOp,
         ResumeAll, Reset, SuspendTask, ResumeTask, PrioritySet, CreateTask, Notify;
    CoreShaped(m.c, m.idle);
    if OnTask(s) {
      TaskOpApplies(m, s);
      TaskOpHeeds(m, s, t);
    } else if s.CallResumeAll? {
      ResumeHeeds(m.c, t, m.idle);
    } else if s.CallReset? {
      ResetSmooth(m.c, s.q, m.idle);
      SmoothFirm(m.c, Reset(m.c, s.q), t);
    } else {
      StillFirm(m.c, Apply(m, s).c, t);
    }
  }

  lemma IsrFirm(c: Core, q: QueueId, pos: Position, t: Task)
    requires Shaped(c) && CalmCore(c) && q in c.queues
    ensures Firm(c, SendFromISR(c, q, pos), t) && Firm(c, ReceiveFromISR(c, q), t)
  {
    hide Shaped, Smooth, Firm, CalmCore, WakeOrCount, SetQueue;
    var d := c.queues[q];
    StillFirm(c, c, t);
    if HasRoom(d, pos) {
      WakeOrCountSmooth(c, q, d.(count := CountAfterCopy(d, pos)), Recv);
      SmoothFirm(c, SendFromISR(c, q, pos), t);
    }
    if d.count > 0 {
      WakeOrCountSmooth(c, q, d.(count := d.count - 1), Side.Send);
      SmoothFirm(c, ReceiveFromISR(c, q), t);
    }
  }

  lemma InterruptFirm(m: Machine, s: Step, t: Task)
    requires Inv(m) && Enabled(m, s) && !IsCall(s) && !s.Continue? && Sound(m.c.ls) && CanResume(m)
    ensures Firm(m.c, Apply(m, s).c, t)
  {
    hide EventHome, Home, PcOk, PriorityOk, QueuesOk, Clocked, Shaped, Sound, Smooth, Heeds, CanResume, IncrementTick,
         SwitchContext, NotifyFromISR, ResumeFromISR, SendFromISR, ReceiveFromISR, Apply, Enabled, Firm;
    InterruptApplies(m, s);
    var c := m.c;
    match s
    case TickInterrupt => TickFirm(c, t, m.idle);
    case IsrSend(q, pos) => IsrFirm(c, q, pos, t);
    case IsrReceive(q) => IsrFirm(c, q, Back, t);
    case IsrNotify(u, a) => NotifyHeeds(m, u, a, t);
    case IsrResume(u) =>
      ResumeFromISRSmooth(c, u);
      SmoothFirm(c, ResumeFromISR(c, u), t);
    case Yield =>
      SwitchSmooth(c, m.idle);
      SmoothFirm(c, SwitchContext(c), t);
  }

  /** Any step that neither suspends the task nor is its own blocking. */
  lemma StepHeeds(m: Machine, s: Step, t: Task)
    requires Inv(m) && Enabled(m, s) && s != CallSuspend(t) && t in m.c.prio
    requires s.Continue? && t == m.c.cur ==> StaysUp(PcOf(m, t))
    ensures Sound(m.c.ls) && CanResume(m) && Heeds(m.c, Apply(m, s).c, t)
  {
    hide Inv, Sound, CanResume, Heeds, Apply, Go, StaysUp;
    Runs.Ready(m);
    if s.Continue? {
      GoIsContinue(m);
      GoHeeds(m, t);
    } else if IsCall(s) {
      NotCreated(m, s, t);
      CallHeeds(m, s, t);
    } else {
      InterruptFirm(m, s, t);
    }
  }

  /* ----- the waiting task's own steps ----- */

  // A task outside such a wait does not start to block for a notification.
  lemma QueueWaits(m: Machine, p: Pc)
    requires p.InQueue? && Sound(m.c.ls) && (p.at.ToResume? ==> m.c.suspended > 0)
    ensures !Waits(PcOf(QueueStep(m, p), m.c.cur))
  {
    hide Sound, QueueCheck, UnlockSide, MustBlock, WokenOf, Left, QueueOf, Attempt, CanGo, ResumeAll,
         PlaceOnEventList, SetTimeOut;
    UnlockCur(m.c);
    PlaceCur(m.c, Wait(p.q, SideOf(p.op)), p.wait);
    if p.at.ToCheck? { CheckWaits(m, p); }
  }

  lemma PlaceCur(c: Core, l: ListId, n: nat)
    ensures PlaceOnEventList(c, l, n).cur == c.cur
  {
    hide DelayCurrent, AddSorted;
    DelayCurrentFrame(Enlist(c, l), n, true);
  }

  lemma CheckWaits(m: Machine, p: Pc)
    requires p.InQueue?
    ensures !Waits(PcOf(QueueCheck(m, p), m.c.cur))
  {
    hide CheckForTimeOut;
  }

  lemma DelayWaits(m: Machine, p: Pc)
    requires p.InDelay? && Sound(m.c.ls) && (p.dAt.DResume? ==> m.c.suspended > 0)
    ensures !Waits(PcOf(DelayStep(m, p), m.c.cur))
  {
    hide Sound, ResumeAll, DelayCurrent, DelayTicks;
    if p.dAt.DAdd? { DelayCurrentFrame(m.c, DelayTicks(m.c, p.d), false); }
  }

  lemma NotifyAttended(m: Machine, p: Pc)
    requires Inv(m) && m.c.cur != m.idle && PcOf(m, m.c.cur) == p && p.InNotify? && Attended(m, m.c.cur)
    ensures Sound(m.c.ls) && (p.nAt.NResume? ==> m.c.suspended > 0)
    ensures Attended(NotifyStep(m, p), m.c.cur)
  {
    hide EventHome, Home, PriorityOk, QueuesOk, Clocked, Shaped, Sound, DelayCurrent, ResumeAll, MarkWaiting, Consume,
         NothingYet;
    CoreShaped(m.c, m.idle);
    assert TaskPcOk(m, m.c.cur);
    HasRecord(m.c);
    MarkFrame(m.c, p.k);
    ConsumeFrame(m.c, p.k);
    match p.nAt
    case NAdd => AddAttended(m, p);
    case NResume => ResumeHeeds(m.c, m.c.cur, m.idle);
    case _ =>
  }

  lemma AddAttended(m: Machine, p: Pc)
    requires Inv(m) && m.c.cur != m.idle && PcOf(m, m.c.cur) == p && p.InNotify? && p.nAt.NAdd? && Attended(m, m.c.cur)
    requires Sound(m.c.ls)
    ensures Attended(NotifyStep(m, p), m.c.cur)
  {
    hide EventHome, Home, PriorityOk, QueuesOk, Clocked, Shaped, Sound, DelayCurrent;
    assert TaskPcOk(m, m.c.cur);
    if p.block { DelayCore(m.c, p.nWait, true, m.idle); }
  }

  lemma OwnAttended(m: Machine)
    requires Inv(m) && Enabled(m, Continue) && Attended(m, m.c.cur)
    ensures Sound(m.c.ls) && CanResume(m) && Attended(Go(m), m.c.cur)
  {
    hide EventHome, Home, QueuesOk, Clocked, Shaped, Sound, Smooth, Heeds, QueueStep, DelayStep, NotifyStep,
         SwitchContext, ResetNext, CurOk, HighOk, TaskPcOk, YieldTo, Heard;
    CoreShaped(m.c, m.idle);
    Runs.Ready(m);
    var p := PcOf(m, m.c.cur);
    assert PcOf(m, m.idle) == User;
    match p
    case Yielding(next) => YieldAttended(m, next);
    case InQueue(_, _, _, _, _, _) => QueueWaits(m, p);
    case InDelay(d, at) => DelayWaits(m, p);
    case InNotify(_, _, _, _) => NotifyAttended(m, p);
    case InSuspend(u) => ResetNextFrame(m.c);
    case InCreate(u) =>
  }

  lemma YieldAttended(m: Machine, next: Pc)
    requires Inv(m) && PcOf(m, m.c.cur) == Yielding(next) && Attended(m, m.c.cur)
    ensures Attended(Do(Goto(m, next), SwitchContext(m.c)), m.c.cur)
  {
    hide EventHome, Home, PriorityOk, QueuesOk, Clocked, Shaped, Smooth, Heard, SwitchContext;
    assert TaskPcOk(m, m.c.cur);
    SwitchSmooth(m.c, m.idle);
    SmoothFirm(m.c, SwitchContext(m.c), m.c.cur);
  }

  lemma CallWaits(m: Machine, s: Step)
    requires Sound(m.c.ls) && CanResume(m) && Enabled(m, s) && IsCall(s)
    ensures !Waits(PcOf(Apply(m, s), m.c.cur))
  {
    hide Sound, CanResume, CallAllowed, ResumeAll, SuspendTask, ResumeTask, PrioritySet, CreateTask, Notify, Reset,
         Left, WokenOf;
  }

  lemma InterruptPc(m: Machine, s: Step)
    requires Sound(m.c.ls) && CanResume(m) && Enabled(m, s) && !IsCall(s) && !s.Continue?
    ensures Apply(m, s).pc == m.pc
  {
    hide Sound, CanResume, CallAllowed, IncrementTick, SendFromISR, ReceiveFromISR, NotifyFromISR, ResumeFromISR,
         SwitchContext, Left, WokenOf;
  }

  lemma SamePcAttended(m: Machine, m': Machine, t: Task)
    requires PcOf(m', t) == PcOf(m, t) && Attended(m, t) && Heeds(m.c, m'.c, t)
    requires YetToBlock(PcOf(m, t)) ==> m.c.suspended > 0 && Firm(m.c, m'.c, t)
    ensures Attended(m', t)
  {
    hide EventHome, Home, Heard;
  }

  /** One step other than the task's suspension keeps it attended. */
  lemma StepAttended(m: Machine, s: Step, t: Task)
    requires Inv(m) && Enabled(m, s) && s != CallSuspend(t) && Attended(m, t)
    ensures Sound(m.c.ls) && CanResume(m) && Attended(Apply(m, s), t)
  {
    hide EventHome, Home, CoreOk, PriorityOk, QueuesOk, Sound, Heeds, Apply, Enabled, PcRange, ParkedOn, NotifyPc,
         MayBeListed, Away, Go, CanResume, Attended;
    Runs.Ready(m);
    assert TaskPcOk(m, t);
    if s.Continue? {
      GoIsContinue(m);
      if t == m.c.cur {
        OwnAttended(m);
      } else {
        GoHeeds(m, t);
        OtherPcs(m, s, t);
        SamePcAttended(m, Go(m), t);
      }
    } else if IsCall(s) {
      CallAttended(m, s, t);
    } else {
      InterruptFirm(m, s, t);
      InterruptPc(m, s);
      SamePcAttended(m, Apply(m, s), t);
    }
  }

  lemma CallAttended(m: Machine, s: Step, t: Task)
    requires Inv(m) && Enabled(m, s) && IsCall(s) && s != CallSuspend(t) && Attended(m, t) && Sound(m.c.ls)
    requires CanResume(m)
    ensures Attended(Apply(m, s), t)
  {
    hide EventHome, Home, CoreOk, PriorityOk, QueuesOk, Sound, Heeds, Apply, CanResume, CurOk;
    if t == m.c.cur {
      CallWaits(m, s);
    } else if s.CallCreate? && s.t == t {
      NewPc(m, s);
    } else {
      assert TaskPcOk(m, t);
      CallHeeds(m, s, t);
      OtherPcs(m, s, t);
      SamePcAttended(m, Apply(m, s), t);
    }
  }

  lemma NewPc(m: Machine, s: Step)
    requires Sound(m.c.ls) && CanResume(m) && Enabled(m, s) && s.CallCreate? && s.t != m.c.cur
    ensures PcOf(Apply(m, s), s.t) == User
  {
    hide Sound, CanResume, CreateTask;
    CreateFrame(m.c, s.t, s.p);
  }

  /* ----- whole runs ----- */

  lemma {:induction false} RunAttended(m: Machine, ss: seq<Step>, t: Task)
    requires Inv(m) && Possible(m, ss) && Attended(m, t) && CallSuspend(t) !in ss
    ensures Attended(Exec(m, ss), t)
    decreases |ss|
  {
    hide Inv, Apply, Enabled, Attended, Sound, CanResume;
    if ss != [] {
      StepKeeps(m, ss[0]);
      StepAttended(m, ss[0], t);
      RunAttended(Apply(m, ss[0]), ss[1..], t);
    }
  }

  /** In every run that does not suspend it, a task blocked in ulTaskNotifyTake or
      xTaskNotifyWait that is not ready still awaits its notification, or has been sent to the
      pending ready list: one whose notification has been received is ready, or will be as soon
      as the scheduler is resumed. */
  lemma NoNoticeMissed(ps: seq<nat>, qs: map<QueueId, Queue>, ss: seq<Step>, t: Task)
    requires RunsFromStart(ps, qs, ss) && CallSuspend(t) !in ss
    requires var p := PcOf(Reached(ps, qs, ss), t); Waits(p) && !YetToBlock(p)
    ensures var c := Reached(ps, qs, ss).c;
            && (OnReady(Home(c.ls, t)) || EventHome(c.ls, t) == On(Pending) || AwaitsNotify(c, t))
            && (t in c.notify && c.notify[t] == Received ==> OnReady(Home(c.ls, t))
                                                             || EventHome(c.ls, t) == On(Pending))
            && (EventHome(c.ls, t) == On(Pending) ==> c.suspended > 0)
  {
    hide Inv, Start, Possible, Exec, Home, EventHome;
    StartOk(ps, qs);
    StartAttended(ps, qs, t);
    RunAttended(Start(ps, qs), ss, t);
    PendingOnly(Reached(ps, qs, ss), t);
  }

  lemma StartAttended(ps: seq<nat>, qs: map<QueueId, Queue>, t: Task)
    ensures Attended(Start(ps, qs), t)
  {
    hide Created;
  }

  lemma PendingOnly(m: Machine, t: Task)
    requires Inv(m)
    ensures EventHome(m.c.ls, t) == On(Pending) ==> m.c.suspended > 0
  {
    hide PcOk, PriorityOk, QueuesOk, Clocked, Shaped, Home, EventHome;
  }
}

/** Whole runs of the kernel: what holds in every reachable state. */
module Runs {
  import opened Config
  import opened Lists
  import opened Kernel
  import opened Queues
  import opened Shape
  import opened Clock
  import opened Priority
  import opened Machine
  import opened Invariant
  import opened Steps
  import opened Blocking
  import opened QueueSteps
  import opened Attempts
  import opened Setup

  lemma Ready(m: Machine)
    requires Inv(m)
    ensures Sound(m.c.ls) && CanResume(m)
  {
    hide EventHome, Home, Clocked, HighOk, QueuesOk, TaskOk, TaskPcOk;
  }

  lemma QueueStepKeeps(m: Machine, p: Pc)
    requires Inv(m) && m.c.cur != m.idle && PcOf(m, m.c.cur) == p && p.InQueue?
    ensures Sound(m.c.ls) && (p.at.ToResume? ==> m.c.suspended > 0)
    ensures var m' := QueueStep(m, p); Inv(m') && NoneLostBy(m, m')
  {
    hide EventHome, Home, CoreOk, Sound, HighOk, NoneLostBy, QueuesOk, QueueTop, QueuePlace, QueueCheck, QueueResume,
         UnlockSide, SuspendAll, LockQueue, MustBlock, QueueOf;
    CoreShaped(m.c, m.idle);
    assert TaskPcOk(m, m.c.cur);
    match p.at
    case AtTop => HeadStep(m, p);
    case ToSuspend => SuspendAllStep(m, p.(at := ToLock));
    case ToLock => LockStep(m, p);
    case ToCheck => CheckStep(m, p);
    case ToTest => TestStep(m, p);
    case ToPlace => PlaceStep(m, p);
    case ToUnlockTx(a) => UnlockTxStep(m, p);
    case ToUnlockRx(a) => UnlockRxStep(m, p);
    case ToResume(a) => QueueResumeStep(m, p);
    case ToRetest => OwnMove(m, if QueueOf(m.c, p.q).count == 0 then User else p.(at := AtTop));
  }

  lemma CheckStep(m: Machine, p: Pc)
    requires Inv(m) && m.c.cur != m.idle && PcOf(m, m.c.cur) == p && p.InQueue? && p.at.ToCheck?
    ensures var m' := QueueCheck(m, p); Inv(m') && NoneLostBy(m, m')
  {
    hide EventHome, Home, CoreOk, HighOk, NoneLostBy, QueuesOk, CheckForTimeOut;
    assert TaskPcOk(m, m.c.cur);
    var r := CheckForTimeOut(m.c, p.to, p.wait);
    CheckRange(m.c, p.to, p.wait);
    OwnMove(m, p.(to := r.1, wait := r.2, at := if r.0 then ToUnlockTx(Expired) else ToTest));
  }

  lemma CheckRange(c: Core, to: TimeOut, wait: nat)
    requires 0 < wait < TWO_32
    ensures var r := CheckForTimeOut(c, to, wait); r.2 <= wait && (!r.0 ==> r.2 > 0)
  {}

  lemma UnlockTxStep(m: Machine, p: Pc)
    requires Inv(m) && m.c.cur != m.idle && PcOf(m, m.c.cur) == p && p.InQueue? && p.at.ToUnlockTx? && Sound(m.c.ls)
    ensures var m' := QueueStep(m, p); Inv(m') && NoneLostBy(m, m')
  {
    hide Inv, NoneLostBy, UnlockSide;
    UnlockStep(m, p, Recv, ToUnlockRx(p.at.a));
  }

  lemma UnlockRxStep(m: Machine, p: Pc)
    requires Inv(m) && m.c.cur != m.idle && PcOf(m, m.c.cur) == p && p.InQueue? && p.at.ToUnlockRx? && Sound(m.c.ls)
    ensures var m' := QueueStep(m, p); Inv(m') && NoneLostBy(m, m')
  {
    hide Inv, NoneLostBy, UnlockSide;
    UnlockStep(m, p, Side.Send, ToResume(p.at.a));
  }

  lemma QueueResumeStep(m: Machine, p: Pc)
    requires Inv(m) && m.c.cur != m.idle && PcOf(m, m.c.cur) == p && p.InQueue? && p.at.ToResume?
    ensures Sound(m.c.ls) && m.c.suspended > 0
    ensures var m' := QueueResume(m, p); Inv(m') && NoneLostBy(m, m')
  {
    hide EventHome, Home, CoreOk, HighOk, NoneLostBy, QueuesOk, ResumeAll;
    CoreShaped(m.c, m.idle);
    assert TaskPcOk(m, m.c.cur);
    var r := ResumeAll(m.c);
    var next := match p.at.a
      case Placed => if r.1 then p.(at := AtTop) else Yielding(p.(at := AtTop))
      case Retry => p.(at := AtTop)
      case Expired => if p.op.OpSend? then User else p.(at := ToRetest);
    ResumeAllStep(m, next);
  }

  lemma GoStep(m: Machine)
    requires Inv(m) && Enabled(m, Continue)
    ensures Sound(m.c.ls) && CanResume(m)
    ensures var m' := Go(m); Inv(m') && NoneLostBy(m, m')
  {
    hide EventHome, Home, CoreOk, Sound, HighOk, NoneLostBy, QueuesOk, QueueStep, DelayStep, NotifyStep,
         SwitchContext, YieldTo, ResetNext, CurOk, TaskPcOk;
    Ready(m);
    var p := PcOf(m, m.c.cur);
    assert PcOf(m, m.idle) == User;
    match p
    case Yielding(next) => YieldingStep(m, next);
    case InQueue(_, _, _, _, _, _) => QueueStepKeeps(m, p);
    case InDelay(d, at) => InDelayStep(m, d, at);
    case InNotify(_, _, _, _) => InNotifyStep(m, p);
    case InSuspend(t) => InSuspendStep(m, t);
    case InCreate(t) => InCreateStep(m, t);
  }

  /** Every step keeps the invariant, and loses no wake-up of any side of any queue, but for
      the senders of a queue that is reset. */
  lemma StepKeeps(m: Machine, s: Step)
    requires Inv(m) && Enabled(m, s)
    ensures Sound(m.c.ls) && CanResume(m) && Inv(Apply(m, s))
    ensures forall q, d :: NoneLost(m, q, d) && !(s == CallReset(q) && d.Send?) ==> NoneLost(Apply(m, s), q, d)
  {
    hide Inv, NoneLost, CanResume, Sound, CallAllowed, Tick, SendFromISR, ReceiveFromISR, NotifyFromISR,
         ResumeFromISR, SwitchContext, Go, SuspendTask, ResumeTask, PrioritySet, CreateTask, Notify, SuspendAll,
         ResumeAll, CreateQueue, Reset, PcOf;
    Ready(m);
    match s
    case TickInterrupt => StepTick(m);
    case IsrSend(q, pos) => StepIsrSend(m, q, pos);
    case IsrReceive(q) => StepIsrReceive(m, q);
    case IsrNotify(t, a) => StepIsrNotify(m, t, a);
    case IsrResume(t) => StepIsrResume(m, t);
    case Yield => StepYield(m);
    case Continue => GoStep(m);
    case _ => CallKeeps(m, s);
  }

  predicate IsCall(s: Step) {
    !s.TickInterrupt? && !s.IsrSend? && !s.IsrReceive? && !s.IsrNotify? && !s.IsrResume? && !s.Yield? && !s.Continue?
  }

  lemma CallKeeps(m: Machine, s: Step)
    requires Inv(m) && Enabled(m, s) && IsCall(s) && Sound(m.c.ls) && CanResume(m)
    ensures Inv(Apply(m, s))
    ensures forall q, d :: NoneLost(m, q, d) && !(s == CallReset(q) && d.Send?) ==> NoneLost(Apply(m, s), q, d)
  {
    hide Inv, NoneLost, CanResume, Sound, Tick, SendFromISR, ReceiveFromISR, NotifyFromISR, ResumeFromISR,
         SwitchContext, Go, SuspendTask, ResumeTask, PrioritySet, CreateTask, Notify, SuspendAll, ResumeAll,
         CreateQueue, Reset, PcOf;
    match s
    case CallQueue(q, op, wait) => CallQueueStep(m, q, op, wait);
    case CallDelay(d) => CallDelayStep(m, d);
    case CallNotify(k, wait) => CallNotifyStep(m, k, wait);
    case CallSuspend(t) => CallSuspendStep(m, t);
    case CallResume(t) => CallResumeStep(m, t);
    case CallPrioritySet(t, p) => CallPrioritySetStep(m, t, p);
    case CallCreate(t, p) => CreateStep(m, t, p);
    case CallNotifyOther(t, a) => CallNotifyOtherStep(m, t, a);
    case CallSuspendAll => CallSuspendAllStep(m);
    case CallResumeAll => CallResumeAllStep(m);
    case CallCatchUp(n) => CallCatchUpStep(m, n);
    case CallCreateQueue(q, length, size) => NewQueueStep(m, q, length, size);
    case CallReset(q) => ResetStep(m, q);
    case _ => 
  }
}

/** Every step of a task inside one of its own kernel calls keeps the invariant. */
module Blocking {
  import opened Config
  import opened Lists
  import opened Kernel
  import opened Shape
  import opened Clock
  import opened Priority
  import opened Machine
  import opened Invariant
  import opened CoreSteps
  import opened Wakeups
  import opened Steps

  /* ----- steps that delays, notifications and queue calls share ----- */

  // vTaskSuspendAll: any call that is about to suspend the scheduler, to any place inside.
  lemma SuspendAllStep(m: Machine, p: Pc)
    requires Inv(m) && m.c.cur != m.idle && PcRange(m.c, p)
    requires var p0 := PcOf(m, m.c.cur);
             && m.c.suspended == 0 && !Away(p0, m.c.cur) && !MayBeListed(p0) && !ParkedOn(p0).On? && !NotifyPc(p0)
             && !Holding(p0)
             && !p0.InCreate?
    requires Holding(p) && !NeedsRunning(p, m.c.cur) && !Away(p, m.c.cur) && !p.InCreate?
    requires forall q, s :: !HoldsLock(p, q, s) && !AboutToWait(p, q, s)
    ensures var m' := Goto(Do(m, SuspendAll(m.c)), p); Inv(m') && NoneLostBy(m, m')
  {
    hide EventHome, Home, Shaped, Clocked, HighOk, NoneLostBy, HoldsLock, AboutToWait, ParkedOn, Away, NeedsRunning,
         MayBeListed, NotifyPc, QueuesOk, PcRange, Holding;
    var m' := Goto(Do(m, SuspendAll(m.c)), p);
    CurCreated(m);
    assert TaskPcOk(m, m.c.cur);
    SuspendAllCore(m.c, m.idle);
    EventsSame(m.c, m'.c);
    NotHolding(PcOf(m, m.c.cur));
    RangeKept(m.c, m'.c, p);
    OwnStep(m, m', p);
  }

  // xTaskResumeAll at the end of a call's suspension.
  lemma ResumeAllStep(m: Machine, p: Pc)
    requires Inv(m) && m.c.cur != m.idle && PcRange(m.c, p) && m.c.suspended == 1
    requires var p0 := PcOf(m, m.c.cur);
             && !p0.InCreate? && (ParkedOn(p0).On? ==> ParkedOn(p) == ParkedOn(p0)) && (NotifyPc(p0) ==> NotifyPc(p))
             && (forall q, s :: !HoldsLock(p0, q, s))
             && (!Away(p0, m.c.cur) || ResumeAll(m.c).1 || Away(p, m.c.cur))
    requires !Holding(p) && !p.InCreate? && (Away(p, m.c.cur) ==> MayBeListed(p))
    ensures var m' := Do(Goto(m, p), ResumeAll(m.c).0); Inv(m') && NoneLostBy(m, m')
  {
    hide EventHome, Home, Shaped, Clocked, HighOk, NoneLostBy, HoldsLock, AboutToWait, ParkedOn, Away, NeedsRunning,
         MayBeListed, NotifyPc, QueuesOk, PcRange, Holding, ResumeAll, EventKept;
    CoreShaped(m.c, m.idle);
    var m' := Do(Goto(m, p), ResumeAll(m.c).0);
    CurCreated(m);
    assert TaskPcOk(m, m.c.cur);
    ResumeAllCore(m.c, m.idle);
    KeptShrinks(m.c, m'.c);
    ResumedPc(m, m', p);
    NotHolding(p);
    HighWeaken(m'.c, JustCreated(PcOf(m', m'.c.cur)));
    OwnStep(m, m', p);
  }

  lemma ResumedPc(m: Machine, m': Machine, p: Pc)
    requires CoreOk(m'.c, m.idle) && m'.c.suspended == 0 && m'.c.prio.Keys == m.c.prio.Keys && m'.c.queues == m.c.queues
    requires TaskPcOk(m, m.c.cur) && EventKept(m.c, m'.c, m.c.cur) && PcRange(m.c, p) && m.c.cur in m.c.prio
    requires CurOk(m) && (OnReady(Home(m.c.ls, m.c.cur)) ==> OnReady(Home(m'.c.ls, m.c.cur)))
    requires m' == m.(c := m'.c, pc := m.pc[m.c.cur := p])
    requires var p0 := PcOf(m, m.c.cur);
             && (ParkedOn(p0).On? ==> ParkedOn(p) == ParkedOn(p0)) && (NotifyPc(p0) ==> NotifyPc(p))
             && (Away(p0, m.c.cur) && !Away(p, m.c.cur) && m'.c.cur == m.c.cur ==> OnReady(Home(m'.c.ls, m.c.cur)))
    requires !Holding(p) && (Away(p, m.c.cur) ==> MayBeListed(p))
    ensures TaskPcOk(m', m.c.cur) && (m'.c.cur == m.c.cur ==> CurOk(m'))
  {
    hide EventHome, Home, Shaped, Clocked, ParkedOn, Away, NeedsRunning, MayBeListed, NotifyPc, PcRange, Holding;
    RangeKept(m.c, m'.c, p);
    var w := EventHome(m.c.ls, m.c.cur);
    if OnWait(w) { ParkedOnWait(PcOf(m, m.c.cur)); }
    if m'.c.cur == m.c.cur && OnReady(Home(m'.c.ls, m.c.cur)) { SwitchedCurOk(m'); }
  }

  // portYIELD_WITHIN_API
  lemma YieldingStep(m: Machine, next: Pc)
    requires Inv(m) && m.c.cur != m.idle && PcOf(m, m.c.cur) == Yielding(next)
    ensures var m' := Do(Goto(m, next), SwitchContext(m.c)); Inv(m') && NoneLostBy(m, m')
  {
    hide EventHome, Home, Shaped, Clocked, Wakes, HighOk, NoneLostBy, HoldsLock, AboutToWait, QueuesOk, SwitchContext,
         EventKept, ParkedOn, NotifyPc, PcRange;
    var m' := Do(Goto(m, next), SwitchContext(m.c));
    CurCreated(m);
    assert TaskPcOk(m, m.c.cur);
    CoreShaped(m.c, m.idle);
    SwitchSmooth(m.c, m.idle);
    SwitchSettles(m.c, m.idle);
    SmoothCore(m.c, m'.c, m.idle);
    SmoothKeepsEvents(m.c, m'.c);
    YieldsInto(m.c, next);
    YieldedPc(m, m', next);
    NotHolding(next);
    NotHolding(PcOf(m, m.c.cur));
    OwnStep(m, m', next);
  }

  lemma YieldsInto(c: Core, next: Pc)
    requires PcRange(c, Yielding(next))
    ensures PcRange(c, next) && !Holding(next) && !next.InCreate?
    ensures ParkedOn(Yielding(next)) == ParkedOn(next) && NotifyPc(Yielding(next)) == NotifyPc(next)
    ensures !Away(next, c.cur)
  {}

  lemma YieldedPc(m: Machine, m': Machine, next: Pc)
    requires TaskPcOk(m, m.c.cur) && CurOk(m) && PcOf(m, m.c.cur) == Yielding(next)
    requires CoreOk(m'.c, m.idle) && m'.c.prio.Keys == m.c.prio.Keys && m'.c.queues == m.c.queues && m.c.cur in m.c.prio
    requires EventKept(m.c, m'.c, m.c.cur) && m.c.suspended == 0 == m'.c.suspended && OnReady(Home(m'.c.ls, m'.c.cur))
    requires m' == m.(c := m'.c, pc := m.pc[m.c.cur := next])
    requires PcRange(m.c, next) && !Holding(next)
    requires ParkedOn(Yielding(next)) == ParkedOn(next) && NotifyPc(Yielding(next)) == NotifyPc(next)
    ensures TaskPcOk(m', m.c.cur) && (m'.c.cur == m.c.cur ==> CurOk(m'))
  {
    hide EventHome, Home, Shaped, Clocked, ParkedOn, NotifyPc, PcRange, Holding;
    RangeKept(m.c, m'.c, next);
    if m'.c.cur == m.c.cur { SwitchedCurOk(m'); }
  }

  /* ----- suspending and creating ----- */

  lemma InSuspendStep(m: Machine, t: Task)
    requires Inv(m) && m.c.cur != m.idle && PcOf(m, m.c.cur) == InSuspend(t)
    ensures var m' := Goto(Do(m, ResetNext(m.c)), if t == m.c.cur then Yielding(User) else User);
            Inv(m') && NoneLostBy(m, m')
  {
    hide EventHome, Home, Shaped, Clocked, HighOk, NoneLostBy, QueuesOk, ResetNext, WaitsShrink;
    var p := if t == m.c.cur then Yielding(User) else User;
    var m' := Goto(Do(m, ResetNext(m.c)), p);
    CurCreated(m);
    assert TaskPcOk(m, m.c.cur);
    ResetNextCore(m.c, m.idle);
    ResetNextFrame(m.c);
    EventsSame(m.c, m'.c);
    OwnStep(m, m', p);
  }

  lemma InCreateStep(m: Machine, t: Task)
    requires Inv(m) && m.c.cur != m.idle && PcOf(m, m.c.cur) == InCreate(t)
    ensures var m' := Do(Goto(m, User), YieldTo(m.c, t)); Inv(m') && NoneLostBy(m, m')
  {
    hide EventHome, Home, Shaped, Clocked, Wakes, NoneLostBy, QueuesOk, SwitchContext, EventKept, HighOk;
    var m' := Do(Goto(m, User), YieldTo(m.c, t));
    CurCreated(m);
    assert TaskPcOk(m, m.c.cur);
    CoreShaped(m.c, m.idle);
    CreatedYield(m.c, t, m.idle);
    SmoothCore(m.c, m'.c, m.idle);
    SmoothReady(m.c, m'.c);
    SmoothKeepsEvents(m.c, m'.c);
    HighWeaken(m'.c, JustCreated(PcOf(m', m'.c.cur)));
    assert EventKept(m.c, m'.c, m.c.cur);
    CreatedPc(m, m');
    OwnStep(m, m', User);
  }

  lemma CreatedYield(c: Core, t: Task, r: Task)
    requires Shaped(c) && HighOk(c, {t}) && OnReady(Home(c.ls, r))
    ensures Smooth(c, YieldTo(c, t)) && HighOk(YieldTo(c, t)) && YieldTo(c, t).queues == c.queues
    ensures YieldTo(c, t).notify == c.notify
  {
    hide Shaped, Smooth, Home, SwitchContext;
    SmoothSelf(c, c);
    if Prio(c, c.cur) < Prio(c, t) { SwitchSmooth(c, r); }
  }

  lemma CreatedPc(m: Machine, m': Machine)
    requires TaskPcOk(m, m.c.cur) && CurOk(m) && PcOf(m, m.c.cur).InCreate? && EventKept(m.c, m'.c, m.c.cur)
    requires m' == m.(c := m'.c, pc := m.pc[m.c.cur := User])
    requires m'.c.prio.Keys == m.c.prio.Keys && m.c.cur in m.c.prio
    requires OnReady(Home(m.c.ls, m.c.cur)) ==> OnReady(Home(m'.c.ls, m.c.cur))
    ensures TaskPcOk(m', m.c.cur) && (m'.c.cur == m.c.cur ==> CurOk(m'))
  {
    hide EventHome, Home;
  }

  /* ----- delays ----- */

  lemma DelayTicksBound(c: Core, d: DelayKind)
    requires PcRange(c, InDelay(d, DAdd))
    ensures DelayTicks(c, d) < TWO_32
  {}

  // prvAddCurrentTaskToDelayedList by a task that is inside a call.
  lemma DelayStepInv(m: Machine, n: nat, forever: bool, p: Pc)
    requires Inv(m) && m.c.cur != m.idle && 0 < n < TWO_32 && PcRange(m.c, p)
    requires var p0 := PcOf(m, m.c.cur);
             && Holding(p0) && Holding(p) && !Away(p0, m.c.cur) && Away(p, m.c.cur) && ParkedOn(p0).Nowhere?
             && !p0.InCreate?
             && NotifyPc(p0) == NotifyPc(p) && (MayBeListed(p0) ==> MayBeListed(p))
    requires !NeedsRunning(p, m.c.cur) && !p.InCreate? && ParkedOn(p).Nowhere?
    requires forall q, s :: !HoldsLock(p, q, s) && !HoldsLock(PcOf(m, m.c.cur), q, s) && !AboutToWait(p, q, s)
    ensures var m' := Goto(Do(m, DelayCurrent(m.c, n, forever)), p); Inv(m') && NoneLostBy(m, m')
  {
    hide EventHome, Home, Shaped, Clocked, HighOk, NoneLostBy, HoldsLock, AboutToWait, ParkedOn, Away, NeedsRunning,
         MayBeListed, NotifyPc, QueuesOk, PcRange, Holding, DelayCurrent;
    var m' := Goto(Do(m, DelayCurrent(m.c, n, forever)), p);
    CurCreated(m);
    assert TaskPcOk(m, m.c.cur);
    DelayCore(m.c, n, forever, m.idle);
    MovedEvents(m.c, m'.c, m.c.cur);
    RangeKept(m.c, m'.c, p);
    OwnStep(m, m', p);
  }

  lemma MovedEvents(c: Core, c': Core, t: Task)
    requires OnlyMoved(c, c', t)
    ensures forall u :: u != t ==> EventKept(c, c', u)
    ensures EventHome(c'.ls, t) == EventHome(c.ls, t) ==> WaitsShrink(c, c')
  {
    hide EventHome, Home;
  }

  lemma InDelayStep(m: Machine, d: DelayKind, at: DStage)
    requires Inv(m) && m.c.cur != m.idle && PcOf(m, m.c.cur) == InDelay(d, at)
    ensures Sound(m.c.ls) && (at.DResume? ==> m.c.suspended > 0)
    ensures var m' := DelayStep(m, InDelay(d, at)); Inv(m') && NoneLostBy(m, m')
  {
    hide EventHome, Home, Shaped, Clocked, HighOk, NoneLostBy, QueuesOk, DelayCurrent, DelayTicks, ResumeAll,
         SuspendAll;
    CoreShaped(m.c, m.idle);
    assert TaskPcOk(m, m.c.cur);
    match at
    case DSuspend => SuspendAllStep(m, InDelay(d, DAdd));
    case DAdd =>
      var n := DelayTicks(m.c, d);
      DelayTicksBound(m.c, d);
      if n > 0 {
        DelayStepInv(m, n, false, InDelay(d, DResume));
      } else {
        OwnMove(m, InDelay(d, DResume));
      }
    case DResume => ResumeAllStep(m, if ResumeAll(m.c).1 then User else Yielding(User));
  }

  /* ----- notifications ----- */

  // A change to one task's notification record.
  ghost predicate RecordOnly(c: Core, c': Core) {
    && c' == c.(notify := c'.notify, value := c'.value)
    && c'.notify.Keys == c.notify.Keys && c'.value.Keys == c.value.Keys
    && forall t :: t != c.cur ==> (AwaitsNotify(c', t) <==> AwaitsNotify(c, t))
  }

  // Only the running task's notification record changes.
  lemma NotifyRecordCore(c: Core, c': Core, idle: Task)
    requires CoreOk(c, idle) && RecordOnly(c, c')
    ensures CoreOk(c', idle) && WaitsShrink(c, c') && (forall t :: t != c.cur ==> EventKept(c, c', t))
    ensures forall ex :: HighOk(c', ex) == HighOk(c, ex)
  {
    hide EventHome, Home, Sound, Clocked, HighOk;
    forall t ensures TaskOk(c', t) { assert TaskOk(c, t); }
    YieldKeepsTime(c, c');
    HighSame(c, c');
  }

  lemma MarkFrame(c: Core, k: NotifyWait)
    requires c.cur in c.notify && c.cur in c.value
    ensures RecordOnly(c, MarkWaiting(c, k)) && (NothingYet(c, k) ==> AwaitsNotify(MarkWaiting(c, k), c.cur))
  {
    hide NothingYet;
  }

  lemma ConsumeFrame(c: Core, k: NotifyWait)
    requires c.cur in c.notify && c.cur in c.value
    ensures RecordOnly(c, Consume(c, k)) && !AwaitsNotify(Consume(c, k), c.cur)
  {}

  lemma HasRecord(c: Core)
    requires Shaped(c)
    ensures c.cur in c.notify && c.cur in c.value
  {
    hide Sound, TaskOk;
  }

  lemma RecordStep(m: Machine, c': Core, p: Pc)
    requires Inv(m) && m.c.cur != m.idle && RecordOnly(m.c, c')
    requires AwaitsNotify(c', m.c.cur) ==> NotifyPc(p) && !MayBeListed(PcOf(m, m.c.cur))
    requires PcRange(m.c, p) && !p.InQueue? && !PcOf(m, m.c.cur).InQueue? && ParkedOn(PcOf(m, m.c.cur)).Nowhere?
    requires ParkedOn(p).Nowhere?
    requires !MayBeListed(PcOf(m, m.c.cur)) && !Away(PcOf(m, m.c.cur), m.c.cur) && !PcOf(m, m.c.cur).InCreate?
    requires !p.InCreate?
    requires (Holding(p) ==> Holding(PcOf(m, m.c.cur))) && !NeedsRunning(p, m.c.cur)
    ensures var m' := Goto(Do(m, c'), p); Inv(m') && NoneLostBy(m, m')
  {
    hide EventHome, Home, Shaped, Clocked, HighOk, NoneLostBy, QueuesOk, ParkedOn, Away, NeedsRunning, MayBeListed,
         NotifyPc, PcRange, Holding;
    var m' := Goto(Do(m, c'), p);
    CurCreated(m);
    assert TaskPcOk(m, m.c.cur);
    NotifyRecordCore(m.c, c', m.idle);
    RangeKept(m.c, c', p);
    OwnStep(m, m', p);
  }

  lemma InNotifyRecord(m: Machine, p: Pc)
    requires Inv(m) && m.c.cur != m.idle && PcOf(m, m.c.cur) == p && p.InNotify? && (p.nAt.NMark? || p.nAt.NFinal?)
    requires Sound(m.c.ls)
    ensures var m' := NotifyStep(m, p); Inv(m') && NoneLostBy(m, m')
  {
    hide EventHome, Home, Shaped, Sound, Clocked, HighOk, NoneLostBy, QueuesOk, MarkWaiting, Consume, NothingYet,
         AwaitsNotify, RecordOnly;
    CoreShaped(m.c, m.idle);
    assert TaskPcOk(m, m.c.cur);
    HasRecord(m.c);
    if p.nAt.NMark? {
      MarkFrame(m.c, p.k);
      RecordStep(m, MarkWaiting(m.c, p.k), p.(block := NothingYet(m.c, p.k) && p.nWait > 0, nAt := NAdd));
    } else {
      ConsumeFrame(m.c, p.k);
      RecordStep(m, Consume(m.c, p.k), User);
    }
  }

  lemma InNotifyAdd(m: Machine, p: Pc)
    requires Inv(m) && m.c.cur != m.idle && PcOf(m, m.c.cur) == p && p.InNotify? && p.nAt.NAdd?
    requires Sound(m.c.ls)
    ensures var m' := NotifyStep(m, p); Inv(m') && NoneLostBy(m, m')
  {
    hide EventHome, Home, Shaped, Sound, Clocked, HighOk, NoneLostBy, QueuesOk, DelayCurrent, AwaitsNotify;
    assert TaskPcOk(m, m.c.cur);
    if p.block {
      DelayStepInv(m, p.nWait, true, p.(nAt := NResume));
    } else {
      OwnMove(m, p.(nAt := NResume));
    }
  }

  lemma InNotifyStep(m: Machine, p: Pc)
    requires Inv(m) && m.c.cur != m.idle && PcOf(m, m.c.cur) == p && p.InNotify?
    ensures Sound(m.c.ls) && (p.nAt.NResume? ==> m.c.suspended > 0)
    ensures var m' := NotifyStep(m, p); Inv(m') && NoneLostBy(m, m')
  {
    hide EventHome, Home, Shaped, Sound, Clocked, HighOk, NoneLostBy, QueuesOk, ResumeAll, SuspendAll, AwaitsNotify;
    CoreShaped(m.c, m.idle);
    assert TaskPcOk(m, m.c.cur);
    match p.nAt
    case NSuspend => SuspendAllStep(m, p.(nAt := NMark));
    case NMark => InNotifyRecord(m, p);
    case NAdd => InNotifyAdd(m, p);
    case NResume =>
      var next := p.(nAt := NFinal);
      ResumeAllStep(m, if p.block && !ResumeAll(m.c).1 then Yielding(next) else next);
    case NFinal => InNotifyRecord(m, p);
  }
}

/** Every step of the kernel state machine keeps its invariant, and loses no wake-up. */
module Steps {
  import opened Config
  import opened Lists
  import opened Kernel
  import opened Queues
  import opened Shape
  import opened Clock
  import opened Priority
  import opened Machine
  import opened Invariant
  import opened CoreSteps
  import opened Wakeups

  // No side of any queue loses a wake-up by the step.
  ghost predicate NoneLostBy(m: Machine, m': Machine) {
    forall q, s :: NoneLost(m, q, s) ==> NoneLost(m', q, s)
  }

  /* ----- steps that leave the program counters and the queues alone ----- */

  lemma AmbientPc(m: Machine, m': Machine)
    requires PcOk(m) && CoreOk(m.c, m.idle) && CoreOk(m'.c, m.idle) && m'.idle == m.idle && m'.pc == m.pc
    requires m'.c.prio.Keys == m.c.prio.Keys && QueuesStay(m.c, m'.c)
    requires (forall t :: EventKept(m.c, m'.c, t)) && Switched(m.c, m'.c)
    requires OnReady(Home(m.c.ls, m.c.cur)) ==> OnReady(Home(m'.c.ls, m.c.cur))
    requires m'.c.suspended == m.c.suspended || PcOf(m, m.c.cur).User?
    ensures PcOk(m')
  {
    hide Home, EventHome, Sound, Clocked, Shaped;
    var t := m.c.cur;
    CurCreated(m);
    assert TaskPcOk(m, t) && EventKept(m.c, m'.c, t);
    RangeKept(m.c, m'.c, PcOf(m, t));
    PcStep(m, m');
  }

  lemma CurCreated(m: Machine)
    requires CoreOk(m.c, m.idle) && PcOk(m)
    ensures m.c.cur in m.c.prio && m.c.cur in m.pc && m.pc[m.c.cur] == PcOf(m, m.c.cur)
    ensures m.pc == m.pc[m.c.cur := PcOf(m, m.c.cur)]
  {
    assert TaskPcOk(m, m.c.cur);
  }

  lemma CalmQueues(m: Machine, m': Machine)
    requires QueuesOk(m) && m'.woken == m.woken && m'.c.queues == m.c.queues && m'.c.tasks == m.c.tasks
    requires m.c.prio.Keys <= m'.c.prio.Keys
    requires WaitsShrink(m.c, m'.c)
    requires forall t :: ParkedOn(PcOf(m, t)).On? ==> ParkedOn(PcOf(m', t)) == ParkedOn(PcOf(m, t))
    requires forall q, s :: HoldsLock(PcOf(m', m'.c.cur), q, s) <==> HoldsLock(PcOf(m, m.c.cur), q, s)
    requires forall q, s :: AboutToWait(PcOf(m', m'.c.cur), q, s) ==> AboutToWait(PcOf(m, m.c.cur), q, s)
    ensures QueuesOk(m') && NoneLostBy(m, m')
  {
    hide EventHome, HoldsLock, AboutToWait, NoneLost, ParkedOn;
    forall q, s ensures LockOk(m', q, s) { assert LockOk(m, q, s); }
    forall l ensures WokenOk(m', l) {
      assert WokenOk(m, l);
      WokenKept(m, m', l);
    }
    forall q, s | NoneLost(m, q, s) ensures NoneLost(m', q, s) { NoneLostElsewhere(m, m', q, s); }
  }

  lemma WokenKept(m: Machine, m': Machine, l: ListId)
    requires WokenOk(m, l) && WokenOf(m', l) <= WokenOf(m, l) && m.c.prio.Keys <= m'.c.prio.Keys
    requires WaitsShrink(m.c, m'.c)
    requires forall t :: t in WokenOf(m', l) && ParkedOn(PcOf(m, t)).On?
                         ==> ParkedOn(PcOf(m', t)) == ParkedOn(PcOf(m, t))
    ensures WokenOk(m', l)
  {
    hide EventHome, ParkedOn;
    forall t | t in WokenOf(m', l)
      ensures t in m'.c.prio && ParkedOn(PcOf(m', t)) == On(l) && EventHome(m'.c.ls, t) != On(l)
    {
      assert t in WokenOf(m, l);
      if EventHome(m'.c.ls, t) == On(l) { ParkedOnWait(PcOf(m, t)); }
    }
  }

  lemma ParkedOnWait(p: Pc)
    ensures ParkedOn(p).On? ==> ParkedOn(p).l.Wait?
  {}

  // Whoever runs before and after a switch holds no queue lock.
  lemma LocksAtSwitch(m: Machine, m': Machine)
    requires PcOk(m) && PcOk(m') && Switched(m.c, m'.c) && m'.pc == m.pc
    requires m'.c.suspended == m.c.suspended || PcOf(m, m.c.cur).User?
    ensures forall q, s :: HoldsLock(PcOf(m', m'.c.cur), q, s) <==> HoldsLock(PcOf(m, m.c.cur), q, s)
    ensures forall q, s :: AboutToWait(PcOf(m', m'.c.cur), q, s) ==> AboutToWait(PcOf(m, m.c.cur), q, s)
  {
    hide EventHome, Home;
    assert TaskPcOk(m, m'.c.cur);
  }

  /** A step that leaves program counters and queues alone and is smooth on the kernel's data. */
  lemma AmbientStep(m: Machine, m': Machine)
    requires Inv(m) && CoreOk(m'.c, m.idle) && m' == m.(c := m'.c, ticks := m'.ticks)
    requires m'.c.prio.Keys == m.c.prio.Keys && m'.c.queues == m.c.queues && m'.c.tasks == m.c.tasks
    requires (forall t :: EventKept(m.c, m'.c, t)) && Switched(m.c, m'.c)
    requires m'.c.suspended == m.c.suspended || PcOf(m, m.c.cur).User?
    requires OnReady(Home(m.c.ls, m.c.cur)) ==> OnReady(Home(m'.c.ls, m.c.cur))
    requires var ex := JustCreated(PcOf(m, m.c.cur)); HighOk(m.c, ex) ==> HighOk(m'.c, ex)
    requires m'.c.cur != m.c.cur ==> HighOk(m'.c)
    ensures Inv(m') && NoneLostBy(m, m')
  {
    hide EventHome, Home, CoreOk, PcOk, QueuesOk, HighOk, NoneLostBy, HoldsLock, AboutToWait, EventKept;
    AmbientPc(m, m');
    KeptShrinks(m.c, m'.c);
    LocksAtSwitch(m, m');
    CalmQueues(m, m');
    if m'.c.cur != m.c.cur { HighWeaken(m'.c, JustCreated(PcOf(m', m'.c.cur))); }
  }

  lemma SmoothReady(c: Core, c': Core)
    requires Smooth(c, c')
    ensures OnReady(Home(c.ls, c.cur)) ==> OnReady(Home(c'.ls, c.cur))
  {
    if OnReady(Home(c.ls, c.cur)) { ReadyStays(c, c', c.cur); }
  }

  /* ----- interrupts ----- */

  lemma StepTick(m: Machine)
    requires Inv(m)
    ensures Inv(Tick(m)) && NoneLostBy(m, Tick(m))
  {
    hide EventHome, Home, Clocked, PcOk, PriorityOk, QueuesOk, HighOk, NoneLostBy, IncrementTick, SwitchContext,
         EventKept, Sound, TaskOk;
    TickCore(m.c, m.idle);
    ShapedSound(m.c);
    AmbientStep(m, Tick(m));
  }

  lemma StepSmooth(m: Machine, c': Core)
    requires Inv(m) && Smooth(m.c, c') && c'.queues == m.c.queues
    requires var ex := JustCreated(PcOf(m, m.c.cur)); HighOk(m.c, ex) ==> HighOk(c', ex)
    requires c'.cur != m.c.cur ==> HighOk(c')
    ensures Inv(Do(m, c')) && NoneLostBy(m, Do(m, c'))
  {
    hide EventHome, Home, Wakes, CoreOk, PcOk, PriorityOk, QueuesOk, HighOk, NoneLostBy, EventKept;
    SmoothCore(m.c, c', m.idle);
    WakesSameTasks(m.c, c');
    SmoothReady(m.c, c');
    AmbientStep(m, Do(m, c'));
  }

  lemma StepYield(m: Machine)
    requires Inv(m)
    ensures Inv(Do(m, SwitchContext(m.c))) && NoneLostBy(m, Do(m, SwitchContext(m.c)))
  {
    hide EventHome, Home, Smooth, Shaped, Clocked, PcOk, PriorityOk, QueuesOk, HighOk, NoneLostBy, SwitchContext;
    SwitchSmooth(m.c, m.idle);
    StepSmooth(m, SwitchContext(m.c));
  }

  lemma StepIsrNotify(m: Machine, t: Task, a: NotifyAction)
    requires Inv(m) && t in m.c.prio
    ensures Inv(Do(m, NotifyFromISR(m.c, t, a))) && NoneLostBy(m, Do(m, NotifyFromISR(m.c, t, a)))
  {
    hide EventHome, Home, Smooth, Shaped, Clocked, CurOk, PriorityOk, QueuesOk, HighOk, NoneLostBy, NotifyFromISR;
    assert TaskPcOk(m, t);
    NotifyFromISRSmooth(m.c, t, a);
    StepSmooth(m, NotifyFromISR(m.c, t, a));
  }

  lemma StepIsrResume(m: Machine, t: Task)
    requires Inv(m) && t in m.c.prio
    ensures Inv(Do(m, ResumeFromISR(m.c, t))) && NoneLostBy(m, Do(m, ResumeFromISR(m.c, t)))
  {
    hide EventHome, Home, Smooth, Shaped, Clocked, PcOk, PriorityOk, QueuesOk, HighOk, NoneLostBy, ResumeFromISR;
    ResumeFromISRSmooth(m.c, t);
    StepSmooth(m, ResumeFromISR(m.c, t));
  }

  /* A step of an interrupt that changes one queue's record. */
  lemma IsrPc(m: Machine, c': Core, l: ListId)
    requires Inv(m) && Smooth(m.c, c') && QueuesStay(m.c, c') && c'.cur == m.c.cur
    requires forall ex :: HighOk(m.c, ex) ==> HighOk(c', ex)
    ensures var m' := DoWaking(m, c', l); CoreOk(m'.c, m.idle) && PcOk(m') && PriorityOk(m')
  {
    hide EventHome, Home, Wakes, CoreOk, PcOk, QueuesOk, HighOk, EventKept, QueuesStay;
    SmoothCore(m.c, c', m.idle);
    WakesSameTasks(m.c, c');
    SmoothReady(m.c, c');
    AmbientPc(m, DoWaking(m, c', l));
  }

  // The woken tasks of list l grow by those that left it.
  lemma WokenAfter(m: Machine, m1: Machine, c': Core, l: ListId, l': ListId)
    requires WokenOk(m1, l') && m1.c.prio.Keys <= c'.prio.Keys && WaitsShrink(m1.c, c') && m1.c == m.c && l.Wait?
    requires forall t :: OnWait(EventHome(m.c.ls, t)) ==> EventHome(m.c.ls, t) == ParkedOn(PcOf(m1, t))
    ensures WokenOk(DoWaking(m1, c', l), l')
  {
    hide EventHome, ParkedOn;
    var m' := DoWaking(m1, c', l);
    forall t | t in WokenOf(m', l')
      ensures t in c'.prio && ParkedOn(PcOf(m', t)) == On(l') && EventHome(c'.ls, t) != On(l')
    {
      if t in WokenOf(m1, l') {
        if EventHome(c'.ls, t) == On(l') { ParkedOnWait(PcOf(m1, t)); }
      } else {
        assert t in Left(m1.c, c', l) && l' == l;
      }
    }
  }

  lemma IsrStep(m: Machine, q: QueueId, d: Queue, s: Side)
    requires Inv(m) && q in m.c.queues && Gains(m.c.queues[q], d, s)
    ensures var m' := DoWaking(m, WakeOrCount(SetQueue(m.c, q, d), q, s), Wait(q, s)); Inv(m') && NoneLostBy(m, m')
  {
    hide EventHome, Home, Smooth, CurOk, HighOk, NoneLost, EventKept, WakeOrCount, SetQueue, Shaped, Clocked, Gains,
         AfterIsr, CoreOk, Left, WaitsShrink;
    CoreShaped(m.c, m.idle);
    var c' := WakeOrCount(SetQueue(m.c, q, d), q, s);
    var m' := DoWaking(m, c', Wait(q, s));
    WakeOrCountSmooth(m.c, q, d, s);
    SmoothKeepsEvents(m.c, c');
    AfterIsrLocks(m, q, d, s);
    IsrPc(m, c', Wait(q, s));
    forall q', s' ensures LockOk(m', q', s') { assert LockOk(m, q', s'); }
    forall l' ensures WokenOk(m', l') {
      assert WokenOk(m, l');
      WaitsParked(m);
      WokenAfter(m, m, c', Wait(q, s), l');
    }
    forall q', s' | NoneLost(m, q', s') ensures NoneLost(m', q', s') {
      if q' != q {
        NoneLostElsewhere(m, m', q', s');
      } else if s' == s {
        IsrServes(m, q, d, s);
      } else {
        IsrOther(m, q, d, s);
      }
    }
  }

  lemma CoreShaped(c: Core, idle: Task)
    requires CoreOk(c, idle)
    ensures Shaped(c) && OnReady(Home(c.ls, idle)) && Sound(c.ls)
  {}

  lemma WaitsParked(m: Machine)
    requires PcOk(m)
    ensures forall t :: OnWait(EventHome(m.c.ls, t)) ==> EventHome(m.c.ls, t) == ParkedOn(PcOf(m, t))
  {
    hide EventHome, CurOk;
    forall t | OnWait(EventHome(m.c.ls, t)) ensures EventHome(m.c.ls, t) == ParkedOn(PcOf(m, t)) {
      assert TaskPcOk(m, t);
    }
  }

  // The queues after an interrupt: same lengths, and the one lock counted up stays within bounds.
  lemma AfterIsrLocks(m: Machine, q: QueueId, d: Queue, s: Side)
    requires QueuesOk(m) && q in m.c.queues && Gains(m.c.queues[q], d, s)
    ensures QueuesStay(m.c, m.c.(queues := m.c.queues[q := AfterIsr(m.c, d, s)]))
    ensures forall s' :: UNLOCKED <= LockOf(AfterIsr(m.c, d, s), s') <= m.c.tasks
    ensures forall s' :: LockOf(AfterIsr(m.c, d, s), s') >= 0 <==> LockOf(m.c.queues[q], s') >= 0
  {
    assert LockOk(m, q, Recv) && LockOk(m, q, Side.Send);
  }

  lemma StepIsrSend(m: Machine, q: QueueId, pos: Position)
    requires Inv(m) && q in m.c.queues
    ensures var m' := DoWaking(m, SendFromISR(m.c, q, pos), Wait(q, Recv)); Inv(m') && NoneLostBy(m, m')
  {
    hide Inv, NoneLostBy, WakeOrCount, SetQueue;
    var d := m.c.queues[q];
    if HasRoom(d, pos) {
      IsrStep(m, q, d.(count := CountAfterCopy(d, pos)), Recv);
    } else {
      NothingWoken(m, Wait(q, Recv));
    }
  }

  lemma StepIsrReceive(m: Machine, q: QueueId)
    requires Inv(m) && q in m.c.queues
    ensures var m' := DoWaking(m, ReceiveFromISR(m.c, q), Wait(q, Side.Send)); Inv(m') && NoneLostBy(m, m')
  {
    hide Inv, NoneLostBy, WakeOrCount, SetQueue;
    var d := m.c.queues[q];
    if d.count > 0 {
      IsrStep(m, q, d.(count := d.count - 1), Side.Send);
    } else {
      NothingWoken(m, Wait(q, Side.Send));
    }
  }

  lemma NothingWoken(m: Machine, l: ListId)
    requires Inv(m)
    ensures var m' := DoWaking(m, m.c, l); Inv(m') && NoneLostBy(m, m')
  {
    hide EventHome, Home, CoreOk, Shaped, Clocked, HighOk, EventKept;
    var m' := DoWaking(m, m.c, l);
    assert Left(m.c, m.c, l) == {};
    assert forall l' :: WokenOf(m', l') == WokenOf(m, l');
    assert forall t :: TaskPcOk(m', t) == TaskPcOk(m, t);
    forall q, s ensures LockOk(m', q, s) { assert LockOk(m, q, s); }
    forall l' ensures WokenOk(m', l') { assert WokenOk(m, l'); }
    forall q, s | NoneLost(m, q, s) ensures NoneLost(m', q, s) { NoneLostElsewhere(m, m', q, s); }
  }

  /* ----- steps of the running task that leave the queues alone ----- */

  lemma OwnStep(m: Machine, m': Machine, p: Pc)
    requires Inv(m) && CoreOk(m'.c, m.idle) && m' == m.(c := m'.c, pc := m.pc[m.c.cur := p]) && m.c.cur != m.idle
    requires m'.c.prio.Keys == m.c.prio.Keys && m'.c.queues == m.c.queues && m'.c.tasks == m.c.tasks
    requires (forall t :: t != m.c.cur ==> EventKept(m.c, m'.c, t)) && WaitsShrink(m.c, m'.c) && Switched(m.c, m'.c)
    requires TaskPcOk(m', m.c.cur) && (m'.c.cur == m.c.cur ==> CurOk(m'))
    requires var p0 := PcOf(m, m.c.cur);
             && (ParkedOn(p0).On? ==> ParkedOn(p) == ParkedOn(p0))
             && (if m'.c.cur == m.c.cur then forall q, s :: HoldsLock(p, q, s) == HoldsLock(p0, q, s)
                                                            && (AboutToWait(p, q, s) ==> AboutToWait(p0, q, s))
                 else forall q, s :: !HoldsLock(p0, q, s))
    requires PriorityOk(m')
    ensures Inv(m') && NoneLostBy(m, m')
  {
    hide EventHome, Home, CoreOk, CurOk, HighOk, NoneLostBy, EventKept, HoldsLock, AboutToWait, ParkedOn, Away,
         NeedsRunning, QueuesOk, WaitsShrink;
    CoreShaped(m.c, m.idle);
    CurCreated(m);
    PcStep(m, m');
    if m'.c.cur != m.c.cur {
      assert TaskPcOk(m, m'.c.cur);
      NotHolding(PcOf(m, m'.c.cur));
    }
    CalmQueues(m, m');
  }

  lemma NotHolding(p: Pc)
    requires !Holding(p)
    ensures forall q, s :: !HoldsLock(p, q, s) && !AboutToWait(p, q, s)
  {}

  // A step of the running task within its own call: the kernel's data does not change.
  lemma OwnMove(m: Machine, p: Pc)
    requires Inv(m) && m.c.cur != m.idle && PcRange(m.c, p)
    requires var p0 := PcOf(m, m.c.cur);
             && (ParkedOn(p0).On? ==> ParkedOn(p) == ParkedOn(p0))
             && (forall q, s :: HoldsLock(p, q, s) == HoldsLock(p0, q, s)
                                && (AboutToWait(p, q, s) ==> AboutToWait(p0, q, s)))
             && (MayBeListed(p0) ==> MayBeListed(p)) && (NotifyPc(p0) ==> NotifyPc(p)) && !p.InCreate?
             && (Holding(p) ==> Holding(p0)) && (NeedsRunning(p, m.c.cur) ==> m.c.suspended == 0)
             && (Away(p0, m.c.cur) ==> Away(p, m.c.cur)) && !p0.InCreate?
    ensures var m' := Goto(m, p); Inv(m') && NoneLostBy(m, m')
  {
    hide EventHome, Home, CoreOk, HighOk, NoneLostBy, HoldsLock, AboutToWait, ParkedOn, Away, NeedsRunning,
         MayBeListed, NotifyPc, QueuesOk, PcRange;
    CurCreated(m);
    assert TaskPcOk(m, m.c.cur);
    EventsSame(m.c, m.c);
    OwnStep(m, Goto(m, p), p);
  }

  lemma EventsSame(c: Core, c': Core)
    requires c'.ls == c.ls && c'.notify == c.notify
    ensures (forall t :: EventKept(c, c', t)) && WaitsShrink(c, c')
  {
    hide EventHome;
  }

  /* ----- the running task calls the kernel ----- */

  lemma CallQueueStep(m: Machine, q: QueueId, op: Op, wait: nat)
    requires Inv(m) && Enabled(m, CallQueue(q, op, wait))
    ensures var m' := Goto(m, InQueue(q, op, wait, false, TimeOut(0, 0), AtTop)); Inv(m') && NoneLostBy(m, m')
  {
    hide EventHome, Home, CoreOk, HighOk, NoneLostBy, QueuesOk;
    OwnMove(m, InQueue(q, op, wait, false, TimeOut(0, 0), AtTop));
  }

  lemma CallDelayStep(m: Machine, d: DelayKind)
    requires Inv(m) && Enabled(m, CallDelay(d))
    ensures var m' := Goto(m, if d == Fixed(0) then Yielding(User) else InDelay(d, DSuspend));
            Inv(m') && NoneLostBy(m, m')
  {
    hide EventHome, Home, CoreOk, HighOk, NoneLostBy, QueuesOk;
    OwnMove(m, if d == Fixed(0) then Yielding(User) else InDelay(d, DSuspend));
  }

  lemma CallNotifyStep(m: Machine, k: NotifyWait, wait: nat)
    requires Inv(m) && Enabled(m, CallNotify(k, wait))
    ensures var m' := Goto(m, InNotify(k, wait, false, NSuspend)); Inv(m') && NoneLostBy(m, m')
  {
    hide EventHome, Home, CoreOk, HighOk, NoneLostBy, QueuesOk;
    OwnMove(m, InNotify(k, wait, false, NSuspend));
  }

  lemma CallSuspendStep(m: Machine, t: Task)
    requires Inv(m) && Enabled(m, CallSuspend(t))
    ensures var m' := Goto(Do(m, SuspendTask(m.c, t)), InSuspend(t)); Inv(m') && NoneLostBy(m, m')
  {
    hide EventHome, Home, CoreOk, HighOk, NoneLostBy, QueuesOk, SuspendTask, WaitsShrink;
    var m' := Goto(Do(m, SuspendTask(m.c, t)), InSuspend(t));
    CurCreated(m);
    CoreShaped(m.c, m.idle);
    SuspendCore(m.c, t, m.idle);
    KeptShrinks(m.c, SuspendTask(m.c, t));
    assert TaskPcOk(m, m.c.cur) && EventKept(m.c, m'.c, m.c.cur);
    OwnStep(m, m', InSuspend(t));
  }

  lemma CallResumeStep(m: Machine, t: Task)
    requires Inv(m) && Enabled(m, CallResume(t))
    ensures var m' := Do(m, ResumeTask(m.c, t)); Inv(m') && NoneLostBy(m, m')
  {
    hide EventHome, Home, Shaped, Clocked, Smooth, HighOk, NoneLostBy, PcOk, QueuesOk, ResumeTask;
    ResumeTaskSmooth(m.c, t);
    StepSmooth(m, ResumeTask(m.c, t));
  }

  lemma CallNotifyOtherStep(m: Machine, t: Task, a: NotifyAction)
    requires Inv(m) && Enabled(m, CallNotifyOther(t, a))
    ensures var m' := Do(m, Notify(m.c, t, a)); Inv(m') && NoneLostBy(m, m')
  {
    hide EventHome, Home, Shaped, Clocked, Smooth, HighOk, NoneLostBy, CurOk, QueuesOk, Notify;
    assert TaskPcOk(m, t);
    NotifySmooth(m.c, t, a);
    StepSmooth(m, Notify(m.c, t, a));
  }

  lemma CallPrioritySetStep(m: Machine, t: Task, p: nat)
    requires Inv(m) && Enabled(m, CallPrioritySet(t, p))
    ensures var m' := Do(m, PrioritySet(m.c, t, p)); Inv(m') && NoneLostBy(m, m')
  {
    hide EventHome, Home, CoreOk, HighOk, NoneLostBy, PcOk, QueuesOk, PrioritySet, EventKept;
    PrioritySetCore(m.c, t, p, m.idle);
    AmbientStep(m, Do(m, PrioritySet(m.c, t, p)));
  }

  lemma CallSuspendAllStep(m: Machine)
    requires Inv(m) && PcOf(m, m.c.cur).User?
    ensures var m' := Do(m, SuspendAll(m.c)); Inv(m') && NoneLostBy(m, m')
  {
    hide EventHome, Home, HighOk, NoneLostBy, PcOk, QueuesOk, EventKept, Shaped, Clocked;
    SuspendAllCore(m.c, m.idle);
    EventsSame(m.c, SuspendAll(m.c));
    AmbientStep(m, Do(m, SuspendAll(m.c)));
  }

  lemma SuspendAllCore(c: Core, idle: Task)
    requires CoreOk(c, idle)
    ensures CoreOk(SuspendAll(c), idle) && forall ex :: HighOk(SuspendAll(c), ex) == HighOk(c, ex)
  {
    hide Sound, Home, EventHome, Clocked, HighOk, NonePending;
    var c' := SuspendAll(c);
    forall t ensures TaskOk(c', t) { assert TaskOk(c, t); }
    YieldKeepsTime(c, c');
    HighSame(c, c');
  }

  lemma CallResumeAllStep(m: Machine)
    requires Inv(m) && PcOf(m, m.c.cur).User? && m.c.suspended > 0
    ensures var m' := Do(m, ResumeAll(m.c).0); Inv(m') && NoneLostBy(m, m')
  {
    hide EventHome, Home, Shaped, Clocked, HighOk, NoneLostBy, PcOk, QueuesOk, EventKept, ResumeAll;
    CoreShaped(m.c, m.idle);
    ResumeAllCore(m.c, m.idle);
    AmbientStep(m, Do(m, ResumeAll(m.c).0));
  }

  lemma CallCatchUpStep(m: Machine, n: nat)
    requires Inv(m) && PcOf(m, m.c.cur).User?
    ensures var m' := m.(c := m.c.(pended := Add32(m.c.pended, n)), ticks := m.ticks + n); Inv(m') && NoneLostBy(m, m')
  {
    hide EventHome, Home, HighOk, NoneLostBy, PcOk, QueuesOk, EventKept, Shaped, Clocked, Add32;
    var c' := m.c.(pended := Add32(m.c.pended, n));
    SameButYield(m.c, c');
    YieldKeepsTime(m.c, c');
    HighSame(m.c, c');
    EventsSame(m.c, c');
    AmbientStep(m, m.(c := c', ticks := m.ticks + n));
  }
}

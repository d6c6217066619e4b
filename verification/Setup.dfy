/** Creating tasks and queues, resetting queues, and the state the scheduler starts in. */
module Setup {
  import opened Lists
  import opened Kernel
  import opened Queues
  import opened Shape
  import opened Clock
  import opened Priority
  import opened Machine
  import opened Invariant
  import opened CoreSteps
  import opened Wakeups
  import opened Steps
  import opened Attempts

  /* ----- creating and resetting ----- */

  lemma CreateStep(m: Machine, t: Task, p: nat)
    requires Inv(m) && Enabled(m, CallCreate(t, p))
    ensures var m' := Goto(Do(m.(pc := m.pc[t := User]), CreateTask(m.c, t, p)), InCreate(t));
            Inv(m') && NoneLostBy(m, m')
  {
    hide EventHome, Home, Shaped, Clocked, HighOk, NoneLost, CreateTask, PcOk, QueuesOk;
    var m' := Goto(Do(m.(pc := m.pc[t := User]), CreateTask(m.c, t, p)), InCreate(t));
    CreateCore(m.c, t, p, m.idle);
    CreatePc(m, m', t);
    CreateQueues(m, m', t);
    forall q, s | NoneLost(m, q, s) ensures NoneLost(m', q, s) { CreateNoneLost(m, m', t, q, s); }
  }

  ghost predicate IsCreated(m: Machine, m': Machine, t: Task) {
    && CoreOk(m'.c, m.idle) && t !in m.c.prio && PcOf(m, m.c.cur).User? && m.c.cur != m.idle
    && m'.idle == m.idle && m'.woken == m.woken && m'.pc == m.pc[t := User][m.c.cur := InCreate(t)]
    && (forall u :: u != t ==> Home(m'.c.ls, u) == Home(m.c.ls, u))
    && (forall u :: EventHome(m'.c.ls, u) == EventHome(m.c.ls, u))
    && m'.c.prio.Keys == m.c.prio.Keys + {t} && m'.c.tasks == m.c.tasks + 1
    && m'.c.notify == m.c.notify[t := NotWaiting] && m'.c.suspended == m.c.suspended && m'.c.queues == m.c.queues
    && m'.c.cur == m.c.cur
  }

  lemma CreatePc(m: Machine, m': Machine, t: Task)
    requires Inv(m) && IsCreated(m, m', t)
    ensures PcOk(m')
  {
    hide EventHome, Home, Clocked, HighOk, QueuesOk, Sound;
    assert m.c.cur in m.c.prio;
    assert TaskOk(m.c, t);
    forall u ensures TaskPcOk(m', u) { CreatePcOf(m, m', t, u); }
  }

  lemma CreatePcOf(m: Machine, m': Machine, t: Task, u: Task)
    requires Inv(m) && IsCreated(m, m', t)
    ensures TaskPcOk(m', u)
  {
    hide EventHome, Home, Clocked, PriorityOk, QueuesOk, Sound, CurOk;
    assert TaskOk(m.c, u) && TaskPcOk(m, u);
    RangeKept(m.c, m'.c, PcOf(m, u));
  }

  lemma CreateQueues(m: Machine, m': Machine, t: Task)
    requires Inv(m) && IsCreated(m, m', t)
    ensures QueuesOk(m')
  {
    hide EventHome, Home, Clocked, HighOk, Sound, TaskOk, PcOk;
    forall q, s ensures LockOk(m', q, s) { assert LockOk(m, q, s); }
    forall l ensures WokenOk(m', l) {
      assert WokenOk(m, l);
      WokenKept(m, m', l);
    }
  }

  lemma CreateNoneLost(m: Machine, m': Machine, t: Task, q: QueueId, s: Side)
    requires Inv(m) && IsCreated(m, m', t) && NoneLost(m, q, s)
    ensures NoneLost(m', q, s)
  {
    hide EventHome, Home, Clocked, HighOk, Sound, TaskOk, PcOk, CoreOk;
    assert LockOk(m, q, s);
    if Wanted(m', q, s) {
      var u :| EventHome(m'.c.ls, u) == On(Wait(q, s));
      assert EventHome(m.c.ls, u) == On(Wait(q, s));
    }
  }

  lemma NewQueueStep(m: Machine, q: QueueId, length: nat, size: nat)
    requires Inv(m) && Enabled(m, CallCreateQueue(q, length, size))
    ensures var m' := Do(m, CreateQueue(m.c, q, length, size)); Inv(m') && NoneLostBy(m, m')
  {
    hide EventHome, Home, Smooth, Shaped, Clocked, HighOk, NoneLost, EventKept, WaitsShrink;
    var c' := CreateQueue(m.c, q, length, size);
    var m' := Do(m, c');
    SetQueueSmooth(m.c, q, Queue(length, size, 0, UNLOCKED, UNLOCKED));
    SmoothCore(m.c, c', m.idle);
    SmoothFrame(m.c, c');
    SmoothReady(m.c, c');
    SmoothKeepsEvents(m.c, c');
    AmbientPc(m, m');
    forall q', s ensures LockOk(m', q', s) { assert LockOk(m, q', s); }
    forall l ensures WokenOk(m', l) { assert WokenOk(m, l); WokenKept(m, m', l); }
    forall q', s | NoneLost(m, q', s) ensures NoneLost(m', q', s) { NewQueueNoneLost(m, m', q, q', s); }
  }

  lemma NewQueueNoneLost(m: Machine, m': Machine, q: QueueId, q': QueueId, s: Side)
    requires PcOk(m) && q !in m.c.queues && m' == Do(m, m.c.(queues := m'.c.queues)) && NoneLost(m, q', s)
    requires forall k :: k != q ==> (k in m'.c.queues <==> k in m.c.queues)
                                    && (k in m.c.queues ==> m'.c.queues[k] == m.c.queues[k])
    requires PcOf(m, m.c.cur).User?
    ensures NoneLost(m', q', s)
  {
    hide EventHome, Home;
    if q' == q && Wanted(m', q, s) {
      var t :| EventHome(m'.c.ls, t) == On(Wait(q, s));
      assert TaskPcOk(m, t);
      ParkedQueue(m.c, PcOf(m, t));
    }
  }

  // A task is parked only on queues that exist.
  lemma ParkedQueue(c: Core, p: Pc)
    requires PcRange(c, p) && ParkedOn(p).On?
    ensures ParkedOn(p).l.Wait? && ParkedOn(p).l.q in c.queues
  {}

  // xQueueGenericReset of a queue in use keeps the invariant, but as for its senders see below.
  lemma ResetStep(m: Machine, q: QueueId)
    requires Inv(m) && Enabled(m, CallReset(q))
    ensures var m' := DoWaking(m, Reset(m.c, q), Wait(q, Side.Send));
            && Inv(m') && forall q', s :: NoneLost(m, q', s) && !(q' == q && s.Send?) ==> NoneLost(m', q', s)
  {
    hide EventHome, Home, Smooth, Shaped, Clocked, HighOk, NoneLost, EventKept, WaitsShrink, Reset, Left, PcOk,
         QueuesOk;
    var c' := Reset(m.c, q);
    var m' := DoWaking(m, c', Wait(q, Side.Send));
    ResetSmooth(m.c, q, m.idle);
    SmoothCore(m.c, c', m.idle);
    SmoothFrame(m.c, c');
    SmoothReady(m.c, c');
    SmoothKeepsEvents(m.c, c');
    AmbientPc(m, m');
    FreeAtSwitch(m, m');
    ResetQueues(m, m', q);
    HighWeaken(m'.c, JustCreated(PcOf(m', m'.c.cur)));
    forall q', s | NoneLost(m, q', s) && !(q' == q && s.Send?) ensures NoneLost(m', q', s) {
      ResetNoneLost(m, m', q, q', s);
    }
  }

  lemma FreeAtSwitch(m: Machine, m': Machine)
    requires PcOk(m) && m'.pc == m.pc && PcOf(m, m.c.cur).User?
    ensures forall q, s :: !HoldsLock(PcOf(m', m'.c.cur), q, s) && !AboutToWait(PcOf(m', m'.c.cur), q, s)
  {
    hide EventHome, Home, PcRange, NotifyPc, ParkedOn, CurOk;
    assert TaskPcOk(m, m'.c.cur);
  }

  ghost predicate IsReset(m: Machine, m': Machine, q: QueueId) {
    && q in m.c.queues
    && m'.c.queues == m.c.queues[q := m.c.queues[q].(count := 0, rxLock := UNLOCKED, txLock := UNLOCKED)]
    && m' == DoWaking(m, m'.c, Wait(q, Side.Send)) && WaitsShrink(m.c, m'.c) && m'.c.tasks == m.c.tasks
    && m'.c.prio == m.c.prio
    && PcOf(m, m.c.cur).User?
    && forall q', s :: !HoldsLock(PcOf(m', m'.c.cur), q', s) && !AboutToWait(PcOf(m', m'.c.cur), q', s)
  }

  lemma ResetQueues(m: Machine, m': Machine, q: QueueId)
    requires IsReset(m, m', q) && QueuesOk(m) && PcOk(m)
    ensures QueuesOk(m')
  {
    hide EventHome, AboutToWait, HoldsLock, Left, WaitsShrink, PcOk;
    forall q', s ensures LockOk(m', q', s) { assert LockOk(m, q', s); NotHolding(User); }
    WaitsParked(m);
    forall l ensures WokenOk(m', l) {
      assert WokenOk(m, l);
      WokenAfter(m, m, m'.c, Wait(q, Side.Send), l);
    }
  }

  lemma ResetNoneLost(m: Machine, m': Machine, q: QueueId, q': QueueId, s: Side)
    requires IsReset(m, m', q) && NoneLost(m, q', s) && !(q' == q && s.Send?)
    ensures NoneLost(m', q', s)
  {
    hide EventHome, AboutToWait, HoldsLock, Left, WaitsShrink, Wanted;
    if q' != q { NoneLostElsewhere(m, m', q', s); }
  }

  ghost function Waiters(c: Core, l: ListId): set<Task> { set t | t in c.prio && EventHome(c.ls, t) == On(l) }

  /** Resetting a queue wakes one waiting sender only, though the whole queue is free: no sender's
      wake-up is lost if and only if at most one was waiting, or the queue's places are all
      spoken for by senders already woken. */
  lemma ResetSenders(m: Machine, q: QueueId)
    requires q in m.c.queues && PcOf(m, m.c.cur).User? && Inv(m)
    ensures NoneLost(DoWaking(m, Reset(m.c, q), Wait(q, Side.Send)), q, Side.Send) <==>
            |Waiters(m.c, Wait(q, Side.Send))| <= 1 || m.c.queues[q].length <= |WokenOf(m, Wait(q, Side.Send))| + 1
  {
    hide EventHome, Home, Smooth, Shaped, Clocked, HighOk, Reset, PcOk, Waiters, Left, OneWaits, QueuesOk, Wanted;
    var l, c' := Wait(q, Side.Send), Reset(m.c, q);
    var m' := DoWaking(m, c', l);
    ResetSmooth(m.c, q, m.idle);
    SmoothKeepsEvents(m.c, c');
    ResetLeft(m, q);
    WokenAt(m, l);
    WokenGrows(m, c', l);
    FreeAtSwitch(m, m');
    WantedMeans(m', q, Side.Send);
    WaitersNow(m.c, c', l);
  }

  lemma WokenAt(m: Machine, l: ListId)
    requires QueuesOk(m)
    ensures WokenOk(m, l)
  {}

  lemma ResetLeft(m: Machine, q: QueueId)
    requires q in m.c.queues && PcOf(m, m.c.cur).User? && Inv(m)
    ensures var (c', l) := (Reset(m.c, q), Wait(q, Side.Send));
            (OneWaits(m.c, l) ==> |Left(m.c, c', l)| == 1) && (!OneWaits(m.c, l) ==> !OneWaits(c', l))
  {
    hide EventHome, Home, Clocked, Smooth, PcOk, HighOk, QueuesOk, Sound, TaskOk, Left, OneWaits, YieldIf, WakeOne;
    var c, l, d := m.c, Wait(q, Side.Send), m.c.queues[q].(count := 0, rxLock := UNLOCKED, txLock := UNLOCKED);
    SetQueueSmooth(c, q, d);
    WakeAndYieldLeft(SetQueue(c, q, d), l);
    LeftSame(c, SetQueue(c, q, d), Reset(c, q), l);
  }

  lemma WaitersNow(c: Core, c': Core, l: ListId)
    requires Shaped(c) && c'.prio == c.prio && WaitsShrink(c, c') && l.Wait?
    requires (OneWaits(c, l) ==> |Left(c, c', l)| == 1) && (!OneWaits(c, l) ==> !OneWaits(c', l))
    ensures OneWaits(c', l) <==> |Waiters(c, l)| > 1
    ensures |Waiters(c, l)| > 1 ==> |Left(c, c', l)| == 1
  {
    hide EventHome, Sound, TaskOk;
    assert forall t :: EventHome(c.ls, t) == On(l) ==> t in c.prio by {
      forall t | EventHome(c.ls, t) == On(l) ensures t in c.prio { InPrio(c, t); }
    }
    var w, w' := Waiters(c, l), Waiters(c', l);
    assert w == w' + Left(c, c', l) && w' !! Left(c, c', l);
    if OneWaits(c', l) {
      var t :| EventHome(c'.ls, t) == On(l);
      assert EventHome(c.ls, t) == On(l);
      assert t in w' && OneWaits(c, l);
    } else {
      assert w' == {};
      if OneWaits(c, l) { assert |w| == 1; } else { assert w == {}; }
    }
  }
}

/** Every step of a blocking queue call keeps the invariant and loses no wake-up. */
module QueueSteps {
  import opened Collections
  import opened Lists
  import opened Kernel
  import opened Queues
  import opened Shape
  import opened Clock
  import opened Priority
  import opened Machine
  import opened Invariant
  import opened CoreSteps
  import opened Wakeups
  import opened Steps
  import opened Blocking

  /* ----- taking the lock ----- */

  lemma LockStep(m: Machine, p: Pc)
    requires Inv(m) && m.c.cur != m.idle && PcOf(m, m.c.cur) == p && p.InQueue? && p.at.ToLock?
    ensures var m' := Goto(Do(m, LockQueue(m.c, p.q)), p.(at := ToCheck)); Inv(m') && NoneLostBy(m, m')
  {
    hide EventHome, Home, Wakes, Shaped, Clocked, HighOk, NoneLost, EventKept, ParkedOn;
    var c' := LockQueue(m.c, p.q);
    var m' := Goto(Do(m, c'), p.(at := ToCheck));
    CurCreated(m);
    assert TaskPcOk(m, m.c.cur);
    LockCore(m.c, p.q, m.idle);
    NotParked(p);
    NotParked(p.(at := ToCheck));
    OwnPc(m, m', p.(at := ToCheck));
    LockLocks(m, m', p);
    forall l ensures WokenOk(m', l) { assert WokenOk(m, l); WokenKept(m, m', l); }
    forall q, s | NoneLost(m, q, s) ensures NoneLost(m', q, s) { LockNoneLost(m, m', p, q, s); }
  }

  lemma NotParked(p: Pc)
    requires p.InQueue? && !Parked(p.at)
    ensures ParkedOn(p).Nowhere?
  {}

  lemma LockCore(c: Core, q: QueueId, idle: Task)
    requires CoreOk(c, idle) && q in c.queues
    ensures var c' := LockQueue(c, q);
            && CoreOk(c', idle) && Smooth(c, c') && (forall t :: EventKept(c, c', t)) && WaitsShrink(c, c')
            && c'.cur == c.cur
            && c'.prio == c.prio && c'.tasks == c.tasks && QueuesStay(c, c')
            && (forall ex :: HighOk(c', ex) == HighOk(c, ex))
            && c'.ls == c.ls && c'.notify == c.notify
  {
    hide EventHome, Home, Smooth, Shaped, Clocked, HighOk;
    var d := LockQueue(c, q).queues[q];
    SetQueueSmooth(c, q, d);
    SmoothCore(c, LockQueue(c, q), idle);
    SmoothKeepsEvents(c, LockQueue(c, q));
  }

  /* The running task moves on to p, its items where they were. */
  lemma OwnPc(m: Machine, m': Machine, p: Pc)
    requires Inv(m) && CoreOk(m'.c, m.idle) && m.c.cur != m.idle && m'.c.cur == m.c.cur && m'.idle == m.idle
    requires m'.pc == m.pc[m.c.cur := p] && m'.c.prio == m.c.prio && QueuesStay(m.c, m'.c)
    requires m'.c.suspended == m.c.suspended
    requires (forall t :: EventKept(m.c, m'.c, t)) && PcRange(m.c, p)
    requires OnReady(Home(m.c.ls, m.c.cur)) ==> OnReady(Home(m'.c.ls, m.c.cur))
    requires var p0 := PcOf(m, m.c.cur);
             && ParkedOn(p) == ParkedOn(p0) && (MayBeListed(p0) ==> MayBeListed(p)) && !NotifyPc(p) && !NotifyPc(p0)
             && (Holding(p) ==> Holding(p0)) && (NeedsRunning(p, m.c.cur) ==> m.c.suspended == 0)
             && (Away(p0, m.c.cur) ==> Away(p, m.c.cur))
    ensures PcOk(m')
  {
    hide EventHome, Home, CoreOk, HighOk, QueuesOk, ParkedOn, Away, NeedsRunning, MayBeListed, NotifyPc, PcRange,
         Holding, QueuesStay;
    CurIn(m);
    assert TaskPcOk(m, m.c.cur) && EventKept(m.c, m'.c, m.c.cur);
    ParkedOnWait(p);
    RangeKept(m.c, m'.c, p);
    RunsOrListed(PcOf(m, m.c.cur), m.c.cur);
    PcStep(m, m');
  }

  // While it holds the scheduler, a task that may be off its ready list may be on another.
  lemma RunsOrListed(p: Pc, self: Task)
    ensures Away(p, self) ==> NeedsRunning(p, self) || MayBeListed(p)
  {}

  lemma CurIn(m: Machine)
    requires Inv(m)
    ensures m.c.cur in m.c.prio && m.c.cur in m.pc && m.pc == m.pc[m.c.cur := PcOf(m, m.c.cur)]
  {
    hide EventHome, Home, Clocked, Sound, HighOk, QueuesOk, CurOk;
    CurCreated(m);
  }

  lemma LockLocks(m: Machine, m': Machine, p: Pc)
    requires QueuesOk(m) && PcOf(m, m.c.cur) == p && p.InQueue? && p.at.ToLock? && p.q in m.c.queues
    requires m' == Goto(Do(m, LockQueue(m.c, p.q)), p.(at := ToCheck))
    ensures forall q, s :: LockOk(m', q, s)
  {
    forall q, s ensures LockOk(m', q, s) { assert LockOk(m, q, s); }
  }

  lemma LockNoneLost(m: Machine, m': Machine, p: Pc, q: QueueId, s: Side)
    requires NoneLost(m, q, s) && QueuesOk(m) && PcOf(m, m.c.cur) == p && p.InQueue? && p.at.ToLock?
    requires p.q in m.c.queues
    requires m' == Goto(Do(m, LockQueue(m.c, p.q)), p.(at := ToCheck)) && WaitsShrink(m.c, m'.c)
    ensures NoneLost(m', q, s)
  {
    hide EventHome, WaitsShrink, Wanted;
    assert LockOk(m, q, s);
    if q == p.q { NoneLostKept(m, m', q, s); } else { NoneLostElsewhere(m, m', q, s); }
  }

  /* ----- the test before blocking, and blocking ----- */

  lemma TestStep(m: Machine, p: Pc)
    requires Inv(m) && m.c.cur != m.idle && PcOf(m, m.c.cur) == p && p.InQueue? && p.at.ToTest?
    ensures var m' := QueueStep(m, p); Inv(m') && NoneLostBy(m, m')
  {
    hide EventHome, Home, CoreOk, HighOk, NoneLostBy, QueuesOk;
    assert TaskPcOk(m, m.c.cur);
    if MustBlock(QueueOf(m.c, p.q), p.op) { TestBlocks(m, p); } else { OwnMove(m, p.(at := ToUnlockTx(Retry))); }
  }

  lemma TestBlocks(m: Machine, p: Pc)
    requires Inv(m) && m.c.cur != m.idle && PcOf(m, m.c.cur) == p && p.InQueue? && p.at.ToTest?
    requires MustBlock(QueueOf(m.c, p.q), p.op)
    ensures var m' := Goto(m, p.(at := ToPlace)); Inv(m') && NoneLostBy(m, m')
  {
    hide EventHome, Home, Shaped, Clocked, HighOk, NoneLost, ParkedOn, EventKept, WaitsShrink;
    var m' := Goto(m, p.(at := ToPlace));
    CurCreated(m);
    assert TaskPcOk(m, m.c.cur);
    EventsSame(m.c, m.c);
    NotParked(p);
    NotParked(p.(at := ToPlace));
    OwnPc(m, m', p.(at := ToPlace));
    forall q, s ensures LockOk(m', q, s) { assert LockOk(m, q, s); }
    forall l ensures WokenOk(m', l) { assert WokenOk(m, l); WokenKept(m, m', l); }
    forall q, s | NoneLost(m, q, s) ensures NoneLost(m', q, s) { TestNoneLost(m, p, q, s); }
  }

  // The test under the lock: nothing is available, so nothing needs covering.
  lemma TestNoneLost(m: Machine, p: Pc, q: QueueId, s: Side)
    requires NoneLost(m, q, s) && PcOf(m, m.c.cur) == p && p.InQueue? && p.at.ToTest? && p.q in m.c.queues
    requires MustBlock(QueueOf(m.c, p.q), p.op)
    ensures NoneLost(Goto(m, p.(at := ToPlace)), q, s)
  {
    hide EventHome;
  }

  lemma PlaceStep(m: Machine, p: Pc)
    requires Inv(m) && m.c.cur != m.idle && PcOf(m, m.c.cur) == p && p.InQueue? && p.at.ToPlace?
    ensures var m' := QueuePlace(m, p); Inv(m') && NoneLostBy(m, m')
  {
    hide EventHome, Home, Shaped, Clocked, HighOk, NoneLost, EventKept, PlaceOnEventList, ParkedOn;
    var m' := QueuePlace(m, p);
    var l := Wait(p.q, SideOf(p.op));
    CurCreated(m);
    assert TaskPcOk(m, m.c.cur);
    NotParked(p);
    PlaceCore(m.c, l, p.wait, m.idle);
    MovedEvents(m.c, m'.c, m.c.cur);
    PlacedPc(m, m', p);
    PcStep(m, m');
    forall q, s ensures LockOk(m', q, s) { assert LockOk(m, q, s); }
    forall l' ensures WokenOk(m', l') { PlacedWoken(m, m', p, l'); }
    forall q, s | NoneLost(m, q, s) ensures NoneLost(m', q, s) { PlacedNoneLost(m, m', p, q, s); }
  }

  ghost predicate IsPlaced(m: Machine, m': Machine, p: Pc) {
    && PcOf(m, m.c.cur) == p && p.InQueue? && p.at.ToPlace? && p.q in m.c.queues
    && m' == Goto(Do(m, m'.c), p.(at := ToUnlockTx(Placed))) && OnlyMoved(m.c, m'.c, m.c.cur)
    && EventHome(m'.c.ls, m.c.cur) == On(Wait(p.q, SideOf(p.op))) && m'.c.prio == m.c.prio && m'.c.tasks == m.c.tasks
  }

  lemma PlacedPc(m: Machine, m': Machine, p: Pc)
    requires IsPlaced(m, m', p) && TaskPcOk(m, m.c.cur) && CurOk(m) && m.c.cur in m.c.prio
    requires EventHome(m.c.ls, m.c.cur).Nowhere?
    ensures TaskPcOk(m', m.c.cur) && CurOk(m')
  {
    hide EventHome, Home;
  }

  lemma PlacedWoken(m: Machine, m': Machine, p: Pc, l: ListId)
    requires IsPlaced(m, m', p) && QueuesOk(m)
    ensures WokenOk(m', l)
  {
    hide EventHome, Home;
    assert WokenOk(m, l);
    forall t | t in WokenOf(m', l)
      ensures t in m'.c.prio && ParkedOn(PcOf(m', t)) == On(l) && EventHome(m'.c.ls, t) != On(l)
    {
      assert t in WokenOf(m, l);
    }
  }

  lemma PlacedNoneLost(m: Machine, m': Machine, p: Pc, q: QueueId, s: Side)
    requires IsPlaced(m, m', p) && NoneLost(m, q, s)
    ensures NoneLost(m', q, s)
  {
    hide EventHome, Home;
    if Wanted(m', q, s) && !AboutToWait(p, q, s) {
      var t :| EventHome(m'.c.ls, t) == On(Wait(q, s));
      assert EventHome(m.c.ls, t) == On(Wait(q, s));
    }
  }

  /* ----- giving the lock back ----- */

  // The stage at which one side's lock is given up, and the next one.
  predicate Unlocks(at: QStage, s: Side, next: QStage) {
    match at
    case ToUnlockTx(a) => s.Recv? && next == ToUnlockRx(a)
    case ToUnlockRx(a) => s.Send? && next == ToResume(a)
    case _ => false
  }

  lemma UnlockStep(m: Machine, p: Pc, s: Side, next: QStage)
    requires Inv(m) && m.c.cur != m.idle && PcOf(m, m.c.cur) == p && p.InQueue? && Unlocks(p.at, s, next)
    ensures var m' := Goto(DoWaking(m, UnlockSide(m.c, p.q, s), Wait(p.q, s)), p.(at := next));
            Inv(m') && NoneLostBy(m, m')
  {
    hide EventHome, Home, Smooth, Shaped, Clocked, HighOk, NoneLost, EventKept, UnlockSide, Left, WaitsShrink,
         ParkedOn, LockOk, WokenOk;
    var c' := UnlockSide(m.c, p.q, s);
    var m' := Goto(DoWaking(m, c', Wait(p.q, s)), p.(at := next));
    CurCreated(m);
    assert TaskPcOk(m, m.c.cur);
    UnlockSmooth(m.c, p.q, s);
    SmoothCore(m.c, c', m.idle);
    SmoothKeepsEvents(m.c, c');
    SmoothReady(m.c, c');
    UnlockMove(m.c, p, s, next);
    SmoothSuspended(m.c, c');
    OwnPc(m, m', p.(at := next));
    UnlockLocks(m, m', p, s, next);
    WaitsParked(m);
    forall l ensures WokenOk(m', l) {
      assert WokenOk(m, l);
      WokenAfterMove(m, m', p.(at := next), Wait(p.q, s), l);
    }
    forall q', s' | NoneLost(m, q', s') ensures NoneLost(m', q', s') { UnlockNoneLost(m, m', p, s, next, q', s'); }
  }

  lemma SmoothSuspended(c: Core, c': Core)
    requires Smooth(c, c')
    ensures c'.suspended == c.suspended
  {
    hide Wakes;
  }

  lemma UnlockMove(c: Core, p: Pc, s: Side, next: QStage)
    requires p.InQueue? && Unlocks(p.at, s, next) && PcRange(c, p)
    ensures var p' := p.(at := next);
            && PcRange(c, p') && ParkedOn(p') == ParkedOn(p) && MayBeListed(p') == MayBeListed(p) && !NotifyPc(p')
            && !NotifyPc(p)
            && Holding(p') && Holding(p) && !NeedsRunning(p', c.cur) && Away(p', c.cur) == Away(p, c.cur)
  {}

  lemma WokenAfterMove(m: Machine, m': Machine, p: Pc, l: ListId, l': ListId)
    requires WokenOk(m, l') && m.c.prio.Keys <= m'.c.prio.Keys && WaitsShrink(m.c, m'.c) && l.Wait?
    requires m' == m.(c := m'.c, pc := m.pc[m.c.cur := p], woken := m.woken[l := WokenOf(m, l) + Left(m.c, m'.c, l)])
    requires ParkedOn(p) == ParkedOn(PcOf(m, m.c.cur))
    requires forall t :: OnWait(EventHome(m.c.ls, t)) ==> EventHome(m.c.ls, t) == ParkedOn(PcOf(m, t))
    ensures WokenOk(m', l')
  {
    hide EventHome, ParkedOn, WaitsShrink, Left;
    var m1 := Goto(m, p);
    forall t ensures ParkedOn(PcOf(m1, t)) == ParkedOn(PcOf(m, t)) {}
    WokenMoved(m, m1, l');
    WokenAfter(m, m1, m'.c, l, l');
    assert DoWaking(m1, m'.c, l) == m';
  }

  lemma WokenMoved(m: Machine, m1: Machine, l: ListId)
    requires WokenOk(m, l) && m1.c == m.c && m1.woken == m.woken
    requires forall t :: ParkedOn(PcOf(m1, t)) == ParkedOn(PcOf(m, t))
    ensures WokenOk(m1, l)
  {
    hide EventHome, ParkedOn;
  }

  lemma UnlockLocks(m: Machine, m': Machine, p: Pc, s: Side, next: QStage)
    requires QueuesOk(m) && PcOf(m, m.c.cur) == p && p.InQueue? && Unlocks(p.at, s, next) && p.q in m.c.queues
    requires m'.c.queues == m.c.queues[p.q := SetLock(m.c.queues[p.q], s, UNLOCKED)] && m'.c.tasks == m.c.tasks
    requires m'.c.cur == m.c.cur
    requires m'.pc == m.pc[m.c.cur := p.(at := next)]
    ensures forall q, s' :: LockOk(m', q, s')
  {
    hide WokenOk;
    forall q, s' ensures LockOk(m', q, s') { assert LockOk(m, q, s'); }
  }

  // Giving up the lock wakes as many waiters as it has counted, or all.
  lemma UnlockLeft(c: Core, q: QueueId, s: Side)
    requires Shaped(c) && q in c.queues
    ensures var (c', l, n) := (UnlockSide(c, q, s), Wait(q, s), LockOf(c.queues[q], s));
            WaitsShrink(c, c') && (|Left(c, c', l)| == (if n > 0 then n else 0) || !OneWaits(c', l))
  {
    hide Shaped, WakeMany, EventHome;
    var n := LockOf(c.queues[q], s);
    WakeManyLeft(c, Wait(q, s), if n > 0 then n else 0);
    var c1 := WakeMany(c, Wait(q, s), if n > 0 then n else 0);
    assert Left(c, UnlockSide(c, q, s), Wait(q, s)) == Left(c, c1, Wait(q, s));
  }

  // The idle task waits for no queue.
  lemma LeftBound(c: Core, c': Core, l: ListId, idle: Task)
    requires CoreOk(c, idle) && l.Wait?
    ensures |Left(c, c', l)| < c.tasks
  {
    hide EventHome, Home, Clocked, Sound;
    assert TaskOk(c, idle);
    SmallerSet(Left(c, c', l), c.prio.Keys, idle);
  }

  lemma UnlockServes(m: Machine, m': Machine, p: Pc, s: Side, next: QStage)
    requires Inv(m) && PcOf(m, m.c.cur) == p && p.InQueue? && NoneLost(m, p.q, s) && Unlocks(p.at, s, next)
    requires p.q in m.c.queues
    requires m' == Goto(DoWaking(m, UnlockSide(m.c, p.q, s), Wait(p.q, s)), p.(at := next))
    ensures NoneLost(m', p.q, s)
  {
    hide EventHome, Home, Smooth, Shaped, Clocked, HighOk, PcOk, UnlockSide, Left, WaitsShrink, OneWaits, Wanted;
    var c', l := UnlockSide(m.c, p.q, s), Wait(p.q, s);
    UnlockSmooth(m.c, p.q, s);
    SmoothKeepsEvents(m.c, c');
    UnlockLeft(m.c, p.q, s);
    LeftBound(m.c, c', l, m.idle);
    assert WokenOk(m, l);
    WokenGrows(m, c', l);
    WantedMeans(m', p.q, s);
    NoneLostKept(m, m', p.q, s);
  }

  lemma UnlockNoneLost(m: Machine, m': Machine, p: Pc, s: Side, next: QStage, q': QueueId, s': Side)
    requires Inv(m) && NoneLost(m, q', s') && PcOf(m, m.c.cur) == p && p.InQueue? && Unlocks(p.at, s, next)
    requires p.q in m.c.queues
    requires m' == Goto(DoWaking(m, UnlockSide(m.c, p.q, s), Wait(p.q, s)), p.(at := next))
    ensures NoneLost(m', q', s')
  {
    hide EventHome, Home, Smooth, Shaped, Clocked, HighOk, PcOk, QueuesOk, UnlockSide, Left, WaitsShrink, OneWaits,
         Wanted;
    var c' := UnlockSide(m.c, p.q, s);
    UnlockSmooth(m.c, p.q, s);
    SmoothKeepsEvents(m.c, c');
    if q' != p.q {
      NoneLostElsewhere(m, m', q', s');
    } else if s' == s {
      UnlockServes(m, m', p, s, next);
    } else {
      NoneLostKept(m, m', q', s');
    }
  }
}

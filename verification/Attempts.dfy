/** The critical section at the head of every queue call's loop: try, and otherwise prepare to block. */
module Attempts {
  import opened Lists
  import opened Kernel
  import opened Queues
  import opened Shape
  import opened Clock
  import opened Priority
  import opened Machine
  import opened Invariant
  import opened CoreSteps
  import opened Wakeups
  import opened Steps
  import opened QueueSteps

  // The running task is at the head of the loop of queue call p.
  ghost predicate AtHead(m: Machine, p: Pc) {
    && Inv(m) && m.c.cur != m.idle && PcOf(m, m.c.cur) == p && p.InQueue? && p.at.AtTop? && p.q in m.c.queues
    && OverwriteOk(m.c, p.q, p.op)
  }

  // Where it may go on: out of the kernel, or towards blocking.
  predicate GoesOn(p: Pc, p': Pc) {
    p'.User? || (p.InQueue? && p'.InQueue? && p'.q == p.q && p'.op == p.op && p'.wait == p.wait && p.wait > 0
                 && p'.at.ToSuspend?)
  }

  // The running task leaves the head of the loop, and its place among the woken.
  ghost predicate Leaves(m: Machine, m1: Machine, p: Pc) {
    && m1.c == m.c && m1.idle == m.idle && p.InQueue? && GoesOn(p, PcOf(m1, m.c.cur))
    && m1.pc == m.pc[m.c.cur := PcOf(m1, m.c.cur)]
    && m1.woken == Recheck(m, Wait(p.q, SideOf(p.op))).woken
  }

  lemma HeadPc(m: Machine, m': Machine, p: Pc)
    requires AtHead(m, p) && CoreOk(m'.c, m.idle) && m'.idle == m.idle && GoesOn(p, PcOf(m', m.c.cur))
    requires m'.pc == m.pc[m.c.cur := PcOf(m', m.c.cur)] && m'.c.prio == m.c.prio && QueuesStay(m.c, m'.c)
    requires (forall t :: EventKept(m.c, m'.c, t)) && Switched(m.c, m'.c) && m'.c.suspended == m.c.suspended
    requires OnReady(Home(m.c.ls, m.c.cur)) ==> OnReady(Home(m'.c.ls, m.c.cur))
    ensures PcOk(m')
  {
    hide EventHome, Home, CoreOk, HighOk, QueuesOk, QueuesStay;
    CurIn(m);
    assert TaskPcOk(m, m.c.cur) && EventKept(m.c, m'.c, m.c.cur);
    HeadRange(m, m', p);
    PcStep(m, m');
  }

  lemma HeadRange(m: Machine, m': Machine, p: Pc)
    requires PcRange(m.c, p) && GoesOn(p, PcOf(m', m.c.cur)) && m'.c.prio == m.c.prio && QueuesStay(m.c, m'.c)
    ensures PcRange(m'.c, PcOf(m', m.c.cur))
  {
    RangeKept(m.c, m'.c, PcOf(m', m.c.cur));
  }

  lemma LeavesWoken(m: Machine, m1: Machine, p: Pc, l: ListId)
    requires AtHead(m, p) && Leaves(m, m1, p)
    ensures WokenOk(m1, l) && m.c.cur !in WokenOf(m1, l)
    ensures (l != Wait(p.q, SideOf(p.op)) ==> WokenOf(m1, l) == WokenOf(m, l))
    ensures |WokenOf(m, l)| - 1 <= |WokenOf(m1, l)| <= |WokenOf(m, l)|
  {
    hide EventHome, CoreOk, PcOk, PriorityOk, OverwriteOk;
    assert WokenOk(m, l);
    WithoutOne(WokenOf(m, l), m.c.cur);
    forall t | t in WokenOf(m1, l)
      ensures t in m1.c.prio && ParkedOn(PcOf(m1, t)) == On(l) && EventHome(m1.c.ls, t) != On(l)
    {
      assert t in WokenOf(m, l) && t != m.c.cur;
    }
  }

  lemma WithoutOne(a: set<Task>, x: Task)
    ensures |a| - 1 <= |a - {x}| <= |a|
  {
    if x in a { assert a == (a - {x}) + {x}; } else { assert a - {x} == a; }
  }

  lemma LeavesParked(m: Machine, m1: Machine, p: Pc)
    requires AtHead(m, p) && Leaves(m, m1, p)
    ensures forall t :: OnWait(EventHome(m.c.ls, t)) ==> EventHome(m.c.ls, t) == ParkedOn(PcOf(m1, t))
  {
    hide EventHome, CoreOk, HighOk, OverwriteOk, QueuesOk, ParkedOn, Home, NeedsRunning, Away, Leaves, Recheck;
    WaitsParked(m);
    forall t | OnWait(EventHome(m.c.ls, t)) ensures EventHome(m.c.ls, t) == ParkedOn(PcOf(m1, t)) {
      assert t != m.c.cur;
      assert PcOf(m1, t) == PcOf(m, t) by { LeavesOthers(m, m1, p, t); }
    }
  }

  lemma LeavesOthers(m: Machine, m1: Machine, p: Pc, t: Task)
    requires Leaves(m, m1, p) && t != m.c.cur
    ensures PcOf(m1, t) == PcOf(m, t)
  {}

  // At the head of the loop, and after leaving it, the task that runs holds no lock.
  lemma HeadUnlocked(m: Machine, m': Machine, p: Pc)
    requires AtHead(m, p) && GoesOn(p, PcOf(m', m.c.cur)) && m'.pc == m.pc[m.c.cur := PcOf(m', m.c.cur)] && PcOk(m)
    ensures forall q, s :: !HoldsLock(p, q, s) && !HoldsLock(PcOf(m', m'.c.cur), q, s)
    ensures forall q, s :: !AboutToWait(p, q, s) && !AboutToWait(PcOf(m', m'.c.cur), q, s)
  {
    hide EventHome, Home, CoreOk, QueuesOk, HighOk, HoldsLock, AboutToWait, CurOk, OverwriteOk, ParkedOn, PcRange;
    NotHolding(p);
    if m'.c.cur != m.c.cur {
      assert TaskPcOk(m, m'.c.cur);
      NotHolding(PcOf(m, m'.c.cur));
    } else {
      NotHolding(PcOf(m', m.c.cur));
    }
  }

  /* ----- the attempt fails ----- */

  lemma FailStep(m: Machine, p: Pc)
    requires AtHead(m, p) && !CanGo(QueueOf(m.c, p.q), p.op)
    ensures var m' := QueueTop(m, p); Inv(m') && NoneLostBy(m, m')
  {
    hide EventHome, Home, Shaped, Clocked, HighOk, NoneLost, EventKept, ParkedOn, HoldsLock, AboutToWait, OverwriteOk,
         PcRange, WaitsShrink, WokenOk, NeedsRunning, Away;
    var m' := QueueTop(m, p);
    EventsSame(m.c, m.c);
    HeadPc(m, m', p);
    HeadUnlocked(m, m', p);
    forall q, s ensures LockOk(m', q, s) { assert LockOk(m, q, s); }
    forall l ensures WokenOk(m', l) { LeavesWoken(m, m', p, l); }
    forall q, s | NoneLost(m, q, s) ensures NoneLost(m', q, s) { FailNoneLost(m, m', p, q, s); }
  }

  // Nothing is available to the task that has looked in vain.
  lemma FailNoneLost(m: Machine, m': Machine, p: Pc, q: QueueId, s: Side)
    requires AtHead(m, p) && !CanGo(QueueOf(m.c, p.q), p.op) && Leaves(m, m', p) && NoneLost(m, q, s)
    ensures NoneLost(m', q, s)
  {
    hide EventHome, CoreOk, PcOk, HighOk, OverwriteOk, QueuesOk, Wanted, HoldsLock;
    if q != p.q || s != SideOf(p.op) {
      LeavesWoken(m, m', p, Wait(q, s));
      if Wanted(m', q, s) { LeavesWanted(m, m', p, q, s); }
    }
  }

  lemma LeavesWanted(m: Machine, m': Machine, p: Pc, q: QueueId, s: Side)
    requires Leaves(m, m', p) && Wanted(m', q, s)
    ensures Wanted(m, q, s)
  {
    hide EventHome;
  }

  /* ----- the attempt succeeds ----- */

  lemma SuccessStep(m: Machine, p: Pc)
    requires AtHead(m, p) && CanGo(QueueOf(m.c, p.q), p.op)
    ensures var m' := QueueTop(m, p); Inv(m') && NoneLostBy(m, m')
  {
    hide EventHome, Home, Smooth, Shaped, Clocked, NoneLost, EventKept, ParkedOn, HoldsLock, AboutToWait, OverwriteOk,
         PcRange, WaitsShrink, WokenOk, NeedsRunning, Away, Attempt, Left, HighOk, QueuesOk, PcOk, CanGo,
         AfterAttempt;
    var m' := QueueTop(m, p);
    var c' := Attempt(m.c, p.q, p.op);
    AttemptSmooth(m.c, p.q, p.op, m.idle);
    SmoothCore(m.c, c', m.idle);
    SmoothKeepsEvents(m.c, c');
    SmoothReady(m.c, c');
    SmoothFrame(m.c, c');
    AttemptStays(m.c, c', p.q, p.op);
    HeadPc(m, m', p);
    SuccessQueues(m, m', p);
    JustCreatedNone(m, p);
    HighWeaken(m'.c, JustCreated(PcOf(m', m'.c.cur)));
    forall q, s | NoneLost(m, q, s) ensures NoneLost(m', q, s) { SuccessNoneLost(m, m', p, q, s); }
  }

  lemma JustCreatedNone(m: Machine, p: Pc)
    requires AtHead(m, p)
    ensures HighOk(m.c)
  {
    hide HighOk, CoreOk, PcOk, QueuesOk;
  }

  lemma SmoothFrame(c: Core, c': Core)
    requires Smooth(c, c')
    ensures c'.suspended == c.suspended && Switched(c, c')
  {
    hide Wakes;
  }

  lemma AttemptStays(c: Core, c': Core, q: QueueId, op: Op)
    requires q in c.queues && CanGo(QueueOf(c, q), op) && c'.queues == c.queues[q := AfterAttempt(c.queues[q], op)]
    ensures QueuesStay(c, c')
  {}

  lemma SuccessQueues(m: Machine, m': Machine, p: Pc)
    requires AtHead(m, p) && CanGo(QueueOf(m.c, p.q), p.op) && m' == QueueTop(m, p) && PcOk(m')
    requires WaitsShrink(m.c, m'.c)
    requires m'.c.queues == m.c.queues[p.q := AfterAttempt(m.c.queues[p.q], p.op)] && m'.c.tasks == m.c.tasks
    requires m'.c.prio == m.c.prio
    ensures QueuesOk(m')
  {
    hide EventHome, CoreOk, PcOk, HighOk, ParkedOn, HoldsLock, AboutToWait, OverwriteOk, WaitsShrink, WokenOk,
         Attempt, Left;
    var l := ServedList(p.q, p.op);
    var m1 := Goto(Recheck(m, Wait(p.q, SideOf(p.op))), User);
    HeadUnlocked(m, m', p);
    forall q, s ensures LockOk(m', q, s) { assert LockOk(m, q, s); }
    LeavesParked(m, m1, p);
    forall l' ensures WokenOk(m', l') {
      LeavesWoken(m, m1, p, l');
      WokenAfter(m, m1, m'.c, l, l');
    }
  }

  // What the call's success leaves to be had, and how many woken tasks there now are.
  lemma SuccessNoneLost(m: Machine, m': Machine, p: Pc, q: QueueId, s: Side)
    requires AtHead(m, p) && CanGo(QueueOf(m.c, p.q), p.op) && m' == QueueTop(m, p) && NoneLost(m, q, s)
    ensures NoneLost(m', q, s)
  {
    hide EventHome, CoreOk, PcOk, HighOk, OverwriteOk, QueuesOk, Wanted, HoldsLock, AboutToWait, Attempt, Left,
         WaitsShrink, OneWaits, CanGo, AfterAttempt, Leaves, WokenOk, Covered, GoesOn, Smooth;
    var m1 := Goto(Recheck(m, Wait(p.q, SideOf(p.op))), User);
    LeavesUser(m, m1, p);
    LeavesWoken(m, m1, p, Wait(q, s));
    AttemptLeft(m, p);
    HeadUnlockedUser(m, m', p);
    WantedMeans(m', q, s);
    WokenGrows(m1, m'.c, Wait(q, s));
    if q != p.q {
      NoneLostElsewhere(m, m', q, s);
    } else {
      if Wanted(m', q, s) && Covered(m, q, s) { SuccessCovers(m, m1, m', p, s); }
      NoneLostKept(m, m', q, s);
    }
  }

  lemma LeavesUser(m: Machine, m1: Machine, p: Pc)
    requires p.InQueue? && m1 == Goto(Recheck(m, Wait(p.q, SideOf(p.op))), User)
    ensures Leaves(m, m1, p) && GoesOn(p, PcOf(m1, m.c.cur))
  {}

  lemma HeadUnlockedUser(m: Machine, m': Machine, p: Pc)
    requires AtHead(m, p) && CanGo(QueueOf(m.c, p.q), p.op) && m' == QueueTop(m, p)
    ensures forall q, s :: !AboutToWait(p, q, s) && !AboutToWait(PcOf(m', m'.c.cur), q, s)
  {
    hide CoreOk, CurOk, HighOk, QueuesOk, TaskPcOk, Attempt;
    HeadUnlocked(m, m', p);
  }

  lemma AttemptLeft(m: Machine, p: Pc)
    requires AtHead(m, p) && CanGo(QueueOf(m.c, p.q), p.op)
    ensures var (c', l) := (Attempt(m.c, p.q, p.op), ServedList(p.q, p.op));
            && WaitsShrink(m.c, c') && (OneWaits(c', l) ==> |Left(m.c, c', l)| == 1) && c'.tasks == m.c.tasks
            && c'.queues == m.c.queues[p.q := AfterAttempt(m.c.queues[p.q], p.op)]
  {
    hide EventHome, Home, Clocked, Smooth, PcOk, HighOk, QueuesOk, Sound, TaskOk, Left, OneWaits, WaitsShrink,
         YieldIf, WakeOne;
    var c, op := m.c, p.op;
    AttemptSmooth(c, p.q, op, m.idle);
    SmoothKeepsEvents(c, Attempt(c, p.q, op));
    var c1 := if op.OpPeek? then c else SetQueue(c, p.q, AfterAttempt(c.queues[p.q], op));
    SetQueueSmooth(c, p.q, AfterAttempt(c.queues[p.q], op));
    WakeAndYieldLeft(c1, ServedList(p.q, op));
    LeftSame(c, c1, Attempt(c, p.q, op), ServedList(p.q, op));
  }

  // What an attempt does to what is available on one side.
  lemma AttemptAvailable(d: Queue, op: Op, s: Side)
    requires CanGo(d, op) && (op.OpSend? && op.pos.Overwrite? ==> d.length == 1)
    ensures var (d', gains, loses) := (AfterAttempt(d, op), s == Served(op), s == SideOf(op));
            && LockOf(d', s) == LockOf(d, s)
            && (Available(d', s) <= Available(d, s) + (if gains then 1 else 0) - (if loses then 1 else 0)
                || (loses && Available(d', s) <= 0))
  {}

  lemma SuccessCovers(m: Machine, m1: Machine, m': Machine, p: Pc, s: Side)
    requires AtHead(m, p) && CanGo(QueueOf(m.c, p.q), p.op) && m' == QueueTop(m, p) && Covered(m, p.q, s)
    requires m1 == Goto(Recheck(m, Wait(p.q, SideOf(p.op))), User)
    requires m'.c.queues == m.c.queues[p.q := AfterAttempt(m.c.queues[p.q], p.op)] && m'.c.tasks == m.c.tasks
    requires var l := Wait(p.q, s);
             && |WokenOf(m1, l) + Left(m.c, m'.c, l)| == |WokenOf(m1, l)| + |Left(m.c, m'.c, l)|
             && |WokenOf(m, l)| - 1 <= |WokenOf(m1, l)| && (s != SideOf(p.op) ==> WokenOf(m1, l) == WokenOf(m, l))
             && (s == Served(p.op) ==> |Left(m.c, m'.c, l)| == 1)
    ensures Covered(m', p.q, s)
  {
    hide EventHome, CoreOk, PcOk, HighOk, Attempt, Left, WokenOk, HoldsLock, AfterAttempt, CanGo, Recheck, WokenOf,
         LockOf, Available;
    assert LockOk(m, p.q, s);
    HeadNoLock(p, p.q, s);
    HeadWoken(m, p, s);
    AttemptAvailable(m.c.queues[p.q], p.op, s);
  }

  lemma HeadWoken(m: Machine, p: Pc, s: Side)
    requires p.InQueue? && CanGo(QueueOf(m.c, p.q), p.op)
    ensures var (m1, m', l) := (Goto(Recheck(m, Wait(p.q, SideOf(p.op))), User), QueueTop(m, p), Wait(p.q, s));
            WokenOf(m', l) == if s == Served(p.op) then WokenOf(m1, l) + Left(m.c, m'.c, l) else WokenOf(m1, l)
  {
    hide Attempt, Left, CanGo;
  }

  lemma HeadNoLock(p: Pc, q: QueueId, s: Side)
    requires p.InQueue? && p.at.AtTop?
    ensures !HoldsLock(p, q, s)
  {}

  /** The head of the loop, whichever way it goes. */
  lemma HeadStep(m: Machine, p: Pc)
    requires Inv(m) && m.c.cur != m.idle && PcOf(m, m.c.cur) == p && p.InQueue? && p.at.AtTop?
    ensures var m' := QueueTop(m, p); Inv(m') && NoneLostBy(m, m')
  {
    hide EventHome, Home, CoreOk, HighOk, NoneLostBy, QueuesOk, CanGo, QueueTop, CurOk, OverwriteOk;
    assert TaskPcOk(m, m.c.cur);
    if CanGo(QueueOf(m.c, p.q), p.op) { SuccessStep(m, p); } else { FailStep(m, p); }
  }
}

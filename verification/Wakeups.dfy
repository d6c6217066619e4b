/** No wake-up is lost: the queue lock counts, the woken tasks that have yet to look, and
    what there is in the queue always balance while anyone waits. */
module Wakeups {
  import opened Lists
  import opened Kernel
  import opened Queues
  import opened Shape
  import opened Priority
  import opened Machine
  import opened Invariant
  import opened CoreSteps

  // Tasks leave queue event lists only.
  ghost predicate WaitsShrink(c: Core, c': Core) {
    forall t :: OnWait(EventHome(c'.ls, t)) ==> EventHome(c'.ls, t) == EventHome(c.ls, t)
  }

  lemma KeptShrinks(c: Core, c': Core)
    requires forall t :: EventKept(c, c', t)
    ensures WaitsShrink(c, c')
  {
    hide EventHome;
    forall t ensures OnWait(EventHome(c'.ls, t)) ==> EventHome(c'.ls, t) == EventHome(c.ls, t) {
      assert EventKept(c, c', t);
    }
  }

  // About to put itself on the event list.
  predicate AboutToWait(p: Pc, q: QueueId, s: Side) { p.InQueue? && p.q == q && SideOf(p.op) == s && p.at.ToPlace? }

  ghost predicate OneWaits(c: Core, l: ListId) { exists t :: EventHome(c.ls, t) == On(l) }

  lemma ShrinkWaits(c: Core, c': Core, l: ListId)
    requires WaitsShrink(c, c') && l.Wait? && OneWaits(c', l)
    ensures OneWaits(c, l)
  {
    hide EventHome;
    var t :| EventHome(c'.ls, t) == On(l);
    assert EventHome(c.ls, t) == On(l);
  }

  /* What changes for one side of one queue: nobody new wants, and what became available is
     covered by newly woken tasks or newly counted wake-ups. */
  lemma NoneLostKept(m: Machine, m': Machine, q: QueueId, s: Side)
    requires NoneLost(m, q, s) && q in m.c.queues && q in m'.c.queues
    requires WaitsShrink(m.c, m'.c)
    requires AboutToWait(PcOf(m', m'.c.cur), q, s) ==> AboutToWait(PcOf(m, m.c.cur), q, s)
    requires Wanted(m', q, s) && Covered(m, q, s) ==> Covered(m', q, s)
    ensures NoneLost(m', q, s)
  {
    hide EventHome, Covered;
    if Wanted(m', q, s) && OneWaits(m'.c, Wait(q, s)) { ShrinkWaits(m.c, m'.c, Wait(q, s)); }
  }

  /* ----- who leaves an event list ----- */

  lemma WakeOneLeft(c: Core, l: ListId)
    requires Shaped(c) && l.Wait?
    ensures var c' := WakeOne(c, l).0;
            && WaitsShrink(c, c') && (OneWaits(c, l) ==> |Left(c, c', l)| == 1)
            && (!OneWaits(c, l) ==> !OneWaits(c', l))
  {
    hide Sound, TaskOk, OrderKept, Home, EventHome, RemoveFromEventList, IsEmpty, Head;
    ShapedSound(c);
    if IsEmpty(c.ls, l) {
      NobodyOn(c, l);
    } else {
      RemoveFromEventListFacts(c, l);
      var t := Head(c.ls, l).t;
      InPrio(c, t);
      assert Left(c, WakeOne(c, l).0, l) == {t};
    }
  }

  lemma NobodyOn(c: Core, l: ListId)
    requires Sound(c.ls) && IsEmpty(c.ls, l)
    ensures forall t :: EventHome(c.ls, t) != On(l)
  {
    HeadFacts(c.ls, l);
  }

  // A context switch moves no item.
  lemma SwitchLeaves(c: Core, c1: Core, l: ListId)
    requires Shaped(c1)
    ensures Left(c, SwitchContext(c1), l) == Left(c, c1, l)
    ensures WaitsShrink(c, c1) ==> WaitsShrink(c, SwitchContext(c1))
    ensures OneWaits(SwitchContext(c1), l) <==> OneWaits(c1, l)
  {
    hide Shaped, Wakes, Home, EventHome, SwitchContext;
    SwitchContextFacts(c1);
    if OneWaits(c1, l) {
      var t :| EventHome(c1.ls, t) == On(l);
      assert EventHome(SwitchContext(c1).ls, t) == On(l);
    }
  }

  lemma WakeAndYieldLeft(c: Core, l: ListId)
    requires Shaped(c) && l.Wait?
    ensures var c' := YieldIf(WakeOne(c, l));
            && WaitsShrink(c, c') && (OneWaits(c, l) ==> |Left(c, c', l)| == 1)
            && (!OneWaits(c, l) ==> !OneWaits(c', l))
  {
    hide Shaped, WakeOne, SwitchContext, EventHome, WaitsShrink, Left, OneWaits;
    WakeOneLeft(c, l);
    WakeOneSmooth(c, l);
    SwitchLeaves(c, WakeOne(c, l).0, l);
  }

  lemma {:induction false} WakeManyLeft(c: Core, l: ListId, n: nat)
    requires Shaped(c) && l.Wait?
    ensures var c' := WakeMany(c, l, n);
            WaitsShrink(c, c') && (|Left(c, c', l)| == n || !OneWaits(c', l))
    decreases n
  {
    hide Sound, TaskOk, OrderKept, Home, EventHome, RemoveFromEventList, IsEmpty, Head, Smooth;
    ShapedSound(c);
    if n == 0 {
      assert Left(c, c, l) == {};
    } else if IsEmpty(c.ls, l) {
      NobodyOn(c, l);
    } else {
      var r := RemoveFromEventList(c, l);
      var c1 := r.0.(yieldPending := r.0.yieldPending || r.1);
      WakeOneSmooth(c, l);
      SmoothSelf(r.0, c1);
      RemoveFromEventListFacts(c, l);
      RemoveFromEventListFrame(c, l);
      WakeManyLeft(c1, l, n - 1);
      var t := Head(c.ls, l).t;
      InPrio(c, t);
      LeftStep(c, c1, WakeMany(c1, l, n - 1), l, t);
    }
  }

  lemma LeftStep(c: Core, c1: Core, c2: Core, l: ListId, t: Task)
    requires c1.prio == c.prio && t in c.prio && EventHome(c.ls, t) == On(l) && EventHome(c1.ls, t) != On(l) && l.Wait?
    requires forall u :: u != t ==> EventHome(c1.ls, u) == EventHome(c.ls, u)
    requires WaitsShrink(c1, c2)
    ensures |Left(c, c2, l)| == |Left(c1, c2, l)| + 1
    ensures WaitsShrink(c, c1) ==> WaitsShrink(c, c2)
  {
    hide EventHome;
    assert EventHome(c2.ls, t) != On(l);
    assert Left(c, c2, l) == Left(c1, c2, l) + {t};
    assert t !in Left(c1, c2, l);
  }

  // Woken tasks are off the list already, so those leaving it now are new.
  lemma WokenGrows(m: Machine, c: Core, l: ListId)
    requires WokenOk(m, l)
    ensures |WokenOf(m, l) + Left(m.c, c, l)| == |WokenOf(m, l)| + |Left(m.c, c, l)|
  {
    hide EventHome;
    assert WokenOf(m, l) !! Left(m.c, c, l);
  }

  /* ----- a send or receive from an interrupt ----- */

  // The operation leaves the record d, in which side s has gained one at most, the other nothing.
  ghost predicate Gains(d0: Queue, d: Queue, s: Side) {
    && d.rxLock == d0.rxLock && d.txLock == d0.txLock && d.length == d0.length
    && Available(d, s) <= Available(d0, s) + 1 && Available(d, Other(s)) <= Available(d0, Other(s))
  }

  // The side that has gained is served.
  lemma IsrServes(m: Machine, q: QueueId, d: Queue, s: Side)
    requires QueuesOk(m) && Shaped(m.c) && q in m.c.queues && NoneLost(m, q, s) && Gains(m.c.queues[q], d, s)
    ensures NoneLost(DoWaking(m, WakeOrCount(SetQueue(m.c, q, d), q, s), Wait(q, s)), q, s)
  {
    hide Shaped, Smooth, EventHome, WakeOne, WakeOrCount, Left, OneWaits, WaitsShrink, Wanted;
    var c' := WakeOrCount(SetQueue(m.c, q, d), q, s);
    var m' := DoWaking(m, c', Wait(q, s));
    WakeOrCountSmooth(m.c, q, d, s);
    SmoothKeepsEvents(m.c, c');
    assert LockOk(m, q, s) && WokenOk(m, Wait(q, s));
    if LockOf(d, s) == UNLOCKED { WakeOrCountLeft(m.c, q, d, s); }
    WokenGrows(m, c', Wait(q, s));
    WantedMeans(m', q, s);
    NoneLostKept(m, m', q, s);
  }

  lemma WakeOrCountLeft(c: Core, q: QueueId, d: Queue, s: Side)
    requires Shaped(c) && LockOf(d, s) == UNLOCKED
    ensures var (c', l) := (WakeOrCount(SetQueue(c, q, d), q, s), Wait(q, s));
            OneWaits(c', l) ==> |Left(c, c', l)| == 1
  {
    hide Shaped, Smooth, EventHome, WakeOne, Left, OneWaits;
    SetQueueSmooth(c, q, d);
    WakeOneLeft(SetQueue(c, q, d), Wait(q, s));
    LeftSame(c, SetQueue(c, q, d), WakeOrCount(SetQueue(c, q, d), q, s), Wait(q, s));
  }

  lemma IsrOther(m: Machine, q: QueueId, d: Queue, s: Side)
    requires QueuesOk(m) && Shaped(m.c) && q in m.c.queues && NoneLost(m, q, Other(s)) && Gains(m.c.queues[q], d, s)
    ensures NoneLost(DoWaking(m, WakeOrCount(SetQueue(m.c, q, d), q, s), Wait(q, s)), q, Other(s))
  {
    hide Shaped, Smooth, EventHome, WakeOne, WakeOrCount, Left, OneWaits, WaitsShrink, Wanted;
    var c' := WakeOrCount(SetQueue(m.c, q, d), q, s);
    WakeOrCountSmooth(m.c, q, d, s);
    SmoothKeepsEvents(m.c, c');
    NoneLostKept(m, DoWaking(m, c', Wait(q, s)), q, Other(s));
  }

  // Another queue is not affected.
  lemma NoneLostElsewhere(m: Machine, m': Machine, q: QueueId, s: Side)
    requires NoneLost(m, q, s) && (q in m'.c.queues ==> q in m.c.queues && m'.c.queues[q] == m.c.queues[q])
    requires WaitsShrink(m.c, m'.c) && m'.c.tasks == m.c.tasks
    requires AboutToWait(PcOf(m', m'.c.cur), q, s) ==> AboutToWait(PcOf(m, m.c.cur), q, s)
    requires |WokenOf(m', Wait(q, s))| >= |WokenOf(m, Wait(q, s))|
    ensures NoneLost(m', q, s)
  {
    hide EventHome, Wanted, WaitsShrink;
    if q in m'.c.queues { NoneLostKept(m, m', q, s); }
  }

  lemma SmoothKeepsEvents(c: Core, c': Core)
    requires Smooth(c, c')
    ensures WaitsShrink(c, c') && c'.tasks == c.tasks && c'.prio == c.prio
  {
    WakesKeepEvents(c, c');
    KeptShrinks(c, c');
    WakesSameTasks(c, c');
  }

  lemma LeftSame(c: Core, c1: Core, c': Core, l: ListId)
    requires c1.ls == c.ls && c1.prio == c.prio
    ensures Left(c1, c', l) == Left(c, c', l) && OneWaits(c1, l) == OneWaits(c, l)
  {}

  lemma WantedMeans(m: Machine, q: QueueId, s: Side)
    ensures Wanted(m, q, s) <==> OneWaits(m.c, Wait(q, s)) || AboutToWait(PcOf(m, m.c.cur), q, s)
  {}
}

/** What each kernel operation keeps of the invariant on the kernel's data. */
module CoreSteps {
  import opened Config
  import opened Lists
  import opened Kernel
  import opened Queues
  import opened Shape
  import opened Clock
  import opened Priority
  import opened Machine
  import opened Invariant

  // No time passes, and the scheduler's suspension is unchanged.
  ghost predicate SameClock(c: Core, c': Core) {
    && c'.tick == c.tick && c'.flip == c.flip && c'.overflows == c.overflows && c'.nextUnblock == c.nextUnblock
    && c'.pended == c.pended && c'.suspended == c.suspended
  }

  // A task that something other than the passing of time may wake.
  ghost predicate CanRouse(c: Core, t: Task) {
    EventHome(c.ls, t).On? || AwaitsNotify(c, t) || Home(c.ls, t) == On(Suspended)
  }

  ghost predicate Rouses(c: Core, c': Core) {
    forall t :: Home(c'.ls, t) == Home(c.ls, t) || CanRouse(c, t)
  }

  /* Tasks are woken or switched between, at one instant. */
  ghost predicate Smooth(c: Core, c': Core) { Wakes(c, c') && Switched(c, c') && SameClock(c, c') && Rouses(c, c') }

  lemma RousesTrans(c: Core, c1: Core, c2: Core)
    requires Rouses(c, c1) && Rouses(c1, c2) && Wakes(c, c1)
    ensures Rouses(c, c2)
  {
    hide Home, EventHome, Sound, OrderKept;
    forall t ensures Home(c2.ls, t) == Home(c.ls, t) || CanRouse(c, t) {
      assert KeptOrWoken(c, c1, t);
    }
  }

  lemma SmoothTrans(c: Core, c1: Core, c2: Core)
    requires Smooth(c, c1) && Smooth(c1, c2)
    ensures Smooth(c, c2)
  {
    hide Wakes, Home, Rouses;
    WakesTrans(c, c1, c2);
    RousesTrans(c, c1, c2);
    if c2.cur == c1.cur != c.cur { ReadyStays(c1, c2, c1.cur); }
  }

  lemma SmoothCore(c: Core, c': Core, idle: Task)
    requires CoreOk(c, idle) && Smooth(c, c')
    ensures CoreOk(c', idle) && forall t :: EventKept(c, c', t)
  {
    hide Wakes, Shaped, Home, EventHome, Timed, NextOk;
    WakesShaped(c, c');
    WakesKeepDelays(c, c');
    DelaysKeptTimed(c, c', c.tick + 1);
    ReadyStays(c, c', idle);
    WakesKeepEvents(c, c');
    if c.suspended == 0 {
      forall t ensures EventHome(c'.ls, t) != On(Pending) { assert EventKept(c, c', t); }
    }
    WakesSameTasks(c, c');
  }

  lemma WakesSameTasks(c: Core, c': Core)
    requires Wakes(c, c')
    ensures c'.prio == c.prio && c'.tasks == c.tasks && c'.notify.Keys == c.notify.Keys && c'.value.Keys == c.value.Keys
    ensures c'.ls.val == c.ls.val
  {}

  // Only fields that no list operation reads change.
  lemma SmoothSelf(c: Core, c': Core)
    requires Shaped(c)
    requires c' == c.(queues := c'.queues, yieldPending := c'.yieldPending, notify := c'.notify, value := c'.value)
    requires c'.notify.Keys == c.notify.Keys && c'.value.Keys == c.value.Keys
    requires forall t :: AwaitsNotify(c', t) ==> AwaitsNotify(c, t)
    ensures Smooth(c, c') && Shaped(c')
  {
    hide Wakes, Shaped;
    SameButYield(c, c');
  }

  lemma SwitchSmooth(c: Core, t: Task)
    requires Shaped(c) && OnReady(Home(c.ls, t))
    ensures Smooth(c, SwitchContext(c)) && SwitchContext(c).queues == c.queues && SwitchContext(c).notify == c.notify
    ensures forall ex :: HighOk(SwitchContext(c), ex)
  {
    hide Wakes, Shaped, Home, ListOf, IsEmpty, AdvanceIn;
    SwitchContextFacts(c);
    SwitchSettles(c, t);
  }

  // A task made ready in c that could be roused in c0, with its lists the same.
  lemma MakeReadySmooth(c0: Core, c: Core, t: Task)
    requires Shaped(c) && t in c.prio && EventHome(c.ls, t).Nowhere? && CanRouse(c0, t) && Smooth(c0, c)
    requires c.ls == c0.ls && c.cur == c0.cur
    ensures Smooth(c0, MakeReady(c, t)) && MakeReady(c, t).queues == c.queues && MakeReady(c, t).notify == c.notify
    ensures OnReady(Home(MakeReady(c, t).ls, t)) && Prio(MakeReady(c, t), t) == Prio(c, t)
    ensures Shaped(MakeReady(c, t)) && MakeReady(c, t).cur == c.cur && MakeReady(c, t).prio == c.prio
    ensures MakeReady(c, t).yieldPending == c.yieldPending
    ensures forall u :: u != t ==> Home(MakeReady(c, t).ls, u) == Home(c.ls, u)
  {
    hide Wakes, Home, EventHome, MakeReady, TaskOk, Sound;
    MakeReadyWakes(c, t);
    MakeReadyFrame(c, t);
    InPrio(c, t);
    MakeReadyFacts(c, t);
    WakesShaped(c, MakeReady(c, t));
    WakesTrans(c0, c, MakeReady(c, t));
  }

  lemma YieldToSmooth(c0: Core, c: Core, t: Task)
    requires Shaped(c) && t in c.prio && EventHome(c.ls, t).Nowhere? && CanRouse(c0, t) && Smooth(c0, c)
    requires c.ls == c0.ls && c.cur == c0.cur
    ensures var c' := YieldTo(MakeReady(c, t), t); Smooth(c0, c') && c'.queues == c.queues && c'.notify == c.notify
    ensures HighOk(c) ==> HighOk(YieldTo(MakeReady(c, t), t))
  {
    hide Smooth, Shaped, Home, EventHome, MakeReady, SwitchContext, HighOk, CanRouse;
    MakeReadySmooth(c0, c, t);
    var c1 := MakeReady(c, t);
    if Prio(c1, c1.cur) < Prio(c1, t) {
      SwitchSmooth(c1, t);
      SmoothTrans(c0, c1, SwitchContext(c1));
    }
    if HighOk(c) { YieldToHigh(c, t); }
  }

  lemma WakeOneSmooth(c: Core, l: ListId)
    requires Shaped(c) && l.Wait?
    ensures var c' := WakeOne(c, l).0;
            Smooth(c, c') && c'.queues == c.queues && c'.notify == c.notify && Shaped(c') && c'.cur == c.cur
    ensures forall ex :: HighOk(c, ex) ==> HighOk(WakeOne(c, l).0, ex)
  {
    hide Wakes, Sound, TaskOk, RemoveFromEventList, IsEmpty, Home, HighOk;
    WakeOneWakes(c, l);
    WakesShaped(c, WakeOne(c, l).0);
    if !IsEmpty(c.ls, l) {
      RemoveFromEventListFrame(c, l);
      RemoveFromEventListFacts(c, l);
      forall ex | HighOk(c, ex) ensures HighOk(WakeOne(c, l).0, ex) { RemoveFromEventListHigh(c, l, ex); }
    }
  }

  // The waking half of a send or receive by a task: wake one waiter, and yield if due.
  lemma WakeAndYieldSmooth(c: Core, l: ListId, t: Task)
    requires Shaped(c) && l.Wait? && OnReady(Home(c.ls, t))
    ensures var c' := YieldIf(WakeOne(c, l)); Smooth(c, c') && c'.queues == c.queues && c'.notify == c.notify
    ensures HighOk(c) ==> HighOk(YieldIf(WakeOne(c, l)))
  {
    hide Smooth, Shaped, Home, WakeOne, SwitchContext, HighOk;
    WakeOneSmooth(c, l);
    var c1 := WakeOne(c, l).0;
    WakeOneWakes(c, l);
    ReadyStays(c, c1, t);
    SwitchSmooth(c1, t);
    SmoothTrans(c, c1, SwitchContext(c1));
    if HighOk(c) { YieldIfHigh(c, l, t); }
  }

  lemma {:induction false} WakeManySmooth(c: Core, l: ListId, n: nat)
    requires Shaped(c) && l.Wait?
    ensures var c' := WakeMany(c, l, n);
            Smooth(c, c') && c'.queues == c.queues && c'.notify == c.notify && c'.cur == c.cur
    decreases n
  {
    hide Smooth, Sound, TaskOk, RemoveFromEventList, IsEmpty;
    if n == 0 || IsEmpty(c.ls, l) {
      SmoothSelf(c, c);
    } else {
      var r := RemoveFromEventList(c, l);
      var c1 := r.0.(yieldPending := r.0.yieldPending || r.1);
      WakeOneSmooth(c, l);
      SmoothSelf(r.0, c1);
      SmoothTrans(c, r.0, c1);
      WakeManySmooth(c1, l, n - 1);
      SmoothTrans(c, c1, WakeMany(c1, l, n - 1));
    }
  }

  lemma HighSame(c: Core, c': Core)
    requires c'.ls == c.ls && c'.prio == c.prio && c'.cur == c.cur && c'.yieldPending == c.yieldPending
    ensures forall ex :: HighOk(c', ex) == HighOk(c, ex)
  {
    hide Home;
    forall ex ensures HighOk(c', ex) == HighOk(c, ex) {}
  }

  lemma SetQueueSmooth(c: Core, q: QueueId, d: Queue)
    requires Shaped(c)
    ensures Smooth(c, SetQueue(c, q, d)) && Shaped(SetQueue(c, q, d))
    ensures forall ex :: HighOk(SetQueue(c, q, d), ex) == HighOk(c, ex)
    ensures forall l :: IsEmpty(SetQueue(c, q, d).ls, l) == IsEmpty(c.ls, l)
  {
    hide Smooth, Shaped, HighOk;
    SmoothSelf(c, SetQueue(c, q, d));
    HighSame(c, SetQueue(c, q, d));
  }

  // The queue record after a successful attempt.
  function AfterAttempt(d: Queue, op: Op): Queue
    requires CanGo(d, op)
  {
    match op
    case OpReceive => d.(count := d.count - 1)
    case OpPeek => d
    case OpSend(pos) => d.(count := CountAfterCopy(d, pos))
  }

  lemma AttemptSmooth(c: Core, q: QueueId, op: Op, t: Task)
    requires Shaped(c) && q in c.queues && CanGo(QueueOf(c, q), op) && OnReady(Home(c.ls, t))
    ensures var c' := Attempt(c, q, op);
            Smooth(c, c') && c'.queues == c.queues[q := AfterAttempt(c.queues[q], op)] && c'.notify == c.notify
    ensures HighOk(c) ==> HighOk(Attempt(c, q, op))
  {
    hide Smooth, Shaped, Home, WakeOne, YieldIf, HighOk;
    var c1 := if op.OpPeek? then c else SetQueue(c, q, AfterAttempt(c.queues[q], op));
    if op.OpPeek? { SmoothSelf(c, c); } else { SetQueueSmooth(c, q, AfterAttempt(c.queues[q], op)); }
    WakeAndYieldSmooth(c1, ServedList(q, op), t);
    SmoothTrans(c, c1, Attempt(c, q, op));
  }

  // What an interrupt makes of a queue record that it changes to d.
  function AfterIsr(c: Core, d: Queue, s: Side): Queue {
    if LockOf(d, s) != UNLOCKED && LockOf(d, s) < c.tasks then SetLock(d, s, LockOf(d, s) + 1) else d
  }

  lemma WakeOrCountSmooth(c: Core, q: QueueId, d: Queue, s: Side)
    requires Shaped(c)
    ensures var c' := WakeOrCount(SetQueue(c, q, d), q, s);
            Smooth(c, c') && c'.queues == c.queues[q := AfterIsr(c, d, s)] && c'.notify == c.notify && c'.cur == c.cur
    ensures forall ex :: HighOk(c, ex) ==> HighOk(WakeOrCount(SetQueue(c, q, d), q, s), ex)
  {
    hide Smooth, Shaped, Home, WakeOne, HighOk;
    var c1 := SetQueue(c, q, d);
    SetQueueSmooth(c, q, d);
    if LockOf(d, s) == UNLOCKED {
      WakeOneSmooth(c1, Wait(q, s));
      SmoothTrans(c, c1, WakeOne(c1, Wait(q, s)).0);
    } else {
      SetQueueSmooth(c1, q, AfterIsr(c, d, s));
      SmoothTrans(c, c1, SetQueue(c1, q, AfterIsr(c, d, s)));
    }
  }

  lemma UnlockSmooth(c: Core, q: QueueId, s: Side)
    requires Shaped(c) && q in c.queues
    ensures var c' := UnlockSide(c, q, s);
            Smooth(c, c') && c'.queues == c.queues[q := SetLock(c.queues[q], s, UNLOCKED)] && c'.notify == c.notify
            && c'.cur == c.cur
    ensures HighOk(c) ==> HighOk(UnlockSide(c, q, s))
  {
    hide Wakes, Sound, TaskOk, Home, WakeMany, HighOk;
    var n := LockOf(QueueOf(c, q), s);
    var c1 := WakeMany(c, Wait(q, s), if n > 0 then n else 0);
    WakeManySmooth(c, Wait(q, s), if n > 0 then n else 0);
    WakesShaped(c, c1);
    SetQueueSmooth(c1, q, SetLock(QueueOf(c1, q), s, UNLOCKED));
    SmoothTrans(c, c1, UnlockSide(c, q, s));
    if HighOk(c) { WakeManyHigh(c, Wait(q, s), if n > 0 then n else 0); }
  }

  lemma ResetSmooth(c: Core, q: QueueId, t: Task)
    requires Shaped(c) && q in c.queues && OnReady(Home(c.ls, t))
    ensures var c' := Reset(c, q);
            && Smooth(c, c') && c'.notify == c.notify
            && c'.queues == c.queues[q := c.queues[q].(count := 0, rxLock := UNLOCKED, txLock := UNLOCKED)]
    ensures HighOk(c) ==> HighOk(Reset(c, q))
  {
    hide Smooth, Shaped, Home, WakeOne, YieldIf, HighOk;
    var d := c.queues[q].(count := 0, rxLock := UNLOCKED, txLock := UNLOCKED);
    SetQueueSmooth(c, q, d);
    WakeAndYieldSmooth(SetQueue(c, q, d), Wait(q, Side.Send), t);
    SmoothTrans(c, SetQueue(c, q, d), Reset(c, q));
  }

  /* ----- notifications and resumption ----- */

  lemma Received1Smooth(c: Core, t: Task, a: NotifyAction)
    requires Shaped(c)
    ensures var c' := Received1(c, t, a);
            Smooth(c, c') && Shaped(c') && c'.queues == c.queues && c'.ls == c.ls && c'.cur == c.cur
            && c'.prio == c.prio
    ensures t in c.prio ==> !AwaitsNotify(Received1(c, t, a), t)
    ensures forall ex :: HighOk(Received1(c, t, a), ex) == HighOk(c, ex)
  {
    hide Wakes, Sound, TaskOk, HighOk, Home;
    SmoothSelf(c, Received1(c, t, a));
    HighSame(c, Received1(c, t, a));
  }

  lemma NotifySmooth(c: Core, t: Task, a: NotifyAction)
    requires Shaped(c) && t in c.prio && (AwaitsNotify(c, t) ==> EventHome(c.ls, t).Nowhere?)
    ensures Smooth(c, Notify(c, t, a)) && Notify(c, t, a).queues == c.queues
    ensures HighOk(c) ==> HighOk(Notify(c, t, a))
  {
    hide Smooth, Shaped, Home, EventHome, MakeReady, YieldTo, HighOk, Received1;
    var c1 := Received1(c, t, a);
    Received1Smooth(c, t, a);
    if AwaitsNotify(c, t) {
      YieldToSmooth(c, c1, t);
    }
  }

  lemma NotifyFromISRSmooth(c: Core, t: Task, a: NotifyAction)
    requires Shaped(c) && t in c.prio && (AwaitsNotify(c, t) ==> EventHome(c.ls, t).Nowhere?)
    ensures Smooth(c, NotifyFromISR(c, t, a)) && NotifyFromISR(c, t, a).queues == c.queues
    ensures NotifyFromISR(c, t, a).cur == c.cur
    ensures forall ex :: HighOk(c, ex) ==> HighOk(NotifyFromISR(c, t, a), ex)
  {
    hide Smooth, Shaped, Home, EventHome, MakeReady, HighOk, Received1, AddEnd;
    var c1 := Received1(c, t, a);
    Received1Smooth(c, t, a);
    if AwaitsNotify(c, t) {
      var c2 := if c.suspended == 0 then MakeReady(c1, t) else c1.(ls := AddEnd(c1.ls, Pending, EventItem(t)));
      var c' := NotifyFromISR(c, t, a);
      Received1Same(c, t, a);
      if c.suspended == 0 {
        MakeReadySmooth(c, c1, t);
      } else {
        PendNotified(c, c1, t);
      }
      SmoothYield(c, c2, c');
      NotifiedHigh(c, c2, c', t);
    }
  }

  lemma Received1Same(c: Core, t: Task, a: NotifyAction)
    ensures var c' := Received1(c, t, a);
            SameClock(c, c') && c'.tasks == c.tasks && c'.top == c.top && c'.yieldPending == c.yieldPending
    ensures var c' := Received1(c, t, a); c'.notify.Keys == c.notify.Keys && c'.value.Keys == c.value.Keys
    ensures forall u :: AwaitsNotify(Received1(c, t, a), u) ==> AwaitsNotify(c, u)
  {}

  lemma PendNotified(c: Core, c1: Core, t: Task)
    requires Shaped(c) && t in c.prio && c1.ls == c.ls && EventHome(c.ls, t).Nowhere? && c.suspended > 0
    requires c1.prio == c.prio && c1.cur == c.cur && SameClock(c, c1) && c1.tasks == c.tasks && c1.top == c.top
    requires c1.notify.Keys == c.notify.Keys && c1.value.Keys == c.value.Keys
    requires AwaitsNotify(c, t) && !AwaitsNotify(c1, t) && forall u :: AwaitsNotify(c1, u) ==> AwaitsNotify(c, u)
    ensures var c2 := c1.(ls := AddEnd(c1.ls, Pending, EventItem(t)));
            Smooth(c, c2) && forall u :: Home(c2.ls, u) == Home(c.ls, u)
  {
    hide Wakes, Shaped, TaskOk, AddEnd, ListOf, Home, EventHome, Precedes, Valid;
    InPrio(c, t);
    ShapedSound(c);
    EventAt(c.ls, t);
    AddEndFacts(c.ls, Pending, EventItem(t));
    WakesPended(c, c1.(ls := AddEnd(c1.ls, Pending, EventItem(t))), t);
  }

  lemma SmoothYield(c: Core, c2: Core, c': Core)
    requires Shaped(c) && Smooth(c, c2) && c' == c2.(yieldPending := c'.yieldPending)
    ensures Smooth(c, c')
  {
    hide Wakes, Shaped;
    WakesShaped(c, c2);
    SmoothSelf(c2, c');
    SmoothTrans(c, c2, c');
  }

  lemma NotifiedHigh(c: Core, c2: Core, c': Core, t: Task)
    requires c2.prio == c.prio && c2.cur == c.cur && (c2.yieldPending <==> c.yieldPending)
    requires forall u :: u != t ==> Home(c2.ls, u) == Home(c.ls, u)
    requires c' == if Prio(c, t) > Prio(c, c.cur) then c2.(yieldPending := true) else c2
    ensures forall ex :: HighOk(c, ex) ==> HighOk(c', ex)
  {
    hide Home;
    forall ex | HighOk(c, ex) ensures HighOk(c', ex) {}
  }

  lemma ResumeTaskSmooth(c: Core, t: Task)
    requires Shaped(c) && t in c.prio
    ensures Smooth(c, ResumeTask(c, t)) && ResumeTask(c, t).queues == c.queues && ResumeTask(c, t).notify == c.notify
    ensures HighOk(c) ==> HighOk(ResumeTask(c, t))
  {
    hide Smooth, Shaped, Home, MakeReady, YieldTo, HighOk;
    SmoothSelf(c, c);
    if t != c.cur && IsSuspended(c, t) { YieldToSmooth(c, c, t); }
  }

  /** vTaskResume makes a task ready that vTaskSuspend has suspended, and no other. */
  lemma ResumeTaskReadies(c: Core, t: Task)
    requires Shaped(c) && t in c.prio
    ensures if t != c.cur && IsSuspended(c, t) then OnReady(Home(ResumeTask(c, t).ls, t)) else ResumeTask(c, t) == c
  {
    hide Wakes, Sound, TaskOk, Home, EventHome, MakeReady, SwitchContext;
    if t != c.cur && IsSuspended(c, t) {
      SmoothSelf(c, c);
      var c1 := MakeReady(c, t);
      MakeReadySmooth(c, c, t);
      SwitchContextFacts(c1);
    }
  }

  lemma ResumeFromISRSmooth(c: Core, t: Task)
    requires Shaped(c) && t in c.prio
    ensures var c' := ResumeFromISR(c, t);
            Smooth(c, c') && c'.queues == c.queues && c'.notify == c.notify && c'.cur == c.cur
    ensures forall ex :: HighOk(c, ex) ==> HighOk(ResumeFromISR(c, t), ex)
  {
    hide Smooth, Shaped, Home, EventHome, MakeReady, HighOk, AddEnd;
    SmoothSelf(c, c);
    if IsSuspended(c, t) {
      var c2 := if c.suspended == 0 then MakeReady(c, t) else c.(ls := AddEnd(c.ls, Pending, EventItem(t)));
      if c.suspended == 0 {
        MakeReadySmooth(c, c, t);
        SmoothYield(c, c2, ResumeFromISR(c, t));
        NotifiedHigh(c, c2, ResumeFromISR(c, t), t);
      } else {
        PendResumed(c, t);
        HomesHigh(c, c2);
      }
    }
  }

  lemma PendResumed(c: Core, t: Task)
    requires Shaped(c) && t in c.prio && IsSuspended(c, t) && c.suspended > 0
    ensures var c2 := c.(ls := AddEnd(c.ls, Pending, EventItem(t)));
            Smooth(c, c2) && EventHome(c2.ls, t) == On(Pending) && forall u :: Home(c2.ls, u) == Home(c.ls, u)
  {
    hide Wakes, Shaped, TaskOk, AddEnd, ListOf, Home, EventHome, Precedes, Valid;
    InPrio(c, t);
    ShapedSound(c);
    EventAt(c.ls, t);
    AddEndFacts(c.ls, Pending, EventItem(t));
    WakesPended(c, c.(ls := AddEnd(c.ls, Pending, EventItem(t))), t);
  }

  lemma HomesHigh(c: Core, c': Core)
    requires c'.prio == c.prio && c'.cur == c.cur && c'.yieldPending == c.yieldPending
    requires forall u :: Home(c'.ls, u) == Home(c.ls, u)
    ensures forall ex :: HighOk(c, ex) ==> HighOk(c', ex)
  {
    hide Home;
    forall ex | HighOk(c, ex) ensures HighOk(c', ex) {}
  }

  /** xTaskResumeFromISR makes a suspended task ready, or while the scheduler is suspended sends
      it to the pending ready list, and does nothing to any other. */
  lemma ResumeFromISRReadies(c: Core, t: Task)
    requires Shaped(c) && t in c.prio
    ensures var c' := ResumeFromISR(c, t);
            if !IsSuspended(c, t) then c' == c
            else if c.suspended == 0 then
              OnReady(Home(c'.ls, t)) && (c'.yieldPending <==> c.yieldPending || Prio(c, t) > Prio(c, c.cur))
            else EventHome(c'.ls, t) == On(Pending) && Home(c'.ls, t) == On(Suspended)
  {
    hide Wakes, Sound, TaskOk, Home, EventHome, MakeReady, AddEnd;
    if IsSuspended(c, t) {
      if c.suspended == 0 {
        SmoothSelf(c, c);
        MakeReadySmooth(c, c, t);
        MakeReadyFrame(c, t);
      } else {
        PendResumed(c, t);
      }
    }
  }

  /* ----- time ----- */

  /** A tick interrupt, with the switch its handler makes when asked to. */
  lemma TickCore(c: Core, idle: Task)
    requires CoreOk(c, idle)
    ensures var r := IncrementTick(c);
            var c' := if r.1 then SwitchContext(r.0) else r.0;
            && CoreOk(c', idle) && Switched(c, c') && (forall t :: EventKept(c, c', t))
            && c'.suspended == c.suspended && c'.queues == c.queues && c'.prio == c.prio && c'.tasks == c.tasks
            && (OnReady(Home(c.ls, c.cur)) ==> OnReady(Home(c'.ls, c.cur)))
            && (c'.cur != c.cur ==> HighOk(c'))
    ensures forall ex :: HighOk(c, ex) ==> var r := IncrementTick(c);
            HighOk(if r.1 then SwitchContext(r.0) else r.0, ex)
  {
    hide Wakes, Shaped, Home, EventHome, Clocked, IncrementTick, SwitchContext, NonePending;
    ShapedSound(c);
    var r := IncrementTick(c);
    IncrementTickWakes(c);
    IncrementTickFrame(c);
    WakesShaped(c, r.0);
    WakesKeepEvents(c, r.0);
    ReadyStays(c, r.0, idle);
    TickCoreTime(c, idle);
    forall ex | HighOk(c, ex) ensures r.1 || HighOk(r.0, ex) { TickHigh(c, ex); }
    if r.1 {
      SwitchSmooth(r.0, idle);
      SmoothCore(r.0, SwitchContext(r.0), idle);
      WakesTrans(c, r.0, SwitchContext(r.0));
      WakesKeepEvents(c, SwitchContext(r.0));
      WakesSameTasks(c, SwitchContext(r.0));
      if OnReady(Home(c.ls, c.cur)) { ReadyStays(c, SwitchContext(r.0), c.cur); }
    } else if OnReady(Home(c.ls, c.cur)) {
      ReadyStays(c, r.0, c.cur);
    }
  }

  lemma TickCoreTime(c: Core, idle: Task)
    requires CoreOk(c, idle)
    ensures Clocked(IncrementTick(c).0) && (c.suspended == 0 ==> NonePending(IncrementTick(c).0.ls))
  {
    hide Shaped, Home, EventHome, Clocked, IncrementTick, Deadline;
    ShapedSound(c);
    IncrementTickFrame(c);
    if c.suspended == 0 { TickExact(c); } else { YieldKeepsTime(c, IncrementTick(c).0); }
  }

  /** xTaskResumeAll. */
  lemma ResumeAllCore(c: Core, idle: Task)
    requires CoreOk(c, idle) && c.suspended > 0
    ensures var (c', yielded) := ResumeAll(c);
            && CoreOk(c', idle) && Switched(c, c') && (forall t :: EventKept(c, c', t))
            && c'.suspended == c.suspended - 1 && c'.queues == c.queues && c'.prio == c.prio && c'.tasks == c.tasks
            && c'.notify == c.notify
            && (yielded ==> c.suspended == 1 && OnReady(Home(c'.ls, c'.cur)))
            && (!yielded ==> c'.cur == c.cur)
            && (OnReady(Home(c.ls, c.cur)) ==> OnReady(Home(c'.ls, c.cur)))
    ensures HighOk(c) ==> HighOk(ResumeAll(c).0)
  {
    hide Wakes, Shaped, Home, EventHome, Clocked, Unsuspend, SwitchContext, NonePending, HighOk;
    ShapedSound(c);
    var c1 := c.(suspended := c.suspended - 1);
    ResumeAllWakes(c);
    WakesKeepEvents(c, ResumeAll(c).0);
    WakesShaped(c, ResumeAll(c).0);
    ReadyStays(c, ResumeAll(c).0, idle);
    if OnReady(Home(c.ls, c.cur)) { ReadyStays(c, ResumeAll(c).0, c.cur); }
    SameButYield(c, c1);
    YieldKeepsTime(c, c1);
    if HighOk(c) { ResumeAllHigh(c, idle); }
    if c1.suspended == 0 { ResumeLastCore(c1, idle); }
  }

  lemma ResumeLastCore(c: Core, idle: Task)
    requires Shaped(c) && Clocked(c) && c.suspended == 0 && OnReady(Home(c.ls, idle))
    ensures var c2 := Unsuspend(c);
            var c' := if c2.yieldPending then SwitchContext(c2) else c2;
            && Clocked(c') && NonePending(c'.ls) && c'.suspended == 0 && c'.queues == c.queues && c'.prio == c.prio
            && c'.tasks == c.tasks && c'.notify == c.notify
            && (c2.yieldPending ==> OnReady(Home(c'.ls, c'.cur))) && (!c2.yieldPending ==> c'.cur == c.cur)
  {
    hide Wakes, Shaped, Home, EventHome, Clocked, Unsuspend, SwitchContext, HighOk, Deadline, Sound;
    ShapedSound(c);
    var c2 := Unsuspend(c);
    UnsuspendExact(c);
    UnsuspendWakes(c);
    ReadyStays(c, c2, idle);
    assert NonePending(c2.ls);
    if c2.yieldPending {
      SwitchSmooth(c2, idle);
      SwitchSettles(c2, idle);
      CoreFromParts(c2, idle);
      SmoothCore(c2, SwitchContext(c2), idle);
      WakesSameTasks(c2, SwitchContext(c2));
    }
  }

  lemma CoreFromParts(c: Core, idle: Task)
    requires Shaped(c) && Clocked(c) && (c.suspended == 0 ==> NonePending(c.ls)) && OnReady(Home(c.ls, idle))
    ensures CoreOk(c, idle)
  {
    InPrio(c, idle);
  }

  /* ----- blocking, suspending, creating, re-prioritising ----- */

  // Only task t's items have moved, and they are on no list they should not be on.
  ghost predicate OnlyMoved(c: Core, c': Core, t: Task) {
    && (forall u :: u != t ==> Home(c'.ls, u) == Home(c.ls, u) && EventHome(c'.ls, u) == EventHome(c.ls, u))
    && c'.notify == c.notify && c'.suspended == c.suspended && c'.queues == c.queues && c'.cur == c.cur
    && c'.yieldPending == c.yieldPending
  }

  lemma OnlyMovedHigh(c: Core, c': Core, t: Task)
    requires OnlyMoved(c, c', t) && !OnReady(Home(c'.ls, t)) && HighOk(c) && c'.prio == c.prio
    ensures HighOk(c')
  {
    hide Home, EventHome;
    forall u | OnReady(Home(c'.ls, u)) ensures OnReady(Home(c.ls, u)) {}
  }

  lemma DelayCore(c: Core, n: nat, forever: bool, idle: Task)
    requires CoreOk(c, idle) && 0 < n < TWO_32 && OnReady(Home(c.ls, c.cur)) && c.cur != idle
    ensures var c' := DelayCurrent(c, n, forever);
            && CoreOk(c', idle) && OnlyMoved(c, c', c.cur) && EventHome(c'.ls, c.cur) == EventHome(c.ls, c.cur)
            && c'.prio == c.prio && c'.tasks == c.tasks && !OnReady(Home(c'.ls, c.cur))
    ensures HighOk(c) ==> HighOk(DelayCurrent(c, n, forever))
  {
    hide Sound, TaskOk, Home, EventHome, Clocked, DelayCurrent, HighOk, Add32;
    ShapedSound(c);
    DelayCurrentShaped(c, n, forever);
    DelayCurrentFacts(c, n, forever);
    DelayCurrentFrame(c, n, forever);
    DelayCurrentTimed(c, n, forever);
    if HighOk(c) { OnlyMovedHigh(c, DelayCurrent(c, n, forever), c.cur); }
  }

  lemma PlaceCore(c: Core, l: ListId, n: nat, idle: Task)
    requires CoreOk(c, idle) && 0 < n < TWO_32 && OnReady(Home(c.ls, c.cur)) && c.cur != idle
    requires EventHome(c.ls, c.cur).Nowhere? && l.Wait?
    ensures var c' := PlaceOnEventList(c, l, n);
            && CoreOk(c', idle) && OnlyMoved(c, c', c.cur) && EventHome(c'.ls, c.cur) == On(l)
            && c'.prio == c.prio && c'.tasks == c.tasks
    ensures HighOk(c) ==> HighOk(PlaceOnEventList(c, l, n))
  {
    hide Sound, TaskOk, Home, EventHome, Clocked, DelayCurrent, AddSorted, HighOk;
    ShapedSound(c);
    PlaceOnEventListShaped(c, l, n);
    PlaceOnEventListTimed(c, l, n);
    DelayCurrentFrame(Enlist(c, l), n, true);
    if HighOk(c) { OnlyMovedHigh(c, PlaceOnEventList(c, l, n), c.cur); }
  }

  // No delayed task is touched, bar possibly a removal.
  lemma SameTimes(c: Core, c': Core)
    requires Clocked(c) && OrderKept(c.ls, c'.ls) && c'.tick == c.tick && c'.flip == c.flip
    requires c'.nextUnblock == c.nextUnblock
    requires forall t :: Delayed(c', t) ==> Home(c'.ls, t) == Home(c.ls, t)
    requires forall t :: Val(c'.ls, StateItem(t)) == Val(c.ls, StateItem(t))
    ensures Clocked(c')
  {
    hide Home, EventHome, Val, Timed, NextOk, Precedes;
    DelaysKeptTimed(c, c', c.tick + 1);
  }

  lemma SuspendCore(c: Core, t: Task, idle: Task)
    requires CoreOk(c, idle) && t in c.prio && t != idle
    ensures var c' := SuspendTask(c, t);
            && CoreOk(c', idle) && (forall u :: EventKept(c, c', u)) && c'.cur == c.cur && c'.suspended == c.suspended
            && c'.queues == c.queues && c'.prio == c.prio && c'.tasks == c.tasks
            && (forall u :: u != t ==> Home(c'.ls, u) == Home(c.ls, u))
            && EventHome(c'.ls, t).Nowhere? && !AwaitsNotify(c', t)
    ensures HighOk(c) ==> HighOk(SuspendTask(c, t))
  {
    hide Sound, TaskOk, Home, EventHome, Clocked, RemoveItem, AddEnd, HighOk, OrderKept;
    ShapedSound(c);
    InPrio(c, t);
    SuspendTaskShaped(c, t);
    SuspendTaskFacts(c, t);
    ValSame(c.ls, SuspendTask(c, t).ls);
    SameTimes(c, SuspendTask(c, t));
    if HighOk(c) { SuspendHigh(c, t); }
  }

  lemma SuspendHigh(c: Core, t: Task)
    requires Sound(c.ls) && Home(c.ls, t).On? && HighOk(c)
    ensures HighOk(SuspendTask(c, t))
  {
    hide Sound, Home, EventHome, RemoveItem, AddEnd, OrderKept;
    SuspendTaskFacts(c, t);
  }

  lemma ResetNextCore(c: Core, idle: Task)
    requires CoreOk(c, idle)
    ensures CoreOk(ResetNext(c), idle) && forall ex :: HighOk(ResetNext(c), ex) == HighOk(c, ex)
  {
    hide Sound, TaskOk, Home, EventHome, Timed, ResetNext, HighOk;
    ShapedSound(c);
    ResetNextShaped(c);
    ResetNextFrame(c);
    ResetNextFacts(c, c.tick + 1);
    HighSame(c, ResetNext(c));
  }

  lemma CreateCore(c: Core, t: Task, p: nat, idle: Task)
    requires CoreOk(c, idle) && t !in c.prio
    ensures var c' := CreateTask(c, t, p);
            && CoreOk(c', idle) && (forall u :: u != t ==> Home(c'.ls, u) == Home(c.ls, u))
            && (forall u :: EventHome(c'.ls, u) == EventHome(c.ls, u))
            && c'.prio.Keys == c.prio.Keys + {t} && c'.tasks == c.tasks + 1
            && c'.notify == c.notify[t := NotWaiting] && c'.suspended == c.suspended && c'.queues == c.queues
            && c'.cur == c.cur
    ensures HighOk(c) ==> HighOk(CreateTask(c, t, p), {t})
  {
    hide Sound, TaskOk, Home, EventHome, Clocked, AddEnd, OrderKept, SetVal;
    var c' := CreateTask(c, t, p);
    InPrio(c, t);
    CreateTaskShaped(c, t, p);
    CreateVal(c, t, p);
    SameTimes(c, c');
    if HighOk(c) && !c.yieldPending {
      forall u | OnReady(Home(c'.ls, u)) && u != t ensures Prio(c', u) <= Prio(c', c'.cur) {
        assert OnReady(Home(c.ls, u));
      }
    }
  }

  lemma CreateVal(c: Core, t: Task, p: nat)
    ensures forall u :: Val(CreateTask(c, t, p).ls, StateItem(u)) == Val(c.ls, StateItem(u))
  {}

  lemma PriorityCore(c: Core, t: Task, p: nat, idle: Task)
    requires CoreOk(c, idle) && t in c.prio
    ensures var c' := PriorityChange(c, t, p).0;
            && CoreOk(c', idle) && (forall u :: EventHome(c'.ls, u) == EventHome(c.ls, u))
            && (forall u :: OnReady(Home(c'.ls, u)) == OnReady(Home(c.ls, u)))
            && (forall u :: Home(c'.ls, u) == On(Suspended) <==> Home(c.ls, u) == On(Suspended))
            && c'.prio.Keys == c.prio.Keys && c'.tasks == c.tasks && c'.notify == c.notify
            && c'.suspended == c.suspended
            && c'.queues == c.queues && c'.cur == c.cur
  {
    hide Sound, TaskOk, Home, EventHome, Clocked, OrderKept, PriorityChange;
    var c' := PriorityChange(c, t, p).0;
    PriorityChangeShaped(c, t, p);
    PriorityChangeSame(c, t, p);
    SameTimes(c, c');
  }

  lemma PriorityChangeSame(c: Core, t: Task, p: nat)
    ensures var c' := PriorityChange(c, t, p).0;
            && SameClock(c, c') && c'.tasks == c.tasks && c'.notify == c.notify && c'.queues == c.queues
            && c'.cur == c.cur
            && (t in c.prio ==> c'.prio.Keys == c.prio.Keys)
            && forall u :: Val(c'.ls, StateItem(u)) == Val(c.ls, StateItem(u))
  {
    hide MakeReady;
    var to := if p >= MAX_PRIORITIES then MAX_PRIORITIES - 1 else p;
    var c1 := c.(prio := c.prio[t := to], ls := SetVal(c.ls, EventItem(t), MAX_PRIORITIES - to));
    MakeReadyFrame(c1, t);
    MakeReadyVal(c1, t);
  }

  lemma MakeReadyVal(c: Core, t: Task)
    ensures MakeReady(c, t).ls.val == c.ls.val
  {}

  lemma PrioritySetCore(c: Core, t: Task, p: nat, idle: Task)
    requires CoreOk(c, idle) && t in c.prio
    ensures var c' := PrioritySet(c, t, p);
            && CoreOk(c', idle) && Switched(c, c') && (forall u :: EventKept(c, c', u))
            && (OnReady(Home(c.ls, c.cur)) ==> OnReady(Home(c'.ls, c.cur)))
            && c'.prio.Keys == c.prio.Keys && c'.tasks == c.tasks && c'.suspended == c.suspended
            && c'.queues == c.queues
            && c'.notify == c.notify
    ensures HighOk(c) ==> HighOk(PrioritySet(c, t, p))
  {
    hide Shaped, Wakes, Home, EventHome, Clocked, PriorityChange, SwitchContext, HighOk;
    PriorityCore(c, t, p, idle);
    var (c1, y) := PriorityChange(c, t, p);
    if y {
      SwitchSmooth(c1, idle);
      SmoothCore(c1, SwitchContext(c1), idle);
      WakesSameTasks(c1, SwitchContext(c1));
      if OnReady(Home(c.ls, c.cur)) { ReadyStays(c1, SwitchContext(c1), c.cur); }
      forall u ensures EventKept(c, SwitchContext(c1), u) { assert EventKept(c1, SwitchContext(c1), u); }
    }
    if HighOk(c) { PrioritySetHigh(c, t, p, idle); }
  }
}

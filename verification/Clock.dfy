/** The 32-bit tick with its two swapped delay lists behaves like an unbounded clock:
    a task blocked for n ticks at time T is made ready by exactly the tick that takes the
    clock to T + n, through any number of wraps. */
module Clock {
  import opened Config
  import opened Lists
  import opened Kernel
  import opened Shape

  // xItemValue of a task's state item: its wake time while it is delayed.
  function WakeTime(c: Core, t: Task): nat { Val(c.ls, StateItem(t)) }

  // The unbounded clock that xTickCount and xNumOfOverflows stand for.
  function Now(c: Core): nat { TWO_32 * c.overflows + c.tick }

  ghost predicate Delayed(c: Core, t: Task) { Home(c.ls, t).On? && Home(c.ls, t).l.Delay? }

  // The unbounded time at which a delayed task is to wake.
  ghost function Deadline(c: Core, t: Task): nat {
    TWO_32 * (if Home(c.ls, t) == On(Current(c)) then c.overflows else c.overflows + 1) + WakeTime(c, t)
  }

  ghost predicate TimeOrdered(s: Store, l: ListId) {
    forall t, u :: Precedes(s, l, StateItem(t), StateItem(u)) ==> Val(s, StateItem(t)) <= Val(s, StateItem(u))
  }

  /* Wake times on the current list are at least lo and 32-bit, those on the overflow list
     below the tick, and both lists are in wake order. */
  ghost predicate Timed(c: Core, lo: nat) {
    && c.tick < TWO_32
    && (forall t :: Home(c.ls, t) == On(Current(c)) ==> lo <= WakeTime(c, t) < TWO_32)
    && (forall t :: Home(c.ls, t) == On(Overflow(c)) ==> WakeTime(c, t) < c.tick)
    && TimeOrdered(c.ls, Delay(false)) && TimeOrdered(c.ls, Delay(true))
  }

  // xNextTaskUnblockTime is never above a wake time on the current list.
  ghost predicate NextOk(c: Core) {
    c.nextUnblock < TWO_32 && forall t :: Home(c.ls, t) == On(Current(c)) ==> c.nextUnblock <= WakeTime(c, t)
  }

  ghost predicate Clocked(c: Core) { Timed(c, c.tick + 1) && NextOk(c) }

  /* No task has newly become delayed, and delayed tasks keep their wake times. */
  ghost predicate DelaysKept(c: Core, c': Core) {
    && c'.tick == c.tick && c'.flip == c.flip
    && (forall b, i, j :: Precedes(c'.ls, Delay(b), i, j) ==> Precedes(c.ls, Delay(b), i, j))
    && (forall t :: Delayed(c', t) ==> Home(c'.ls, t) == Home(c.ls, t))
    && (forall t :: WakeTime(c', t) == WakeTime(c, t))
  }

  lemma DelaysKeptTimed(c: Core, c': Core, lo: nat)
    requires DelaysKept(c, c') && Timed(c, lo)
    ensures Timed(c', lo)
    ensures NextOk(c) && c'.nextUnblock == c.nextUnblock ==> NextOk(c')
  {
    hide Home, Val, Precedes;
    forall b, t, u | Precedes(c'.ls, Delay(b), StateItem(t), StateItem(u)) ensures WakeTime(c', t) <= WakeTime(c', u) {
      assert WakeTime(c, t) <= WakeTime(c, u);
    }
    forall t | Home(c'.ls, t) == On(Current(c)) || Home(c'.ls, t) == On(Overflow(c))
      ensures Home(c'.ls, t) == Home(c.ls, t)
    {
      assert Delayed(c', t);
    }
  }

  lemma WakesKeepDelays(c: Core, c': Core)
    requires Wakes(c, c') && c'.tick == c.tick && c'.flip == c.flip
    ensures DelaysKept(c, c')
  {
    hide Sound, Precedes, Home, EventHome;
    forall t | Delayed(c', t) ensures Home(c'.ls, t) == Home(c.ls, t) { assert KeptOrWoken(c, c', t); }
  }

  // The head of a delayed list has its earliest wake time.
  lemma HeadWakesFirst(c: Core)
    requires Sound(c.ls) && !IsEmpty(c.ls, Current(c)) && TimeOrdered(c.ls, Current(c))
    ensures var h := Head(c.ls, Current(c)); h.StateItem? && Home(c.ls, h.t) == On(Current(c))
    ensures forall t :: Home(c.ls, t) == On(Current(c)) ==> Val(c.ls, Head(c.ls, Current(c))) <= WakeTime(c, t)
  {
    StateHead(c.ls, Current(c));
    HeadFacts(c.ls, Current(c));
    hide Precedes, Head, IsEmpty, Val;
    forall t | Home(c.ls, t) == On(Current(c)) ensures Val(c.ls, Head(c.ls, Current(c))) <= WakeTime(c, t) {
      StateAt(c.ls, t);
    }
  }

  lemma EmptyCurrent(c: Core)
    requires Sound(c.ls) && IsEmpty(c.ls, Current(c))
    ensures forall t :: Home(c.ls, t) != On(Current(c))
  {
    HeadFacts(c.ls, Current(c));
  }

  // prvResetNextTaskUnblockTime
  lemma ResetNextFacts(c: Core, lo: nat)
    requires Sound(c.ls) && Timed(c, lo)
    ensures NextOk(ResetNext(c)) && Timed(ResetNext(c), lo)
  {
    hide Sound, IsEmpty, Head, Home, Precedes;
    if IsEmpty(c.ls, Current(c)) { EmptyCurrent(c); } else { HeadWakesFirst(c); }
  }

  /* ----- the unblocking loop ----- */

  // What a tick does: exactly the tasks due by it are made ready, off any event list.
  ghost predicate WakesDue(c: Core, c': Core) {
    forall t :: (if Home(c.ls, t) == On(Current(c)) && WakeTime(c, t) <= c.tick
                 then Home(c'.ls, t) == On(Ready(Prio(c, t))) && EventHome(c'.ls, t).Nowhere?
                 else Home(c'.ls, t) == Home(c.ls, t) && EventHome(c'.ls, t) == EventHome(c.ls, t))
  }

  lemma WakeHeadFrame(c: Core)
    requires !IsEmpty(c.ls, Current(c))
    ensures SameTasks(c, WakeHead(c)) && WakeHead(c).yieldPending == c.yieldPending
  {
    hide RemoveItem, AddEnd, IsEmpty, Head;
  }

  lemma {:induction false} WakeExpiredExact(c: Core)
    requires Shaped(c) && Timed(c, c.tick) && c.suspended == 0
    ensures var c' := WakeExpired(c).0;
            && WakesDue(c, c') && Timed(c', c.tick + 1) && NextOk(c')
            && SameTasks(c, c') && c'.yieldPending == c.yieldPending && c'.ls.val == c.ls.val
    decreases |ListOf(c.ls, Current(c)).items|
  {
    hide Sound, TaskOk, IsEmpty, Head, Home, EventHome, Precedes, WakeHead, Wakes, Val;
    if IsEmpty(c.ls, Current(c)) {
      EmptyCurrent(c);
    } else {
      HeadWakesFirst(c);
      var h := Head(c.ls, Current(c));
      if c.tick >= Val(c.ls, h) {
        var c1 := WakeHead(c);
        WakeHeadFacts(c);
        WakeHeadWakes(c);
        WakeHeadFrame(c);
        WakesShaped(c, c1);
        WakeHeadTimed(c);
        WakeExpiredExact(c1);
        WakesDueStep(c, c1, WakeExpired(c1).0, h.t);
      }
    }
  }

  lemma WakeHeadTimed(c: Core)
    requires Shaped(c) && Timed(c, c.tick) && !IsEmpty(c.ls, Current(c)) && c.suspended == 0
    ensures Timed(WakeHead(c), c.tick)
  {
    hide Sound, TaskOk, IsEmpty, Head, Timed, WakeHead, Wakes, OrderKept, Home, EventHome;
    WakeHeadWakes(c);
    WakeHeadFrame(c);
    WakesKeepDelays(c, WakeHead(c));
    DelaysKeptTimed(c, WakeHead(c), c.tick);
  }

  lemma WakesDueStep(c: Core, c1: Core, c2: Core, t: Task)
    requires Moves(c.ls, c1.ls, t, On(Ready(Prio(c, t))), Nowhere) && SameTasks(c, c1)
    requires Home(c.ls, t) == On(Current(c)) && WakeTime(c, t) <= c.tick
    requires WakesDue(c1, c2)
    ensures WakesDue(c, c2)
  {
    hide Home, EventHome;
    assert forall u :: WakeTime(c1, u) == WakeTime(c, u);
    assert forall u :: Prio(c1, u) == Prio(c, u);
    assert Current(c1) == Current(c);
  }

  /* ----- the tick ----- */

  // The configASSERT of taskSWITCH_DELAYED_LISTS: when the tick wraps, no task is on the
  // current delayed list.
  lemma EmptyAtWrap(c: Core)
    requires Clocked(c) && c.tick == TWO_32 - 1
    ensures forall t :: Home(c.ls, t) != On(Current(c))
  {}

  lemma Advance32Facts(c: Core)
    requires Sound(c.ls) && Clocked(c)
    ensures var c1 := Advance32(c);
            && Timed(c1, c1.tick) && NextOk(c1) && Now(c1) == Now(c) + 1
            && (forall t :: Delayed(c, t) ==> Delayed(c1, t) && Deadline(c1, t) == Deadline(c, t))
            && c1.ls == c.ls && c1.prio == c.prio && c1.cur == c.cur && c1.suspended == c.suspended
            && c1.pended == c.pended && c1.yieldPending == c.yieldPending
  {
    hide Sound, Precedes, Head, IsEmpty, Home;
    var c1 := c.(tick := Add32(c.tick, 1));
    if c1.tick == 0 {
      EmptyAtWrap(c);
      var c2 := c1.(flip := !c.flip, overflows := c.overflows + 1);
      assert Timed(c2, 0);
      ResetNextFacts(c2, 0);
    }
  }

  /** One xTaskIncrementTick: the clock advances by one; a delayed task whose deadline is the
      new time, and no other, is made ready and taken off any event list; every other task's
      items stay where they are, with the same deadline. */
  lemma TickExact(c: Core)
    requires Shaped(c) && Clocked(c) && c.suspended == 0
    ensures var c' := IncrementTick(c).0;
            && Clocked(c') && Now(c') == Now(c) + 1
            && (forall t :: Delayed(c, t) ==> Deadline(c, t) > Now(c))
            && (forall t :: if Delayed(c, t) && Deadline(c, t) == Now(c')
                            then Home(c'.ls, t) == On(Ready(Prio(c, t))) && EventHome(c'.ls, t).Nowhere?
                            else Home(c'.ls, t) == Home(c.ls, t) && EventHome(c'.ls, t) == EventHome(c.ls, t) &&
                                 (Delayed(c, t) ==> Deadline(c', t) == Deadline(c, t)))
  {
    hide Sound, TaskOk, Home, EventHome, Precedes, WakeExpired, Advance32, TimeOrdered;
    var c1 := Advance32(c);
    Advance32Facts(c);
    Advance32Shaped(c);
    if c1.tick >= c1.nextUnblock {
      WakeExpiredExact(c1);
    }
    var c' := IncrementTick(c).0;
    assert WakesDue(c1, c');
    DeadlinesAtTick(c, c1, c');
  }

  lemma Advance32Shaped(c: Core)
    requires Shaped(c)
    ensures Shaped(Advance32(c))
  {
    hide Sound, Home, EventHome, IsEmpty, Head, Val;
    forall t ensures TaskOk(Advance32(c), t) { assert TaskOk(c, t); }
  }

  lemma DeadlinesAtTick(c: Core, c1: Core, c': Core)
    requires Clocked(c) && Timed(c1, c1.tick) && Timed(c', c1.tick + 1) && WakesDue(c1, c')
    requires Now(c1) == Now(c) + 1 && c1.ls == c.ls && c1.prio == c.prio
    requires forall t :: Delayed(c, t) ==> Delayed(c1, t) && Deadline(c1, t) == Deadline(c, t)
    requires c'.tick == c1.tick && c'.overflows == c1.overflows && c'.flip == c1.flip && c'.ls.val == c1.ls.val
    ensures forall t :: Delayed(c, t) ==> Deadline(c, t) > Now(c)
    ensures forall t :: if Delayed(c, t) && Deadline(c, t) == Now(c')
                        then Home(c'.ls, t) == On(Ready(Prio(c, t))) && EventHome(c'.ls, t).Nowhere?
                        else Home(c'.ls, t) == Home(c.ls, t) && EventHome(c'.ls, t) == EventHome(c.ls, t) &&
                             (Delayed(c, t) ==> Deadline(c', t) == Deadline(c, t))
  {
    hide Home, EventHome, TimeOrdered;
    assert forall t :: WakeTime(c1, t) == WakeTime(c', t) == WakeTime(c, t);
    forall t | Delayed(c, t) ensures Home(c.ls, t) == On(Current(c)) || Home(c.ls, t) == On(Overflow(c)) {}
    forall t | Delayed(c1, t) ensures Home(c1.ls, t) == On(Current(c1)) || Home(c1.ls, t) == On(Overflow(c1)) {}
  }

  lemma IncrementTickFrame(c: Core)
    requires Sound(c.ls)
    ensures var c' := IncrementTick(c).0;
            && c'.prio == c.prio && c'.notify == c.notify && c'.value == c.value && c'.tasks == c.tasks
            && c'.cur == c.cur
            && c'.suspended == c.suspended && c'.queues == c.queues && c'.yieldPending == c.yieldPending
            && (c.suspended == 0 ==> c'.pended == c.pended)
            && (c.suspended > 0 ==> c'.ls == c.ls && c'.pended == Add32(c.pended, 1) && Now(c') == Now(c)
                                    && c'.top == c.top &&
                                    c'.tick == c.tick && c'.flip == c.flip && c'.nextUnblock == c.nextUnblock
                                    && !IncrementTick(c).1)
  {
    hide Sound, IsEmpty, Head, Val, WakeExpired;
    if c.suspended == 0 { WakeExpiredFrame(Advance32(c)); }
  }

  lemma {:induction false} WakeExpiredFrame(c: Core)
    requires Sound(c.ls)
    ensures SameTasks(c, WakeExpired(c).0) && WakeExpired(c).0.yieldPending == c.yieldPending
    decreases |ListOf(c.ls, Current(c)).items|
  {
    hide Sound, IsEmpty, Head, Val, WakeHead;
    if !IsEmpty(c.ls, Current(c)) && c.tick >= Val(c.ls, Head(c.ls, Current(c))) {
      WakeHeadFacts(c);
      WakeHeadFrame(c);
      WakeExpiredFrame(WakeHead(c));
    }
  }

  /* What n ticks in a row do: exactly the tasks whose deadline has come by then are made
     ready, off any event list; the others keep their places and deadlines. */
  ghost predicate TicksPass(c: Core, c': Core) {
    forall t :: if Delayed(c, t) && Deadline(c, t) <= Now(c')
                then Home(c'.ls, t) == On(Ready(Prio(c, t))) && EventHome(c'.ls, t).Nowhere?
                else Home(c'.ls, t) == Home(c.ls, t) && EventHome(c'.ls, t) == EventHome(c.ls, t) &&
                     (Delayed(c, t) ==> Deadline(c', t) == Deadline(c, t))
  }

  lemma TicksPassTrans(c: Core, c1: Core, c2: Core)
    requires TicksPass(c, c1) && TicksPass(c1, c2) && Now(c) <= Now(c1) <= Now(c2) && c1.prio == c.prio
    ensures TicksPass(c, c2)
  {
    hide Home, EventHome, Deadline, Now;
  }

  lemma {:induction false} ReplayExact(c: Core, n: nat)
    requires Shaped(c) && Clocked(c) && c.suspended == 0
    ensures var c' := Replay(c, n);
            && Shaped(c') && Clocked(c') && Now(c') == Now(c) + n && TicksPass(c, c')
            && c'.prio == c.prio && c'.notify == c.notify && c'.value == c.value && c'.tasks == c.tasks
            && c'.cur == c.cur
            && c'.suspended == 0 && c'.queues == c.queues && c'.pended == c.pended
    decreases n
  {
    hide Sound, TaskOk, Clocked, IncrementTick, Wakes, TicksPass, Deadline;
    if n == 0 {
      TicksPassNone(c);
    } else {
      var k := IncrementTick(c);
      var c1 := k.0.(yieldPending := k.0.yieldPending || k.1);
      IncrementTickWakes(c);
      WakesShaped(c, k.0);
      SameButYield(k.0, c1);
      IncrementTickFrame(c);
      TickPasses(c);
      YieldKeepsTime(k.0, c1);
      YieldKeepsPass(c, k.0, c1);
      ReplayExact(c1, n - 1);
      TicksPassTrans(c, c1, Replay(c1, n - 1));
    }
  }

  lemma TicksPassNone(c: Core)
    requires Clocked(c)
    ensures TicksPass(c, c)
  {
    hide Home, EventHome, Val, TimeOrdered;
    forall t | Delayed(c, t) ensures Deadline(c, t) > Now(c) {
      assert Home(c.ls, t) == On(Current(c)) || Home(c.ls, t) == On(Overflow(c));
    }
  }

  lemma TickPasses(c: Core)
    requires Shaped(c) && Clocked(c) && c.suspended == 0
    ensures var c' := IncrementTick(c).0; Clocked(c') && Now(c') == Now(c) + 1 && TicksPass(c, c')
  {
    hide Shaped, Clocked, Home, EventHome, Deadline, IncrementTick, Now;
    TickExact(c);
  }

  // Time depends on the lists, the tick and the unblock time only.
  lemma YieldKeepsTime(c: Core, c': Core)
    requires c'.ls == c.ls && c'.tick == c.tick && c'.flip == c.flip && c'.nextUnblock == c.nextUnblock
    ensures Clocked(c') == Clocked(c)
  {
    hide Home, Val, TimeOrdered;
    assert forall t :: WakeTime(c', t) == WakeTime(c, t);
  }

  lemma YieldKeepsPass(c: Core, c1: Core, c2: Core)
    requires TicksPass(c, c1) && c2.ls == c1.ls && c2.tick == c1.tick && c2.flip == c1.flip
    requires c2.overflows == c1.overflows
    ensures TicksPass(c, c2) && Now(c2) == Now(c1)
  {
    hide Home, EventHome, Val;
    assert forall t :: Deadline(c2, t) == Deadline(c1, t);
  }

  /* ----- xTaskResumeAll ----- */

  // What draining the pending ready list does.
  ghost predicate Drained(c: Core, c': Core) {
    forall t :: if EventHome(c.ls, t) == On(Pending)
                then Home(c'.ls, t) == On(Ready(Prio(c, t))) && EventHome(c'.ls, t).Nowhere?
                else Home(c'.ls, t) == Home(c.ls, t) && EventHome(c'.ls, t) == EventHome(c.ls, t)
  }

  lemma {:induction false} DrainExact(c: Core)
    requires Sound(c.ls)
    ensures Drained(c, Drain(c)) && SameTasks(c, Drain(c)) && Drain(c).nextUnblock == c.nextUnblock
    ensures c.yieldPending ==> Drain(c).yieldPending
    decreases |ListOf(c.ls, Pending).items|
  {
    hide Sound, IsEmpty, Head, DrainHead, Home, EventHome;
    if IsEmpty(c.ls, Pending) {
      NobodyPending(c);
    } else {
      DrainHeadFacts(c);
      DrainHeadFrame(c);
      DrainExact(DrainHead(c));
    }
  }

  lemma NobodyPending(c: Core)
    requires Sound(c.ls) && IsEmpty(c.ls, Pending)
    ensures forall t :: EventHome(c.ls, t) != On(Pending)
  {
    HeadFacts(c.ls, Pending);
  }

  lemma DrainTimed(c: Core)
    requires Shaped(c) && Clocked(c) && c.suspended == 0
    ensures Clocked(Drain(c)) && Clocked(ResetNext(Drain(c))) && Shaped(Drain(c)) && Now(Drain(c)) == Now(c)
    ensures forall t :: Delayed(Drain(c), t) ==> Delayed(c, t) && Deadline(Drain(c), t) == Deadline(c, t)
  {
    hide Sound, TaskOk, Drain, Wakes, Home, EventHome, Timed, NextOk, ResetNext, OrderKept;
    var c1 := Drain(c);
    DrainWakes(c);
    DrainExact(c);
    WakesShaped(c, c1);
    WakesKeepDelays(c, c1);
    DelaysKeptTimed(c, c1, c.tick + 1);
    ResetNextFrame(c1);
    ResetNextFacts(c1, c.tick + 1);
  }

  lemma ResetNextFrame(c: Core)
    ensures SameTasks(c, ResetNext(c)) && ResetNext(c).ls == c.ls && ResetNext(c).top == c.top
    ensures ResetNext(c).yieldPending == c.yieldPending
  {}

  /* The tasks on the pending ready list, and those whose deadline has come by the new time,
     are made ready, off any event list; all others keep their places and deadlines. */
  ghost predicate Resumes(c: Core, c': Core) {
    forall t :: if EventHome(c.ls, t) == On(Pending) || (Delayed(c, t) && Deadline(c, t) <= Now(c'))
                then Home(c'.ls, t) == On(Ready(Prio(c, t))) && EventHome(c'.ls, t).Nowhere?
                else Home(c'.ls, t) == Home(c.ls, t) && EventHome(c'.ls, t) == EventHome(c.ls, t) &&
                     (Delayed(c, t) ==> Deadline(c', t) == Deadline(c, t))
  }

  /** xTaskResumeAll's work when the last suspension ends: the tasks on the pending ready list
      become ready; then the deferred ticks pass, exactly as if they were occurring now. */
  lemma UnsuspendExact(c: Core)
    requires Shaped(c) && Clocked(c) && c.suspended == 0
    ensures var c' := Unsuspend(c);
            && Shaped(c') && Clocked(c') && c'.pended == 0 && Now(c') == Now(c) + c.pended
            && Resumes(c, c')
            && c'.prio == c.prio && c'.notify == c.notify && c'.value == c.value && c'.tasks == c.tasks
            && c'.cur == c.cur
            && c'.suspended == 0 && c'.queues == c.queues
  {
    hide Sound, TaskOk, Clocked, Home, EventHome, Drain, Replay, ResetNext, IsEmpty, Wakes, WakeTime;
    var c1 := Drain(c);
    var c2 := if IsEmpty(c.ls, Pending) then c1 else ResetNext(c1);
    DrainExact(c);
    DrainTimed(c);
    ResetNextFrame(c1);
    ResetNextShaped(c1);
    WakeTimeSame(c1, c2);
    if c2.pended > 0 {
      ReplayExact(c2, c2.pended);
      var c3 := Replay(c2, c2.pended);
      var c' := c3.(pended := 0);
      SameButYield(c3, c');
      YieldKeepsTime(c3, c');
      YieldKeepsPass(c2, c3, c');
      DrainThenTicks(c, c2, c');
    } else {
      TicksPassNone(c2);
      DrainThenTicks(c, c2, c2);
    }
  }

  lemma WakeTimeSame(c: Core, c': Core)
    requires c'.ls == c.ls
    ensures forall t :: WakeTime(c', t) == WakeTime(c, t)
  {}

  lemma ResetNextShaped(c: Core)
    requires Shaped(c)
    ensures Shaped(ResetNext(c))
  {
    hide Home, EventHome, Sound, IsEmpty, Head, Val;
    forall t ensures TaskOk(ResetNext(c), t) { assert TaskOk(c, t); }
  }

  lemma DrainThenTicks(c: Core, c2: Core, c': Core)
    requires Drained(c, c2) && TicksPass(c2, c') && c2.prio == c.prio && Now(c2) <= Now(c')
    requires forall t :: Delayed(c2, t) ==> Delayed(c, t) && Deadline(c2, t) == Deadline(c, t)
    ensures Resumes(c, c')
  {
    hide Home, EventHome, Deadline, Now;
  }

  /* ----- blocking ----- */

  lemma OrderedIfTimed(s: Store, l: ListId)
    requires Valid(s) && TimeOrdered(s, l) && forall u :: EventHome(s, u) != On(l)
    ensures Ordered(s, l)
  {
    forall i, j | Precedes(s, l, i, j) ensures Val(s, i) <= Val(s, j) {
      PrecedesOn(s, l, i, j);
      assert EventHome(s, i.t) != On(l) && EventHome(s, j.t) != On(l);
    }
  }

  lemma PrecedesOn(s: Store, l: ListId, i: Item, j: Item)
    requires Valid(s) && Precedes(s, l, i, j)
    ensures At(s, i) == On(l) && At(s, j) == On(l)
  {
    assert i in ListOf(s, l).items && j in ListOf(s, l).items;
    assert In(s, i, l) && In(s, j, l);
  }

  lemma AddSortedTimeOrder(s: Store, l: ListId, t: Task, l': ListId)
    requires Valid(s) && Home(s, t).Nowhere? && TimeOrdered(s, l) && TimeOrdered(s, l')
    requires forall u :: EventHome(s, u) != On(l)
    requires forall u :: Home(s, u) == On(l) ==> Val(s, StateItem(u)) <= MAX_DELAY
    ensures TimeOrdered(AddSorted(s, l, StateItem(t)), l')
  {
    hide Precedes, Valid, ListOf, AddSorted, Val, Home, EventHome;
    var s' := AddSorted(s, l, StateItem(t));
    StateAt(s, t);
    AddSortedFacts(s, l, StateItem(t));
    AddSortedVal(s, l, StateItem(t));
    OrderedIfTimed(s, l);
    Fit(s, l);
    forall u, v | Precedes(s', l', StateItem(u), StateItem(v)) ensures Val(s', StateItem(u)) <= Val(s', StateItem(v)) {
      if l' == l {
        AddSortedOrder(s, l, StateItem(t), StateItem(u), StateItem(v));
      } else {
        OrderSame(s, s', l', StateItem(u), StateItem(v));
      }
    }
  }

  lemma AddSortedVal(s: Store, l: ListId, i: Item)
    ensures forall j :: Val(AddSorted(s, l, i), j) == Val(s, j)
  {}

  lemma Fit(s: Store, l: ListId)
    requires forall u :: Home(s, u) == On(l) ==> Val(s, StateItem(u)) <= MAX_DELAY
    requires forall u :: EventHome(s, u) != On(l)
    ensures ValuesFit(s, l)
  {
    forall i | At(s, i) == On(l) ensures Val(s, i) <= MAX_DELAY {
      assert EventHome(s, i.t) != On(l);
      assert i.StateItem? ==> At(s, i) == Home(s, i.t);
    }
  }

  // The running task off its ready list, its wake time set: the delayed lists are as before.
  lemma LiftedTimed(c: Core, s: Store, v: nat)
    requires Sound(c.ls) && Timed(c, c.tick + 1) && !Delayed(c, c.cur) && Lifted(c.ls, s, c.cur)
    ensures var s' := SetVal(s, StateItem(c.cur), v);
            && TimeOrdered(s', Delay(false)) && TimeOrdered(s', Delay(true))
            && (forall u, b :: EventHome(s', u) != On(Delay(b)))
            && (forall u, b :: Home(s', u) == On(Delay(b)) ==> Val(s', StateItem(u)) <= MAX_DELAY)
            && Valid(s') && Home(s', c.cur).Nowhere?
  {
    hide Valid, Precedes, Val, Home, EventHome;
    var s' := SetVal(s, StateItem(c.cur), v);
    SetValHomes(s, StateItem(c.cur), v);
    SetValVal(s, StateItem(c.cur), v);
    NotOnDelay(c, s);
    ValSame(c.ls, s);
    forall b, t, u | Precedes(s', Delay(b), StateItem(t), StateItem(u))
      ensures Val(s', StateItem(t)) <= Val(s', StateItem(u))
    {
      assert Precedes(s, Delay(b), StateItem(t), StateItem(u));
      assert Precedes(c.ls, Delay(b), StateItem(t), StateItem(u));
    }
    forall u, b | Home(s', u) == On(Delay(b)) ensures Val(s', StateItem(u)) <= MAX_DELAY {
      assert WakeTime(c, u) < TWO_32;
    }
    forall u, b ensures EventHome(s', u) != On(Delay(b)) { assert EventHomeOk(EventHome(c.ls, u)); }
  }

  lemma SetValVal(s: Store, i: Item, v: nat)
    ensures forall j :: Val(SetVal(s, i, v), j) == if j == i then v else Val(s, j)
  {}

  lemma ValSame(s: Store, s': Store)
    requires s'.val == s.val
    ensures forall j :: Val(s', j) == Val(s, j)
  {}

  // The running task, off its list, is not on a delayed list's order.
  lemma NotOnDelay(c: Core, s: Store)
    requires Valid(s) && Home(s, c.cur).Nowhere?
    ensures forall b, i :: !Precedes(s, Delay(b), StateItem(c.cur), i) && !Precedes(s, Delay(b), i, StateItem(c.cur))
  {
    hide Valid, Precedes, ListOf;
    forall b, i ensures !Precedes(s, Delay(b), StateItem(c.cur), i) && !Precedes(s, Delay(b), i, StateItem(c.cur)) {
      StateAt(s, c.cur);
      if Precedes(s, Delay(b), StateItem(c.cur), i) { PrecedesOn(s, Delay(b), StateItem(c.cur), i); }
      if Precedes(s, Delay(b), i, StateItem(c.cur)) { PrecedesOn(s, Delay(b), i, StateItem(c.cur)); }
    }
  }

  lemma DelayCurrentOrder(c: Core, n: nat, forever: bool)
    requires Sound(c.ls) && Home(c.ls, c.cur).On? && Timed(c, c.tick + 1) && !Delayed(c, c.cur)
    ensures TimeOrdered(DelayCurrent(c, n, forever).ls, Delay(false))
    ensures TimeOrdered(DelayCurrent(c, n, forever).ls, Delay(true))
  {
    hide Sound, Valid, Precedes, RemoveItem, AddEnd, AddSorted, ListOf, Home, EventHome, Add32, SetVal, Timed,
         TimeOrdered;
    UnlinkFacts(c.ls, c.cur);
    var s1 := RemoveItem(c.ls, StateItem(c.cur));
    if n == MAX_DELAY && forever {
      RelinkEnd(s1, c.ls, c.cur, Suspended);
      OrderKeptTimed(c, AddEnd(s1, Suspended, StateItem(c.cur)));
    } else {
      LiftedTimed(c, s1, Add32(c.tick, n));
      var s2, l := SetVal(s1, StateItem(c.cur), Add32(c.tick, n)), DelayTarget(c, n, forever);
      AddSortedTimeOrder(s2, l, c.cur, Delay(false));
      AddSortedTimeOrder(s2, l, c.cur, Delay(true));
    }
  }

  lemma OrderKeptTimed(c: Core, s: Store)
    requires Timed(c, c.tick + 1) && OrderKept(c.ls, s) && s.val == c.ls.val
    ensures TimeOrdered(s, Delay(false)) && TimeOrdered(s, Delay(true))
  {
    hide Precedes;
  }

  /** prvAddCurrentTaskToDelayedList: blocking for n ticks sets the deadline n ticks from now,
      and leaves the deadlines of all other delayed tasks alone. */
  lemma DelayCurrentTimed(c: Core, n: nat, forever: bool)
    requires Sound(c.ls) && Home(c.ls, c.cur).On? && Clocked(c) && 0 < n < TWO_32 && !Delayed(c, c.cur)
    ensures var c' := DelayCurrent(c, n, forever);
            && Clocked(c') && Now(c') == Now(c)
            && (Delayed(c', c.cur) <==> !(n == MAX_DELAY && forever))
            && (Delayed(c', c.cur) ==> Deadline(c', c.cur) == Now(c) + n)
            && (forall t :: t != c.cur ==> Home(c'.ls, t) == Home(c.ls, t)
                                           && (Delayed(c, t) ==> Deadline(c', t) == Deadline(c, t)))
  {
    hide Sound, TaskOk, Home, EventHome, DelayCurrent, TimeOrdered, Val;
    DelayCurrentFacts(c, n, forever);
    DelayCurrentFrame(c, n, forever);
    DelayCurrentOrder(c, n, forever);
    var c', l := DelayCurrent(c, n, forever), DelayTarget(c, n, forever);
    WakeTimes(c, c', c.cur, Add32(c.tick, n), l.Suspended?);
    forall t | t != c.cur && Delayed(c, t) ensures Deadline(c', t) == Deadline(c, t) {}
  }

  lemma WakeTimes(c: Core, c': Core, t: Task, v: nat, same: bool)
    requires c'.ls.val == if same then c.ls.val else c.ls.val[StateItem(t) := v]
    ensures forall u :: WakeTime(c', u) == if u == t && !same then v else WakeTime(c, u)
  {}

  /** vTaskPlaceOnEventList, likewise. */
  lemma PlaceOnEventListTimed(c: Core, l: ListId, n: nat)
    requires Sound(c.ls) && Home(c.ls, c.cur).On? && EventHome(c.ls, c.cur).Nowhere? && l.Wait?
    requires Clocked(c) && 0 < n < TWO_32 && !Delayed(c, c.cur)
    ensures var c' := PlaceOnEventList(c, l, n);
            && Clocked(c') && Now(c') == Now(c)
            && (Delayed(c', c.cur) <==> n != MAX_DELAY)
            && (Delayed(c', c.cur) ==> Deadline(c', c.cur) == Now(c) + n)
            && (forall t :: t != c.cur ==> Home(c'.ls, t) == Home(c.ls, t)
                                           && (Delayed(c, t) ==> Deadline(c', t) == Deadline(c, t)))
  {
    hide Sound, Home, EventHome, DelayCurrent, Timed, NextOk, AddSorted;
    var c1 := Enlist(c, l);
    EnlistFacts(c, l);
    EnlistOrder(c, l);
    DelaysKeptTimed(c, c1, c.tick + 1);
    DelayCurrentTimed(c1, n, true);
  }

  // Joining a queue's event list disturbs no delayed list.
  lemma EnlistOrder(c: Core, l: ListId)
    requires Sound(c.ls) && EventHome(c.ls, c.cur).Nowhere? && l.Wait?
    ensures forall b, i, j :: Precedes(Enlist(c, l).ls, Delay(b), i, j) ==> Precedes(c.ls, Delay(b), i, j)
    ensures forall t :: WakeTime(Enlist(c, l), t) == WakeTime(c, t)
    ensures Home(c.ls, c.cur) == Home(Enlist(c, l).ls, c.cur)
  {
    hide Valid, Precedes, ListOf, EventHome;
    EventAt(c.ls, c.cur);
    AddSortedFacts(c.ls, l, EventItem(c.cur));
    AddSortedVal(c.ls, l, EventItem(c.cur));
    forall b, i, j | Precedes(Enlist(c, l).ls, Delay(b), i, j) ensures Precedes(c.ls, Delay(b), i, j) {
      OrderSame(c.ls, Enlist(c, l).ls, Delay(b), i, j);
    }
  }
}

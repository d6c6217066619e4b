/** No operation leaves a ready task above the running one without a yield pending. */
module Priority {
  import opened Config
  import opened Rings
  import opened Lists
  import opened Kernel
  import opened Queues
  import opened Shape
  import opened Clock

  // No ready task, those in ex aside, has a higher priority than the running task.
  ghost predicate NoHigher(c: Core, ex: set<Task> := {}) {
    forall t :: OnReady(Home(c.ls, t)) && t !in ex ==> Prio(c, t) <= Prio(c, c.cur)
  }

  ghost predicate HighOk(c: Core, ex: set<Task> := {}) { c.yieldPending || NoHigher(c, ex) }

  // The running task is ready and the best there is.
  ghost predicate Settled(c: Core) { OnReady(Home(c.ls, c.cur)) && NoHigher(c) }

  lemma HighKept(c: Core, c': Core, ex: set<Task> := {})
    requires HighOk(c, ex) && c'.prio == c.prio && c'.cur == c.cur && (c.yieldPending ==> c'.yieldPending)
    requires forall t :: OnReady(Home(c'.ls, t)) ==> OnReady(Home(c.ls, t)) || Prio(c, t) <= Prio(c, c.cur)
                                                     || c'.yieldPending
    ensures HighOk(c', ex)
  {
    hide Home;
  }

  /** vTaskSwitchContext: unless the scheduler is suspended, in which case the yield stays
      pending, the new running task is ready and no ready task is above it. */
  lemma SwitchSettles(c: Core, t: Task)
    requires Shaped(c) && OnReady(Home(c.ls, t))
    ensures var c' := SwitchContext(c);
            if c.suspended == 0 then Settled(c') && !c'.yieldPending else c' == c.(yieldPending := true)
  {
    hide Sound, ListOf, IsEmpty, Home, EventHome, AdvanceIn;
    if c.suspended == 0 {
      SomeReadyList(c, t);
      SwitchRealFacts(c);
      assert TaskOk(c, SwitchContext(c).cur);
    }
  }

  lemma SomeReadyList(c: Core, t: Task)
    requires Shaped(c) && OnReady(Home(c.ls, t))
    ensures !IsEmpty(c.ls, Ready(HighestReady(c.ls, c.top)))
  {
    assert TaskOk(c, t);
    HighestReadyFacts(c.ls, c.top);
    HeadFacts(c.ls, Ready(Prio(c, t)));
  }

  lemma SwitchHigh(c: Core, t: Task)
    requires Shaped(c) && OnReady(Home(c.ls, t))
    ensures HighOk(SwitchContext(c))
  {
    hide Shaped, Home, SwitchContext;
    SwitchSettles(c, t);
  }

  lemma MakeReadyHigh(c: Core, t: Task)
    requires Shaped(c) && t in c.prio && HighOk(c) && Prio(c, t) <= Prio(c, c.cur)
    ensures HighOk(MakeReady(c, t))
  {
    hide Sound, TaskOk, Home, EventHome, MakeReady;
    InPrio(c, t);
    MakeReadyFacts(c, t);
    MakeReadyFrame(c, t);
    HighKept(c, MakeReady(c, t));
  }

  lemma YieldToHigh(c: Core, t: Task)
    requires Shaped(c) && t in c.prio && HighOk(c) && EventHome(c.ls, t).Nowhere?
    ensures HighOk(YieldTo(MakeReady(c, t), t))
  {
    hide Sound, TaskOk, Home, EventHome, MakeReady, SwitchContext, Wakes;
    var c1 := MakeReady(c, t);
    InPrio(c, t);
    MakeReadyFacts(c, t);
    MakeReadyFrame(c, t);
    MakeReadyWakes(c, t);
    WakesShaped(c, c1);
    if Prio(c1, c1.cur) < Prio(c1, t) { SwitchHigh(c1, t); } else { MakeReadyHigh(c, t); }
  }

  lemma RemoveFromEventListHigh(c: Core, l: ListId, ex: set<Task> := {})
    requires Sound(c.ls) && HighOk(c, ex) && !IsEmpty(c.ls, l) && l.Wait?
    ensures HighOk(RemoveFromEventList(c, l).0, ex)
  {
    hide Sound, Home, EventHome, RemoveFromEventList, IsEmpty, Head;
    RemoveFromEventListFacts(c, l);
    RemoveFromEventListFrame(c, l);
    HighKept(c, RemoveFromEventList(c, l).0, ex);
  }

  // A yield taken only if it is due: the ready task t shows there is something to switch to.
  lemma YieldIfHigh(c: Core, l: ListId, t: Task)
    requires Shaped(c) && HighOk(c) && l.Wait? && OnReady(Home(c.ls, t))
    ensures HighOk(YieldIf(WakeOne(c, l))) && HighOk(WakeOne(c, l).0)
  {
    hide Shaped, Home, RemoveFromEventList, SwitchContext, IsEmpty, Wakes, HighOk;
    var r := WakeOne(c, l);
    if !IsEmpty(c.ls, l) {
      ShapedSound(c);
      RemoveFromEventListHigh(c, l);
    }
    WakeOneWakes(c, l);
    WakesShaped(c, r.0);
    ReadyStays(c, r.0, t);
    SwitchHigh(r.0, t);
  }

  lemma ShapedSound(c: Core)
    requires Shaped(c)
    ensures Sound(c.ls)
  {}

  // Waking never makes a ready task unready.
  lemma ReadyStays(c: Core, c': Core, t: Task)
    requires Wakes(c, c') && OnReady(Home(c.ls, t))
    ensures OnReady(Home(c'.ls, t))
  {
    hide Sound, OrderKept;
    assert KeptOrWoken(c, c', t);
  }

  lemma {:induction false} WakeManyHigh(c: Core, l: ListId, n: nat)
    requires Shaped(c) && HighOk(c) && l.Wait?
    ensures HighOk(WakeMany(c, l, n))
    decreases n
  {
    hide Shaped, RemoveFromEventList, IsEmpty, Wakes, Home;
    if n != 0 && !IsEmpty(c.ls, l) {
      var r := RemoveFromEventList(c, l);
      var c1 := r.0.(yieldPending := r.0.yieldPending || r.1);
      ShapedSound(c);
      RemoveFromEventListHigh(c, l);
      RemoveFromEventListWakes(c, l);
      WakesShaped(c, r.0);
      SameYield(r.0, c1);
      WakeManyHigh(c1, l, n - 1);
    }
  }

  lemma SameYield(c: Core, c': Core)
    requires Shaped(c) && c' == c.(yieldPending := c'.yieldPending)
    ensures Shaped(c')
  {
    SameButYield(c, c');
  }

  /* ----- ticks and resumption ----- */

  lemma {:induction false} WakeExpiredHigh(c: Core, ex: set<Task>)
    requires Sound(c.ls) && NoHigher(c, ex)
    ensures WakeExpired(c).1 || NoHigher(WakeExpired(c).0, ex)
    decreases |ListOf(c.ls, Current(c)).items|
  {
    hide Sound, IsEmpty, Head, Home, EventHome, WakeHead, Val;
    if !IsEmpty(c.ls, Current(c)) && c.tick >= Val(c.ls, Head(c.ls, Current(c))) {
      WakeHeadFacts(c);
      WakeHeadFrame(c);
      if Prio(c, Head(c.ls, Current(c)).t) <= Prio(c, c.cur) { WakeExpiredHigh(WakeHead(c), ex); }
    }
  }

  /** xTaskIncrementTick asks for a switch whenever a task it readied, or one readied before
      with the yield pending, is above the running task. */
  lemma TickHigh(c: Core, ex: set<Task> := {})
    requires Sound(c.ls) && HighOk(c, ex)
    ensures c.suspended == 0 ==> IncrementTick(c).1 || NoHigher(IncrementTick(c).0, ex)
    ensures c.suspended > 0 ==> HighOk(IncrementTick(c).0, ex)
  {
    hide Sound, Home, IsEmpty, Head, Val, WakeExpired, ListOf;
    if c.suspended == 0 && !c.yieldPending {
      WakeExpiredHigh(Advance32(c), ex);
    }
  }

  lemma {:induction false} DrainHigh(c: Core)
    requires Sound(c.ls) && HighOk(c)
    ensures HighOk(Drain(c))
    decreases |ListOf(c.ls, Pending).items|
  {
    hide Sound, IsEmpty, Head, Home, EventHome, DrainHead;
    if !IsEmpty(c.ls, Pending) {
      DrainHeadFacts(c);
      DrainHeadFrame(c);
      HighKept(c, DrainHead(c));
      DrainHigh(DrainHead(c));
    }
  }

  lemma {:induction false} ReplayHigh(c: Core, n: nat)
    requires Sound(c.ls) && HighOk(c) && c.suspended == 0
    ensures HighOk(Replay(c, n))
    decreases n
  {
    hide Sound, Home, IncrementTick;
    if n > 0 {
      TickHigh(c);
      IncrementTickFrame(c);
      var k := IncrementTick(c);
      ReplayHigh(k.0.(yieldPending := k.0.yieldPending || k.1), n - 1);
    }
  }

  lemma UnsuspendHigh(c: Core)
    requires Sound(c.ls) && HighOk(c) && c.suspended == 0
    ensures HighOk(Unsuspend(c))
  {
    hide Sound, Home, Drain, Replay, IsEmpty, Head, Val, EventHome, Drained;
    DrainHigh(c);
    DrainExact(c);
    var c2 := if IsEmpty(c.ls, Pending) then Drain(c) else ResetNext(Drain(c));
    ReplayHigh(c2, c2.pended);
  }

  /** xTaskResumeAll leaves the running task the best there is, or a yield pending; when it
      reports that it has yielded, a switch has been made. */
  lemma ResumeAllHigh(c: Core, t: Task)
    requires Shaped(c) && HighOk(c) && c.suspended > 0 && OnReady(Home(c.ls, t))
    ensures HighOk(ResumeAll(c).0)
    ensures ResumeAll(c).1 ==> Settled(ResumeAll(c).0)
    ensures c.suspended == 1 && !ResumeAll(c).1 ==> NoHigher(ResumeAll(c).0)
  {
    hide Sound, TaskOk, Home, Unsuspend, SwitchContext, Wakes;
    var c1 := c.(suspended := c.suspended - 1);
    SameButYield(c, c1);
    if c1.suspended == 0 {
      UnsuspendHigh(c1);
      UnsuspendWakes(c1);
      ReadyStays(c1, Unsuspend(c1), t);
      UnsuspendRuns(c1);
      if Unsuspend(c1).yieldPending { SwitchSettles(Unsuspend(c1), t); }
    }
  }

  lemma UnsuspendRuns(c: Core)
    requires Sound(c.ls) && c.suspended == 0
    ensures Unsuspend(c).suspended == 0
  {
    hide Sound, Drain, Replay, IsEmpty, Head, Val, Home, EventHome, Drained;
    DrainExact(c);
    var c2 := if IsEmpty(c.ls, Pending) then Drain(c) else ResetNext(Drain(c));
    ReplayRuns(c2, c2.pended);
  }

  lemma {:induction false} ReplayRuns(c: Core, n: nat)
    requires Sound(c.ls)
    ensures Replay(c, n).suspended == c.suspended && Replay(c, n).cur == c.cur && Replay(c, n).prio == c.prio
    decreases n
  {
    hide Sound, IncrementTick;
    if n > 0 {
      IncrementTickFrame(c);
      var k := IncrementTick(c);
      ReplayRuns(k.0.(yieldPending := k.0.yieldPending || k.1), n - 1);
    }
  }

  /* ----- changing priorities ----- */

  lemma PriorityChangeFrame(c: Core, t: Task, p: nat)
    ensures var (c', y) := PriorityChange(c, t, p);
            && c'.cur == c.cur && c'.yieldPending == c.yieldPending && c'.suspended == c.suspended
            && (forall u :: u != t ==> Prio(c', u) == Prio(c, u))
            && (Prio(c', t) == if p >= MAX_PRIORITIES then MAX_PRIORITIES - 1 else p)
            && (y <==> if Prio(c', t) > Prio(c, t) then t != c.cur && Prio(c', t) > Prio(c, c.cur)
                       else Prio(c', t) < Prio(c, t) && t == c.cur)
  {
    hide MakeReady, SetVal;
    var to := if p >= MAX_PRIORITIES then MAX_PRIORITIES - 1 else p;
    MakeReadyFrame(c.(prio := c.prio[t := to], ls := SetVal(c.ls, EventItem(t), MAX_PRIORITIES - to)), t);
  }

  /** vTaskPrioritySet switches, or leaves a yield pending, whenever the change puts a ready
      task above the running one. */
  lemma PrioritySetHigh(c: Core, t: Task, p: nat, r: Task)
    requires Shaped(c) && t in c.prio && HighOk(c) && OnReady(Home(c.ls, r))
    ensures HighOk(PrioritySet(c, t, p))
  {
    hide Sound, TaskOk, Home, EventHome, PriorityChange, SwitchContext, OrderKept;
    PriorityChangeShaped(c, t, p);
    PriorityChangeFrame(c, t, p);
    var (c', y) := PriorityChange(c, t, p);
    if y {
      SwitchHigh(c', r);
    } else if !c.yieldPending {
      forall u | OnReady(Home(c'.ls, u)) ensures Prio(c', u) <= Prio(c', c'.cur) {
        assert OnReady(Home(c.ls, u));
      }
    }
  }

  lemma HighWeaken(c: Core, ex: set<Task>)
    requires HighOk(c)
    ensures HighOk(c, ex)
  {}

  /* ----- time slicing ----- */

  // k context switches in a row, as at the end of k time slices.
  function Switches(c: Core, k: nat): Core { if k == 0 then c else SwitchContext(Switches(c, k - 1)) }

  lemma OneSwitch(c: Core, p: nat)
    requires c.suspended == 0 && HighestReady(c.ls, c.top) == p && !IsEmpty(c.ls, Ready(p))
    ensures var (c', r) := (SwitchContext(c), Advance(ListOf(c.ls, Ready(p))));
            && ListOf(c'.ls, Ready(p)) == r && c'.cur == AtCursor(r).t && c'.suspended == 0
            && HighestReady(c'.ls, c'.top) == p && !IsEmpty(c'.ls, Ready(p))
  {}

  lemma {:induction false} SwitchesAdvance(c: Core, p: nat, k: nat)
    requires c.suspended == 0 && HighestReady(c.ls, c.top) == p && !IsEmpty(c.ls, Ready(p))
    ensures var c' := Switches(c, k);
            && ListOf(c'.ls, Ready(p)) == AdvanceN(ListOf(c.ls, Ready(p)), k) && c'.suspended == 0
            && HighestReady(c'.ls, c'.top) == p && !IsEmpty(c'.ls, Ready(p))
            && (k > 0 ==> AdvanceN(ListOf(c.ls, Ready(p)), k).idx > 0
                          && c'.cur == AtCursor(AdvanceN(ListOf(c.ls, Ready(p)), k)).t)
  {
    hide SwitchContext, ListOf, HighestReady;
    if k > 0 {
      SwitchesAdvance(c, p, k - 1);
      OneSwitch(Switches(c, k - 1), p);
    }
  }

  /** Round robin: with n tasks ready at the highest ready priority, n switches in a row run each
      of them once, in the order of the ready list's rotation, and bring the rotation back. */
  lemma RoundRobin(c: Core, k: nat)
    requires c.suspended == 0
    requires var l := Ready(HighestReady(c.ls, c.top)); !IsEmpty(c.ls, l) && 1 <= k <= |ListOf(c.ls, l).items|
    ensures var (l, c') := (Ready(HighestReady(c.ls, c.top)), Switches(c, k));
            && c'.cur == Rotation(ListOf(c.ls, l))[k - 1].t
            && (k == |ListOf(c.ls, l).items| ==> Rotation(ListOf(c'.ls, l)) == Rotation(ListOf(c.ls, l)))
  {
    hide ListOf, HighestReady, Rotation, Switches;
    var p := HighestReady(c.ls, c.top);
    SwitchesAdvance(c, p, k);
    AdvanceVisits(ListOf(c.ls, Ready(p)), k);
  }
}

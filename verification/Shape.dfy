/** Conservation of tasks: every kernel operation keeps every task's state item on exactly
    one list, of the right kind and priority, and its event item on at most one. */
module Shape {
  import opened Config
  import opened Rings
  import opened Lists
  import opened Kernel
  import opened Queues

  predicate OnReady(w: Where) { w.On? && w.l.Ready? }
  predicate OnWait(w: Where) { w.On? && w.l.Wait? }

  /* A task is created exactly if its state item is on a list; on a ready list it is the
     list of the task's priority, which uxTopReadyPriority does not fall below; and a task
     waiting on a queue is not ready. */
  ghost predicate TaskOk(c: Core, t: Task) {
    && (t in c.prio <==> Home(c.ls, t).On?)
    && Prio(c, t) < MAX_PRIORITIES
    && (OnReady(Home(c.ls, t)) ==> Home(c.ls, t).l.p == Prio(c, t) <= c.top && !OnWait(EventHome(c.ls, t)))
  }

  ghost predicate Shaped(c: Core) {
    && Sound(c.ls)
    && c.notify.Keys == c.prio.Keys == c.value.Keys && c.tasks == |c.prio| && c.cur in c.prio && c.top < MAX_PRIORITIES
    && forall t :: TaskOk(c, t)
  }

  // xPendingReadyList is empty.
  ghost predicate NonePending(s: Store) { forall t :: EventHome(s, t) != On(Pending) }

  // What may send a task's event item to the pending ready list: a wake-up from a queue's list,
  // a notification it awaits, or its resumption.
  ghost predicate Summoned(c: Core, c': Core, t: Task) {
    OnWait(EventHome(c.ls, t)) || (AwaitsNotify(c, t) && !AwaitsNotify(c', t)) || IsSuspended(c, t)
  }

  /* What waking tasks does to one task: its state item stays or goes to its ready list; its
     event item stays, leaves its list, or goes to the pending ready list, and that only while
     the scheduler is suspended; there it stays as long as the scheduler is. */
  ghost predicate KeptOrWoken(c: Core, c': Core, t: Task) {
    var (home, home', event, event') := (Home(c.ls, t), Home(c'.ls, t), EventHome(c.ls, t), EventHome(c'.ls, t));
    && (home' == home
        || (home.On? && home' == On(Ready(Prio(c, t))) && !OnWait(event')
            && (event' == On(Pending) ==> AwaitsNotify(c, t))))
    && (event' == event || event'.Nowhere?
        || (c.suspended > 0 && home.On? && event' == On(Pending) && Summoned(c, c', t)))
    && (c'.suspended > 0 && event.On? && !OnWait(event) ==> event' == event)
    && (AwaitsNotify(c', t) ==> AwaitsNotify(c, t))
    && (OnReady(Home(c'.ls, t)) ==> Prio(c, t) <= c'.top)
  }

  /* The operations that only wake tasks or switch between them. */
  ghost predicate Wakes(c: Core, c': Core) {
    && Sound(c'.ls) && OrderKept(c.ls, c'.ls) && c'.ls.val == c.ls.val
    && c'.prio == c.prio && c'.notify.Keys == c.notify.Keys && c'.value.Keys == c.value.Keys && c'.tasks == c.tasks
    && c'.cur in c.prio && c'.top < MAX_PRIORITIES && c'.suspended <= c.suspended
    && forall t :: KeptOrWoken(c, c', t)
  }

  lemma WakesShaped(c: Core, c': Core)
    requires Shaped(c) && Wakes(c, c')
    ensures Shaped(c')
  {
    hide Sound, OrderKept, Home, EventHome;
    forall t ensures TaskOk(c', t) { assert TaskOk(c, t) && KeptOrWoken(c, c', t); }
  }

  lemma WakesTrans(c: Core, c1: Core, c2: Core)
    requires Wakes(c, c1) && Wakes(c1, c2)
    ensures Wakes(c, c2)
  {
    hide Sound, Home, EventHome, Precedes;
    hide KeptOrWoken;
    forall t ensures KeptOrWoken(c, c2, t) { KeptTrans(c, c1, c2, t); }
  }

  lemma KeptTrans(c: Core, c1: Core, c2: Core, t: Task)
    requires KeptOrWoken(c, c1, t) && KeptOrWoken(c1, c2, t)
    requires c1.suspended <= c.suspended && c2.suspended <= c1.suspended && c1.prio == c.prio && c2.prio == c.prio
    ensures KeptOrWoken(c, c2, t)
  {
    hide Home, EventHome;
  }

  lemma WakesSelf(c: Core, c': Core)
    requires Shaped(c) && c'.ls == c.ls && c'.prio == c.prio && c'.notify.Keys == c.notify.Keys
    requires c'.value.Keys == c.value.Keys
    requires c'.tasks == c.tasks && c'.cur == c.cur && c'.top == c.top && c'.suspended <= c.suspended
    requires forall t :: AwaitsNotify(c', t) ==> AwaitsNotify(c, t)
    ensures Wakes(c, c')
  {
    hide Sound, Home, EventHome, Precedes;
    forall t ensures KeptOrWoken(c, c', t) { assert TaskOk(c, t); }
  }

  // One task made ready, and off any queue's list.
  lemma WakesOne(c: Core, c': Core, t: Task)
    requires Shaped(c) && t in c.prio && Sound(c'.ls) && OrderKept(c.ls, c'.ls)
    requires EventHome(c.ls, t).On? && !OnWait(EventHome(c.ls, t)) ==> c'.suspended == 0
    requires Moves(c.ls, c'.ls, t, On(Ready(Prio(c, t))), Nowhere)
    requires c'.prio == c.prio && c'.notify == c.notify && c'.value.Keys == c.value.Keys
    requires c'.tasks == c.tasks && c'.cur == c.cur && c'.suspended <= c.suspended
    requires c'.top == if Prio(c, t) > c.top then Prio(c, t) else c.top
    ensures Wakes(c, c')
  {
    hide Sound, OrderKept, Home, EventHome;
    assert TaskOk(c, t);
    forall u ensures KeptOrWoken(c, c', u) { assert TaskOk(c, u); }
  }

  /* ----- what each building block does to the lists ----- */

  lemma MakeReadyFacts(c: Core, t: Task)
    requires Sound(c.ls) && Home(c.ls, t).On?
    ensures Sound(MakeReady(c, t).ls) && OrderKept(c.ls, MakeReady(c, t).ls)
    ensures Moves(c.ls, MakeReady(c, t).ls, t, On(Ready(Prio(c, t))), EventHome(c.ls, t))
  {
    hide Valid, RemoveItem, AddEnd, ListOf, Home, EventHome, Precedes;
    StateAt(c.ls, t);
    RemoveFacts(c.ls, StateItem(t));
    var s := RemoveItem(c.ls, StateItem(t));
    StateAt(s, t);
    AddEndFacts(s, Ready(Prio(c, t)), StateItem(t));
  }

  lemma MakeReadyWakes(c: Core, t: Task)
    requires Shaped(c) && t in c.prio && EventHome(c.ls, t).Nowhere?
    ensures Wakes(c, MakeReady(c, t))
  {
    hide Sound, OrderKept, RemoveItem, AddEnd, ListOf, Home, EventHome;
    assert TaskOk(c, t);
    MakeReadyFacts(c, t);
    WakesOne(c, MakeReady(c, t), t);
  }

  lemma WakeHeadWakes(c: Core)
    requires Shaped(c) && !IsEmpty(c.ls, Current(c)) && c.suspended == 0
    ensures Wakes(c, WakeHead(c))
  {
    hide Sound, OrderKept, RemoveItem, AddEnd, ListOf, IsEmpty, Head, Home, EventHome;
    WakeHeadFacts(c);
    var t := Head(c.ls, Current(c)).t;
    assert TaskOk(c, t);
    WakesOne(c, WakeHead(c), t);
  }

  lemma DrainHeadWakes(c: Core)
    requires Shaped(c) && !IsEmpty(c.ls, Pending) && c.suspended == 0
    ensures Wakes(c, DrainHead(c))
  {
    hide Sound, OrderKept, RemoveItem, AddEnd, ListOf, IsEmpty, Head, Home, EventHome;
    DrainHeadFacts(c);
    var t := Head(c.ls, Pending).t;
    assert TaskOk(c, t);
    WakesOne(c, DrainHead(c), t);
  }

  lemma {:induction false} HighestReadyFacts(s: Store, p: nat)
    ensures forall q :: HighestReady(s, p) < q <= p ==> IsEmpty(s, Ready(q))
    ensures IsEmpty(s, Ready(HighestReady(s, p))) ==> forall q :: 0 <= q <= p ==> IsEmpty(s, Ready(q))
  {
    if IsEmpty(s, Ready(p)) && p > 0 { HighestReadyFacts(s, p - 1); }
  }

  lemma SwitchContextFacts(c: Core)
    requires Shaped(c)
    ensures Wakes(c, SwitchContext(c))
    ensures forall t :: Home(SwitchContext(c).ls, t) == Home(c.ls, t)
                        && EventHome(SwitchContext(c).ls, t) == EventHome(c.ls, t)
  {
    hide Sound, OrderKept, ListOf, IsEmpty, Home, EventHome, AdvanceIn;
    var p := HighestReady(c.ls, c.top);
    if c.suspended != 0 || IsEmpty(c.ls, Ready(p)) {
      WakesSelf(c, SwitchContext(c));
    } else {
      SwitchRealFacts(c);
      var c' := SwitchContext(c);
      forall t ensures KeptOrWoken(c, c', t) { assert TaskOk(c, t); }
    }
  }

  // A switch that happens: the highest ready priority is chosen, and no item moves.
  lemma SwitchRealFacts(c: Core)
    requires Shaped(c) && !IsEmpty(c.ls, Ready(HighestReady(c.ls, c.top)))
    ensures var s := AdvanceIn(c.ls, Ready(HighestReady(c.ls, c.top)));
            && Sound(s) && OrderKept(c.ls, s) && s.val == c.ls.val
            && forall u :: Home(s, u) == Home(c.ls, u) && EventHome(s, u) == EventHome(c.ls, u)
    ensures var t := AtCursor(Advance(ListOf(c.ls, Ready(HighestReady(c.ls, c.top))))).t;
            t in c.prio && Home(c.ls, t) == On(Ready(HighestReady(c.ls, c.top)))
    ensures forall u :: OnReady(Home(c.ls, u)) ==> Prio(c, u) <= HighestReady(c.ls, c.top)
  {
    hide OrderKept, ListOf, IsEmpty, AdvanceIn;
    var p := HighestReady(c.ls, c.top);
    AdvanceFacts(c.ls, Ready(p));
    HighestReadyFacts(c.ls, c.top);
    var i, s := AtCursor(Advance(ListOf(c.ls, Ready(p)))), AdvanceIn(c.ls, Ready(p));
    assert forall u :: Home(s, u) == Home(c.ls, u) && EventHome(s, u) == EventHome(c.ls, u);
    assert EventHome(c.ls, i.t) != On(Ready(p));
    assert TaskOk(c, i.t);
    forall u | OnReady(Home(c.ls, u)) ensures Prio(c, u) <= p {
      assert TaskOk(c, u);
      HeadFacts(c.ls, Ready(Prio(c, u)));
      assert !IsEmpty(c.ls, Ready(Prio(c, u)));
    }
  }

  /* ----- the operations made of them ----- */

  lemma WakesThenSwitch(c: Core, c': Core)
    requires Shaped(c) && Wakes(c, c')
    ensures Wakes(c, SwitchContext(c'))
  {
    hide Wakes, Shaped, SwitchContext;
    WakesShaped(c, c');
    SwitchContextFacts(c');
    WakesTrans(c, c', SwitchContext(c'));
  }

  lemma {:induction false} WakeExpiredWakes(c: Core)
    requires Shaped(c) && c.suspended == 0
    ensures Wakes(c, WakeExpired(c).0)
    decreases |ListOf(c.ls, Current(c)).items|
  {
    hide Wakes, Sound, TaskOk, IsEmpty, Head, RemoveItem, AddEnd;
    if IsEmpty(c.ls, Current(c)) || c.tick < Val(c.ls, Head(c.ls, Current(c))) {
      WakesSelf(c, WakeExpired(c).0);
    } else {
      WakeHeadFacts(c);
      WakeHeadWakes(c);
      WakesShaped(c, WakeHead(c));
      WakeExpiredWakes(WakeHead(c));
      WakesTrans(c, WakeHead(c), WakeExpired(WakeHead(c)).0);
    }
  }

  lemma IncrementTickWakes(c: Core)
    requires Shaped(c)
    ensures Wakes(c, IncrementTick(c).0)
  {
    hide Wakes, Sound, TaskOk, IsEmpty, Head, WakeExpired;
    if c.suspended == 0 {
      var c1 := Advance32(c);
      WakesSelf(c, c1);
      WakesShaped(c, c1);
      WakeExpiredWakes(c1);
      WakesTrans(c, c1, WakeExpired(c1).0);
    } else {
      WakesSelf(c, IncrementTick(c).0);
    }
  }

  lemma DrainHeadFrame(c: Core)
    requires !IsEmpty(c.ls, Pending)
    ensures SameTasks(c, DrainHead(c)) && DrainHead(c).nextUnblock == c.nextUnblock
    ensures DrainHead(c).yieldPending <==> c.yieldPending || Prio(c, Head(c.ls, Pending).t) > Prio(c, c.cur)
  {
    hide MakeReady, RemoveItem, AddEnd, IsEmpty, Head;
    MakeReadyFrame(Unlink(c, Head(c.ls, Pending)), Head(c.ls, Pending).t);
  }

  lemma {:induction false} DrainWakes(c: Core)
    requires Shaped(c) && c.suspended == 0
    ensures Wakes(c, Drain(c)) && IsEmpty(Drain(c).ls, Pending)
    decreases |ListOf(c.ls, Pending).items|
  {
    hide Wakes, Sound, TaskOk, IsEmpty, Head, DrainHead;
    if IsEmpty(c.ls, Pending) {
      WakesSelf(c, c);
    } else {
      DrainHeadFacts(c);
      DrainHeadWakes(c);
      DrainHeadFrame(c);
      WakesShaped(c, DrainHead(c));
      DrainWakes(DrainHead(c));
      WakesTrans(c, DrainHead(c), Drain(DrainHead(c)));
    }
  }

  lemma {:induction false} ReplayWakes(c: Core, n: nat)
    requires Shaped(c)
    ensures Wakes(c, Replay(c, n))
    decreases n
  {
    hide Wakes, Sound, TaskOk, IncrementTick;
    if n == 0 {
      WakesSelf(c, c);
    } else {
      var k := IncrementTick(c);
      var c1 := k.0.(yieldPending := k.0.yieldPending || k.1);
      IncrementTickWakes(c);
      WakesShaped(c, k.0);
      SameButYield(k.0, c1);
      WakesTrans(c, k.0, c1);
      ReplayWakes(c1, n - 1);
      WakesTrans(c, c1, Replay(c1, n - 1));
    }
  }

  // A change of the fields that no list operation reads.
  lemma SameButYield(c: Core, c': Core)
    requires Shaped(c)
    requires c' == c.(yieldPending := c'.yieldPending, suspended := c'.suspended, pended := c'.pended,
                      queues := c'.queues,
                      nextUnblock := c'.nextUnblock, notify := c'.notify, value := c'.value)
    requires c'.notify.Keys == c.notify.Keys && c'.value.Keys == c.value.Keys && c'.suspended <= c.suspended
    requires forall t :: AwaitsNotify(c', t) ==> AwaitsNotify(c, t)
    ensures Shaped(c') && Wakes(c, c')
  {
    hide Sound, Home, EventHome, Precedes;
    WakesSelf(c, c');
    WakesShaped(c, c');
  }

  lemma UnsuspendWakes(c: Core)
    requires Shaped(c) && c.suspended == 0
    ensures Wakes(c, Unsuspend(c)) && Shaped(Unsuspend(c))
  {
    hide Wakes, Sound, TaskOk, Drain, Replay, IsEmpty, Head, Val;
    var c1 := Drain(c);
    var c2 := if IsEmpty(c.ls, Pending) then c1 else ResetNext(c1);
    DrainWakes(c);
    WakesShaped(c, c1);
    SameButYield(c1, c2);
    WakesTrans(c, c1, c2);
    ReplayWakes(c2, c2.pended);
    WakesTrans(c, c2, Replay(c2, c2.pended));
    if c2.pended > 0 {
      var c3 := Replay(c2, c2.pended);
      WakesShaped(c2, c3);
      SameButYield(c3, c3.(pended := 0));
      WakesTrans(c, c3, c3.(pended := 0));
    }
  }

  lemma ResumeAllWakes(c: Core)
    requires Shaped(c) && c.suspended > 0
    ensures Wakes(c, ResumeAll(c).0)
  {
    hide Wakes, Sound, TaskOk, Unsuspend, SwitchContext;
    var c1 := c.(suspended := c.suspended - 1);
    SameButYield(c, c1);
    if c1.suspended == 0 {
      UnsuspendWakes(c1);
      WakesTrans(c, c1, Unsuspend(c1));
      WakesThenSwitch(c, Unsuspend(c1));
    }
  }

  lemma RemoveFromEventListFacts(c: Core, l: ListId)
    requires Sound(c.ls) && !IsEmpty(c.ls, l) && l.Wait?
    ensures var (t, s) := (Head(c.ls, l).t, RemoveFromEventList(c, l).0.ls);
            && Head(c.ls, l).EventItem? && EventHome(c.ls, t) == On(l) && Home(c.ls, t).On?
            && Sound(s) && OrderKept(c.ls, s)
            && Moves(c.ls, s, t, if c.suspended == 0 then On(Ready(Prio(c, t))) else Home(c.ls, t),
                                 if c.suspended == 0 then Nowhere else On(Pending))
  {
    hide Valid, RemoveItem, AddEnd, ListOf, IsEmpty, Head, Home, EventHome, Precedes, MakeReady;
    var t := Head(c.ls, l).t;
    EventHead(c.ls, l);
    EventAt(c.ls, t);
    RemoveFacts(c.ls, EventItem(t));
    var c1 := Unlink(c, EventItem(t));
    if c.suspended == 0 {
      MakeReadyFacts(c1, t);
    } else {
      EventAt(c1.ls, t);
      AddEndFacts(c1.ls, Pending, EventItem(t));
    }
  }

  // One task's event item sent to the pending ready list.
  lemma WakesPended(c: Core, c': Core, t: Task)
    requires Shaped(c) && t in c.prio && Sound(c'.ls) && OrderKept(c.ls, c'.ls)
    requires Moves(c.ls, c'.ls, t, Home(c.ls, t), On(Pending)) && Summoned(c, c', t)
    requires EventHome(c.ls, t).Nowhere? || OnWait(EventHome(c.ls, t))
    requires c'.prio == c.prio && c'.notify.Keys == c.notify.Keys && c'.value.Keys == c.value.Keys
    requires forall u :: AwaitsNotify(c', u) ==> AwaitsNotify(c, u)
    requires c'.tasks == c.tasks && c'.cur == c.cur && c'.top == c.top && 0 < c.suspended && c'.suspended <= c.suspended
    ensures Wakes(c, c')
  {
    hide Sound, OrderKept, Home, EventHome;
    assert TaskOk(c, t);
    forall u ensures KeptOrWoken(c, c', u) { assert TaskOk(c, u); }
  }

  lemma RemoveFromEventListFrame(c: Core, l: ListId)
    requires !IsEmpty(c.ls, l)
    ensures var (t, c') := (Head(c.ls, l).t, RemoveFromEventList(c, l).0);
            && SameTasks(c, c') && c'.nextUnblock == c.nextUnblock
            && (c'.yieldPending <==> c.yieldPending || Prio(c, t) > Prio(c, c.cur))
            && (RemoveFromEventList(c, l).1 <==> Prio(c, t) > Prio(c, c.cur))
            && c'.top == if c.suspended == 0 && Prio(c, t) > c.top then Prio(c, t) else c.top
  {
    hide MakeReady, RemoveItem, AddEnd, IsEmpty, Head;
    var t := Head(c.ls, l).t;
    MakeReadyFrame(Unlink(c, Head(c.ls, l)), t);
  }

  lemma MakeReadyFrame(c: Core, t: Task)
    ensures var c' := MakeReady(c, t);
            && SameTasks(c, c') && c'.nextUnblock == c.nextUnblock && c'.yieldPending == c.yieldPending
            && c'.top == if Prio(c, t) > c.top then Prio(c, t) else c.top
  {
    hide RemoveItem, AddEnd;
  }

  lemma RemoveFromEventListWakes(c: Core, l: ListId)
    requires Shaped(c) && !IsEmpty(c.ls, l) && l.Wait?
    ensures Wakes(c, RemoveFromEventList(c, l).0)
  {
    hide Sound, TaskOk, OrderKept, KeptOrWoken, RemoveFromEventList, IsEmpty, Head, Home, EventHome, Wakes;
    RemoveFromEventListFacts(c, l);
    RemoveFromEventListFrame(c, l);
    var t, c' := Head(c.ls, l).t, RemoveFromEventList(c, l).0;
    InPrio(c, t);
    if c.suspended == 0 { WakesOne(c, c', t); } else { WakesPended(c, c', t); }
  }

  lemma InPrio(c: Core, t: Task)
    requires Shaped(c)
    ensures t in c.prio <==> Home(c.ls, t).On?
    ensures EventHome(c.ls, t).On? ==> t in c.prio
  {
    assert TaskOk(c, t);
  }

  lemma WakeOneWakes(c: Core, l: ListId)
    requires Shaped(c) && l.Wait?
    ensures Wakes(c, WakeOne(c, l).0) && Wakes(c, YieldIf(WakeOne(c, l)))
  {
    hide Wakes, Shaped, RemoveFromEventList, SwitchContext, IsEmpty;
    if IsEmpty(c.ls, l) { WakesSelf(c, c); } else { RemoveFromEventListWakes(c, l); }
    WakesThenSwitch(c, WakeOne(c, l).0);
  }

  lemma {:induction false} WakeManyWakes(c: Core, l: ListId, n: nat)
    requires Shaped(c) && l.Wait?
    ensures Wakes(c, WakeMany(c, l, n))
    decreases n
  {
    hide Wakes, Shaped, RemoveFromEventList, IsEmpty;
    if n == 0 || IsEmpty(c.ls, l) {
      WakesSelf(c, c);
    } else {
      var r := RemoveFromEventList(c, l);
      var c1 := r.0.(yieldPending := r.0.yieldPending || r.1);
      RemoveFromEventListWakes(c, l);
      WakesShaped(c, r.0);
      SameButYield(r.0, c1);
      WakesTrans(c, r.0, c1);
      WakeManyWakes(c1, l, n - 1);
      WakesTrans(c, c1, WakeMany(c1, l, n - 1));
    }
  }

  /* ----- the operations that block, suspend, create and re-prioritise ----- */

  // The list prvAddCurrentTaskToDelayedList puts the running task on.
  function DelayTarget(c: Core, n: nat, forever: bool): ListId {
    if n == MAX_DELAY && forever then Suspended
    else if Add32(c.tick, n) < c.tick then Overflow(c) else Current(c)
  }

  // Where every item is afterwards: only task t's state item has moved.
  ghost predicate Relocates(s: Store, s': Store, t: Task, home: Where) {
    && (forall u :: Home(s', u) == if u == t then home else Home(s, u))
    && (forall u :: EventHome(s', u) == EventHome(s, u))
  }

  lemma DelayCurrentFacts(c: Core, n: nat, forever: bool)
    requires Sound(c.ls) && Home(c.ls, c.cur).On?
    ensures var (s, l) := (DelayCurrent(c, n, forever).ls, DelayTarget(c, n, forever));
            && Sound(s) && Relocates(c.ls, s, c.cur, On(l))
            && s.val == if l.Suspended? then c.ls.val else c.ls.val[StateItem(c.cur) := Add32(c.tick, n)]
  {
    hide Sound, Valid, RemoveItem, AddEnd, AddSorted, ListOf, Home, EventHome, Add32, SetVal, Puts;
    UnlinkFacts(c.ls, c.cur);
    var s1 := RemoveItem(c.ls, StateItem(c.cur));
    if n == MAX_DELAY && forever {
      RelinkEnd(s1, c.ls, c.cur, Suspended);
    } else {
      RelinkSorted(s1, c.ls, c.cur, DelayTarget(c, n, forever), Add32(c.tick, n));
    }
  }

  // A task's state item off its list, and everything else as before.
  ghost predicate Lifted(s0: Store, s: Store, t: Task) {
    && Valid(s) && s.val == s0.val && Home(s, t).Nowhere? && OrderKept(s0, s)
    && (forall u :: u != t ==> Home(s, u) == Home(s0, u))
    && (forall u :: EventHome(s, u) == EventHome(s0, u))
  }

  lemma UnlinkFacts(s: Store, t: Task)
    requires Sound(s) && Home(s, t).On?
    ensures Lifted(s, RemoveItem(s, StateItem(t)), t)
  {
    hide Valid, RemoveItem, ListOf, Home, EventHome, Precedes;
    StateAt(s, t);
    RemoveFacts(s, StateItem(t));
  }

  lemma RelinkEnd(s: Store, s0: Store, t: Task, l: ListId)
    requires Sound(s0) && Home(s0, t).On? && Lifted(s0, s, t) && HomeOk(On(l)) && !l.Delay?
    ensures var s' := AddEnd(s, l, StateItem(t));
            Sound(s') && Relocates(s0, s', t, On(l)) && s'.val == s0.val && OrderKept(s0, s')
  {
    hide Valid, AddEnd, ListOf, Home, EventHome, Precedes;
    StateAt(s, t);
    AddEndFacts(s, l, StateItem(t));
  }

  lemma RelinkSorted(s: Store, s0: Store, t: Task, l: ListId, v: nat)
    requires Sound(s0) && Home(s0, t).On? && Lifted(s0, s, t) && HomeOk(On(l))
    ensures var s' := AddSorted(SetVal(s, StateItem(t), v), l, StateItem(t));
            Sound(s') && Relocates(s0, s', t, On(l)) && s'.val == s0.val[StateItem(t) := v]
  {
    hide Valid, AddSorted, ListOf, Home, EventHome, OrderKept;
    SetValHomes(s, StateItem(t), v);
    StateAt(SetVal(s, StateItem(t), v), t);
    AddSortedFacts(SetVal(s, StateItem(t), v), l, StateItem(t));
  }

  // Only task t's items, priority or existence changed, and t is still as it should be.
  lemma ShapedAfter(c: Core, c': Core, t: Task)
    requires Shaped(c) && Sound(c'.ls) && TaskOk(c', t) && c.top <= c'.top < MAX_PRIORITIES
    requires c'.notify.Keys == c'.prio.Keys == c'.value.Keys && c'.tasks == |c'.prio| && c'.cur in c'.prio
    requires forall u :: u != t ==> Home(c'.ls, u) == Home(c.ls, u) && EventHome(c'.ls, u) == EventHome(c.ls, u)
    requires c'.prio - {t} == c.prio - {t}
    ensures Shaped(c')
  {
    hide Sound, Home, EventHome;
    forall u ensures TaskOk(c', u) {
      assert TaskOk(c, u);
      if u != t { assert u in c'.prio - {t} <==> u in c'.prio; assert u in c.prio - {t} <==> u in c.prio; }
    }
  }

  lemma SetValHomes(s: Store, i: Item, v: nat)
    requires Valid(s)
    ensures Valid(SetVal(s, i, v)) && OrderKept(s, SetVal(s, i, v))
    ensures forall t :: Home(SetVal(s, i, v), t) == Home(s, t) && EventHome(SetVal(s, i, v), t) == EventHome(s, t)
  {
    SetValFacts(s, i, v);
  }

  // The fields that linking and unlinking items leaves alone.
  ghost predicate SameTasks(c: Core, c': Core) {
    && c'.prio == c.prio && c'.notify == c.notify && c'.value == c.value && c'.tasks == c.tasks
    && c'.suspended == c.suspended && c'.queues == c.queues && c'.pended == c.pended
    && c'.tick == c.tick && c'.overflows == c.overflows && c'.flip == c.flip && c'.cur == c.cur
  }

  lemma DelayCurrentFrame(c: Core, n: nat, forever: bool)
    ensures var c' := DelayCurrent(c, n, forever);
            && SameTasks(c, c') && c'.top == c.top && c'.yieldPending == c.yieldPending
            && c'.nextUnblock == if DelayTarget(c, n, forever) == Current(c) && Add32(c.tick, n) < c.nextUnblock
                                 then Add32(c.tick, n) else c.nextUnblock
  {
    hide RemoveItem, AddEnd, AddSorted, SetVal, Add32;
  }

  lemma DelayCurrentShaped(c: Core, n: nat, forever: bool)
    requires Shaped(c)
    ensures Shaped(DelayCurrent(c, n, forever))
  {
    hide Sound, DelayCurrent, Home, EventHome, Add32;
    assert TaskOk(c, c.cur);
    DelayCurrentFacts(c, n, forever);
    DelayCurrentFrame(c, n, forever);
    ShapedAfter(c, DelayCurrent(c, n, forever), c.cur);
  }

  // vTaskPlaceOnEventList's first half.
  function Enlist(c: Core, l: ListId): Core { c.(ls := AddSorted(c.ls, l, EventItem(c.cur))) }

  lemma EnlistFacts(c: Core, l: ListId)
    requires Sound(c.ls) && Home(c.ls, c.cur).On? && EventHome(c.ls, c.cur).Nowhere? && l.Wait?
    ensures var s := Enlist(c, l).ls;
            Sound(s) && Moves(c.ls, s, c.cur, Home(c.ls, c.cur), On(l))
  {
    hide Valid, AddSorted, ListOf, Home, EventHome, Precedes;
    EventAt(c.ls, c.cur);
    AddSortedFacts(c.ls, l, EventItem(c.cur));
  }

  lemma PlaceOnEventListShaped(c: Core, l: ListId, n: nat)
    requires Shaped(c) && EventHome(c.ls, c.cur).Nowhere? && l.Wait?
    ensures Shaped(PlaceOnEventList(c, l, n))
    ensures var (s, home) := (PlaceOnEventList(c, l, n).ls, On(DelayTarget(c, n, true)));
            && (forall u :: Home(s, u) == if u == c.cur then home else Home(c.ls, u))
            && (forall u :: EventHome(s, u) == if u == c.cur then On(l) else EventHome(c.ls, u))
  {
    hide Sound, DelayCurrent, AddSorted, Home, EventHome, Add32;
    assert TaskOk(c, c.cur);
    EnlistFacts(c, l);
    var c1 := Enlist(c, l);
    DelayCurrentFacts(c1, n, true);
    DelayCurrentFrame(c1, n, true);
    ShapedAfter(c, DelayCurrent(c1, n, true), c.cur);
  }

  lemma SuspendTaskFacts(c: Core, t: Task)
    requires Sound(c.ls) && Home(c.ls, t).On?
    ensures Sound(SuspendTask(c, t).ls) && OrderKept(c.ls, SuspendTask(c, t).ls)
    ensures Moves(c.ls, SuspendTask(c, t).ls, t, On(Suspended), Nowhere)
  {
    hide Valid, RemoveItem, AddEnd, ListOf, Home, EventHome, Precedes;
    StateAt(c.ls, t);
    RemoveFacts(c.ls, StateItem(t));
    var s1 := RemoveItem(c.ls, StateItem(t));
    EventAt(s1, t);
    RemoveAny(s1, EventItem(t));
    var s2 := RemoveItem(s1, EventItem(t));
    StateAt(s2, t);
    AddEndFacts(s2, Suspended, StateItem(t));
  }

  lemma SuspendTaskShaped(c: Core, t: Task)
    requires Shaped(c) && t in c.prio
    ensures Shaped(SuspendTask(c, t))
  {
    hide Sound, RemoveItem, AddEnd, ListOf, Home, EventHome;
    assert TaskOk(c, t);
    SuspendTaskFacts(c, t);
    ShapedAfter(c, SuspendTask(c, t), t);
  }

  lemma CreateTaskShaped(c: Core, t: Task, p: nat)
    requires Shaped(c) && t !in c.prio
    ensures Shaped(CreateTask(c, t, p)) && OrderKept(c.ls, CreateTask(c, t, p).ls)
    ensures forall u :: Home(CreateTask(c, t, p).ls, u) ==
                        if u == t then On(Ready(Prio(CreateTask(c, t, p), t))) else Home(c.ls, u)
    ensures forall u :: EventHome(CreateTask(c, t, p).ls, u) == EventHome(c.ls, u)
  {
    hide Valid, AddEnd, ListOf, Home, EventHome, Precedes, SetVal;
    var c' := CreateTask(c, t, p);
    var v := MAX_PRIORITIES - c'.prio[t];
    var s := SetVal(c.ls, EventItem(t), v);
    assert TaskOk(c, t);
    SetValHomes(c.ls, EventItem(t), v);
    StateAt(s, t);
    AddEndFacts(s, Ready(c'.prio[t]), StateItem(t));
    ShapedAfter(c, c', t);
  }

  lemma PriorityChangeShaped(c: Core, t: Task, p: nat)
    requires Shaped(c) && t in c.prio
    ensures var c' := PriorityChange(c, t, p).0;
            && Shaped(c') && OrderKept(c.ls, c'.ls)
            && (forall u :: u != t ==> Home(c'.ls, u) == Home(c.ls, u))
            && (Home(c'.ls, t) == if OnReady(Home(c.ls, t)) then On(Ready(Prio(c', t))) else Home(c.ls, t))
            && (forall u :: EventHome(c'.ls, u) == EventHome(c.ls, u))
  {
    hide Sound, MakeReady, Home, EventHome, Precedes, SetVal;
    var to := if p >= MAX_PRIORITIES then MAX_PRIORITIES - 1 else p;
    assert TaskOk(c, t);
    if to != Prio(c, t) {
      var c1 := c.(prio := c.prio[t := to], ls := SetVal(c.ls, EventItem(t), MAX_PRIORITIES - to));
      ValueChangeFacts(c.ls, t, MAX_PRIORITIES - to);
      StateBox(c.ls, t);
      if OnReady(Home(c.ls, t)) {
        MakeReadyFacts(c1, t);
        MakeReadyFrame(c1, t);
      }
      ShapedAfter(c, PriorityChange(c, t, p).0, t);
    }
  }

  lemma StateBox(s: Store, t: Task)
    ensures Home(s, t).On? <==> StateItem(t) in s.box
    ensures Home(s, t).On? ==> s.box[StateItem(t)] == Home(s, t).l
  {}

  lemma ValueChangeFacts(s: Store, t: Task, v: nat)
    requires Sound(s)
    ensures Sound(SetVal(s, EventItem(t), v)) && OrderKept(s, SetVal(s, EventItem(t), v))
    ensures forall u :: Home(SetVal(s, EventItem(t), v), u) == Home(s, u)
                        && EventHome(SetVal(s, EventItem(t), v), u) == EventHome(s, u)
  {
    hide Valid, Home, EventHome;
    SetValHomes(s, EventItem(t), v);
  }
}

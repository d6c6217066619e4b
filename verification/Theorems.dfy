/** The main results about the kernel, for every run from the start of the scheduler. */
module Theorems {
  import opened Collections
  import opened Config
  import opened Lists
  import opened Kernel
  import opened Queues
  import opened Shape
  import opened Clock
  import opened Priority
  import opened Machine
  import opened Invariant
  import opened Boot
  import opened Runs
  import opened Timeline

  /* Each step in turn is one that can happen. */
  ghost predicate Possible(m: Machine, ss: seq<Step>)
    requires Inv(m)
    decreases |ss|
  {
    ss == [] || (Enabled(m, ss[0]) && (StepKeeps(m, ss[0]); Possible(Apply(m, ss[0]), ss[1..])))
  }

  ghost function Exec(m: Machine, ss: seq<Step>): (m': Machine)
    requires Inv(m) && Possible(m, ss)
    ensures Inv(m')
    decreases |ss|
  {
    if ss == [] then m else StepKeeps(m, ss[0]); Exec(Apply(m, ss[0]), ss[1..])
  }

  /** No lost wake-up: in every run, what is available to a side of a queue on which some task
      waits is covered by woken tasks that have yet to look, and wake-ups counted by the lock,
      or the lock count has reached the number of tasks.  For the receivers in all runs; for
      the senders in those that do not reset this queue. */
  lemma {:induction false} NoLostWakeup(m: Machine, ss: seq<Step>, q: QueueId, d: Side)
    requires Inv(m) && Possible(m, ss) && NoneLost(m, q, d)
    requires d.Send? ==> CallReset(q) !in ss
    ensures NoneLost(Exec(m, ss), q, d)
    decreases |ss|
  {
    hide Inv, NoneLost, Apply, Enabled;
    if ss != [] {
      StepKeeps(m, ss[0]);
      NoLostWakeup(Apply(m, ss[0]), ss[1..], q, d);
    }
  }

  lemma InvVain(m: Machine, q: QueueId, d: Side, t: Task)
    requires Inv(m) && NoneLost(m, q, d) && q in m.c.queues && EventHome(m.c.ls, t) == On(Wait(q, d))
    requires LockOf(m.c.queues[q], d) == UNLOCKED && WokenOf(m, Wait(q, d)) == {}
    ensures Available(m.c.queues[q], d) <= 0
  {
    hide EventHome, CoreOk, PcOk, PriorityOk, QueuesOk;
    assert m.c.tasks >= 0;
  }

  lemma InvPriority(m: Machine)
    requires Inv(m) && !Away(PcOf(m, m.c.cur), m.c.cur) && !PcOf(m, m.c.cur).InCreate?
    ensures m.c.yieldPending || Settled(m.c)
  {
    hide EventHome, Home, CoreOk, QueuesOk, TaskPcOk;
  }

  lemma InvLocks(m: Machine, q: QueueId, d: Side)
    requires Inv(m) && q in m.c.queues
    ensures m.c.tasks <= 127 ==> -128 <= LockOf(m.c.queues[q], d) <= 127
    ensures LockOf(m.c.queues[q], d) != UNLOCKED <==> HoldsLock(PcOf(m, m.c.cur), q, d)
  {
    hide EventHome, Home, CoreOk, PcOk, PriorityOk;
    assert LockOk(m, q, d);
  }

  /* ----- conservation of tasks ----- */

  function StateLists(): seq<ListId> {
    [Lists.Ready(0), Lists.Ready(1), Lists.Ready(2), Lists.Ready(3), Lists.Ready(4), Delay(false), Delay(true),
     Suspended]
  }

  // The sum of uxNumberOfItems over the lists.
  function Sizes(s: Store, ls: seq<ListId>): nat {
    if ls == [] then 0 else |ListOf(s, ls[0]).items| + Sizes(s, ls[1..])
  }

  // The tasks whose state items are on one of the lists.
  ghost function Members(c: Core, ls: seq<ListId>): set<Task> {
    set t | t in c.prio && Home(c.ls, t).On? && Home(c.ls, t).l in ls
  }

  lemma {:induction false} SizesAreMembers(c: Core, ls: seq<ListId>)
    requires Shaped(c) && Distinct(ls) && forall l :: l in ls ==> l.Ready? || l.Delay? || l.Suspended?
    ensures Sizes(c.ls, ls) == |Members(c, ls)|
  {
    hide Sound, TaskOk, Home, ListOf;
    if ls == [] {
      assert Members(c, ls) == {};
    } else {
      var rest := ls[1..];
      assert ls[0] !in rest;
      SizesAreMembers(c, rest);
      ListMembers(c, ls[0]);
      assert ls == [ls[0]] + rest;
      assert Members(c, ls) == Members(c, [ls[0]]) + Members(c, rest);
      assert Members(c, [ls[0]]) !! Members(c, rest);
    }
  }

  lemma ListMembers(c: Core, l: ListId)
    requires Shaped(c) && (l.Ready? || l.Delay? || l.Suspended?)
    ensures |ListOf(c.ls, l).items| == |Members(c, [l])|
  {
    hide TaskOk, ListOf;
    var items := ListOf(c.ls, l).items;
    var owners := seq(|items|, i requires 0 <= i < |items| => items[i].t);
    forall i | 0 <= i < |items| ensures items[i].StateItem? && Home(c.ls, items[i].t) == On(l) {
      OnList(c.ls, l, items[i]);
      assert EventHome(c.ls, items[i].t) != On(l);
    }
    SameItems(c.ls, l);
    forall t ensures t in Members(c, [l]) <==> t in owners {
      if t in Members(c, [l]) {
        OnList(c.ls, l, StateItem(t));
        var i :| 0 <= i < |items| && items[i] == StateItem(t);
        assert owners[i] == t;
      }
      if t in owners {
        var i :| 0 <= i < |owners| && owners[i] == t;
        assert items[i] == StateItem(t);
        InPrio(c, t);
      }
    }
    DistinctCard(owners, Members(c, [l]));
  }

  lemma OnList(s: Store, l: ListId, i: Item)
    requires Valid(s)
    ensures i in ListOf(s, l).items <==> At(s, i) == On(l)
  {
    assert i in ListOf(s, l).items <==> In(s, i, l);
  }

  lemma SameItems(s: Store, l: ListId)
    requires Valid(s)
    ensures Distinct(ListOf(s, l).items)
  {}

  lemma {:induction false} DistinctCard(s: seq<Task>, a: set<Task>)
    requires Distinct(s) && forall t :: t in a <==> t in s
    ensures |a| == |s|
  {
    if s != [] {
      var x, rest := s[0], s[1..];
      assert x !in rest;
      assert s == [x] + rest;
      DistinctCard(rest, a - {x});
    } else {
      assert a == {};
    }
  }

  // Each created task's state item is on exactly one list, of the right kind and priority.
  ghost predicate TasksConserved(c: Core) {
    && (forall t :: t in c.prio <==> Home(c.ls, t).On?)
    && (forall t, l :: StateItem(t) in ListOf(c.ls, l).items <==> Home(c.ls, t) == On(l))
    && (forall t, l :: EventItem(t) in ListOf(c.ls, l).items <==> EventHome(c.ls, t) == On(l))
    && (forall t :: t in c.prio ==>
          Home(c.ls, t).l in StateLists() && (OnReady(Home(c.ls, t)) ==> Home(c.ls, t) == On(Lists.Ready(Prio(c, t)))))
    && Sizes(c.ls, StateLists()) == c.tasks == |c.prio|
    && (forall t :: OnWait(EventHome(c.ls, t)) ==> !OnReady(Home(c.ls, t)))
    && (c.suspended == 0 ==> ListOf(c.ls, Pending).items == [])
  }

  lemma InvTasks(m: Machine)
    requires Inv(m)
    ensures TasksConserved(m.c)
  {
    hide PcOk, PriorityOk, QueuesOk, Clocked, Shaped, TasksConserved, Home, EventHome;
    CoreTasks(m.c);
  }

  lemma CoreTasks(c: Core)
    requires Shaped(c) && (c.suspended == 0 ==> NonePending(c.ls))
    ensures TasksConserved(c)
  {
    hide Shaped, Home, EventHome, Sizes, ListOf, Valid;
    ShapedSound(c);
    AllListed(c);
    ListsAgree(c.ls);
    SizesSum(c);
    if c.suspended == 0 { PendingEmpty(c); }
  }

  lemma AllListed(c: Core)
    requires Shaped(c)
    ensures forall t :: t in c.prio <==> Home(c.ls, t).On?
    ensures forall t :: t in c.prio ==> Home(c.ls, t).l in StateLists()
                                        && (OnReady(Home(c.ls, t)) ==> Home(c.ls, t) == On(Lists.Ready(Prio(c, t))))
    ensures forall t :: OnWait(EventHome(c.ls, t)) ==> !OnReady(Home(c.ls, t))
  {
    hide Home, EventHome, Shaped;
    forall t ensures (t in c.prio <==> Home(c.ls, t).On?) && (OnWait(EventHome(c.ls, t)) ==> !OnReady(Home(c.ls, t)))
      && (t in c.prio ==> Home(c.ls, t).l in StateLists()
                          && (OnReady(Home(c.ls, t)) ==> Home(c.ls, t) == On(Lists.Ready(Prio(c, t)))))
    {
      HomeListed(c, t);
    }
  }

  lemma SizesSum(c: Core)
    requires Shaped(c)
    ensures Sizes(c.ls, StateLists()) == c.tasks == |c.prio|
  {
    hide Home, EventHome, Shaped, Sizes;
    AllListed(c);
    assert c.tasks == |c.prio| by { TaskCount(c); }
    SizesAreMembers(c, StateLists());
    assert Members(c, StateLists()) == c.prio.Keys;
  }

  lemma TaskCount(c: Core)
    requires Shaped(c)
    ensures c.tasks == |c.prio|
  {
    hide Sound, TaskOk;
  }

  lemma ListsAgree(s: Store)
    requires Valid(s)
    ensures forall t, l :: StateItem(t) in ListOf(s, l).items <==> Home(s, t) == On(l)
    ensures forall t, l :: EventItem(t) in ListOf(s, l).items <==> EventHome(s, t) == On(l)
  {
    hide Valid, Home, EventHome, ListOf;
    forall t, l ensures (StateItem(t) in ListOf(s, l).items <==> Home(s, t) == On(l))
           && (EventItem(t) in ListOf(s, l).items <==> EventHome(s, t) == On(l)) {
      OnList(s, l, StateItem(t));
      OnList(s, l, EventItem(t));
      StateAt(s, t);
      EventAt(s, t);
    }
  }

  lemma HomeListed(c: Core, t: Task)
    requires Shaped(c)
    ensures t in c.prio <==> Home(c.ls, t).On?
    ensures t in c.prio ==> Home(c.ls, t).l in StateLists()
                            && (OnReady(Home(c.ls, t)) ==> Home(c.ls, t) == On(Lists.Ready(Prio(c, t))))
    ensures OnWait(EventHome(c.ls, t)) ==> !OnReady(Home(c.ls, t))
  {
    hide Home, EventHome, Valid;
    assert TaskOk(c, t);
  }

  lemma PendingEmpty(c: Core)
    requires Sound(c.ls) && NonePending(c.ls)
    ensures ListOf(c.ls, Pending).items == []
  {
    hide ListOf;
    if ListOf(c.ls, Pending).items != [] {
      EventHead(c.ls, Pending);
    }
  }

  /* ----- conservation of ticks ----- */

  // How often xPendedTicks wraps in a run.
  ghost function Wraps(m: Machine, ss: seq<Step>): nat
    requires Inv(m) && Possible(m, ss)
    decreases |ss|
  {
    if ss == [] then 0
    else
      StepKeeps(m, ss[0]);
      var m' := Apply(m, ss[0]);
      (if m'.ticks >= m.ticks && PendedWraps(m.c, m'.ticks - m.ticks) then 1 else 0) + Wraps(m', ss[1..])
  }

  /** Tick conservation: through any nesting of suspensions, the clock and the pended ticks
      account for every tick there has been, save 2^32 for each wrap of xPendedTicks. */
  lemma {:induction false} TickConservation(m: Machine, ss: seq<Step>)
    requires Inv(m) && Possible(m, ss) && m.c.pended < TWO_32
    ensures var m' := Exec(m, ss);
            Total(m'.c) + TWO_32 * Wraps(m, ss) == Total(m.c) + m'.ticks - m.ticks && m'.c.pended < TWO_32
            && m'.ticks >= m.ticks
    decreases |ss|
  {
    hide Inv, Apply, Enabled, Total, AllSleep, PendedWraps;
    if ss != [] {
      StepKeeps(m, ss[0]);
      StepTime(m, ss[0]);
      TickConservation(Apply(m, ss[0]), ss[1..]);
    }
  }

  /* ----- waking on time ----- */

  // The task is delayed at the end of every part of the run.
  ghost predicate StaysDelayed(m: Machine, ss: seq<Step>, t: Task)
    requires Inv(m) && Possible(m, ss)
    decreases |ss|
  {
    Delayed(m.c, t) && (ss == [] || (StepKeeps(m, ss[0]); StaysDelayed(Apply(m, ss[0]), ss[1..], t)))
  }

  lemma {:induction false} DeadlineStays(m: Machine, ss: seq<Step>, t: Task)
    requires Inv(m) && Possible(m, ss) && m.c.pended < TWO_32 && StaysDelayed(m, ss, t) && CallSuspend(t) !in ss
    ensures var m' := Exec(m, ss); m'.c.pended < TWO_32 && Delayed(m'.c, t) && Deadline(m'.c, t) == Deadline(m.c, t)
    decreases |ss|
  {
    hide Inv, Apply, Enabled, Deadline, Delayed, Home, EventHome, Now, Early;
    if ss != [] {
      StepKeeps(m, ss[0]);
      StepTime(m, ss[0]);
      StayedDelayed(m.c, Apply(m, ss[0]).c, t, Stopped(ss[0]));
      DeadlineStays(Apply(m, ss[0]), ss[1..], t);
    }
  }

  lemma StayedDelayed(c: Core, c': Core, t: Task, ex: set<Task>)
    requires AllSleep(c, c', ex) && t !in ex && Delayed(c, t) && Delayed(c', t)
    ensures Deadline(c', t) == Deadline(c, t)
  {
    hide Home, EventHome, Deadline, Now;
    assert Sleeps(c, c', t);
  }

  /** Exact timed wake: a task blocked with deadline D that stays blocked through a run is made
      ready by the next step if and only if that step takes the unbounded clock to D, unless it
      was also waiting for an event or a notification, or is suspended. */
  lemma TimedWake(m: Machine, ss: seq<Step>, s: Step, t: Task)
    requires Inv(m) && Possible(m, ss) && m.c.pended < TWO_32 && StaysDelayed(m, ss, t)
    requires CallSuspend(t) !in ss && s != CallSuspend(t) && Enabled(Exec(m, ss), s)
    ensures var m1 := Exec(m, ss);
            Sound(m1.c.ls) && CanResume(m1) &&
            var (m2, due) := (Apply(m1, s), Deadline(m.c, t));
            && Now(m1.c) < due
            && (Now(m2.c) >= due ==> Home(m2.c.ls, t) == On(Lists.Ready(Prio(m1.c, t)))
                                     && EventHome(m2.c.ls, t).Nowhere?)
            && (Now(m2.c) < due && !Early(m1.c, t) ==> Delayed(m2.c, t) && Deadline(m2.c, t) == due)
  {
    hide Inv, Apply, Enabled, Deadline, Delayed, Home, EventHome, Now, Early, Possible, Exec, StaysDelayed;
    var m1 := Exec(m, ss);
    DeadlineStays(m, ss, t);
    StepKeeps(m1, s);
    StepTime(m1, s);
    assert Sleeps(m1.c, Apply(m1, s).c, t);
    InvClocked(m1);
    DeadlineAhead(m1.c, t);
  }

  lemma InvClocked(m: Machine)
    requires Inv(m)
    ensures Clocked(m.c)
  {
    hide Clocked, Shaped, PcOk, PriorityOk, QueuesOk, Home, EventHome;
  }

  /* ----- delays ----- */

  // Where a task is that sleeps in vTaskDelay or xTaskDelayUntil.
  predicate Doze(p: Pc) { p.InDelay? || p.User? || p == Yielding(User) }

  lemma DozeNotEarly(m: Machine, t: Task)
    requires Inv(m) && Delayed(m.c, t) && Doze(PcOf(m, t))
    ensures !Early(m.c, t)
  {
    hide PriorityOk, QueuesOk, Home, EventHome, CurOk, Valid, Clocked, TaskOk;
    assert TaskPcOk(m, t);
    assert EventHomeOk(EventHome(m.c.ls, t));
  }

  lemma GoIsContinue(m: Machine)
    requires Sound(m.c.ls) && CanResume(m) && Enabled(m, Continue)
    ensures Apply(m, Continue) == Go(m)
  {
    hide Go, Sound, CanResume;
  }

  // Only the running task's program counter changes, and a new task's.
  lemma OtherPcs(m: Machine, s: Step, t: Task)
    requires Sound(m.c.ls) && CanResume(m) && Enabled(m, s) && t != m.c.cur && (s.CallCreate? ==> s.t != t)
    ensures PcOf(Apply(m, s), t) == PcOf(m, t)
  {
    hide CanResume, Sound, CallAllowed, SendFromISR, ReceiveFromISR, NotifyFromISR, ResumeFromISR, SwitchContext, Go,
         ResumeTask, PrioritySet, RemoveItem, AddEnd, SetVal, Notify, ResumeAll, Reset, IncrementTick;
    if s.Continue? { OtherPcsGo(m, t); }
  }

  lemma OtherPcsGo(m: Machine, t: Task)
    requires Sound(m.c.ls) && CanResume(m) && t != m.c.cur
    ensures PcOf(Go(m), t) == PcOf(m, t)
  {
    hide Sound, SwitchContext, ResumeAll, YieldTo, QueueStep, DelayStep, NotifyStep;
    var p := PcOf(m, m.c.cur);
    if p.InQueue? { OtherPcsQueue(m, p, t); }
    if p.InDelay? { OtherPcsDelay(m, p, t); }
    if p.InNotify? { OtherPcsNotify(m, p, t); }
  }

  lemma OtherPcsQueue(m: Machine, p: Pc, t: Task)
    requires Sound(m.c.ls) && p.InQueue? && (p.at.ToResume? ==> m.c.suspended > 0) && t != m.c.cur
    ensures PcOf(QueueStep(m, p), t) == PcOf(m, t)
  {
    hide Sound, QueueTop, QueueCheck, QueuePlace, QueueResume, UnlockSide, MustBlock, WokenOf, Left, QueueOf;
    UnlockCur(m.c);
    match p.at
    case AtTop => TopPcs(m, p, t);
    case ToCheck => CheckPcs(m, p, t);
    case ToPlace => PlacePcs(m, p, t);
    case ToResume(a) => ResumePcs(m, p, t);
    case _ =>
  }

  lemma TopPcs(m: Machine, p: Pc, t: Task)
    requires p.InQueue? && t != m.c.cur
    ensures PcOf(QueueTop(m, p), t) == PcOf(m, t)
  {
    hide Attempt, CanGo, WokenOf, Left;
  }

  lemma CheckPcs(m: Machine, p: Pc, t: Task)
    requires p.InQueue? && t != m.c.cur
    ensures PcOf(QueueCheck(m, p), t) == PcOf(m, t)
  {
    hide CheckForTimeOut;
  }

  lemma PlacePcs(m: Machine, p: Pc, t: Task)
    requires p.InQueue? && t != m.c.cur
    ensures PcOf(QueuePlace(m, p), t) == PcOf(m, t)
  {
    hide DelayCurrent, AddSorted;
    DelayCurrentFrame(Enlist(m.c, Wait(p.q, SideOf(p.op))), p.wait, true);
  }

  lemma ResumePcs(m: Machine, p: Pc, t: Task)
    requires p.InQueue? && p.at.ToResume? && Sound(m.c.ls) && m.c.suspended > 0 && t != m.c.cur
    ensures PcOf(QueueResume(m, p), t) == PcOf(m, t)
  {
    hide Sound, ResumeAll;
  }

  lemma OtherPcsDelay(m: Machine, p: Pc, t: Task)
    requires Sound(m.c.ls) && p.InDelay? && (p.dAt.DResume? ==> m.c.suspended > 0) && t != m.c.cur
    ensures PcOf(DelayStep(m, p), t) == PcOf(m, t)
  {
    hide Sound, ResumeAll, DelayCurrent, DelayTicks, ResumeAll;
    match p.dAt
    case DAdd => DelayCurrentFrame(m.c, DelayTicks(m.c, p.d), false);
    case _ =>
  }

  lemma OtherPcsNotify(m: Machine, p: Pc, t: Task)
    requires Sound(m.c.ls) && p.InNotify? && (p.nAt.NResume? ==> m.c.suspended > 0) && t != m.c.cur
    ensures PcOf(NotifyStep(m, p), t) == PcOf(m, t)
  {
    hide Sound, ResumeAll, DelayCurrent, NothingYet, MarkWaiting, Consume;
    match p.nAt
    case NMark => RecordCur(m.c, p.k);
    case NAdd => DelayCurrentFrame(m.c, p.nWait, true);
    case NFinal => RecordCur(m.c, p.k);
    case _ =>
  }

  lemma RecordCur(c: Core, k: NotifyWait)
    ensures MarkWaiting(c, k).cur == c.cur && Consume(c, k).cur == c.cur
  {
    hide NothingYet;
  }

  lemma UnlockCur(c: Core)
    ensures forall q, s :: UnlockSide(c, q, s).cur == c.cur
  {
    hide WakeMany;
    forall q, s ensures UnlockSide(c, q, s).cur == c.cur {
      var n := LockOf(QueueOf(c, q), s);
      WakeManyCur(c, Wait(q, s), if n > 0 then n else 0);
    }
  }

  lemma {:induction false} WakeManyCur(c: Core, l: ListId, n: nat)
    ensures WakeMany(c, l, n).cur == c.cur
    decreases n
  {
    hide RemoveFromEventList, IsEmpty;
    if n > 0 && !IsEmpty(c.ls, l) {
      RemoveFromEventListFrame(c, l);
      var r := RemoveFromEventList(c, l);
      WakeManyCur(r.0.(yieldPending := r.0.yieldPending || r.1), l, n - 1);
    }
  }

  lemma DozeKept(m: Machine, s: Step, t: Task)
    requires Inv(m) && Enabled(m, s) && Delayed(m.c, t) && Doze(PcOf(m, t)) && Sound(m.c.ls) && CanResume(m)
    ensures Doze(PcOf(Apply(m, s), t))
  {
    hide Apply, PriorityOk, QueuesOk, Home, EventHome, Sound, Clocked, TaskPcOk, Enabled, Holding;
    InPrio(m.c, t);
    if t != m.c.cur {
      NotCreated(m, s, t);
      OtherPcs(m, s, t);
    } else {
      assert Away(PcOf(m, t), t);
      OwnDoze(m, s);
    }
  }

  lemma NotCreated(m: Machine, s: Step, t: Task)
    requires Enabled(m, s) && t in m.c.prio
    ensures s.CallCreate? ==> s.t != t
  {}

  lemma OwnDoze(m: Machine, s: Step)
    requires Sound(m.c.ls) && CanResume(m) && Enabled(m, s) && Doze(PcOf(m, m.c.cur)) && Away(PcOf(m, m.c.cur), m.c.cur)
    ensures Doze(PcOf(Apply(m, s), m.c.cur))
  {
    hide Sound, CallAllowed, SendFromISR, ReceiveFromISR, NotifyFromISR, ResumeFromISR, SwitchContext, ResumeAll,
         IncrementTick, QueueStep, NotifyStep;
  }

  lemma {:induction false} NowGrows(m: Machine, ss: seq<Step>)
    requires Inv(m) && Possible(m, ss) && m.c.pended < TWO_32
    ensures Now(Exec(m, ss).c) >= Now(m.c) && Exec(m, ss).c.pended < TWO_32
    decreases |ss|
  {
    hide Inv, Apply, Enabled, AllSleep, PendedWraps, Now;
    if ss != [] {
      StepKeeps(m, ss[0]);
      StepTime(m, ss[0]);
      NowGrows(Apply(m, ss[0]), ss[1..]);
    }
  }

  ghost predicate Dozing(m: Machine, t: Task, due: nat) {
    Delayed(m.c, t) && Deadline(m.c, t) == due && Doze(PcOf(m, t))
  }

  lemma DozeStep(m: Machine, s: Step, t: Task, due: nat)
    requires Inv(m) && Enabled(m, s) && m.c.pended < TWO_32 && Dozing(m, t, due) && s != CallSuspend(t)
    ensures Sound(m.c.ls) && CanResume(m)
    ensures Now(Apply(m, s).c) < due ==> Dozing(Apply(m, s), t, due)
    ensures Now(Apply(m, s).c) >= due ==> Home(Apply(m, s).c.ls, t) == On(Lists.Ready(Prio(m.c, t)))
    ensures Apply(m, s).c.pended < TWO_32 && Inv(Apply(m, s))
  {
    hide Inv, Apply, Enabled, Sound, CanResume, Home, EventHome, Doze, Delayed, Deadline, Now, Early;
    StepKeeps(m, s);
    StepTime(m, s);
    DozeKept(m, s, t);
    DozeNotEarly(m, t);
    assert Sleeps(m.c, Apply(m, s).c, t);
  }

  /** A task in vTaskDelay or xTaskDelayUntil sleeps on, through any run that does not suspend it,
      until the clock reaches its deadline... */
  lemma {:induction false} SleepsUntilDue(m: Machine, ss: seq<Step>, t: Task, due: nat)
    requires Inv(m) && Possible(m, ss) && m.c.pended < TWO_32 && Dozing(m, t, due) && CallSuspend(t) !in ss
    ensures Now(Exec(m, ss).c) < due ==> Dozing(Exec(m, ss), t, due)
    decreases |ss|
  {
    hide Inv, Apply, Enabled, Sound, CanResume, Now, Dozing;
    if ss != [] {
      DozeStep(m, ss[0], t, due);
      if Now(Apply(m, ss[0]).c) < due {
        SleepsUntilDue(Apply(m, ss[0]), ss[1..], t, due);
      } else {
        NowGrows(Apply(m, ss[0]), ss[1..]);
      }
    }
  }

  /** ... and is made ready by the very step that takes it there. */
  lemma WakesWhenDue(m: Machine, ss: seq<Step>, s: Step, t: Task, due: nat)
    requires Inv(m) && Possible(m, ss) && m.c.pended < TWO_32 && Dozing(m, t, due) && CallSuspend(t) !in ss
    requires s != CallSuspend(t)
    requires Now(Exec(m, ss).c) < due && Enabled(Exec(m, ss), s)
    ensures var m1 := Exec(m, ss);
            Sound(m1.c.ls) && CanResume(m1) &&
            (Now(Apply(m1, s).c) >= due <==> Home(Apply(m1, s).c.ls, t) == On(Lists.Ready(Prio(m1.c, t))))
  {
    hide Inv, Apply, Enabled, Sound, CanResume, Home, EventHome, Now, Doze, Deadline, Possible, Exec;
    SleepsUntilDue(m, ss, t, due);
    NowGrows(m, ss);
    DozeStep(Exec(m, ss), s, t, due);
  }

  /* ----- from the start of the scheduler ----- */

  ghost predicate RunsFromStart(ps: seq<nat>, qs: map<QueueId, Queue>, ss: seq<Step>) {
    FreshQueues(qs) && (StartOk(ps, qs); Possible(Start(ps, qs), ss))
  }

  // The state that it starts in.
  ghost function Begun(ps: seq<nat>, qs: map<QueueId, Queue>, ss: seq<Step>): (m: Machine)
    requires RunsFromStart(ps, qs, ss)
    ensures Inv(m) && Possible(m, ss)
  {
    StartOk(ps, qs);
    Start(ps, qs)
  }

  // The state that a run from the start comes to.
  ghost function Reached(ps: seq<nat>, qs: map<QueueId, Queue>, ss: seq<Step>): (m: Machine)
    requires RunsFromStart(ps, qs, ss)
    ensures Inv(m)
  {
    Exec(Begun(ps, qs, ss), ss)
  }

  ghost function WrapsReached(ps: seq<nat>, qs: map<QueueId, Queue>, ss: seq<Step>): nat
    requires RunsFromStart(ps, qs, ss)
  {
    Wraps(Begun(ps, qs, ss), ss)
  }

  /** In every run from the start of the scheduler, with any tasks and queues created before it:
      the invariant holds, with all that follows from it; no wake-up is lost; and the clock and
      the pended ticks account for all ticks there have been. */
  lemma FromStart(ps: seq<nat>, qs: map<QueueId, Queue>, ss: seq<Step>, q: QueueId, d: Side)
    requires RunsFromStart(ps, qs, ss) && (d.Send? ==> CallReset(q) !in ss)
    ensures Inv(Reached(ps, qs, ss)) && NoneLost(Reached(ps, qs, ss), q, d)
    ensures Total(Reached(ps, qs, ss).c) + TWO_32 * WrapsReached(ps, qs, ss) == Reached(ps, qs, ss).ticks
  {
    hide Inv, NoneLost, Start, Possible, Exec, Wraps, Total;
    StartOk(ps, qs);
    StartTime(ps, qs);
    NoLostWakeup(Start(ps, qs), ss, q, d);
    TickConservation(Start(ps, qs), ss);
  }

  /** So in every run, once a queue is unlocked and all woken tasks have looked again, a task
      waiting to receive means that it is empty, and one waiting to send, if the run does not
      reset this queue, that it is full. */
  lemma WaitsInVain(ps: seq<nat>, qs: map<QueueId, Queue>, ss: seq<Step>, q: QueueId, d: Side, t: Task)
    requires RunsFromStart(ps, qs, ss) && (d.Send? ==> CallReset(q) !in ss)
    requires var m := Reached(ps, qs, ss);
             && q in m.c.queues && EventHome(m.c.ls, t) == On(Wait(q, d))
             && LockOf(m.c.queues[q], d) == UNLOCKED && WokenOf(m, Wait(q, d)) == {}
    ensures Available(Reached(ps, qs, ss).c.queues[q], d) <= 0
  {
    hide Inv, NoneLost, RunsFromStart, Reached, EventHome;
    FromStart(ps, qs, ss, q, d);
    InvVain(Reached(ps, qs, ss), q, d, t);
  }

  /** Priority safety: in every run, between any two steps with the scheduler not suspended and
      the running task not on its way to yielding, a yield is pending, or the running task is
      ready and no ready task has a higher priority. */
  lemma PrioritySafety(ps: seq<nat>, qs: map<QueueId, Queue>, ss: seq<Step>)
    requires RunsFromStart(ps, qs, ss)
    ensures var m := Reached(ps, qs, ss);
            !Away(PcOf(m, m.c.cur), m.c.cur) && !PcOf(m, m.c.cur).InCreate? ==> m.c.yieldPending || Settled(m.c)
  {
    hide Inv, RunsFromStart, Reached, Away;
    var m := Reached(ps, qs, ss);
    if !Away(PcOf(m, m.c.cur), m.c.cur) && !PcOf(m, m.c.cur).InCreate? { InvPriority(m); }
  }

  /** The locks: in every run, while a queue is locked its counts stay within the number of tasks,
      so with at most 127 tasks they never leave int8_t; and a queue is locked only from
      prvLockQueue to prvUnlockQueue of the running task. */
  lemma LocksFit(ps: seq<nat>, qs: map<QueueId, Queue>, ss: seq<Step>, q: QueueId, d: Side)
    requires RunsFromStart(ps, qs, ss) && q in Reached(ps, qs, ss).c.queues
    ensures var (m, lock) := (Reached(ps, qs, ss), LockOf(Reached(ps, qs, ss).c.queues[q], d));
            && (m.c.tasks <= 127 ==> -128 <= lock <= 127)
            && (lock != UNLOCKED <==> HoldsLock(PcOf(m, m.c.cur), q, d))
  {
    hide Inv, RunsFromStart, Reached;
    InvLocks(Reached(ps, qs, ss), q, d);
  }

  /** Task conservation: in every reachable state each created task's state item is on exactly
      one of the ready list of its priority, the delayed lists and the suspended list; the sizes
      of these lists add up to uxCurrentNumberOfTasks; its event item is on one list at most,
      and on a queue's only while the task is not ready; and the pending ready list is empty
      whenever the scheduler is not suspended. */
  lemma TaskConservation(ps: seq<nat>, qs: map<QueueId, Queue>, ss: seq<Step>)
    requires RunsFromStart(ps, qs, ss)
    ensures TasksConserved(Reached(ps, qs, ss).c)
  {
    hide Inv, RunsFromStart, Reached, TasksConserved;
    InvTasks(Reached(ps, qs, ss));
  }

  lemma StartTime(ps: seq<nat>, qs: map<QueueId, Queue>)
    ensures var m := Start(ps, qs); m.c.pended == 0 && Total(m.c) == 0 && m.ticks == 0
  {
    hide Created;
    CreatedReady(ps + [0]);
    hide Shaped, NoHigher, Home, EventHome;
  }
}

/** Inputs at which the code does not do what it is meant to do, one for each claim whose exact
    condition is stated elsewhere. */
module Examples {
  import opened Config
  import opened Rings
  import opened Lists
  import opened Kernel
  import opened Queues
  import opened Shape
  import opened Clock
  import opened Timeouts
  import opened Machine
  import opened Invariant
  import opened Setup
  import opened Runs
  import opened Timeline
  import opened Theorems
  import opened Ordering

  /* ----- two senders blocked on a full queue of two places ----- */

  // Task 0 runs, tasks 1 and 2 wait to send to queue 0 without a time-out, task 3 is the idle task.
  const Links := Store(
    map[Lists.Ready(3) := Ring([StateItem(0)], 0), Lists.Ready(0) := Ring([StateItem(3)], 0),
        Suspended := Ring([StateItem(1), StateItem(2)], 0),
        Wait(0, Side.Send) := Ring([EventItem(1), EventItem(2)], 0)],
    map[StateItem(0) := Lists.Ready(3), StateItem(3) := Lists.Ready(0),
        StateItem(1) := Suspended, StateItem(2) := Suspended,
        EventItem(1) := Wait(0, Side.Send), EventItem(2) := Wait(0, Side.Send)],
    map[EventItem(0) := 2, EventItem(1) := 3, EventItem(2) := 4, EventItem(3) := 5])

  const Data := Core(Links, map[0 := 3, 1 := 2, 2 := 1, 3 := 0],
                     map[0 := NotWaiting, 1 := NotWaiting, 2 := NotWaiting, 3 := NotWaiting],
                     map[0 := 0, 1 := 0, 2 := 0, 3 := 0],
                     0, 4, 3, 0, 0, 0, MAX_DELAY, false, 0, false, map[0 := Queue(2, 4, 2, UNLOCKED, UNLOCKED)])

  const Sending := InQueue(0, OpSend(Back), MAX_DELAY, true, TimeOut(0, 0), AtTop)
  const Full := Machine(Data, 3, map[0 := User, 1 := Sending, 2 := Sending, 3 := User], map[], 0)

  lemma LinksAre()
    ensures forall t :: Home(Links, t) ==
              if t == 0 then On(Lists.Ready(3)) else if t == 3 then On(Lists.Ready(0))
              else if t == 1 || t == 2 then On(Suspended) else Nowhere
    ensures forall t :: EventHome(Links, t) == if t == 1 || t == 2 then On(Wait(0, Side.Send)) else Nowhere
  {}

  lemma ItemsAre()
    ensures forall l: ListId :: ListOf(Links, l).items ==
              if l == Lists.Ready(3) then [StateItem(0)] else if l == Lists.Ready(0) then [StateItem(3)]
              else if l == Suspended then [StateItem(1), StateItem(2)]
              else if l == Wait(0, Side.Send) then [EventItem(1), EventItem(2)] else []
    ensures forall l :: l in Links.at ==> Links.at[l] == ListOf(Links, l)
  {}

  lemma LinksValid()
    ensures Valid(Links)
  {
    hide ListOf, In;
    ItemsAre();
    forall l, i ensures i in ListOf(Links, l).items <==> In(Links, i, l) { LinksHold(l, i); }
  }

  lemma LinksHold(l: ListId, i: Item)
    ensures i in ListOf(Links, l).items <==> In(Links, i, l)
  {
    hide ListOf, Home, EventHome;
    ItemsAre();
    LinksAre();
    match i
    case StateItem(t) => StateAt(Links, t);
    case EventItem(t) => EventAt(Links, t);
  }

  lemma LinksSound()
    ensures Sound(Links)
  {
    hide Valid, Home, EventHome;
    LinksValid();
    LinksAre();
  }

  lemma DataShaped()
    ensures Shaped(Data)
  {
    hide Sound, Home, EventHome;
    LinksSound();
    LinksAre();
    assert Data.prio.Keys == {0, 1, 2, 3};
    forall t ensures TaskOk(Data, t) {}
  }

  lemma NobodyDelayed(b: bool, i: Item, j: Item)
    ensures !Precedes(Links, Delay(b), i, j)
  {}

  lemma DataClocked()
    ensures Clocked(Data)
  {
    hide Home, Precedes, Val;
    LinksAre();
    forall b, i, j ensures !Precedes(Links, Delay(b), i, j) { NobodyDelayed(b, i, j); }
    assert TimeOrdered(Links, Delay(false)) && TimeOrdered(Links, Delay(true));
    hide TimeOrdered;
  }

  lemma FullPcs()
    ensures PcOk(Full)
  {
    hide Home, EventHome;
    LinksAre();
    forall t ensures TaskPcOk(Full, t) {}
  }

  lemma FullRest()
    ensures CoreOk(Data, 3) && PriorityOk(Full) && QueuesOk(Full)
  {
    hide Home, EventHome, Shaped, Clocked;
    DataShaped();
    DataClocked();
    LinksAre();
  }

  lemma FullInv()
    ensures Inv(Full)
  {
    hide CoreOk, PcOk, PriorityOk, QueuesOk;
    FullPcs();
    FullRest();
  }

  /** A wake-up lost: with two senders blocked on a full queue of two places, a reset frees both
      places and wakes one sender; the other sleeps on beside a free place. */
  lemma ResetLosesWakeup()
    ensures Inv(Full) && NoneLost(Full, 0, Side.Send) && Enabled(Full, CallReset(0))
    ensures Sound(Data.ls) && CanResume(Full)
    ensures !NoneLost(Apply(Full, CallReset(0)), 0, Side.Send)
  {
    hide Inv, Sound, CanResume, Home, EventHome, Wanted, Reset, NoneLost;
    FullInv();
    Runs.Ready(Full);
    FullCovered();
    FullWaiters();
    ResetSenders(Full, 0);
  }

  lemma FullCovered()
    ensures NoneLost(Full, 0, Side.Send)
  {
    hide EventHome, Wanted;
  }

  lemma FullWaiters()
    ensures |Waiters(Data, Wait(0, Side.Send))| == 2
  {
    hide EventHome;
    LinksAre();
    assert Waiters(Data, Wait(0, Side.Send)) == {1, 2};
  }

  /** A list out of order: of two tasks waiting in order of priority the second is raised above the
      first, which is still at the head and the one the next wake-up takes. */
  lemma RaisedTaskPassedOver()
    ensures Inv(Full) && OrderOk(Data) && Enabled(Full, CallPrioritySet(2, 3)) && Sound(Data.ls) && CanResume(Full)
    ensures var (c, l) := (Apply(Full, CallPrioritySet(2, 3)).c, Wait(0, Side.Send));
            && !IsEmpty(c.ls, l) && Head(c.ls, l) == EventItem(1)
            && Listed(c, 2, l) && Prio(c, 2) == 3 > Prio(c, 1) == 2
  {
    hide Inv, Sound, CanResume, OrderOk, Listed;
    FullInv();
    Runs.Ready(Full);
    DataInOrder();
    Raised();
  }

  lemma DataInOrder()
    ensures OrderOk(Data)
  {
    hide Precedes;
    forall l: ListId, t, u | l.Wait? && Before(Data, l, t, u) ensures Prio(Data, t) >= Prio(Data, u) {
      DataBefore(l, t, u);
    }
  }

  lemma DataBefore(l: ListId, t: Task, u: Task)
    requires Before(Data, l, t, u) && l.Wait?
    ensures t == 1 && u == 2
  {
    ItemsAre();
  }

  lemma Raised()
    ensures var (c, l) := (PrioritySet(Data, 2, 3), Wait(0, Side.Send));
            && c.ls.at == Links.at && c.ls.box == Links.box && Listed(c, 2, l) && Prio(c, 2) == 3 && Prio(c, 1) == 2
  {}

  /* ----- time ----- */

  /** An expiry missed: a wait of 0x9000_0000 ticks from time 0x8000_0000, checked at time 2^33. */
  lemma MissedExpiry(c: Core)
    requires c.tick == 0 && c.overflows == 2
    ensures var (s, wait) := (0x8000_0000, 0x9000_0000);
            s <= Now(c) && Blind(c, s, wait) && Now(c) - s >= wait && !CheckForTimeOut(c, SnapshotOf(s), wait).0
  {
    TimeOutExactIff(c, 0x8000_0000, 0x9000_0000);
  }

  const LosingTicks := [CallSuspendAll, CallCatchUp(0xFFFF_FFFF), TickInterrupt]

  /** Ticks lost: a task suspends the scheduler and catches up 2^32 - 1 ticks; the next tick
      interrupt wraps xPendedTicks, and all 2^32 ticks are gone. */
  lemma PendedTicksLost(m: Machine)
    requires Inv(m) && PcOf(m, m.c.cur).User? && m.c.cur != m.idle && m.c.suspended == 0 && m.c.pended == 0
    ensures Possible(m, LosingTicks) && Theorems.Wraps(m, LosingTicks) == 1
    ensures Exec(m, LosingTicks).ticks == m.ticks + TWO_32 && Total(Exec(m, LosingTicks).c) == Total(m.c)
  {
    hide Inv, Total, IncrementTick, SwitchContext, Sound, CanResume;
    var (s1, s2) := (CallSuspendAll, CallCatchUp(0xFFFF_FFFF));
    StepKeeps(m, s1);
    var m1 := Apply(m, s1);
    StepKeeps(m1, s2);
    var m2 := Apply(m1, s2);
    StepKeeps(m2, TickInterrupt);
    assert LosingTicks[1..] == [s2, TickInterrupt] && LosingTicks[1..][1..] == [TickInterrupt];
    TickConservation(m, LosingTicks);
  }

  // The running task of the machine above is one that can do so.
  lemma FullLosesTicks()
    ensures Inv(Full) && Possible(Full, LosingTicks)
    ensures Total(Exec(Full, LosingTicks).c) + TWO_32 == Exec(Full, LosingTicks).ticks
  {
    hide Inv, Possible, Exec;
    FullInv();
    PendedTicksLost(Full);
  }
}

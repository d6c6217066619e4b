/** Direct-to-task notifications: what a notification delivers, and to whom. */
module Notices {
  import opened Lists
  import opened Kernel
  import opened Shape
  import opened Machine
  import opened CoreSteps

  // Task t has received the notification, and no other task's record has changed.
  ghost predicate Delivered(c: Core, c': Core, t: Task, a: NotifyAction)
    requires t in c.notify && t in c.value
  {
    && c'.notify == c.notify[t := Received]
    && c'.value == c.value[t := NotifiedValue(c.value[t], c.notify[t], a)]
  }

  lemma Received1Delivers(c: Core, t: Task, a: NotifyAction)
    requires t in c.notify && t in c.value
    ensures Delivered(c, Received1(c, t, a), t, a)
  {}

  /** xTaskGenericNotify delivers, and makes a task that awaits it ready at once. */
  lemma NotifyDelivers(c: Core, t: Task, a: NotifyAction)
    requires Shaped(c) && t in c.prio && (AwaitsNotify(c, t) ==> EventHome(c.ls, t).Nowhere?)
    ensures t in c.notify && t in c.value && Delivered(c, Notify(c, t, a), t, a)
    ensures AwaitsNotify(c, t) ==> OnReady(Home(Notify(c, t, a).ls, t))
    ensures !AwaitsNotify(c, t) ==> Notify(c, t, a).ls == c.ls
  {
    hide Sound, TaskOk, Home, EventHome, MakeReady, SwitchContext, Received1, Wakes;
    var c1 := Received1(c, t, a);
    Received1Delivers(c, t, a);
    Received1Smooth(c, t, a);
    if AwaitsNotify(c, t) {
      SmoothSelf(c, c);
      var c2 := MakeReady(c1, t);
      MakeReadySmooth(c, c1, t);
      MakeReadyFrame(c1, t);
      SwitchSmooth(c2, t);
      SwitchContextFacts(c2);
      SwitchKeepsRecords(c2);
    }
  }

  lemma SwitchKeepsRecords(c: Core)
    ensures SwitchContext(c).notify == c.notify && SwitchContext(c).value == c.value
  {
    hide AdvanceIn;
  }

  /** xTaskGenericNotifyFromISR delivers, and makes a task that awaits it ready, or sends it to
      the pending ready list while the scheduler is suspended. */
  lemma NotifyFromISRDelivers(c: Core, t: Task, a: NotifyAction)
    requires Shaped(c) && t in c.prio && (AwaitsNotify(c, t) ==> EventHome(c.ls, t).Nowhere?)
    ensures t in c.notify && t in c.value && Delivered(c, NotifyFromISR(c, t, a), t, a)
    ensures AwaitsNotify(c, t) ==>
              var c' := NotifyFromISR(c, t, a);
              if c.suspended == 0 then OnReady(Home(c'.ls, t))
              else EventHome(c'.ls, t) == On(Pending) && Home(c'.ls, t) == Home(c.ls, t)
    ensures !AwaitsNotify(c, t) ==> NotifyFromISR(c, t, a).ls == c.ls
  {
    hide Shaped, Delivered, Home, EventHome, MakeReady, Received1, AddEnd, Smooth;
    var c1 := Received1(c, t, a);
    Recorded(c, t);
    Received1Delivers(c, t, a);
    Received1Smooth(c, t, a);
    NotifyISRRecord(c, t, a);
    if AwaitsNotify(c, t) {
      Received1Same(c, t, a);
      if c.suspended == 0 {
        MakeReadySmooth(c, c1, t);
      } else {
        PendedFacts(c, t);
      }
    }
  }

  lemma Recorded(c: Core, t: Task)
    requires Shaped(c) && t in c.prio
    ensures t in c.notify && t in c.value
  {
    hide Sound, TaskOk;
  }

  // Waking the task does not touch its record again.
  lemma NotifyISRRecord(c: Core, t: Task, a: NotifyAction)
    requires t in c.notify && t in c.value && Delivered(c, Received1(c, t, a), t, a)
    ensures Delivered(c, NotifyFromISR(c, t, a), t, a)
  {
    hide MakeReady, Received1, AddEnd;
    MakeReadyFrame(Received1(c, t, a), t);
  }

  lemma PendedFacts(c: Core, t: Task)
    requires Shaped(c) && EventHome(c.ls, t).Nowhere?
    ensures var s := AddEnd(c.ls, Pending, EventItem(t)); EventHome(s, t) == On(Pending) && Home(s, t) == Home(c.ls, t)
  {
    hide TaskOk, Valid, AddEnd, ListOf, OrderKept, Home, EventHome;
    EventAt(c.ls, t);
    ShapedValid(c);
    AddEndFacts(c.ls, Pending, EventItem(t));
  }

  lemma ShapedValid(c: Core)
    requires Shaped(c)
    ensures Valid(c.ls)
  {
    hide TaskOk, Valid;
  }

  /** A notification given to any task and taken when that task next runs leaves the count of
      notifications as it was, if and only if giving it did not wrap the count. */
  lemma GiveThenTake(c: Core, t: Task)
    requires t in c.notify && t in c.value
    ensures var c' := Consume(Received1(c, t, Increment).(cur := t), Take(false));
            && c'.notify == c.notify[t := NotWaiting]
            && (c'.value == c.value <==> c.value[t] != 0xFFFF_FFFF)
  {
    var v := c.value[t];
    assert v == 0xFFFF_FFFF <==> v + 1 == 0;
  }
}

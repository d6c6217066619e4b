/** The state in which vTaskStartScheduler hands over to the first task. */
module Boot {
  import opened Config
  import opened Lists
  import opened Kernel
  import opened Shape
  import opened Clock
  import opened Priority
  import opened Machine
  import opened Invariant

  // All kernel variables zeroed, prvInitialiseTaskLists done.
  function Blank(): Core {
    Core(Store(map[], map[], map[]), map[], map[], map[], 0, 0, 0, 0, 0, 0, MAX_DELAY, false, 0, false, map[])
  }

  // Before the scheduler runs, a new task becomes the current one if it is the first, or its
  // priority is no lower.
  function CreateBefore(c: Core, t: Task, p: nat): Core {
    var c' := CreateTask(c, t, p);
    c'.(cur := if c.tasks == 0 || Prio(c', c.cur) <= Prio(c', t) then t else c.cur)
  }

  // Tasks 0, 1, ... created in this order with these priorities.
  function Created(ps: seq<nat>): Core {
    if ps == [] then Blank() else CreateBefore(Created(ps[..|ps| - 1]), |ps| - 1, ps[|ps| - 1])
  }

  ghost predicate FreshQueues(qs: map<QueueId, Queue>) {
    forall q :: q in qs ==> qs[q].length > 0 && qs[q].count == 0 && qs[q].rxLock == UNLOCKED && qs[q].txLock == UNLOCKED
  }

  /* The application has created tasks with priorities ps and queues qs; the idle task, of
     priority zero, is created last. */
  function Start(ps: seq<nat>, qs: map<QueueId, Queue>): Machine {
    var c := Created(ps + [0]);
    Machine(c.(queues := qs), |ps|, map t | t in c.prio :: User, map[], 0)
  }

  // n tasks have been created, all are ready, and the last of highest priority is current.
  ghost predicate AllReady(c: Core, n: nat) {
    && n > 0 && Shaped(c) && c.tasks == n
    && (forall t: Task :: t < n <==> t in c.prio)
    && (forall t :: t in c.prio ==> OnReady(Home(c.ls, t)))
    && (forall t :: EventHome(c.ls, t).Nowhere?)
    && (forall t :: t in c.notify ==> c.notify[t] == NotWaiting)
    && c.suspended == 0 && c.pended == 0 && c.tick == 0 && c.overflows == 0 && c.nextUnblock == MAX_DELAY
    && !c.yieldPending
    && NoHigher(c)
  }

  lemma {:induction false} CreatedReady(ps: seq<nat>)
    requires ps != []
    ensures AllReady(Created(ps), |ps|)
  {
    hide AllReady, CreateBefore;
    if |ps| == 1 {
      assert ps[..0] == [];
      FirstReady(ps[0]);
    } else {
      CreatedReady(ps[..|ps| - 1]);
      NextReady(Created(ps[..|ps| - 1]), |ps| - 1, ps[|ps| - 1]);
    }
  }

  lemma FirstReady(p: nat)
    ensures AllReady(CreateBefore(Blank(), 0, p), 1)
  {
    hide Shaped, Home, EventHome, AddEnd, SetVal;
    FirstShaped(p);
    var q := if p >= MAX_PRIORITIES then MAX_PRIORITIES - 1 else p;
    FirstLists(q);
  }

  lemma FirstShaped(p: nat)
    ensures Shaped(CreateBefore(Blank(), 0, p)) && CreateBefore(Blank(), 0, p).notify == map[0 := NotWaiting]
    ensures CreateBefore(Blank(), 0, p).prio.Keys == {0}
  {
    hide Sound, Home, EventHome, AddEnd, SetVal;
    var c' := CreateBefore(Blank(), 0, p);
    var q := if p >= MAX_PRIORITIES then MAX_PRIORITIES - 1 else p;
    FirstLists(q);
    assert c'.prio == map[0 := q];
    assert c'.ls == AddEnd(SetVal(Blank().ls, EventItem(0), MAX_PRIORITIES - q), Lists.Ready(q), StateItem(0));
    forall t ensures TaskOk(c', t) {}
  }

  lemma FirstLists(p: nat)
    requires p < MAX_PRIORITIES
    ensures var s := AddEnd(SetVal(Blank().ls, EventItem(0), MAX_PRIORITIES - p), Lists.Ready(p), StateItem(0));
            Sound(s) && (forall t :: Home(s, t) == if t == 0 then On(Lists.Ready(p)) else Nowhere)
            && (forall t :: EventHome(s, t).Nowhere?)
  {
    hide Valid, AddEnd, ListOf, Home, EventHome, Precedes;
    BlankLists(MAX_PRIORITIES - p);
    AddEndFacts(SetVal(Blank().ls, EventItem(0), MAX_PRIORITIES - p), Lists.Ready(p), StateItem(0));
  }

  lemma BlankLists(v: nat)
    ensures var s := SetVal(Blank().ls, EventItem(0), v);
            Valid(s) && (forall t :: Home(s, t).Nowhere? && EventHome(s, t).Nowhere?) && At(s, StateItem(0)).Nowhere?
  {}

  lemma NextReady(c: Core, n: nat, p: nat)
    requires AllReady(c, n)
    ensures AllReady(CreateBefore(c, n, p), n + 1)
  {
    hide Shaped, CreateTask, Home, EventHome, OrderKept, Prio;
    var c1 := CreateTask(c, n, p);
    CreateTaskShaped(c, n, p);
    CreateFrame(c, n, p);
    ShapedTasks(c);
    ShapedTasks(c1);
    PrioSame(c1, CreateBefore(c, n, p));
    CurChange(c1, CreateBefore(c, n, p));
  }

  lemma ShapedTasks(c: Core)
    requires Shaped(c)
    ensures c.cur in c.prio && c.notify.Keys == c.prio.Keys
  {
    hide Sound, TaskOk;
  }

  lemma PrioSame(c: Core, c': Core)
    requires c'.prio == c.prio
    ensures forall t :: Prio(c', t) == Prio(c, t)
  {}

  lemma CreateFrame(c: Core, t: Task, p: nat)
    ensures var c' := CreateTask(c, t, p);
            && c'.prio.Keys == c.prio.Keys + {t} && c'.tasks == c.tasks + 1 && c'.cur == c.cur
            && (forall u :: u != t ==> Prio(c', u) == Prio(c, u))
            && c'.notify == c.notify[t := NotWaiting]
            && c'.suspended == c.suspended && c'.pended == c.pended && c'.tick == c.tick && c'.overflows == c.overflows
            && c'.nextUnblock == c.nextUnblock && c'.yieldPending == c.yieldPending
  {
    hide AddEnd, SetVal;
  }

  lemma CurChange(c: Core, c': Core)
    requires Shaped(c) && c' == c.(cur := c'.cur) && c'.cur in c.prio
    ensures Shaped(c')
  {
    hide Sound, Home, EventHome;
    forall t ensures TaskOk(c', t) { assert TaskOk(c, t); }
  }

  /** The scheduler starts in a state that satisfies the invariant, with no wake-up lost. */
  lemma StartOk(ps: seq<nat>, qs: map<QueueId, Queue>)
    requires FreshQueues(qs)
    ensures Inv(Start(ps, qs)) && forall q, s :: NoneLost(Start(ps, qs), q, s)
  {
    hide AllReady, Created, Inv, NoneLost;
    CreatedReady(ps + [0]);
    StartInv(Start(ps, qs), Created(ps + [0]), |ps|, qs);
    forall q, s ensures NoneLost(Start(ps, qs), q, s) {
      StartNoneLost(Start(ps, qs), Created(ps + [0]), |ps|, qs, q, s);
    }
  }

  ghost predicate Starts(m: Machine, c: Core, n: nat, qs: map<QueueId, Queue>) {
    AllReady(c, n + 1) && FreshQueues(qs) && m == Machine(c.(queues := qs), n, map t | t in c.prio :: User, map[], 0)
  }

  lemma StartInv(m: Machine, c: Core, n: nat, qs: map<QueueId, Queue>)
    requires Starts(m, c, n, qs)
    ensures Inv(m)
  {
    hide Sound, Home, EventHome, Clocked, FreshQueues;
    assert c.cur in c.prio && n in c.prio;
    QueuesShaped(c, qs);
    StartClocked(c, qs, n + 1);
    StartQueues(m, c, n, qs);
    forall t ensures TaskPcOk(m, t) { assert EventHome(c.ls, t).Nowhere?; }
    assert forall t :: OnReady(Home(m.c.ls, t)) ==> Prio(m.c, t) == Prio(c, t);
  }

  lemma QueuesShaped(c: Core, qs: map<QueueId, Queue>)
    requires Shaped(c)
    ensures Shaped(c.(queues := qs))
  {
    hide Sound, Home, EventHome;
    forall t ensures TaskOk(c.(queues := qs), t) { assert TaskOk(c, t); }
  }

  lemma StartClocked(c: Core, qs: map<QueueId, Queue>, n: nat)
    requires AllReady(c, n)
    ensures Clocked(c.(queues := qs))
  {
    hide EventHome, Val, Home, Precedes, Sound;
    NoneDelayed(c, n);
  }

  lemma NoneDelayed(c: Core, n: nat)
    requires AllReady(c, n)
    ensures forall t, b :: Home(c.ls, t) != On(Delay(b))
    ensures forall b, t, u :: !Precedes(c.ls, Delay(b), StateItem(t), StateItem(u))
  {
    hide EventHome, Home, Precedes, Valid;
    forall t, b ensures Home(c.ls, t) != On(Delay(b)) { assert TaskOk(c, t); }
    forall b, t, u ensures !Precedes(c.ls, Delay(b), StateItem(t), StateItem(u)) {
      if Precedes(c.ls, Delay(b), StateItem(t), StateItem(u)) {
        PrecedesOn(c.ls, Delay(b), StateItem(t), StateItem(u));
        StateAt(c.ls, t);
      }
    }
  }

  lemma StartQueues(m: Machine, c: Core, n: nat, qs: map<QueueId, Queue>)
    requires Starts(m, c, n, qs) && c.cur in c.prio
    ensures QueuesOk(m)
  {
    hide Shaped, Home, EventHome, NoHigher;
    forall q, s ensures LockOk(m, q, s) {}
  }

  lemma StartNoneLost(m: Machine, c: Core, n: nat, qs: map<QueueId, Queue>, q: QueueId, s: Side)
    requires Starts(m, c, n, qs)
    ensures NoneLost(m, q, s)
  {
    hide Shaped, Home, EventHome, NoHigher;
    forall t ensures EventHome(m.c.ls, t) != On(Wait(q, s)) { assert EventHome(c.ls, t).Nowhere?; }
  }
}

/** What each step does to a queue's count, over whole runs: a queue never holds more messages
    than its length, but for one documented misuse. */
module Counting {
  import opened Lists
  import opened Kernel
  import opened Queues
  import opened Shape
  import opened Clock
  import opened Priority
  import opened Machine
  import opened Invariant
  import opened CoreSteps
  import opened Steps
  import opened Blocking
  import opened Runs
  import opened Timeline
  import opened Theorems

  /* What a step does with a queue's messages: one is put in, one is got out, all are dropped. */
  datatype QueueEvent = Put(pos: Position) | Got | Cleared | Quiet

  // What a task's next step does with the messages of queue q, whose record is d.
  function CallEvent(d: Queue, p: Pc, q: QueueId): QueueEvent {
    if p.InQueue? && p.q == q && p.at.AtTop? && CanGo(d, p.op) then
      match p.op
      case OpSend(pos) => Put(pos)
      case OpReceive => Got
      case OpPeek => Quiet
    else Quiet
  }

  function EventOf(m: Machine, s: Step, q: QueueId): QueueEvent {
    var d := QueueOf(m.c, q);
    match s
    case IsrSend(k, pos) => if k == q && HasRoom(d, pos) then Put(pos) else Quiet
    case IsrReceive(k) => if k == q && d.count > 0 then Got else Quiet
    case Continue => CallEvent(d, PcOf(m, m.c.cur), q)
    case CallReset(k) => if k == q then Cleared else Quiet
    case CallCreateQueue(k, _, _) => if k == q then Cleared else Quiet
    case _ => Quiet
  }

  function CountAfter(d: Queue, e: QueueEvent): int {
    match e
    case Put(pos) => CountAfterCopy(d, pos)
    case Got => d.count - 1
    case Cleared => 0
    case Quiet => d.count
  }

  // Queue q stays, and its count changes by event e; or it is new and empty.
  ghost predicate Counts(c: Core, c': Core, q: QueueId, e: QueueEvent) {
    if q in c.queues then
      && q in c'.queues && c'.queues[q].length == c.queues[q].length && c'.queues[q].itemSize == c.queues[q].itemSize
      && c'.queues[q].count == CountAfter(c.queues[q], e)
    else q in c'.queues ==> c'.queues[q].count == 0 && e == Cleared
  }

  lemma StillCounts(c: Core, c': Core, q: QueueId)
    requires c'.queues == c.queues
    ensures Counts(c, c', q, Quiet)
  {}

  // One queue's record changes.
  lemma OneCounts(c: Core, c': Core, k: QueueId, d: Queue, q: QueueId, e: QueueEvent)
    requires c'.queues == c.queues[k := d]
    requires if k != q then e == Quiet
             else if q !in c.queues then d.count == 0 && e == Cleared
             else d.length == c.queues[q].length && d.itemSize == c.queues[q].itemSize
                  && d.count == CountAfter(c.queues[q], e)
    ensures Counts(c, c', q, e)
  {}

  lemma HeadCounts(m: Machine, p: Pc, q: QueueId)
    requires Inv(m) && PcOf(m, m.c.cur) == p && p.InQueue? && p.at.AtTop? && p.q in m.c.queues
    ensures Counts(m.c, QueueTop(m, p).c, q, CallEvent(QueueOf(m.c, q), p, q))
  {
    hide EventHome, Home, PcOk, PriorityOk, QueuesOk, Clocked, Shaped, Smooth, Attempt, Counts, CountAfterCopy;
    if CanGo(QueueOf(m.c, p.q), p.op) {
      AttemptSmooth(m.c, p.q, p.op, m.idle);
      OneCounts(m.c, Attempt(m.c, p.q, p.op), p.q, AfterAttempt(m.c.queues[p.q], p.op), q,
                CallEvent(QueueOf(m.c, q), p, q));
    } else {
      StillCounts(m.c, m.c, q);
    }
  }

  // The record changes in its locks only.
  lemma LockCounts(c: Core, k: QueueId, s: Side, q: QueueId)
    requires Shaped(c) && k in c.queues
    ensures Counts(c, LockQueue(c, k), q, Quiet) && Counts(c, UnlockSide(c, k, s), q, Quiet)
  {
    hide Shaped, Counts, UnlockSide, Smooth;
    UnlockSmooth(c, k, s);
    OneCounts(c, UnlockSide(c, k, s), k, SetLock(c.queues[k], s, UNLOCKED), q, Quiet);
    OneCounts(c, LockQueue(c, k), k, LockQueue(c, k).queues[k], q, Quiet);
  }

  lemma QueueCounts(m: Machine, p: Pc, q: QueueId)
    requires Inv(m) && PcOf(m, m.c.cur) == p && p.InQueue?
    ensures Sound(m.c.ls) && (p.at.ToResume? ==> m.c.suspended > 0)
    ensures Counts(m.c, QueueStep(m, p).c, q, CallEvent(QueueOf(m.c, q), p, q))
  {
    hide EventHome, Home, PriorityOk, QueuesOk, Clocked, Shaped, Sound, Counts, QueueTop, QueueOf, UnlockSide,
         LockQueue, DelayCurrent, AddSorted, CheckForTimeOut, MustBlock, ResumeAll, TaskOk, CanGo, OverwriteOk;
    CoreShaped(m.c, m.idle);
    assert TaskPcOk(m, m.c.cur);
    var c := m.c;
    match p.at
    case AtTop => HeadCounts(m, p, q);
    case ToLock => LockCounts(c, p.q, Recv, q);
    case ToPlace =>
      DelayCurrentFrame(Enlist(c, Wait(p.q, SideOf(p.op))), p.wait, true);
      StillCounts(c, QueuePlace(m, p).c, q);
    case ToUnlockTx(a) => LockCounts(c, p.q, Recv, q);
    case ToUnlockRx(a) => LockCounts(c, p.q, Side.Send, q);
    case ToResume(a) =>
      ResumeAllCore(c, m.idle);
      StillCounts(c, ResumeAll(c).0, q);
    case ToSuspend => StillCounts(c, SuspendAll(c), q);
    case _ => StillCounts(c, c, q);
  }

  // A step in a delay, a notification wait, a suspension, a creation or a yield.
  lemma QuietGo(m: Machine)
    requires Inv(m) && Enabled(m, Continue) && !PcOf(m, m.c.cur).InQueue?
    ensures Sound(m.c.ls) && CanResume(m) && Go(m).c.queues == m.c.queues
  {
    hide EventHome, Home, QueuesOk, Clocked, Shaped, Sound, DelayStep, NotifyStep, SwitchContext, ResetNext, CurOk,
         HighOk, TaskPcOk, Smooth, QueueStep;
    CoreShaped(m.c, m.idle);
    Runs.Ready(m);
    var p := PcOf(m, m.c.cur);
    match p
    case Yielding(next) => SwitchSmooth(m.c, m.idle);
    case InDelay(d, at) => QuietDelay(m, p);
    case InNotify(_, _, _, _) => QuietNotify(m, p);
    case InSuspend(t) => ResetNextFrame(m.c);
    case InCreate(t) => CreatedYield(m.c, t, m.idle);
  }

  lemma QuietDelay(m: Machine, p: Pc)
    requires Inv(m) && p.InDelay? && Sound(m.c.ls) && (p.dAt.DResume? ==> m.c.suspended > 0)
    ensures DelayStep(m, p).c.queues == m.c.queues
  {
    hide EventHome, Home, QueuesOk, PcOk, PriorityOk, Clocked, Shaped, Sound, DelayCurrent, DelayTicks, ResumeAll;
    match p.dAt
    case DAdd => DelayCurrentFrame(m.c, DelayTicks(m.c, p.d), false);
    case DResume => ResumeAllCore(m.c, m.idle);
    case _ =>
  }

  lemma QuietNotify(m: Machine, p: Pc)
    requires Inv(m) && p.InNotify? && Sound(m.c.ls) && (p.nAt.NResume? ==> m.c.suspended > 0)
    ensures NotifyStep(m, p).c.queues == m.c.queues
  {
    hide EventHome, Home, QueuesOk, PcOk, PriorityOk, Clocked, Shaped, Sound, DelayCurrent, NothingYet, ResumeAll;
    match p.nAt
    case NAdd => DelayCurrentFrame(m.c, p.nWait, true);
    case NResume => ResumeAllCore(m.c, m.idle);
    case _ =>
  }

  lemma QuietTaskOp(m: Machine, s: Step)
    requires Inv(m) && Enabled(m, s) && OnTask(s)
    ensures TaskOp(m.c, s).queues == m.c.queues
  {
    hide EventHome, Home, QueuesOk, PriorityOk, Clocked, Shaped, CurOk, PriorityChange, Notify, ResumeTask,
         PrioritySet, RemoveItem, AddEnd, SetVal;
    match s
    case CallResume(t) => ResumeTaskSmooth(m.c, t);
    case CallPrioritySet(t, p) => PrioritySetCore(m.c, t, p, m.idle);
    case CallNotifyOther(t, a) =>
      assert TaskPcOk(m, t);
      NotifySmooth(m.c, t, a);
    case _ =>
  }

  lemma CallCounts(m: Machine, s: Step, q: QueueId)
    requires Inv(m) && Enabled(m, s) && IsCall(s) && Sound(m.c.ls) && CanResume(m)
    ensures Counts(m.c, Apply(m, s).c, q, EventOf(m, s, q))
  {
    hide EventHome, Home, QueuesOk, PcOk, PriorityOk, Clocked, Shaped, Sound, Counts, TaskOp, ResumeAll, Reset,
         CanResume, SuspendTask, CreateTask, Notify, ResumeTask, PrioritySet;
    CoreShaped(m.c, m.idle);
    var c' := Apply(m, s).c;
    if OnTask(s) {
      TaskOpApplies(m, s);
      QuietTaskOp(m, s);
      StillCounts(m.c, c', q);
    } else if s.CallResumeAll? {
      ResumeAllCore(m.c, m.idle);
      StillCounts(m.c, c', q);
    } else if s.CallReset? {
      ResetSmooth(m.c, s.q, m.idle);
      OneCounts(m.c, c', s.q, m.c.queues[s.q].(count := 0, rxLock := UNLOCKED, txLock := UNLOCKED), q,
                EventOf(m, s, q));
    } else if s.CallCreateQueue? {
      OneCounts(m.c, c', s.q, Queue(s.length, s.itemSize, 0, UNLOCKED, UNLOCKED), q, EventOf(m, s, q));
    } else {
      StillCounts(m.c, c', q);
    }
  }

  lemma InterruptCounts(m: Machine, s: Step, q: QueueId)
    requires Inv(m) && Enabled(m, s) && !IsCall(s) && !s.Continue? && Sound(m.c.ls) && CanResume(m)
    ensures Counts(m.c, Apply(m, s).c, q, EventOf(m, s, q))
  {
    hide EventHome, Home, QueuesOk, PriorityOk, PcOk, Clocked, Shaped, Sound, Counts, CanResume, SwitchContext,
         NotifyFromISR, ResumeFromISR, SendFromISR, ReceiveFromISR, HasRoom, Tick, Apply, Enabled;
    InterruptApplies(m, s);
    var c := m.c;
    match s
    case TickInterrupt => QuietTick(m, q);
    case IsrSend(k, pos) => IsrSendCounts(c, k, pos, q);
    case IsrReceive(k) => IsrReceiveCounts(c, k, q);
    case IsrNotify(t, a) => QuietNotifyISR(m, t, a, q);
    case IsrResume(t) =>
      ResumeFromISRSmooth(c, t);
      StillCounts(c, ResumeFromISR(c, t), q);
    case Yield =>
      SwitchSmooth(c, m.idle);
      StillCounts(c, SwitchContext(c), q);
  }

  lemma QuietTick(m: Machine, q: QueueId)
    requires CoreOk(m.c, m.idle) && Sound(m.c.ls)
    ensures Counts(m.c, Tick(m).c, q, Quiet)
  {
    hide Home, EventHome, Clocked, Shaped, Sound, IncrementTick, SwitchContext;
    TickCore(m.c, m.idle);
    StillCounts(m.c, Tick(m).c, q);
  }

  lemma QuietNotifyISR(m: Machine, t: Task, a: NotifyAction, q: QueueId)
    requires PcOk(m) && CoreOk(m.c, m.idle) && t in m.c.prio
    ensures Counts(m.c, NotifyFromISR(m.c, t, a), q, Quiet)
  {
    hide EventHome, Home, Clocked, Shaped, CurOk, Smooth, NotifyFromISR, ParkedOn;
    assert TaskPcOk(m, t);
    NotifyFromISRSmooth(m.c, t, a);
    StillCounts(m.c, NotifyFromISR(m.c, t, a), q);
  }

  lemma IsrSendCounts(c: Core, k: QueueId, pos: Position, q: QueueId)
    requires Shaped(c) && k in c.queues
    ensures Counts(c, SendFromISR(c, k, pos), q, if k == q && HasRoom(QueueOf(c, q), pos) then Put(pos) else Quiet)
  {
    hide Shaped, Counts, Smooth, WakeOrCount, SetQueue, CountAfterCopy;
    var d := c.queues[k];
    if HasRoom(d, pos) {
      var d' := d.(count := CountAfterCopy(d, pos));
      WakeOrCountSmooth(c, k, d', Recv);
      OneCounts(c, SendFromISR(c, k, pos), k, AfterIsr(c, d', Recv), q, if k == q then Put(pos) else Quiet);
    } else {
      StillCounts(c, c, q);
    }
  }

  lemma IsrReceiveCounts(c: Core, k: QueueId, q: QueueId)
    requires Shaped(c) && k in c.queues
    ensures Counts(c, ReceiveFromISR(c, k), q, if k == q && QueueOf(c, q).count > 0 then Got else Quiet)
  {
    hide Shaped, Counts, Smooth, WakeOrCount, SetQueue;
    var d := c.queues[k];
    if d.count > 0 {
      var d' := d.(count := d.count - 1);
      WakeOrCountSmooth(c, k, d', Side.Send);
      OneCounts(c, ReceiveFromISR(c, k), k, AfterIsr(c, d', Side.Send), q, if k == q then Got else Quiet);
    } else {
      StillCounts(c, c, q);
    }
  }

  lemma GoCounts(m: Machine, q: QueueId)
    requires Inv(m) && Enabled(m, Continue) && Sound(m.c.ls) && CanResume(m)
    ensures Counts(m.c, Apply(m, Continue).c, q, EventOf(m, Continue, q))
  {
    hide EventHome, Home, QueuesOk, PriorityOk, CoreOk, PcOk, Sound, Counts, CanGo, QueueStep, DelayStep, NotifyStep,
         Holding;
    var p := PcOf(m, m.c.cur);
    if p.InQueue? {
      QueueCounts(m, p, q);
    } else {
      QuietGo(m);
      StillCounts(m.c, Go(m).c, q);
    }
  }

  /** One step: every queue keeps its length and item size, and its count changes by exactly what
      the step puts into it, gets out of it or clears. */
  lemma StepCountsBy(m: Machine, s: Step, q: QueueId)
    requires Inv(m) && Enabled(m, s)
    ensures Sound(m.c.ls) && CanResume(m) && Counts(m.c, Apply(m, s).c, q, EventOf(m, s, q))
  {
    hide EventHome, Home, QueuesOk, PriorityOk, CoreOk, PcOk, Sound, Counts, CanResume, Apply, EventOf;
    Runs.Ready(m);
    if s.Continue? {
      GoCounts(m, q);
    } else if IsCall(s) {
      CallCounts(m, s, q);
    } else {
      InterruptCounts(m, s, q);
    }
  }

  /* ----- counts and lengths ----- */

  ghost predicate CountsFit(c: Core) { forall q :: q in c.queues ==> c.queues[q].count <= c.queues[q].length }

  // Overwriting the one place of a full semaphore.
  predicate SemOverwrite(c: Core, q: QueueId, pos: Position) {
    pos.Overwrite? && QueueOf(c, q).itemSize == 0 && QueueOf(c, q).count >= QueueOf(c, q).length
  }

  // The step is a send that overwrites a full queue of items of size zero.
  predicate Overfills(m: Machine, s: Step) {
    match s
    case IsrSend(q, pos) => SemOverwrite(m.c, q, pos)
    case Continue =>
      var p := PcOf(m, m.c.cur);
      p.InQueue? && p.at.AtTop? && p.op.OpSend? && SemOverwrite(m.c, p.q, p.op.pos)
    case _ => false
  }

  lemma CopyFits(d: Queue, pos: Position)
    requires d.count <= d.length && HasRoom(d, pos) && (pos.Overwrite? ==> d.length == 1)
    ensures CountAfterCopy(d, pos) <= d.length <==> !(pos.Overwrite? && d.itemSize == 0 && d.count >= d.length)
  {}

  // What a step puts into a queue, and that only a queue of length one is overwritten.
  lemma PutsWhere(m: Machine, s: Step, q: QueueId)
    requires PcOk(m) && Enabled(m, s) && EventOf(m, s, q).Put?
    ensures var (d, pos) := (QueueOf(m.c, q), EventOf(m, s, q).pos);
            q in m.c.queues && HasRoom(d, pos) && (pos.Overwrite? ==> d.length == 1)
            && (Overfills(m, s) <==> SemOverwrite(m.c, q, pos))
  {
    hide EventHome, Home, CurOk, ParkedOn, NotifyPc, SemOverwrite;
    assert TaskPcOk(m, m.c.cur);
  }

  lemma OverfillsPuts(m: Machine, s: Step)
    requires PcOk(m) && Enabled(m, s) && Overfills(m, s)
    ensures exists q :: q in m.c.queues && EventOf(m, s, q).Put?
  {
    hide EventHome, Home, CurOk, ParkedOn, NotifyPc;
    assert TaskPcOk(m, m.c.cur);
    var q := if s.IsrSend? then s.q else PcOf(m, m.c.cur).q;
    assert q in m.c.queues && EventOf(m, s, q).Put?;
  }

  lemma QueueFits(m: Machine, s: Step, q: QueueId)
    requires Inv(m) && Enabled(m, s) && CountsFit(m.c) && q in m.c.queues
    ensures CountAfter(m.c.queues[q], EventOf(m, s, q)) <= m.c.queues[q].length
            <==> !(EventOf(m, s, q).Put? && Overfills(m, s))
  {
    hide EventHome, Home, QueuesOk, PriorityOk, CoreOk, PcOk, EventOf, Overfills, CountAfterCopy;
    if EventOf(m, s, q).Put? {
      PutsWhere(m, s, q);
      CopyFits(m.c.queues[q], EventOf(m, s, q).pos);
    }
  }

  /** One step: with every queue within its length, all still are afterwards, if and only if
      the step does not overwrite a full queue of items of size zero. */
  lemma StepCounts(m: Machine, s: Step)
    requires Inv(m) && Enabled(m, s) && CountsFit(m.c)
    ensures Sound(m.c.ls) && CanResume(m) && (CountsFit(Apply(m, s).c) <==> !Overfills(m, s))
  {
    hide EventHome, Home, QueuesOk, PriorityOk, CoreOk, PcOk, Sound, CanResume, Apply, EventOf, Overfills, CountAfter,
         Enabled;
    Runs.Ready(m);
    var c' := Apply(m, s).c;
    forall q | q in c'.queues ensures q in m.c.queues || c'.queues[q].count == 0 { StepCountsBy(m, s, q); }
    if Overfills(m, s) {
      OverfillsPuts(m, s);
      var q :| q in m.c.queues && EventOf(m, s, q).Put?;
      QueueFits(m, s, q);
      StepCountsBy(m, s, q);
    } else {
      forall q | q in c'.queues ensures c'.queues[q].count <= c'.queues[q].length {
        StepCountsBy(m, s, q);
        if q in m.c.queues { QueueFits(m, s, q); }
      }
    }
  }

  // No step of the run overfills a queue.
  ghost predicate NeverOverfills(m: Machine, ss: seq<Step>)
    requires Inv(m) && Possible(m, ss)
    decreases |ss|
  {
    ss == [] || (!Overfills(m, ss[0]) && (StepKeeps(m, ss[0]); NeverOverfills(Apply(m, ss[0]), ss[1..])))
  }

  /** 0 <= uxMessagesWaiting <= uxLength in every run that never overwrites a full semaphore. */
  lemma {:induction false} CountsStayInRange(m: Machine, ss: seq<Step>)
    requires Inv(m) && Possible(m, ss) && CountsFit(m.c) && NeverOverfills(m, ss)
    ensures CountsFit(Exec(m, ss).c)
    decreases |ss|
  {
    hide Inv, Apply, Enabled, CountsFit, Overfills, Sound, CanResume;
    if ss != [] {
      StepKeeps(m, ss[0]);
      StepCounts(m, ss[0]);
      CountsStayInRange(Apply(m, ss[0]), ss[1..]);
    }
  }

  /** The one exception is real: overwriting a binary semaphore that has been given counts to two. */
  lemma SemaphoreOverfilled(c: Core, q: QueueId)
    requires Shaped(c) && q in c.queues && c.queues[q] == Queue(1, 0, 1, UNLOCKED, UNLOCKED)
    ensures var c' := SendFromISR(c, q, Position.Overwrite);
            q in c'.queues && c'.queues[q].count == 2 > c'.queues[q].length
  {
    hide Shaped, Smooth, WakeOrCount;
    WakeOrCountSmooth(c, q, Queue(1, 0, 2, UNLOCKED, UNLOCKED), Recv);
  }
}

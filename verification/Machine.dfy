/** The kernel as a state machine.  Every critical section of a task, every stretch a task
    executes with the scheduler suspended between two of them, and every interrupt is one
    step; interrupts may come between any two steps, and only the running task steps. */
module Machine {
  import opened Config
  import opened Lists
  import opened Kernel
  import opened Queues

  /* xQueueReceive and xQueueSemaphoreTake, xQueuePeek, xQueueGenericSend. */
  datatype Op = OpReceive | OpPeek | OpSend(pos: Position)

  // The event list a call blocks on.
  function SideOf(op: Op): Side { if op.OpSend? then Side.Send else Recv }

  datatype After = Placed | Retry | Expired

  // Where a queue call is: about to do the named thing.
  datatype QStage =
    | AtTop                  // the critical section at the head of the loop
    | ToSuspend              // vTaskSuspendAll
    | ToLock                 // prvLockQueue
    | ToCheck                // xTaskCheckForTimeOut
    | ToTest                 // prvIsQueueEmpty or prvIsQueueFull
    | ToPlace                // vTaskPlaceOnEventList
    | ToUnlockTx(a: After)   // prvUnlockQueue, first critical section
    | ToUnlockRx(a: After)   // prvUnlockQueue, second critical section
    | ToResume(a: After)     // xTaskResumeAll
    | ToRetest               // prvIsQueueEmpty after a time-out

  datatype DStage = DSuspend | DAdd | DResume
  datatype DelayKind = Fixed(n: nat) | Until(previous: nat, increment: nat)

  datatype NStage = NSuspend | NMark | NAdd | NResume | NFinal
  datatype NotifyWait = Take(clear: bool) | Await(onEntry: bv32, onExit: bv32)

  datatype Pc =
    | User                                        // outside the kernel
    | Yielding(next: Pc)                          // about to execute portYIELD_WITHIN_API
    | InQueue(q: QueueId, op: Op, wait: nat, timed: bool, to: TimeOut, at: QStage)
    | InDelay(d: DelayKind, dAt: DStage)          // vTaskDelay, xTaskDelayUntil
    | InNotify(k: NotifyWait, nWait: nat, block: bool, nAt: NStage)
    | InSuspend(t: Task)                          // vTaskSuspend, before its second critical section
    | InCreate(t: Task)                           // xTaskCreate, before its yield

  datatype Machine = Machine(
    c: Core,
    idle: Task,
    pc: map<Task, Pc>,
    woken: map<ListId, set<Task>>,  // taken off an event list by a send or receive, and not yet back at AtTop
    ticks: nat                      // tick interrupts and caught-up ticks so far
  )

  function PcOf(m: Machine, t: Task): Pc { if t in m.pc then m.pc[t] else User }
  function WokenOf(m: Machine, l: ListId): set<Task> { if l in m.woken then m.woken[l] else {} }

  // The tasks that left event list l between two kernel states.
  function Left(c: Core, c': Core, l: ListId): set<Task> {
    set t | t in c.prio && EventHome(c.ls, t) == On(l) && EventHome(c'.ls, t) != On(l)
  }

  function Do(m: Machine, c: Core): Machine { m.(c := c) }

  // A step of the kernel that may take tasks off event list l by waking them.
  function DoWaking(m: Machine, c: Core, l: ListId): Machine {
    m.(c := c, woken := m.woken[l := WokenOf(m, l) + Left(m.c, c, l)])
  }

  function Goto(m: Machine, p: Pc): Machine { m.(pc := m.pc[m.c.cur := p]) }

  /* ----- interrupts ----- */

  function Tick(m: Machine): Machine
    requires Sound(m.c.ls)
  {
    var r := IncrementTick(m.c);
    m.(c := if r.1 then SwitchContext(r.0) else r.0, ticks := m.ticks + 1)
  }

  /* ----- one step of a queue call ----- */

  // Whether the attempt at the head of the loop succeeds.
  predicate CanGo(d: Queue, op: Op) {
    match op
    case OpReceive => d.count > 0
    case OpPeek => d.count > 0
    case OpSend(pos) => HasRoom(d, pos)
  }

  function Attempt(c: Core, q: QueueId, op: Op): Core
    requires CanGo(QueueOf(c, q), op)
  {
    match op
    case OpReceive => ReceiveNow(c, q)
    case OpPeek => PeekNow(c, q)
    case OpSend(pos) => SendNow(c, q, pos)
  }

  // The side that a successful attempt serves, and the event list it wakes a task from.
  function Served(op: Op): Side { if op.OpReceive? then Side.Send else Recv }
  function ServedList(q: QueueId, op: Op): ListId { Wait(q, Served(op)) }

  // Arriving at the head of the loop, the running task is no longer a woken one.
  function Recheck(m: Machine, l: ListId): Machine {
    m.(woken := m.woken[l := WokenOf(m, l) - {m.c.cur}])
  }

  function QueueTop(m: Machine, p: Pc): Machine
    requires p.InQueue?
  {
    var m1 := Recheck(m, Wait(p.q, SideOf(p.op)));
    if CanGo(QueueOf(m.c, p.q), p.op) then DoWaking(Goto(m1, User), Attempt(m.c, p.q, p.op), ServedList(p.q, p.op))
    else if p.wait == 0 then Goto(m1, User)
    else Goto(m1, p.(to := if p.timed then p.to else SetTimeOut(m.c), timed := true, at := ToSuspend))
  }

  function QueueCheck(m: Machine, p: Pc): Machine
    requires p.InQueue?
  {
    var r := CheckForTimeOut(m.c, p.to, p.wait);
    Goto(m, p.(to := r.1, wait := r.2, at := if r.0 then ToUnlockTx(Expired) else ToTest))
  }

  // prvIsQueueEmpty or prvIsQueueFull: must the caller block?
  predicate MustBlock(d: Queue, op: Op) { if op.OpSend? then d.count == d.length else d.count == 0 }

  function QueuePlace(m: Machine, p: Pc): Machine
    requires p.InQueue?
  {
    Goto(Do(m, PlaceOnEventList(m.c, Wait(p.q, SideOf(p.op)), p.wait)), p.(at := ToUnlockTx(Placed)))
  }

  function QueueResume(m: Machine, p: Pc): Machine
    requires p.InQueue? && p.at.ToResume? && Sound(m.c.ls) && m.c.suspended > 0
  {
    var r := ResumeAll(m.c);
    var next := match p.at.a
      case Placed => if r.1 then p.(at := AtTop) else Yielding(p.(at := AtTop))
      case Retry => p.(at := AtTop)
      case Expired => if p.op.OpSend? then User else p.(at := ToRetest);
    Do(Goto(m, next), r.0)
  }

  function QueueStep(m: Machine, p: Pc): Machine
    requires p.InQueue? && Sound(m.c.ls) && (p.at.ToResume? ==> m.c.suspended > 0)
  {
    match p.at
    case AtTop => QueueTop(m, p)
    case ToSuspend => Goto(Do(m, SuspendAll(m.c)), p.(at := ToLock))
    case ToLock => Goto(Do(m, LockQueue(m.c, p.q)), p.(at := ToCheck))
    case ToCheck => QueueCheck(m, p)
    case ToTest => Goto(m, p.(at := if MustBlock(QueueOf(m.c, p.q), p.op) then ToPlace else ToUnlockTx(Retry)))
    case ToPlace => QueuePlace(m, p)
    case ToUnlockTx(a) => Goto(DoWaking(m, UnlockSide(m.c, p.q, Recv), Wait(p.q, Recv)), p.(at := ToUnlockRx(a)))
    case ToUnlockRx(a) => Goto(DoWaking(m, UnlockSide(m.c, p.q, Side.Send), Wait(p.q, Side.Send)),
                               p.(at := ToResume(a)))
    case ToResume(a) => QueueResume(m, p)
    case ToRetest => Goto(m, if QueueOf(m.c, p.q).count == 0 then User else p.(at := AtTop))
  }

  /* ----- one step of a delay ----- */

  // How long to block for, if at all.
  function DelayTicks(c: Core, d: DelayKind): nat {
    match d
    case Fixed(n) => n
    case Until(previous, increment) =>
      var r := DelayUntil(c.tick, previous, increment);
      if r.0 then Sub32(r.1, c.tick) else 0
  }

  function DelayStep(m: Machine, p: Pc): Machine
    requires p.InDelay? && Sound(m.c.ls) && (p.dAt.DResume? ==> m.c.suspended > 0)
  {
    match p.dAt
    case DSuspend => Goto(Do(m, SuspendAll(m.c)), p.(dAt := DAdd))
    case DAdd =>
      var n := DelayTicks(m.c, p.d);
      Goto(Do(m, if n > 0 then DelayCurrent(m.c, n, false) else m.c), p.(dAt := DResume))
    case DResume =>
      var r := ResumeAll(m.c);
      Do(Goto(m, if r.1 then User else Yielding(User)), r.0)
  }

  /* ----- one step of waiting for a notification ----- */

  // The condition under which the call marks its task as waiting.
  predicate NothingYet(c: Core, k: NotifyWait) {
    match k
    case Take(_) => c.cur in c.value && c.value[c.cur] == 0
    case Await(_, _) => c.cur in c.notify && c.notify[c.cur] != Received
  }

  function MarkWaiting(c: Core, k: NotifyWait): Core {
    if !NothingYet(c, k) || c.cur !in c.value then c
    else c.(notify := c.notify[c.cur := Waiting],
            value := match k case Take(_) => c.value case Await(clear, _) => c.value[c.cur := c.value[c.cur] & !clear])
  }

  // The last critical section: consume the notification.
  function Consume(c: Core, k: NotifyWait): Core {
    if c.cur !in c.value || c.cur !in c.notify then c
    else
      var v := c.value[c.cur];
      var w := match k
        case Take(clear) => if v == 0 then v else if clear then 0 else v - 1
        case Await(_, clear) => if c.notify[c.cur] == Received then v & !clear else v;
      c.(value := c.value[c.cur := w], notify := c.notify[c.cur := NotWaiting])
  }

  function NotifyStep(m: Machine, p: Pc): Machine
    requires p.InNotify? && Sound(m.c.ls) && (p.nAt.NResume? ==> m.c.suspended > 0)
  {
    match p.nAt
    case NSuspend => Goto(Do(m, SuspendAll(m.c)), p.(nAt := NMark))
    case NMark => Goto(Do(m, MarkWaiting(m.c, p.k)), p.(block := NothingYet(m.c, p.k) && p.nWait > 0, nAt := NAdd))
    case NAdd => Goto(Do(m, if p.block then DelayCurrent(m.c, p.nWait, true) else m.c), p.(nAt := NResume))
    case NResume =>
      var r := ResumeAll(m.c);
      Do(Goto(m, if p.block && !r.1 then Yielding(p.(nAt := NFinal)) else p.(nAt := NFinal)), r.0)
    case NFinal => Goto(Do(m, Consume(m.c, p.k)), User)
  }

  /* ----- the next step of the running task inside the kernel ----- */

  function Go(m: Machine): Machine
    requires Sound(m.c.ls) && CanResume(m)
  {
    var p := PcOf(m, m.c.cur);
    match p
    case User => m
    case Yielding(next) => Do(Goto(m, next), SwitchContext(m.c))
    case InQueue(_, _, _, _, _, _) => QueueStep(m, p)
    case InDelay(_, _) => DelayStep(m, p)
    case InNotify(_, _, _, _) => NotifyStep(m, p)
    case InSuspend(t) => Goto(Do(m, ResetNext(m.c)), if t == m.c.cur then Yielding(User) else User)
    case InCreate(t) => Do(Goto(m, User), YieldTo(m.c, t))
  }

  // Between vTaskSuspendAll and xTaskResumeAll.
  predicate Holding(p: Pc) {
    match p
    case InQueue(_, _, _, _, _, at) => !at.AtTop? && !at.ToSuspend? && !at.ToRetest?
    case InDelay(_, at) => !at.DSuspend?
    case InNotify(_, _, _, at) => at.NMark? || at.NAdd? || at.NResume?
    case _ => false
  }

  predicate CanResume(m: Machine) { Holding(PcOf(m, m.c.cur)) ==> m.c.suspended > 0 }

  /* ----- what can happen ----- */

  datatype Step =
    // interrupts
    | TickInterrupt
    | IsrSend(q: QueueId, pos: Position)     // xQueueGenericSendFromISR, xQueueGiveFromISR
    | IsrReceive(q: QueueId)                 // xQueueReceiveFromISR
    | IsrNotify(t: Task, a: NotifyAction)    // xTaskGenericNotifyFromISR, vTaskGenericNotifyGiveFromISR
    | IsrResume(t: Task)                     // xTaskResumeFromISR
    | Yield                                  // portYIELD_FROM_ISR, or taskYIELD by the running task
    // the running task, inside the kernel
    | Continue
    // the running task, calling the kernel
    | CallQueue(q: QueueId, op: Op, wait: nat)
    | CallDelay(d: DelayKind)
    | CallNotify(k: NotifyWait, wait: nat)
    | CallSuspend(t: Task)
    | CallResume(t: Task)
    | CallPrioritySet(t: Task, p: nat)
    | CallCreate(t: Task, p: nat)
    | CallNotifyOther(t: Task, a: NotifyAction)  // xTaskGenericNotify
    | CallSuspendAll
    | CallResumeAll
    | CallCatchUp(n: nat)                    // xTaskCatchUpTicks, between its two calls
    | CallCreateQueue(q: QueueId, length: nat, itemSize: nat)
    | CallReset(q: QueueId)                  // xQueueGenericReset of a queue in use

  // The kernel's own demands on its callers: its configASSERTs and its documentation.
  predicate Enabled(m: Machine, s: Step) {
    var c := m.c;
    match s
    case TickInterrupt => true
    case IsrSend(q, pos) => q in c.queues && (pos.Overwrite? ==> QueueOf(c, q).length == 1)
    case IsrReceive(q) => q in c.queues
    case IsrNotify(t, _) => t in c.prio
    case IsrResume(t) => t in c.prio
    case Yield => true
    case Continue => !PcOf(m, c.cur).User?
    case _ => PcOf(m, c.cur).User? && c.cur != m.idle && CallAllowed(m, s)
  }

  predicate CallAllowed(m: Machine, s: Step) {
    var c := m.c;
    match s
    case CallQueue(q, op, wait) =>
      && q in c.queues && wait < TWO_32 && (c.suspended > 0 ==> wait == 0)
      && (op.OpSend? && op.pos.Overwrite? ==> QueueOf(c, q).length == 1)
    case CallDelay(Fixed(n)) => c.suspended == 0 && n < TWO_32
    case CallDelay(Until(p, i)) => c.suspended == 0 && p < TWO_32 && 0 < i < TWO_32
    case CallNotify(_, wait) => c.suspended == 0 && wait < TWO_32
    case CallSuspend(t) => t in c.prio && t != m.idle && (t == c.cur ==> c.suspended == 0)
    case CallResume(t) => t in c.prio
    case CallPrioritySet(t, _) => t in c.prio
    case CallCreate(t, _) => t !in c.prio
    case CallNotifyOther(t, _) => t in c.prio
    case CallSuspendAll => true
    case CallResumeAll => c.suspended > 0
    case CallCatchUp(n) => c.suspended > 0 && n < TWO_32
    case CallCreateQueue(q, length, _) => q !in c.queues && length > 0
    case CallReset(q) => q in c.queues
    case _ => false
  }

  function Apply(m: Machine, s: Step): Machine
    requires Sound(m.c.ls) && CanResume(m) && Enabled(m, s)
  {
    var c := m.c;
    match s
    case TickInterrupt => Tick(m)
    case IsrSend(q, pos) => DoWaking(m, SendFromISR(c, q, pos), Wait(q, Recv))
    case IsrReceive(q) => DoWaking(m, ReceiveFromISR(c, q), Wait(q, Side.Send))
    case IsrNotify(t, a) => Do(m, NotifyFromISR(c, t, a))
    case IsrResume(t) => Do(m, ResumeFromISR(c, t))
    case Yield => Do(m, SwitchContext(c))
    case Continue => Go(m)
    case CallQueue(q, op, wait) => Goto(m, InQueue(q, op, wait, false, TimeOut(0, 0), AtTop))
    case CallDelay(d) => Goto(m, if d == Fixed(0) then Yielding(User) else InDelay(d, DSuspend))
    case CallNotify(k, wait) => Goto(m, InNotify(k, wait, false, NSuspend))
    case CallSuspend(t) => Goto(Do(m, SuspendTask(c, t)), InSuspend(t))
    case CallResume(t) => Do(m, ResumeTask(c, t))
    case CallPrioritySet(t, p) => Do(m, PrioritySet(c, t, p))
    case CallCreate(t, p) => Goto(Do(m.(pc := m.pc[t := User]), CreateTask(c, t, p)), InCreate(t))
    case CallNotifyOther(t, a) => Do(m, Notify(c, t, a))
    case CallSuspendAll => Do(m, SuspendAll(c))
    case CallResumeAll => Do(m, ResumeAll(c).0)
    case CallCatchUp(n) => m.(c := c.(pended := Add32(c.pended, n)), ticks := m.ticks + n)
    case CallCreateQueue(q, length, size) => Do(m, CreateQueue(c, q, length, size))
    case CallReset(q) => DoWaking(m, Reset(c, q), Wait(q, Side.Send))
  }
}

/** The invariant of the kernel state machine. */
module Invariant {
  import opened Config
  import opened Lists
  import opened Kernel
  import opened Queues
  import opened Shape
  import opened Clock
  import opened Priority
  import opened Machine

  /* ----- program counters ----- */

  // The queue event list a task may be on, given where it is.
  function ParkedOn(p: Pc): Where {
    match p
    case Yielding(next) => ParkedOn(next)
    case InQueue(q, op, _, _, _, at) => if Parked(at) then On(Wait(q, SideOf(op))) else Nowhere
    case _ => Nowhere
  }

  predicate Parked(at: QStage) {
    match at
    case AtTop => true
    case ToUnlockTx(a) => a.Placed?
    case ToUnlockRx(a) => a.Placed?
    case ToResume(a) => a.Placed?
    case _ => false
  }

  // Waiting for, or just given, a notification.
  predicate NotifyPc(p: Pc) {
    match p
    case Yielding(next) => NotifyPc(next)
    case InNotify(_, _, _, at) => at.NAdd? || at.NResume? || at.NFinal?
    case _ => false
  }

  // The running task may have taken itself off its ready list.
  predicate Away(p: Pc, self: Task) {
    match p
    case Yielding(_) => true
    case InQueue(_, _, _, _, _, at) => Parked(at) && !at.AtTop?
    case InDelay(_, at) => at.DResume?
    case InNotify(_, _, block, at) => block && at.NResume?
    case InSuspend(t) => t == self
    case _ => false
  }

  // The running task's event item may be on a list.
  predicate MayBeListed(p: Pc) {
    match p
    case Yielding(_) => true
    case InQueue(_, _, _, _, _, at) => Parked(at) && !at.AtTop?
    case InNotify(_, _, _, at) => at.NAdd? || at.NResume?
    case InDelay(_, at) => at.DResume?
    case _ => false
  }

  // The running task runs with the scheduler not suspended.
  predicate NeedsRunning(p: Pc, self: Task) {
    match p
    case Yielding(_) => true
    case InQueue(_, _, wait, _, _, at) => at.ToSuspend? || at.ToRetest? || (at.AtTop? && wait > 0)
    case InDelay(_, at) => at.DSuspend?
    case InNotify(_, _, _, at) => at.NSuspend? || at.NFinal?
    case InSuspend(t) => t == self
    case _ => false
  }

  // The ranges of a call's arguments, and what it yields into.
  predicate PcRange(c: Core, p: Pc) {
    match p
    case User => true
    case Yielding(next) => next.User? || (next.InQueue? && next.at.AtTop? && PcRange(c, next))
      || (next.InNotify? && next.nAt.NFinal? && PcRange(c, next))
    case InQueue(q, op, wait, _, _, at) =>
      q in c.queues && wait < TWO_32 && OverwriteOk(c, q, op)
      && (at.ToSuspend? || at.ToLock? || at.ToCheck? || at.ToTest? || at.ToPlace? ==> wait > 0)
    case InDelay(d, _) =>
      (match d case Fixed(n) => 0 < n < TWO_32 case Until(p, i) => p < TWO_32 && 0 < i < TWO_32)
    case InNotify(_, wait, block, _) => wait < TWO_32 && (block ==> wait > 0)
    case InSuspend(t) => t in c.prio
    case InCreate(t) => t in c.prio
  }

  // Overwriting is for queues of length one.
  predicate OverwriteOk(c: Core, q: QueueId, op: Op) { op.OpSend? && op.pos.Overwrite? ==> QueueOf(c, q).length == 1 }

  // Queues once created stay, at their lengths.
  ghost predicate QueuesStay(c: Core, c': Core) {
    forall q :: q in c.queues ==> q in c'.queues && c'.queues[q].length == c.queues[q].length
  }

  ghost predicate TaskPcOk(m: Machine, t: Task) {
    var (w, p) := (EventHome(m.c.ls, t), PcOf(m, t));
    && (t in m.pc <==> t in m.c.prio)
    && (t != m.c.cur ==> !Holding(p))
    && PcRange(m.c, p)
    && (OnWait(w) ==> w == ParkedOn(p))
    && (w == On(Pending) ==> ParkedOn(p).On? || NotifyPc(p) || Home(m.c.ls, t) == On(Suspended))
    && (AwaitsNotify(m.c, t) ==> w.Nowhere? && NotifyPc(p))
  }

  ghost predicate CurOk(m: Machine) {
    var p := PcOf(m, m.c.cur);
    && (Holding(p) ==> m.c.suspended == 1)
    && (NeedsRunning(p, m.c.cur) ==> m.c.suspended == 0)
    && (!Away(p, m.c.cur) ==> OnReady(Home(m.c.ls, m.c.cur)))
    && (EventHome(m.c.ls, m.c.cur).On? ==> MayBeListed(p))
  }

  ghost predicate PcOk(m: Machine) {
    && CurOk(m) && PcOf(m, m.idle) == User
    && forall t :: TaskPcOk(m, t)
  }

  /* ----- the kernel's data ----- */

  ghost predicate CoreOk(c: Core, idle: Task) {
    && Shaped(c) && Clocked(c) && (c.suspended == 0 ==> NonePending(c.ls))
    && OnReady(Home(c.ls, idle)) && idle in c.prio
  }

  // A task just created is accounted for by its creator's yield, still to come.
  ghost function JustCreated(p: Pc): set<Task> { if p.InCreate? then {p.t} else {} }

  ghost predicate PriorityOk(m: Machine) { HighOk(m.c, JustCreated(PcOf(m, m.c.cur))) }

  /* ----- the queue lock-count protocol ----- */

  predicate Locked(at: QStage, s: Side) {
    at.ToCheck? || at.ToTest? || at.ToPlace? || at.ToUnlockTx? || (s.Send? && at.ToUnlockRx?)
  }

  // The running task holds the lock of this side of the queue.
  predicate HoldsLock(p: Pc, q: QueueId, s: Side) { p.InQueue? && p.q == q && Locked(p.at, s) }

  ghost predicate LockOk(m: Machine, q: QueueId, s: Side) {
    q in m.c.queues ==>
      && UNLOCKED <= LockOf(m.c.queues[q], s) <= m.c.tasks
      && (LockOf(m.c.queues[q], s) >= 0 <==> HoldsLock(PcOf(m, m.c.cur), q, s))
  }

  ghost predicate WokenOk(m: Machine, l: ListId) {
    forall t :: t in WokenOf(m, l) ==> t in m.c.prio && ParkedOn(PcOf(m, t)) == On(l) && EventHome(m.c.ls, t) != On(l)
  }

  // Some task is on the event list, or the running one is about to be.
  ghost predicate Wanted(m: Machine, q: QueueId, s: Side) {
    || (exists t :: EventHome(m.c.ls, t) == On(Wait(q, s)))
    || (var p := PcOf(m, m.c.cur); p.InQueue? && p.q == q && SideOf(p.op) == s && p.at.ToPlace?)
  }

  // What is available is covered by woken tasks that have yet to look, and by wake-ups the
  // lock has counted; or the lock has counted as many as there are tasks.
  ghost predicate Covered(m: Machine, q: QueueId, s: Side)
    requires q in m.c.queues
  {
    var (d, lock) := (m.c.queues[q], LockOf(m.c.queues[q], s));
    lock >= m.c.tasks || Available(d, s) <= |WokenOf(m, Wait(q, s))| + (if lock > 0 then lock else 0)
  }

  ghost predicate NoneLost(m: Machine, q: QueueId, s: Side) {
    q in m.c.queues && Wanted(m, q, s) ==> Covered(m, q, s)
  }

  ghost predicate QueuesOk(m: Machine) {
    && (forall q, s :: LockOk(m, q, s))
    && (forall l :: WokenOk(m, l))
  }

  ghost predicate Inv(m: Machine) {
    CoreOk(m.c, m.idle) && PcOk(m) && PriorityOk(m) && QueuesOk(m)
  }

  /* ----- general preservation lemmas ----- */

  // Task t's event item stays, or leaves its list, or is sent to the pending ready list.
  ghost predicate EventKept(c: Core, c': Core, t: Task) {
    var (w, w') := (EventHome(c.ls, t), EventHome(c'.ls, t));
    && (w' == w || w'.Nowhere? || (c.suspended > 0 && w' == On(Pending) && Summoned(c, c', t)))
    && (w' == On(Pending) && Home(c.ls, t) == On(Suspended) ==> Home(c'.ls, t) == On(Suspended) || AwaitsNotify(c, t))
    && (AwaitsNotify(c', t) ==> AwaitsNotify(c, t))
  }

  // The running task is the same, or a switch has been made.
  ghost predicate Switched(c: Core, c': Core) {
    c'.cur == c.cur || (c.suspended <= 1 && c'.suspended == 0 && OnReady(Home(c'.ls, c'.cur)))
  }

  lemma WakesKeepEvents(c: Core, c': Core)
    requires Wakes(c, c')
    ensures forall t :: EventKept(c, c', t)
  {
    hide Sound, OrderKept, Home, EventHome;
    forall t ensures EventKept(c, c', t) { assert KeptOrWoken(c, c', t); }
  }

  /* A step of the running task, or an interrupt: only the running task's program counter
     changes.  It is enough that it fits where that task's items are now, and, if that task
     still runs, what it may do next. */
  lemma PcStep(m: Machine, m': Machine)
    requires PcOk(m) && CoreOk(m'.c, m.idle) && m'.idle == m.idle
    requires m'.pc == m.pc[m.c.cur := PcOf(m', m.c.cur)] && m'.c.prio.Keys == m.c.prio.Keys && m.c.cur in m.c.prio
    requires QueuesStay(m.c, m'.c)
    requires forall t :: t != m.c.cur ==> EventKept(m.c, m'.c, t)
    requires Switched(m.c, m'.c) && TaskPcOk(m', m.c.cur) && (m'.c.cur == m.c.cur ==> CurOk(m'))
    requires m.idle == m.c.cur ==> PcOf(m', m.idle) == User
    ensures PcOk(m')
  {
    hide Home, EventHome, Sound, Clocked;
    forall t ensures TaskPcOk(m', t) {
      assert TaskPcOk(m, t);
      if t != m.c.cur {
        assert PcOf(m', t) == PcOf(m, t);
        RangeKept(m.c, m'.c, PcOf(m, t));
        assert EventKept(m.c, m'.c, t);
      }
    }
    assert TaskPcOk(m, m'.c.cur);
    if m'.c.cur != m.c.cur { SwitchedCurOk(m'); }
  }

  lemma RangeKept(c: Core, c': Core, p: Pc)
    requires PcRange(c, p) && c.prio.Keys <= c'.prio.Keys && QueuesStay(c, c')
    ensures PcRange(c', p)
  {}

  // A task switched to is ready and on no event list.
  lemma SwitchedCurOk(m: Machine)
    requires CoreOk(m.c, m.idle) && m.c.suspended == 0 && OnReady(Home(m.c.ls, m.c.cur))
    requires !Holding(PcOf(m, m.c.cur))
    ensures CurOk(m)
  {
    hide Home, EventHome, Clocked;
    assert TaskOk(m.c, m.c.cur);
  }
}

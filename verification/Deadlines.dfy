/** Time-outs of whole queue calls: a blocking send or receive gives up at its deadline and
    never before, however often it is woken in vain. */
module Deadlines {
  import opened Config
  import opened Lists
  import opened Kernel
  import opened Queues
  import opened Shape
  import opened Clock
  import opened Timeouts
  import opened Machine
  import opened Invariant
  import opened Runs
  import opened Timeline
  import opened Theorems

  // The call a task is in, perhaps about to yield within it.
  function CallOf(p: Pc): Pc { if p.Yielding? then p.next else p }

  // The call has found its wait expired.
  predicate Expiring(at: QStage) {
    match at
    case ToUnlockTx(a) => a.Expired?
    case ToUnlockRx(a) => a.Expired?
    case ToResume(a) => a.Expired?
    case ToRetest => true
    case _ => false
  }

  /* Task t is in a queue call that has blocked with deadline due: its snapshot and what is left
     of its wait still amount to that, the snapshot being fresh when it is about to block; or it
     has found the wait expired, and the deadline has come. */
  ghost predicate Patient(m: Machine, t: Task, due: nat) {
    var p := CallOf(PcOf(m, t));
    && p.InQueue? && p.timed && p.wait < MAX_DELAY && (Expiring(p.at) ==> p.wait == 0)
    && if p.wait == 0 then Now(m.c) >= due
       else p.wait <= due && due - p.wait <= Now(m.c) && p.to == SnapshotOf(due - p.wait)
            && (p.at.ToTest? || p.at.ToPlace? ==> due - p.wait == Now(m.c))
  }

  /** When a call that has just found nothing first decides to block, its deadline is fixed. */
  lemma FixesDeadline(m: Machine)
    requires Inv(m) && m.c.cur != m.idle
    requires var p := PcOf(m, m.c.cur);
             p.InQueue? && p.at.AtTop? && !p.timed && 0 < p.wait < MAX_DELAY && !CanGo(QueueOf(m.c, p.q), p.op)
    ensures Sound(m.c.ls) && CanResume(m) && Patient(Go(m), m.c.cur, Now(m.c) + PcOf(m, m.c.cur).wait)
  {
    hide EventHome, Home, PriorityOk, PcOk, QueuesOk, Shaped, Timed, NextOk, Attempt, WokenOf;
    Runs.Ready(m);
    TickFits(m);
    SnapshotIsNow(m.c);
  }

  lemma TickFits(m: Machine)
    requires Inv(m)
    ensures m.c.tick < TWO_32
  {
    hide EventHome, Home, PriorityOk, PcOk, QueuesOk, Shaped, NextOk, TimeOrdered;
  }

  // A time-out check that is too late to see that its wait has expired.
  ghost predicate ChecksBlind(m: Machine, s: Step, t: Task, due: nat) {
    var p := PcOf(m, t);
    s.Continue? && t == m.c.cur && p.InQueue? && p.at.ToCheck? && p.wait <= due && due - p.wait <= Now(m.c)
    && Blind(m.c, due - p.wait, p.wait)
  }

  // The step is the call's own, and gets what the call is for.
  predicate Succeeds(m: Machine, s: Step, t: Task) {
    var p := PcOf(m, t);
    s.Continue? && t == m.c.cur && p.InQueue? && p.at.AtTop? && CanGo(QueueOf(m.c, p.q), p.op)
  }

  // One check: expiry is reported exactly at the deadline or later, and otherwise the deadline is kept.
  lemma CheckKeeps(c: Core, to: TimeOut, wait: nat, due: nat)
    requires c.tick < TWO_32 && 0 < wait < MAX_DELAY && wait <= due && due - wait <= Now(c)
    requires to == SnapshotOf(due - wait)
    requires !Blind(c, due - wait, wait)
    ensures var r := CheckForTimeOut(c, to, wait);
            && (r.0 <==> Now(c) >= due) && (r.0 ==> r.2 == 0)
            && (!r.0 ==> r.1 == SnapshotOf(Now(c)) && r.2 > 0 && Now(c) + r.2 == due)
  {
    TimeOutExactIff(c, due - wait, wait);
    Elapsed(c, due - wait);
    SnapshotIsNow(c);
  }

  // Still the same call with the same snapshot and wait.
  predicate SameCall(p: Pc, p': Pc) {
    p.InQueue? && p'.InQueue? && p'.timed == p.timed && p'.to == p.to && p'.wait == p.wait
  }

  // Where a step of the call that is neither its attempt nor its check leads.
  predicate MovesOn(p: Pc, p': Pc)
    requires p.InQueue?
  {
    if p'.User? then Expiring(p.at)
    else
      var n := CallOf(p');
      SameCall(p, n) && (Expiring(n.at) ==> Expiring(p.at)) && !n.at.ToTest? && (n.at.ToPlace? ==> p.at.ToTest?)
  }

  lemma OtherStages(m: Machine, p: Pc)
    requires p.InQueue? && !p.at.AtTop? && !p.at.ToCheck? && Sound(m.c.ls) && (p.at.ToResume? ==> m.c.suspended > 0)
    ensures MovesOn(p, PcOf(QueueStep(m, p), m.c.cur))
    ensures p.at.ToTest? ==> QueueStep(m, p).c == m.c
  {
    hide Sound, QueueStep;
    match p.at
    case ToLock => LockMoves(m, p);
    case ToPlace => PlaceMoves(m, p);
    case ToUnlockTx(a) => UnlockMoves(m, p);
    case ToUnlockRx(a) => UnlockMoves(m, p);
    case ToResume(a) => ResumeMoves(m, p);
    case _ => PlainMoves(m, p);
  }

  lemma PlainMoves(m: Machine, p: Pc)
    requires p.InQueue? && Sound(m.c.ls) && (p.at.ToSuspend? || p.at.ToTest? || p.at.ToRetest?)
    ensures MovesOn(p, PcOf(QueueStep(m, p), m.c.cur))
    ensures p.at.ToTest? ==> QueueStep(m, p).c == m.c
  {
    hide Sound, MustBlock, QueueOf;
  }

  lemma LockMoves(m: Machine, p: Pc)
    requires p.InQueue? && Sound(m.c.ls) && p.at.ToLock?
    ensures PcOf(QueueStep(m, p), m.c.cur) == p.(at := ToCheck)
  {
    hide Sound, QueueOf;
  }

  lemma UnlockMoves(m: Machine, p: Pc)
    requires p.InQueue? && Sound(m.c.ls) && (p.at.ToUnlockTx? || p.at.ToUnlockRx?)
    ensures PcOf(QueueStep(m, p), m.c.cur) == p.(at := if p.at.ToUnlockTx? then ToUnlockRx(p.at.a)
                                                 else ToResume(p.at.a))
  {
    hide Sound, UnlockSide, WokenOf, Left;
    UnlockCur(m.c);
  }

  lemma PlaceMoves(m: Machine, p: Pc)
    requires p.InQueue? && Sound(m.c.ls) && p.at.ToPlace?
    ensures PcOf(QueueStep(m, p), m.c.cur) == p.(at := ToUnlockTx(Placed))
  {
    hide Sound, DelayCurrent, AddSorted;
    DelayCurrentFrame(Enlist(m.c, Wait(p.q, SideOf(p.op))), p.wait, true);
  }

  lemma ResumeMoves(m: Machine, p: Pc)
    requires p.InQueue? && p.at.ToResume? && Sound(m.c.ls) && m.c.suspended > 0
    ensures MovesOn(p, PcOf(QueueStep(m, p), m.c.cur))
  {
    hide Sound, ResumeAll;
  }

  lemma TopMoves(m: Machine, p: Pc)
    requires p.InQueue? && p.at.AtTop? && p.timed
    ensures var p' := PcOf(QueueTop(m, p), m.c.cur);
            if CanGo(QueueOf(m.c, p.q), p.op) || p.wait == 0 then p'.User? else p' == p.(at := ToSuspend)
  {
    hide Attempt, CanGo, WokenOf, Left, SetTimeOut, QueueOf;
  }

  lemma CheckMoves(m: Machine, p: Pc)
    requires p.InQueue?
    ensures var (r, m') := (CheckForTimeOut(m.c, p.to, p.wait), QueueCheck(m, p));
            m'.c == m.c && PcOf(m', m.c.cur) == p.(to := r.1, wait := r.2, at := if r.0 then ToUnlockTx(Expired)
                                                   else ToTest)
  {
    hide CheckForTimeOut;
  }

  // What a step that keeps the call keeps of its deadline.
  lemma SameCallPatient(m: Machine, m': Machine, t: Task, p: Pc, due: nat)
    requires Patient(m, t, due) && CallOf(PcOf(m, t)) == p && Now(m'.c) >= Now(m.c)
    requires SameCall(p, CallOf(PcOf(m', t))) && (Expiring(CallOf(PcOf(m', t)).at) ==> Expiring(p.at))
    requires var at' := CallOf(PcOf(m', t)).at;
             at'.ToTest? || at'.ToPlace? ==> Now(m'.c) == Now(m.c) && (p.at.ToTest? || p.at.ToPlace?)
    ensures Patient(m', t, due)
  {
    hide Now, SnapshotOf;
  }

  // The call's own steps.
  lemma OwnStepPatient(m: Machine, p: Pc, due: nat)
    requires Inv(m) && m.c.cur != m.idle && PcOf(m, m.c.cur) == p && p.InQueue? && Patient(m, m.c.cur, due)
    requires !ChecksBlind(m, Continue, m.c.cur, due)
    requires Sound(m.c.ls) && (p.at.ToResume? ==> m.c.suspended > 0) && Now(QueueStep(m, p).c) >= Now(m.c)
    ensures var m' := QueueStep(m, p);
            if PcOf(m', m.c.cur).User? then Succeeds(m, Continue, m.c.cur) || Now(m.c) >= due
               else Patient(m', m.c.cur, due)
  {
    hide EventHome, Home, CoreOk, PriorityOk, QueuesOk, CurOk, Sound, CanGo, Blind, SnapshotOf, Now, QueueOf,
         QueueTop, QueueCheck, QueuePlace, QueueResume, CheckForTimeOut, MustBlock, UnlockSide, LockQueue, SuspendAll;
    assert TaskPcOk(m, m.c.cur);
    if p.at.ToCheck? {
      TickFits(m);
      CheckKeeps(m.c, p.to, p.wait, due);
      CheckMoves(m, p);
    } else {
      NoCheckPatient(m, p, due);
    }
  }

  lemma NoCheckPatient(m: Machine, p: Pc, due: nat)
    requires PcOf(m, m.c.cur) == p && p.InQueue? && Patient(m, m.c.cur, due) && !p.at.ToCheck?
    requires Sound(m.c.ls) && (p.at.ToResume? ==> m.c.suspended > 0) && Now(QueueStep(m, p).c) >= Now(m.c)
    ensures var m' := QueueStep(m, p);
            if PcOf(m', m.c.cur).User? then Succeeds(m, Continue, m.c.cur) || Now(m.c) >= due
               else Patient(m', m.c.cur, due)
  {
    hide Sound, CanGo, SnapshotOf, Now, QueueOf, QueueTop, QueueCheck, QueuePlace, QueueResume, UnlockSide, LockQueue,
         SuspendAll, MustBlock;
    var m' := QueueStep(m, p);
    if p.at.AtTop? {
      TopMoves(m, p);
      if !PcOf(m', m.c.cur).User? { SameCallPatient(m, m', m.c.cur, p, due); }
    } else {
      OtherStages(m, p);
      if !PcOf(m', m.c.cur).User? { SameCallPatient(m, m', m.c.cur, p, due); }
    }
  }

  lemma YieldPatient(m: Machine, next: Pc, due: nat)
    requires Patient(m, m.c.cur, due) && PcOf(m, m.c.cur) == Yielding(next) && PcRange(m.c, Yielding(next))
    requires Now(SwitchContext(m.c)) >= Now(m.c)
    ensures Patient(Do(Goto(m, next), SwitchContext(m.c)), m.c.cur, due)
  {
    hide SwitchContext, Now, SnapshotOf;
  }

  // A step of the task itself.
  lemma GoPatient(m: Machine, due: nat)
    requires Inv(m) && Enabled(m, Continue) && m.c.pended < TWO_32 && Patient(m, m.c.cur, due)
    requires !ChecksBlind(m, Continue, m.c.cur, due)
    ensures Sound(m.c.ls) && CanResume(m)
    ensures if PcOf(Go(m), m.c.cur).User? then Succeeds(m, Continue, m.c.cur) || Now(m.c) >= due
            else Patient(Go(m), m.c.cur, due)
  {
    hide EventHome, Home, CoreOk, PriorityOk, QueuesOk, CurOk, Sound, Now, SwitchContext, QueueStep, DelayStep,
         NotifyStep, ChecksBlind, Succeeds, AllSleep;
    Runs.Ready(m);
    GoTime(m);
    var p := PcOf(m, m.c.cur);
    assert PcOf(m, m.idle) == User;
    assert TaskPcOk(m, m.c.cur);
    if p.Yielding? { YieldPatient(m, p.next, due); } else { OwnStepPatient(m, p, due); }
  }

  // A step of somebody else, or an interrupt.
  lemma OtherPatient(m: Machine, s: Step, t: Task, due: nat)
    requires Inv(m) && Enabled(m, s) && m.c.pended < TWO_32 && Patient(m, t, due) && !(s.Continue? && t == m.c.cur)
    ensures Sound(m.c.ls) && CanResume(m) && Patient(Apply(m, s), t, due)
  {
    hide EventHome, Home, CoreOk, PriorityOk, QueuesOk, Sound, Now, SnapshotOf, Apply, AllSleep, Enabled, PcRange,
         ParkedOn, NotifyPc, MayBeListed, Away;
    StepKeeps(m, s);
    StepTime(m, s);
    var m' := Apply(m, s);
    assert TaskPcOk(m, t) && TaskPcOk(m', t);
    if t == m.c.cur {
      OwnPcStays(m, s);
    } else {
      NotCreated(m, s, t);
      OtherPcs(m, s, t);
    }
    AboutToBlock(m, t);
    if Holding(PcOf(m, t)) { assert t == m.c.cur && t == m'.c.cur && m.c.suspended == 1 == m'.c.suspended; }
    SameCallPatient(m, m', t, CallOf(PcOf(m, t)), due);
  }

  lemma AboutToBlock(m: Machine, t: Task)
    requires PcRange(m.c, PcOf(m, t))
    ensures var p := CallOf(PcOf(m, t)); p.InQueue? && (p.at.ToTest? || p.at.ToPlace?) ==> Holding(PcOf(m, t))
  {}

  // Interrupts leave the running task's program counter alone, and it calls nothing within a call.
  lemma OwnPcStays(m: Machine, s: Step)
    requires Sound(m.c.ls) && CanResume(m) && Enabled(m, s) && !s.Continue? && !PcOf(m, m.c.cur).User?
    ensures PcOf(Apply(m, s), m.c.cur) == PcOf(m, m.c.cur)
  {
    hide CanResume, Sound, CallAllowed, Tick, SendFromISR, ReceiveFromISR, NotifyFromISR, ResumeFromISR,
         SwitchContext, Go;
    TickPc(m);
  }

  lemma TickPc(m: Machine)
    requires Sound(m.c.ls)
    ensures Tick(m).pc == m.pc
  {
    hide Sound, IncrementTick, SwitchContext;
  }

  /** One step, for a task in a queue call with a finite wait: its deadline stays; or its call
      ends, and then either it has got what it wanted or the deadline has come. */
  lemma StepPatient(m: Machine, s: Step, t: Task, due: nat)
    requires Inv(m) && Enabled(m, s) && m.c.pended < TWO_32 && Patient(m, t, due) && !ChecksBlind(m, s, t, due)
    ensures Sound(m.c.ls) && CanResume(m)
    ensures Patient(Apply(m, s), t, due) || (PcOf(Apply(m, s), t).User? && (Succeeds(m, s, t) || Now(m.c) >= due))
  {
    hide Inv, Sound, CanResume, Patient, ChecksBlind, Succeeds, Now, Apply, Enabled, Go;
    if s.Continue? && t == m.c.cur {
      GoPatient(m, due);
      GoIsContinue(m);
    } else {
      OtherPatient(m, s, t, due);
    }
  }

  /* ----- whole runs ----- */

  // Task t stays in its call, and no check of its comes too late to tell.
  ghost predicate StaysCalling(m: Machine, ss: seq<Step>, t: Task, due: nat)
    requires Inv(m) && Possible(m, ss)
    decreases |ss|
  {
    !PcOf(m, t).User? && (ss == [] || (!ChecksBlind(m, ss[0], t, due)
                                       && (StepKeeps(m, ss[0]); StaysCalling(Apply(m, ss[0]), ss[1..], t, due))))
  }

  lemma {:induction false} DeadlineKept(m: Machine, ss: seq<Step>, t: Task, due: nat)
    requires Inv(m) && Possible(m, ss) && m.c.pended < TWO_32 && Patient(m, t, due) && StaysCalling(m, ss, t, due)
    ensures Patient(Exec(m, ss), t, due) && Exec(m, ss).c.pended < TWO_32
    decreases |ss|
  {
    hide Inv, Apply, Enabled, Patient, ChecksBlind, Succeeds, Now, AllSleep, PendedWraps, Sound, CanResume;
    if ss != [] {
      StepKeeps(m, ss[0]);
      StepTime(m, ss[0]);
      StepPatient(m, ss[0], t, due);
      StillCalling(Apply(m, ss[0]), ss[1..], t, due);
      DeadlineKept(Apply(m, ss[0]), ss[1..], t, due);
    }
  }

  lemma StillCalling(m: Machine, ss: seq<Step>, t: Task, due: nat)
    requires Inv(m) && Possible(m, ss) && StaysCalling(m, ss, t, due)
    ensures !PcOf(m, t).User?
  {
    hide Inv, Possible, ChecksBlind;
  }

  /** A blocking send, receive or peek with a finite wait ends without success only at or after
      the deadline it fixed when it first found nothing, through any interleaving of other tasks
      and interrupts and any number of wake-ups in vain. */
  lemma NeverEarly(m: Machine, ss: seq<Step>, s: Step, t: Task, due: nat)
    requires Inv(m) && Possible(m, ss) && m.c.pended < TWO_32 && Patient(m, t, due) && StaysCalling(m, ss, t, due)
    requires Enabled(Exec(m, ss), s) && !ChecksBlind(Exec(m, ss), s, t, due)
    ensures var m1 := Exec(m, ss);
            && Sound(m1.c.ls) && CanResume(m1)
            && (PcOf(Apply(m1, s), t).User? ==> Succeeds(m1, s, t) || Now(m1.c) >= due)
            && (!PcOf(Apply(m1, s), t).User? ==> Patient(Apply(m1, s), t, due))
  {
    hide Inv, Apply, Enabled, Patient, ChecksBlind, Succeeds, Now, Possible, Exec, StaysCalling, Sound, CanResume;
    DeadlineKept(m, ss, t, due);
    StepPatient(Exec(m, ss), s, t, due);
    PatientCalls(Apply(Exec(m, ss), s), t, due);
  }

  lemma PatientCalls(m: Machine, t: Task, due: nat)
    ensures Patient(m, t, due) ==> !PcOf(m, t).User?
  {}

  /** Whenever it blocks, it is put to sleep until that very deadline. */
  lemma SleepsUntilDeadline(m: Machine, due: nat)
    requires Inv(m) && m.c.cur != m.idle && Patient(m, m.c.cur, due) && PcOf(m, m.c.cur).InQueue?
    requires PcOf(m, m.c.cur).at.ToPlace?
    ensures var c' := QueuePlace(m, PcOf(m, m.c.cur)).c; Delayed(c', m.c.cur) && Deadline(c', m.c.cur) == due
  {
    hide Sound, TaskOk, PriorityOk, QueuesOk, Home, EventHome, Clocked, PlaceOnEventList, Deadline, Now, SnapshotOf;
    var p := PcOf(m, m.c.cur);
    assert TaskPcOk(m, m.c.cur);
    Priority.ShapedSound(m.c);
    InPrio(m.c, m.c.cur);
    PlaceOnEventListTimed(m.c, Wait(p.q, SideOf(p.op)), p.wait);
  }
}

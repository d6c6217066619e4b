/** The other half of a queue call's time-out: it does not outlast its deadline. */
module Punctual {
  import opened Config
  import opened Lists
  import opened Kernel
  import opened Queues
  import opened Shape
  import opened Clock
  import opened Timeouts
  import opened Machine
  import opened Invariant
  import opened Steps
  import opened Runs
  import opened Timeline
  import opened Theorems
  import opened Deadlines
  import Heeding

  // How many steps of its own a call can take at most once its deadline has come.
  function StepsLeft(p: Pc): nat {
    match p
    case Yielding(next) => 1 + StepsLeft(next)
    case InQueue(_, _, wait, _, _, at) =>
      (match at
       case AtTop => if wait == 0 then 1 else 9
       case ToSuspend => 8
       case ToLock => 7
       case ToCheck => 6
       case ToTest => 15
       case ToPlace => 14
       case ToUnlockTx(a) => if a.Expired? then 5 else 13
       case ToUnlockRx(a) => if a.Expired? then 4 else 12
       case ToResume(a) => if a.Expired? then 3 else 11
       case ToRetest => 2)
    case _ => 0
  }

  // The task is ready to go on with its call, or sleeps until its deadline.
  ghost predicate Prompt(m: Machine, t: Task, due: nat) {
    Patient(m, t, due) && (OnReady(Home(m.c.ls, t)) || (Delayed(m.c, t) && Deadline(m.c, t) == due))
  }

  // A task that has just fixed its deadline is ready.
  lemma StartsPrompt(m: Machine)
    requires Inv(m) && m.c.cur != m.idle
    requires var p := PcOf(m, m.c.cur);
             p.InQueue? && p.at.AtTop? && !p.timed && 0 < p.wait < MAX_DELAY && !CanGo(QueueOf(m.c, p.q), p.op)
    ensures Sound(m.c.ls) && CanResume(m) && Prompt(Go(m), m.c.cur, Now(m.c) + PcOf(m, m.c.cur).wait)
  {
    hide EventHome, Home, PriorityOk, QueuesOk, Shaped, Clocked, Attempt, WokenOf, Patient, TaskPcOk, Deadline, Now,
         CanGo;
    FixesDeadline(m);
  }

  // At the deadline or later the call is past the tests that lead it to block.
  lemma PastBlocking(m: Machine, t: Task, due: nat)
    requires Patient(m, t, due) && PcRange(m.c, PcOf(m, t)) && Now(m.c) >= due
    ensures StepsLeft(PcOf(m, t)) <= 13 && !CallOf(PcOf(m, t)).at.ToTest? && !CallOf(PcOf(m, t)).at.ToPlace?
  {
    hide Now, SnapshotOf;
  }

  lemma StillLeft(m: Machine, t: Task, due: nat)
    ensures Patient(m, t, due) ==> StepsLeft(PcOf(m, t)) > 0
  {
    hide Now, SnapshotOf;
  }

  /* ----- the call's own steps ----- */

  lemma PlainCloser(m: Machine, p: Pc)
    requires p.InQueue? && Sound(m.c.ls) && (p.at.ToSuspend? || p.at.ToRetest?) && (p.at.ToRetest? ==> p.wait == 0)
    ensures StepsLeft(PcOf(QueueStep(m, p), m.c.cur)) < StepsLeft(p)
  {
    hide Sound, QueueOf;
  }

  lemma ResumeCloser(m: Machine, p: Pc)
    requires p.InQueue? && p.at.ToResume? && Sound(m.c.ls) && m.c.suspended > 0
    ensures StepsLeft(PcOf(QueueStep(m, p), m.c.cur)) < StepsLeft(p)
  {
    hide Sound, ResumeAll;
  }

  lemma TopCloser(m: Machine, p: Pc)
    requires p.InQueue? && p.at.AtTop? && p.timed && Sound(m.c.ls)
    ensures StepsLeft(PcOf(QueueStep(m, p), m.c.cur)) < StepsLeft(p)
  {
    hide Sound, QueueTop, CanGo, QueueOf;
    TopMoves(m, p);
  }

  lemma CheckCloser(m: Machine, p: Pc, due: nat)
    requires Inv(m) && p.InQueue? && p.at.ToCheck? && PcOf(m, m.c.cur) == p && Patient(m, m.c.cur, due)
    requires Now(m.c) >= due
    requires !ChecksBlind(m, Continue, m.c.cur, due) && m.c.cur != m.idle && Sound(m.c.ls)
    ensures StepsLeft(PcOf(QueueStep(m, p), m.c.cur)) < StepsLeft(p)
  {
    hide EventHome, Home, CoreOk, PriorityOk, QueuesOk, CurOk, Sound, Blind, SnapshotOf, Now, QueueCheck,
         CheckForTimeOut;
    assert TaskPcOk(m, m.c.cur);
    TickFits(m);
    CheckKeeps(m.c, p.to, p.wait, due);
    CheckMoves(m, p);
  }

  lemma CallCloser(m: Machine, p: Pc, due: nat)
    requires Inv(m) && m.c.cur != m.idle && PcOf(m, m.c.cur) == p && p.InQueue? && Patient(m, m.c.cur, due)
    requires Now(m.c) >= due
    requires !ChecksBlind(m, Continue, m.c.cur, due)
    ensures Sound(m.c.ls) && (p.at.ToResume? ==> m.c.suspended > 0)
    ensures StepsLeft(PcOf(QueueStep(m, p), m.c.cur)) < StepsLeft(p)
  {
    hide EventHome, Home, CoreOk, PriorityOk, QueuesOk, Sound, Blind, SnapshotOf, Now, QueueStep, ChecksBlind;
    CoreShaped(m.c, m.idle);
    assert TaskPcOk(m, m.c.cur);
    PastBlocking(m, m.c.cur, due);
    match p.at
    case AtTop => TopCloser(m, p);
    case ToCheck => CheckCloser(m, p, due);
    case ToLock => LockMoves(m, p);
    case ToUnlockTx(a) => UnlockMoves(m, p);
    case ToUnlockRx(a) => UnlockMoves(m, p);
    case ToResume(a) => ResumeCloser(m, p);
    case _ => PlainCloser(m, p);
  }

  lemma GoCloser(m: Machine, due: nat)
    requires Inv(m) && Enabled(m, Continue) && Patient(m, m.c.cur, due) && Now(m.c) >= due
    requires !ChecksBlind(m, Continue, m.c.cur, due)
    ensures Sound(m.c.ls) && CanResume(m) && StepsLeft(PcOf(Go(m), m.c.cur)) < StepsLeft(PcOf(m, m.c.cur))
  {
    hide EventHome, Home, CoreOk, PriorityOk, QueuesOk, CurOk, Sound, Now, SwitchContext, QueueStep, DelayStep,
         NotifyStep, ChecksBlind, SnapshotOf;
    Runs.Ready(m);
    assert PcOf(m, m.idle) == User;
    if PcOf(m, m.c.cur).InQueue? { CallCloser(m, PcOf(m, m.c.cur), due); }
  }

  // Whether the step is the task's own.
  predicate Own(m: Machine, s: Step, t: Task) { s.Continue? && t == m.c.cur }

  /** From the deadline on, each of the call's own steps brings it closer to its end, and no other
      step takes it further away. */
  lemma StepCloser(m: Machine, s: Step, t: Task, due: nat)
    requires Inv(m) && Enabled(m, s) && Patient(m, t, due) && Now(m.c) >= due && !ChecksBlind(m, s, t, due)
    ensures Sound(m.c.ls) && CanResume(m)
    ensures StepsLeft(PcOf(Apply(m, s), t)) + (if Own(m, s, t) then 1 else 0) <= StepsLeft(PcOf(m, t))
  {
    hide Inv, Sound, CanResume, Patient, ChecksBlind, Now, Apply, Enabled, Go, StepsLeft;
    Runs.Ready(m);
    if Own(m, s, t) {
      GoCloser(m, due);
      GoIsContinue(m);
    } else {
      PatientPc(m, t, due);
      if t == m.c.cur {
        OwnPcStays(m, s);
      } else {
        NotCreated(m, s, t);
        OtherPcs(m, s, t);
      }
    }
  }

  lemma PatientPc(m: Machine, t: Task, due: nat)
    requires Inv(m) && Patient(m, t, due)
    ensures !PcOf(m, t).User? && t in m.c.prio && PcRange(m.c, PcOf(m, t))
  {
    hide EventHome, Home, CoreOk, PriorityOk, QueuesOk, CurOk, Now, SnapshotOf, PcRange, ParkedOn, NotifyPc;
    assert TaskPcOk(m, t);
  }

  /* ----- where the task is ----- */

  /** One step other than the task's suspension keeps it ready, or asleep until its deadline, and
      no longer. */
  lemma StepPrompt(m: Machine, s: Step, t: Task, due: nat)
    requires Inv(m) && Enabled(m, s) && m.c.pended < TWO_32 && Prompt(m, t, due) && !ChecksBlind(m, s, t, due)
    requires s != CallSuspend(t)
    ensures Sound(m.c.ls) && CanResume(m)
    ensures Prompt(Apply(m, s), t, due) || PcOf(Apply(m, s), t).User?
  {
    hide Inv, Sound, CanResume, Patient, ChecksBlind, Succeeds, Now, Apply, Enabled, Go, Home, EventHome, Deadline;
    StepPatient(m, s, t, due);
    PatientPc(m, t, due);
    if Own(m, s, t) && PcOf(m, t).InQueue? && PcOf(m, t).at.ToPlace? {
      PlacePrompt(m, due);
      GoIsContinue(m);
    } else {
      if Own(m, s, t) { StaysUpPatient(m, t, due); }
      Heeding.StepHeeds(m, s, t);
      StepTime(m, s);
      assert Sleeps(m.c, Apply(m, s).c, t);
    }
  }

  lemma StaysUpPatient(m: Machine, t: Task, due: nat)
    requires Patient(m, t, due) && !(PcOf(m, t).InQueue? && PcOf(m, t).at.ToPlace?)
    ensures Heeding.StaysUp(PcOf(m, t))
  {
    hide Now, SnapshotOf;
  }

  lemma PlacePrompt(m: Machine, due: nat)
    requires Inv(m) && Patient(m, m.c.cur, due) && PcOf(m, m.c.cur).InQueue? && PcOf(m, m.c.cur).at.ToPlace?
    ensures Sound(m.c.ls) && CanResume(m) && Delayed(Go(m).c, m.c.cur) && Deadline(Go(m).c, m.c.cur) == due
  {
    hide EventHome, Home, CoreOk, PriorityOk, QueuesOk, TaskPcOk, CurOk, Sound, Now, Patient, Deadline, QueuePlace;
    Runs.Ready(m);
    assert PcOf(m, m.idle) == User;
    SleepsUntilDeadline(m, due);
  }

  lemma ReadyWhenDue(m: Machine, t: Task, due: nat)
    requires Inv(m) && Prompt(m, t, due) && Now(m.c) >= due
    ensures OnReady(Home(m.c.ls, t))
  {
    hide Home, Patient, Deadline, Now, PcOk, PriorityOk, QueuesOk, Clocked, Shaped;
    if Delayed(m.c, t) { DeadlineAhead(m.c, t); }
  }

  /* ----- whole runs ----- */

  // How many steps of its own task t takes in a run at or after time due.
  ghost function LateSteps(m: Machine, ss: seq<Step>, t: Task, due: nat): nat
    requires Inv(m) && Possible(m, ss)
    decreases |ss|
  {
    if ss == [] then 0
    else
      StepKeeps(m, ss[0]);
      (if Now(m.c) >= due && Own(m, ss[0], t) then 1 else 0) + LateSteps(Apply(m, ss[0]), ss[1..], t, due)
  }

  ghost function LeftNow(m: Machine, t: Task, due: nat): nat { if Now(m.c) >= due then StepsLeft(PcOf(m, t)) else 13 }

  lemma {:induction false} RunPrompt(m: Machine, ss: seq<Step>, t: Task, due: nat)
    requires Inv(m) && Possible(m, ss) && m.c.pended < TWO_32 && Prompt(m, t, due) && StaysCalling(m, ss, t, due)
    requires CallSuspend(t) !in ss
    ensures Prompt(Exec(m, ss), t, due)
    ensures LateSteps(m, ss, t, due) + LeftNow(Exec(m, ss), t, due) <= LeftNow(m, t, due)
    decreases |ss|
  {
    hide Inv, Apply, Enabled, Prompt, ChecksBlind, Succeeds, Now, AllSleep, PendedWraps, Sound, CanResume, StepsLeft;
    if ss != [] {
      StepKeeps(m, ss[0]);
      var m' := Apply(m, ss[0]);
      StepTime(m, ss[0]);
      StepPrompt(m, ss[0], t, due);
      StillCalling(m', ss[1..], t, due);
      IsPatient(m, t, due);
      IsPatient(m', t, due);
      if Now(m.c) >= due {
        StepCloser(m, ss[0], t, due);
      } else if Now(m'.c) >= due {
        PatientPc(m', t, due);
        PastBlocking(m', t, due);
      }
      RunPrompt(m', ss[1..], t, due);
    }
  }

  lemma IsPatient(m: Machine, t: Task, due: nat)
    requires Prompt(m, t, due)
    ensures Patient(m, t, due)
  {
    hide Patient, Home, Deadline;
  }

  /** Never late: through any run that does not suspend it, a task in a blocking send, receive or
      peek whose deadline has come is ready, and while its call lasts has taken fewer than thirteen
      steps of its own since, so that the call cannot block again or otherwise outlast them. */
  lemma NeverLate(m: Machine, ss: seq<Step>, t: Task, due: nat)
    requires Inv(m) && Possible(m, ss) && m.c.pended < TWO_32 && Prompt(m, t, due) && StaysCalling(m, ss, t, due)
    requires CallSuspend(t) !in ss
    ensures Now(Exec(m, ss).c) >= due ==> OnReady(Home(Exec(m, ss).c.ls, t))
    ensures LateSteps(m, ss, t, due) < 13
  {
    hide Inv, Prompt, Now, StepsLeft, Possible, Exec, StaysCalling, LateSteps, Home;
    RunPrompt(m, ss, t, due);
    IsPatient(m, t, due);
    IsPatient(Exec(m, ss), t, due);
    StillLeft(Exec(m, ss), t, due);
    if Now(m.c) >= due {
      PatientPc(m, t, due);
      PastBlocking(m, t, due);
    }
    if Now(Exec(m, ss).c) >= due { ReadyWhenDue(Exec(m, ss), t, due); }
  }
}

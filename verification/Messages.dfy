/** The messages in a queue over whole runs: what goes in comes out once, and in order. */
module Messages {
  import opened Lists
  import opened Kernel
  import opened Queues
  import opened Machine
  import opened Invariant
  import opened Boot
  import opened Runs
  import opened Theorems
  import opened Counting

  // What a queue of items of this size holds after event e, x being the message a sender brings.
  function Change<T>(items: seq<T>, e: QueueEvent, x: T, size: nat): seq<T> {
    match e
    case Put(pos) => AfterCopy(items, x, pos, size)
    case Got => if items == [] then [] else items[1..]
    case Cleared => []
    case Quiet => items
  }

  // The messages of queue q after a run, xs[i] being what step i brings if it sends.
  ghost function Contents<T>(m: Machine, ss: seq<Step>, xs: seq<T>, q: QueueId, items: seq<T>): seq<T>
    requires Inv(m) && Possible(m, ss) && |xs| == |ss|
    decreases |ss|
  {
    if ss == [] then items
    else
      StepKeeps(m, ss[0]);
      var held := Change(items, EventOf(m, ss[0], q), xs[0], QueueOf(m.c, q).itemSize);
      Contents(Apply(m, ss[0]), ss[1..], xs[1..], q, held)
  }

  // The messages sent to queue q in a run, in the order of sending.
  ghost function Sent<T>(m: Machine, ss: seq<Step>, xs: seq<T>, q: QueueId): seq<T>
    requires Inv(m) && Possible(m, ss) && |xs| == |ss|
    decreases |ss|
  {
    if ss == [] then []
    else
      StepKeeps(m, ss[0]);
      (if EventOf(m, ss[0], q).Put? then [xs[0]] else []) + Sent(Apply(m, ss[0]), ss[1..], xs[1..], q)
  }

  // What one step takes from the head of the queue for a receiver.
  function Taken<T>(items: seq<T>, e: QueueEvent): seq<T> { if e.Got? && items != [] then [items[0]] else [] }

  // The messages received from queue q in a run, in the order of receiving.
  ghost function Received<T>(m: Machine, ss: seq<Step>, xs: seq<T>, q: QueueId, items: seq<T>): seq<T>
    requires Inv(m) && Possible(m, ss) && |xs| == |ss|
    decreases |ss|
  {
    if ss == [] then []
    else
      StepKeeps(m, ss[0]);
      var e := EventOf(m, ss[0], q);
      var held := Change(items, e, xs[0], QueueOf(m.c, q).itemSize);
      Taken(items, e) + Received(Apply(m, ss[0]), ss[1..], xs[1..], q, held)
  }

  // What one step discards: the message it overwrites, or all of them.
  function Dropped<T>(items: seq<T>, e: QueueEvent, size: nat): seq<T> {
    match e
    case Put(pos) => if pos.Overwrite? && size != 0 && items != [] then [items[0]] else []
    case Cleared => items
    case _ => []
  }

  ghost function Discarded<T>(m: Machine, ss: seq<Step>, xs: seq<T>, q: QueueId, items: seq<T>): seq<T>
    requires Inv(m) && Possible(m, ss) && |xs| == |ss|
    decreases |ss|
  {
    if ss == [] then []
    else
      StepKeeps(m, ss[0]);
      var (e, size) := (EventOf(m, ss[0], q), QueueOf(m.c, q).itemSize);
      Dropped(items, e, size) + Discarded(Apply(m, ss[0]), ss[1..], xs[1..], q, Change(items, e, xs[0], size))
  }

  // The messages are as many as the queue counts.
  predicate Holds<T>(c: Core, q: QueueId, items: seq<T>) { q in c.queues ==> |items| == c.queues[q].count }

  lemma StepHolds<T>(m: Machine, s: Step, x: T, q: QueueId, items: seq<T>)
    requires Inv(m) && Enabled(m, s) && Holds(m.c, q, items)
    ensures Sound(m.c.ls) && CanResume(m)
    ensures Holds(Apply(m, s).c, q, Change(items, EventOf(m, s, q), x, QueueOf(m.c, q).itemSize))
    ensures q in m.c.queues ==> q in Apply(m, s).c.queues
  {
    hide Inv, Sound, CanResume, Enabled, Apply, EventOf;
    StepCountsBy(m, s, q);
  }

  lemma {:induction false} RunHolds<T>(m: Machine, ss: seq<Step>, xs: seq<T>, q: QueueId, items: seq<T>)
    requires Inv(m) && Possible(m, ss) && |xs| == |ss| && Holds(m.c, q, items)
    ensures Holds(Exec(m, ss).c, q, Contents(m, ss, xs, q, items)) && (q in m.c.queues ==> q in Exec(m, ss).c.queues)
    decreases |ss|
  {
    hide Inv, Sound, CanResume, Enabled, Apply, EventOf, Holds, Change;
    if ss != [] {
      StepKeeps(m, ss[0]);
      StepHolds(m, ss[0], xs[0], q, items);
      RunHolds(Apply(m, ss[0]), ss[1..], xs[1..], q,
               Change(items, EventOf(m, ss[0], q), xs[0], QueueOf(m.c, q).itemSize));
    }
  }

  /* ----- order ----- */

  // The run sends to the back of queue q only, and neither resets nor creates it.
  ghost predicate BackOnly(m: Machine, ss: seq<Step>, q: QueueId)
    requires Inv(m) && Possible(m, ss)
    decreases |ss|
  {
    ss == [] || (StepKeeps(m, ss[0]);
                 var e := EventOf(m, ss[0], q);
                 !e.Cleared? && (e.Put? ==> e.pos.Back?) && BackOnly(Apply(m, ss[0]), ss[1..], q))
  }

  lemma BackChange<T>(items: seq<T>, e: QueueEvent, x: T, size: nat)
    requires !e.Cleared? && (e.Put? ==> e.pos.Back?)
    ensures items + (if e.Put? then [x] else []) == Taken(items, e) + Change(items, e, x, size)
  {}

  lemma {:induction false} BackRun<T>(m: Machine, ss: seq<Step>, xs: seq<T>, q: QueueId, items: seq<T>)
    requires Inv(m) && Possible(m, ss) && |xs| == |ss| && BackOnly(m, ss, q)
    ensures items + Sent(m, ss, xs, q) == Received(m, ss, xs, q, items) + Contents(m, ss, xs, q, items)
    decreases |ss|
  {
    hide Inv, Apply, Enabled, Sound, CanResume, EventOf, Change, Taken;
    if ss != [] {
      StepKeeps(m, ss[0]);
      var (e, size, m') := (EventOf(m, ss[0], q), QueueOf(m.c, q).itemSize, Apply(m, ss[0]));
      var held := Change(items, e, xs[0], size);
      BackChange(items, e, xs[0], size);
      BackRun(m', ss[1..], xs[1..], q, held);
      Regroup(items, if e.Put? then [xs[0]] else [], Sent(m', ss[1..], xs[1..], q), Taken(items, e), held,
              Received(m', ss[1..], xs[1..], q, held), Contents(m', ss[1..], xs[1..], q, held));
    }
  }

  lemma Regroup<T>(items: seq<T>, put: seq<T>, sent: seq<T>, taken: seq<T>, held: seq<T>, received: seq<T>,
                   rest: seq<T>)
    requires items + put == taken + held && held + sent == received + rest
    ensures items + (put + sent) == (taken + received) + rest
  {
    assert items + (put + sent) == taken + held + sent;
    assert taken + (held + sent) == taken + held + sent;
  }

  /** First in, first out: in every run from the start that sends to a queue's back only, what
      has been received from it, followed by what it still holds, is what has been sent to it, in
      the order of sending, whoever sends and receives and however they block; and it holds as
      many messages as it counts. */
  lemma FirstInFirstOut<T>(ps: seq<nat>, qs: map<QueueId, Queue>, ss: seq<Step>, xs: seq<T>, q: QueueId)
    requires RunsFromStart(ps, qs, ss) && |xs| == |ss| && q in qs && BackOnly(Begun(ps, qs, ss), ss, q)
    ensures var (m, c) := (Begun(ps, qs, ss), Reached(ps, qs, ss).c);
            && Sent(m, ss, xs, q) == Received(m, ss, xs, q, []) + Contents(m, ss, xs, q, [])
            && q in c.queues && c.queues[q].count == |Contents(m, ss, xs, q, [])|
  {
    hide Inv, Start, Possible, Exec, BackOnly, Sent, Received, Contents;
    StartHolds<T>(ps, qs, q);
    BackRun(Begun(ps, qs, ss), ss, xs, q, []);
    RunHolds(Begun(ps, qs, ss), ss, xs, q, []);
  }

  lemma StartHolds<T>(ps: seq<nat>, qs: map<QueueId, Queue>, q: QueueId)
    requires FreshQueues(qs)
    ensures Holds<T>(Start(ps, qs).c, q, []) && Start(ps, qs).c.queues == qs
  {
    hide Created;
  }

  /* ----- conservation ----- */

  lemma ChangeConserves<T>(items: seq<T>, e: QueueEvent, x: T, size: nat)
    ensures multiset(items) + multiset(if e.Put? then [x] else []) ==
            multiset(Taken(items, e)) + multiset(Dropped(items, e, size)) + multiset(Change(items, e, x, size))
  {
    match e
    case Put(pos) => CopyConserves(items, x, pos, size);
    case Got => if items != [] { HeadApart(items); }
    case _ =>
  }

  lemma HeadApart<T>(items: seq<T>)
    requires items != []
    ensures multiset(items) == multiset([items[0]]) + multiset(items[1..])
  {
    assert items == [items[0]] + items[1..];
  }

  lemma CopyConserves<T>(items: seq<T>, x: T, pos: Position, size: nat)
    ensures multiset(items) + multiset([x]) == multiset(Dropped(items, Put(pos), size))
            + multiset(AfterCopy(items, x, pos, size))
  {
    if pos.Overwrite? && items != [] { HeadApart(items); }
  }

  lemma Pool<T>(items: seq<T>, put: seq<T>, sent: seq<T>, taken: seq<T>, received: seq<T>, dropped: seq<T>,
                discarded: seq<T>, held: seq<T>, rest: seq<T>)
    requires multiset(items) + multiset(put) == multiset(taken) + multiset(dropped) + multiset(held)
    requires multiset(held) + multiset(sent) == multiset(received) + multiset(discarded) + multiset(rest)
    ensures multiset(items) + multiset(put + sent) == multiset(taken + received) + multiset(dropped + discarded)
            + multiset(rest)
  {
    PoolSums(multiset(items), multiset(put), multiset(sent), multiset(taken), multiset(received), multiset(dropped),
             multiset(discarded),
             multiset(held), multiset(rest));
  }

  lemma PoolSums<T>(items: multiset<T>, put: multiset<T>, sent: multiset<T>, taken: multiset<T>, received: multiset<T>,
                    dropped: multiset<T>, discarded: multiset<T>, held: multiset<T>, rest: multiset<T>)
    requires items + put == taken + dropped + held && held + sent == received + discarded + rest
    ensures items + (put + sent) == taken + received + (dropped + discarded) + rest
  {
    forall x: T ensures (items + (put + sent))[x] == (taken + received + (dropped + discarded) + rest)[x] {
      assert (items + put)[x] == (taken + dropped + held)[x] && (held + sent)[x] == (received + discarded + rest)[x];
    }
  }

  lemma {:induction false} RunConserves<T>(m: Machine, ss: seq<Step>, xs: seq<T>, q: QueueId, items: seq<T>)
    requires Inv(m) && Possible(m, ss) && |xs| == |ss|
    ensures multiset(items) + multiset(Sent(m, ss, xs, q)) ==
            multiset(Received(m, ss, xs, q, items)) + multiset(Discarded(m, ss, xs, q, items))
            + multiset(Contents(m, ss, xs, q, items))
    decreases |ss|
  {
    hide Inv, Apply, Enabled, Sound, CanResume, EventOf, Change, Taken, Dropped;
    if ss != [] {
      StepKeeps(m, ss[0]);
      var (e, size) := (EventOf(m, ss[0], q), QueueOf(m.c, q).itemSize);
      ChangeConserves(items, e, xs[0], size);
      var (m', held) := (Apply(m, ss[0]), Change(items, e, xs[0], size));
      RunConserves(m', ss[1..], xs[1..], q, held);
      Pool(items, if e.Put? then [xs[0]] else [], Sent(m', ss[1..], xs[1..], q), Taken(items, e),
           Received(m', ss[1..], xs[1..], q, held), Dropped(items, e, size),
           Discarded(m', ss[1..], xs[1..], q, held), held, Contents(m', ss[1..], xs[1..], q, held));
    }
  }

  /** No message is lost, doubled or made up: in every run, whatever the calls and interrupts, what
      a queue held and was sent is what has been received from it, what overwriting and resets have
      discarded, and what it still holds, which is as many messages as it counts. */
  lemma MessageConservation<T>(m: Machine, ss: seq<Step>, xs: seq<T>, q: QueueId, items: seq<T>)
    requires Inv(m) && Possible(m, ss) && |xs| == |ss| && q in m.c.queues && |items| == m.c.queues[q].count
    ensures multiset(items) + multiset(Sent(m, ss, xs, q)) ==
            multiset(Received(m, ss, xs, q, items)) + multiset(Discarded(m, ss, xs, q, items))
            + multiset(Contents(m, ss, xs, q, items))
    ensures q in Exec(m, ss).c.queues && Exec(m, ss).c.queues[q].count == |Contents(m, ss, xs, q, items)|
  {
    hide Inv, Possible, Exec, Sent, Received, Discarded, Contents;
    RunConserves(m, ss, xs, q, items);
    RunHolds(m, ss, xs, q, items);
  }
}

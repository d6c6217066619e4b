/** Time-outs of blocking calls and periodic delays, against the unbounded clock. */
module Timeouts {
  import opened Config
  import opened Lists
  import opened Kernel
  import opened Clock

  // The snapshot that vTaskInternalSetTimeOutState takes at unbounded time s.
  function SnapshotOf(s: nat): TimeOut { TimeOut(s / TWO_32 % TWO_32, s % TWO_32) }

  lemma SnapshotIsNow(c: Core)
    requires c.tick < TWO_32
    ensures SetTimeOut(c) == SnapshotOf(Now(c))
  {
    assert Now(c) / TWO_32 == c.overflows && Now(c) % TWO_32 == c.tick;
  }

  lemma Elapsed(c: Core, s: nat)
    requires c.tick < TWO_32 && s <= Now(c)
    ensures Sub32(c.tick, s % TWO_32) == (Now(c) - s) % TWO_32
    ensures s / TWO_32 <= c.overflows
    ensures (Now(c) - s) / TWO_32 == c.overflows - s / TWO_32 - (if c.tick < s % TWO_32 then 1 else 0)
  {
    var w, t := s / TWO_32, s % TWO_32;
    assert s == TWO_32 * w + t;
    assert Now(c) - s == TWO_32 * (c.overflows - w) + (c.tick - t);
  }

  lemma Wraps(a: nat, b: nat)
    requires a <= b
    ensures a % TWO_32 == b % TWO_32 <==> (b - a) % TWO_32 == 0
  {}

  /* What makes xTaskCheckForTimeOut blind to an expiry: at least 2^32 ticks have passed, the
     tick count is below its value at the snapshot or has wrapped a multiple of 2^32 times, and
     what is left of the elapsed time modulo 2^32 is less than the wait. */
  predicate Blind(c: Core, s: nat, wait: nat)
    requires s <= Now(c)
  {
    && Now(c) - s >= TWO_32
    && (Now(c) - s) % TWO_32 < wait
    && (c.tick < s % TWO_32 || (c.overflows - s / TWO_32) % TWO_32 == 0)
  }

  /** For every finite wait, xTaskCheckForTimeOut reports expiry exactly when the unbounded
      elapsed time has reached the wait, if and only if it is not blind. */
  lemma TimeOutExactIff(c: Core, s: nat, wait: nat)
    requires c.tick < TWO_32 && s <= Now(c) && wait < MAX_DELAY
    ensures (CheckForTimeOut(c, SnapshotOf(s), wait).0 <==> Now(c) - s >= wait) <==> !Blind(c, s, wait)
  {
    Elapsed(c, s);
    Wraps(s / TWO_32, c.overflows);
    var e := Now(c) - s;
    assert e == TWO_32 * (e / TWO_32) + e % TWO_32;
  }

  /** If the tick has wrapped at most once since the snapshot, the report is exact, and unless
      the wait has expired the absolute deadline is unchanged. */
  lemma TimeOutExact(c: Core, s: nat, wait: nat)
    requires c.tick < TWO_32 && s <= Now(c) && wait < MAX_DELAY && c.overflows <= s / TWO_32 + 1
    ensures var (expired, to, left) := CheckForTimeOut(c, SnapshotOf(s), wait);
            && (expired <==> Now(c) - s >= wait)
            && (expired ==> left == 0)
            && (!expired ==> to == SnapshotOf(Now(c)) && left > 0 && Now(c) + left == s + wait)
  {
    Elapsed(c, s);
    TimeOutExactIff(c, s, wait);
    SnapshotIsNow(c);
  }

  // The checks of one blocking call, at the given kernel states, up to the first expiry.
  function Checks(cs: seq<Core>, to: TimeOut, wait: nat): (bool, TimeOut, nat) {
    if cs == [] then (false, to, wait)
    else
      var r := CheckForTimeOut(cs[0], to, wait);
      if r.0 then r else Checks(cs[1..], r.1, r.2)
  }

  // Each check comes no earlier than the one before, and within one wrap of it.
  ghost predicate Spaced(cs: seq<Core>, s: nat) {
    cs != [] ==> cs[0].tick < TWO_32 && s <= Now(cs[0]) && cs[0].overflows <= s / TWO_32 + 1
                 && Spaced(cs[1..], Now(cs[0]))
  }

  /** However many times a blocked task is woken in vain and checks again, its call expires at
      the first check at or after the deadline fixed on entry, and at no other. */
  lemma {:induction false} DeadlineStable(cs: seq<Core>, s: nat, wait: nat)
    requires Spaced(cs, s) && 0 < wait < MAX_DELAY
    ensures Checks(cs, SnapshotOf(s), wait).0 <==> exists i :: 0 <= i < |cs| && Now(cs[i]) >= s + wait
    ensures var (expired, to, left) := Checks(cs, SnapshotOf(s), wait);
            !expired ==>
              var at := if cs == [] then s else Now(cs[|cs| - 1]);
              to == SnapshotOf(at) && at + left == s + wait
  {
    if cs != [] {
      TimeOutExact(cs[0], s, wait);
      var r := CheckForTimeOut(cs[0], SnapshotOf(s), wait);
      if !r.0 {
        DeadlineStable(cs[1..], Now(cs[0]), r.2);
        if exists i :: 0 <= i < |cs| && Now(cs[i]) >= s + wait {
          var i :| 0 <= i < |cs| && Now(cs[i]) >= s + wait;
          assert cs[i] == cs[1..][i - 1];
        }
        if Checks(cs[1..], r.1, r.2).0 {
          var i :| 0 <= i < |cs[1..]| && Now(cs[1..][i]) >= s + wait;
          assert cs[i + 1] == cs[1..][i];
        }
      }
    }
  }

  /* ----- xTaskDelayUntil ----- */

  /** With true previous wake time p, increment i and current time now, all within 2^32 of one
      another, the call delays exactly when the next wake time p + i is still to come, and then
      for just the ticks that remain until it. */
  lemma DelayUntilExact(now: nat, p: nat, i: nat)
    requires p <= now < p + TWO_32 && 0 < i < TWO_32
    ensures var (delay, wake) := DelayUntil(now % TWO_32, p % TWO_32, i);
            && wake == (p + i) % TWO_32
            && (delay <==> p + i > now)
            && (delay ==> 0 < Sub32(wake, now % TWO_32) < TWO_32 && now + Sub32(wake, now % TWO_32) == p + i)
  {
    var w := p / TWO_32;
    assert p == TWO_32 * w + p % TWO_32;
    var u := now / TWO_32;
    assert now == TWO_32 * u + now % TWO_32;
    assert u == w || u == w + 1;
    assert Add32(p % TWO_32, i) == (p + i) % TWO_32;
  }

  // *pxPreviousWakeTime after calls made at these tick counts, first call last in line.
  function StoredAfter(p: nat, i: nat, ticks: seq<nat>): nat {
    if ticks == [] then p % TWO_32 else DelayUntil(ticks[0], StoredAfter(p, i, ticks[1..]), i).1
  }

  /** The stored wake time does not drift: whenever the calls are made, after k of them it is
      the first one plus k increments. */
  lemma {:induction false} NoDrift(p: nat, i: nat, ticks: seq<nat>)
    ensures StoredAfter(p, i, ticks) == (p + |ticks| * i) % TWO_32
  {
    if ticks != [] {
      NoDrift(p, i, ticks[1..]);
      var k := |ticks[1..]|;
      AddMod(p + k * i, i);
      assert (p + k * i) + i == p + (k + 1) * i;
    }
  }

  lemma AddMod(a: nat, b: nat)
    ensures Add32(a % TWO_32, b) == (a + b) % TWO_32
  {}

  /** A task that delays until p + i is blocked with deadline p + i on the unbounded clock. */
  lemma DelayUntilWakes(c: Core, p: nat, i: nat)
    requires Sound(c.ls) && Home(c.ls, c.cur).On? && Clocked(c) && !Delayed(c, c.cur)
    requires p <= Now(c) < p + i && i < TWO_32
    ensures var c' := DelayCurrent(c, Sub32(DelayUntil(c.tick, p % TWO_32, i).1, c.tick), false);
            Delayed(c', c.cur) && Deadline(c', c.cur) == p + i && Clocked(c')
  {
    hide Sound, Home, DelayCurrent, DelayUntil, Sub32;
    assert Now(c) % TWO_32 == c.tick;
    DelayUntilExact(Now(c), p, i);
    DelayCurrentTimed(c, Sub32(DelayUntil(c.tick, p % TWO_32, i).1, c.tick), false);
  }
}

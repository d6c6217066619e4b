/** Bottom-up merging with a comparator that caches as it compares: the runs on values. */
module Merging {
  import opened Arithmetic

  // calc_func's cache and core_list's sort order: by cached value, or by index with the data restored.
  datatype Cmp = Complex | ByIndex

  // list_data
  datatype Datum = Datum(data16: bv16, idx: int)

  function Low(x: bv16): bv16 { x & 0xFF }
  function High(x: bv16): bv16 { x >> 8 }

  function Seven(x: bv16): bv16 { x & 0x7F }
  function Number(x: bv16): int { x as int }

  function KeyOf(k: Cmp, d: Datum): int { if k.Complex? then Number(Seven(d.data16)) else d.idx }

  // The comparator has seen to it: the result is cached, or the data restored from its backup.
  predicate DoneTo(k: Cmp, d: Datum) { if k.Complex? then d.data16 & 0x80 != 0 else Low(d.data16) == High(d.data16) }

  /* What the comparator knows of the nodes, and where each stood when the sort began. */
  datatype View<T> = View(k: Cmp, d: map<T, Datum>, pos: map<T, nat>)

  function Key<T>(v: View<T>, n: T): int { if n in v.d then KeyOf(v.k, v.d[n]) else 0 }
  predicate Done<T>(v: View<T>, n: T) { n in v.d && DoneTo(v.k, v.d[n]) }
  function Pos<T>(v: View<T>, n: T): nat { if n in v.pos then v.pos[n] else 0 }

  /* In order: by key, and nodes of equal key by where they stood. */
  predicate Before<T>(v: View<T>, a: T, b: T)
    { Key(v, a) < Key(v, b) || (Key(v, a) == Key(v, b) && Pos(v, a) < Pos(v, b)) }

  /* Indices and backups stay, and what the comparator has done it does not change. */
  ghost predicate Evolves<T>(v: View<T>, v': View<T>) {
    && v'.k == v.k && v'.pos == v.pos && v'.d.Keys == v.d.Keys
    && forall n :: n in v.d ==> v'.d[n].idx == v.d[n].idx && High(v'.d[n].data16) == High(v.d[n].data16)
                                && (Done(v, n) ==> v'.d[n] == v.d[n])
  }

  lemma EvolvesKeeps<T>(v: View<T>, v': View<T>, n: T)
    requires Evolves(v, v') && Done(v, n)
    ensures Done(v', n) && Key(v', n) == Key(v, n) && Pos(v', n) == Pos(v, n)
  {}

  lemma EvolvesTrans<T>(v: View<T>, v1: View<T>, v2: View<T>)
    requires Evolves(v, v1) && Evolves(v1, v2)
    ensures Evolves(v, v2)
  {
    hide DoneTo, High;
  }

  /* A sorted run; a single node may not have been seen to yet. */
  ghost predicate RunOk<T>(v: View<T>, s: seq<T>) { forall i, j :: 0 <= i < j < |s| ==> Sorted(v, s[i], s[j]) }

  // Both have been seen to, and a comes before b.
  predicate Sorted<T>(v: View<T>, a: T, b: T) { Done(v, a) && Done(v, b) && Before(v, a, b) }

  ghost predicate AllDone<T>(v: View<T>, s: seq<T>) { forall i :: 0 <= i < |s| ==> Done(v, s[i]) }

  // Nodes of a stood before nodes of b.
  ghost predicate Earlier<T>(v: View<T>, a: seq<T>, b: seq<T>) {
    forall i, j :: 0 <= i < |a| && 0 <= j < |b| ==> Pos(v, a[i]) < Pos(v, b[j])
  }

  ghost predicate AllBefore<T>(v: View<T>, a: seq<T>, b: seq<T>) {
    forall i, j :: 0 <= i < |a| && 0 <= j < |b| ==> Before(v, a[i], b[j])
  }

  lemma RunEvolves<T>(v: View<T>, v': View<T>, s: seq<T>)
    requires Evolves(v, v') && RunOk(v, s)
    ensures RunOk(v', s)
  {
    hide Done, Evolves, Key, Pos;
    forall i, j | 0 <= i < j < |s| ensures Sorted(v', s[i], s[j]) {
      assert Sorted(v, s[i], s[j]);
      EvolvesKeeps(v, v', s[i]);
      EvolvesKeeps(v, v', s[j]);
    }
  }

  /* Midway through merging runs a and b: the first i and j nodes of them have gone into cur, in
     order and before the rest; and unless there was nothing to compare, or nothing compared
     yet, all nodes have been seen to. */
  ghost predicate Midway<T>(v: View<T>, a: seq<T>, b: seq<T>, i: nat, j: nat, cur: seq<T>) {
    && i <= |a| && j <= |b| && |cur| == i + j
    && RunOk(v, a) && RunOk(v, b) && Earlier(v, a, b)
    && RunOk(v, cur) && (cur != [] && b != [] ==> AllDone(v, a) && AllDone(v, b))
    && AllBefore(v, cur, a[i..]) && AllBefore(v, cur, b[j..])
    && multiset(cur) == multiset(a[..i]) + multiset(b[..j])
  }

  lemma EvolvesSelf<T>(v: View<T>)
    ensures Evolves(v, v)
  {}

  lemma StartMerge<T>(v: View<T>, a: seq<T>, b: seq<T>)
    requires RunOk(v, a) && RunOk(v, b) && Earlier(v, a, b)
    ensures Midway(v, a, b, 0, 0, []) && Evolves(v, v)
  {
    hide Sorted, Pos;
  }

  // The comparator has looked at the heads of both rests: all of both runs has been seen to.
  lemma ComparedAll<T>(v: View<T>, a: seq<T>, i: nat)
    requires RunOk(v, a) && i < |a| && Done(v, a[i])
    ensures AllDone(v, a)
  {
    hide Done, Before;
    forall x | 0 <= x < |a| ensures Done(v, a[x]) {
      if x < i { assert Sorted(v, a[x], a[i]); } else if x > i { assert Sorted(v, a[i], a[x]); }
    }
  }

  lemma MidwayEvolves<T>(v: View<T>, v': View<T>, a: seq<T>, b: seq<T>, i: nat, j: nat, cur: seq<T>)
    requires Midway(v, a, b, i, j, cur) && Evolves(v, v') && b != []
    ensures Midway(v', a, b, i, j, cur)
  {
    hide Done, Evolves, Key, RunOk;
    RunEvolves(v, v', a);
    RunEvolves(v, v', b);
    RunEvolves(v, v', cur);
    forall n ensures Pos(v', n) == Pos(v, n) { PosStays(v, v', n); }
    if cur != [] {
      forall x | 0 <= x < |a| ensures Done(v', a[x]) && Key(v', a[x]) == Key(v, a[x]) { EvolvesKeeps(v, v', a[x]); }
      forall x | 0 <= x < |b| ensures Done(v', b[x]) && Key(v', b[x]) == Key(v, b[x]) { EvolvesKeeps(v, v', b[x]); }
      forall x | 0 <= x < |cur| ensures Key(v', cur[x]) == Key(v, cur[x]) {
        assert cur[x] in multiset(cur);
        assert cur[x] in a[..i] || cur[x] in b[..j];
        EvolvesKeeps(v, v', cur[x]);
      }
    }
  }

  lemma PosStays<T>(v: View<T>, v': View<T>, n: T)
    requires Evolves(v, v')
    ensures Pos(v', n) == Pos(v, n)
  {}

  // The next node to go comes before everything that is left.
  ghost predicate Least<T>(v: View<T>, e: T, rest: seq<T>) { forall x :: 0 <= x < |rest| ==> Before(v, e, rest[x]) }

  lemma RunPush<T>(v: View<T>, cur: seq<T>, e: T)
    requires RunOk(v, cur) && (cur != [] ==> Done(v, e) && AllDone(v, cur)) && AllBefore(v, cur, [e])
    ensures RunOk(v, cur + [e])
  {
    hide Done, Before;
    var s := cur + [e];
    forall i, j | 0 <= i < j < |s| ensures Sorted(v, s[i], s[j]) {
      if j == |cur| { assert Before(v, cur[i], [e][0]); } else { assert Sorted(v, cur[i], cur[j]); }
    }
  }

  // A member of a merged run has been seen to.
  lemma CurDone<T>(v: View<T>, a: seq<T>, b: seq<T>, i: nat, j: nat, cur: seq<T>)
    requires Midway(v, a, b, i, j, cur) && (|a| > 1 || b != []) && (cur != [] || AllDone(v, a + b))
    ensures AllDone(v, cur) && AllDone(v, a) && AllDone(v, b)
  {
    hide Done, Before;
    if cur == [] {
      forall x | 0 <= x < |a| ensures Done(v, a[x]) { assert (a + b)[x] == a[x]; }
      forall x | 0 <= x < |b| ensures Done(v, b[x]) { assert (a + b)[|a| + x] == b[x]; }
    } else {
      if b == [] { assert Sorted(v, a[0], a[1]); ComparedAll(v, a, 0); }
      forall x | 0 <= x < |cur| ensures Done(v, cur[x]) {
        assert cur[x] in multiset(cur);
        assert cur[x] in a[..i] || cur[x] in b[..j];
      }
    }
  }

  lemma BeforeTrans<T>(v: View<T>, a: T, b: T, c: T)
    requires Before(v, a, b) && Before(v, b, c)
    ensures Before(v, a, c)
  {}

  // The head of a rest comes before all of it, and so does what comes before the head.
  lemma HeadLeast<T>(v: View<T>, s: seq<T>, i: nat, e: T)
    requires RunOk(v, s) && i < |s| && (e == s[i] || Before(v, e, s[i]))
    ensures forall x :: i < x < |s| ==> Before(v, e, s[x])
    ensures e != s[i] ==> Least(v, e, s[i..])
  {
    hide Done, Before;
    forall x | i < x < |s| ensures Before(v, e, s[x]) {
      assert Sorted(v, s[i], s[x]);
      if e != s[i] { BeforeTrans(v, e, s[i], s[x]); }
    }
  }

  // The output after node e, that comes before both rests, has gone to it.
  lemma PushBefore<T>(v: View<T>, cur: seq<T>, e: T, rest: seq<T>, rest': seq<T>)
    requires AllBefore(v, cur, rest) && Least(v, e, rest') && |rest'| <= |rest|
    requires forall x :: 0 <= x < |rest'| ==> rest'[x] == rest[|rest| - |rest'| + x]
    ensures AllBefore(v, cur + [e], rest')
  {
    hide Before;
    forall i, j | 0 <= i < |cur + [e]| && 0 <= j < |rest'| ensures Before(v, (cur + [e])[i], rest'[j]) {
      if i < |cur| { assert Before(v, cur[i], rest[|rest| - |rest'| + j]); }
    }
  }

  // Whether the nodes gone so far allow another to go: there was nothing to compare, or all is done.
  lemma PushRun<T>(v: View<T>, a: seq<T>, b: seq<T>, i: nat, j: nat, cur: seq<T>, e: T)
    requires Midway(v, a, b, i, j, cur) && AllBefore(v, cur, [e]) && e in a + b
    requires cur != [] ==> |a| > 1 || b != []
    ensures RunOk(v, cur + [e])
  {
    hide Done, Before, AllBefore;
    if cur != [] {
      CurDone(v, a, b, i, j, cur);
      var x :| 0 <= x < |a + b| && (a + b)[x] == e;
      assert Done(v, e) by { if x < |a| { assert e == a[x]; } else { assert e == b[x - |a|]; } }
    }
    RunPush(v, cur, e);
  }

  lemma FirstOf<T>(v: View<T>, cur: seq<T>, rest: seq<T>)
    requires AllBefore(v, cur, rest) && rest != []
    ensures AllBefore(v, cur, [rest[0]])
  {
    hide Before;
    forall i, j | 0 <= i < |cur| && 0 <= j < 1 ensures Before(v, cur[i], [rest[0]][j]) {
      assert Before(v, cur[i], rest[0]);
    }
  }

  lemma PartPush<T>(a: seq<T>, i: nat)
    requires i < |a|
    ensures a[..i + 1] == a[..i] + [a[i]]
  {}

  /** The next node comes from the first run: its head is no greater than the other's. */
  lemma TakeFirst<T>(v: View<T>, a: seq<T>, b: seq<T>, i: nat, j: nat, cur: seq<T>)
    requires Midway(v, a, b, i, j, cur) && i < |a|
    requires j < |b| ==> Done(v, a[i]) && Done(v, b[j]) && Key(v, a[i]) <= Key(v, b[j])
    ensures Midway(v, a, b, i + 1, j, cur + [a[i]])
  {
    hide Done, Key, Before, AllBefore, RunOk, Least, Pos;
    var e := a[i];
    PartPush(a, i);
    assert a[i..][0] == e;
    FirstOf(v, cur, a[i..]);
    assert (a + b)[i] == e;
    PushRun(v, a, b, i, j, cur, e);
    HeadLeast(v, a, i, e);
    LeastAfter(v, a, i);
    PushBefore(v, cur, e, a[i..], a[i + 1..]);
    if j < |b| {
      FirstBefore(v, a, b, i, j);
      HeadLeastOther(v, e, b, j);
      ComparedAll(v, a, i);
      ComparedAll(v, b, j);
    } else {
      NoneLeft(v, e, b[j..]);
    }
    PushBefore(v, cur, e, b[j..], b[j..]);
  }

  lemma FirstBefore<T>(v: View<T>, a: seq<T>, b: seq<T>, i: nat, j: nat)
    requires Earlier(v, a, b) && i < |a| && j < |b|
    ensures Key(v, a[i]) <= Key(v, b[j]) ==> Before(v, a[i], b[j])
    ensures Key(v, a[i]) > Key(v, b[j]) ==> Before(v, b[j], a[i])
  {}

  lemma NoneLeft<T>(v: View<T>, e: T, rest: seq<T>)
    requires rest == []
    ensures Least(v, e, rest)
  {}

  lemma LeastAfter<T>(v: View<T>, s: seq<T>, i: nat)
    requires RunOk(v, s) && i < |s|
    ensures Least(v, s[i], s[i + 1..])
  {
    HeadLeast(v, s, i, s[i]);
  }

  lemma HeadLeastOther<T>(v: View<T>, e: T, s: seq<T>, i: nat)
    requires RunOk(v, s) && i < |s| && Before(v, e, s[i])
    ensures Least(v, e, s[i..])
  {
    hide Done, Before;
    forall x | 0 <= x < |s[i..]| ensures Before(v, e, s[i..][x]) {
      if x > 0 {
        assert Sorted(v, s[i], s[i + x]);
        BeforeTrans(v, e, s[i], s[i + x]);
      }
    }
  }

  /** The next node comes from the second run: its head is less than the first's. */
  lemma TakeSecond<T>(v: View<T>, a: seq<T>, b: seq<T>, i: nat, j: nat, cur: seq<T>)
    requires Midway(v, a, b, i, j, cur) && j < |b| && (i == |a| ==> a != [])
    requires i < |a| ==> Done(v, a[i]) && Done(v, b[j]) && Key(v, a[i]) > Key(v, b[j])
    ensures Midway(v, a, b, i, j + 1, cur + [b[j]])
  {
    hide Done, Key, Before, AllBefore, RunOk, Least, Pos;
    var e := b[j];
    PartPush(b, j);
    assert b[j..][0] == e;
    FirstOf(v, cur, b[j..]);
    assert (a + b)[|a| + j] == e;
    PushRun(v, a, b, i, j, cur, e);
    LeastAfter(v, b, j);
    PushBefore(v, cur, e, b[j..], b[j + 1..]);
    if i < |a| {
      FirstBefore(v, a, b, i, j);
      HeadLeastOther(v, e, a, i);
      ComparedAll(v, a, i);
      ComparedAll(v, b, j);
    } else {
      NoneLeft(v, e, a[i..]);
    }
    PushBefore(v, cur, e, a[i..], a[i..]);
  }

  /* ----- passes ----- */

  // In blocks of w nodes: sorted within a block, and where they stood from block to block.
  ghost predicate Blocks<T>(v: View<T>, ns: seq<T>, w: nat)
    requires w > 0
  {
    forall i, j :: 0 <= i < j < |ns| ==> InBlocks(v, ns, w, i, j)
  }

  ghost predicate InBlocks<T>(v: View<T>, ns: seq<T>, w: nat, i: nat, j: nat)
    requires w > 0 && i < j < |ns|
  {
    if i / w == j / w then Sorted(v, ns[i], ns[j]) else Pos(v, ns[i]) < Pos(v, ns[j])
  }

  lemma BlockOf(i: nat, c: nat, w: nat)
    requires w > 0 && c * w <= i < c * w + w
    ensures i / w == c
  {
    var q, r := i / w, i % w;
    assert i == q * w + r;
    Successor(q, w);
    Successor(c, w);
    if q < c { Monotone(q + 1, c, w); }
    if q > c { Monotone(c + 1, q, w); }
  }

  // Across a multiple of w the blocks are different.
  lemma BlocksApart(i: nat, j: nat, c: nat, w: nat)
    requires w > 0 && i < c * w <= j
    ensures i / w < c <= j / w
  {
    var (q, p) := (i / w, j / w);
    assert i == q * w + i % w && j == p * w + j % w;
    Successor(p, w);
    if q >= c { Monotone(c, q, w); }
    if p < c { Monotone(p + 1, c, w); }
  }

  lemma BlocksEvolve<T>(v: View<T>, v': View<T>, ns: seq<T>, w: nat)
    requires Evolves(v, v') && w > 0 && Blocks(v, ns, w)
    ensures Blocks(v', ns, w)
  {
    hide Done, Evolves, Key, Pos;
    forall i, j | 0 <= i < j < |ns| ensures InBlocks(v', ns, w, i, j) {
      assert InBlocks(v, ns, w, i, j);
      if i / w == j / w {
        EvolvesKeeps(v, v', ns[i]);
        EvolvesKeeps(v, v', ns[j]);
      } else {
        PosStays(v, v', ns[i]);
        PosStays(v, v', ns[j]);
      }
    }
  }

  // One block of a pass's input is a run, and stood before all later ones.
  lemma BlockRun<T>(v: View<T>, ns: seq<T>, w: nat, c: nat, hi: nat)
    requires w > 0 && Blocks(v, ns, w) && c * w <= hi <= |ns| && hi <= c * w + w
    ensures RunOk(v, ns[c * w..hi])
  {
    hide Sorted;
    var lo := c * w;
    var s := ns[lo..hi];
    forall i, j | 0 <= i < j < |s| ensures Sorted(v, s[i], s[j]) {
      BlockOf(lo + i, c, w);
      BlockOf(lo + j, c, w);
      assert InBlocks(v, ns, w, lo + i, lo + j);
    }
  }

  lemma BlocksEarlier<T>(v: View<T>, ns: seq<T>, w: nat, c: nat)
    requires w > 0 && Blocks(v, ns, w) && c * w <= |ns|
    ensures Earlier(v, ns[..c * w], ns[c * w..])
  {
    hide Pos, Sorted;
    var m := c * w;
    forall i, j | 0 <= i < m && 0 <= j < |ns| - m ensures Pos(v, ns[..m][i]) < Pos(v, ns[m..][j]) {
      BlocksApart(i, m + j, c, w);
      assert InBlocks(v, ns, w, i, m + j);
    }
  }

  lemma EarlierShuffled<T>(v: View<T>, a: seq<T>, a': seq<T>, b: seq<T>, b': seq<T>)
    requires Earlier(v, a, b) && multiset(a') == multiset(a) && multiset(b') == multiset(b)
    ensures Earlier(v, a', b')
  {
    hide Pos;
    forall i, j | 0 <= i < |a'| && 0 <= j < |b'| ensures Pos(v, a'[i]) < Pos(v, b'[j]) {
      assert a'[i] in multiset(a') && b'[j] in multiset(b');
      assert a'[i] in a && b'[j] in b;
      var x :| 0 <= x < |a| && a[x] == a'[i];
      var y :| 0 <= y < |b| && b[y] == b'[j];
      assert Pos(v, a[x]) < Pos(v, b[y]);
    }
  }

  /** A merged pair of blocks after those merged already is one more block of twice the width. */
  lemma BlocksPush<T>(v: View<T>, out: seq<T>, cur: seq<T>, c: nat, w: nat)
    requires w > 0 && Blocks(v, out, w) && |out| == c * w && RunOk(v, cur) && |cur| <= w && Earlier(v, out, cur)
    ensures Blocks(v, out + cur, w)
  {
    hide Pos, Sorted;
    var ns, m := out + cur, |out|;
    forall i, j | 0 <= i < j < |ns| ensures InBlocks(v, ns, w, i, j) {
      if j < m {
        assert InBlocks(v, out, w, i, j);
      } else if i < m {
        BlocksApart(i, j, c, w);
        assert Pos(v, out[i]) < Pos(v, cur[j - m]);
      } else {
        BlockOf(i, c, w);
        BlockOf(j, c, w);
        assert Sorted(v, cur[i - m], cur[j - m]);
      }
    }
  }

  /** When one block holds all, the nodes are sorted: by key, equal keys as they stood. */
  lemma OneBlock<T>(v: View<T>, ns: seq<T>, w: nat)
    requires w > 0 && Blocks(v, ns, w) && |ns| <= w
    ensures RunOk(v, ns)
  {
    hide Sorted;
    assert 0 * w == 0;
    BlockRun(v, ns, w, 0, |ns|);
    assert ns[0 * w..|ns|] == ns;
  }

  /** Before the first pass every node is its own block. */
  lemma Singletons<T>(v: View<T>, ns: seq<T>)
    requires forall i, j :: 0 <= i < j < |ns| ==> Pos(v, ns[i]) < Pos(v, ns[j])
    ensures Blocks(v, ns, 1)
  {
    hide Pos, Sorted;
    forall i, j | 0 <= i < j < |ns| ensures InBlocks(v, ns, 1, i, j) {}
  }

  /* ----- one pair of blocks within a pass ----- */

  lemma EarlierPart<T>(v: View<T>, a: seq<T>, b: seq<T>, a': seq<T>, b': seq<T>, lo: nat)
    requires Earlier(v, a, b) && lo <= |a| && a' == a[lo..] && |b'| <= |b| && b' == b[..|b'|]
    ensures Earlier(v, a', b')
  {
    hide Pos;
    forall i, j | 0 <= i < |a'| && 0 <= j < |b'| ensures Pos(v, a'[i]) < Pos(v, b'[j]) {
      assert Pos(v, a[lo + i]) < Pos(v, b[j]);
    }
  }

  lemma Twice(c: nat, w: nat)
    ensures c * (2 * w) == (2 * c) * w && (2 * c + 1) * w == (2 * c) * w + w && (c + 1) * (2 * w) == c * (2 * w) + 2 * w
  {}

  /* The two blocks of the c-th pair are runs ready to merge. */
  lemma PairRuns<T>(v: View<T>, ns: seq<T>, w: nat, c: nat, m: nat, a: seq<T>, b: seq<T>)
    requires w > 0 && Blocks(v, ns, w) && m == c * (2 * w) && m + |a| + |b| <= |ns|
    requires a == ns[m..m + |a|] && b == ns[m + |a|..m + |a| + |b|] && |a| <= w && |b| <= w && (|a| < w ==> b == [])
    ensures RunOk(v, a) && RunOk(v, b) && Earlier(v, a, b)
  {
    hide Sorted, Pos, InBlocks, Blocks, RunOk, Earlier;
    Twice(c, w);
    BlockRun(v, ns, w, 2 * c, m + |a|);
    assert ns[(2 * c) * w..m + |a|] == a;
    if b != [] {
      BlockRun(v, ns, w, 2 * c + 1, m + |a| + |b|);
      assert ns[(2 * c + 1) * w..m + |a| + |b|] == b;
      BlocksEarlier(v, ns, w, 2 * c + 1);
      var x, y := ns[..(2 * c + 1) * w], ns[(2 * c + 1) * w..];
      assert x[m..] == a && y[..|b|] == b;
      EarlierPart(v, x, y, a, b, m);
    } else {
      NoRun(v, a);
    }
  }

  lemma NoRun<T>(v: View<T>, a: seq<T>)
    ensures RunOk(v, []) && Earlier(v, a, [])
  {
    hide Sorted;
  }

  /* Once merged they are a block of twice the width at the end of the output. */
  lemma PairDone<T>(v: View<T>, ns: seq<T>, w: nat, c: nat, m: nat, a: seq<T>, b: seq<T>, out: seq<T>, cur: seq<T>)
    requires w > 0 && Blocks(v, ns, w) && Blocks(v, out, 2 * w) && m == |out| == c * (2 * w) && m + |a| + |b| <= |ns|
    requires a == ns[m..m + |a|] && b == ns[m + |a|..m + |a| + |b|] && |a| <= w && |b| <= w
    requires Midway(v, a, b, |a|, |b|, cur) && multiset(out) == multiset(ns[..m])
    ensures Blocks(v, out + cur, 2 * w) && |cur| == |a| + |b| && multiset(out + cur) == multiset(ns[..m + |a| + |b|])
  {
    hide Sorted, Pos, InBlocks, Blocks, RunOk, Earlier, AllBefore, AllDone;
    Twice(c, w);
    var (ab, x, y) := (ns[m..m + |a| + |b|], ns[..(2 * c) * w], ns[(2 * c) * w..]);
    assert a[..|a|] == a && b[..|b|] == b && ab == a + b;
    assert multiset(cur) == multiset(ab);
    BlocksEarlier(v, ns, w, 2 * c);
    assert x[0..] == x == ns[..m] && y[..|ab|] == ab;
    EarlierPart(v, x, y, x, ab, 0);
    EarlierShuffled(v, x, out, ab, cur);
    BlocksPush(v, out, cur, c, 2 * w);
    assert ns[..m + |a| + |b|] == ns[..m] + ab;
  }
}

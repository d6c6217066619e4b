/** CoreMark's list benchmark: a singly linked list sorted, searched, reversed and spliced in
    place, with comparators that overwrite the data as they compare. */
module CoreList {
  import opened Collections
  import opened Arithmetic
  import opened Merging

  class ListData {
    var data16: bv16
    var idx: int     // a 16-bit signed number

    constructor (d: bv16, i: int)
      ensures data16 == d && idx == i
    {
      data16, idx := d, i;
    }
  }

  class ListHead {
    var next: ListHead?
    var info: ListData

    constructor (d: ListData)
      ensures next == null && info == d
    {
      next, info := null, d;
    }
  }

  // core_results, of which only the checksums matter here.
  class Results {
    var crc: bv16
    var crcstate: bv16
    var crcmatrix: bv16
    constructor ()
    {
      crc, crcstate, crcmatrix := 0, 0, 0;
    }
  }

  /* ----- comparators ----- */

  // core_bench_state, core_bench_matrix and crcu16: whatever they return.
  method AnyResult(dtype: bv16, crc: bv16) returns (r: bv16)
  {
    r := *;
  }

  // The value that calc_func computes when there is none in the cache.
  method Compute(data: bv16, res: Results) returns (v: bv16)
    modifies res
  {
    var flag := data & 7;
    var dtype := (data >> 3) & 0xF;
    dtype := dtype | (dtype << 4);
    match flag {
      case 0 =>
        if dtype < 0x22 {
          dtype := 0x22;
        }
        v := AnyResult(dtype, res.crc);
        if res.crcstate == 0 {
          res.crcstate := v;
        }
      case 1 =>
        v := AnyResult(dtype, res.crc);
        if res.crcmatrix == 0 {
          res.crcmatrix := v;
        }
      case _ =>
        v := data;
    }
    res.crc := AnyResult(v, res.crc);
  }

  /** calc_func: the cached value if there is one; otherwise a value is computed and cached, the
      backup in the upper byte kept. */
  method CalcFunc(d: ListData, res: Results) returns (v: bv16)
    modifies d`data16, res
    ensures IsCached(d.data16) && v == Seven(d.data16)
    ensures IsCached(old(d.data16)) ==> d.data16 == old(d.data16)
    ensures High(d.data16) == High(old(d.data16))
  {
    hide IsCached, Seven, High;
    var data := d.data16;
    var cached := OpType(data);
    if cached {
      v := Cached7(data);
    } else {
      var w := Compute(data, res);
      v, d.data16 := Recached(data, w);
    }
  }

  method OpType(data: bv16) returns (cached: bool)
    ensures cached == IsCached(data)
  {
    cached := (data >> 7) & 1 != 0;
  }

  method Cached7(data: bv16) returns (v: bv16)
    ensures v == Seven(data)
  {
    v := data & 0x7F;
  }

  // The value in seven bits, and the data with it in the cache.
  method Recached(data: bv16, w: bv16) returns (v: bv16, data': bv16)
    ensures IsCached(data') && v == Seven(data') && High(data') == High(data)
  {
    v := w & 0x7F;
    data' := (data & 0xFF00) | 0x80 | v;
  }

  predicate IsCached(x: bv16) { x & 0x80 != 0 }

  lemma CachedIsDone(d: Datum)
    ensures DoneTo(Complex, d) <==> IsCached(d.data16)
    ensures KeyOf(Complex, d) == Number(Seven(d.data16))
  {}

  ghost function DatumOf(d: ListData): Datum
    reads d
  {
    Datum(d.data16, d.idx)
  }

  /** cmp_complex, and cmp_idx with a null third argument: the order of the keys that the two
      now have; both have been seen to, and one that had been before is as it was. */
  method Compare(k: Cmp, a: ListData, b: ListData, res: Results) returns (r: int)
    requires a != b
    modifies a`data16, b`data16, res
    ensures DoneTo(k, DatumOf(a)) && DoneTo(k, DatumOf(b))
    ensures r <= 0 <==> KeyOf(k, DatumOf(a)) <= KeyOf(k, DatumOf(b))
    ensures DoneTo(k, old(DatumOf(a))) ==> a.data16 == old(a.data16)
    ensures DoneTo(k, old(DatumOf(b))) ==> b.data16 == old(b.data16)
    ensures High(a.data16) == High(old(a.data16)) && High(b.data16) == High(old(b.data16))
  {
    hide High, DoneTo, KeyOf;
    match k
    case Complex => r := CompareComplex(a, b, res);
    case ByIndex => r := CompareIndex(a, b);
  }

  method CompareComplex(a: ListData, b: ListData, res: Results) returns (r: int)
    requires a != b
    modifies a`data16, b`data16, res
    ensures DoneTo(Complex, DatumOf(a)) && DoneTo(Complex, DatumOf(b))
    ensures r <= 0 <==> KeyOf(Complex, DatumOf(a)) <= KeyOf(Complex, DatumOf(b))
    ensures DoneTo(Complex, old(DatumOf(a))) ==> a.data16 == old(a.data16)
    ensures DoneTo(Complex, old(DatumOf(b))) ==> b.data16 == old(b.data16)
    ensures High(a.data16) == High(old(a.data16)) && High(b.data16) == High(old(b.data16))
  {
    hide IsCached, Seven, High, DoneTo, KeyOf, Number;
    CachedIsDone(DatumOf(a));
    CachedIsDone(DatumOf(b));
    var v1 := CalcFunc(a, res);
    var v2 := CalcFunc(b, res);
    r := Difference(v1, v2);
    CachedIsDone(DatumOf(a));
    CachedIsDone(DatumOf(b));
  }

  method Difference(v1: bv16, v2: bv16) returns (r: int)
    ensures r == Number(v1) - Number(v2)
  {
    r := v1 as int - v2 as int;
  }

  method CompareIndex(a: ListData, b: ListData) returns (r: int)
    requires a != b
    modifies a`data16, b`data16
    ensures DoneTo(ByIndex, DatumOf(a)) && DoneTo(ByIndex, DatumOf(b))
    ensures r <= 0 <==> KeyOf(ByIndex, DatumOf(a)) <= KeyOf(ByIndex, DatumOf(b))
    ensures DoneTo(ByIndex, old(DatumOf(a))) ==> a.data16 == old(a.data16)
    ensures DoneTo(ByIndex, old(DatumOf(b))) ==> b.data16 == old(b.data16)
    ensures High(a.data16) == High(old(a.data16)) && High(b.data16) == High(old(b.data16))
  {
    hide High, Low, KeyOf;
    a.data16 := Restore(a.data16);
    b.data16 := Restore(b.data16);
    KeyIsIdx(DatumOf(a));
    KeyIsIdx(DatumOf(b));
    r := a.idx - b.idx;
  }

  lemma KeyIsIdx(d: Datum)
    ensures KeyOf(ByIndex, d) == d.idx
  {}

  // The lower byte made the same as the upper.
  method Restore(x: bv16) returns (y: bv16)
    ensures Low(y) == High(y) == High(x) && (Low(x) == High(x) ==> y == x)
  {
    y := (x & 0xFF00) | (0xFF & (x >> 8));
  }

  /* ----- nodes ----- */

  // Each node of the sequence points at the one after it.
  ghost predicate Segment(s: seq<ListHead>)
    reads s
  {
    forall i :: 0 <= i < |s| - 1 ==> s[i].next == s[i + 1]
  }

  // ... and the last one at nothing.
  ghost predicate Chain(s: seq<ListHead>)
    reads s
  {
    Segment(s) && (s != [] ==> s[|s| - 1].next == null)
  }

  function First(s: seq<ListHead>): ListHead? { if s == [] then null else s[0] }
  function Last(s: seq<ListHead>): ListHead? { if s == [] then null else s[|s| - 1] }

  ghost function Infos(nodes: set<ListHead>): set<ListData>
    reads nodes
  {
    set n | n in nodes :: n.info
  }

  /* The view is of these nodes, no two of which share their data. */
  ghost predicate Reflects(v: View<ListHead>, nodes: set<ListHead>)
    reads nodes, Infos(nodes)
  {
    && v.d.Keys == nodes
    && (forall n :: n in nodes ==> v.d[n] == DatumOf(n.info))
    && (forall a, b :: a in nodes && b in nodes && a != b ==> a.info != b.info)
  }

  // The comparator on two nodes.
  method CompareNodes(a: ListHead, b: ListHead, res: Results, ghost v: View<ListHead>, ghost nodes: set<ListHead>,
                      k: Cmp)
    returns (r: int, ghost v': View<ListHead>)
    requires Reflects(v, nodes) && a in nodes && b in nodes && a != b && k == v.k
    modifies a.info`data16, b.info`data16, res
    ensures Reflects(v', nodes) && Evolves(v, v') && Done(v', a) && Done(v', b)
    ensures r <= 0 <==> Key(v', a) <= Key(v', b)
  {
    hide High, DoneTo, KeyOf;
    r := Compare(k, a.info, b.info, res);
    v' := v.(d := v.d[a := DatumOf(a.info)][b := DatumOf(b.info)]);
    forall n | n in nodes ensures v'.d[n] == DatumOf(n.info) {}
  }

  // What the counters of core_list_mergesort hold, ee_s32 variables that are never negative.
  const MAX_LENGTH: nat := 0x8000_0000
  type Counter = n: nat | n < MAX_LENGTH

  // Step `insize` places along from p, or to the end.
  method Split(p: ListHead, insize: Counter, ghost rest: seq<ListHead>) returns (q: ListHead?, psize: Counter)
    requires insize > 0 && rest != [] && Chain(rest) && p == rest[0]
    ensures psize == (if insize < |rest| then insize else |rest|) && q == First(rest[psize..])
  {
    q, psize := p, 0;
    var i: Counter := 0;
    while i < insize
      invariant i == psize <= insize && psize < |rest| && q == rest[psize]
    {
      assert psize < |rest| - 1 ==> rest[psize].next == rest[psize + 1];
      psize := psize + 1;
      q := q.next;
      if q == null {
        assert psize == |rest|;
        break;
      }
      i := i + 1;
    }
  }

  // Add the next element to the merged list.
  method Append(list: ListHead?, tail: ListHead?, e: ListHead, ghost done: seq<ListHead>) returns (list': ListHead?)
    requires Segment(done) && Distinct(done + [e]) && tail == Last(done) && list == First(done)
    modifies (if tail != null then {tail} else {})`next
    ensures Segment(done + [e]) && list' == First(done + [e])
  {
    list' := list;
    if tail != null {
      tail.next := e;
    } else {
      list' := e;
    }
    assert forall i :: 0 <= i < |done| ==> (done + [e])[i] == done[i];
  }

  /* ----- merging two runs in place ----- */

  /* The output so far, what is left of the first run, and what is left from the second run on
     are linked and share no node. */
  ghost predicate Linked(done: seq<ListHead>, p: seq<ListHead>, q: seq<ListHead>)
    reads done, p, q
  {
    Segment(done) && Segment(p) && Chain(q) && Distinct(done + p + q)
  }

  lemma DistinctRotated<T>(done: seq<T>, p: seq<T>, e: T, q: seq<T>)
    requires Distinct(done + p + [e] + q)
    ensures Distinct(done + [e] + p + q)
  {
    assert done + p + [e] + q == done + (p + ([e] + q));
    DistinctParts(done, p + ([e] + q));
    DistinctParts(p, [e] + q);
    DistinctParts([e], q);
    DistinctWhole(p, q);
    DistinctWhole([e], p + q);
    assert [e] + (p + q) == [e] + p + q;
    DistinctWhole(done, [e] + p + q);
    assert done + ([e] + p + q) == done + [e] + p + q;
  }

  // The last node of the output is in neither rest.
  lemma LastApart(done: seq<ListHead>, p: seq<ListHead>, q: seq<ListHead>)
    requires Distinct(done + p + q)
    ensures Last(done) !in p && Last(done) !in q
    ensures p != [] ==> Distinct(done + [p[0]])
    ensures q != [] ==> Distinct(done + [q[0]])
  {
    DistinctParts(done + p, q);
    DistinctParts(done, p);
    if p != [] { DistinctWhole(done, [p[0]]); }
    if q != [] {
      forall x | x in done ensures x !in [q[0]] { assert x in done + p; }
      DistinctWhole(done, [q[0]]);
    }
    if done != [] { assert done[|done| - 1] in done; assert done[|done| - 1] in done + p; }
  }

  // e comes from p.
  method StepP(list: ListHead?, tail: ListHead?, e: ListHead, ghost done: seq<ListHead>, ghost p: seq<ListHead>,
               ghost q: seq<ListHead>, ghost v: View<ListHead>, ghost nodes: set<ListHead>)
    returns (list': ListHead?, p': ListHead?)
    requires Reflects(v, nodes) && Linked(done, p, q) && p != [] && e == p[0] && tail == Last(done)
    requires list == First(done)
    modifies (if tail != null then {tail} else {})`next
    ensures Reflects(v, nodes) && Linked(done + [e], p[1..], q) && list' == First(done + [e])
    ensures (|p| > 1 ==> p' == p[1])
  {
    hide Distinct;
    LastApart(done, p, q);
    assert |p| > 1 ==> p[0].next == p[1];
    SegmentTail(p);
    p' := e.next;
    list' := Append(list, tail, e, done);
    assert done + p + q == (done + [e]) + p[1..] + q;
  }

  // e comes from q.
  method StepQ(list: ListHead?, tail: ListHead?, e: ListHead, ghost done: seq<ListHead>, ghost p: seq<ListHead>,
               ghost q: seq<ListHead>, ghost v: View<ListHead>, ghost nodes: set<ListHead>)
    returns (list': ListHead?, q': ListHead?)
    requires Reflects(v, nodes) && Linked(done, p, q) && q != [] && e == q[0] && tail == Last(done)
    requires list == First(done)
    modifies (if tail != null then {tail} else {})`next
    ensures Reflects(v, nodes) && Linked(done + [e], p, q[1..]) && list' == First(done + [e]) && q' == First(q[1..])
  {
    hide Distinct;
    LastApart(done, p, q);
    assert |q| > 1 ==> q[0].next == q[1];
    SegmentTail(q);
    q' := e.next;
    list' := Append(list, tail, e, done);
    assert done + p + q == done + p + [e] + q[1..];
    DistinctRotated(done, p, e, q[1..]);
  }

  lemma SegmentTail(s: seq<ListHead>)
    requires Segment(s) && s != []
    ensures Segment(s[1..]) && (Chain(s) ==> Chain(s[1..]))
  {
    forall i | 0 <= i < |s[1..]| - 1 ensures s[1..][i].next == s[1..][i + 1] { assert s[i + 1].next == s[i + 2]; }
  }

  // The nodes that one merge is about: two runs and what follows them.
  ghost predicate Runs(rest: seq<ListHead>, a: seq<ListHead>, b: seq<ListHead>, w: nat) {
    && a != [] && a == rest[..if w < |rest| then w else |rest|]
    && b == rest[|a|..if |a| + w < |rest| then |a| + w else |rest|]
  }

  // Whether to take the next node from p, comparing the heads if there are two.
  method Choose(p: ListHead?, psize: Counter, q: ListHead?, qsize: Counter, k: Cmp, res: Results,
                ghost v: View<ListHead>, ghost nodes: set<ListHead>)
    returns (first: bool, ghost v': View<ListHead>)
    requires Reflects(v, nodes) && k == v.k && (psize > 0 || (qsize > 0 && q != null))
    requires psize > 0 ==> p != null && p in nodes
    requires q != null ==> q in nodes && (psize > 0 ==> p != q)
    modifies (Infos(nodes))`data16, res
    ensures Reflects(v', nodes) && Evolves(v, v')
    ensures psize == 0 ==> !first && v' == v
    ensures psize > 0 && (qsize == 0 || q == null) ==> first && v' == v
    ensures psize > 0 && qsize > 0 && q != null ==> Done(v', p) && Done(v', q) && (first <==> Key(v', p) <= Key(v', q))
  {
    v' := v;
    if psize == 0 {
      first := false;
    } else if qsize == 0 || q == null {
      first := true;
    } else {
      var r: int;
      r, v' := CompareNodes(p, q, res, v, nodes, k);
      first := r <= 0;
    }
  }

  /* Midway through a merge: i and j nodes of the runs have gone into cur, after what was done. */
  ghost predicate Links(done: seq<ListHead>, rest: seq<ListHead>, a: seq<ListHead>, b: seq<ListHead>, i: nat, j: nat,
                        cur: seq<ListHead>, nodes: set<ListHead>, list: ListHead?, tail: ListHead?, q: ListHead?)
    reads done, rest, a, cur
  {
    && i <= |a| && j <= |b| && |a| + |b| <= |rest|
    && q == First(rest[|a| + j..]) && list == First(done + cur) && tail == Last(done + cur)
    && (tail != null ==> tail in nodes)
    && Linked(done + cur, a[i..], rest[|a| + j..])
  }

  // The next element comes from p.
  method GoFirst(list: ListHead?, tail: ListHead?, p: ListHead, ghost done: seq<ListHead>, ghost rest: seq<ListHead>,
                 ghost a: seq<ListHead>, ghost b: seq<ListHead>, ghost i: nat, ghost j: nat, ghost cur: seq<ListHead>,
                 ghost v: View<ListHead>, ghost nodes: set<ListHead>, ghost q: ListHead?)
    returns (list': ListHead?, p': ListHead?)
    requires Links(done, rest, a, b, i, j, cur, nodes, list, tail, q) && i < |a| && p == a[i] && p in nodes
    requires Reflects(v, nodes) && Midway(v, a, b, i, j, cur)
    requires j < |b| ==> Done(v, a[i]) && Done(v, b[j]) && Key(v, a[i]) <= Key(v, b[j])
    modifies (if tail != null then {tail} else {})`next
    ensures Reflects(v, nodes) && Midway(v, a, b, i + 1, j, cur + [p])
    ensures Links(done, rest, a, b, i + 1, j, cur + [p], nodes, list', p, q) && (i + 1 < |a| ==> p' == a[i + 1])
  {
    hide Linked, Midway, Reflects, Done, Key;
    TakeFirst(v, a, b, i, j, cur);
    list', p' := StepP(list, tail, p, done + cur, a[i..], rest[|a| + j..], v, nodes);
    assert done + cur + [p] == done + (cur + [p]);
    assert a[i..][1..] == a[i + 1..];
  }

  // The next element comes from q.
  method GoSecond(list: ListHead?, tail: ListHead?, q: ListHead, ghost done: seq<ListHead>, ghost rest: seq<ListHead>,
                  ghost a: seq<ListHead>, ghost b: seq<ListHead>, ghost i: nat, ghost j: nat,
                  ghost cur: seq<ListHead>, ghost v: View<ListHead>, ghost nodes: set<ListHead>)
    returns (list': ListHead?, q': ListHead?)
    requires Links(done, rest, a, b, i, j, cur, nodes, list, tail, q) && j < |b| && a != [] && q == b[j] && q in nodes
    requires Reflects(v, nodes) && Midway(v, a, b, i, j, cur)
    requires i < |a| ==> Done(v, a[i]) && Done(v, b[j]) && Key(v, a[i]) > Key(v, b[j])
    modifies (if tail != null then {tail} else {})`next
    ensures Reflects(v, nodes) && Midway(v, a, b, i, j + 1, cur + [q])
    ensures Links(done, rest, a, b, i, j + 1, cur + [q], nodes, list', q, q')
  {
    hide Linked, Midway, Reflects, Done, Key;
    TakeSecond(v, a, b, i, j, cur);
    list', q' := StepQ(list, tail, q, done + cur, a[i..], rest[|a| + j..], v, nodes);
    assert done + cur + [q] == done + (cur + [q]);
    assert rest[|a| + j..][1..] == rest[|a| + (j + 1)..];
  }

  // Where the two heads are.
  lemma LinkHeads(done: seq<ListHead>, rest: seq<ListHead>, a: seq<ListHead>, b: seq<ListHead>, i: nat, j: nat,
                  cur: seq<ListHead>, nodes: set<ListHead>, list: ListHead?, tail: ListHead?, q: ListHead?, w: nat)
    requires w > 0 && Runs(rest, a, b, w) && Links(done, rest, a, b, i, j, cur, nodes, list, tail, q)
    requires forall x :: 0 <= x < |rest| ==> rest[x] in nodes
    ensures i < |a| ==> a[i] in nodes
    ensures q != null ==> q in nodes && (i < |a| ==> a[i] != q)
    ensures tail != null ==> tail in nodes
    ensures j < w && q != null <==> j < |b|
    ensures j < |b| ==> q == b[j]
  {
    hide Linked, Midway, Reflects;
    HeadsDiffer(done + cur, a[i..], rest[|a| + j..]);
  }

  /** One merge: the runs a and b at p and q go to the end of the output, merged. */
  method Merge(p0: ListHead, psize0: Counter, q0: ListHead?, insize: Counter, list0: ListHead?, tail0: ListHead?,
               k: Cmp, res: Results, ghost done: seq<ListHead>, ghost rest: seq<ListHead>, ghost a: seq<ListHead>,
               ghost b: seq<ListHead>, ghost v0: View<ListHead>, ghost nodes: set<ListHead>)
    returns (list: ListHead?, tail: ListHead?, q: ListHead?, ghost cur: seq<ListHead>, ghost v: View<ListHead>)
    requires insize > 0 && Runs(rest, a, b, insize) && forall i :: 0 <= i < |rest| ==> rest[i] in nodes
    requires Links(done, rest, a, b, 0, 0, [], nodes, list0, tail0, q0) && k == v0.k
    requires Reflects(v0, nodes) && Midway(v0, a, b, 0, 0, [])
    requires p0 == a[0] && psize0 == |a|
    modifies nodes`next, (Infos(nodes))`data16, res
    ensures Links(done, rest, a, b, |a|, |b|, cur, nodes, list, tail, q)
    ensures Reflects(v, nodes) && Midway(v, a, b, |a|, |b|, cur) && Evolves(v0, v) && v.k == k
  {
    hide Links, Linked, Midway, Reflects, Evolves, Done, Key;
    list, tail, q := list0, tail0, q0;
    var p: ListHead? := p0;
    var psize: Counter, qsize: Counter := psize0, insize;
    cur, v := [], v0;
    ghost var i, j := 0, 0;
    EvolvesSelf(v0);
    while psize > 0 || (qsize > 0 && q != null)
      invariant i <= |a| && j <= |b| && psize == |a| - i && qsize == insize - j
      invariant i < |a| ==> p == a[i]
      invariant Links(done, rest, a, b, i, j, cur, nodes, list, tail, q)
      invariant Reflects(v, nodes) && Midway(v, a, b, i, j, cur) && Evolves(v0, v) && v.k == k
      decreases psize + qsize
    {
      ghost var v1 := v;
      LinkHeads(done, rest, a, b, i, j, cur, nodes, list, tail, q, insize);
      var first: bool;
      first, v := ChooseIn(p, psize, q, qsize, k, res, v, nodes, a, b, i, j, cur);
      EvolvesTrans(v0, v1, v);
      if first {
        var e := p;
        list, p := GoFirst(list, tail, e, done, rest, a, b, i, j, cur, v, nodes, q);
        tail, psize, cur, i := e, psize - 1, cur + [e], i + 1;
      } else {
        var e := q;
        list, q := GoSecond(list, tail, e, done, rest, a, b, i, j, cur, v, nodes);
        tail, qsize, cur, j := e, qsize - 1, cur + [e], j + 1;
      }
    }
    LinkHeads(done, rest, a, b, i, j, cur, nodes, list, tail, q, insize);
  }

  // The choice, midway through a merge.
  method ChooseIn(p: ListHead?, psize: Counter, q: ListHead?, qsize: Counter, k: Cmp, res: Results,
                  ghost v: View<ListHead>, ghost nodes: set<ListHead>, ghost a: seq<ListHead>, ghost b: seq<ListHead>,
                  ghost i: nat, ghost j: nat, ghost cur: seq<ListHead>)
    returns (first: bool, ghost v': View<ListHead>)
    requires Reflects(v, nodes) && Midway(v, a, b, i, j, cur) && k == v.k
    requires i <= |a| && j <= |b| && psize == |a| - i && (psize > 0 ==> p == a[i] && a[i] in nodes)
    requires q != null ==> q in nodes && (i < |a| ==> a[i] != q)
    requires (qsize > 0 && q != null <==> j < |b|) && (j < |b| ==> q == b[j]) && (psize > 0 || j < |b|)
    modifies (Infos(nodes))`data16, res
    ensures Reflects(v', nodes) && Midway(v', a, b, i, j, cur) && Evolves(v, v') && v'.k == k
    ensures first ==> i < |a| && (j < |b| ==> Done(v', a[i]) && Done(v', b[j]) && Key(v', a[i]) <= Key(v', b[j]))
    ensures !first ==> j < |b| && (i < |a| ==> Done(v', a[i]) && Done(v', b[j]) && Key(v', a[i]) > Key(v', b[j]))
  {
    hide Midway, Reflects, Done, Key;
    first, v' := Choose(p, psize, q, qsize, k, res, v, nodes);
    if j < |b| { MidwayEvolves(v, v', a, b, i, j, cur); }
  }

  lemma HeadsDiffer(done: seq<ListHead>, p: seq<ListHead>, q: seq<ListHead>)
    requires Linked(done, p, q)
    ensures p != [] && q != [] ==> p[0] != q[0]
  {
    DistinctParts(done + p, q);
    if p != [] && q != [] { assert p[0] in done + p; }
  }

  /* ----- the passes ----- */

  /* c pairs of blocks of the list ns have been merged into out. */
  ghost predicate InPass(ns: seq<ListHead>, out: seq<ListHead>, w: nat, c: nat, v: View<ListHead>, nodes: set<ListHead>,
                         list: ListHead?, tail: ListHead?, p: ListHead?)
    requires w > 0
    reads ns, out
  {
    var m := |out|;
    && m <= |ns| && (forall n :: n in ns ==> n in nodes)
    && Linked(out, [], ns[m..]) && list == First(out) && tail == Last(out) && p == First(ns[m..])
    && (tail != null ==> tail in nodes)
    && Blocks(v, ns, w) && Blocks(v, out, 2 * w) && multiset(out) == multiset(ns[..m])
    && Paired(m, |ns|, w, c)
  }

  // The first m of n nodes are c pairs of blocks of w, the last pair perhaps not full.
  ghost predicate Paired(m: nat, n: nat, w: nat, c: nat) {
    (m < n ==> m == c * (2 * w)) && m <= c * (2 * w) && (c > 1 ==> (c - 1) * (2 * w) < m) && (c == 0 ==> m == 0)
  }

  lemma PairedFull(m: nat, n: nat, w: nat, c: nat)
    requires Paired(m, n, w, c) && m < n
    ensures m == c * (2 * w)
  {}

  lemma FewMerges(ns: seq<ListHead>, out: seq<ListHead>, w: nat, c: nat, v: View<ListHead>, nodes: set<ListHead>,
                  list: ListHead?, tail: ListHead?, p: ListHead?)
    requires w > 0 && InPass(ns, out, w, c, v, nodes, list, tail, p) && ns != []
    ensures c <= |ns|
  {
    hide Blocks, Distinct, Segment, Linked;
    if c > 1 && c - 1 >= |ns| { Monotone(|ns|, c - 1, 2 * w); }
  }

  lemma PairedMore(m: nat, n: nat, w: nat, c: nat, more: nat)
    requires Paired(m, n, w, c) && m < n && 0 < more && more == (if m + 2 * w <= n then 2 * w else n - m)
    ensures Paired(m + more, n, w, c + 1)
  {
    Twice(c, w);
  }

  // Where the next pair is.
  lemma PairAhead(ns: seq<ListHead>, out: seq<ListHead>, w: nat, c: nat, v: View<ListHead>, nodes: set<ListHead>,
                  list: ListHead?, tail: ListHead?, p: ListHead?, a: seq<ListHead>, b: seq<ListHead>)
    requires w > 0 && InPass(ns, out, w, c, v, nodes, list, tail, p) && Runs(ns[|out|..], a, b, w) && p != null
    ensures Links(out, ns[|out|..], a, b, 0, 0, [], nodes, list, tail, First(ns[|out|..][|a|..]))
    ensures Midway(v, a, b, 0, 0, [])
  {
    hide Blocks, Distinct, Segment, RunOk, Earlier, Midway, Paired;
    var rest := ns[|out|..];
    RunsAre(ns, |out|, a, b, w);
    PairedFull(|out|, |ns|, w, c);
    PairRuns(v, ns, w, c, |out|, a, b);
    StartMerge(v, a, b);
    SegmentParts(rest, |a|);
    assert out + [] == out && a[0..] == a && rest[|a| + 0..] == rest[|a|..];
    assert out + [] + rest == out + a + rest[|a|..];
  }

  lemma SegmentParts(s: seq<ListHead>, n: nat)
    requires Chain(s) && n <= |s|
    ensures Segment(s[..n]) && Chain(s[n..])
  {
    forall i | 0 <= i < |s[..n]| - 1 ensures s[..n][i].next == s[..n][i + 1] { assert s[i].next == s[i + 1]; }
    forall i | 0 <= i < |s[n..]| - 1 ensures s[n..][i].next == s[n..][i + 1] { assert s[n + i].next == s[n + i + 1]; }
  }

  lemma RunsAre(ns: seq<ListHead>, m: nat, a: seq<ListHead>, b: seq<ListHead>, w: nat)
    requires w > 0 && m < |ns| && Runs(ns[m..], a, b, w)
    ensures 0 < |a| <= w && |b| <= w && m + |a| + |b| <= |ns| && (|a| < w ==> b == [])
    ensures a == ns[m..m + |a|] && b == ns[m + |a|..m + |a| + |b|]
    ensures |a| + |b| == if m + 2 * w <= |ns| then 2 * w else |ns| - m
  {}

  lemma PairMerged(ns: seq<ListHead>, out: seq<ListHead>, w: nat, c: nat, v: View<ListHead>, nodes: set<ListHead>,
                   a: seq<ListHead>, b: seq<ListHead>, cur: seq<ListHead>, list: ListHead?, tail: ListHead?,
                   q: ListHead?)
    requires w > 0 && |out| < |ns| && Runs(ns[|out|..], a, b, w) && Paired(|out|, |ns|, w, c)
    requires Blocks(v, ns, w) && Blocks(v, out, 2 * w) && multiset(out) == multiset(ns[..|out|])
    requires forall n :: n in ns ==> n in nodes
    requires Links(out, ns[|out|..], a, b, |a|, |b|, cur, nodes, list, tail, q) && Midway(v, a, b, |a|, |b|, cur)
    ensures InPass(ns, out + cur, w, c + 1, v, nodes, list, tail, q)
    ensures |out| < |out + cur| <= |ns| && (q != null <==> |out + cur| < |ns|)
  {
    hide Blocks, Distinct, Segment, Midway, Linked, Paired, Runs;
    var m := |out|;
    RunsAre(ns, m, a, b, w);
    PairedFull(m, |ns|, w, c);
    PairDone(v, ns, w, c, m, a, b, out, cur);
    PairedMore(m, |ns|, w, c, |a| + |b|);
    assert ns[m..][|a| + |b|..] == ns[m + |a| + |b|..] && a[|a|..] == [];
  }

  /** One pass: blocks of insize are merged in pairs. */
  method Pass(list0: ListHead, insize: Counter, k: Cmp, res: Results, ghost ns: seq<ListHead>,
              ghost v0: View<ListHead>, ghost nodes: set<ListHead>)
    returns (list: ListHead?, tail: ListHead?, nmerges: Counter, ghost out: seq<ListHead>, ghost v: View<ListHead>)
    requires insize > 0 && 0 < |ns| < MAX_LENGTH && Chain(ns) && Distinct(ns) && list0 == ns[0]
    requires (forall n :: n in ns ==> n in nodes)
    requires Reflects(v0, nodes) && k == v0.k && Blocks(v0, ns, insize)
    modifies nodes`next, (Infos(nodes))`data16, res
    ensures Segment(out) && Distinct(out) && |out| == |ns| && list == out[0] && tail == out[|out| - 1]
    ensures multiset(out) == multiset(ns)
    ensures Reflects(v, nodes) && Evolves(v0, v) && v.k == k && Blocks(v, out, 2 * insize)
    ensures nmerges <= 1 <==> |ns| <= 2 * insize
  {
    hide Blocks, Distinct, Segment, Midway, InPass, Links, Reflects, Evolves, Linked;
    var p: ListHead? := list0;
    list, tail, nmerges := null, null, 0;
    out, v := [], v0;
    StartPass(ns, insize, v0, nodes);
    EvolvesSelf(v0);
    while p != null
      invariant InPass(ns, out, insize, nmerges, v, nodes, list, tail, p) && Reflects(v, nodes) && Evolves(v0, v)
      invariant v.k == k
      invariant p != null <==> |out| < |ns|
      decreases |ns| - |out|
    {
      list, tail, p, out, v := OnePair(p, insize, list, tail, k, res, ns, out, nmerges, v0, v, nodes);
      FewMerges(ns, out, insize, nmerges + 1, v, nodes, list, tail, p);
      nmerges := nmerges + 1;
    }
    EndPass(ns, out, insize, nmerges, v, nodes, list, tail);
  }

  lemma StartPass(ns: seq<ListHead>, w: nat, v: View<ListHead>, nodes: set<ListHead>)
    requires w > 0 && ns != [] && Chain(ns) && Distinct(ns) && (forall n :: n in ns ==> n in nodes) && Blocks(v, ns, w)
    ensures InPass(ns, [], w, 0, v, nodes, null, null, ns[0])
  {
    hide Distinct;
    assert ns[0..] == ns && [] + [] + ns == ns;
    assert ns[..0] == [];
  }

  lemma EndPass(ns: seq<ListHead>, out: seq<ListHead>, w: nat, c: nat, v: View<ListHead>, nodes: set<ListHead>,
                list: ListHead?, tail: ListHead?)
    requires w > 0 && ns != [] && InPass(ns, out, w, c, v, nodes, list, tail, null)
    ensures Segment(out) && Distinct(out) && |out| == |ns| && list == out[0] && tail == out[|out| - 1]
    ensures multiset(out) == multiset(ns)
    ensures Blocks(v, out, 2 * w) && (c <= 1 <==> |ns| <= 2 * w)
  {
    hide Distinct, Segment, Blocks;
    assert ns[|out|..] == [] && ns[..|out|] == ns;
    assert out + [] + [] == out;
    if c > 1 { Monotone(1, c - 1, 2 * w); }
  }

  // The merge of one pair.
  method OnePair(p0: ListHead, insize: Counter, list0: ListHead?, tail0: ListHead?, k: Cmp, res: Results,
                 ghost ns: seq<ListHead>, ghost out0: seq<ListHead>, ghost c: nat, ghost v0: View<ListHead>,
                 ghost v1: View<ListHead>, ghost nodes: set<ListHead>)
    returns (list: ListHead?, tail: ListHead?, p: ListHead?, ghost out: seq<ListHead>, ghost v: View<ListHead>)
    requires insize > 0 && InPass(ns, out0, insize, c, v1, nodes, list0, tail0, p0) && |out0| < |ns|
    requires Reflects(v1, nodes) && Evolves(v0, v1) && v1.k == k
    modifies nodes`next, (Infos(nodes))`data16, res
    ensures InPass(ns, out, insize, c + 1, v, nodes, list, tail, p) && Reflects(v, nodes) && Evolves(v0, v) && v.k == k
    ensures |out0| < |out| <= |ns| && (p != null <==> |out| < |ns|)
  {
    hide Blocks, Distinct, Midway, Links, Reflects, Evolves, Paired;
    ghost var rest := ns[|out0|..];
    var q, psize := Split(p0, insize, rest);
    ghost var a := rest[..psize];
    ghost var b := rest[psize..if psize + insize < |rest| then psize + insize else |rest|];
    PairAhead(ns, out0, insize, c, v1, nodes, list0, tail0, p0, a, b);
    ghost var cur: seq<ListHead>;
    list, tail, p, cur, v := Merge(p0, psize, q, insize, list0, tail0, k, res, out0, rest, a, b, v1, nodes);
    EvolvesTrans(v0, v1, v);
    BlocksEvolve(v1, v, ns, insize);
    BlocksEvolve(v1, v, out0, 2 * insize);
    out := out0 + cur;
    PairMerged(ns, out0, insize, c, v, nodes, a, b, cur, list, tail, p);
  }
}

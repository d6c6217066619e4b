/** core_list_mergesort, the other list operations, and core_bench_list, which gives its list
    back as it was. */
module BenchList {
  import opened Collections
  import opened Merging
  import opened CoreList

  // The node after the i-th, null after the last.
  function NextOf(s: seq<ListHead>, i: nat): ListHead?
    requires i < |s|
  {
    if i + 1 < |s| then s[i + 1] else null
  }

  function PreviousOf(s: seq<ListHead>, i: nat): ListHead?
    requires i < |s|
  {
    if i == 0 then null else s[i - 1]
  }

  lemma ChainNext(s: seq<ListHead>)
    ensures Chain(s) <==> forall i :: 0 <= i < |s| ==> s[i].next == NextOf(s, i)
  {
    if Chain(s) {
      forall i | 0 <= i < |s| ensures s[i].next == NextOf(s, i) {}
    }
    if forall i :: 0 <= i < |s| ==> s[i].next == NextOf(s, i) {
      forall i | 0 <= i < |s| - 1 ensures s[i].next == s[i + 1] { assert s[i].next == NextOf(s, i); }
      if s != [] { assert s[|s| - 1].next == NextOf(s, |s| - 1); }
    }
  }

  // A list of these nodes in memory.
  ghost predicate IsList(list: ListHead?, ns: seq<ListHead>)
    reads ns
  {
    Chain(ns) && Distinct(ns) && list == First(ns)
  }

  ghost predicate Within(ns: seq<ListHead>, nodes: set<ListHead>) { forall i :: 0 <= i < |ns| ==> ns[i] in nodes }

  /** core_list_mergesort: it terminates on every list that is not empty, and returns the same
      nodes in order of what the comparator has left as their keys, equal keys in the order they
      came in; with two nodes or more all have been compared.  None of its 32-bit counters overflows. */
  method MergeSort(list0: ListHead, k: Cmp, res: Results, ghost ns: seq<ListHead>, ghost v0: View<ListHead>,
                   ghost nodes: set<ListHead>)
    returns (list: ListHead?, ghost rs: seq<ListHead>, ghost v: View<ListHead>)
    requires 0 < |ns| < MAX_LENGTH && IsList(list0, ns) && Within(ns, nodes) && Reflects(v0, nodes) && v0.k == k
    requires forall i, j :: 0 <= i < j < |ns| ==> Pos(v0, ns[i]) < Pos(v0, ns[j])
    modifies nodes`next, (Infos(nodes))`data16, res
    ensures IsList(list, rs) && |rs| == |ns| && multiset(rs) == multiset(ns) && Reflects(v, nodes)
    ensures RunOk(v, rs) && Evolves(v0, v) && (|ns| > 1 ==> AllDone(v, rs))
  {
    hide Blocks, Distinct, Segment, Reflects, Evolves, RunOk, Sorted, Pos, Done;
    Singletons(v0, ns);
    EvolvesSelf(v0);
    list, rs, v := list0, ns, v0;
    var insize: Counter := 1;
    while true
      invariant 1 <= insize <= |ns| && IsList(list, rs) && |rs| == |ns| && multiset(rs) == multiset(ns)
      invariant Reflects(v, nodes) && Evolves(v0, v) && v.k == k && Blocks(v, rs, insize)
      decreases |ns| - insize
    {
      ghost var v1 := v;
      WithinSame(ns, rs, nodes);
      var nmerges: Counter;
      list, nmerges, rs, v := PassAndClose(list, insize, k, res, rs, v, nodes);
      EvolvesTrans(v0, v1, v);
      if nmerges <= 1 {
        OneBlock(v, rs, 2 * insize);
        if |ns| > 1 { RunDone(v, rs); }
        return;
      }
      insize := insize * 2;
    }
  }

  // A pass, and the end of the new list closed.
  method PassAndClose(list0: ListHead?, insize: Counter, k: Cmp, res: Results, ghost ns: seq<ListHead>,
                      ghost v0: View<ListHead>, ghost nodes: set<ListHead>)
    returns (list: ListHead?, nmerges: Counter, ghost out: seq<ListHead>, ghost v: View<ListHead>)
    requires insize > 0 && 0 < |ns| < MAX_LENGTH && IsList(list0, ns) && Within(ns, nodes)
    requires Reflects(v0, nodes) && k == v0.k && Blocks(v0, ns, insize)
    modifies nodes`next, (Infos(nodes))`data16, res
    ensures IsList(list, out) && |out| == |ns| && multiset(out) == multiset(ns)
    ensures Reflects(v, nodes) && Evolves(v0, v) && v.k == k && Blocks(v, out, 2 * insize)
    ensures nmerges <= 1 <==> |ns| <= 2 * insize
  {
    hide Blocks, Distinct, Evolves;
    var tail: ListHead?;
    list, tail, nmerges, out, v := Pass(list0, insize, k, res, ns, v0, nodes);
    WithinSame(ns, out, nodes);
    Close(tail, out);
  }

  method Close(tail: ListHead, ghost out: seq<ListHead>)
    requires out != [] && Segment(out) && Distinct(out) && tail == out[|out| - 1]
    modifies tail`next
    ensures Chain(out)
  {
    hide Distinct;
    LastOnce(out);
    tail.next := null;
  }

  lemma LastOnce(s: seq<ListHead>)
    requires Distinct(s) && s != []
    ensures forall i :: 0 <= i < |s| - 1 ==> s[i] != s[|s| - 1]
  {}

  lemma WithinSame(ns: seq<ListHead>, rs: seq<ListHead>, nodes: set<ListHead>)
    requires multiset(rs) == multiset(ns) && Within(ns, nodes)
    ensures Within(rs, nodes) && forall n :: n in rs ==> n in nodes
  {
    forall i | 0 <= i < |rs| ensures rs[i] in nodes {
      assert rs[i] in multiset(rs);
      assert rs[i] in ns;
    }
  }

  lemma RunDone<T>(v: View<T>, s: seq<T>)
    requires RunOk(v, s) && |s| > 1
    ensures AllDone(v, s)
  {
    hide Done;
    assert Sorted(v, s[0], s[1]);
    ComparedAll(v, s, 0);
  }

  /* ----- find and reverse ----- */

  // What core_list_find looks for: an index, or with a negative index a data byte.
  predicate Matches(n: ListHead, data16: bv16, idx: int)
    reads n, n.info
  {
    if idx >= 0 then n.info.idx == idx else n.info.data16 & 0xFF == data16
  }

  /** core_list_find: the first node that matches, or null if none does. */
  method Find(list0: ListHead?, data16: bv16, idx: int, ghost ns: seq<ListHead>) returns (list: ListHead?, ghost k: nat)
    requires IsList(list0, ns)
    ensures k <= |ns| && list == First(ns[k..]) && (k < |ns| ==> Matches(ns[k], data16, idx))
    ensures forall i :: 0 <= i < k ==> !Matches(ns[i], data16, idx)
    ensures list != null ==> list in ns && Matches(list, data16, idx)
    ensures list == null <==> forall i :: 0 <= i < |ns| ==> !Matches(ns[i], data16, idx)
  {
    hide Distinct;
    list, k := list0, 0;
    assert ns[0..] == ns;
    while list != null && (if idx >= 0 then list.info.idx != idx else list.info.data16 & 0xFF != data16)
      invariant k <= |ns| && list == First(ns[k..])
      invariant forall i :: 0 <= i < k ==> !Matches(ns[i], data16, idx)
      decreases |ns| - k
    {
      assert k < |ns| - 1 ==> ns[k].next == ns[k + 1];
      list, k := list.next, k + 1;
    }
  }

  lemma {:induction false} ReversedSame<T>(s: seq<T>)
    ensures multiset(Reversed(s)) == multiset(s)
  {
    if s != [] {
      ReversedSame(s[..|s| - 1]);
      assert s == s[..|s| - 1] + [s[|s| - 1]];
      assert Reversed(s) == [s[|s| - 1]] + Reversed(s[..|s| - 1]);
    }
  }

  lemma ReversedDistinct<T>(s: seq<T>)
    requires Distinct(s)
    ensures Distinct(Reversed(s))
  {
    var r := Reversed(s);
    forall i, j | 0 <= i < j < |r| ensures r[i] != r[j] { assert s[|s| - 1 - j] != s[|s| - 1 - i]; }
  }

  /** core_list_reverse: the same nodes in reverse order. */
  method Reverse(list0: ListHead?, ghost ns: seq<ListHead>, ghost nodes: set<ListHead>) returns (next: ListHead?)
    requires IsList(list0, ns) && Within(ns, nodes)
    modifies nodes`next
    ensures IsList(next, Reversed(ns))
  {
    hide Distinct;
    var list := list0;
    next := null;
    ghost var k: nat := 0;
    assert ns[0..] == ns;
    ChainNext(ns);
    while list != null
      invariant k <= |ns| && list == First(ns[k..]) && next == (if k == 0 then null else ns[k - 1])
      invariant forall i :: 0 <= i < k ==> ns[i].next == PreviousOf(ns, i)
      invariant forall i :: k <= i < |ns| ==> ns[i].next == NextOf(ns, i)
      decreases |ns| - k
    {
      Others(ns, k);
      assert list == ns[k];
      var tmp := list.next;
      list.next := next;
      next := list;
      list, k := tmp, k + 1;
    }
    ReversedDistinct(ns);
    ReversedLinks(ns);
  }

  lemma Others<T>(s: seq<T>, k: nat)
    requires Distinct(s) && k < |s|
    ensures forall i :: 0 <= i < |s| && i != k ==> s[i] != s[k]
  {}

  lemma ReversedLinks(ns: seq<ListHead>)
    requires forall i :: 0 <= i < |ns| ==> ns[i].next == PreviousOf(ns, i)
    ensures Chain(Reversed(ns))
  {
    var r := Reversed(ns);
    forall i | 0 <= i < |r| ensures r[i].next == NextOf(r, i) {
      assert ns[|ns| - 1 - i].next == PreviousOf(ns, |ns| - 1 - i);
    }
    ChainNext(r);
  }

  /* ----- removing and undoing ----- */

  /** core_list_remove of the i-th item: its successor leaves the list, their data swapped. */
  method Remove(item: ListHead, ghost ns: seq<ListHead>, ghost i: nat, ghost nodes: set<ListHead>)
    returns (ret: ListHead)
    requires IsList(First(ns), ns) && i + 1 < |ns| && item == ns[i] && Within(ns, nodes)
    modifies item, item.next
    ensures ret == ns[i + 1] && IsList(First(ns), Without(ns, i + 1)) && ret !in Without(ns, i + 1)
    ensures item.info == old(ns[i + 1].info) && ret.info == old(item.info)
  {
    hide Distinct;
    ChainNext(ns);
    Others(ns, i);
    Others(ns, i + 1);
    assert ns[i].next == NextOf(ns, i) && ns[i + 1].next == NextOf(ns, i + 1);
    WithoutMembers(ns, i + 1);
    ret := item.next;
    var tmp := item.info;
    item.info := ret.info;
    ret.info := tmp;
    item.next := item.next.next;
    ret.next := null;
    CutLinks(ns, i);
  }

  // The links of the list without its (i + 1)-st node.
  lemma CutLinks(ns: seq<ListHead>, i: nat)
    requires i + 1 < |ns| && ns[i].next == (if i + 2 < |ns| then ns[i + 2] else null)
    requires forall j :: 0 <= j < |ns| && j != i && j != i + 1 ==> ns[j].next == NextOf(ns, j)
    ensures Chain(Without(ns, i + 1))
  {
    var ms := Without(ns, i + 1);
    forall j | 0 <= j < |ms| ensures ms[j].next == NextOf(ms, j) {
      if j < i { assert ns[j].next == NextOf(ns, j); }
      if j > i { assert ns[j + 1].next == NextOf(ns, j + 1); }
    }
    ChainNext(ms);
  }

  /** core_list_undo_remove: the removed item comes back behind the modified one, their data
      swapped again. */
  method UndoRemove(removed: ListHead, modified: ListHead, ghost ms: seq<ListHead>, ghost i: nat)
    requires IsList(First(ms), ms) && i < |ms| && modified == ms[i] && removed !in ms
    modifies removed, modified
    ensures IsList(First(ms), ms[..i + 1] + [removed] + ms[i + 1..])
    ensures removed.info == old(modified.info) && modified.info == old(removed.info)
  {
    hide Distinct;
    ChainNext(ms);
    Others(ms, i);
    assert ms[i].next == NextOf(ms, i);
    InsertDistinct(ms, i, removed);
    var tmp := removed.info;
    removed.info := modified.info;
    modified.info := tmp;
    removed.next := modified.next;
    modified.next := removed;
    ghost var ns := ms[..i + 1] + [removed] + ms[i + 1..];
    forall j | 0 <= j < |ns| ensures ns[j].next == NextOf(ns, j) {
      if j < i { assert ms[j].next == NextOf(ms, j); }
      if j > i + 1 { assert ms[j - 1].next == NextOf(ms, j - 1); }
    }
    ChainNext(ns);
  }

  lemma InsertDistinct<T>(s: seq<T>, i: nat, x: T)
    requires Distinct(s) && i < |s| && x !in s
    ensures Distinct(s[..i + 1] + [x] + s[i + 1..])
  {}

  /** Undoing a removal restores the order of the nodes. */
  lemma UndoRestores<T>(ns: seq<T>, i: nat)
    requires i + 1 < |ns|
    ensures var ms := Without(ns, i + 1); ms[..i + 1] + [ns[i + 1]] + ms[i + 1..] == ns
  {}

  /* ----- moving a found node's successor to the front ----- */

  function Spliced<T>(s: seq<T>, f: nat): seq<T>
    requires f + 1 < |s|
  {
    [s[0], s[f + 1]] + s[1..f + 1] + s[f + 2..]
  }

  lemma SplicedSame<T>(s: seq<T>, f: nat)
    requires f + 1 < |s| && Distinct(s)
    ensures multiset(Spliced(s, f)) == multiset(s) && Distinct(Spliced(s, f))
  {
    hide Distinct;
    assert s == [s[0]] + s[1..f + 1] + [s[f + 1]] + s[f + 2..];
    assert Spliced(s, f) == [s[0]] + [s[f + 1]] + s[1..f + 1] + s[f + 2..];
    Swapped([s[0]], s[1..f + 1], [s[f + 1]], s[f + 2..]);
    Shuffled(s, Spliced(s, f));
  }

  lemma Swapped<T>(a: seq<T>, b: seq<T>, c: seq<T>, d: seq<T>)
    ensures multiset(a + b + c + d) == multiset(a + c + b + d)
  {}

  lemma {:induction false} OneEach<T>(s: seq<T>, x: T)
    requires Distinct(s)
    ensures multiset(s)[x] <= 1
  {
    if s != [] {
      var pre := s[..|s| - 1];
      assert s == pre + [s[|s| - 1]];
      DistinctParts(pre, [s[|s| - 1]]);
      OneEach(pre, x);
      assert s[|s| - 1] in [s[|s| - 1]];
      assert s[|s| - 1] !in pre;
    }
  }

  lemma Shuffled<T>(s: seq<T>, r: seq<T>)
    requires Distinct(s) && multiset(r) == multiset(s)
    ensures Distinct(r) && |r| == |s|
  {
    forall i, j | 0 <= i < j < |r| ensures r[i] != r[j] {
      OneEach(s, r[i]);
      assert r == r[..j] + [r[j]] + r[j + 1..];
      assert r[..j][i] == r[i];
      assert multiset(r[..j])[r[i]] >= 1;
    }
    assert |multiset(r)| == |multiset(s)|;
  }

  // The successor of the f-th node is linked in behind the head.
  method Splice(list: ListHead, thisFind: ListHead, ghost ns: seq<ListHead>, ghost f: nat, ghost nodes: set<ListHead>)
    requires IsList(list, ns) && f + 1 < |ns| && thisFind == ns[f] && Within(ns, nodes)
    modifies nodes`next
    ensures IsList(list, Spliced(ns, f))
  {
    hide Distinct;
    ChainNext(ns);
    Others(ns, 0);
    Others(ns, f);
    Others(ns, f + 1);
    assert ns[f].next == NextOf(ns, f) && ns[f + 1].next == NextOf(ns, f + 1) && ns[0].next == NextOf(ns, 0);
    var finder := thisFind.next;
    thisFind.next := finder.next;
    finder.next := list.next;
    list.next := finder;
    SplicedSame(ns, f);
    SplicedLinks(ns, f);
  }

  lemma SplicedLinks(ns: seq<ListHead>, f: nat)
    requires f + 1 < |ns| && ns[0].next == ns[f + 1] && (f > 0 ==> ns[f].next == NextOf(ns, f + 1))
    requires ns[f + 1].next == if f == 0 then NextOf(ns, 1) else ns[1]
    requires forall j :: 0 < j < |ns| && j != f && j != f + 1 ==> ns[j].next == NextOf(ns, j)
    ensures Chain(Spliced(ns, f))
  {
    var rs := Spliced(ns, f);
    forall j | 0 <= j < |rs| ensures rs[j].next == NextOf(rs, j) {
      var x := if j == 0 then 0 else if j == 1 then f + 1 else if j <= f + 1 then j - 1 else j;
      assert rs[j] == ns[x];
      if 1 < j <= f { assert rs[j + 1] == ns[j]; }
      if x != 0 && x != f && x != f + 1 { assert ns[x].next == NextOf(ns, x); }
    }
    ChainNext(rs);
  }

  // info.idx++ in 16 bits.
  function Increment16(i: int): int { if i == 0x7FFF then -0x8000 else i + 1 }

  /** The find loop: each round reverses the list, and splices it if it has found something; no
      data is touched, and the nodes are the same. */
  method FindRounds(list0: ListHead, findNum: int, finderIdx: int, ghost ns: seq<ListHead>, ghost nodes: set<ListHead>)
    returns (list: ListHead, idx: int, data16: bv16, ghost ms: seq<ListHead>)
    requires 2 <= |ns| && IsList(list0, ns) && Within(ns, nodes)
    modifies nodes`next
    ensures IsList(list, ms) && |ms| == |ns| && multiset(ms) == multiset(ns)
  {
    hide Distinct;
    list, idx, data16, ms := list0, finderIdx, 0, ns;
    var i := 0;
    while i < findNum
      invariant IsList(list, ms) && |ms| == |ns| && multiset(ms) == multiset(ns)
    {
      WithinSame(ns, ms, nodes);
      data16 := (i % 256) as bv16;
      list, ms := Round(list, data16, idx, ms, nodes);
      if idx >= 0 {
        idx := Increment16(idx);
      }
      i := i + 1;
    }
  }

  method Round(list0: ListHead, data16: bv16, idx: int, ghost ms: seq<ListHead>, ghost nodes: set<ListHead>)
    returns (list: ListHead, ghost rs: seq<ListHead>)
    requires 2 <= |ms| && IsList(list0, ms) && Within(ms, nodes)
    modifies nodes`next
    ensures IsList(list, rs) && |rs| == |ms| && multiset(rs) == multiset(ms)
  {
    hide Distinct, Chain;
    var thisFind: ListHead?;
    ghost var k: nat;
    thisFind, k := Find(list0, data16, idx, ms);
    var reversed := Reverse(list0, ms, nodes);
    list, rs := reversed, Reversed(ms);
    ReversedSame(ms);
    WithinSame(ms, rs, nodes);
    if thisFind != null {
      var at := |ms| - 1 - k;
      NextIs(rs, at);
      if thisFind.next != null {
        SplicedSame(rs, at);
        Splice(list, thisFind, rs, at, nodes);
        rs := Spliced(rs, at);
      }
    }
  }

  lemma NextIs(ns: seq<ListHead>, i: nat)
    requires Chain(ns) && i < |ns|
    ensures ns[i].next == NextOf(ns, i)
  {
    ChainNext(ns);
  }

  /* ----- the whole function ----- */

  // What the comparator is to know of these nodes, where they stand now being their places.
  ghost function ViewOf(k: Cmp, ms: seq<ListHead>, nodes: set<ListHead>): View<ListHead>
    reads nodes, Infos(nodes)
  {
    View(k, map n | n in nodes :: DatumOf(n.info), map n | n in nodes && n in ms :: IndexOf(ms, n))
  }

  ghost predicate InfosApart(nodes: set<ListHead>)
    reads nodes
  {
    forall a, b :: a in nodes && b in nodes && a != b ==> a.info != b.info
  }

  lemma ViewOfOk(k: Cmp, ms: seq<ListHead>, nodes: set<ListHead>)
    requires InfosApart(nodes) && Within(ms, nodes) && Distinct(ms)
    ensures Reflects(ViewOf(k, ms, nodes), nodes) && ViewOf(k, ms, nodes).k == k
    ensures forall i, j :: 0 <= i < j < |ms| ==> Pos(ViewOf(k, ms, nodes), ms[i]) < Pos(ViewOf(k, ms, nodes), ms[j])
  {
    var v := ViewOf(k, ms, nodes);
    forall i | 0 <= i < |ms| ensures Pos(v, ms[i]) == i {
      assert ms[i] in ms;
      var j := IndexOf(ms, ms[i]);
      assert ms[j] == ms[i];
    }
  }

  /* Every node has the data it had in w, whatever the comparator has since left in the lower byte. */
  ghost predicate KeepsBackups(w: map<ListHead, Datum>, d: map<ListHead, Datum>) {
    d.Keys == w.Keys && forall n :: n in w ==> d[n].idx == w[n].idx && High(d[n].data16) == High(w[n].data16)
  }

  lemma EvolvesBackups(w: map<ListHead, Datum>, v: View<ListHead>, v': View<ListHead>)
    requires KeepsBackups(w, v.d) && Evolves(v, v')
    ensures KeepsBackups(w, v'.d)
  {
    hide High, Done;
  }

  // The part between the sorts: an item is removed, the data read, and the item put back.
  method RemoveAndUndo(list: ListHead, idx: int, data16: bv16, res: Results, ghost ms: seq<ListHead>,
                       ghost v: View<ListHead>, ghost nodes: set<ListHead>)
    requires 3 <= |ms| && IsList(list, ms) && Within(ms, nodes) && Reflects(v, nodes)
    modifies nodes, res
    ensures IsList(list, ms) && Reflects(v, nodes)
    ensures forall n :: n in nodes ==> n.info == old(n.info)
  {
    hide Distinct, Chain;
    NextIs(ms, 0);
    NextIs(ms, 1);
    var item := list.next;
    var remover := Remove(item, ms, 1, nodes);
    ghost var cut := Without(ms, 2);
    Checksum(list, idx, data16, res, cut);
    NextIs(cut, 0);
    UndoRestores(ms, 1);
    assert cut[1] == ms[1] && First(cut) == First(ms);
    UndoRemove(remover, list.next, cut, 1);
  }

  // The search and the checksum loops: they only read the list.
  method Checksum(list: ListHead, idx: int, data16: bv16, res: Results, ghost ms: seq<ListHead>)
    requires 2 <= |ms| && IsList(list, ms)
    modifies res
  {
    hide Distinct;
    var finder, k := Find(list, data16, idx, ms);
    var retval: bv16 := 0;
    if finder == null {
      NextIs(ms, 0);
      finder := list.next;
      k := 1;
    }
    while finder != null
      invariant k <= |ms| && finder == First(ms[k..])
      decreases |ms| - k
    {
      retval := AnyResult(list.info.data16, retval);
      NextIs(ms, k);
      finder, k := finder.next, k + 1;
    }
    res.crc := retval;
  }

  /* What the benchmark starts from: at least three nodes in strict order of index, each datum's
     lower byte the same as its backup. */
  ghost predicate Pristine(ns: seq<ListHead>, nodes: set<ListHead>)
    reads nodes, Infos(nodes)
  {
    && 3 <= |ns| < MAX_LENGTH && Distinct(ns) && InfosApart(nodes) && nodes == (set n | n in ns)
    && (forall n :: n in nodes ==> Low(n.info.data16) == High(n.info.data16))
    && (forall i, j :: 0 <= i < j < |ns| ==> ns[i] in nodes && ns[j] in nodes && ns[i].info.idx < ns[j].info.idx)
  }

  lemma PristineWithin(ns: seq<ListHead>, nodes: set<ListHead>)
    requires Pristine(ns, nodes)
    ensures Within(ns, nodes) && InfosApart(nodes)
    ensures var w := map n | n in nodes :: DatumOf(n.info); PristineData(ns, w)
  {
    hide Distinct, InfosApart, Low, High;
    forall i | 0 <= i < |ns| ensures ns[i] in nodes { assert ns[i] in ns; }
  }

  // Pristine, of the data alone.
  ghost predicate PristineData(ns: seq<ListHead>, w: map<ListHead, Datum>) {
    && w.Keys == (set n | n in ns)
    && (forall n :: n in w ==> Low(w[n].data16) == High(w[n].data16))
    && (forall i, j :: 0 <= i < j < |ns| ==> ns[i] in w && ns[j] in w && w[ns[i]].idx < w[ns[j]].idx)
  }

  lemma BackupsSelf(w: map<ListHead, Datum>, v: View<ListHead>)
    requires v.d == w
    ensures KeepsBackups(w, v.d)
  {}

  lemma ReflectsApart(v: View<ListHead>, nodes: set<ListHead>)
    requires Reflects(v, nodes)
    ensures InfosApart(nodes)
  {}

  lemma ReflectsData(v: View<ListHead>, nodes: set<ListHead>)
    requires Reflects(v, nodes)
    ensures v.d.Keys == nodes && forall n :: n in nodes ==> v.d[n] == DatumOf(n.info)
  {}

  lemma EvolvesKind(v: View<ListHead>, v': View<ListHead>)
    requires Evolves(v, v')
    ensures v'.k == v.k
  {}

  lemma SameData(u: View<ListHead>, v: View<ListHead>, nodes: set<ListHead>)
    requires Reflects(u, nodes) && Reflects(v, nodes)
    ensures u.d == v.d
  {}

  ghost predicate Rises<T>(s: seq<T>, key: map<T, int>) {
    (forall i :: 0 <= i < |s| ==> s[i] in key) && forall i, j :: 0 <= i < j < |s| ==> key[s[i]] < key[s[j]]
  }

  ghost predicate Climbs<T>(s: seq<T>, key: map<T, int>) {
    (forall i :: 0 <= i < |s| ==> s[i] in key) && forall i, j :: 0 <= i < j < |s| ==> key[s[i]] <= key[s[j]]
  }

  // The greatest comes last in both.
  lemma LastSame<T>(ns: seq<T>, rs: seq<T>, key: map<T, int>)
    requires ns != [] && |rs| == |ns| && Rises(ns, key) && Climbs(rs, key) && multiset(rs) == multiset(ns)
    ensures rs[|rs| - 1] == ns[|ns| - 1]
  {
    var (a, b) := (ns[|ns| - 1], rs[|rs| - 1]);
    assert a in multiset(ns) && b in multiset(rs);
    var i :| 0 <= i < |rs| && rs[i] == a;
    var j :| 0 <= j < |ns| && ns[j] == b;
    assert key[rs[i]] <= key[b];
    assert key[ns[j]] <= key[a];
  }

  lemma Prefixes<T>(ns: seq<T>, rs: seq<T>, key: map<T, int>)
    requires Rises(ns, key) && Climbs(rs, key) && ns != [] && rs != []
    ensures Rises(ns[..|ns| - 1], key) && Climbs(rs[..|rs| - 1], key)
  {}

  lemma DropLast<T>(s: seq<T>)
    requires s != []
    ensures multiset(s[..|s| - 1]) == multiset(s) - multiset{s[|s| - 1]}
  {
    assert s == s[..|s| - 1] + [s[|s| - 1]];
  }

  /** A rearrangement in order of keys that are all different is the only one. */
  lemma {:induction false} SortedSame<T>(ns: seq<T>, rs: seq<T>, key: map<T, int>)
    requires Rises(ns, key) && Climbs(rs, key) && multiset(rs) == multiset(ns)
    ensures rs == ns
  {
    hide Rises, Climbs;
    assert |multiset(rs)| == |multiset(ns)|;
    if ns != [] {
      LastSame(ns, rs, key);
      DropLast(ns);
      DropLast(rs);
      Prefixes(ns, rs, key);
      SortedSame(ns[..|ns| - 1], rs[..|rs| - 1], key);
      assert ns == ns[..|ns| - 1] + [ns[|ns| - 1]] && rs == rs[..|rs| - 1] + [rs[|rs| - 1]];
    }
  }

  // The indices of the nodes, and that the sort by index is in order of them.
  lemma InOrderSame(ns: seq<ListHead>, rs: seq<ListHead>, w: map<ListHead, Datum>, u: View<ListHead>)
    requires PristineData(ns, w) && KeepsBackups(w, u.d) && RunOk(u, rs) && u.k == ByIndex
    requires multiset(rs) == multiset(ns)
    ensures rs == ns
  {
    hide High, Low, Done;
    var key := map n | n in w :: w[n].idx;
    forall i | 0 <= i < |rs| ensures rs[i] in key {
      assert rs[i] in multiset(rs);
      assert rs[i] in ns;
    }
    forall i, j | 0 <= i < j < |rs| ensures key[rs[i]] <= key[rs[j]] { assert Sorted(u, rs[i], rs[j]); }
    forall i | 0 <= i < |ns| ensures ns[i] in key { assert ns[i] in ns; }
    SortedSame(ns, rs, key);
  }

  lemma SameBytes(x: bv16, y: bv16)
    requires Low(x) == High(x) && Low(y) == High(y) && High(x) == High(y)
    ensures x == y
  {}

  // All nodes seen to by the comparator by index: the data are what they were.
  lemma DataRestored(ns: seq<ListHead>, w: map<ListHead, Datum>, u: View<ListHead>)
    requires PristineData(ns, w) && KeepsBackups(w, u.d) && AllDone(u, ns) && u.k == ByIndex
    ensures u.d == w
  {
    hide High, Low;
    forall n | n in w ensures u.d[n] == w[n] {
      var i :| 0 <= i < |ns| && ns[i] == n;
      assert Done(u, ns[i]);
      SameBytes(u.d[n].data16, w[n].data16);
    }
  }

  /** core_bench_list gives its list back: whatever is searched for, however often, and whatever
      the kernels compute, afterwards the same nodes are linked in the same order, each with the
      data record it had, its contents restored. */
  method CoreBenchList(list0: ListHead, findNum: int, finderIdx: int, res: Results, ghost ns: seq<ListHead>,
                       ghost nodes: set<ListHead>)
    requires IsList(list0, ns) && Pristine(ns, nodes)
    modifies nodes, (Infos(nodes))`data16, res
    ensures IsList(list0, ns)
    ensures forall n :: n in nodes ==> n.info == old(n.info) && n.info.data16 == old(n.info.data16)
                                       && n.info.idx == old(n.info.idx)
  {
    hide Distinct, Chain, Reflects, Evolves, RunOk, AllDone, KeepsBackups, InfosApart;
    ghost var w := map n | n in nodes :: DatumOf(n.info);
    PristineWithin(ns, nodes);
    var list, idx, data16;
    ghost var ms: seq<ListHead>;
    ghost var v: View<ListHead>;
    list, idx, data16, ms, v := FindAndSort(list0, findNum, finderIdx, res, ns, w, nodes);
    WithinSame(ns, ms, nodes);
    RemoveAndUndo(list, idx, data16, res, ms, v, nodes);
    SortBack(list, res, ns, ms, w, v, nodes);
  }

  // The find loop and the sort by data.
  method FindAndSort(list0: ListHead, findNum: int, finderIdx: int, res: Results, ghost ns: seq<ListHead>,
                     ghost w: map<ListHead, Datum>, ghost nodes: set<ListHead>)
    returns (list: ListHead, idx: int, data16: bv16, ghost ms: seq<ListHead>, ghost v: View<ListHead>)
    requires 2 <= |ns| < MAX_LENGTH && IsList(list0, ns) && Within(ns, nodes) && InfosApart(nodes)
    requires w == map n | n in nodes :: DatumOf(n.info)
    modifies nodes`next, (Infos(nodes))`data16, res
    ensures IsList(list, ms) && |ms| == |ns| && multiset(ms) == multiset(ns) && Reflects(v, nodes)
    ensures KeepsBackups(w, v.d)
  {
    hide Distinct, Chain, Reflects, Evolves, RunOk, AllDone, KeepsBackups;
    list, idx, data16, ms := FindRounds(list0, findNum, finderIdx, ns, nodes);
    WithinSame(ns, ms, nodes);
    v := ViewOf(Complex, ms, nodes);
    ViewOfOk(Complex, ms, nodes);
    BackupsSelf(w, v);
    if finderIdx > 0 {
      ghost var v0 := v;
      var sorted: ListHead?;
      sorted, ms, v := MergeSort(list, Complex, res, ms, v0, nodes);
      list := sorted;
      EvolvesBackups(w, v0, v);
    }
  }

  // The sort by index.
  method SortBack(list: ListHead, res: Results, ghost ns: seq<ListHead>, ghost ms: seq<ListHead>,
                  ghost w: map<ListHead, Datum>, ghost v: View<ListHead>, ghost nodes: set<ListHead>)
    requires 2 <= |ms| < MAX_LENGTH && IsList(list, ms) && multiset(ms) == multiset(ns) && Within(ms, nodes) && ns != []
    requires Reflects(v, nodes) && KeepsBackups(w, v.d) && PristineData(ns, w)
    modifies nodes`next, (Infos(nodes))`data16, res
    ensures IsList(ns[0], ns) && w.Keys == nodes && forall n :: n in nodes ==> w[n] == DatumOf(n.info)
  {
    hide Distinct, Chain, Reflects, Evolves, RunOk, AllDone, KeepsBackups, InfosApart, PristineData;
    ReflectsApart(v, nodes);
    ghost var u := ViewOf(ByIndex, ms, nodes);
    ViewOfOk(ByIndex, ms, nodes);
    SameData(u, v, nodes);
    var final: ListHead?;
    ghost var rs: seq<ListHead>;
    ghost var u': View<ListHead>;
    final, rs, u' := MergeSort(list, ByIndex, res, ms, u, nodes);
    EvolvesBackups(w, u, u');
    EvolvesKind(u, u');
    InOrderSame(ns, rs, w, u');
    DataRestored(ns, w, u');
    ReflectsData(u', nodes);
  }
}

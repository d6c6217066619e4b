/** The abstract value of a List_t: its items in link order from the head, and
    the rotation cursor pxIndex.  `idx == 0` means pxIndex points at xListEnd;
    `idx == k > 0` means it points at `items[k-1]`. */
module Rings {
  import opened Config
  import opened Collections

  datatype RawRing<T> = Ring(items: seq<T>, idx: nat)

  type Ring<T> = r: RawRing<T> | r.idx <= |r.items| witness Ring([], 0)

  // vListInitialise
  function Empty<T>(): Ring<T> { Ring([], 0) }

  // vListInsertEnd and listINSERT_END: link in just before pxIndex.
  function InsertEnd<T>(r: Ring<T>, x: T): Ring<T> {
    if r.idx == 0 then Ring(InsertAt(r.items, |r.items|, x), 0)
    else Ring(InsertAt(r.items, r.idx - 1, x), r.idx + 1)
  }

  // Link in at position j of the items (the tail of vListInsert).
  function InsertMid<T>(r: Ring<T>, j: nat, x: T): Ring<T>
    requires j <= |r.items|
  {
    Ring(InsertAt(r.items, j, x), if r.idx > j then r.idx + 1 else r.idx)
  }

  // How many leading values vListInsert's loop passes over for value v.
  function Slot(values: seq<nat>, v: nat): (j: nat)
    ensures j <= |values|
  {
    if v == MAX_DELAY then |values| else Leading(values, v)
  }

  function Leading(values: seq<nat>, v: nat): (j: nat)
    ensures j <= |values|
    ensures forall k :: 0 <= k < j ==> values[k] <= v
    ensures j < |values| ==> values[j] > v
  {
    if values == [] || values[0] > v then 0 else 1 + Leading(values[1..], v)
  }

  // uxListRemove and listREMOVE_ITEM.
  function Remove<T(==)>(r: Ring<T>, x: T): Ring<T>
    requires x in r.items
  {
    var j := IndexOf(r.items, x);
    Ring(Without(r.items, j), if r.idx > j then r.idx - 1 else r.idx)
  }

  // listGET_OWNER_OF_NEXT_ENTRY on a non-empty list: the cursor's new place.
  function Advance<T>(r: Ring<T>): Ring<T>
    requires r.items != []
  {
    Ring(r.items, if r.idx == |r.items| then 1 else r.idx + 1)
  }

  // The item a cursor points at.
  function AtCursor<T>(r: Ring<T>): T
    requires 0 < r.idx
  {
    r.items[r.idx - 1]
  }

  /* The upcoming rotation: what successive Advance calls will return. */
  function Rotation<T>(r: Ring<T>): (s: seq<T>)
    ensures |s| == |r.items|
  {
    r.items[r.idx..] + r.items[..r.idx]
  }

  lemma InsertEndMembers<T>(r: Ring<T>, x: T)
    requires Distinct(r.items) && x !in r.items
    ensures Distinct(InsertEnd(r, x).items) && forall y :: y in InsertEnd(r, x).items <==> y in r.items || y == x
  {
    InsertAtMembers(r.items, if r.idx == 0 then |r.items| else r.idx - 1, x);
  }

  lemma InsertMidMembers<T>(r: Ring<T>, j: nat, x: T)
    requires Distinct(r.items) && x !in r.items && j <= |r.items|
    ensures Distinct(InsertMid(r, j, x).items) && forall y :: y in InsertMid(r, j, x).items <==> y in r.items || y == x
  {
    InsertAtMembers(r.items, j, x);
  }

  lemma RemoveMembers<T>(r: Ring<T>, x: T)
    requires Distinct(r.items) && x in r.items
    ensures Distinct(Remove(r, x).items) && forall y :: y in Remove(r, x).items <==> y in r.items && y != x
  {
    WithoutMembers(r.items, IndexOf(r.items, x));
  }

  ghost predicate Ascending(s: seq<nat>) { forall i, j :: 0 <= i < j < |s| ==> s[i] <= s[j] }

  /** vListInsert into an ascending list keeps it ascending, and puts the new item after all
      those of equal value, also when its value is the end marker's own. */
  lemma InsertStable(values: seq<nat>, v: nat)
    requires Ascending(values) && (forall k :: 0 <= k < |values| ==> values[k] <= MAX_DELAY)
    ensures Ascending(InsertAt(values, Slot(values, v), v))
    ensures forall k :: 0 <= k < |values| ==> (k < Slot(values, v) <==> values[k] <= v)
  {
    var j := Slot(values, v);
    var s := InsertAt(values, j, v);
    forall k | 0 <= k < |values| ensures k < j <==> values[k] <= v {}
    forall a, b | 0 <= a < b < |s| ensures s[a] <= s[b] {
      assert s[a] == if a < j then values[a] else if a == j then v else values[a - 1];
      assert s[b] == if b < j then values[b] else if b == j then v else values[b - 1];
    }
  }

  /** A new item is served after every item except the one under the cursor. */
  lemma InsertEndRotation<T>(r: Ring<T>, x: T)
    requires x !in r.items
    ensures Rotation(InsertEnd(r, x)) ==
            if r.idx == 0 then Rotation(r) + [x]
            else Rotation(r)[..|r.items| - 1] + [x, AtCursor(r)]
  {
    var r' := InsertEnd(r, x);
    if r.idx != 0 {
      var n, k := |r.items|, r.idx;
      assert r'.items[k + 1..] == r.items[k..];
      assert r'.items[..k + 1] == r.items[..k - 1] + [x, r.items[k - 1]];
      assert Rotation(r)[..n - 1] == r.items[k..] + r.items[..k - 1];
    }
  }

  // Where in the rotation the item at position j is served.
  function Turn<T>(r: Ring<T>, j: nat): (k: nat)
    requires j < |r.items|
    ensures k < |r.items|
  {
    if j >= r.idx then j - r.idx else |r.items| - r.idx + j
  }

  lemma CutAfterCursor<T>(s: seq<T>, i: nat, j: nat)
    requires i <= j < |s|
    ensures Rotation(Ring(s, i))[j - i] == s[j]
    ensures Rotation(Ring(Without(s, j), i)) == Without(Rotation(Ring(s, i)), j - i)
  {
    var rot, cut := s[i..] + s[..i], s[..j] + s[j + 1..];
    assert rot[..j - i] == s[i..j] && rot[j - i + 1..] == s[j + 1..] + s[..i];
    assert cut[i..] == s[i..j] + s[j + 1..] && cut[..i] == s[..i];
  }

  lemma CutBeforeCursor<T>(s: seq<T>, i: nat, j: nat)
    requires j < i <= |s|
    ensures Rotation(Ring(s, i))[|s| - i + j] == s[j]
    ensures Rotation(Ring(Without(s, j), i - 1)) == Without(Rotation(Ring(s, i)), |s| - i + j)
  {
    var rot, cut, k := s[i..] + s[..i], s[..j] + s[j + 1..], |s| - i + j;
    assert rot[..k] == s[i..] + s[..j] && rot[k + 1..] == s[j + 1..i];
    assert cut[i - 1..] == s[i..] && cut[..i - 1] == s[..j] + s[j + 1..i];
  }

  /** Removal, also of the item under the cursor, keeps the service order of the rest. */
  lemma RemoveRotation<T>(r: Ring<T>, x: T)
    requires x in r.items
    ensures var k := Turn(r, IndexOf(r.items, x));
            Rotation(r)[k] == x && Rotation(Remove(r, x)) == Without(Rotation(r), k)
  {
    hide Rotation, Without;
    var j := IndexOf(r.items, x);
    if j >= r.idx {
      CutAfterCursor(r.items, r.idx, j);
    } else {
      CutBeforeCursor(r.items, r.idx, j);
    }
  }

  function AdvanceN<T>(r: Ring<T>, n: nat): (r': Ring<T>)
    requires r.items != []
    ensures r'.items == r.items
  {
    if n == 0 then r else Advance(AdvanceN(r, n - 1))
  }

  /** The k-th of n successive next-entry calls returns the k-th of the rotation, so
      n calls visit each of the n items once and bring the rotation back. */
  lemma {:induction false} AdvanceVisits<T>(r: Ring<T>, k: nat)
    requires r.items != [] && 1 <= k <= |r.items|
    ensures AdvanceN(r, k).idx > 0
    ensures AtCursor(AdvanceN(r, k)) == Rotation(r)[k - 1]
    ensures k == |r.items| ==> Rotation(AdvanceN(r, k)) == Rotation(r)
  {
    var n := |r.items|;
    if k > 1 {
      AdvanceVisits(r, k - 1);
    }
    AdvanceIdx(r, k);
    if k == n && r.idx == 0 {
      assert AdvanceN(r, k).idx == n;
    }
  }

  lemma {:induction false} AdvanceIdx<T>(r: Ring<T>, k: nat)
    requires r.items != [] && k <= |r.items|
    ensures AdvanceN(r, k).idx == if r.idx + k <= |r.items| then r.idx + k else r.idx + k - |r.items|
  {
    if k > 0 {
      AdvanceIdx(r, k - 1);
    }
  }
}

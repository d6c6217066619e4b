/** list.c: the circular doubly linked list with its end marker and cursor, and what its
    operations do to the abstract ring of items. */
module LinkedList {
  import opened Config
  import opened Collections
  import opened Rings

  class ListItem {
    var itemValue: nat
    var next: ListItem?
    var previous: ListItem?
    var container: List?

    // vListInitialiseItem
    constructor (v: nat)
      ensures itemValue == v && container == null
    {
      itemValue, next, previous, container := v, null, null, null;
    }
  }

  // The node after the k-th of n in a circle.
  function Succ(n: nat, k: nat): (j: nat)
    requires k < n
    ensures j < n
  {
    if k == n - 1 then 0 else k + 1
  }

  /* Nodes in a circle, with their forward and backward links. */
  ghost predicate Circle<T>(nodes: seq<T>, nexts: seq<T>, previous: seq<T>) {
    && |nodes| == |nexts| == |previous| > 0
    && forall k :: 0 <= k < |nodes| ==> Joined(nodes, nexts, previous, k)
  }

  // Node k and the next one point at each other.
  ghost predicate Joined<T>(nodes: seq<T>, nexts: seq<T>, previous: seq<T>, k: nat)
    requires |nodes| == |nexts| == |previous| && k < |nodes|
  {
    nexts[k] == nodes[Succ(|nodes|, k)] && previous[Succ(|nodes|, k)] == nodes[k]
  }

  // Where node i of the circle was before x was linked in behind node k, and i was not x.
  function Before(k: nat, i: nat): nat { if i <= k then i else i - 1 }

  /* What vListInsert's four assignments do to the links: x comes to stand behind node k. */
  ghost predicate LinkedIn<T>(ns: seq<T>, nx: seq<T>, pv: seq<T>, ns': seq<T>, nx': seq<T>, pv': seq<T>, k: nat, x: T)
    requires |ns| == |nx| == |pv| && k < |ns|
  {
    var n := |ns|;
    && |ns'| == |nx'| == |pv'| == n + 1
    && (forall i :: 0 <= i <= n ==> ns'[i] == if i == k + 1 then x else ns[Before(k, i)])
    && (forall i :: 0 <= i <= n ==> nx'[i] == if i == k + 1 then nx[k] else if i == k then x else nx[Before(k, i)])
    && (forall i :: 0 <= i <= n ==> pv'[i] == if i == k + 1 then ns[k]
                    else if Before(k, i) == Succ(n, k) then x else pv[Before(k, i)])
  }

  lemma SplicedIn<T>(ns: seq<T>, nx: seq<T>, pv: seq<T>, ns': seq<T>, nx': seq<T>, pv': seq<T>, k: nat, x: T)
    requires Circle(ns, nx, pv) && k < |ns| && LinkedIn(ns, nx, pv, ns', nx', pv', k, x)
    ensures Circle(ns', nx', pv')
  {
    var n := |ns|;
    forall j | 0 <= j <= n ensures Joined(ns', nx', pv', j) {
      var i := if j == k + 1 then k else Before(k, j);
      assert Joined(ns, nx, pv, i);
    }
  }

  // Where node i of the circle was before node k was unlinked.
  function Earlier(k: nat, i: nat): nat { if i < k then i else i + 1 }

  /* What uxListRemove's assignments do to the links: node k is bypassed. */
  ghost predicate LinkedOut<T>(ns: seq<T>, nx: seq<T>, pv: seq<T>, ns': seq<T>, nx': seq<T>, pv': seq<T>, k: nat)
    requires |ns| == |nx| == |pv| && 0 < k < |ns|
  {
    var n := |ns|;
    && |ns'| == |nx'| == |pv'| == n - 1
    && (forall i :: 0 <= i < n - 1 ==> ns'[i] == ns[Earlier(k, i)])
    && (forall i :: 0 <= i < n - 1 ==> nx'[i] == if Earlier(k, i) == k - 1 then nx[k] else nx[Earlier(k, i)])
    && (forall i :: 0 <= i < n - 1 ==> pv'[i] == if Earlier(k, i) == Succ(n, k) then pv[k] else pv[Earlier(k, i)])
  }

  lemma SplicedOut<T>(ns: seq<T>, nx: seq<T>, pv: seq<T>, ns': seq<T>, nx': seq<T>, pv': seq<T>, k: nat)
    requires Circle(ns, nx, pv) && 0 < k < |ns| && LinkedOut(ns, nx, pv, ns', nx', pv', k)
    ensures Circle(ns', nx', pv')
  {
    var n := |ns|;
    assert Joined(ns, nx, pv, k - 1) && Joined(ns, nx, pv, k);
    forall j | 0 <= j < n - 1 ensures Joined(ns', nx', pv', j) {
      var i := Earlier(k, j);
      assert Joined(ns, nx, pv, i);
    }
  }

  // A list's nodes: its end marker and its items, all different.
  lemma NodesDiffer<T>(e: T, items: seq<T>, k: nat)
    requires Distinct(items) && e !in items && k <= |items|
    ensures forall i :: 0 <= i <= |items| && i != k ==> ([e] + items)[i] != ([e] + items)[k]
  {}

  lemma CircleNode<T>(ns: seq<T>, nx: seq<T>, pv: seq<T>, k: nat)
    requires Circle(ns, nx, pv) && k < |ns|
    ensures nx[k] == ns[Succ(|ns|, k)] && pv[Succ(|ns|, k)] == ns[k]
  {
    assert Joined(ns, nx, pv, k);
  }

  lemma Inserted<T>(items: seq<T>, e: T, k: nat, x: T)
    requires k <= |items| && x !in items && e !in items && e != x && Distinct(items)
    ensures var (ns, ns') := ([e] + items, [e] + InsertAt(items, k, x));
            |ns'| == |ns| + 1 && forall i :: 0 <= i <= |ns| ==> ns'[i] == if i == k + 1 then x else ns[Before(k, i)]
    ensures Distinct(InsertAt(items, k, x)) && e !in InsertAt(items, k, x)
  {
    InsertAtMembers(items, k, x);
  }

  lemma Removed<T>(items: seq<T>, e: T, j: nat)
    requires j < |items| && e !in items && Distinct(items)
    ensures var (ns, ns') := ([e] + items, [e] + Without(items, j));
            |ns'| == |ns| - 1 && forall i :: 0 <= i < |ns'| ==> ns'[i] == ns[Earlier(j + 1, i)]
    ensures Distinct(Without(items, j)) && e !in Without(items, j)
    ensures forall i :: 0 <= i < |items| - 1 ==> Without(items, j)[i] == items[Earlier(j, i)] != items[j]
  {
    WithoutMembers(items, j);
  }

  class List {
    var numberOfItems: nat
    var index: ListItem
    const listEnd: ListItem
    ghost var items: seq<ListItem>   // in link order from the head
    ghost var cursor: nat            // where pxIndex is: 0 at the end marker, k at the k-th item

    // The circle, from the end marker on.
    ghost function Nodes(): (s: seq<ListItem?>)
      reads this
    {
      [listEnd] + items
    }

    ghost function Nexts(): (s: seq<ListItem?>)
      reads this, listEnd, items
      ensures |s| == |Nodes()|
    {
      seq(|items| + 1, i requires 0 <= i <= |items| reads this, listEnd, items => Nodes()[i].next)
    }

    ghost function Previous(): (s: seq<ListItem?>)
      reads this, listEnd, items
      ensures |s| == |Nodes()|
    {
      seq(|items| + 1, i requires 0 <= i <= |items| reads this, listEnd, items => Nodes()[i].previous)
    }

    // Links, containers, count and cursor agree.
    ghost predicate Valid()
      reads this, listEnd, items
    {
      && numberOfItems == |items| && listEnd.itemValue == MAX_DELAY && Distinct(items) && listEnd !in items
      && cursor <= |items| && index == Nodes()[cursor]
      && Circle(Nodes(), Nexts(), Previous())
      && (forall i :: 0 <= i < |items| ==> items[i].container == this)
    }

    ghost function Value(): Ring<ListItem>
      requires Valid()
      reads this, listEnd, items
    {
      Ring(items, cursor)
    }

    ghost function Values(): (s: seq<nat>)
      reads this, items
      ensures |s| == |items|
    {
      seq(|items|, i requires 0 <= i < |items| reads this, items => items[i].itemValue)
    }

    /** vListInitialise */
    constructor ()
      ensures Valid() && Value() == Empty() && fresh(listEnd)
    {
      var end := new ListItem(MAX_DELAY);
      listEnd, index, numberOfItems, items, cursor := end, end, 0, [], 0;
      new;
      listEnd.next, listEnd.previous := listEnd, listEnd;
    }

    // The assignments that link x in between `at`, the k-th node, and the node after it.
    method Splice(at: ListItem, x: ListItem, ghost k: nat, ghost ns: seq<ListItem?>, ghost nx: seq<ListItem?>,
                  ghost pv: seq<ListItem?>)
      requires Valid() && k <= |items| && x !in items && x != listEnd && ns == Nodes() && nx == Nexts()
      requires pv == Previous()
      requires at == ns[k] && at.next == ns[Succ(|ns|, k)]
      modifies at`next, at.next`previous, x`next, x`previous, x`container
      ensures null !in ns && x.next == nx[k] && x.previous == ns[k] && x.container == this
      ensures forall i :: 0 <= i < |ns| ==> ns[i].next == if i == k then x else nx[i]
      ensures forall i :: 0 <= i < |ns| ==> ns[i].previous == if i == Succ(|ns|, k) then x else pv[i]
      ensures forall i :: 0 < i < |ns| ==> ns[i].container == this
    {
      hide Circle, Distinct;
      NodesDiffer(listEnd, items, k);
      NodesDiffer(listEnd, items, Succ(|items| + 1, k));
      x.next := at.next;
      x.next.previous := x;
      x.previous := at;
      at.next := x;
      x.container := this;
    }

    // The links form the new circle, given how they were and which have changed.
    lemma CircleIn(ns: seq<ListItem?>, nx: seq<ListItem?>, pv: seq<ListItem?>, k: nat, x: ListItem)
      requires Circle(ns, nx, pv) && k < |ns| && null !in ns && |Nodes()| == |ns| + 1
      requires forall i :: 0 <= i <= |ns| ==> Nodes()[i] == if i == k + 1 then x else ns[Before(k, i)]
      requires forall i :: 0 <= i < |ns| ==> ns[i].next == if i == k then x else nx[i]
      requires forall i :: 0 <= i < |ns| ==> ns[i].previous == if i == Succ(|ns|, k) then x else pv[i]
      requires x.next == nx[k] && x.previous == ns[k]
      ensures Circle(Nodes(), Nexts(), Previous())
    {
      hide Circle;
      SplicedIn(ns, nx, pv, Nodes(), Nexts(), Previous(), k, x);
    }

    lemma CircleOut(ns: seq<ListItem?>, nx: seq<ListItem?>, pv: seq<ListItem?>, k: nat)
      requires Circle(ns, nx, pv) && 0 < k < |ns| && null !in ns && |Nodes()| == |ns| - 1
      requires forall i :: 0 <= i < |ns| - 1 ==> Nodes()[i] == ns[Earlier(k, i)]
      requires forall i :: 0 <= i < |ns| && i != k ==> ns[i].next == nx[if i == k - 1 then k else i]
      requires forall i :: 0 <= i < |ns| && i != k ==> ns[i].previous == pv[if i == Succ(|ns|, k) then k else i]
      ensures Circle(Nodes(), Nexts(), Previous())
    {
      hide Circle;
      SplicedOut(ns, nx, pv, Nodes(), Nexts(), Previous(), k);
    }

    // Link x in behind the k-th node.
    method LinkAfter(at: ListItem, x: ListItem, ghost k: nat)
      requires Valid() && k <= |items| && at == Nodes()[k] && x !in items && x != listEnd
      requires at.next == Nodes()[Succ(|items| + 1, k)]
      modifies this`numberOfItems, this`items, this`cursor, at`next, at.next`previous, x`next, x`previous, x`container
      ensures Valid() && Value() == InsertMid(old(Value()), k, x)
    {
      hide Circle, Distinct, InsertAt, Nexts, Previous;
      ghost var (ns, nx, pv) := (Nodes(), Nexts(), Previous());
      Inserted(items, listEnd, k, x);
      Splice(at, x, k, ns, nx, pv);
      items := InsertAt(items, k, x);
      cursor := if cursor > k then cursor + 1 else cursor;
      numberOfItems := numberOfItems + 1;
      assert Nodes()[cursor] == ns[Before(k, cursor)] == index;
      forall i | 0 <= i < |items| ensures items[i].container == this {
        assert Nodes()[i + 1] == items[i];
        if i != k { assert items[i] == ns[Before(k, i + 1)]; }
      }
      CircleIn(ns, nx, pv, k, x);
    }

    /** vListInsertEnd: x is linked in just before the cursor. */
    method InsertEnd(x: ListItem)
      requires Valid() && x !in items && x != listEnd
      modifies this`numberOfItems, this`items, this`cursor, listEnd, items, x
      ensures Valid() && index == old(index)
      ensures Value() == Rings.InsertEnd(old(Value()), x)
      ensures x.itemValue == old(x.itemValue)
      ensures forall y :: y in old(items) ==> y.itemValue == old(y.itemValue)
    {
      ghost var k := if cursor == 0 then |items| else cursor - 1;
      CircleNode(Nodes(), Nexts(), Previous(), k);
      LinkAfter(index.previous, x, k);
    }

    /** vListInsert: x is linked in after the leading items whose value is at most its own, its
        loop stopped by the end marker at the latest. */
    method Insert(x: ListItem)
      requires Valid() && x !in items && x != listEnd && x.itemValue <= MAX_DELAY
      modifies this`numberOfItems, this`items, this`cursor, listEnd, items, x
      ensures Valid() && index == old(index)
      ensures Value() == InsertMid(old(Value()), Slot(old(Values()), old(x.itemValue)), x)
      ensures x.itemValue == old(x.itemValue)
      ensures forall y :: y in old(items) ==> y.itemValue == old(y.itemValue)
    {
      var valueOfInsertion := x.itemValue;
      var at: ListItem;
      ghost var k: nat;
      if valueOfInsertion == MAX_DELAY {
        k := |items|;
        assert Joined(Nodes(), Nexts(), Previous(), k);
        at := listEnd.previous;
      } else {
        at, k := listEnd, 0;
        assert Joined(Nodes(), Nexts(), Previous(), 0);
        while at.next.itemValue <= valueOfInsertion
          invariant k <= |items| && at == Nodes()[k] && at.next == Nodes()[Succ(|items| + 1, k)]
          invariant forall i :: 0 <= i < k ==> Values()[i] <= valueOfInsertion
          decreases |items| - k
        {
          at, k := at.next, k + 1;
          assert Joined(Nodes(), Nexts(), Previous(), k);
        }
        if k < |items| { assert Values()[k] == Nodes()[k + 1].itemValue; }
      }
      assert k == Slot(Values(), valueOfInsertion);
      CircleNode(Nodes(), Nexts(), Previous(), k);
      LinkAfter(at, x, k);
    }

    /** uxListRemove, also of the item under the cursor. */
    static method Remove(x: ListItem) returns (left: nat)
      requires x.container != null && x.container.Valid() && x in x.container.items
      modifies x, x.container, x.container.listEnd, x.container.items
      ensures x.container == null && x.itemValue == old(x.itemValue)
      ensures var l := old(x.container);
              && l.Valid() && l.Value() == Rings.Remove(old(x.container.Value()), x)
              && left == l.numberOfItems
      ensures forall y :: y in old(x.container.items) ==> y.itemValue == old(y.itemValue)
    {
      var list := x.container;
      ghost var j := IndexOf(list.items, x);
      CircleNode(list.Nodes(), list.Nexts(), list.Previous(), j);
      CircleNode(list.Nodes(), list.Nexts(), list.Previous(), j + 1);
      list.Unlink(x, j);
      left := list.numberOfItems;
    }

    method Unlink(x: ListItem, ghost j: nat)
      requires Valid() && j < |items| && items[j] == x && j == IndexOf(items, x)
      requires x.next == Nodes()[Succ(|items| + 1, j + 1)] && x.previous == Nodes()[j]
      modifies this`numberOfItems, this`items, this`cursor, this`index, x.next`previous, x.previous`next, x`container
      ensures Valid() && Value() == Rings.Remove(old(Value()), x) && x.container == null
    {
      hide Circle, Distinct, Without, Nexts, Previous;
      ghost var (ns, nx, pv, k) := (Nodes(), Nexts(), Previous(), j + 1);
      Removed(items, listEnd, j);
      Bypass(x, j, ns, nx, pv);
      items := Without(items, j);
      cursor := if cursor > j then cursor - 1 else cursor;
      numberOfItems := numberOfItems - 1;
      assert Nodes()[cursor] == ns[Earlier(k, cursor)] == index;
      CircleOut(ns, nx, pv, k);
    }

    // The assignments that make the nodes around x, the item at position j, bypass it.
    method Bypass(x: ListItem, ghost j: nat, ghost ns: seq<ListItem?>, ghost nx: seq<ListItem?>,
                  ghost pv: seq<ListItem?>)
      requires Valid() && j < |items| && items[j] == x && ns == Nodes() && nx == Nexts() && pv == Previous()
      requires x.next == ns[Succ(|ns|, j + 1)] && x.previous == ns[j]
      modifies x.next`previous, x.previous`next, x`container, this`index
      ensures null !in ns
      ensures forall i :: 0 <= i < |ns| && i != j + 1 ==> ns[i].next == nx[if i == j then j + 1 else i]
      ensures forall i :: 0 <= i < |ns| && i != j + 1 ==>
                ns[i].previous == pv[if i == Succ(|ns|, j + 1) then j + 1 else i]
      ensures x.container == null
      ensures forall i :: 0 <= i < |items| && items[i] != x ==> items[i].container == this
      ensures index == if cursor == j + 1 then ns[j] else ns[cursor]
    {
      hide Circle, Distinct;
      NodesDiffer(listEnd, items, j);
      NodesDiffer(listEnd, items, j + 1);
      NodesDiffer(listEnd, items, Succ(|items| + 1, j + 1));
      x.next.previous := x.previous;
      x.previous.next := x.next;
      if index == x {
        index := x.previous;
      }
      x.container := null;
    }

    /** listGET_OWNER_OF_NEXT_ENTRY: the cursor moves on by one item, past the end marker. */
    method NextEntry() returns (x: ListItem)
      requires Valid() && numberOfItems > 0
      modifies this`index, this`cursor
      ensures Valid() && items == old(items)
      ensures Value() == Advance(old(Value())) && x == AtCursor(Value())
    {
      ghost var ns, nx := Nodes(), Nexts();
      assert Joined(ns, nx, Previous(), cursor) && Joined(ns, nx, Previous(), 0);
      index := index.next;
      cursor := Succ(|items| + 1, cursor);
      if index == listEnd {
        index := listEnd.next;
        cursor := 1;
      }
      x := index;
      assert Nexts() == nx && Previous() == old(Previous());
    }
  }
}

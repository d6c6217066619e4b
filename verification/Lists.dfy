/** Every List_t of the kernel at once: which items are linked where
    (pxNext/pxPrevious order and pxIndex), each item's pxContainer and xItemValue. */
module Lists {
  import opened Config
  import opened Collections
  import opened Rings

  type Task = nat
  type QueueId = nat

  /* Which of a queue's two event lists: tasks waiting to receive or to send. */
  datatype Side = Recv | Send

  datatype Item = StateItem(t: Task) | EventItem(t: Task)

  datatype ListId =
    | Ready(p: nat)          // pxReadyTasksLists[p]
    | Delay(b: bool)         // xDelayedTaskList1 and xDelayedTaskList2
    | Suspended              // xSuspendedTaskList
    | Pending                // xPendingReadyList
    | Wait(q: QueueId, s: Side)

  datatype Store = Store(
    at: map<ListId, Ring<Item>>,   // a list not in the map is empty, its cursor at the end marker
    box: map<Item, ListId>,        // pxContainer; an item not in the map is on no list
    val: map<Item, nat>            // xItemValue
  )

  function ListOf(s: Store, l: ListId): Ring<Item> {
    if l in s.at then s.at[l] else Ring([], 0)
  }

  function Val(s: Store, i: Item): nat {
    if i in s.val then s.val[i] else 0
  }

  /* Where an item is: pxContainer, NULL being Nowhere. */
  datatype Where = Nowhere | On(l: ListId)

  function At(s: Store, i: Item): Where { if i in s.box then On(s.box[i]) else Nowhere }

  function Home(s: Store, t: Task): Where { At(s, StateItem(t)) }
  function EventHome(s: Store, t: Task): Where { At(s, EventItem(t)) }

  ghost predicate In(s: Store, i: Item, l: ListId) {
    At(s, i) == On(l)
  }

  /* Item i is put at w (Nowhere: taken off its list); every other item stays, and so do
     all item values. */
  ghost predicate Puts(s: Store, s': Store, i: Item, w: Where) {
    && (forall t :: Home(s', t) == if i == StateItem(t) then w else Home(s, t))
    && (forall t :: EventHome(s', t) == if i == EventItem(t) then w else EventHome(s, t))
    && s'.val == s.val
  }

  /* Links, containers and counts agree. */
  ghost predicate Valid(s: Store) {
    && (forall l :: l in s.at ==> Distinct(s.at[l].items))
    && (forall l, i :: i in ListOf(s, l).items <==> In(s, i, l))
  }

  predicate IsEmpty(s: Store, l: ListId) { ListOf(s, l).items == [] }

  // The item at the head (listGET_OWNER_OF_HEAD_ENTRY).
  function Head(s: Store, l: ListId): Item
    requires !IsEmpty(s, l)
  {
    ListOf(s, l).items[0]
  }

  function RemoveItem(s: Store, i: Item): Store {
    if i in s.box && i in ListOf(s, s.box[i]).items then
      Store(s.at[s.box[i] := Rings.Remove(ListOf(s, s.box[i]), i)], s.box - {i}, s.val)
    else s
  }

  function AddEnd(s: Store, l: ListId, i: Item): Store {
    Store(s.at[l := InsertEnd(ListOf(s, l), i)], s.box[i := l], s.val)
  }

  // The items' xItemValue fields.
  function ItemValues(s: Store, items: seq<Item>): (values: seq<nat>)
    ensures |values| == |items| && forall k :: 0 <= k < |items| ==> values[k] == Val(s, items[k])
  {
    seq(|items|, k requires 0 <= k < |items| => Val(s, items[k]))
  }

  // Where vListInsert puts item i on list l.
  function SlotOn(s: Store, l: ListId, i: Item): (j: nat)
    ensures j <= |ListOf(s, l).items|
  {
    Slot(ItemValues(s, ListOf(s, l).items), Val(s, i))
  }

  // vListInsert
  function AddSorted(s: Store, l: ListId, i: Item): Store {
    Store(s.at[l := InsertMid(ListOf(s, l), SlotOn(s, l, i), i)], s.box[i := l], s.val)
  }

  // listSET_LIST_ITEM_VALUE
  function SetVal(s: Store, i: Item, v: nat): Store { s.(val := s.val[i := v]) }

  // listGET_OWNER_OF_NEXT_ENTRY moves the cursor of a non-empty list.
  function AdvanceIn(s: Store, l: ListId): Store
    requires !IsEmpty(s, l)
  {
    s.(at := s.at[l := Advance(ListOf(s, l))])
  }

  /* Item i comes before item j on list l. */
  ghost predicate Precedes(s: Store, l: ListId, i: Item, j: Item) {
    exists a, b :: 0 <= a < b < |ListOf(s, l).items| && ListOf(s, l).items[a] == i && ListOf(s, l).items[b] == j
  }

  /* The list is in ascending order of item values. */
  ghost predicate Ordered(s: Store, l: ListId) {
    forall i, j :: Precedes(s, l, i, j) ==> Val(s, i) <= Val(s, j)
  }

  /* The delayed lists and event lists lost items at most: no order on them is new. */
  ghost predicate OrderKept(s: Store, s': Store) {
    forall l: ListId, x, y :: (l.Delay? || l.Wait?) && Precedes(s', l, x, y) ==> Precedes(s, l, x, y)
  }

  lemma RemoveFacts(s: Store, i: Item)
    requires Valid(s) && At(s, i).On?
    ensures Valid(RemoveItem(s, i))
    ensures Puts(s, RemoveItem(s, i), i, Nowhere)
    ensures forall l :: At(s, i) != On(l) ==> ListOf(RemoveItem(s, i), l) == ListOf(s, l)
    ensures |ListOf(RemoveItem(s, i), At(s, i).l).items| == |ListOf(s, At(s, i).l).items| - 1
    ensures OrderKept(s, RemoveItem(s, i))
  {
    assert In(s, i, s.box[i]);
    RemoveMembers(ListOf(s, s.box[i]), i);
    forall l, x, y | Precedes(RemoveItem(s, i), l, x, y) ensures Precedes(s, l, x, y) {
      RemoveOrder(s, i, l, x, y);
    }
    hide Precedes;
    var s' := RemoveItem(s, i);
    forall l', j ensures j in ListOf(s', l').items <==> In(s', j, l') {
      assert j in ListOf(s, l').items <==> In(s, j, l');
    }
  }

  // Removal of an item that may be on no list, as the callers' pxContainer tests arrange.
  lemma RemoveAny(s: Store, i: Item)
    requires Valid(s)
    ensures Valid(RemoveItem(s, i))
    ensures Puts(s, RemoveItem(s, i), i, Nowhere)
    ensures forall l :: At(s, i) != On(l) ==> ListOf(RemoveItem(s, i), l) == ListOf(s, l)
    ensures OrderKept(s, RemoveItem(s, i))
  {
    if i in s.box { RemoveFacts(s, i); }
  }

  lemma AddEndFacts(s: Store, l: ListId, i: Item)
    requires Valid(s) && At(s, i).Nowhere?
    ensures Valid(AddEnd(s, l, i))
    ensures Puts(s, AddEnd(s, l, i), i, On(l))
    ensures forall l' :: l' != l ==> ListOf(AddEnd(s, l, i), l') == ListOf(s, l')
    ensures !l.Delay? && !l.Wait? ==> OrderKept(s, AddEnd(s, l, i))
  {
    assert !In(s, i, l);
    InsertEndMembers(ListOf(s, l), i);
    var s' := AddEnd(s, l, i);
    forall l', j ensures j in ListOf(s', l').items <==> In(s', j, l') {
      assert j in ListOf(s, l').items <==> In(s, j, l');
    }
  }

  lemma AddSortedFacts(s: Store, l: ListId, i: Item)
    requires Valid(s) && At(s, i).Nowhere?
    ensures Valid(AddSorted(s, l, i))
    ensures Puts(s, AddSorted(s, l, i), i, On(l))
    ensures forall l' :: l' != l ==> ListOf(AddSorted(s, l, i), l') == ListOf(s, l')
  {
    assert !In(s, i, l);
    InsertMidMembers(ListOf(s, l), SlotOn(s, l, i), i);
    var s' := AddSorted(s, l, i);
    forall l', j ensures j in ListOf(s', l').items <==> In(s', j, l') {
      assert j in ListOf(s, l').items <==> In(s, j, l');
    }
  }

  lemma AdvanceFacts(s: Store, l: ListId)
    requires Valid(s) && !IsEmpty(s, l)
    ensures Valid(AdvanceIn(s, l))
    ensures forall l' :: ListOf(AdvanceIn(s, l), l').items == ListOf(s, l').items
    ensures forall j :: At(AdvanceIn(s, l), j) == At(s, j)
    ensures AdvanceIn(s, l).val == s.val
    ensures OrderKept(s, AdvanceIn(s, l))
    ensures At(s, AtCursor(Advance(ListOf(s, l)))) == On(l)
  {
    assert AtCursor(Advance(ListOf(s, l))) in ListOf(s, l).items;
    assert forall l' :: ListOf(AdvanceIn(s, l), l').items == ListOf(s, l').items;
  }

  lemma SetValFacts(s: Store, i: Item, v: nat)
    requires Valid(s)
    ensures Valid(SetVal(s, i, v))
    ensures forall l :: ListOf(SetVal(s, i, v), l) == ListOf(s, l)
    ensures forall j :: At(SetVal(s, i, v), j) == At(s, j)
  {
    assert forall l :: ListOf(SetVal(s, i, v), l) == ListOf(s, l);
  }

  lemma HeadFacts(s: Store, l: ListId)
    requires Valid(s)
    ensures IsEmpty(s, l) ==> forall i :: At(s, i) != On(l)
    ensures !IsEmpty(s, l) ==> At(s, Head(s, l)) == On(l)
    ensures !IsEmpty(s, l) ==> forall i :: At(s, i) == On(l) && i != Head(s, l) ==> Precedes(s, l, Head(s, l), i)
  {
    var items := ListOf(s, l).items;
    forall i | At(s, i) == On(l)
      ensures items != [] && (i == items[0] || Precedes(s, l, items[0], i))
    {
      assert i in items by { assert In(s, i, l); }
      var b :| 0 <= b < |items| && items[b] == i;
    }
    if items != [] { assert items[0] in items; }
  }

  lemma RemoveOrder(s: Store, i: Item, l: ListId, x: Item, y: Item)
    requires Precedes(RemoveItem(s, i), l, x, y)
    ensures Precedes(s, l, x, y)
  {
    if i in s.box && i in ListOf(s, s.box[i]).items && s.box[i] == l {
      var items := ListOf(s, l).items;
      var k := IndexOf(items, i);
      var cut := ListOf(RemoveItem(s, i), l).items;
      assert cut == Without(items, k);
      var a, b :| 0 <= a < b < |cut| && cut[a] == x && cut[b] == y;
      var a', b' := if a < k then a else a + 1, if b < k then b else b + 1;
      assert items[a'] == x && items[b'] == y;
    } else {
      assert ListOf(RemoveItem(s, i), l) == ListOf(s, l);
    }
  }

  // Every value on the list is a 32-bit one.
  ghost predicate ValuesFit(s: Store, l: ListId) { forall i :: At(s, i) == On(l) ==> Val(s, i) <= MAX_DELAY }

  // On an ordered list the slot is after every value at most the item's own, before the rest.
  lemma SlotSplits(s: Store, l: ListId, i: Item)
    requires Valid(s) && Ordered(s, l) && ValuesFit(s, l)
    ensures var items := ListOf(s, l).items;
            forall k :: 0 <= k < |items| ==> (k < SlotOn(s, l, i) <==> Val(s, items[k]) <= Val(s, i))
  {
    var items := ListOf(s, l).items;
    forall k | 0 <= k < |items| ensures Val(s, items[k]) <= MAX_DELAY {
      assert items[k] in items;
      assert In(s, items[k], l);
    }
    forall a, b | 0 <= a < b < |items| ensures Val(s, items[a]) <= Val(s, items[b]) {
      assert Precedes(s, l, items[a], items[b]);
    }
    InsertStable(ItemValues(s, items), Val(s, i));
  }

  /** vListInsert into a sorted list: the new item comes after exactly the items whose value
      is at most its own, also when that is the end marker's, and no two old items change order. */
  lemma AddSortedOrder(s: Store, l: ListId, i: Item, x: Item, y: Item)
    requires Valid(s) && Ordered(s, l) && ValuesFit(s, l) && At(s, i).Nowhere?
    requires Precedes(AddSorted(s, l, i), l, x, y)
    ensures y == i ==> At(s, x) == On(l) && Val(s, x) <= Val(s, i)
    ensures y != i && x == i ==> At(s, y) == On(l) && Val(s, y) > Val(s, i)
    ensures x != i && y != i ==> Precedes(s, l, x, y)
  {
    hide SlotOn, Valid, Ordered, ValuesFit, At, Val, AddSorted, ListOf;
    var items, more, j := ListOf(s, l).items, ListOf(AddSorted(s, l, i), l).items, SlotOn(s, l, i);
    SlotSplits(s, l, i);
    Added(s, l, i);
    var a, b :| 0 <= a < b < |more| && more[a] == x && more[b] == y;
    assert more[a] == if a < j then items[a] else if a == j then i else items[a - 1];
    assert more[b] == if b < j then items[b] else if b == j then i else items[b - 1];
  }

  lemma Added(s: Store, l: ListId, i: Item)
    requires Valid(s) && At(s, i).Nowhere?
    ensures var items := ListOf(s, l).items;
            && ListOf(AddSorted(s, l, i), l).items == InsertAt(items, SlotOn(s, l, i), i)
            && forall k :: 0 <= k < |items| ==> At(s, items[k]) == On(l) && items[k] != i
  {
    hide SlotOn;
    var items := ListOf(s, l).items;
    forall k | 0 <= k < |items| ensures At(s, items[k]) == On(l) {
      assert items[k] in items;
      assert In(s, items[k], l);
    }
  }

  lemma OrderSame(s: Store, s': Store, l: ListId, x: Item, y: Item)
    requires ListOf(s', l).items == ListOf(s, l).items && Precedes(s', l, x, y)
    ensures Precedes(s, l, x, y)
  {}
}

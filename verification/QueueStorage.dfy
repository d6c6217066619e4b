/** A queue's storage area: fixed-size items copied byte by byte in and out of a ring of
    places, which together are a bounded double-ended queue. */
module QueueStorage {
  import opened Queues
  import opened Kernel

  type byte = bv8

  // Place k of a storage area of places of s bytes.
  function Place(data: seq<byte>, s: nat, k: nat): (x: seq<byte>)
    requires k * s + s <= |data|
    ensures |x| == s
  {
    data[k * s..k * s + s]
  }

  lemma Within(k: nat, n: nat, s: nat)
    requires k < n
    ensures k * s + s <= n * s
    ensures s > 0 ==> (k * s + s >= n * s <==> k == n - 1)
  {
    var d := n - k - 1;
    assert n * s == k * s + s + d * s;
  }

  lemma PlaceApart(data: seq<byte>, data': seq<byte>, s: nat, n: nat, k: nat, j: nat)
    requires |data| == |data'| == n * s && k < n && j < n && j != k && k * s + s <= n * s && j * s + s <= n * s
    requires forall b :: 0 <= b < n * s && !(k * s <= b < k * s + s) ==> data'[b] == data[b]
    ensures Place(data', s, j) == Place(data, s, j)
  {
    if j < k { Within(j, k, s); } else { Within(k, j, s); }
    forall b | 0 <= b < s ensures Place(data', s, j)[b] == Place(data, s, j)[b] {}
  }

  // The place i + 1 places after place r in a ring of n.
  function Ahead(n: nat, r: nat, i: nat): (k: nat)
    requires r < n && i < n
    ensures k < n
  {
    if r + 1 + i < n then r + 1 + i else r + 1 + i - n
  }

  class Storage {
    const length: nat
    const itemSize: nat
    const data: array<byte>
    var writeTo: int            // pcWriteTo, as an offset from pcHead
    var readFrom: int           // pcReadFrom, likewise
    var messagesWaiting: nat
    ghost var readPlace: nat    // the place that readFrom points at

    ghost predicate Valid()
      reads this
    {
      && length > 0 && data.Length == length * itemSize && readPlace < length
      && (itemSize > 0 ==> messagesWaiting <= length && readFrom == readPlace * itemSize
                           && writeTo == WritePlace() * itemSize)
    }

    // The ring invariant: one place ahead of the messages waiting, which are ahead of the read place.
    ghost function WritePlace(): nat
      requires readPlace < length && messagesWaiting <= length
      reads this
    {
      if messagesWaiting == length then readPlace + 1 - (if readPlace + 1 == length then length else 0)
      else Ahead(length, readPlace, messagesWaiting)
    }

    // The messages waiting, the next to be received first.
    ghost function Items(): (s: seq<seq<byte>>)
      requires Valid()
      reads this, data
      ensures |s| == messagesWaiting
    {
      seq(messagesWaiting, i requires Valid() && 0 <= i < messagesWaiting reads this, data => ItemAt(i))
    }

    ghost function ItemAt(i: nat): seq<byte>
      requires Valid() && (itemSize > 0 ==> i < length)
      reads this, data
    {
      if itemSize == 0 then [] else
      Within(Ahead(length, readPlace, i), length, itemSize);
      Place(data[..], itemSize, Ahead(length, readPlace, i))
    }

    /** xQueueGenericReset of a new queue */
    constructor (n: nat, s: nat)
      requires n > 0
      ensures Valid() && Items() == [] && length == n && itemSize == s && fresh(data)
    {
      length, itemSize := n, s;
      data := new byte[n * s];
      writeTo, readFrom, messagesWaiting, readPlace := 0, (n - 1) * s, 0, n - 1;
    }

    // memcpy of one item to the place at offset `at`, which is place k.
    method Store(at: nat, x: seq<byte>, ghost k: nat)
      requires Valid() && k < length && at == k * itemSize && |x| == itemSize
      modifies data
      ensures forall j :: 0 <= j < length ==> j * itemSize + itemSize <= data.Length
      ensures forall j :: 0 <= j < length ==>
                Place(data[..], itemSize, j) == if j == k then x else old(Place(data[..], itemSize, j))
    {
      forall j | 0 <= j < length ensures j * itemSize + itemSize <= data.Length { Within(j, length, itemSize); }
      forall b | 0 <= b < itemSize {
        data[at + b] := x[b];
      }
      assert Place(data[..], itemSize, k) == x;
      forall j | 0 <= j < length && j != k ensures Place(data[..], itemSize, j) == old(Place(data[..], itemSize, j)) {
        PlaceApart(old(data[..]), data[..], itemSize, length, k, j);
      }
    }

    // The places of the messages waiting, before a new one is counted.
    lemma ItemsAre(items: seq<seq<byte>>)
      requires Valid() && itemSize > 0 && |items| == messagesWaiting
      requires forall j :: 0 <= j < length ==> j * itemSize + itemSize <= data.Length
      requires forall i :: 0 <= i < messagesWaiting ==>
                 items[i] == Place(data[..], itemSize, Ahead(length, readPlace, i))
      ensures Items() == items
    {
      hide Place;
      forall i | 0 <= i < messagesWaiting ensures Items()[i] == items[i] {}
    }

    method CopyBack(x: seq<byte>)
      requires Valid() && |x| == itemSize > 0 && messagesWaiting < length
      modifies this`writeTo, this`messagesWaiting, data
      ensures Valid() && Items() == old(Items()) + [x] && messagesWaiting == old(messagesWaiting) + 1
    {
      hide Place;
      ghost var was, w := Items(), WritePlace();
      Within(w, length, itemSize);
      Store(writeTo, x, w);
      writeTo := writeTo + itemSize;
      if writeTo >= data.Length {
        writeTo := 0;
      }
      assert writeTo == (if w == length - 1 then 0 else w + 1) * itemSize;
      messagesWaiting := messagesWaiting + 1;
      ItemsAre(was + [x]);
    }

    method CopyFront(x: seq<byte>, overwriting: bool)
      requires Valid() && |x| == itemSize > 0 && (if overwriting then length == 1 else messagesWaiting < length)
      modifies this`readFrom, this`readPlace, this`messagesWaiting, data
      ensures Valid() && Items() == (if overwriting then [x] else [x] + old(Items()))
      ensures messagesWaiting == if overwriting then 1 else old(messagesWaiting) + 1
    {
      hide Place;
      ghost var was, r := Items(), readPlace;
      var waiting := messagesWaiting;
      Within(r, length, itemSize);
      Store(readFrom, x, r);
      readFrom := readFrom - itemSize;
      readPlace := if r == 0 then length - 1 else r - 1;
      Within(readPlace, length, itemSize);
      if readFrom < 0 {
        readFrom := data.Length - itemSize;
      }
      assert readFrom == readPlace * itemSize by { Stepped(r, itemSize); }
      if overwriting && waiting > 0 {
        waiting := waiting - 1;
      }
      messagesWaiting := waiting + 1;
      ItemsAre(if overwriting then [x] else [x] + was);
    }

    static lemma Stepped(r: nat, s: nat)
      requires s > 0
      ensures r * s - s < 0 <==> r == 0
      ensures r > 0 ==> r * s - s == (r - 1) * s
    {
      if r > 0 { assert r * s == (r - 1) * s + s; }
    }

    /** prvCopyDataToQueue: sending to the back appends, to the front prepends, and overwriting a
        queue of one place replaces its message; but of messages of no size it only adds one. */
    method CopyIn(x: seq<byte>, pos: Position)
      requires Valid() && |x| == itemSize && (if pos.Overwrite? then length == 1 else messagesWaiting < length)
      modifies this, data
      ensures Valid() && Items() == AfterCopy(old(Items()), x, pos, itemSize)
      ensures messagesWaiting == CountAfterCopy(Queue(length, itemSize, old(messagesWaiting), UNLOCKED, UNLOCKED), pos)
    {
      if itemSize == 0 {
        ghost var was := Items();
        messagesWaiting := messagesWaiting + 1;
        assert Items() == AfterCopy(was, x, pos, itemSize);
      } else if pos == Back {
        CopyBack(x);
      } else {
        ghost var was := Items();
        CopyFront(x, pos.Overwrite?);
        assert pos.Overwrite? && was != [] ==> was[1..] == [];
      }
    }

    /** The copying half of a receive: the message at the head is returned and is gone. */
    method CopyOut() returns (x: seq<byte>)
      requires Valid() && messagesWaiting > 0
      modifies this
      ensures Valid() && [x] + Items() == old(Items())
    {
      hide Place;
      ghost var was := Items();
      if itemSize == 0 {
        x := [];
        messagesWaiting := messagesWaiting - 1;
      } else {
        x := Read();
        messagesWaiting := messagesWaiting - 1;
        assert Valid();
        forall j | 0 <= j < length ensures j * itemSize + itemSize <= data.Length { Within(j, length, itemSize); }
        ItemsAre(was[1..]);
      }
    }

    // prvCopyDataFromQueue: the read position moves on by one place, which is then read.
    method Read() returns (x: seq<byte>)
      requires Valid() && itemSize > 0 && messagesWaiting > 0
      modifies this`readFrom, this`readPlace
      ensures readPlace == Ahead(length, old(readPlace), 0) && readFrom == readPlace * itemSize
      ensures x == old(Items())[0]
    {
      ghost var was := Items();
      Within(readPlace, length, itemSize);
      assert readPlace < length - 1 ==> readPlace * itemSize + itemSize == (readPlace + 1) * itemSize;
      readFrom := readFrom + itemSize;
      readPlace := Ahead(length, readPlace, 0);
      if readFrom >= data.Length {
        readFrom := 0;
      }
      Within(readPlace, length, itemSize);
      x := data[readFrom..readFrom + itemSize];
      assert x == Place(data[..], itemSize, readPlace) == was[0];
    }

    /** xQueuePeek's copying: the head is returned, and nothing has changed. */
    method Peek() returns (x: seq<byte>)
      requires Valid() && messagesWaiting > 0
      modifies this`readFrom, this`readPlace
      ensures Valid() && Items() == old(Items()) && x == Items()[0] && readFrom == old(readFrom)
    {
      if itemSize == 0 {
        x := [];
      } else {
        var originalReadPosition := readFrom;
        ghost var originalReadPlace := readPlace;
        x := Read();
        readFrom, readPlace := originalReadPosition, originalReadPlace;
      }
    }

    /** xQueueGenericReset's part: the queue is empty. */
    method Reset()
      requires Valid()
      modifies this
      ensures Valid() && Items() == []
    {
      messagesWaiting, writeTo := 0, 0;
      readFrom := (length - 1) * itemSize;
      readPlace := length - 1;
    }
  
    /** Sending without waiting: it fails, changing nothing, exactly if the queue is full and is
        not to be overwritten. */
    method TrySend(x: seq<byte>, pos: Position) returns (sent: bool)
      requires Valid() && |x| == itemSize && (pos.Overwrite? ==> length == 1)
      modifies this, data
      ensures Valid() && sent == (old(messagesWaiting) < length || pos.Overwrite?)
      ensures Items() == if sent then AfterCopy(old(Items()), x, pos, itemSize) else old(Items())
    {
      sent := messagesWaiting < length || pos.Overwrite?;
      if sent {
        CopyIn(x, pos);
      }
    }

    /** Receiving without waiting: it fails, changing nothing, exactly if the queue is empty. */
    method TryReceive() returns (received: bool, x: seq<byte>)
      requires Valid()
      modifies this
      ensures Valid() && received == (old(messagesWaiting) > 0)
      ensures if received then [x] + Items() == old(Items()) else Items() == old(Items())
    {
      received, x := messagesWaiting > 0, [];
      if received {
        x := CopyOut();
      }
    }
  }
}

/** What the operations of queue.c compute.  Only the counts matter here: the bytes in
    a queue's storage area are the business of QueueStorage. */
module Queues {
  import opened Lists
  import opened Kernel

  // queueSEND_TO_BACK, queueSEND_TO_FRONT, queueOVERWRITE
  datatype Position = Back | Front | Overwrite

  function QueueOf(c: Core, q: QueueId): Queue {
    if q in c.queues then c.queues[q] else Queue(1, 0, 0, UNLOCKED, UNLOCKED)
  }

  // What a task waiting on this side waits for: items to receive, or free places.
  function Available(d: Queue, s: Side): int {
    if s.Recv? then d.count else d.length - d.count
  }

  // How many wake-ups of this side are deferred: cTxLock or cRxLock.
  function LockOf(d: Queue, s: Side): int { if s.Recv? then d.txLock else d.rxLock }

  function SetLock(d: Queue, s: Side, n: int): Queue {
    if s.Recv? then d.(txLock := n) else d.(rxLock := n)
  }

  function Other(s: Side): Side { if s.Recv? then Send else Recv }

  function HasRoom(d: Queue, pos: Position): bool { d.count < d.length || pos.Overwrite? }

  // The count after prvCopyDataToQueue.
  function CountAfterCopy(d: Queue, pos: Position): nat {
    if d.itemSize != 0 && pos.Overwrite? && d.count > 0 then d.count else d.count + 1
  }

  // What a queue holds after prvCopyDataToQueue, the next message to be received first.
  function AfterCopy<T>(items: seq<T>, x: T, pos: Position, size: nat): seq<T> {
    match pos
    case Back => items + [x]
    case Front => [x] + items
    case Overwrite => if size == 0 || items == [] then items + [x] else [x] + items[1..]
  }

  function SetQueue(c: Core, q: QueueId, d: Queue): Core { c.(queues := c.queues[q := d]) }

  function YieldIf(r: (Core, bool)): Core { if r.1 then SwitchContext(r.0) else r.0 }

  // The successful branch of xQueueGenericSend.
  function SendNow(c: Core, q: QueueId, pos: Position): Core {
    var d := QueueOf(c, q);
    YieldIf(WakeOne(SetQueue(c, q, d.(count := CountAfterCopy(d, pos))), Wait(q, Recv)))
  }

  // The successful branch of xQueueReceive and xQueueSemaphoreTake.
  function ReceiveNow(c: Core, q: QueueId): Core
    requires QueueOf(c, q).count > 0
  {
    var d := QueueOf(c, q);
    YieldIf(WakeOne(SetQueue(c, q, d.(count := d.count - 1)), Wait(q, Send)))
  }

  // The successful branch of xQueuePeek.
  function PeekNow(c: Core, q: QueueId): Core {
    YieldIf(WakeOne(c, Wait(q, Recv)))
  }

  // Wake a waiter now, or count it on the lock if the queue is locked
  // (prvIncrementQueueTxLock and prvIncrementQueueRxLock).
  function WakeOrCount(c: Core, q: QueueId, s: Side): Core {
    var d := QueueOf(c, q);
    if LockOf(d, s) == UNLOCKED then WakeOne(c, Wait(q, s)).0
    else if LockOf(d, s) < c.tasks then SetQueue(c, q, SetLock(d, s, LockOf(d, s) + 1))
    else c
  }

  // xQueueGenericSendFromISR; xQueueGiveFromISR is the case of item size 0 and Back.
  function SendFromISR(c: Core, q: QueueId, pos: Position): Core {
    var d := QueueOf(c, q);
    if HasRoom(d, pos) then WakeOrCount(SetQueue(c, q, d.(count := CountAfterCopy(d, pos))), q, Recv) else c
  }

  // xQueueReceiveFromISR
  function ReceiveFromISR(c: Core, q: QueueId): Core {
    var d := QueueOf(c, q);
    if d.count > 0 then WakeOrCount(SetQueue(c, q, d.(count := d.count - 1)), q, Send) else c
  }

  // prvLockQueue
  function LockQueue(c: Core, q: QueueId): Core {
    var d := QueueOf(c, q);
    SetQueue(c, q, d.(rxLock := if d.rxLock == UNLOCKED then 0 else d.rxLock,
                      txLock := if d.txLock == UNLOCKED then 0 else d.txLock))
  }

  // The loop of one half of prvUnlockQueue: wake up to n waiters.
  function WakeMany(c: Core, l: ListId, n: nat): Core
    decreases n
  {
    if n == 0 || IsEmpty(c.ls, l) then c
    else
      var r := RemoveFromEventList(c, l);
      WakeMany(r.0.(yieldPending := r.0.yieldPending || r.1), l, n - 1)
  }

  // One critical section of prvUnlockQueue: Recv is the Tx lock's, Send the Rx lock's.
  function UnlockSide(c: Core, q: QueueId, s: Side): Core {
    var n := LockOf(QueueOf(c, q), s);
    var c1 := WakeMany(c, Wait(q, s), if n > 0 then n else 0);
    SetQueue(c1, q, SetLock(QueueOf(c1, q), s, UNLOCKED))
  }

  // xQueueGenericReset of a queue in use
  function Reset(c: Core, q: QueueId): Core {
    var d := QueueOf(c, q);
    YieldIf(WakeOne(SetQueue(c, q, d.(count := 0, rxLock := UNLOCKED, txLock := UNLOCKED)), Wait(q, Send)))
  }

  // prvInitialiseNewQueue
  function CreateQueue(c: Core, q: QueueId, length: nat, itemSize: nat): Core {
    SetQueue(c, q, Queue(length, itemSize, 0, UNLOCKED, UNLOCKED))
  }
}

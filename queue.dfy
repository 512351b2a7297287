/**
 * The bounded circular FIFO of backend/queue.js.
 *
 * The JavaScript backing store is a plain array that grows when `head` writes one past its end and
 * is replaced by `[]` on a clear; it is modelled as the sequence field `queue`.  The ghost field
 * `items` is the public view: the values written and not yet read, oldest first.
 */
module Queues {
  import opened Wrappers

  /** Capacity used when the constructor is called without an argument. */
  const DefaultSize: nat := 50

  class Queue<T> {
    var queue: seq<T>
    var head: nat
    var tail: nat
    const size: nat
    var isEmpty: bool
    var isFull: bool

    /** The values stored and not yet read, in write order. */
    ghost var items: seq<T>

    /** Number of live slots, as determined by the indices and the two flags. */
    ghost function Count(): int
      reads this
    {
      if isFull then size
      else if head >= tail then head - tail
      else head + size - tail
    }

    /** Array index of the `i`-th oldest live value: `(tail + i) % size`. */
    ghost function Slot(i: nat): nat
      reads this
    {
      if tail + i < size then tail + i else tail + i - size
    }

    /** `(i + 1) % size` for an index in range, written without the remainder operator. */
    function Next(i: nat): (j: nat)
      requires i < size
      ensures j == (i + 1) % size
    {
      if i + 1 == size then 0 else i + 1
    }

    ghost predicate Valid()
      reads this
    {
      && 0 < size
      && head < size && tail < size
      && |queue| <= size
      // until `head` wraps for the first time the array is exactly as long as `head`
      && (|queue| < size ==> head == |queue| && tail <= head)
      && (isFull ==> |queue| == size)
      && !(isEmpty && isFull)
      && ((isEmpty || isFull) <==> head == tail)
      && |items| == Count()
      && (forall i :: 0 <= i < |items| ==> Slot(i) < |queue| && items[i] == queue[Slot(i)])
    }

    /** The flags describe the contents: empty means no items, full means `size` items. */
    lemma FlagsMeanCount()
      requires Valid()
      ensures isEmpty <==> items == []
      ensures isFull <==> |items| == size
      ensures |items| <= size
    {
    }

    constructor(size: nat)
      requires 0 < size
      ensures Valid()
      ensures this.size == size && queue == [] && head == 0 && tail == 0
      ensures isEmpty && !isFull && items == []
    {
      this.queue := [];
      this.head := 0;
      this.tail := 0;
      this.size := size;
      this.isEmpty := true;
      this.isFull := false;
      this.items := [];
    }

    /** Queue_Write: rejected on a full queue, otherwise stores `data` at `head` and advances it. */
    method Write(data: T) returns (ok: bool)
      requires Valid()
      modifies this
      ensures Valid()
      ensures ok <==> !old(isFull)
      ensures !ok ==> queue == old(queue) && head == old(head) && tail == old(tail)
                      && isEmpty == old(isEmpty) && isFull == old(isFull) && items == old(items)
      ensures ok ==> old(head) < |queue| && queue[old(head)] == data
                     && (forall k :: 0 <= k < |queue| && k != old(head) ==> k < |old(queue)| && queue[k] == old(queue)[k])
      ensures ok ==> head == (old(head) + 1) % size && tail == old(tail) && !isEmpty
                     && (isFull <==> head == tail)
      ensures ok ==> items == old(items) + [data]
      // a queue filled from empty without reads keeps its values in write order from index 0
      ensures old(queue == items) ==> queue == items
    {
      if isFull {
        return false;
      }
      assert Slot(|items|) == head;
      if head < |queue| {
        queue := queue[head := data];
      } else {
        queue := queue + [data];
      }
      head := Next(head);
      isEmpty := false;
      if head == tail {
        isFull := true;
      }
      items := items + [data];
      return true;
    }

    /** Queue_Read: `None` (the source's `null`) on an empty queue, otherwise the value at `tail`. */
    method Read() returns (r: Option<T>)
      requires Valid()
      modifies this
      ensures Valid()
      ensures r.None? <==> old(isEmpty)
      ensures r.None? ==> queue == old(queue) && head == old(head) && tail == old(tail)
                          && isEmpty == old(isEmpty) && isFull == old(isFull) && items == old(items)
      ensures r.Some? ==> r.value == old(items)[0] && r.value == old(queue)[old(tail)]
                          && items == old(items)[1..]
      ensures r.Some? ==> queue == old(queue) && head == old(head) && tail == (old(tail) + 1) % size
                          && !isFull && (isEmpty <==> head == tail)
    {
      if isEmpty {
        return None;
      }
      var data := queue[tail];
      tail := Next(tail);
      isFull := false;
      if head == tail {
        isEmpty := true;
      }
      items := items[1..];
      return Some(data);
    }

    /** Queue_Clear: back to the state the constructor creates, whatever the prior state. */
    method Clear()
      requires Valid()
      modifies this
      ensures Valid()
      ensures queue == [] && head == 0 && tail == 0 && isEmpty && !isFull && items == []
    {
      queue := [];
      head := 0;
      tail := 0;
      isEmpty := true;
      isFull := false;
      items := [];
    }
  }
}

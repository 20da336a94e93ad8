/** `ssooii/custom_semaphore/semaphore/queue.h`: a FIFO of process ids in a ring buffer.

    `Ring` is the record as a value; the transition system of `CustomSemaphore` takes the two halves
    of a push and of a pop apart.  `Queue` is the record as the program updates it in place. */
module PidQueue {

  /** The fields of `queue_t`; the capacity is `|items|`. */
  datatype Ring = Ring(items: seq<nat>, first: nat, size: nat)

  predicate Valid(r: Ring) {
    |r.items| > 0 && r.first < |r.items| && r.size <= |r.items|
  }

  /** The slot `i` places after the first one. */
  function Slot(first: nat, i: nat, capacity: nat): (k: nat)
    requires first < capacity && i <= capacity
    ensures k < capacity && k == (first + i) % capacity
  {
    SlotMod(first, i, capacity);
    if first + i < capacity then first + i else first + i - capacity
  }

  lemma SlotMod(first: nat, i: nat, capacity: nat)
    requires first < capacity && i <= capacity
    ensures (first + i) % capacity == if first + i < capacity then first + i else first + i - capacity
  {
    if first + i < capacity {
      Mod(first + i, 0, capacity);
    } else {
      Mod(first + i - capacity, 1, capacity);
    }
  }

  lemma Mod(rest: nat, times: nat, capacity: nat)
    requires rest < capacity && times <= 1
    ensures (times * capacity + rest) % capacity == rest
  {
  }

  /** The ids in the queue, oldest first. */
  function Contents(r: Ring): (c: seq<nat>)
    requires Valid(r)
    ensures |c| == r.size
  {
    seq(r.size, i requires 0 <= i < r.size => r.items[Slot(r.first, i, |r.items|)])
  }

  /** First half of `queue_push`: the id goes into the slot after the last one. */
  function Store(r: Ring, value: nat): Ring
    requires Valid(r)
  {
    r.(items := r.items[Slot(r.first, r.size, |r.items|) := value])
  }

  /** Second half. */
  function Lengthen(r: Ring): Ring {
    r.(size := r.size + 1)
  }

  /** First half of `queue_pop`. */
  function Advance(r: Ring): Ring
    requires Valid(r)
  {
    r.(first := Slot(r.first, 1, |r.items|))
  }

  /** Second half. */
  function Shorten(r: Ring): Ring
    requires r.size > 0
  {
    r.(size := r.size - 1)
  }

  lemma SlotInjective(first: nat, i: nat, j: nat, capacity: nat)
    requires first < capacity && i < capacity && j < capacity
    ensures Slot(first, i, capacity) == Slot(first, j, capacity) ==> i == j
  {
  }

  /** Storing does not disturb the queue: the slot is free. */
  lemma StoreKeeps(r: Ring, value: nat)
    requires Valid(r) && r.size < |r.items|
    ensures Valid(Store(r, value)) && Contents(Store(r, value)) == Contents(r)
  {
    var r' := Store(r, value);
    forall i | 0 <= i < r.size
      ensures Contents(r')[i] == Contents(r)[i]
    {
      SlotInjective(r.first, i, r.size, |r.items|);
    }
  }

  lemma LengthenAppends(r: Ring)
    requires Valid(r) && r.size < |r.items|
    ensures Valid(Lengthen(r))
    ensures Contents(Lengthen(r)) == Contents(r) + [r.items[Slot(r.first, r.size, |r.items|)]]
  {
  }

  /** After the first half of a pop the queue has lost its head and shows one stale id at its end. */
  lemma AdvanceDrops(r: Ring)
    requires Valid(r) && r.size > 0
    ensures Valid(Advance(r)) && Contents(Advance(r))[..r.size - 1] == Contents(r)[1..]
  {
    var r' := Advance(r);
    forall i | 0 <= i < r.size - 1
      ensures Contents(r')[i] == Contents(r)[i + 1]
    {
    }
  }

  lemma ShortenDrops(r: Ring)
    requires Valid(r) && r.size > 0
    ensures Valid(Shorten(r)) && Contents(Shorten(r)) == Contents(r)[..r.size - 1]
  {
  }

  /** The whole operations: a first-in first-out queue. */
  lemma Fifo(r: Ring, value: nat)
    requires Valid(r)
    ensures r.size < |r.items| ==>
              Valid(Lengthen(Store(r, value))) && Contents(Lengthen(Store(r, value))) == Contents(r) + [value]
    ensures r.size > 0 ==>
              && Valid(Shorten(Advance(r))) && Contents(r) == [r.items[r.first]] + Contents(Shorten(Advance(r)))
  {
    if r.size < |r.items| {
      StoreKeeps(r, value);
      LengthenAppends(Store(r, value));
    }
    if r.size > 0 {
      AdvanceDrops(r);
      ShortenDrops(Advance(r));
      assert Contents(r) == [Contents(r)[0]] + Contents(r)[1..];
    }
  }

  class Queue {
    const items: array<nat>
    var first: nat
    var size: nat

    /** The record as a value. */
    function Record(): Ring
      reads this, items
    {
      Ring(items[..], first, size)
    }

    constructor (capacity: nat)
      requires capacity > 0
      ensures Valid(Record()) && Contents(Record()) == [] && items.Length == capacity && fresh(items)
    {
      items := new nat[capacity];
      first, size := 0, 0;
    }

    /** `queue_push`; `ok` tells whether the assertion on the capacity holds. */
    method Push(value: nat) returns (ok: bool)
      requires Valid(Record())
      modifies this, items
      ensures Valid(Record())
      ensures ok <==> old(size) < items.Length
      ensures Contents(Record()) == if ok then old(Contents(Record())) + [value] else old(Contents(Record()))
    {
      ok := size != items.Length;
      if ok {
        Fifo(Record(), value);
        ghost var was := Record();
        items[(first + size) % items.Length] := value;
        size := size + 1;
        assert Record() == Lengthen(Store(was, value));
      }
    }

    method Pop()
      requires Valid(Record()) && size > 0
      modifies this`first, this`size
      ensures Valid(Record()) && Contents(Record()) == old(Contents(Record()))[1..]
    {
      Fifo(Record(), 0);
      first := (first + 1) % items.Length;
      size := size - 1;
    }

    method Front() returns (value: nat)
      requires Valid(Record()) && size > 0
      ensures value == Contents(Record())[0]
    {
      value := items[first];
    }
  }
}

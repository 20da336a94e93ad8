/** `eda-2/src/c/graph/lib/queue.c`: a first-in first-out queue in contiguous memory, which moves to the
    left or grows when it runs into the end of its memory. */
module ContiguousQueue {

  const QUEUE_INITIAL_SIZE := 10
  const QUEUE_MAX_ITEMS_UNUSED := 10

  class Queue {
    var data: array<nat>   // its length is the capacity
    var firstIndex: nat
    var size: nat

    ghost predicate Valid()
      reads this
    {
      firstIndex + size <= data.Length
    }

    function Contents(): (c: seq<nat>)
      requires Valid()
      reads this, data
      ensures |c| == size
    {
      data[firstIndex..firstIndex + size]
    }

    constructor ()
      ensures Valid() && Contents() == [] && fresh(data)
    {
      data := new nat[0];
      firstIndex, size := 0, 0;
    }

    /** Makes room for one more item behind the last. */
    method Grow()
      requires Valid() && firstIndex + size == data.Length
      modifies this, data
      ensures Valid() && firstIndex + size < data.Length
      ensures data == old(data) || fresh(data)
      ensures size == old(size) && Contents() == old(Contents())
      ensures data.Length == if old(firstIndex) > QUEUE_MAX_ITEMS_UNUSED then old(data.Length)
                             else if old(data.Length) == 0 then QUEUE_INITIAL_SIZE
                             else 2 * old(data.Length)
    {
      if firstIndex > QUEUE_MAX_ITEMS_UNUSED {
        MoveLeft();
      } else {
        Enlarge(if data.Length * 2 == 0 then QUEUE_INITIAL_SIZE else data.Length * 2);
      }
    }

    /** Moves everything to the front, in order, since the two places can overlap. */
    method MoveLeft()
      requires Valid()
      modifies this`firstIndex, data
      ensures Valid() && firstIndex == 0 && Contents() == old(Contents())
    {
      var i := 0;
      while i < size
        invariant i <= size
        invariant forall j :: 0 <= j < i ==> data[j] == old(data[firstIndex + j])
        invariant forall j :: i <= j < data.Length ==> data[j] == old(data[j])
        modifies data
      {
        data[i] := data[firstIndex + i];
        i := i + 1;
      }
      firstIndex := 0;
    }

    method Enlarge(target: nat)
      requires Valid() && target >= data.Length
      modifies this`data
      ensures Valid() && fresh(data) && data.Length == target && Contents() == old(Contents())
    {
      var bigger := new nat[target];
      var i := 0;
      while i < data.Length
        invariant i <= data.Length
        invariant forall j :: 0 <= j < i ==> bigger[j] == data[j]
        modifies bigger
      {
        bigger[i] := data[i];
        i := i + 1;
      }
      data := bigger;
    }

    method Push(value: nat)
      requires Valid()
      modifies this, data
      ensures Valid() && (data == old(data) || fresh(data))
      ensures Contents() == old(Contents()) + [value]
    {
      if firstIndex + size == data.Length {
        Grow();
      }
      data[firstIndex + size] := value;
      size := size + 1;
    }

    method Pop()
      requires Valid() && size > 0
      modifies this`firstIndex, this`size
      ensures Valid() && Contents() == old(Contents())[1..]
    {
      firstIndex := firstIndex + 1;
      size := size - 1;
    }

    method Front() returns (value: nat)
      requires Valid() && size > 0
      ensures value == Contents()[0]
    {
      value := data[firstIndex];
    }
  }
}

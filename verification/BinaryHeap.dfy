/** `eda-2/src/c/binary-heap/lib/binary-heap.c`: heapify, pop, heap sort and the validity check.

    `b_heap_insert` and `b_heap_heapify_to` go by a macro for the parent's index that does not invert the
    one for the left child, so that they do not keep the order of the heap; they are not modelled. */
module BinaryHeap {

  datatype Tuple = Tuple(value: int, priority: nat)

  // ----- Heaps as sequences -----

  function Left(i: nat): nat {
    (i + 1) * 2 - 1
  }

  /** Not above its children. */
  predicate OrderedAt(s: seq<Tuple>, i: nat)
    requires i < |s|
  {
    && (Left(i) < |s| ==> s[i].priority <= s[Left(i)].priority)
    && (Left(i) + 1 < |s| ==> s[i].priority <= s[Left(i) + 1].priority)
  }

  ghost predicate HeapFrom(s: seq<Tuple>, from: nat) {
    forall i {:trigger OrderedAt(s, i)} :: from <= i < |s| ==> OrderedAt(s, i)
  }

  ghost predicate IsHeap(s: seq<Tuple>) {
    HeapFrom(s, 0)
  }

  lemma {:induction false} RootIsLeast(s: seq<Tuple>, i: nat)
    requires IsHeap(s) && i < |s|
    ensures s[0].priority <= s[i].priority
  {
    if i > 0 {
      var parent := (i - 1) / 2;
      RootIsLeast(s, parent);
      assert OrderedAt(s, parent);
    }
  }

  // ----- Bubbling down -----

  /** The child with less priority. */
  function Lesser(s: seq<Tuple>, i: nat): (c: nat)
    requires Left(i) < |s|
    ensures Left(i) <= c <= Left(i) + 1 && c < |s|
  {
    if Left(i) + 1 < |s| && s[Left(i)].priority > s[Left(i) + 1].priority then Left(i) + 1 else Left(i)
  }

  function Swap(s: seq<Tuple>, i: nat, j: nat): (r: seq<Tuple>)
    requires i < |s| && j < |s|
    ensures |r| == |s|
  {
    s[i := s[j]][j := s[i]]
  }

  lemma SwapPermutes(s: seq<Tuple>, i: nat, j: nat)
    requires i < |s| && j < |s|
    ensures multiset(Swap(s, i, j)) == multiset(s)
  {
  }

  function Sift(s: seq<Tuple>, i: nat): (r: seq<Tuple>)
    requires i < |s|
    ensures |r| == |s|
    decreases |s| - i
  {
    if Left(i) >= |s| then s
    else
      var c := Lesser(s, i);
      if s[c].priority > s[i].priority then s else Sift(Swap(s, i, c), c)
  }

  lemma {:induction false} SiftPermutes(s: seq<Tuple>, i: nat)
    requires i < |s|
    ensures multiset(Sift(s, i)) == multiset(s)
    decreases |s| - i
  {
    if Left(i) < |s| {
      var c := Lesser(s, i);
      SwapPermutes(s, i, c);
      SiftPermutes(Swap(s, i, c), c);
    }
  }

  /** A heap from `from` on but for the tuple at `i`, whose parent is in order with its children. */
  ghost predicate HoleAt(s: seq<Tuple>, from: nat, i: nat)
    requires i < |s|
  {
    && (forall j {:trigger OrderedAt(s, j)} :: from <= j < |s| && j != i ==> OrderedAt(s, j))
    && (i > 0 && (i - 1) / 2 >= from ==>
          && (Left(i) < |s| ==> s[(i - 1) / 2].priority <= s[Left(i)].priority)
          && (Left(i) + 1 < |s| ==> s[(i - 1) / 2].priority <= s[Left(i) + 1].priority))
  }

  lemma SwapHole(s: seq<Tuple>, from: nat, i: nat)
    requires i < |s| && from <= i && HoleAt(s, from, i) && Left(i) < |s| && s[Lesser(s, i)].priority <= s[i].priority
    ensures HoleAt(Swap(s, i, Lesser(s, i)), from, Lesser(s, i))
  {
    var c := Lesser(s, i);
    var s' := Swap(s, i, c);
    assert (c - 1) / 2 == i;
    assert OrderedAt(s, c);
    forall j {:trigger OrderedAt(s', j)} | from <= j < |s| && j != c
      ensures OrderedAt(s', j)
    {
      if j != i {
        assert OrderedAt(s, j);
      }
    }
  }

  lemma {:induction false} SiftOrders(s: seq<Tuple>, from: nat, i: nat)
    requires i < |s| && from <= i && HoleAt(s, from, i)
    ensures HeapFrom(Sift(s, i), from)
    decreases |s| - i
  {
    if Left(i) < |s| && s[Lesser(s, i)].priority <= s[i].priority {
      SwapHole(s, from, i);
      SiftOrders(Swap(s, i, Lesser(s, i)), from, Lesser(s, i));
    }
  }

  // ----- Heapify -----

  /** After sifting at `k` - 1, ..., 0. */
  function Sifted(s: seq<Tuple>, k: nat): (r: seq<Tuple>)
    requires k <= |s|
    ensures |r| == |s|
    decreases k
  {
    if k == 0 then s else Sifted(Sift(s, k - 1), k - 1)
  }

  function Heapified(s: seq<Tuple>): seq<Tuple> {
    Sifted(s, |s| / 2)
  }

  lemma {:induction false} SiftedOrders(s: seq<Tuple>, k: nat)
    requires k <= |s| && HeapFrom(s, k)
    ensures IsHeap(Sifted(s, k)) && multiset(Sifted(s, k)) == multiset(s)
    decreases k
  {
    hide Sift, OrderedAt;
    if k > 0 {
      SiftOrders(s, k - 1, k - 1);
      SiftPermutes(s, k - 1);
      SiftedOrders(Sift(s, k - 1), k - 1);
    }
  }

  /** Heapify makes a heap of any array, with the same tuples. */
  lemma HeapifyWorks(s: seq<Tuple>)
    ensures IsHeap(Heapified(s)) && multiset(Heapified(s)) == multiset(s)
  {
    SiftedOrders(s, |s| / 2);
  }

  // ----- Pop -----

  function Popped(s: seq<Tuple>): (r: seq<Tuple>)
    requires s != []
    ensures |r| == |s| - 1
  {
    if |s| == 1 then [] else Sift(s[..|s| - 1][0 := s[|s| - 1]], 0)
  }

  /** Pop keeps the heap and takes away its first tuple, which is one of least priority. */
  lemma PopWorks(s: seq<Tuple>)
    requires IsHeap(s) && s != []
    ensures IsHeap(Popped(s)) && multiset(Popped(s)) + multiset{s[0]} == multiset(s)
    ensures forall t :: t in s ==> s[0].priority <= t.priority
  {
    hide Sift, HoleAt, OrderedAt;
    forall i: nat | i < |s|
      ensures s[0].priority <= s[i].priority
    {
      RootIsLeast(s, i);
    }
    if |s| > 1 {
      var moved := s[..|s| - 1][0 := s[|s| - 1]];
      MovedHole(s);
      SiftOrders(moved, 0, 0);
      SiftPermutes(moved, 0);
      MovedLast(s);
    } else {
      assert s == [s[0]];
    }
  }

  lemma MovedHole(s: seq<Tuple>)
    requires IsHeap(s) && |s| > 1
    ensures HoleAt(s[..|s| - 1][0 := s[|s| - 1]], 0, 0)
  {
    var moved := s[..|s| - 1][0 := s[|s| - 1]];
    forall j {:trigger OrderedAt(moved, j)} | 0 < j < |moved|
      ensures OrderedAt(moved, j)
    {
      assert OrderedAt(s, j);
    }
  }

  lemma MovedLast(s: seq<Tuple>)
    requires |s| > 1
    ensures multiset(s[..|s| - 1][0 := s[|s| - 1]]) + multiset{s[0]} == multiset(s)
  {
    assert s == s[..|s| - 1] + [s[|s| - 1]];
  }

  // ----- Heap sort -----

  /** The tuples in the order in which they leave the heap. */
  function Drained(s: seq<Tuple>): (r: seq<Tuple>)
    ensures |r| == |s|
    decreases |s|
  {
    if s == [] then [] else [s[0]] + Drained(Popped(s))
  }

  predicate Ascending(s: seq<Tuple>) {
    forall i, j :: 0 <= i < j < |s| ==> s[i].priority <= s[j].priority
  }

  lemma {:induction false} DrainedSorts(s: seq<Tuple>)
    requires IsHeap(s)
    ensures Ascending(Drained(s)) && multiset(Drained(s)) == multiset(s)
    decreases |s|
  {
    if s != [] {
      hide IsHeap, Popped, Ascending;
      PopWorks(s);
      DrainedSorts(Popped(s));
      LeastFirst(s, Drained(Popped(s)));
    } else {
      assert Drained(s) == [];
    }
  }

  lemma LeastFirst(s: seq<Tuple>, rest: seq<Tuple>)
    requires s != [] && Ascending(rest) && multiset(rest) + multiset{s[0]} == multiset(s)
    requires forall t :: t in s ==> s[0].priority <= t.priority
    ensures Ascending([s[0]] + rest) && multiset([s[0]] + rest) == multiset(s)
  {
    forall j | 0 <= j < |rest|
      ensures s[0].priority <= rest[j].priority
    {
      assert rest[j] in multiset(s);
    }
  }

  /** Heapify and then sort: any tuples come out in ascending order. */
  lemma HeapSortSorts(s: seq<Tuple>)
    ensures Ascending(Drained(Heapified(s))) && multiset(Drained(Heapified(s))) == multiset(s)
  {
    HeapifyWorks(s);
    DrainedSorts(Heapified(s));
  }

  // ----- The program -----

  class Heap {
    const elements: array<Tuple>
    var size: nat

    predicate Valid()
      reads this
    {
      size <= elements.Length
    }

    function Contents(): (s: seq<Tuple>)
      requires Valid()
      reads this, elements
      ensures |s| == size
    {
      elements[..size]
    }

    constructor (tuples: seq<Tuple>)
      ensures Valid() && Contents() == tuples && fresh(elements)
    {
      elements := new Tuple[|tuples|](i requires 0 <= i < |tuples| => tuples[i]);
      size := |tuples|;
    }

    method HeapifyFrom(start: nat)
      requires Valid() && start < size
      modifies elements
      ensures Contents() == Sift(old(Contents()), start)
    {
      hide Sift, Swap;
      var i := start;
      while i < size
        invariant i < size && Sift(Contents(), i) == Sift(old(Contents()), start)
        decreases size - i
      {
        SiftStep(Contents(), i);
        var child := Left(i);
        if child >= size {
          break;
        }
        if child + 1 < size {
          if elements[child].priority > elements[child + 1].priority {
            child := child + 1;
          }
        }
        ghost var was := Contents();
        assert child == Lesser(was, i);
        if elements[child].priority > elements[i].priority {
          break;
        }
        SwapIs(was, i, child);
        elements[i], elements[child] := elements[child], elements[i];
        assert Contents() == was[i := was[child]][child := was[i]];
        i := child;
      }
    }

    method Heapify()
      requires Valid()
      modifies elements
      ensures Contents() == Heapified(old(Contents()))
      ensures IsHeap(Contents()) && multiset(Contents()) == multiset(old(Contents()))
    {
      hide Sift, IsHeap;
      HeapifyWorks(Contents());
      var k: nat := size / 2;
      while k > 0
        invariant k <= size && Sifted(Contents(), k) == Heapified(old(Contents()))
      {
        k := k - 1;
        HeapifyFrom(k);
      }
    }

    method Pop()
      requires Valid() && size > 0
      modifies this`size, elements
      ensures Valid() && Contents() == Popped(old(Contents()))
    {
      hide Sift;
      ghost var was := Contents();
      size := size - 1;
      if size == 0 {
        return;
      }
      elements[0] := elements[size];
      assert Contents() == was[..|was| - 1][0 := was[|was| - 1]];
      HeapifyFrom(0);
    }

    /** Empties the heap; on a heap, the result is in ascending order of priority. */
    method Sort() returns (ret: array<int>)
      requires Valid()
      modifies this`size, elements
      ensures size == 0 && fresh(ret) && ret.Length == old(size)
      ensures forall k :: 0 <= k < ret.Length ==> ret[k] == Drained(old(Contents()))[k].value
    {
      hide Popped;
      ret := new int[size];
      var i := 0;
      ghost var all := Drained(Contents());
      while size != 0
        invariant Valid() && i + size == ret.Length == |all|
        invariant all[i..] == Drained(Contents())
        invariant forall k :: 0 <= k < i ==> ret[k] == all[k].value
        decreases size
      {
        ret[i] := elements[0].value;
        assert all[i..][0] == elements[0] && all[i..][1..] == all[i + 1..];
        i := i + 1;
        Pop();
      }
    }

    method HasValidDescendants(i: nat) returns (valid: bool)
      requires Valid() && i < size
      ensures valid <==> OrderedAt(Contents(), i)
    {
      var left := Left(i);
      if left < size {
        if elements[i].priority > elements[left].priority {
          return false;
        }
      }
      if left + 1 < size {
        if elements[i].priority > elements[left + 1].priority {
          return false;
        }
      }
      return true;
    }

    method IsValid() returns (valid: bool)
      requires Valid()
      ensures valid <==> IsHeap(Contents())
    {
      var i := 0;
      while i < size
        invariant i <= size && forall j {:trigger OrderedAt(Contents(), j)} :: 0 <= j < i ==> OrderedAt(Contents(), j)
      {
        var fine := HasValidDescendants(i);
        if !fine {
          return false;
        }
        i := i + 1;
      }
      return true;
    }
  }

  lemma SiftStep(s: seq<Tuple>, i: nat)
    requires i < |s|
    ensures Left(i) >= |s| ==> Sift(s, i) == s
    ensures Left(i) < |s| && s[Lesser(s, i)].priority > s[i].priority ==> Sift(s, i) == s
    ensures Left(i) < |s| && s[Lesser(s, i)].priority <= s[i].priority ==>
              Sift(s, i) == Sift(Swap(s, i, Lesser(s, i)), Lesser(s, i))
  {
  }

  lemma SwapIs(s: seq<Tuple>, i: nat, j: nat)
    requires i < |s| && j < |s|
    ensures Swap(s, i, j) == s[i := s[j]][j := s[i]]
  {
  }
}

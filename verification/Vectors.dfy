/** `AlgorithmTester/tests/radix/Vector.c`, as far as the radix sort uses it: a vector of machine words in
    memory that doubles when it is full. */
module Vectors {

  const VECTOR_DEFAULT_SIZE := 10

  class Vector {
    var values: array<nat>   // its length is the field `size`
    var length: nat

    ghost predicate Valid()
      reads this
    {
      length <= values.Length
    }

    function Contents(): (s: seq<nat>)
      requires Valid()
      reads this, values
      ensures |s| == length
    {
      values[..length]
    }

    constructor ()
      ensures Valid() && Contents() == [] && values.Length > 0 && fresh(values)
    {
      values := new nat[VECTOR_DEFAULT_SIZE];
      length := 0;
    }

    constructor From(items: seq<nat>)
      ensures Valid() && Contents() == items && fresh(values)
    {
      values := new nat[|items|](i requires 0 <= i < |items| => items[i]);
      length := |items|;
    }

    method Extend()
      requires Valid() && values.Length > 0
      modifies this`values
      ensures Valid() && fresh(values) && values.Length == 2 * old(values.Length)
      ensures Contents() == old(Contents())
    {
      var bigger := new nat[values.Length * 2];
      var i := 0;
      while i < values.Length
        invariant i <= values.Length
        invariant forall j :: 0 <= j < i ==> bigger[j] == values[j]
        modifies bigger
      {
        bigger[i] := values[i];
        i := i + 1;
      }
      values := bigger;
    }

    /** A vector without any capacity never gets one. */
    method Push(value: nat)
      requires Valid() && values.Length > 0
      modifies this, values
      ensures Valid() && values.Length > 0 && (values == old(values) || fresh(values))
      ensures Contents() == old(Contents()) + [value]
    {
      var index := length;
      while index >= values.Length
        invariant Valid() && values.Length > 0 && (values == old(values) || fresh(values))
        invariant length == index && Contents() == old(Contents())
        decreases index + 1 - values.Length
      {
        Extend();
      }
      length := index + 1;
      values[index] := value;
    }

    /** Zero beyond the end. */
    method Get(index: nat) returns (value: nat)
      requires Valid()
      ensures value == if index < length then Contents()[index] else 0
    {
      if index >= length {
        return 0;
      }
      return values[index];
    }

    /** Overwrites what follows `fromIndex` with another vector from `fromSrcIndex` on.  The growth is
        reckoned from the size of the copy alone, in bytes: a caller whose `fromIndex` reaches beyond
        has to see to the room itself. */
    method CopyFrom(src: Vector, fromIndex: nat, fromSrcIndex: nat, itemSize: nat)
      requires Valid() && src.Valid() && src.values != values && src != this
      requires fromSrcIndex <= src.length ==>
                 var copied := src.length - fromSrcIndex;
                 (copied > 0 ==> values.Length > 0) && fromIndex + copied <= Grown(values.Length, Bytes(copied, itemSize))
      modifies this, values
      ensures Valid() && (values == old(values) || fresh(values))
      ensures fromSrcIndex > 0 && src.length <= fromSrcIndex ==> Contents() == old(Contents())
      ensures fromSrcIndex == 0 || src.length > fromSrcIndex ==>
                var copied := src.length - fromSrcIndex;
                && length == (if old(length) < fromIndex + copied then fromIndex + copied else old(length))
                && Contents()[fromIndex..fromIndex + copied] == src.Contents()[fromSrcIndex..]
                && forall j :: 0 <= j < old(length) && !(fromIndex <= j < fromIndex + copied) ==>
                     Contents()[j] == old(Contents())[j]
    {
      hide Grown, Bytes;
      if fromSrcIndex > 0 && src.length <= fromSrcIndex {
        return;
      }
      var copied := src.length - fromSrcIndex;
      NoBytes(copied, itemSize);
      Reserve(Bytes(copied, itemSize));
      Overwrite(src, fromIndex, fromSrcIndex, copied);
    }

    /** The items, one by one, into memory that is there. */
    method Lay(src: Vector, fromIndex: nat, fromSrcIndex: nat, copied: nat)
      requires Valid() && src.Valid() && src.values != values
      requires fromSrcIndex + copied <= src.values.Length && fromIndex + copied <= values.Length
      modifies values
      ensures values[..] == Over(old(values[..]), fromIndex, src.values[fromSrcIndex..fromSrcIndex + copied])
    {
      hide Over;
      ghost var was, given := values[..], src.values[..];
      OverNone(was, fromIndex, given[fromSrcIndex..fromSrcIndex]);
      var i := 0;
      while i < copied
        invariant i <= copied
        invariant values[..] == Over(was, fromIndex, given[fromSrcIndex..fromSrcIndex + i])
      {
        ghost var part, v := given[fromSrcIndex..fromSrcIndex + i], given[fromSrcIndex + i];
        OverMore(was, fromIndex, part, v);
        assert given[fromSrcIndex..fromSrcIndex + i + 1] == part + [v];
        values[fromIndex + i] := src.values[fromSrcIndex + i];
        i := i + 1;
      }
    }

    method Overwrite(src: Vector, fromIndex: nat, fromSrcIndex: nat, copied: nat)
      requires Valid() && src.Valid() && src.values != values && src != this
      requires fromSrcIndex + copied == src.length && fromIndex + copied <= values.Length
      modifies this`length, values
      ensures Valid()
      ensures length == if old(length) < fromIndex + copied then fromIndex + copied else old(length)
      ensures Contents()[fromIndex..fromIndex + copied] == src.Contents()[fromSrcIndex..]
      ensures forall j :: 0 <= j < old(length) && !(fromIndex <= j < fromIndex + copied) ==>
                Contents()[j] == old(Contents())[j]
    {
      hide Over;
      ghost var was, part := values[..], src.values[fromSrcIndex..fromSrcIndex + copied];
      Lay(src, fromIndex, fromSrcIndex, copied);
      if length < fromIndex + copied {
        length := fromIndex + copied;
      }
      OverAt(was, fromIndex, part, old(length), length);
      assert Contents() == values[..][..length];
      assert src.Contents()[fromSrcIndex..] == part;
    }

    /** Doubles the size until it is as much as is needed. */
    method Reserve(needed: nat)
      requires Valid() && (needed > 0 ==> values.Length > 0)
      modifies this`values
      ensures Valid() && (values == old(values) || fresh(values))
      ensures values.Length == Grown(old(values.Length), needed)
      ensures Contents() == old(Contents())
    {
      while values.Length < needed
        invariant Valid() && (values == old(values) || fresh(values)) && (needed > 0 ==> values.Length > 0)
        invariant Grown(values.Length, needed) == Grown(old(values.Length), needed) && Contents() == old(Contents())
        decreases needed - values.Length
      {
        Extend();
      }
    }
  }

  /** `part` laid over `s` from `i` on. */
  ghost function Over(s: seq<nat>, i: nat, part: seq<nat>): (r: seq<nat>)
    requires i + |part| <= |s|
    ensures |r| == |s|
  {
    s[..i] + part + s[i + |part|..]
  }

  lemma OverNone(s: seq<nat>, i: nat, part: seq<nat>)
    requires i <= |s| && part == []
    ensures Over(s, i, part) == s
  {
  }

  lemma OverMore(s: seq<nat>, i: nat, part: seq<nat>, v: nat)
    requires i + |part| < |s|
    ensures Over(s, i, part)[i + |part| := v] == Over(s, i, part + [v])
  {
    var left, k := s[..i] + part, i + |part|;
    assert s[k..] == [s[k]] + s[k + 1..];
    assert Over(s, i, part)[k := v] == left + [v] + s[k + 1..];
    assert s[..i] + (part + [v]) == left + [v];
  }

  lemma OverAt(s: seq<nat>, i: nat, part: seq<nat>, before: nat, after: nat)
    requires before <= after <= |s| && i + |part| <= after
    ensures Over(s, i, part)[..after][i..i + |part|] == part
    ensures forall j :: 0 <= j < before && !(i <= j < i + |part|) ==> Over(s, i, part)[..after][j] == s[..before][j]
  {
    var r := Over(s, i, part);
    assert r[i..i + |part|] == part;
    assert r[..after][i..i + |part|] == r[i..i + |part|];
    forall j | 0 <= j < before && !(i <= j < i + |part|)
      ensures r[j] == s[j]
    {
    }
  }

  function Bytes(items: nat, itemSize: nat): nat {
    items * itemSize
  }

  lemma NoBytes(items: nat, itemSize: nat)
    ensures items == 0 ==> Bytes(items, itemSize) == 0
  {
  }

  /** The size after doubling until it suffices. */
  function Grown(size: nat, needed: nat): (r: nat)
    ensures r >= size && (size > 0 ==> r >= needed)
    decreases needed - size
  {
    if size >= needed || size == 0 then size else Grown(2 * size, needed)
  }
}

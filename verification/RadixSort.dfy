/** `AlgorithmTester/tests/radix/radix.c`: least-significant-bit-first radix sort of machine words.

    A word of `width` bits is its bit pattern, a number below 2^width; a signed word stands for its
    two's-complement value. */
module RadixSort {
  import opened Vectors

  function Pow2(k: nat): (p: nat)
    ensures p > 0
  {
    if k == 0 then 1 else 2 * Pow2(k - 1)
  }

  /** The bit under the mask, a power of two. */
  predicate Bit(v: nat, mask: nat)
    requires mask > 0
  {
    (v / mask) % 2 == 1
  }

  /** The words with the given bit, in their order. */
  function Having(s: seq<nat>, mask: nat, bit: bool): (r: seq<nat>)
    requires mask > 0
    ensures forall x :: x in r ==> x in s && Bit(x, mask) == bit
    ensures |r| <= |s|
  {
    if s == [] then []
    else
      var last := s[|s| - 1];
      Having(s[..|s| - 1], mask, bit) + (if Bit(last, mask) == bit then [last] else [])
  }

  /** One pass: first the words without the bit, then those with it, or the other way round. */
  function Pass(s: seq<nat>, mask: nat, invert: bool): seq<nat>
    requires mask > 0
  {
    Having(s, mask, invert) + Having(s, mask, !invert)
  }

  /** After the passes for the bits 0 .. k-1; only the sign bit's pass is inverted. */
  function Passes(s: seq<nat>, width: nat, signed: bool, k: nat): seq<nat>
    requires k <= width
  {
    if k == 0 then s else Pass(Passes(s, width, signed, k - 1), Pow2(k - 1), signed && k == width)
  }

  // ----- What is sorted -----

  /** What to sort by: the low bits, or the number a bit pattern stands for. */
  datatype Key = Low(k: nat) | Meaning(width: nat, signed: bool)

  function Of(key: Key, v: nat): int {
    match key
    case Low(k) => v % Pow2(k)
    case Meaning(width, signed) => if signed && width > 0 && v >= Pow2(width - 1) then v - Pow2(width) else v
  }

  predicate SortedBy(s: seq<nat>, key: Key) {
    forall i, j :: 0 <= i < j < |s| ==> Of(key, s[i]) <= Of(key, s[j])
  }

  /** The words of one key, in their order. */
  function Select(s: seq<nat>, key: Key, x: int): seq<nat> {
    if s == [] then []
    else
      var last := s[|s| - 1];
      Select(s[..|s| - 1], key, x) + (if Of(key, last) == x then [last] else [])
  }

  /** Ties are in the original order, and nothing is lost. */
  ghost predicate Stable(s: seq<nat>, s': seq<nat>, key: Key) {
    forall x: int {:trigger SameTies(s, s', key, x)} :: SameTies(s, s', key, x)
  }

  ghost predicate SameTies(s: seq<nat>, s': seq<nat>, key: Key, x: int) {
    Select(s', key, x) == Select(s, key, x)
  }

  // ----- Filters -----

  lemma {:induction false} HavingSorted(s: seq<nat>, mask: nat, bit: bool, key: Key)
    requires mask > 0 && SortedBy(s, key)
    ensures SortedBy(Having(s, mask, bit), key)
  {
    if s != [] {
      HavingSorted(s[..|s| - 1], mask, bit, key);
      var r := Having(s[..|s| - 1], mask, bit);
      forall i | 0 <= i < |r|
        ensures Of(key, r[i]) <= Of(key, s[|s| - 1])
      {
        assert r[i] in s[..|s| - 1];
      }
    }
  }

  lemma {:induction false} HavingAll(s: seq<nat>, mask: nat)
    requires mask > 0
    ensures multiset(Having(s, mask, false)) + multiset(Having(s, mask, true)) == multiset(s)
  {
    hide Having, Bit;
    if s != [] {
      var k := |s| - 1;
      var before, v := s[..k], s[k];
      HavingAll(before, mask);
      assert s == before + [v];
      HavingMore(before, v, mask, false);
      HavingMore(before, v, mask, true);
    } else {
      HavingNone(mask);
    }
  }

  lemma {:induction false} SelectConcat(s: seq<nat>, t: seq<nat>, key: Key, x: int)
    ensures Select(s + t, key, x) == Select(s, key, x) + Select(t, key, x)
  {
    if t == [] {
      assert s + t == s;
    } else {
      var k := |t| - 1;
      SelectConcat(s, t[..k], key, x);
      assert (s + t)[..|s + t| - 1] == s + t[..k];
    }
  }

  lemma SelectNext(s: seq<nat>, v: nat, key: Key, x: int)
    ensures Select(s + [v], key, x) == Select(s, key, x) + (if Of(key, v) == x then [v] else [])
  {
    hide Of;
    assert (s + [v])[..|s|] == s;
  }

  lemma HavingMore(s: seq<nat>, v: nat, mask: nat, bit: bool)
    requires mask > 0
    ensures Having(s + [v], mask, bit) == Having(s, mask, bit) + (if Bit(v, mask) == bit then [v] else [])
  {
    assert (s + [v])[..|s|] == s;
  }

  /** All words of a key that decides the bit are on one side. */
  lemma {:induction false} SelectHaving(s: seq<nat>, mask: nat, bit: bool, key: Key, x: int, side: bool)
    requires mask > 0 && forall v: nat {:trigger Of(key, v)} :: Of(key, v) == x ==> Bit(v, mask) == side
    ensures Select(Having(s, mask, bit), key, x) == if bit == side then Select(s, key, x) else []
  {
    hide Select, Having, Of, Bit;
    if s != [] {
      var k := |s| - 1;
      var before, v := s[..k], s[k];
      SelectHaving(before, mask, bit, key, x, side);
      assert s == before + [v];
      HavingMore(before, v, mask, bit);
      SelectNext(before, v, key, x);
      SelectNext(Having(before, mask, bit), v, key, x);
      assert Select(before, key, x) + [] == Select(before, key, x);
      assert Having(before, mask, bit) + [] == Having(before, mask, bit);
    } else {
      SelectNone(mask, bit, key, x);
    }
  }

  lemma SelectNone(mask: nat, bit: bool, key: Key, x: int)
    requires mask > 0
    ensures Select(Having([], mask, bit), key, x) == [] && Select([], key, x) == []
  {
  }

  // ----- Arithmetic -----

  lemma SplitLow(v: nat, p: nat)
    requires p > 0
    ensures v % (2 * p) == v % p + (if Bit(v, p) then p else 0)
    ensures v % p < p
  {
    Split(v, p, v / p, v % p);
  }

  lemma Split(v: nat, p: nat, q: nat, r: nat)
    requires v == q * p + r && r < p
    ensures v % (2 * p) == r + (if q % 2 == 1 then p else 0)
  {
    var h, b := q / 2, q % 2;
    Distribute(h, b, p);
    var low := if b == 1 then p + r else r;
    Remainder(v, 2 * p, h, low);
  }

  lemma Distribute(h: nat, b: nat, p: nat)
    ensures (2 * h + b) * p == h * (2 * p) + b * p
  {
  }

  lemma Remainder(v: nat, m: nat, q: nat, r: nat)
    requires m > 0 && v == q * m + r && r < m
    ensures v % m == r && v / m == q
  {
    var d := v / m - q;
    assert v == (v / m) * m + v % m;
    assert d * m == r - v % m by {
      assert (v / m - q) * m == (v / m) * m - q * m;
    }
    if d >= 1 {
      Times(d, m);
    } else if d <= -1 {
      Times(-d, m);
      Negate(d, m);
    }
  }

  lemma Negate(d: int, m: nat)
    ensures (-d) * m == -(d * m)
  {
  }

  lemma Times(d: int, m: nat)
    requires d >= 1
    ensures d * m >= m
  {
  }

  // ----- One pass -----

  /** A pass sorts by one more bit. */
  lemma PassSorts(s: seq<nat>, k: nat)
    requires SortedBy(s, Low(k))
    ensures SortedBy(Pass(s, Pow2(k), false), Low(k + 1))
  {
    var p := Pow2(k);
    HavingSorted(s, p, false, Low(k));
    HavingSorted(s, p, true, Low(k));
    var r := Pass(s, p, false);
    forall i, j | 0 <= i < j < |r|
      ensures Of(Low(k + 1), r[i]) <= Of(Low(k + 1), r[j])
    {
      SplitLow(r[i], p);
      SplitLow(r[j], p);
      var m := |Having(s, p, false)|;
      assert Bit(r[i], p) == (i >= m) by { Halves(s, p, i); }
      assert Bit(r[j], p) == (j >= m) by { Halves(s, p, j); }
      InHalf(s, p, k, i, j);
    }
  }

  lemma Halves(s: seq<nat>, p: nat, i: nat)
    requires p > 0 && i < |Pass(s, p, false)|
    ensures Bit(Pass(s, p, false)[i], p) == (i >= |Having(s, p, false)|)
  {
    var m := |Having(s, p, false)|;
    if i < m {
      assert Having(s, p, false)[i] in Having(s, p, false);
    } else {
      assert Having(s, p, true)[i - m] in Having(s, p, true);
    }
  }

  lemma InHalf(s: seq<nat>, p: nat, k: nat, i: nat, j: nat)
    requires p == Pow2(k) && i < j < |Pass(s, p, false)|
    requires SortedBy(Having(s, p, false), Low(k)) && SortedBy(Having(s, p, true), Low(k))
    ensures (i >= |Having(s, p, false)|) == (j >= |Having(s, p, false)|) ==>
              Pass(s, p, false)[i] % p <= Pass(s, p, false)[j] % p
  {
    var m := |Having(s, p, false)|;
    var r := Pass(s, p, false);
    if j < m {
      assert Of(Low(k), Having(s, p, false)[i]) <= Of(Low(k), Having(s, p, false)[j]);
    } else if i >= m {
      assert Of(Low(k), Having(s, p, true)[i - m]) <= Of(Low(k), Having(s, p, true)[j - m]);
    }
  }

  lemma KeyDecidesBit(k: nat, x: int)
    ensures forall v: nat {:trigger Of(Low(k + 1), v)} :: Of(Low(k + 1), v) == x ==> Bit(v, Pow2(k)) == (x >= Pow2(k))
  {
    forall v: nat | Of(Low(k + 1), v) == x
      ensures Bit(v, Pow2(k)) == (x >= Pow2(k))
    {
      SplitLow(v, Pow2(k));
    }
  }

  /** A pass keeps words that agree in one bit more in their order. */
  lemma PassStable(s: seq<nat>, k: nat, invert: bool)
    ensures Stable(s, Pass(s, Pow2(k), invert), Low(k + 1))
  {
    hide Bit, Having, Select, Of, Pow2;
    var p := Pow2(k);
    forall x: int {:trigger SameTies(s, Pass(s, p, invert), Low(k + 1), x)}
      ensures SameTies(s, Pass(s, p, invert), Low(k + 1), x)
    {
      KeyDecidesBit(k, x);
      SelectHaving(s, p, invert, Low(k + 1), x, x >= p);
      SelectHaving(s, p, !invert, Low(k + 1), x, x >= p);
      SelectConcat(Having(s, p, invert), Having(s, p, !invert), Low(k + 1), x);
    }
  }

  /** Stability for fewer bits gives stability for more. */
  lemma {:induction false} SelectFiner(s: seq<nat>, key: Key, fine: Key, x: int, y: int)
    requires forall v: nat :: Of(fine, v) == y ==> Of(key, v) == x
    ensures Select(s, fine, y) == Select(Select(s, key, x), fine, y)
  {
    if s != [] {
      var k := |s| - 1;
      SelectFiner(s[..k], key, fine, x, y);
      SelectConcat(Select(s[..k], key, x), if Of(key, s[k]) == x then [s[k]] else [], fine, y);
      assert [s[k]][..0] == [];
    }
  }

  lemma StableFiner(s: seq<nat>, s': seq<nat>, k: nat)
    requires Stable(s, s', Low(k))
    ensures Stable(s, s', Low(k + 1))
  {
    forall y: int {:trigger SameTies(s, s', Low(k + 1), y)}
      ensures SameTies(s, s', Low(k + 1), y)
    {
      var p := Pow2(k);
      var x := if y >= p then y - p else y;
      forall v: nat | Of(Low(k + 1), v) == y
        ensures Of(Low(k), v) == x
      {
        SplitLow(v, p);
      }
      SelectFiner(s, Low(k), Low(k + 1), x, y);
      SelectFiner(s', Low(k), Low(k + 1), x, y);
      assert SameTies(s, s', Low(k), x);
    }
  }

  // ----- All passes -----

  /** After `k` passes the vector is in order by its `k` low bits, with ties in their original order. */
  lemma {:induction false} PassesSort(s: seq<nat>, width: nat, signed: bool, k: nat)
    requires k <= width && (signed ==> k < width)
    ensures SortedBy(Passes(s, width, signed, k), Low(k))
    ensures Stable(s, Passes(s, width, signed, k), Low(k))
    ensures multiset(Passes(s, width, signed, k)) == multiset(s)
  {
    hide SortedBy, Stable, Pass;
    if k > 0 {
      PassesSort(s, width, signed, k - 1);
      var before := Passes(s, width, signed, k - 1);
      PassSorts(before, k - 1);
      PassStable(before, k - 1, false);
      StableFiner(s, before, k - 1);
      StableTwice(s, before, Pass(before, Pow2(k - 1), false), Low(k));
      PassAll(before, Pow2(k - 1), false);
    } else {
      NoPass(s);
    }
  }

  lemma StableTwice(s: seq<nat>, s': seq<nat>, s'': seq<nat>, key: Key)
    requires Stable(s, s', key) && Stable(s', s'', key)
    ensures Stable(s, s'', key)
  {
    forall x: int {:trigger SameTies(s, s'', key, x)}
      ensures SameTies(s, s'', key, x)
    {
      assert SameTies(s, s', key, x) && SameTies(s', s'', key, x);
    }
  }

  lemma PassAll(s: seq<nat>, mask: nat, invert: bool)
    requires mask > 0
    ensures multiset(Pass(s, mask, invert)) == multiset(s)
  {
    HavingAll(s, mask);
  }

  lemma NoPass(s: seq<nat>)
    ensures SortedBy(s, Low(0)) && Stable(s, s, Low(0))
  {
    assert forall v: nat :: v % Pow2(0) == 0;
  }

  /** The sign bit of a word. */
  lemma SignBit(v: nat, p: nat)
    requires p > 0 && v < 2 * p
    ensures Bit(v, p) <==> v >= p
    ensures v % p == if v >= p then v - p else v
  {
    if v >= p {
      Remainder(v, p, 1, v - p);
    } else {
      Remainder(v, p, 0, v);
    }
  }

  lemma InvertedSorts(s: seq<nat>, width: nat)
    requires width > 0 && SortedBy(s, Low(width - 1)) && forall i {:trigger s[i]} :: 0 <= i < |s| ==> s[i] < Pow2(width)
    ensures SortedBy(Pass(s, Pow2(width - 1), true), Meaning(width, true))
  {
    var p := Pow2(width - 1);
    HavingSorted(s, p, false, Low(width - 1));
    HavingSorted(s, p, true, Low(width - 1));
    var ones, zeros := Having(s, p, true), Having(s, p, false);
    var r := Pass(s, p, true);
    forall i, j | 0 <= i < j < |r|
      ensures Of(Meaning(width, true), r[i]) <= Of(Meaning(width, true), r[j])
    {
      var m := |ones|;
      InvertedHalf(s, p, width, i);
      InvertedHalf(s, p, width, j);
      if j < m {
        assert Of(Low(width - 1), ones[i]) <= Of(Low(width - 1), ones[j]);
      } else if i >= m {
        assert Of(Low(width - 1), zeros[i - m]) <= Of(Low(width - 1), zeros[j - m]);
      }
    }
  }

  lemma InvertedHalf(s: seq<nat>, p: nat, width: nat, i: nat)
    requires width > 0 && p == Pow2(width - 1) && i < |Pass(s, p, true)|
    requires forall i {:trigger s[i]} :: 0 <= i < |s| ==> s[i] < Pow2(width)
    ensures var v := Pass(s, p, true)[i];
            && v < Pow2(width) == 2 * p && (v >= p <==> i < |Having(s, p, true)|)
            && v % p == if v >= p then v - p else v
  {
    var m := |Having(s, p, true)|;
    var v := Pass(s, p, true)[i];
    if i < m {
      assert Having(s, p, true)[i] in Having(s, p, true);
    } else {
      assert Having(s, p, false)[i - m] in Having(s, p, false);
    }
    SignBit(v, p);
  }

  /** Radix sort sorts words of any width, signed or not, into a permutation in ascending order. */
  lemma RadixSorts(s: seq<nat>, width: nat, signed: bool)
    requires width > 0 && forall i {:trigger s[i]} :: 0 <= i < |s| ==> s[i] < Pow2(width)
    ensures SortedBy(Passes(s, width, signed, width), Meaning(width, signed))
    ensures multiset(Passes(s, width, signed, width)) == multiset(s)
  {
    hide SortedBy, Stable, Pass;
    if signed {
      PassesSort(s, width, true, width - 1);
      var before := Passes(s, width, true, width - 1);
      PassAll(before, Pow2(width - 1), true);
      StillBelow(s, before, Pow2(width));
      InvertedSorts(before, width);
    } else {
      PassesSort(s, width, false, width);
      UnsignedSorts(s, Passes(s, width, false, width), width);
    }
  }

  lemma StillBelow(s: seq<nat>, r: seq<nat>, bound: nat)
    requires multiset(r) == multiset(s) && forall i {:trigger s[i]} :: 0 <= i < |s| ==> s[i] < bound
    ensures forall i {:trigger r[i]} :: 0 <= i < |r| ==> r[i] < bound
  {
    forall i {:trigger r[i]} | 0 <= i < |r|
      ensures r[i] < bound
    {
      assert r[i] in multiset(s);
    }
  }

  lemma UnsignedSorts(s: seq<nat>, r: seq<nat>, width: nat)
    requires width > 0 && forall i {:trigger s[i]} :: 0 <= i < |s| ==> s[i] < Pow2(width)
    requires multiset(r) == multiset(s) && SortedBy(r, Low(width))
    ensures SortedBy(r, Meaning(width, false))
  {
    forall i, j | 0 <= i < j < |r|
      ensures r[i] <= r[j]
    {
      assert r[i] in multiset(s) && r[j] in multiset(s);
      Remainder(r[i], Pow2(width), 0, r[i]);
      Remainder(r[j], Pow2(width), 0, r[j]);
      assert Of(Low(width), r[i]) <= Of(Low(width), r[j]);
    }
  }

  // ----- The program -----

  method SortBit(v: Vector, mask: nat, invert: bool, itemSize: nat)
    requires v.Valid() && mask > 0
    modifies v, v.values
    ensures v.Valid() && (v.values == old(v.values) || fresh(v.values))
    ensures v.Contents() == Pass(old(v.Contents()), mask, invert)
  {
    hide Having;
    var vector0, vector1 := Part(v, mask);
    HavingLengths(v.Contents(), mask);
    if invert {
      Refill(v, vector1, vector0, itemSize);
    } else {
      Refill(v, vector0, vector1, itemSize);
    }
  }

  /** The loop of a pass: pushes each word to one of two new vectors. */
  method Part(v: Vector, mask: nat) returns (vector0: Vector, vector1: Vector)
    requires v.Valid() && mask > 0
    ensures vector0.Valid() && vector1.Valid() && fresh(vector0.values) && fresh(vector1.values)
    ensures fresh(vector0) && fresh(vector1)
    ensures vector0.Contents() == Having(v.Contents(), mask, false)
    ensures vector1.Contents() == Having(v.Contents(), mask, true)
  {
    hide Having;
    vector0 := new Vector();
    vector1 := new Vector();
    ghost var s := v.Contents();
    var i := 0;
    HavingNone(mask);
    while i < v.length
      invariant i <= v.length && v.Contents() == s
      invariant vector0.Valid() && vector1.Valid() && vector0 != vector1 && vector0.values != vector1.values
      invariant fresh(vector0) && fresh(vector1) && fresh(vector0.values) && fresh(vector1.values)
      invariant vector0.values.Length > 0 && vector1.values.Length > 0
      invariant vector0.Contents() == Having(s[..i], mask, false)
      invariant vector1.Contents() == Having(s[..i], mask, true)
    {
      var val := v.Get(i);
      HavingNext(s, i, mask);
      if Bit(val, mask) {
        vector1.Push(val);
      } else {
        vector0.Push(val);
      }
      i := i + 1;
    }
    assert s[..i] == s;
  }

  lemma HavingNone(mask: nat)
    requires mask > 0
    ensures Having([], mask, false) == [] && Having([], mask, true) == []
  {
  }

  lemma HavingNext(s: seq<nat>, i: nat, mask: nat)
    requires mask > 0 && i < |s|
    ensures Having(s[..i + 1], mask, true) ==
            if Bit(s[i], mask) then Having(s[..i], mask, true) + [s[i]] else Having(s[..i], mask, true)
    ensures Having(s[..i + 1], mask, false) ==
            if Bit(s[i], mask) then Having(s[..i], mask, false) else Having(s[..i], mask, false) + [s[i]]
  {
    assert s[..i + 1][..i] == s[..i];
  }

  /** Writes the two vectors back one after the other. */
  method Refill(v: Vector, first: Vector, second: Vector, itemSize: nat)
    requires v.Valid() && first.Valid() && second.Valid() && first != v && second != v
    requires first.values != v.values && second.values != v.values
    requires first.length + second.length == v.length
    modifies v, v.values
    ensures v.Valid() && (v.values == old(v.values) || fresh(v.values))
    ensures v.Contents() == old(first.Contents() + second.Contents())
  {
    hide Grown, Bytes;
    v.CopyFrom(first, 0, 0, itemSize);
    ghost var half := v.Contents();
    v.CopyFrom(second, first.length, 0, itemSize);
    assert v.Contents()[..first.length] == half[..first.length] == first.Contents();
    assert v.Contents() == v.Contents()[..first.length] + v.Contents()[first.length..];
  }

  lemma HavingLengths(s: seq<nat>, mask: nat)
    requires mask > 0
    ensures |Having(s, mask, false)| + |Having(s, mask, true)| == |s|
  {
    HavingAll(s, mask);
    assert |multiset(Having(s, mask, false))| + |multiset(Having(s, mask, true))| == |multiset(s)|;
  }

  method Sort(v: Vector, width: nat, signed: bool)
    requires v.Valid() && width > 0
    requires forall i :: 0 <= i < v.length ==> v.Contents()[i] < Pow2(width)
    modifies v, v.values
    ensures v.Valid() && v.Contents() == Passes(old(v.Contents()), width, signed, width)
    ensures SortedBy(v.Contents(), Meaning(width, signed)) && multiset(v.Contents()) == multiset(old(v.Contents()))
  {
    hide Pass;
    RadixSorts(v.Contents(), width, signed);
    var bits := width;
    var mask := 1;
    while bits > 0
      invariant bits <= width && mask == Pow2(width - bits)
      invariant v.Valid() && (v.values == old(v.values) || fresh(v.values))
      invariant v.Contents() == Passes(old(v.Contents()), width, signed, width - bits)
    {
      bits := bits - 1;
      SortBit(v, mask, signed && bits == 0, width / 8);
      mask := mask * 2;
    }
  }
}

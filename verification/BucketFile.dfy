/** `eda-2/session-2.c`: a file of hash buckets with an overflow area.

    The specification is the plain list of the accepted records. */
module BucketFile {
  import opened Options

  const REGS_PER_BUCKET := 5
  const BUCKETS := 20
  const OVERFLOW_BUCKETS := 4

  datatype Alumn = Alumn(dni: string, data: string)

  /** The first `elementCount` records are in use, at most REGS_PER_BUCKET; a home bucket counts the
      records that went to the overflow area as well. */
  datatype Bucket = Bucket(alumns: seq<Alumn>, elementCount: nat)

  // ----- The hash -----

  function Blank(c: char): bool {
    c == ' ' || '\t' <= c <= '\r'
  }

  function Digits(s: string, acc: nat): nat {
    if s != [] && '0' <= s[0] <= '9' then Digits(s[1..], 10 * acc + (s[0] as int - '0' as int)) else acc
  }

  /** `atoi`: blanks, a sign, digits. */
  function Atoi(s: string): int {
    if s == [] then 0
    else if Blank(s[0]) then Atoi(s[1..])
    else if s[0] == '-' then 0 - Digits(s[1..], 0)
    else if s[0] == '+' then Digits(s[1..], 0)
    else Digits(s, 0)
  }

  /** The home bucket.  The remainder of a negative number is negative or zero; converted to an unsigned
      number it is no bucket, and the assertion on the index fails. */
  function Hash(dni: string): (h: Option<nat>)
    ensures h.Some? ==> h.value < BUCKETS
  {
    var n := Atoi(dni);
    if n >= 0 then Some(n % BUCKETS) else if (-n) % BUCKETS == 0 then Some(0) else None
  }

  // ----- What the hash of a numeral is -----

  /** The usual numeral of a number. */
  function Decimal(k: nat): (s: string)
    ensures s != []
  {
    if k < 10 then ["0123456789"[k]] else Decimal(k / 10) + ["0123456789"[k % 10]]
  }

  predicate IsFigure(c: char) {
    c in "0123456789"
  }

  /** Space, tab, line feed, vertical tab, form feed and carriage return. */
  predicate AllBlank(s: string) {
    forall i :: 0 <= i < |s| ==> s[i] as int in {32, 9, 10, 11, 12, 13}
  }

  predicate AllZeros(s: string) {
    forall i :: 0 <= i < |s| ==> s[i] == '0'
  }

  /** No figure comes first. */
  predicate NoNumeral(s: string) {
    s == [] || !IsFigure(s[0])
  }

  lemma Figures(c: char)
    ensures IsFigure(c) <==> '0' <= c <= '9'
    ensures forall d: nat :: d < 10 ==>
              IsFigure("0123456789"[d]) && "0123456789"[d] as int - '0' as int == d && !Blank("0123456789"[d])
              && "0123456789"[d] != '-' && "0123456789"[d] != '+'
  {
    var figures := "0123456789";
    assert figures[0] == '0' && figures[1] == '1' && figures[2] == '2' && figures[3] == '3' && figures[4] == '4';
    assert figures[5] == '5' && figures[6] == '6' && figures[7] == '7' && figures[8] == '8' && figures[9] == '9';
  }

  lemma {:induction false} DigitsConcat(s: string, t: string, acc: nat)
    requires forall i :: 0 <= i < |s| ==> IsFigure(s[i])
    ensures Digits(s + t, acc) == Digits(t, Digits(s, acc))
  {
    if s == [] {
      assert s + t == t;
    } else {
      Figures(s[0]);
      assert (s + t)[1..] == s[1..] + t;
      DigitsConcat(s[1..], t, 10 * acc + (s[0] as int - '0' as int));
    }
  }

  lemma {:induction false} DecimalFigures(k: nat)
    ensures forall i :: 0 <= i < |Decimal(k)| ==> IsFigure(Decimal(k)[i])
  {
    Figures('0');
    if k >= 10 {
      DecimalFigures(k / 10);
    }
  }

  lemma {:induction false} DigitsOfDecimal(k: nat)
    ensures Digits(Decimal(k), 0) == k
  {
    Figures('0');
    var last := ["0123456789"[k % 10]];
    LastDigit(k % 10, k / 10);
    if k >= 10 {
      DecimalFigures(k / 10);
      DigitsOfDecimal(k / 10);
      DigitsConcat(Decimal(k / 10), last, 0);
    } else {
      LastDigit(k, 0);
    }
  }

  lemma LastDigit(d: nat, acc: nat)
    requires d < 10
    ensures Digits(["0123456789"[d]], acc) == 10 * acc + d
  {
    Figures('0');
    Figures("0123456789"[d]);
    assert ["0123456789"[d]][1..] == [];
  }

  lemma {:induction false} DigitsOfZeros(zeros: string)
    requires AllZeros(zeros)
    ensures Digits(zeros, 0) == 0
  {
    if zeros != [] {
      DigitsOfZeros(zeros[1..]);
    }
  }

  /** Leading zeros and what follows the figures do not matter. */
  lemma DigitsExact(zeros: string, k: nat, rest: string)
    requires AllZeros(zeros) && NoNumeral(rest)
    ensures Digits(zeros + Decimal(k) + rest, 0) == k
  {
    hide Decimal, Digits;
    DecimalFigures(k);
    DigitsOfDecimal(k);
    DigitsOfZeros(zeros);
    assert zeros + Decimal(k) + rest == zeros + (Decimal(k) + rest);
    DigitsConcat(zeros, Decimal(k) + rest, 0);
    DigitsConcat(Decimal(k), rest, 0);
    DigitsOfRest(rest, k);
  }

  lemma DigitsOfRest(rest: string, acc: nat)
    requires NoNumeral(rest)
    ensures Digits(rest, acc) == acc
  {
    if rest != [] {
      Figures(rest[0]);
    }
  }

  lemma {:induction false} AtoiBlanks(blanks: string, s: string)
    requires AllBlank(blanks)
    ensures Atoi(blanks + s) == Atoi(s)
  {
    if blanks == [] {
      assert blanks + s == s;
    } else {
      assert (blanks + s)[1..] == blanks[1..] + s;
      AtoiBlanks(blanks[1..], s);
    }
  }

  lemma AtoiSigned(sign: string, s: string)
    requires sign == "" || sign == "+" || sign == "-"
    requires sign == "" ==> s == [] || (s[0] as int !in {32, 9, 10, 11, 12, 13} && s[0] != '+' && s[0] != '-')
    ensures Atoi(sign + s) == if sign == "-" then 0 - Digits(s, 0) else Digits(s, 0)
  {
    if sign == "" {
      assert sign + s == s;
    } else {
      assert (sign + s)[0] == sign[0] && (sign + s)[1..] == s;
    }
  }

  lemma FirstFigure(zeros: string, k: nat, rest: string)
    requires AllZeros(zeros)
    ensures var s := zeros + Decimal(k) + rest; s != [] && IsFigure(s[0])
  {
    Figures('0');
    DecimalFigures(k);
    assert (zeros + Decimal(k) + rest)[0] == if zeros != [] then zeros[0] else Decimal(k)[0];
  }

  /** The number that a numeral says, with a sign or none, blanks before it, zeros to begin with, and
      anything behind it. */
  lemma AtoiExact(blanks: string, sign: string, zeros: string, k: nat, rest: string)
    requires AllBlank(blanks) && (sign == "" || sign == "+" || sign == "-") && AllZeros(zeros) && NoNumeral(rest)
    ensures Atoi(blanks + (sign + (zeros + Decimal(k) + rest))) == if sign == "-" then 0 - k else k
  {
    hide Decimal, Atoi, Digits;
    var s := zeros + Decimal(k) + rest;
    FirstFigure(zeros, k, rest);
    Figures(s[0]);
    AtoiBlanks(blanks, sign + s);
    AtoiSigned(sign, s);
    DigitsExact(zeros, k, rest);
  }

  /** Without a numeral the number is zero. */
  lemma AtoiNothing(blanks: string, sign: string, rest: string)
    requires AllBlank(blanks) && (sign == "" || sign == "+" || sign == "-") && NoNumeral(rest)
    requires sign == "" ==> rest == [] || (rest[0] as int !in {32, 9, 10, 11, 12, 13} && rest[0] != '+' && rest[0] != '-')
    ensures Atoi(blanks + (sign + rest)) == 0 && Hash(blanks + (sign + rest)) == Some(0)
  {
    AtoiBlanks(blanks, sign + rest);
    AtoiSigned(sign, rest);
    DigitsOfRest(rest, 0);
  }

  /** The home of a number is its remainder; a negative number that is no multiple of the number of homes
      has none. */
  lemma HashExact(blanks: string, sign: string, zeros: string, q: nat, r: nat, rest: string)
    requires AllBlank(blanks) && (sign == "" || sign == "+" || sign == "-") && AllZeros(zeros) && NoNumeral(rest)
    requires r < 20
    ensures Hash(blanks + (sign + (zeros + Decimal(20 * q + r) + rest))) == if sign == "-" && r != 0 then None else Some(r)
  {
    hide Decimal, Atoi, Hash;
    var k := 20 * q + r;
    AtoiExact(blanks, sign, zeros, k, rest);
    Remainder(q, r);
    HashOf(blanks + (sign + (zeros + Decimal(k) + rest)), k, k % 20, sign == "-");
  }

  lemma Remainder(q: nat, r: nat)
    requires r < 20
    ensures (20 * q + r) % 20 == r
  {
  }

  lemma HashOf(dni: string, k: nat, r: nat, negative: bool)
    requires Atoi(dni) == (if negative then 0 - k else k) && r == k % 20
    ensures Hash(dni) == if negative && r != 0 then None else Some(r)
  {
    hide Atoi;
  }

  // ----- The list of accepted records -----

  predicate At(a: Alumn, b: nat) {
    Hash(a.dni) == Some(b)
  }

  /** The records whose home is bucket `b`, in their order. */
  function Home(list: seq<Alumn>, b: nat): (r: seq<Alumn>)
    ensures |r| <= |list|
  {
    if list == [] then []
    else
      var last := list[|list| - 1];
      Home(list[..|list| - 1], b) + (if At(last, b) then [last] else [])
  }

  /** The records that found their home full, in their order. */
  function Overflow(list: seq<Alumn>): (r: seq<Alumn>)
    ensures |r| <= |list|
  {
    if list == [] then []
    else
      var last := list[|list| - 1];
      var before := list[..|list| - 1];
      Overflow(before) + (if Spills(before, last) then [last] else [])
  }

  predicate Spills(list: seq<Alumn>, a: Alumn) {
    Hash(a.dni).Some? && |Home(list, Hash(a.dni).value)| >= REGS_PER_BUCKET
  }

  /** The earliest record with the key. */
  function First(list: seq<Alumn>, dni: string): (r: Option<Alumn>)
    ensures r.Some? ==> r.value in list && r.value.dni == dni
    ensures r.None? ==> forall a :: a in list ==> a.dni != dni
  {
    if list == [] then None else if list[0].dni == dni then Some(list[0]) else First(list[1..], dni)
  }

  /** There is room for the record. */
  predicate Fits(list: seq<Alumn>, a: Alumn) {
    Spills(list, a) ==> |Overflow(list)| < OVERFLOW_BUCKETS * REGS_PER_BUCKET
  }

  // ----- Facts about the list -----

  lemma HomeNext(list: seq<Alumn>, a: Alumn, b: nat)
    ensures Home(list + [a], b) == Home(list, b) + (if At(a, b) then [a] else [])
  {
    assert (list + [a])[..|list|] == list;
  }

  lemma OverflowNext(list: seq<Alumn>, a: Alumn)
    ensures Overflow(list + [a]) == Overflow(list) + (if Spills(list, a) then [a] else [])
  {
    assert (list + [a])[..|list|] == list;
  }

  lemma {:induction false} FirstConcat(s: seq<Alumn>, t: seq<Alumn>, dni: string)
    ensures First(s + t, dni) == if First(s, dni).Some? then First(s, dni) else First(t, dni)
  {
    if s == [] {
      assert s + t == t;
    } else if s[0].dni != dni {
      assert (s + t)[1..] == s[1..] + t;
      FirstConcat(s[1..], t, dni);
    }
  }

  /** To look among the records of the key's home is to look among all. */
  lemma {:induction false} FirstAtHome(list: seq<Alumn>, dni: string, b: nat)
    requires Hash(dni) == Some(b)
    ensures First(Home(list, b), dni) == First(list, dni)
  {
    if list != [] {
      var k := |list| - 1;
      FirstAtHome(list[..k], dni, b);
      assert list == list[..k] + [list[k]];
      FirstConcat(list[..k], [list[k]], dni);
      FirstConcat(Home(list[..k], b), if At(list[k], b) then [list[k]] else [], dni);
      Lone(list[k], dni);
    }
  }

  lemma Lone(a: Alumn, dni: string)
    ensures First([a], dni) == if a.dni == dni then Some(a) else None
    ensures First([], dni) == None
  {
    assert [a][1..] == [];
  }

  /** The overflow area holds, of each home, the records beyond the first five. */
  lemma {:induction false} OverflowOfHome(list: seq<Alumn>, dni: string, b: nat)
    requires Hash(dni) == Some(b)
    ensures var home := Home(list, b);
            First(Overflow(list), dni) == if |home| <= REGS_PER_BUCKET then None else First(home[REGS_PER_BUCKET..], dni)
  {
    if list != [] {
      var k := |list| - 1;
      var before, a := list[..k], list[k];
      OverflowOfHome(before, dni, b);
      FirstConcat(Overflow(before), if Spills(before, a) then [a] else [], dni);
      Lone(a, dni);
      var home := Home(before, b);
      if At(a, b) && |home| >= REGS_PER_BUCKET {
        assert (home + [a])[REGS_PER_BUCKET..] == home[REGS_PER_BUCKET..] + [a];
        FirstConcat(home[REGS_PER_BUCKET..], [a], dni);
      } else if At(a, b) {
        assert !Spills(before, a);
      } else {
        assert a.dni != dni;
        assert home + [] == home;
      }
    }
  }

  /** Excess of the home counts over the capacity of a bucket, for the homes below `m`. */
  function Excess(list: seq<Alumn>, m: nat): nat {
    if m == 0 then 0
    else Excess(list, m - 1) + (if |Home(list, m - 1)| > REGS_PER_BUCKET then |Home(list, m - 1)| - REGS_PER_BUCKET else 0)
  }

  lemma {:induction false} ExcessNext(list: seq<Alumn>, a: Alumn, m: nat)
    ensures Excess(list + [a], m) == Excess(list, m) +
              (if Spills(list, a) && Hash(a.dni).value < m then 1 else 0)
  {
    hide Home, Hash;
    if m > 0 {
      ExcessNext(list, a, m - 1);
      HomeNext(list, a, m - 1);
    }
  }

  /** Conservation: what the homes have too much is what the overflow area holds. */
  lemma {:induction false} ExcessOverflows(list: seq<Alumn>)
    ensures Excess(list, BUCKETS) == |Overflow(list)|
  {
    if list == [] {
      NoExcess(BUCKETS);
    } else {
      var k := |list| - 1;
      assert list == list[..k] + [list[k]];
      ExcessOverflows(list[..k]);
      ExcessNext(list[..k], list[k], BUCKETS);
    }
  }

  lemma {:induction false} NoExcess(m: nat)
    ensures Excess([], m) == 0
  {
    if m > 0 {
      NoExcess(m - 1);
    }
  }

  // ----- The file -----

  function Min(a: nat, b: nat): nat {
    if a < b then a else b
  }

  /** The part of the overflow area that bucket `j` of it holds. */
  function Part(overflow: seq<Alumn>, j: nat): (r: seq<Alumn>)
    ensures |r| <= REGS_PER_BUCKET
  {
    if |overflow| <= REGS_PER_BUCKET * j then []
    else overflow[REGS_PER_BUCKET * j..Min(|overflow|, REGS_PER_BUCKET * (j + 1))]
  }

  predicate HomeBucket(bucket: Bucket, home: seq<Alumn>) {
    && |bucket.alumns| == REGS_PER_BUCKET && bucket.elementCount == |home|
    && forall i :: 0 <= i < Min(|home|, REGS_PER_BUCKET) ==> bucket.alumns[i] == home[i]
  }

  predicate OverflowBucket(bucket: Bucket, part: seq<Alumn>) {
    && |bucket.alumns| == REGS_PER_BUCKET && bucket.elementCount == |part| <= REGS_PER_BUCKET
    && bucket.alumns[..|part|] == part
  }

  /** The buckets hold the list: the homes their first records, the overflow area the others, filled from
      the front. */
  ghost predicate Holds(buckets: seq<Bucket>, list: seq<Alumn>) {
    && |buckets| == BUCKETS + OVERFLOW_BUCKETS
    && |Overflow(list)| <= OVERFLOW_BUCKETS * REGS_PER_BUCKET
    && (forall b {:trigger Home(list, b)} :: 0 <= b < BUCKETS ==> HomeBucket(buckets[b], Home(list, b)))
    && (forall j {:trigger Part(Overflow(list), j)} :: 0 <= j < OVERFLOW_BUCKETS ==>
        OverflowBucket(buckets[BUCKETS + j], Part(Overflow(list), j)))
  }

  /** The first `j` overflow buckets are full. */
  predicate FullUpTo(buckets: seq<Bucket>, j: nat) {
    && |buckets| == BUCKETS + OVERFLOW_BUCKETS
    && forall k {:trigger buckets[k]} :: BUCKETS <= k < |buckets| && k < BUCKETS + j ==>
        buckets[k].elementCount == REGS_PER_BUCKET
  }

  lemma EmptyHolds(buckets: seq<Bucket>)
    requires |buckets| == BUCKETS + OVERFLOW_BUCKETS
    requires forall i :: 0 <= i < |buckets| ==> |buckets[i].alumns| == REGS_PER_BUCKET && buckets[i].elementCount == 0
    ensures Holds(buckets, [])
  {
  }

  /** Putting a record into its home. */
  lemma HomeInsert(buckets: seq<Bucket>, list: seq<Alumn>, a: Alumn, h: nat)
    requires Holds(buckets, list) && Hash(a.dni) == Some(h) && !Spills(list, a)
    ensures h < BUCKETS && buckets[h].elementCount < REGS_PER_BUCKET == |buckets[h].alumns|
    ensures var Bucket(alumns, count) := buckets[h];
            Holds(buckets[h := Bucket(alumns[count := a], count + 1)], list + [a])
  {
    hide HomeBucket, OverflowBucket, Spills, Home, Overflow, Part;
    OverflowNext(list, a);
    assert Overflow(list) + [] == Overflow(list);
    Housed(buckets[h], list, a, h);
    forall b {:trigger Home(list + [a], b)} | 0 <= b < BUCKETS
      ensures b != h ==> HomeBucket(buckets[b], Home(list + [a], b))
    {
      HomeNext(list, a, b);
      assert HomeBucket(buckets[b], Home(list, b));
      assert Home(list, b) + [] == Home(list, b);
    }
  }

  lemma Housed(bucket: Bucket, list: seq<Alumn>, a: Alumn, h: nat)
    requires HomeBucket(bucket, Home(list, h)) && Hash(a.dni) == Some(h) && !Spills(list, a)
    ensures bucket.elementCount < REGS_PER_BUCKET == |bucket.alumns|
    ensures HomeBucket(Bucket(bucket.alumns[bucket.elementCount := a], bucket.elementCount + 1), Home(list + [a], h))
  {
    HomeNext(list, a, h);
  }

  /** Putting a record into the first overflow bucket with room, and counting it at home. */
  lemma OverflowInsert(buckets: seq<Bucket>, list: seq<Alumn>, a: Alumn, h: nat, j: nat)
    requires Holds(buckets, list) && Hash(a.dni) == Some(h) && Spills(list, a)
    requires j < OVERFLOW_BUCKETS && buckets[BUCKETS + j].elementCount < REGS_PER_BUCKET
    requires FullUpTo(buckets, j)
    ensures h < BUCKETS && |buckets[BUCKETS + j].alumns| == REGS_PER_BUCKET
    ensures var Bucket(alumns, count) := buckets[BUCKETS + j];
            Holds(buckets[h := buckets[h].(elementCount := buckets[h].elementCount + 1)]
                         [BUCKETS + j := Bucket(alumns[count := a], count + 1)], list + [a])
  {
    hide HomeBucket, OverflowBucket, Spills, Home, Overflow, Part;
    var Bucket(alumns, count) := buckets[BUCKETS + j];
    var overflow := Overflow(list);
    OverflowNext(list, a);
    Filled(buckets, list, j);
    assert OverflowBucket(buckets[BUCKETS + j], Part(overflow, j));
    Grown(overflow, a, j, buckets[BUCKETS + j]);
    OverflowHomes(buckets, list, a, h);
    OtherParts(buckets, overflow, a, j);
  }

  lemma OverflowHomes(buckets: seq<Bucket>, list: seq<Alumn>, a: Alumn, h: nat)
    requires |buckets| == BUCKETS + OVERFLOW_BUCKETS && Hash(a.dni) == Some(h) && Spills(list, a) && h < BUCKETS
    requires forall b {:trigger Home(list, b)} :: 0 <= b < BUCKETS ==> HomeBucket(buckets[b], Home(list, b))
    ensures forall b {:trigger Home(list + [a], b)} :: 0 <= b < BUCKETS ==>
        HomeBucket(if b == h then buckets[h].(elementCount := buckets[h].elementCount + 1) else buckets[b],
            Home(list + [a], b))
  {
    hide HomeBucket, Home, Spills;
    forall b {:trigger Home(list + [a], b)} | 0 <= b < BUCKETS
      ensures HomeBucket(if b == h then buckets[h].(elementCount := buckets[h].elementCount + 1) else buckets[b],
          Home(list + [a], b))
    {
      HomeNext(list, a, b);
      assert HomeBucket(buckets[b], Home(list, b));
      if b == h {
        Counted(buckets[h], Home(list, h), a, list);
      } else {
        assert Home(list, b) + [] == Home(list, b);
      }
    }
  }

  lemma OtherParts(buckets: seq<Bucket>, overflow: seq<Alumn>, a: Alumn, j: nat)
    requires |buckets| == BUCKETS + OVERFLOW_BUCKETS
    requires REGS_PER_BUCKET * j <= |overflow| < REGS_PER_BUCKET * (j + 1)
    requires forall i {:trigger Part(overflow, i)} :: 0 <= i < OVERFLOW_BUCKETS ==>
        OverflowBucket(buckets[BUCKETS + i], Part(overflow, i))
    ensures forall i {:trigger Part(overflow + [a], i)} :: 0 <= i < OVERFLOW_BUCKETS && i != j ==>
        OverflowBucket(buckets[BUCKETS + i], Part(overflow + [a], i))
  {
    hide OverflowBucket, Part;
    forall i {:trigger Part(overflow + [a], i)} | 0 <= i < OVERFLOW_BUCKETS && i != j
      ensures OverflowBucket(buckets[BUCKETS + i], Part(overflow + [a], i))
    {
      assert OverflowBucket(buckets[BUCKETS + i], Part(overflow, i));
      OtherPart(overflow, a, j, i);
    }
  }

  lemma Counted(bucket: Bucket, home: seq<Alumn>, a: Alumn, list: seq<Alumn>)
    requires HomeBucket(bucket, home) && Hash(a.dni).Some? && home == Home(list, Hash(a.dni).value) && Spills(list, a)
    ensures HomeBucket(bucket.(elementCount := bucket.elementCount + 1), home + [a])
  {
  }

  /** The first overflow bucket with room is the one with the end of the overflow area. */
  lemma Filled(buckets: seq<Bucket>, list: seq<Alumn>, j: nat)
    requires Holds(buckets, list) && j < OVERFLOW_BUCKETS && buckets[BUCKETS + j].elementCount < REGS_PER_BUCKET
    requires FullUpTo(buckets, j)
    ensures REGS_PER_BUCKET * j <= |Overflow(list)| < REGS_PER_BUCKET * (j + 1)
    ensures buckets[BUCKETS + j].elementCount == |Overflow(list)| - REGS_PER_BUCKET * j
  {
    assert OverflowBucket(buckets[BUCKETS + j], Part(Overflow(list), j));
    if j > 0 {
      assert OverflowBucket(buckets[BUCKETS + (j - 1)], Part(Overflow(list), j - 1));
    }
  }

  lemma Grown(overflow: seq<Alumn>, a: Alumn, j: nat, bucket: Bucket)
    requires OverflowBucket(bucket, Part(overflow, j))
    requires REGS_PER_BUCKET * j <= |overflow| < REGS_PER_BUCKET * (j + 1)
    ensures bucket.elementCount < REGS_PER_BUCKET == |bucket.alumns|
    ensures OverflowBucket(Bucket(bucket.alumns[bucket.elementCount := a], bucket.elementCount + 1), Part(overflow + [a], j))
  {
    var part := Part(overflow, j);
    assert part == overflow[REGS_PER_BUCKET * j..];
    assert Part(overflow + [a], j) == part + [a];
  }

  lemma OtherPart(overflow: seq<Alumn>, a: Alumn, j: nat, i: nat)
    requires REGS_PER_BUCKET * j <= |overflow| < REGS_PER_BUCKET * (j + 1) && i != j
    ensures Part(overflow + [a], i) == Part(overflow, i)
  {
  }

  /** All overflow buckets full: there is no room. */
  lemma NoRoom(buckets: seq<Bucket>, list: seq<Alumn>, a: Alumn)
    requires Holds(buckets, list) && Spills(list, a)
    requires FullUpTo(buckets, OVERFLOW_BUCKETS)
    ensures !Fits(list, a)
  {
    assert OverflowBucket(buckets[BUCKETS + 3], Part(Overflow(list), 3));
  }

  lemma Room(buckets: seq<Bucket>, list: seq<Alumn>, j: nat)
    requires Holds(buckets, list) && j < OVERFLOW_BUCKETS && buckets[BUCKETS + j].elementCount < REGS_PER_BUCKET
    requires FullUpTo(buckets, j)
    ensures |Overflow(list)| < OVERFLOW_BUCKETS * REGS_PER_BUCKET
  {
    Filled(buckets, list, j);
  }

  // ----- The program -----

  datatype Insertion = Inserted | NoSpace | BadIndex
  datatype Retrieval = Found(alumn: Alumn) | Missing | NoIndex

  class File {
    const buckets: array<Bucket>
    ghost var list: seq<Alumn>

    ghost predicate Valid()
      reads this, buckets
    {
      Holds(buckets[..], list)
    }

    /** `hash_truncate_file`; what stands in the unused places is left open. */
    constructor (junk: Bucket)
      requires |junk.alumns| == REGS_PER_BUCKET
      ensures Valid() && list == [] && fresh(buckets)
    {
      buckets := new Bucket[BUCKETS + OVERFLOW_BUCKETS](_ => junk.(elementCount := 0));
      list := [];
      new;
      EmptyHolds(buckets[..]);
    }

    /** `hash_insert`: accepts the record if there is room for it, and otherwise leaves the file as it
        was. */
    method Insert(a: Alumn) returns (r: Insertion)
      requires Valid()
      modifies this`list, buckets
      ensures Valid()
      ensures r.BadIndex? <==> Hash(a.dni).None?
      ensures r.Inserted? <==> Hash(a.dni).Some? && Fits(old(list), a)
      ensures list == if r.Inserted? then old(list) + [a] else old(list)
      ensures !r.Inserted? ==> buckets[..] == old(buckets[..])
    {
      hide Holds, Home, Overflow, Hash;
      var hash := Hash(a.dni);
      if hash.None? {
        return BadIndex;
      }
      var h := hash.value;
      ghost var before := buckets[..];
      HoldsHome(before, list, h);
      var bucket := buckets[h];
      if bucket.elementCount < REGS_PER_BUCKET {
        HomeInsert(before, list, a, h);
        buckets[h] := Bucket(bucket.alumns[bucket.elementCount := a], bucket.elementCount + 1);
        assert buckets[..] == before[h := buckets[h]];
        list := list + [a];
        return Inserted;
      }
      bucket := bucket.(elementCount := bucket.elementCount + 1);
      buckets[h] := bucket;
      var i := 0;
      while i < OVERFLOW_BUCKETS
        invariant i <= OVERFLOW_BUCKETS && list == old(list)
        invariant buckets[..] == before[h := before[h].(elementCount := before[h].elementCount + 1)]
        invariant FullUpTo(before, i)
      {
        HoldsOverflow(before, list, i);
        bucket := buckets[BUCKETS + i];
        assert bucket == before[BUCKETS + i];
        if bucket.elementCount < REGS_PER_BUCKET {
          OverflowInsert(before, list, a, h, i);
          Room(before, list, i);
          buckets[BUCKETS + i] := Bucket(bucket.alumns[bucket.elementCount := a], bucket.elementCount + 1);
          ghost var counted := before[h := before[h].(elementCount := before[h].elementCount + 1)];
          assert buckets[..] == counted[BUCKETS + i := buckets[BUCKETS + i]];
          list := list + [a];
          return Inserted;
        }
        i := i + 1;
      }
      NoRoom(before, list, a);
      bucket := buckets[h];
      bucket := bucket.(elementCount := bucket.elementCount - 1);
      buckets[h] := bucket;
      assert buckets[..] == before;
      return NoSpace;
    }

    /** `hash_retrieve`: the earliest accepted record with the key. */
    method Retrieve(dni: string) returns (r: Retrieval)
      requires Valid()
      ensures r.NoIndex? <==> Hash(dni).None?
      ensures r.Found? ==> First(list, dni) == Some(r.alumn)
      ensures r.Missing? ==> First(list, dni) == None
    {
      hide Holds, Home, Overflow, Hash, First;
      var hash := Hash(dni);
      if hash.None? {
        return NoIndex;
      }
      var h := hash.value;
      ghost var home := Home(list, h);
      HoldsHome(buckets[..], list, h);
      FirstAtHome(list, dni, h);
      OverflowOfHome(list, dni, h);
      FirstOfFive(home, dni);
      var bucket := buckets[h];
      if bucket.elementCount == 0 {
        return Missing;
      }
      var i := 0;
      while i < bucket.elementCount && i < REGS_PER_BUCKET
        invariant i <= Min(|home|, REGS_PER_BUCKET)
        invariant First(home[..i], dni) == None
      {
        FirstNext(home, i, dni);
        if bucket.alumns[i].dni == dni {
          FirstPrefix(home, i + 1, dni);
          return Found(bucket.alumns[i]);
        }
        i := i + 1;
      }
      if i < REGS_PER_BUCKET {
        assert home[..i] == home;
        return Missing;
      }
      r := Search(dni, home[..REGS_PER_BUCKET]);
    }

    /** The search of the overflow area; `tried` are the records looked at before. */
    method Search(dni: string, ghost tried: seq<Alumn>) returns (r: Retrieval)
      requires Valid()
      ensures !r.NoIndex?
      ensures r.Found? ==> First(Overflow(list), dni) == Some(r.alumn)
      ensures r.Missing? ==> First(Overflow(list), dni) == None
    {
      hide Holds, Home, Overflow, First, Part, OverflowBucket;
      ghost var overflow := Overflow(list);
      FirstNone(overflow, dni);
      var j := 0;
      while j < OVERFLOW_BUCKETS
        invariant j <= OVERFLOW_BUCKETS
        invariant First(overflow[..Min(|overflow|, REGS_PER_BUCKET * j)], dni) == None
      {
        HoldsOverflow(buckets[..], list, j);
        var bucket := buckets[BUCKETS + j];
        ghost var start := Min(|overflow|, REGS_PER_BUCKET * j);
        PartBounds(overflow, j, bucket);
        var i := 0;
        while i < bucket.elementCount
          invariant i <= bucket.elementCount
          invariant First(overflow[..start + i], dni) == None
        {
          PartAt(overflow, j, bucket, i);
          FirstNext(overflow, start + i, dni);
          if bucket.alumns[i].dni == dni {
            FirstPrefix(overflow, start + i + 1, dni);
            return Found(bucket.alumns[i]);
          }
          i := i + 1;
        }
        j := j + 1;
      }
      HoldsBound(buckets[..], list);
      assert overflow[..|overflow|] == overflow;
      return Missing;
    }
  }

  lemma HoldsHome(buckets: seq<Bucket>, list: seq<Alumn>, h: nat)
    requires Holds(buckets, list) && h < BUCKETS
    ensures |buckets| == BUCKETS + OVERFLOW_BUCKETS && HomeBucket(buckets[h], Home(list, h))
  {
  }

  lemma HoldsOverflow(buckets: seq<Bucket>, list: seq<Alumn>, j: nat)
    requires Holds(buckets, list) && j < OVERFLOW_BUCKETS
    ensures |buckets| == BUCKETS + OVERFLOW_BUCKETS && OverflowBucket(buckets[BUCKETS + j], Part(Overflow(list), j))
  {
  }

  lemma PartBounds(overflow: seq<Alumn>, j: nat, bucket: Bucket)
    requires OverflowBucket(bucket, Part(overflow, j))
    ensures Min(|overflow|, REGS_PER_BUCKET * j) + bucket.elementCount == Min(|overflow|, REGS_PER_BUCKET * (j + 1))
    ensures Min(|overflow|, REGS_PER_BUCKET * (j + 1)) <= |overflow| && bucket.elementCount <= |bucket.alumns|
  {
  }

  lemma PartAt(overflow: seq<Alumn>, j: nat, bucket: Bucket, i: nat)
    requires OverflowBucket(bucket, Part(overflow, j)) && i < bucket.elementCount
    ensures Min(|overflow|, REGS_PER_BUCKET * j) + i < |overflow| && i < |bucket.alumns|
    ensures bucket.alumns[i] == overflow[Min(|overflow|, REGS_PER_BUCKET * j) + i]
  {
    assert bucket.alumns[i] == bucket.alumns[..bucket.elementCount][i] == Part(overflow, j)[i];
  }

  lemma HoldsBound(buckets: seq<Bucket>, list: seq<Alumn>)
    requires Holds(buckets, list)
    ensures |Overflow(list)| <= OVERFLOW_BUCKETS * REGS_PER_BUCKET
  {
  }

  lemma FirstNone(s: seq<Alumn>, dni: string)
    ensures First(s[..0], dni) == None
  {
  }

  lemma FirstNext(s: seq<Alumn>, i: nat, dni: string)
    requires i < |s| && First(s[..i], dni) == None
    ensures First(s[..i + 1], dni) == if s[i].dni == dni then Some(s[i]) else None
  {
    assert s[..i + 1] == s[..i] + [s[i]];
    FirstConcat(s[..i], [s[i]], dni);
    Lone(s[i], dni);
  }

  lemma FirstPrefix(s: seq<Alumn>, i: nat, dni: string)
    requires i <= |s| && First(s[..i], dni).Some?
    ensures First(s, dni) == First(s[..i], dni)
  {
    assert s == s[..i] + s[i..];
    FirstConcat(s[..i], s[i..], dni);
  }

  lemma FirstOfFive(home: seq<Alumn>, dni: string)
    ensures |home| >= REGS_PER_BUCKET && First(home[..REGS_PER_BUCKET], dni) == None ==>
              First(home, dni) == First(home[REGS_PER_BUCKET..], dni)
    ensures |home| == REGS_PER_BUCKET ==> First(home[REGS_PER_BUCKET..], dni) == None
    ensures home == [] ==> First(home, dni) == None
    ensures First(home[..0], dni) == None
  {
    if |home| >= REGS_PER_BUCKET {
      assert home == home[..REGS_PER_BUCKET] + home[REGS_PER_BUCKET..];
      FirstConcat(home[..REGS_PER_BUCKET], home[REGS_PER_BUCKET..], dni);
    }
  }
}

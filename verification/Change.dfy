/** `AlgorithmTester/tests/money/test.c`: change, largest coin first. */
module Change {

  const COINS: seq<nat> := [1, 2, 5, 10, 20, 50, 100, 200]

  // ----- What is asked for -----

  /** The worth of `count` coins of kind `k`. */
  function Value(count: nat, k: nat): nat
    requires k < |COINS|
  {
    count * COINS[k]
  }

  /** The worth of the first `k` kinds of coin. */
  function Worth(counts: seq<nat>, k: nat): nat
    requires |counts| == |COINS| && k <= |COINS|
  {
    if k == 0 then 0 else Worth(counts, k - 1) + Value(counts[k - 1], k - 1)
  }

  function Number(counts: seq<nat>, k: nat): nat
    requires |counts| == |COINS| && k <= |COINS|
  {
    if k == 0 then 0 else Number(counts, k - 1) + counts[k - 1]
  }

  // ----- The least number of coins, digit by digit -----

  /** Coins 1, 2 and 5 for a digit. */
  function Digit(d: nat): nat
    requires d < 10
  {
    d / 5 + d % 5 / 2 + d % 5 % 2
  }

  /** Coins 1 and 2. */
  function Pairs(h: nat): nat {
    h / 2 + h % 2
  }

  function Tens(q: nat): nat {
    Digit(q % 10) + Pairs(q / 10)
  }

  function Least(q: nat): nat {
    Digit(q % 10) + Tens(q / 10)
  }

  lemma PairsAdd(h: nat)
    ensures Pairs(h + 1) <= Pairs(h) + 1 && Pairs(h + 2) == Pairs(h) + 1
  {
  }

  lemma DigitAdd(d: nat, c: nat)
    requires d < 10 && (c == 1 || c == 2 || c == 5)
    ensures d + c < 10 ==> Digit(d + c) <= Digit(d) + 1
    ensures d + c >= 10 ==> Digit(d + c - 10) <= Digit(d)
  {
  }

  lemma Digits(q: nat, c: nat)
    requires c < 10
    ensures q % 10 + c < 10 ==> (q + c) % 10 == q % 10 + c && (q + c) / 10 == q / 10
    ensures q % 10 + c >= 10 ==> (q + c) % 10 == q % 10 + c - 10 && (q + c) / 10 == q / 10 + 1
  {
  }

  lemma TensAdd(q: nat, c: nat)
    requires c == 1 || c == 2 || c == 5 || c == 10 || c == 20
    ensures Tens(q + c) <= Tens(q) + 1
  {
    hide Digit, Pairs;
    PairsAdd(q / 10);
    if c < 10 {
      Digits(q, c);
      DigitAdd(q % 10, c);
    }
  }

  /** One coin more changes the least number by at most one. */
  lemma LeastAdd(q: nat, k: nat)
    requires k < |COINS|
    ensures Least(q + COINS[k]) <= Least(q) + 1
  {
    hide Digit, Tens;
    var c := COINS[k];
    if c < 10 {
      Digits(q, c);
      DigitAdd(q % 10, c);
      TensAdd(q / 10, 1);
    } else {
      assert (q + c) % 10 == q % 10 && (q + c) / 10 == q / 10 + c / 10;
      TensAdd(q / 10, c / 10);
    }
  }

  /** Taking a coin of kind `j` away. */
  lemma {:induction false} OneLess(counts: seq<nat>, j: nat, k: nat)
    requires |counts| == |COINS| && j < |COINS| && counts[j] > 0 && k <= |COINS|
    ensures var fewer := counts[j := counts[j] - 1];
            && Number(fewer, k) == Number(counts, k) - (if j < k then 1 else 0)
            && Worth(fewer, k) == Worth(counts, k) - (if j < k then COINS[j] else 0)
  {
    hide Value;
    if k > 0 {
      OneLess(counts, j, k - 1);
      if j == k - 1 {
        ValueLess(counts[j], j);
      }
    }
  }

  lemma ValueLess(count: nat, j: nat)
    requires j < |COINS| && count > 0
    ensures Value(count - 1, j) == Value(count, j) - COINS[j]
  {
    var c := COINS[j];
    assert (count - 1) * c == count * c - c;
  }

  lemma {:induction false} NoCoin(counts: seq<nat>, k: nat)
    requires |counts| == |COINS| && k <= |COINS| && Number(counts, k) == 0
    ensures Worth(counts, k) == 0
  {
    if k > 0 {
      NoCoin(counts, k - 1);
    }
  }

  lemma {:induction false} SomeCoin(counts: seq<nat>, k: nat) returns (j: nat)
    requires |counts| == |COINS| && k <= |COINS| && Number(counts, k) > 0
    ensures j < k && counts[j] > 0
  {
    if counts[k - 1] > 0 {
      j := k - 1;
    } else {
      j := SomeCoin(counts, k - 1);
    }
  }

  /** No coins of this worth are fewer. */
  lemma {:induction false} LeastBound(counts: seq<nat>)
    requires |counts| == |COINS|
    ensures Number(counts, |COINS|) >= Least(Worth(counts, |COINS|))
    decreases Number(counts, |COINS|)
  {
    hide Least, Worth, Number;
    if Number(counts, |COINS|) == 0 {
      NoCoin(counts, |COINS|);
      LeastZero(Worth(counts, |COINS|));
    } else {
      var j := SomeCoin(counts, |COINS|);
      OneLess(counts, j, |COINS|);
      LeastBound(counts[j := counts[j] - 1]);
      LeastAdd(Worth(counts, |COINS|) - COINS[j], j);
    }
  }

  lemma LeastZero(q: nat)
    requires q == 0
    ensures Least(q) == 0
  {
    hide Digit, Tens;
    TensZero(q / 10);
    DigitZero(q % 10);
  }

  lemma TensZero(q: nat)
    requires q == 0
    ensures Tens(q) == 0
  {
    hide Digit, Pairs;
    DigitZero(q % 10);
    PairsZero(q / 10);
  }

  lemma DigitZero(d: nat)
    requires d == 0
    ensures Digit(d) == 0
  {
  }

  lemma PairsZero(h: nat)
    requires h == 0
    ensures Pairs(h) == 0
  {
  }

  // ----- The greedy choice -----

  /** What is left when the coins from kind `i` on have been handed out. */
  function Rest(q: nat, i: nat): (r: nat)
    requires i <= |COINS|
    ensures i < |COINS| ==> r < COINS[i]
    decreases |COINS| - i
  {
    if i == |COINS| then q else Rest(q, i + 1) % COINS[i]
  }

  function Given(q: nat, i: nat): nat
    requires i < |COINS|
  {
    Rest(q, i + 1) / COINS[i]
  }

  /** The hundreds. */
  lemma RestHundreds(q: nat, h: nat, r: nat)
    requires q == 100 * h + r && r < 100
    ensures Given(q, 7) + Given(q, 6) == Pairs(h) && Rest(q, 6) == r
  {
    assert Rest(q, 8) == q && Rest(q, 7) == q % 200;
    assert q / 200 == h / 2 && q % 200 == 100 * (h % 2) + r;
  }

  /** Three kinds of coin for one digit. */
  lemma DigitGiven(d: nat, r: nat, unit: nat)
    requires d < 10 && r < unit && (unit == 1 || unit == 10)
    ensures var n := d * unit + r;
            && n / (5 * unit) + n % (5 * unit) / (2 * unit) + n % (5 * unit) % (2 * unit) / unit == Digit(d)
            && n % (5 * unit) % (2 * unit) % unit == r
  {
    if unit == 1 {
      assert r == 0;
    } else {
      var n := d * 10 + r;
      assert n / 50 == d / 5 && n % 50 == d % 5 * 10 + r;
      var m := d % 5;
      assert (m * 10 + r) / 20 == m / 2 && (m * 10 + r) % 20 == m % 2 * 10 + r;
    }
  }

  /** Greedy change uses the least number of coins. */
  lemma GreedyIsLeast(q: nat)
    ensures Given(q, 0) + Given(q, 1) + Given(q, 2) + Given(q, 3)
            + Given(q, 4) + Given(q, 5) + Given(q, 6) + Given(q, 7) == Least(q)
    ensures Rest(q, 0) == 0
  {
    hide Rest, Given, Digit, Pairs, Least;
    var h, t, u := q / 100, q / 10 % 10, q % 10;
    Decimal(q);
    LeastIs(q, h, t, u);
    RestHundreds(q, h, 10 * t + u);
    RestTens(q, t, u);
    RestUnits(q, u);
  }

  lemma Decimal(q: nat)
    ensures q == 100 * (q / 100) + (10 * (q / 10 % 10) + q % 10)
    ensures q / 10 / 10 == q / 100
  {
  }

  lemma LeastIs(q: nat, h: nat, t: nat, u: nat)
    requires h == q / 100 && t == q / 10 % 10 && u == q % 10
    ensures Least(q) == Digit(u) + Digit(t) + Pairs(h)
  {
    hide Digit, Pairs;
    Decimal(q);
  }

  lemma RestTens(q: nat, t: nat, u: nat)
    requires Rest(q, 6) == 10 * t + u && t < 10 && u < 10
    ensures Given(q, 5) + Given(q, 4) + Given(q, 3) == Digit(t) && Rest(q, 3) == u
  {
    hide Digit;
    DigitGiven(t, u, 10);
    assert Rest(q, 5) == Rest(q, 6) % 50 && Rest(q, 4) == Rest(q, 5) % 20 && Rest(q, 3) == Rest(q, 4) % 10;
  }

  lemma RestUnits(q: nat, u: nat)
    requires Rest(q, 3) == u && u < 10
    ensures Given(q, 2) + Given(q, 1) + Given(q, 0) == Digit(u) && Rest(q, 0) == 0
  {
    hide Digit;
    DigitGiven(u, 0, 1);
    assert Rest(q, 2) == Rest(q, 3) % 5 && Rest(q, 1) == Rest(q, 2) % 2 && Rest(q, 0) == Rest(q, 1) % 1;
  }

  // ----- The program -----

  lemma RestStep(q: nat, k: nat)
    requires k < |COINS|
    ensures Given(q, k) * COINS[k] + Rest(q, k) == Rest(q, k + 1)
    ensures Rest(q, k + 1) < COINS[k] ==> Given(q, k) == 0 && Rest(q, k) == Rest(q, k + 1)
  {
    Euclid(Rest(q, k + 1), COINS[k]);
  }

  lemma GivenIs(q: nat, k: nat)
    requires k < |COINS|
    ensures Given(q, k) == Rest(q, k + 1) / COINS[k]
  {
  }

  lemma Euclid(a: nat, b: nat)
    requires b > 0
    ensures (a / b) * b + a % b == a
    ensures a < b ==> a / b == 0 && a % b == a
  {
  }

  lemma {:induction false} WorthFrom(q: nat, counts: seq<nat>, k: nat)
    requires |counts| == |COINS| && k <= |COINS| && forall j :: 0 <= j < |COINS| ==> counts[j] == Given(q, j)
    ensures Worth(counts, k) + Rest(q, 0) == Rest(q, k)
  {
    hide Rest, Given;
    if k > 0 {
      WorthFrom(q, counts, k - 1);
      RestStep(q, k - 1);
    }
  }

  lemma Handed(q: nat, counts: seq<nat>)
    requires |counts| == |COINS| && forall j :: 0 <= j < |COINS| ==> counts[j] == Given(q, j)
    ensures Worth(counts, |COINS|) == q && Number(counts, |COINS|) == Least(q)
  {
    hide Given, Least, Worth, Number, Rest;
    GreedyIsLeast(q);
    WorthFrom(q, counts, |COINS|);
    AllKinds(counts);
    NothingGiven(q);
  }

  lemma NothingGiven(q: nat)
    ensures Rest(q, |COINS|) == q
  {
  }

  lemma AllKinds(counts: seq<nat>)
    requires |counts| == 8
    ensures Number(counts, 8) == counts[0] + counts[1] + counts[2] + counts[3]
                                 + counts[4] + counts[5] + counts[6] + counts[7]
  {
    assert Number(counts, 1) == counts[0];
    assert Number(counts, 3) == Number(counts, 1) + counts[1] + counts[2];
    assert Number(counts, 5) == Number(counts, 3) + counts[3] + counts[4];
    assert Number(counts, 7) == Number(counts, 5) + counts[5] + counts[6];
  }

  /** The coins handed out are worth the quantity, and no others of that worth are fewer. */
  method Give(quantity: nat) returns (numbers: array<nat>)
    ensures fresh(numbers) && numbers.Length == |COINS|
    ensures Worth(numbers[..], |COINS|) == quantity
    ensures forall counts: seq<nat> :: |counts| == |COINS| && Worth(counts, |COINS|) == quantity ==>
              Number(numbers[..], |COINS|) <= Number(counts, |COINS|)
  {
    hide Rest, Given, Worth, Number, Least;
    numbers := new nat[|COINS|](_ => 0);
    var left: nat := quantity;
    var i: nat := |COINS|;
    NothingGiven(quantity);
    while i > 0
      invariant i <= |COINS| && left == Rest(quantity, i)
      invariant forall j :: i <= j < |COINS| ==> numbers[j] == Given(quantity, j)
      invariant forall j :: 0 <= j < i ==> numbers[j] == 0
    {
      i := i - 1;
      RestStep(quantity, i);
      GivenIs(quantity, i);
      if left >= COINS[i] {
        numbers[i] := left / COINS[i];
        left := left - numbers[i] * COINS[i];
      }
    }
    Handed(quantity, numbers[..]);
    forall counts: seq<nat> | |counts| == |COINS| && Worth(counts, |COINS|) == quantity
      ensures Number(numbers[..], |COINS|) <= Number(counts, |COINS|)
    {
      LeastBound(counts);
    }
  }
}

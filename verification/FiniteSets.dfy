/** Finite sets of naturals, as the other modules count with them. */
module FiniteSets {

  /** The numbers 0 .. n-1. */
  ghost function UpTo(n: nat): (s: set<nat>)
    ensures forall p :: p in s <==> 0 <= p < n
    ensures |s| == n
  {
    if n == 0 then {} else UpTo(n - 1) + {n - 1}
  }

  lemma SubsetSize<T>(a: set<T>, b: set<T>)
    requires a <= b
    ensures |a| <= |b|
    ensures |a| == |b| ==> a == b
  {
    assert b == a + (b - a);
  }
}

/** `eda-2/src/c/disjoint-sets/lib/disjoint-sets.c`: disjoint sets as a forest of parent links in an
    array, with path compression. */
module DisjointSets {

  const DISJOINT_SETS_INITIAL_CAPACITY := 10

  // ----- The forest as a value -----

  /** The links go down in rank, so that they have no cycle. */
  ghost predicate Forest(parent: seq<nat>, rank: seq<nat>) {
    && |parent| == |rank|
    && forall x {:trigger parent[x]} :: 0 <= x < |parent| ==>
         parent[x] < |parent| && (parent[x] != x ==> rank[parent[x]] < rank[x])
  }

  ghost function Root(parent: seq<nat>, rank: seq<nat>, x: nat): (r: nat)
    requires Forest(parent, rank) && x < |parent|
    ensures r < |parent| && parent[r] == r && rank[r] <= rank[x] && (r != x ==> rank[r] < rank[x])
    decreases rank[x]
  {
    if parent[x] == x then x else Root(parent, rank, parent[x])
  }

  /** `y` is met on the way from `x` to its root. */
  ghost predicate OnPath(parent: seq<nat>, rank: seq<nat>, x: nat, y: nat)
    requires Forest(parent, rank) && x < |parent|
    decreases rank[x]
  {
    y == x || (parent[x] != x && OnPath(parent, rank, parent[x], y))
  }

  /** All that is met on the way is linked to the root at once, and nothing else is changed. */
  ghost predicate Compressed(parent: seq<nat>, parent': seq<nat>, rank: seq<nat>, x: nat)
    requires Forest(parent, rank) && x < |parent|
  {
    && |parent'| == |parent|
    && forall y: nat {:trigger parent'[y]} :: y < |parent| ==>
         parent'[y] == if OnPath(parent, rank, x, y) then Root(parent, rank, x) else parent[y]
  }

  lemma CompressedNow(parent: seq<nat>, rank: seq<nat>, x: nat)
    requires Forest(parent, rank) && x < |parent| && parent[x] == x
    ensures Compressed(parent, parent, rank, x)
  {
  }

  lemma CompressedMore(parent: seq<nat>, parent': seq<nat>, rank: seq<nat>, x: nat)
    requires Forest(parent, rank) && x < |parent| && parent[x] != x && Compressed(parent, parent', rank, parent[x])
    ensures Compressed(parent, parent'[x := Root(parent, rank, x)], rank, x)
  {
    hide Root;
    RootOfParent(parent, rank, x);
    forall y: nat {:trigger OnPath(parent, rank, x, y)} | y < |parent|
      ensures OnPath(parent, rank, x, y) <==> y == x || OnPath(parent, rank, parent[x], y)
    {
    }
  }

  lemma RootOfParent(parent: seq<nat>, rank: seq<nat>, x: nat)
    requires Forest(parent, rank) && x < |parent|
    ensures Root(parent, rank, parent[x]) == Root(parent, rank, x)
  {
  }

  /** The root depends on the links alone. */
  lemma {:induction false} RootUnique(parent: seq<nat>, rank: seq<nat>, rank': seq<nat>, x: nat)
    requires Forest(parent, rank) && Forest(parent, rank') && x < |parent|
    ensures Root(parent, rank, x) == Root(parent, rank', x)
    decreases rank[x]
  {
    if parent[x] != x {
      RootUnique(parent, rank, rank', parent[x]);
    }
  }

  ghost predicate SameRoots(parent: seq<nat>, parent': seq<nat>, rank: seq<nat>) {
    && Forest(parent, rank) && Forest(parent', rank)
    && forall x {:trigger Root(parent', rank, x)} :: 0 <= x < |parent| ==> Root(parent', rank, x) == Root(parent, rank, x)
  }

  lemma {:induction false} CompressOne(parent: seq<nat>, rank: seq<nat>, x: nat, y: nat)
    requires Forest(parent, rank) && x < |parent| && y < |parent|
    ensures var parent' := parent[x := Root(parent, rank, x)];
            Forest(parent', rank) && Root(parent', rank, y) == Root(parent, rank, y)
    decreases rank[y]
  {
    var parent' := parent[x := Root(parent, rank, x)];
    if y != x && parent[y] != y {
      CompressOne(parent, rank, x, parent[y]);
    }
  }

  /** Path compression changes nobody's root. */
  lemma Compress(parent: seq<nat>, rank: seq<nat>, x: nat)
    requires Forest(parent, rank) && x < |parent|
    ensures SameRoots(parent, parent[x := Root(parent, rank, x)], rank)
  {
    forall y: nat | y < |parent|
      ensures var parent' := parent[x := Root(parent, rank, x)];
              Forest(parent', rank) && Root(parent', rank, y) == Root(parent, rank, y)
    {
      CompressOne(parent, rank, x, y);
    }
  }

  /** Ranks after root `a` has been hung under root `b`: the first tree is lifted above `b`. */
  ghost function Lifted(parent: seq<nat>, rank: seq<nat>, a: nat, b: nat): (r: seq<nat>)
    requires Forest(parent, rank) && a < |parent| && b < |parent|
    ensures |r| == |rank|
  {
    seq(|rank|, x requires 0 <= x < |rank| =>
      if Root(parent, rank, x) == a then rank[x] + rank[b] + 1 else rank[x])
  }

  lemma HangForest(parent: seq<nat>, rank: seq<nat>, a: nat, b: nat)
    requires Forest(parent, rank) && a < |parent| && b < |parent| && a != b && parent[a] == a && parent[b] == b
    ensures Forest(parent[a := b], Lifted(parent, rank, a, b))
  {
  }

  lemma {:induction false} HangRoot(parent: seq<nat>, rank: seq<nat>, a: nat, b: nat, rank': seq<nat>, x: nat)
    requires Forest(parent, rank) && a < |parent| && b < |parent| && a != b && parent[a] == a && parent[b] == b
    requires Forest(parent[a := b], rank') && x < |parent|
    ensures Root(parent[a := b], rank', x) == if Root(parent, rank, x) == a then b else Root(parent, rank, x)
    decreases rank[x]
  {
    if parent[x] != x {
      HangRoot(parent, rank, a, b, rank', parent[x]);
    }
  }

  // ----- The equivalence closure of the joins -----

  /** Consecutive elements have been joined, in one order or the other. */
  ghost predicate Path(joins: set<(nat, nat)>, path: seq<nat>) {
    |path| > 0 && forall i {:trigger path[i]} :: 0 < i < |path| ==>
        (path[i - 1], path[i]) in joins || (path[i], path[i - 1]) in joins
  }

  ghost predicate Joins(joins: set<(nat, nat)>, path: seq<nat>, a: nat, b: nat) {
    Path(joins, path) && path[0] == a && path[|path| - 1] == b
  }

  /** The least equivalence relation that contains the joins. */
  ghost predicate Equivalent(joins: set<(nat, nat)>, a: nat, b: nat) {
    exists path :: Joins(joins, path, a, b)
  }

  lemma Reflexive(joins: set<(nat, nat)>, a: nat)
    ensures Equivalent(joins, a, a)
  {
    assert Joins(joins, [a], a, a);
  }

  lemma Transitive(joins: set<(nat, nat)>, a: nat, b: nat, c: nat)
    requires Equivalent(joins, a, b) && Equivalent(joins, b, c)
    ensures Equivalent(joins, a, c)
  {
    var p :| Joins(joins, p, a, b);
    var q :| Joins(joins, q, b, c);
    var path := p + q[1..];
    forall i {:trigger path[i]} | 0 < i < |path|
      ensures (path[i - 1], path[i]) in joins || (path[i], path[i - 1]) in joins
    {
      if i < |p| {
        assert path[i] == p[i] && path[i - 1] == p[i - 1];
      } else {
        assert path[i] == q[i - |p| + 1] && path[i - 1] == q[i - |p|];
      }
    }
    assert Joins(joins, path, a, c);
  }

  lemma {:induction false} Symmetric(joins: set<(nat, nat)>, a: nat, b: nat)
    requires Equivalent(joins, a, b)
    ensures Equivalent(joins, b, a)
  {
    var p :| Joins(joins, p, a, b);
    SymmetricPath(joins, p);
  }

  lemma {:induction false} SymmetricPath(joins: set<(nat, nat)>, p: seq<nat>)
    requires Path(joins, p)
    ensures Equivalent(joins, p[|p| - 1], p[0])
  {
    if |p| == 1 {
      Reflexive(joins, p[0]);
    } else {
      var k := |p| - 1;
      assert p[k] == p[k];
      assert forall i {:trigger p[..k][i]} :: 0 <= i < k ==> p[..k][i] == p[i];
      SymmetricPath(joins, p[..k]);
      assert Joins(joins, [p[k], p[k - 1]], p[k], p[k - 1]);
      Transitive(joins, p[k], p[k - 1], p[0]);
    }
  }

  lemma MoreJoins(joins: set<(nat, nat)>, joins': set<(nat, nat)>, a: nat, b: nat)
    requires Equivalent(joins, a, b) && joins <= joins'
    ensures Equivalent(joins', a, b)
  {
    var p :| Joins(joins, p, a, b);
    assert Joins(joins', p, a, b);
  }

  /** Along a path no class is left: any function constant on the joins is constant on the path. */
  lemma {:induction false} PathConstant(joins: set<(nat, nat)>, path: seq<nat>, f: nat -> nat)
    requires Path(joins, path)
    requires forall x, y {:trigger (x, y) in joins} :: (x, y) in joins ==> f(x) == f(y)
    ensures f(path[0]) == f(path[|path| - 1])
  {
    if |path| > 1 {
      var k := |path| - 1;
      assert path[k] == path[k];
      assert forall i {:trigger path[..k][i]} :: 0 <= i < k ==> path[..k][i] == path[i];
      PathConstant(joins, path[..k], f);
    }
  }

  /** Two elements have the same root exactly if the joins make them equivalent. */
  ghost predicate Represents(parent: seq<nat>, rank: seq<nat>, joins: set<(nat, nat)>) {
    && Forest(parent, rank)
    && (forall x, y {:trigger (x, y) in joins} :: (x, y) in joins ==>
          x < |parent| && y < |parent| && Root(parent, rank, x) == Root(parent, rank, y))
    && (forall x {:trigger Root(parent, rank, x)} :: 0 <= x < |parent| ==> Equivalent(joins, x, Root(parent, rank, x)))
  }

  lemma SameSetExact(parent: seq<nat>, rank: seq<nat>, joins: set<(nat, nat)>, a: nat, b: nat)
    requires Represents(parent, rank, joins) && a < |parent| && b < |parent|
    ensures Root(parent, rank, a) == Root(parent, rank, b) <==> Equivalent(joins, a, b)
  {
    hide Equivalent;
    if Root(parent, rank, a) == Root(parent, rank, b) {
      Symmetric(joins, b, Root(parent, rank, b));
      Transitive(joins, a, Root(parent, rank, a), b);
    }
    if Equivalent(joins, a, b) {
      EquivalentRoots(parent, rank, joins, a, b);
    }
  }

  lemma EquivalentRoots(parent: seq<nat>, rank: seq<nat>, joins: set<(nat, nat)>, a: nat, b: nat)
    requires Represents(parent, rank, joins) && a < |parent| && b < |parent| && Equivalent(joins, a, b)
    ensures Root(parent, rank, a) == Root(parent, rank, b)
  {
    var path :| Joins(joins, path, a, b);
    PathConstant(joins, path, (x: nat) => if x < |parent| then Root(parent, rank, x) else 0);
  }

  lemma AfterCompression(parent: seq<nat>, parent': seq<nat>, rank: seq<nat>, joins: set<(nat, nat)>)
    requires Represents(parent, rank, joins) && SameRoots(parent, parent', rank)
    ensures Represents(parent', rank, joins)
  {
    hide Equivalent;
  }

  /** The root that everything under the root of `a` has after `a` has been joined to `b`. */
  ghost function RootAfterJoin(parent: seq<nat>, rank: seq<nat>, a: nat, b: nat, x: nat): nat
    requires Forest(parent, rank) && a < |parent| && b < |parent| && x < |parent|
  {
    if Root(parent, rank, x) == Root(parent, rank, a) then Root(parent, rank, b) else Root(parent, rank, x)
  }

  lemma AfterJoin(parent: seq<nat>, rank: seq<nat>, joins: set<(nat, nat)>, a: nat, b: nat) returns (rank': seq<nat>)
    requires Represents(parent, rank, joins) && a < |parent| && b < |parent|
    ensures Represents(parent[Root(parent, rank, a) := Root(parent, rank, b)], rank', joins + {(a, b)})
    ensures forall x: nat {:trigger Root(parent[Root(parent, rank, a) := Root(parent, rank, b)], rank', x)} ::
              x < |parent| ==> Root(parent[Root(parent, rank, a) := Root(parent, rank, b)], rank', x) ==
                               RootAfterJoin(parent, rank, a, b, x)
  {
    hide Equivalent, Root;
    var ra, rb := Root(parent, rank, a), Root(parent, rank, b);
    var parent' := parent[ra := rb];
    if ra == rb {
      rank' := rank;
      assert parent' == parent;
    } else {
      rank' := Lifted(parent, rank, ra, rb);
      HangForest(parent, rank, ra, rb);
    }
    forall x: nat | x < |parent|
      ensures Root(parent', rank', x) == RootAfterJoin(parent, rank, a, b, x)
    {
      if ra != rb {
        HangRoot(parent, rank, ra, rb, rank', x);
      }
    }
    JoinedRoots(parent, rank, joins, a, b, parent', rank');
  }

  lemma JoinedRoots(parent: seq<nat>, rank: seq<nat>, joins: set<(nat, nat)>, a: nat, b: nat,
                    parent': seq<nat>, rank': seq<nat>)
    requires Represents(parent, rank, joins) && a < |parent| && b < |parent|
    requires Forest(parent', rank') && |parent'| == |parent|
    requires forall x: nat {:trigger Root(parent', rank', x)} :: x < |parent| ==>
        Root(parent', rank', x) == RootAfterJoin(parent, rank, a, b, x)
    ensures Represents(parent', rank', joins + {(a, b)})
  {
    hide Equivalent, Root, Forest;
    var ra, rb := Root(parent, rank, a), Root(parent, rank, b);
    forall x: nat {:trigger Root(parent', rank', x)} | x < |parent|
      ensures Equivalent(joins + {(a, b)}, x, Root(parent', rank', x))
    {
      JoinedRoot(joins, a, b, ra, rb, x, Root(parent, rank, x));
    }
  }

  lemma JoinedRoot(joins: set<(nat, nat)>, a: nat, b: nat, ra: nat, rb: nat, x: nat, r: nat)
    requires Equivalent(joins, a, ra) && Equivalent(joins, b, rb) && Equivalent(joins, x, r)
    ensures Equivalent(joins + {(a, b)}, x, if r == ra then rb else r)
  {
    hide Equivalent;
    var joins' := joins + {(a, b)};
    MoreJoins(joins, joins', x, r);
    if r == ra {
      Across(joins, joins', a, b, ra, rb);
      Transitive(joins', x, ra, rb);
    }
  }

  lemma Across(joins: set<(nat, nat)>, joins': set<(nat, nat)>, a: nat, b: nat, ra: nat, rb: nat)
    requires joins' == joins + {(a, b)} && Equivalent(joins, a, ra) && Equivalent(joins, b, rb)
    ensures Equivalent(joins', ra, rb)
  {
    MoreJoins(joins, joins', a, ra);
    MoreJoins(joins, joins', b, rb);
    Symmetric(joins', a, ra);
    assert Joins(joins', [a, b], a, b);
    Transitive(joins', ra, a, b);
    Transitive(joins', ra, b, rb);
  }

  lemma {:induction false} NewRoot(parent: seq<nat>, rank: seq<nat>, x: nat)
    requires Forest(parent, rank) && x < |parent|
    ensures Forest(parent + [|parent|], rank + [0])
    ensures Root(parent + [|parent|], rank + [0], x) == Root(parent, rank, x)
    decreases rank[x]
  {
    if parent[x] != x {
      NewRoot(parent, rank, parent[x]);
    }
  }

  lemma AfterAdd(parent: seq<nat>, rank: seq<nat>, joins: set<(nat, nat)>)
    requires Represents(parent, rank, joins)
    ensures Represents(parent + [|parent|], rank + [0], joins)
    ensures forall x: nat {:trigger Root(parent + [|parent|], rank + [0], x)} :: x <= |parent| ==>
              Root(parent + [|parent|], rank + [0], x) == if x < |parent| then Root(parent, rank, x) else x
  {
    hide Equivalent, Root;
    var n, parent', rank' := |parent|, parent + [|parent|], rank + [0];
    OwnRoot(parent, rank);
    forall x: nat {:trigger Root(parent', rank', x)} | x <= n
      ensures Root(parent', rank', x) == if x < n then Root(parent, rank, x) else n
    {
      if x < n {
        NewRoot(parent, rank, x);
      }
    }
    Reflexive(joins, n);
    assert Represents(parent', rank', joins);
  }

  lemma OwnRoot(parent: seq<nat>, rank: seq<nat>)
    requires Forest(parent, rank)
    ensures Forest(parent + [|parent|], rank + [0])
    ensures Root(parent + [|parent|], rank + [0], |parent|) == |parent|
  {
  }

  // ----- The program -----

  class Sets {
    var sets: array<nat>            // its length is the capacity
    var size: nat
    ghost var rank: seq<nat>
    ghost var joins: set<(nat, nat)>

    ghost predicate Valid()
      reads this, sets
    {
      size <= sets.Length && Represents(sets[..size], rank, joins)
    }

    constructor (capacity: nat)
      ensures Valid() && size == 0 && joins == {} && fresh(sets)
    {
      sets := new nat[capacity];
      size, rank, joins := 0, [], {};
      new;
      assert sets[..0] == [];
    }

    /** `size` elements, each in a set of its own. */
    constructor WithSize(size: nat)
      ensures Valid() && this.size == size && joins == {} && fresh(sets)
      ensures forall x: nat {:trigger RootNow(x)} :: x < size ==> RootNow(x) == x
    {
      sets := new nat[size](i => i);
      this.size, rank, joins := size, seq(size, _ => 0), {};
      new;
      Singletons(sets[..size], rank);
    }

    method Grow()
      requires Valid()
      modifies this`sets
      ensures fresh(sets) && size < sets.Length
      ensures sets.Length == if old(sets.Length) == 0 then DISJOINT_SETS_INITIAL_CAPACITY else 2 * old(sets.Length)
      ensures sets[..size] == old(sets[..size])
    {
      var target := if sets.Length == 0 then DISJOINT_SETS_INITIAL_CAPACITY else sets.Length * 2;
      var bigger := new nat[target];
      var i := 0;
      while i < sets.Length
        invariant i <= sets.Length
        invariant forall j :: 0 <= j < i ==> bigger[j] == sets[j]
        modifies bigger
      {
        bigger[i] := sets[i];
        i := i + 1;
      }
      sets := bigger;
    }

    /** The root of an element, as the links stand. */
    ghost function RootNow(x: nat): nat
      requires Valid() && x < size
      reads this, sets
    {
      Root(sets[..size], rank, x)
    }

    /** A new element, in a set of its own; all others keep their roots. */
    method AddSet() returns (s: nat)
      requires Valid()
      modifies this, sets
      ensures Valid() && (sets == old(sets) || fresh(sets))
      ensures s == old(size) && size == old(size) + 1 && joins == old(joins)
      ensures RootNow(s) == s && forall x: nat {:trigger RootNow(x)} :: x < old(size) ==> RootNow(x) == old(RootNow(x))
    {
      AfterAdd(sets[..size], rank, joins);
      ghost var parent := sets[..size];
      if size == sets.Length {
        Grow();
      }
      sets[size] := size;
      size := size + 1;
      rank := rank + [0];
      assert sets[..size] == parent + [|parent|];
      return size - 1;
    }

    /** The root, with path compression. */
    method RootOf(x: nat) returns (r: nat)
      requires Valid() && x < size
      modifies sets
      ensures Valid() && SameRoots(old(sets[..size]), sets[..size], rank)
      ensures r == Root(sets[..size], rank, x) && sets[x] == r
      ensures Compressed(old(sets[..size]), sets[..size], rank, x)
      decreases rank[x]
    {
      hide Represents, Equivalent, Compressed;
      IsForest(sets[..size], rank, joins);
      ghost var parent := sets[..size];
      if sets[x] == x {
        CompressedNow(parent, rank, x);
        return x;
      }
      r := RootOf(sets[x]);
      ghost var parent1 := sets[..size];
      IsForest(parent1, rank, joins);
      FollowLink(parent, parent1, rank, x);
      Compress(parent1, rank, x);
      CompressedMore(parent, parent1, rank, x);
      sets[x] := r;
      assert sets[..size] == parent1[x := r];
      AfterCompression(parent1, sets[..size], rank, joins);
      assert Root(sets[..size], rank, x) == Root(parent1, rank, x);
      return sets[x];
    }

    /** The sets of the two elements become one, under the root of the second. */
    method Join(a: nat, b: nat)
      requires Valid() && a < size && b < size
      modifies this`rank, this`joins, sets
      ensures Valid() && joins == old(joins) + {(a, b)}
      ensures forall x: nat {:trigger RootNow(x)} :: x < size ==>
                RootNow(x) == if old(RootNow(x)) == old(RootNow(a)) then old(RootNow(b)) else old(RootNow(x))
    {
      hide Represents, Equivalent;
      var ra := RootOf(a);
      ghost var parent := sets[..size];
      IsForest(parent, rank, joins);
      var rb := RootOf(b);
      IsForest(sets[..size], rank, joins);
      assert Root(sets[..size], rank, a) == Root(parent, rank, a);
      ghost var rank' := AfterJoin(sets[..size], rank, joins, a, b);
      parent := sets[..size];
      sets[ra] := rb;
      assert sets[..size] == parent[ra := rb];
      rank, joins := rank', joins + {(a, b)};
    }

    /** Whether the joins made so far connect the two elements. */
    method AreSameSet(a: nat, b: nat) returns (same: bool)
      requires Valid() && a < size && b < size
      modifies sets
      ensures Valid() && forall x: nat {:trigger RootNow(x)} :: x < size ==> RootNow(x) == old(RootNow(x))
      ensures same <==> Equivalent(joins, a, b)
    {
      hide Represents, Equivalent;
      var ra := RootOf(a);
      ghost var parent := sets[..size];
      IsForest(parent, rank, joins);
      var rb := RootOf(b);
      IsForest(sets[..size], rank, joins);
      assert Root(sets[..size], rank, a) == Root(parent, rank, a);
      SameSetExact(sets[..size], rank, joins, a, b);
      return ra == rb;
    }
  }

  lemma Singletons(parent: seq<nat>, rank: seq<nat>)
    requires |parent| == |rank| && forall x {:trigger parent[x]} :: 0 <= x < |parent| ==> parent[x] == x
    ensures Represents(parent, rank, {})
    ensures forall x: nat {:trigger Root(parent, rank, x)} :: x < |parent| ==> Root(parent, rank, x) == x
  {
    hide Equivalent;
    forall x: nat {:trigger Root(parent, rank, x)} | x < |parent|
      ensures Root(parent, rank, x) == x && Equivalent({}, x, x)
    {
      Reflexive({}, x);
    }
  }

  lemma IsForest(parent: seq<nat>, rank: seq<nat>, joins: set<(nat, nat)>)
    requires Represents(parent, rank, joins)
    ensures Forest(parent, rank)
  {
  }

  lemma FollowLink(parent: seq<nat>, parent': seq<nat>, rank: seq<nat>, x: nat)
    requires SameRoots(parent, parent', rank) && x < |parent| && parent[x] != x
    ensures Root(parent', rank, parent[x]) == Root(parent', rank, x)
  {
    assert Root(parent', rank, x) == Root(parent, rank, x);
    assert Root(parent', rank, parent[x]) == Root(parent, rank, parent[x]);
  }
}

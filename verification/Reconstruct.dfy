/** `eda-2/src/c/binary-tree/reconstruct.c`: a binary tree from its preorder and its inorder.

    A null pointer is `Null`; it stands both for an empty tree and for "not possible", as in the
    program.  `preorder` and `order` with a common length are two sequences of that length. */
module Reconstruct {
  import opened Options

  datatype Tree = Null | Node(value: char, left: Tree, right: Tree)

  function Preorder(t: Tree): seq<char> {
    match t
    case Null => []
    case Node(v, l, r) => [v] + Preorder(l) + Preorder(r)
  }

  function Inorder(t: Tree): seq<char> {
    match t
    case Null => []
    case Node(v, l, r) => Inorder(l) + [v] + Inorder(r)
  }

  /** `pre` and `ord` are the traversals of `t`. */
  predicate Traversed(t: Tree, pre: seq<char>, ord: seq<char>) {
    Preorder(t) == pre && Inorder(t) == ord
  }

  lemma {:induction false} Sizes(t: Tree)
    ensures |Preorder(t)| == |Inorder(t)|
    ensures t.Null? <==> Preorder(t) == []
  {
    if t.Node? {
      Sizes(t.left);
      Sizes(t.right);
    }
  }

  // ----- index_of -----

  /** The first place of `val` in `arr` from `from` on. */
  function Place(arr: seq<char>, val: char, from: nat): (r: Option<nat>)
    ensures r.Some? ==> from <= r.value < |arr| && arr[r.value] == val && val !in arr[from..r.value]
    ensures r.None? ==> forall i :: from <= i < |arr| ==> arr[i] != val
    decreases |arr| - from
  {
    if from >= |arr| then None
    else if arr[from] == val then Some(from)
    else Place(arr, val, from + 1)
  }

  method IndexOf(arr: seq<char>, val: char, from: nat) returns (r: Option<nat>)
    ensures r == Place(arr, val, from)
  {
    if |arr| < from {
      return None;
    }
    var i := 0;
    while i < |arr| - from
      invariant i <= |arr| - from
      invariant Place(arr, val, from) == Place(arr, val, from + i)
    {
      if arr[from + i] == val {
        return Some(i + from);
      }
      i := i + 1;
    }
    return None;
  }

  // ----- b_tree_reconstruct -----

  /** The easy version: it splits at the first place of the root and never looks further. */
  function Simple(pre: seq<char>, ord: seq<char>): Tree
    requires |pre| == |ord|
    decreases |ord|
  {
    if |ord| == 0 then Null
    else
      match Place(ord, pre[0], 0)
      case None => Null
      case Some(i) =>
        var left := Simple(pre[1..1 + i], ord[..i]);
        var right := Simple(pre[1 + i..], ord[1 + i..]);
        if Bad(i, |ord|, left, right) then Null else Node(pre[0], left, right)
  }

  /** A side should have nodes but has none. */
  predicate Bad(i: nat, length: nat, left: Tree, right: Tree) {
    (i != 0 && left.Null?) || (i != length - 1 && right.Null?)
  }

  // ----- b_tree_reconstruct_bulletproof -----

  /** What the backtracking version returns: the tree of the first split, from `from` on, that works
      on both sides. */
  function Search(pre: seq<char>, ord: seq<char>, from: nat): Tree
    requires |pre| == |ord| > 0
    decreases |ord|, |ord| - from
  {
    match Place(ord, pre[0], from)
    case None => Null
    case Some(i) =>
      var left := if i == 0 then Null else Search(pre[1..1 + i], ord[..i], 0);
      var right := if i == |ord| - 1 then Null else Search(pre[1 + i..], ord[1 + i..], 0);
      if Bad(i, |ord|, left, right) then Search(pre, ord, i + 1) else Node(pre[0], left, right)
  }

  function Found(pre: seq<char>, ord: seq<char>): Tree
    requires |pre| == |ord|
  {
    if |ord| == 0 then Null else Search(pre, ord, 0)
  }

  method Bulletproof(pre: seq<char>, ord: seq<char>) returns (t: Tree)
    requires |pre| == |ord|
    ensures t == Found(pre, ord)
    ensures t.Node? ==> Traversed(t, pre, ord)
    ensures t.Null? && |ord| > 0 ==> forall u :: !Traversed(u, pre, ord)
    ensures t.Node? ==> forall u :: Traversed(u, pre, ord) ==> NotAfter(t, u)
    decreases |ord|
  {
    hide Search, Place, Traversed, NotAfter;
    if |ord| == 0 {
      return Null;
    }
    SearchSound(pre, ord, 0);
    SearchComplete(pre, ord);
    var from := 0;
    while true
      invariant Search(pre, ord, from) == Search(pre, ord, 0)
      decreases |ord| - from
    {
      var place := IndexOf(ord, pre[0], from);
      if place.None? {
        SearchNone(pre, ord, from);
        return Null;
      }
      var i := place.value;
      PlaceIs(ord, pre[0], from, i);
      SearchAt(pre, ord, from, i);
      var left := Bulletproof(pre[1..1 + i], ord[..i]);
      var right := Bulletproof(pre[1 + i..], ord[1 + i..]);
      if (i != 0 && left.Null?) || (i != |ord| - 1 && right.Null?) {
        from := i + 1;
      } else {
        return Node(pre[0], left, right);
      }
    }
  }

  /** One turn of the retry loop. */
  lemma SearchAt(pre: seq<char>, ord: seq<char>, from: nat, i: nat)
    requires |pre| == |ord| > 0 && Place(ord, pre[0], from) == Some(i)
    ensures var left := if i == 0 then Null else Search(pre[1..1 + i], ord[..i], 0);
            var right := if i == |ord| - 1 then Null else Search(pre[1 + i..], ord[1 + i..], 0);
            Search(pre, ord, from) ==
            if Bad(i, |ord|, left, right) then Search(pre, ord, i + 1) else Node(pre[0], left, right)
  {
  }

  lemma SearchNone(pre: seq<char>, ord: seq<char>, from: nat)
    requires |pre| == |ord| > 0 && Place(ord, pre[0], from) == None
    ensures Search(pre, ord, from).Null?
  {
  }

  lemma PlaceIs(ord: seq<char>, val: char, from: nat, i: nat)
    requires Place(ord, val, from) == Some(i)
    ensures from <= i < |ord| && ord[i] == val
    ensures from == 0 ==> val !in ord[..i]
  {
    assert from == 0 ==> ord[from..i] == ord[..i];
  }

  /** Two subtrees and a root make a tree. */
  lemma Splice(pre: seq<char>, ord: seq<char>, i: nat, left: Tree, right: Tree)
    requires |pre| == |ord| && i < |ord| && ord[i] == pre[0] && !Bad(i, |ord|, left, right)
    requires left.Node? ==> Traversed(left, pre[1..1 + i], ord[..i])
    requires right.Node? ==> Traversed(right, pre[1 + i..], ord[1 + i..])
    requires left.Null? ==> i == 0
    requires right.Null? ==> i == |ord| - 1
    ensures Traversed(Node(pre[0], left, right), pre, ord)
    ensures Inorder(left) == ord[..i]
  {
    assert pre == [pre[0]] + pre[1..1 + i] + pre[1 + i..];
    assert ord == ord[..i] + [ord[i]] + ord[1 + i..];
  }

  /** Soundness: a tree that is returned has the traversals asked for. */
  lemma {:induction false} SearchSound(pre: seq<char>, ord: seq<char>, from: nat)
    requires |pre| == |ord| > 0
    ensures var t := Search(pre, ord, from); t.Node? ==> Traversed(t, pre, ord)
    decreases |ord|, |ord| - from
  {
    hide Search, Place, Traversed;
    var place := Place(ord, pre[0], from);
    if place.None? {
      SearchNone(pre, ord, from);
    } else {
      var i := place.value;
      PlaceIs(ord, pre[0], from, i);
      SearchAt(pre, ord, from, i);
      var left := if i == 0 then Null else Search(pre[1..1 + i], ord[..i], 0);
      var right := if i == |ord| - 1 then Null else Search(pre[1 + i..], ord[1 + i..], 0);
      if i != 0 {
        SearchSound(pre[1..1 + i], ord[..i], 0);
      }
      if i != |ord| - 1 {
        SearchSound(pre[1 + i..], ord[1 + i..], 0);
      }
      if Bad(i, |ord|, left, right) {
        SearchSound(pre, ord, i + 1);
      } else {
        Splice(pre, ord, i, left, right);
      }
    }
  }

  /** The root of `r` comes no later in the inorder than that of `t`, and if at the same place, this holds of
      the subtrees as well. */
  predicate NotAfter(r: Tree, t: Tree) {
    && (r.Null? <==> t.Null?)
    && (t.Node? ==>
          || |Inorder(r.left)| < |Inorder(t.left)|
          || (|Inorder(r.left)| == |Inorder(t.left)| && NotAfter(r.left, t.left) && NotAfter(r.right, t.right)))
  }

  /** Of two trees with the same traversals, each not after the other, neither is another. */
  lemma {:induction false} NotAfterUnique(r: Tree, t: Tree)
    requires NotAfter(r, t) && NotAfter(t, r) && Preorder(r) == Preorder(t) && Inorder(r) == Inorder(t)
    ensures r == t
  {
    if t.Node? {
      Halves(r, Preorder(t), Inorder(t));
      Halves(t, Preorder(t), Inorder(t));
      NotAfterUnique(r.left, t.left);
      NotAfterUnique(r.right, t.right);
    }
  }

  /** Where a split works, the tree found there has its root at the split. */
  lemma SplitPlace(pre: seq<char>, ord: seq<char>, i: nat)
    requires |pre| == |ord| && i < |ord|
    ensures var left := if i == 0 then Null else Search(pre[1..1 + i], ord[..i], 0);
            left.Node? || i == 0 ==> |Inorder(left)| == i
  {
    hide Search;
    if i != 0 {
      SearchSound(pre[1..1 + i], ord[..i], 0);
    }
  }

  lemma NotAfterNode(r: Tree, t: Tree)
    requires r.Node? && t.Node?
    requires |Inorder(r.left)| < |Inorder(t.left)| ||
             (|Inorder(r.left)| == |Inorder(t.left)| && NotAfter(r.left, t.left) && NotAfter(r.right, t.right))
    ensures NotAfter(r, t)
  {
  }

  lemma NotAfterNull(r: Tree, t: Tree)
    ensures NotAfter(r, t) ==> (r.Null? <==> t.Null?)
    ensures r.Null? && t.Null? ==> NotAfter(r, t)
  {
  }

  /** Completeness: if a tree with its root at place `k` of the inorder exists, then a search from
      `k` or before finds one, and the one found comes no later. */
  lemma {:induction false} SearchFinds(t: Tree, pre: seq<char>, ord: seq<char>, from: nat)
    requires |pre| == |ord| && t.Node? && Traversed(t, pre, ord) && from <= |Inorder(t.left)|
    ensures |ord| > 0 && Search(pre, ord, from).Node? && NotAfter(Search(pre, ord, from), t)
    decreases |ord|, |ord| - from
  {
    hide Search, Traversed, NotAfter, Inorder, Preorder;
    var k := |Inorder(t.left)|;
    Halves(t, pre, ord);
    var i := Place(ord, pre[0], from).value;
    SearchAt(pre, ord, from, i);
    SplitPlace(pre, ord, i);
    var left := if i == 0 then Null else Search(pre[1..1 + i], ord[..i], 0);
    var right := if i == |ord| - 1 then Null else Search(pre[1 + i..], ord[1 + i..], 0);
    if i < k {
      if Bad(i, |ord|, left, right) {
        SearchFinds(t, pre, ord, i + 1);
      } else {
        NotAfterNode(Node(pre[0], left, right), t);
      }
    } else {
      NoNull(t.left, pre[1..1 + k], ord[..k]);
      NoNull(t.right, pre[1 + k..], ord[1 + k..]);
      NotAfterNull(left, t.left);
      NotAfterNull(right, t.right);
      if k != 0 {
        SearchFinds(t.left, pre[1..1 + k], ord[..k], 0);
      }
      if k != |ord| - 1 {
        SearchFinds(t.right, pre[1 + k..], ord[1 + k..], 0);
      }
      NotAfterNode(Node(pre[0], left, right), t);
    }
  }

  lemma NoNull(t: Tree, pre: seq<char>, ord: seq<char>)
    requires Traversed(t, pre, ord)
    ensures t.Null? <==> ord == []
    ensures |pre| == |ord|
  {
    Sizes(t);
  }

  /** The root's place in the inorder splits both traversals into those of the subtrees. */
  lemma Halves(t: Tree, pre: seq<char>, ord: seq<char>)
    requires t.Node? && Traversed(t, pre, ord)
    ensures var k := |Inorder(t.left)|;
            && |pre| == |ord| && k < |ord| && pre[0] == t.value == ord[k]
            && Traversed(t.left, pre[1..1 + k], ord[..k])
            && Traversed(t.right, pre[1 + k..], ord[1 + k..])
  {
    Sizes(t);
    Sizes(t.left);
    Sizes(t.right);
  }

  lemma SearchComplete(pre: seq<char>, ord: seq<char>)
    requires |pre| == |ord| > 0
    ensures Search(pre, ord, 0).Null? ==> forall t :: !Traversed(t, pre, ord)
    ensures forall t :: Traversed(t, pre, ord) ==> NotAfter(Search(pre, ord, 0), t)
  {
    hide Search, Traversed;
    forall t | Traversed(t, pre, ord)
      ensures Search(pre, ord, 0).Node? && NotAfter(Search(pre, ord, 0), t)
    {
      NoNull(t, pre, ord);
      Sizes(t);
      SearchFinds(t, pre, ord, 0);
    }
  }

  // ----- The easy version, exactly -----

  /** No node's value occurs in its left subtree. */
  predicate LeftFresh(t: Tree) {
    t.Node? ==> t.value !in Inorder(t.left) && LeftFresh(t.left) && LeftFresh(t.right)
  }

  lemma {:induction false} SimpleSound(pre: seq<char>, ord: seq<char>)
    requires |pre| == |ord|
    ensures var t := Simple(pre, ord); t.Node? ==> Traversed(t, pre, ord) && LeftFresh(t)
    decreases |ord|
  {
    hide Simple, Place, LeftFresh, Traversed;
    if |ord| == 0 {
      SimpleEmpty(pre, ord);
    } else if Place(ord, pre[0], 0).None? {
      SimpleNone(pre, ord);
    } else {
      var i := Place(ord, pre[0], 0).value;
      PlaceIs(ord, pre[0], 0, i);
      SimpleAt(pre, ord, i);
      var left, right := Simple(pre[1..1 + i], ord[..i]), Simple(pre[1 + i..], ord[1 + i..]);
      if !Bad(i, |ord|, left, right) {
        SimpleSound(pre[1..1 + i], ord[..i]);
        SimpleSound(pre[1 + i..], ord[1 + i..]);
        NullOrFresh(left);
        NullOrFresh(right);
        Splice(pre, ord, i, left, right);
        FreshNode(pre[0], left, right);
      }
    }
  }

  lemma SimpleNone(pre: seq<char>, ord: seq<char>)
    requires |pre| == |ord| > 0 && Place(ord, pre[0], 0) == None
    ensures Simple(pre, ord).Null?
  {
  }

  lemma NullOrFresh(t: Tree)
    ensures t.Null? ==> LeftFresh(t)
  {
  }

  lemma FreshNode(v: char, left: Tree, right: Tree)
    requires v !in Inorder(left) && LeftFresh(left) && LeftFresh(right)
    ensures LeftFresh(Node(v, left, right))
  {
  }

  lemma SimpleAt(pre: seq<char>, ord: seq<char>, i: nat)
    requires |pre| == |ord| > 0 && Place(ord, pre[0], 0) == Some(i)
    ensures var left, right := Simple(pre[1..1 + i], ord[..i]), Simple(pre[1 + i..], ord[1 + i..]);
            Simple(pre, ord) == if Bad(i, |ord|, left, right) then Null else Node(pre[0], left, right)
  {
  }

  lemma FreshPlace(t: Tree, pre: seq<char>, ord: seq<char>)
    requires t.Node? && Traversed(t, pre, ord) && LeftFresh(t)
    ensures |pre| > 0 && Place(ord, pre[0], 0) == Some(|Inorder(t.left)|)
  {
    hide Preorder, LeftFresh;
    Halves(t, pre, ord);
    FreshRoot(t);
    var k := |Inorder(t.left)|;
    var r := Place(ord, pre[0], 0);
    assert forall i :: 0 <= i < k ==> ord[i] == Inorder(t.left)[i] != t.value;
  }

  lemma FreshRoot(t: Tree)
    requires t.Node? && LeftFresh(t)
    ensures t.value !in Inorder(t.left) && LeftFresh(t.left) && LeftFresh(t.right)
  {
  }

  lemma {:induction false} SimpleComplete(t: Tree, pre: seq<char>, ord: seq<char>)
    requires |pre| == |ord| && Traversed(t, pre, ord) && LeftFresh(t)
    ensures Simple(pre, ord) == t
    decreases t
  {
    hide Simple, Traversed, LeftFresh, Place, Preorder, Inorder;
    NoNull(t, pre, ord);
    if t.Node? {
      Halves(t, pre, ord);
      FreshPlace(t, pre, ord);
      FreshRoot(t);
      var k := |Inorder(t.left)|;
      SimpleComplete(t.left, pre[1..1 + k], ord[..k]);
      SimpleComplete(t.right, pre[1 + k..], ord[1 + k..]);
      NoNull(t.left, pre[1..1 + k], ord[..k]);
      NoNull(t.right, pre[1 + k..], ord[1 + k..]);
      SimpleAt(pre, ord, k);
    } else {
      SimpleEmpty(pre, ord);
    }
  }

  lemma SimpleEmpty(pre: seq<char>, ord: seq<char>)
    requires |pre| == |ord| == 0
    ensures Simple(pre, ord).Null?
  {
  }

  /** The easy version returns a tree exactly when the traversals are those of a tree in which no value
      occurs again in the left subtree under it, and then it returns that tree. */
  lemma SimpleExact(pre: seq<char>, ord: seq<char>, t: Tree)
    requires |pre| == |ord| && t.Node?
    ensures Simple(pre, ord) == t <==> Traversed(t, pre, ord) && LeftFresh(t)
  {
    SimpleSound(pre, ord);
    if Traversed(t, pre, ord) && LeftFresh(t) {
      SimpleComplete(t, pre, ord);
    }
  }

  /** Whenever the easy version returns a tree, the backtracking version returns the same one. */
  lemma {:induction false} SameTree(pre: seq<char>, ord: seq<char>)
    requires |pre| == |ord|
    ensures Simple(pre, ord).Node? ==> Found(pre, ord) == Simple(pre, ord)
    decreases |ord|
  {
    if Simple(pre, ord).Node? {
      var i := Place(ord, pre[0], 0).value;
      SameTree(pre[1..1 + i], ord[..i]);
      SameTree(pre[1 + i..], ord[1 + i..]);
    }
  }

  predicate Distinct(s: seq<char>) {
    forall i, j :: 0 <= i < j < |s| ==> s[i] != s[j]
  }

  lemma {:induction false} DistinctIsFresh(t: Tree)
    requires Distinct(Inorder(t))
    ensures LeftFresh(t)
  {
    if t.Node? {
      var ord, k := Inorder(t), |Inorder(t.left)|;
      assert ord[k] == t.value;
      assert Distinct(Inorder(t.left)) by {
        assert forall i :: 0 <= i < k ==> Inorder(t.left)[i] == ord[i];
      }
      assert Distinct(Inorder(t.right)) by {
        assert forall i :: 0 <= i < |Inorder(t.right)| ==> Inorder(t.right)[i] == ord[k + 1 + i];
      }
      assert forall i :: 0 <= i < k ==> Inorder(t.left)[i] == ord[i] != ord[k];
      DistinctIsFresh(t.left);
      DistinctIsFresh(t.right);
    }
  }

  /** Round trip: with pairwise distinct values both versions undo the pair of traversals. */
  lemma RoundTrip(t: Tree)
    requires Distinct(Inorder(t))
    ensures |Preorder(t)| == |Inorder(t)|
    ensures Simple(Preorder(t), Inorder(t)) == t && Found(Preorder(t), Inorder(t)) == t
  {
    Sizes(t);
    DistinctIsFresh(t);
    SimpleComplete(t, Preorder(t), Inorder(t));
    SameTree(Preorder(t), Inorder(t));
  }

  /** The example that the program's usage message gives. */
  lemma UsageExample()
    ensures Found("1234", "3421") == Node('1', Node('2', Node('3', Null, Node('4', Null, Null)), Null), Null)
  {
    var four := Node('4', Null, Null);
    var three := Node('3', Null, four);
    var two := Node('2', three, Null);
    var one := Node('1', two, Null);
    assert Preorder(four) == "4" && Inorder(four) == "4";
    assert Preorder(three) == "34" && Inorder(three) == "34";
    assert Preorder(two) == "234" && Inorder(two) == "342";
    assert Preorder(one) == "1234" && Inorder(one) == "3421";
    RoundTrip(one);
  }

  /** With a repeated value the easy version can miss a tree: here the root occurs again on its left. */
  lemma SimpleCanMiss()
    ensures var t := Node('a', Node('a', Node('b', Null, Null), Null), Null);
            && Traversed(t, "aab", "baa") && Simple("aab", "baa").Null? && Found("aab", "baa").Node?
  {
    var t := Node('a', Node('a', Node('b', Null, Null), Null), Null);
    Inorders(t);
    SearchComplete("aab", "baa");
    SimpleNull("aab", "baa");
  }

  lemma SimpleNull(pre: string, ord: string)
    requires |pre| == |ord| && |ord| > 1 && pre[0] == ord[1] && ord[0] != pre[0] && pre[1] != ord[0]
    ensures Simple(pre, ord).Null?
  {
    assert Place(ord, pre[0], 0) == Some(1);
    assert Place(ord[..1], pre[1..2][0], 0) == None;
  }

  lemma Inorders(t: Tree)
    requires t == Node('a', Node('a', Node('b', Null, Null), Null), Null)
    ensures Traversed(t, "aab", "baa")
  {
    var b := Node('b', Null, Null);
    assert Preorder(b) == "b" && Inorder(b) == "b";
    assert Preorder(t.left) == "ab" && Inorder(t.left) == "ba";
  }
}

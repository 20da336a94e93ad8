/** `graph_shortest_path_from` of `eda-2/src/c/graph/lib/graph.c`: Dijkstra's algorithm with a queue in
    which a vertex may stand several times.

    The queue is taken by its documented contract: the front is an entry of least priority.  Distances
    are natural numbers or infinite. */
module Dijkstra {
  import opened Graphs

  datatype Distance = Infinite | Finite(d: nat)

  predicate Longer(a: Distance, d: nat) {
    a.Infinite? || a.d > d
  }

  datatype Entry = Entry(id: nat, priority: nat)

  type Queue = multiset<Entry>

  /** What the algorithm writes into the vertices. */
  datatype Labels = Labels(reached: seq<bool>, distance: seq<Distance>, reachedFrom: seq<nat>)

  predicate Shaped(adj: Adjacency, src: nat, l: Labels) {
    WellFormed(adj) && src < |adj| && |l.reached| == |l.distance| == |l.reachedFrom| == |adj|
  }

  // ----- The specification -----

  /** Going back along `reachedFrom` from the end of the walk one follows the walk. */
  ghost predicate Traced(adj: Adjacency, src: nat, l: Labels, w: Walk)
    requires Shaped(adj, src, l) && IsWalk(adj, src, w)
  {
    && l.reached[End(adj, src, w)]
    && (w.Via? ==> l.reachedFrom[End(adj, src, w)] == End(adj, src, w.before) && Traced(adj, src, l, w.before))
  }

  ghost predicate TracedTo(adj: Adjacency, src: nat, l: Labels, v: nat, d: nat, w: Walk)
    requires Shaped(adj, src, l)
  {
    IsWalk(adj, src, w) && Traced(adj, src, l, w) && End(adj, src, w) == v && Weight(adj, src, w) == d
  }

  /** The links of `v` lead back to the source along a walk of length `d`. */
  ghost predicate Rooted(adj: Adjacency, src: nat, l: Labels, v: nat, d: nat)
    requires Shaped(adj, src, l)
  {
    exists w :: TracedTo(adj, src, l, v, d, w)
  }

  ghost predicate Shortest(adj: Adjacency, src: nat, v: nat, d: nat)
    requires WellFormed(adj) && src < |adj|
  {
    && (exists w :: Leads(adj, src, w, v) && Weight(adj, src, w) == d)
    && (forall w :: Leads(adj, src, w, v) ==> Weight(adj, src, w) >= d)
  }

  ghost predicate Solved(adj: Adjacency, src: nat, l: Labels)
    requires Shaped(adj, src, l)
  {
    forall v {:trigger l.reached[v]} {:trigger l.distance[v]} :: 0 <= v < |adj| ==>
      && (l.reached[v] <==> Reachable(adj, src, v))
      && (l.reached[v] <==> l.distance[v].Finite?)
      && (l.reached[v] ==> Shortest(adj, src, v, l.distance[v].d) && Rooted(adj, src, l, v, l.distance[v].d))
  }

  // ----- The invariant -----

  ghost predicate LastEdge(adj: Adjacency, l: Labels, v: nat, u: nat, k: nat)
    requires |l.reached| == |l.distance| == |adj| && v < |adj|
  {
    && u < |adj| && l.reached[u] && l.distance[u].Finite? && k < |adj[u]| && adj[u][k].id == v
    && l.distance[v] == Finite(l.distance[u].d + adj[u][k].weight)
  }

  ghost predicate Linked(adj: Adjacency, l: Labels, v: nat)
    requires |l.reached| == |l.distance| == |l.reachedFrom| == |adj| && v < |adj|
  {
    exists k: nat :: LastEdge(adj, l, v, l.reachedFrom[v], k)
  }

  ghost predicate VertexInv(adj: Adjacency, src: nat, l: Labels, v: nat)
    requires Shaped(adj, src, l) && v < |adj|
  {
    && (l.reached[v] ==> l.distance[v].Finite? && Rooted(adj, src, l, v, l.distance[v].d))
    && (!l.reached[v] && l.distance[v].Finite? ==> (v == src && l.distance[v].d == 0) || Linked(adj, l, v))
  }

  /** `d` lies between the distances of the reached vertices and the priorities in the queue. */
  ghost predicate QueueInv(l: Labels, q: Queue, d: nat)
    requires |l.reached| == |l.distance|
  {
    && (forall e {:trigger q[e]} :: q[e] > 0 ==>
          e.id < |l.distance| && d <= e.priority && !Longer(l.distance[e.id], e.priority))
    && (forall v {:trigger l.distance[v]} :: 0 <= v < |l.distance| && l.distance[v].Finite? ==>
          if l.reached[v] then l.distance[v].d <= d else q[Entry(v, l.distance[v].d)] > 0)
  }

  /** The edges of reached vertices are relaxed, but those of `current` only up to `k`. */
  ghost predicate Relaxed(adj: Adjacency, l: Labels, current: nat, k: nat)
    requires WellFormed(adj) && |l.reached| == |l.distance| == |adj|
  {
    forall u, j {:trigger adj[u][j]} ::
      0 <= u < |adj| && l.reached[u] && l.distance[u].Finite? && 0 <= j < |adj[u]| && (u == current ==> j < k) ==>
      !Longer(l.distance[adj[u][j].id], l.distance[u].d + adj[u][j].weight)
  }

  ghost predicate Inv(adj: Adjacency, src: nat, l: Labels, q: Queue, d: nat, current: nat, k: nat) {
    && Shaped(adj, src, l)
    && (forall v {:trigger VertexInv(adj, src, l, v)} :: 0 <= v < |adj| ==> VertexInv(adj, src, l, v))
    && l.distance[src] == Finite(0)
    && QueueInv(l, q, d)
    && Relaxed(adj, l, current, k)
  }

  /** No vertex is being scanned. */
  ghost predicate Between(adj: Adjacency, src: nat, l: Labels, q: Queue, d: nat) {
    Inv(adj, src, l, q, d, |adj|, 0)
  }

  function Start(n: nat, src: nat): Labels
    requires src < n
  {
    Labels(seq(n, _ => false), seq(n, _ => Infinite)[src := Finite(0)], seq(n, _ => 0))
  }

  lemma StartInv(adj: Adjacency, src: nat)
    requires WellFormed(adj) && src < |adj|
    ensures Between(adj, src, Start(|adj|, src), multiset{Entry(src, 0)}, 0)
  {
  }

  predicate Front(q: Queue, e: Entry) {
    q[e] > 0 && forall f :: f in q ==> e.priority <= f.priority
  }

  // ----- A vertex is taken from the queue -----

  lemma {:induction false} TracedKept(adj: Adjacency, src: nat, l: Labels, l': Labels, w: Walk)
    requires Shaped(adj, src, l) && Shaped(adj, src, l') && IsWalk(adj, src, w) && Traced(adj, src, l, w)
    requires forall v {:trigger l.reached[v]} :: 0 <= v < |adj| && l.reached[v] ==>
        l'.reached[v] && l'.reachedFrom[v] == l.reachedFrom[v]
    ensures Traced(adj, src, l', w)
  {
    if w.Via? {
      TracedKept(adj, src, l, l', w.before);
    }
  }

  lemma RootedKept(adj: Adjacency, src: nat, l: Labels, l': Labels, v: nat, d: nat)
    requires Shaped(adj, src, l) && Shaped(adj, src, l') && Rooted(adj, src, l, v, d)
    requires forall v {:trigger l.reached[v]} :: 0 <= v < |adj| && l.reached[v] ==>
        l'.reached[v] && l'.reachedFrom[v] == l.reachedFrom[v]
    ensures Rooted(adj, src, l', v, d)
  {
    hide Traced;
    var w :| TracedTo(adj, src, l, v, d, w);
    TracedKept(adj, src, l, l', w);
    assert TracedTo(adj, src, l', v, d, w);
  }

  lemma LinkRoots(adj: Adjacency, src: nat, l: Labels, l': Labels, v: nat)
    requires Shaped(adj, src, l) && v < |adj| && VertexInv(adj, src, l, v) && !l.reached[v] && l.distance[v].Finite?
    requires forall u {:trigger VertexInv(adj, src, l, u)} :: 0 <= u < |adj| ==> VertexInv(adj, src, l, u)
    requires l' == l.(reached := l.reached[v := true])
    ensures Rooted(adj, src, l', v, l.distance[v].d)
  {
    if v == src && l.distance[v].d == 0 {
      assert TracedTo(adj, src, l', v, 0, Here);
    } else {
      var u := l.reachedFrom[v];
      var k: nat :| LastEdge(adj, l, v, u, k);
      assert VertexInv(adj, src, l, u);
      RootedKept(adj, src, l, l', u, l.distance[u].d);
      var w :| TracedTo(adj, src, l', u, l.distance[u].d, w);
      assert TracedTo(adj, src, l', v, l.distance[v].d, Via(w, k));
    }
  }

  lemma SettleVertices(adj: Adjacency, src: nat, l: Labels, c: nat, l': Labels)
    requires Shaped(adj, src, l) && c < |adj| && !l.reached[c] && l.distance[c].Finite?
    requires forall u {:trigger VertexInv(adj, src, l, u)} :: 0 <= u < |adj| ==> VertexInv(adj, src, l, u)
    requires l' == l.(reached := l.reached[c := true])
    ensures forall u {:trigger VertexInv(adj, src, l', u)} :: 0 <= u < |adj| ==> VertexInv(adj, src, l', u)
  {
    hide Rooted;
    forall u {:trigger VertexInv(adj, src, l', u)} | 0 <= u < |adj|
      ensures VertexInv(adj, src, l', u)
    {
      assert VertexInv(adj, src, l, u);
      if u == c {
        LinkRoots(adj, src, l, l', c);
      } else if l.reached[u] {
        RootedKept(adj, src, l, l', u, l.distance[u].d);
      } else if Linked(adj, l, u) {
        var k: nat :| LastEdge(adj, l, u, l.reachedFrom[u], k);
        assert LastEdge(adj, l', u, l'.reachedFrom[u], k);
      }
    }
  }

  /** An entry of least priority for a vertex not yet reached carries its distance. */
  lemma Settle(adj: Adjacency, src: nat, l: Labels, q: Queue, d: nat, e: Entry)
    requires Between(adj, src, l, q, d) && Front(q, e) && e.id < |adj| && !l.reached[e.id]
    ensures l.distance[e.id] == Finite(e.priority)
    ensures Inv(adj, src, l.(reached := l.reached[e.id := true]), q - multiset{e}, e.priority, e.id, 0)
  {
    hide VertexInv;
    assert q[Entry(e.id, l.distance[e.id].d)] > 0;
    SettleVertices(adj, src, l, e.id, l.(reached := l.reached[e.id := true]));
  }

  lemma Skip(adj: Adjacency, src: nat, l: Labels, q: Queue, d: nat, e: Entry)
    requires Between(adj, src, l, q, d) && q[e] > 0 && e.id < |adj| && l.reached[e.id]
    ensures Between(adj, src, l, q - multiset{e}, d)
  {
    hide VertexInv, Relaxed;
  }

  // ----- An edge is relaxed -----

  lemma ShorterVertices(adj: Adjacency, src: nat, l: Labels, c: nat, k: nat, l': Labels)
    requires Shaped(adj, src, l) && c < |adj| && l.reached[c] && l.distance[c].Finite? && k < |adj[c]|
    requires forall u {:trigger VertexInv(adj, src, l, u)} :: 0 <= u < |adj| ==> VertexInv(adj, src, l, u)
    requires !l.reached[adj[c][k].id]
    requires var v := adj[c][k].id;
             l' == l.(distance := l.distance[v := Finite(l.distance[c].d + adj[c][k].weight)],
                 reachedFrom := l.reachedFrom[v := c])
    ensures forall u {:trigger VertexInv(adj, src, l', u)} :: 0 <= u < |adj| ==> VertexInv(adj, src, l', u)
  {
    hide Rooted;
    var v := adj[c][k].id;
    forall u {:trigger VertexInv(adj, src, l', u)} | 0 <= u < |adj|
      ensures VertexInv(adj, src, l', u)
    {
      assert VertexInv(adj, src, l, u);
      if u == v {
        assert l'.reachedFrom[v] == c && c != v;
        assert LastEdge(adj, l', v, l'.reachedFrom[v], k);
      } else if l.reached[u] {
        RootedKept(adj, src, l, l', u, l.distance[u].d);
      } else if Linked(adj, l, u) {
        var j: nat :| LastEdge(adj, l, u, l.reachedFrom[u], j);
        assert LastEdge(adj, l', u, l'.reachedFrom[u], j);
      }
    }
  }

  lemma ReachedIsFinite(adj: Adjacency, src: nat, l: Labels, v: nat)
    requires Shaped(adj, src, l) && v < |adj| && VertexInv(adj, src, l, v)
    ensures l.reached[v] ==> l.distance[v].Finite?
  {
  }

  lemma NotReached(l: Labels, q: Queue, d: nat, v: nat, nd: nat)
    requires |l.reached| == |l.distance| && QueueInv(l, q, d) && v < |l.distance| && d <= nd
    requires Longer(l.distance[v], nd) && (l.reached[v] ==> l.distance[v].Finite?)
    ensures !l.reached[v]
  {
    assert l.distance[v] == l.distance[v];
  }

  lemma ShorterQueue(l: Labels, q: Queue, d: nat, v: nat, nd: nat, c: nat)
    requires |l.reached| == |l.distance| == |l.reachedFrom| && QueueInv(l, q, d)
    requires v < |l.distance| && !l.reached[v] && d <= nd && Longer(l.distance[v], nd)
    ensures QueueInv(l.(distance := l.distance[v := Finite(nd)], reachedFrom := l.reachedFrom[v := c]),
                     q + multiset{Entry(v, nd)}, d)
  {
    var l' := l.(distance := l.distance[v := Finite(nd)], reachedFrom := l.reachedFrom[v := c]);
    var q' := q + multiset{Entry(v, nd)};
    forall e {:trigger q'[e]} | q'[e] > 0
      ensures e.id < |l'.distance| && d <= e.priority && !Longer(l'.distance[e.id], e.priority)
    {
      if e != Entry(v, nd) {
        assert q[e] > 0;
      }
    }
    forall u {:trigger l'.distance[u]} | 0 <= u < |l'.distance| && l'.distance[u].Finite?
      ensures if l'.reached[u] then l'.distance[u].d <= d else q'[Entry(u, l'.distance[u].d)] > 0
    {
      if u != v {
        assert l.distance[u] == l'.distance[u];
      }
    }
  }

  lemma ShorterRelaxed(adj: Adjacency, l: Labels, c: nat, k: nat, nd: nat)
    requires WellFormed(adj) && |l.reached| == |l.distance| == |l.reachedFrom| == |adj| && Relaxed(adj, l, c, k)
    requires c < |adj| && k < |adj[c]| && l.distance[c].Finite? && nd == l.distance[c].d + adj[c][k].weight
    requires !l.reached[adj[c][k].id] && Longer(l.distance[adj[c][k].id], nd)
    ensures Relaxed(adj, l.(distance := l.distance[adj[c][k].id := Finite(nd)],
                            reachedFrom := l.reachedFrom[adj[c][k].id := c]), c, k + 1)
  {
    var v := adj[c][k].id;
    var l' := l.(distance := l.distance[v := Finite(nd)], reachedFrom := l.reachedFrom[v := c]);
    forall u, j {:trigger adj[u][j]} |
        0 <= u < |adj| && l'.reached[u] && l'.distance[u].Finite? && 0 <= j < |adj[u]| && (u == c ==> j < k + 1)
      ensures !Longer(l'.distance[adj[u][j].id], l'.distance[u].d + adj[u][j].weight)
    {
      assert u != v && l'.distance[u] == l.distance[u];
      if u != c || j < k {
        assert !Longer(l.distance[adj[u][j].id], l.distance[u].d + adj[u][j].weight);
      }
    }
  }

  lemma Shorten(adj: Adjacency, src: nat, l: Labels, q: Queue, d: nat, c: nat, k: nat)
    requires Inv(adj, src, l, q, d, c, k) && c < |adj| && l.reached[c] && l.distance[c] == Finite(d) && k < |adj[c]|
    requires Longer(l.distance[adj[c][k].id], d + adj[c][k].weight)
    ensures var v, nd := adj[c][k].id, d + adj[c][k].weight;
            && v < |adj| && !l.reached[v] && v != src
            && Inv(adj, src, l.(distance := l.distance[v := Finite(nd)], reachedFrom := l.reachedFrom[v := c]),
                   q + multiset{Entry(v, nd)}, d, c, k + 1)
  {
    hide VertexInv;
    var v, nd := adj[c][k].id, d + adj[c][k].weight;
    assert VertexInv(adj, src, l, v);
    ReachedIsFinite(adj, src, l, v);
    NotReached(l, q, d, v, nd);
    ShorterQueue(l, q, d, v, nd, c);
    ShorterRelaxed(adj, l, c, k, nd);
    hide QueueInv, Relaxed;
    ShorterVertices(adj, src, l, c, k, l.(distance := l.distance[v := Finite(nd)], reachedFrom := l.reachedFrom[v := c]));
  }

  // ----- The queue is empty -----

  lemma {:induction false} NoShorterWalk(adj: Adjacency, src: nat, l: Labels, d: nat, w: Walk)
    requires Between(adj, src, l, multiset{}, d) && IsWalk(adj, src, w)
    ensures l.reached[End(adj, src, w)] && !Longer(l.distance[End(adj, src, w)], Weight(adj, src, w))
  {
    hide VertexInv;
    if w.Via? {
      NoShorterWalk(adj, src, l, d, w.before);
      var u := End(adj, src, w.before);
      assert !Longer(l.distance[adj[u][w.k].id], l.distance[u].d + adj[u][w.k].weight);
    }
    assert l.distance[End(adj, src, w)] == l.distance[End(adj, src, w)];
    assert multiset{}[Entry(End(adj, src, w), 0)] == 0;
  }

  lemma Finish(adj: Adjacency, src: nat, l: Labels, d: nat)
    requires Between(adj, src, l, multiset{}, d)
    ensures Shaped(adj, src, l) && Solved(adj, src, l)
  {
    hide Relaxed;
    forall v {:trigger l.reached[v]} {:trigger l.distance[v]} | 0 <= v < |adj|
      ensures l.reached[v] <==> Reachable(adj, src, v)
      ensures l.reached[v] <==> l.distance[v].Finite?
      ensures l.reached[v] ==> Shortest(adj, src, v, l.distance[v].d) && Rooted(adj, src, l, v, l.distance[v].d)
    {
      assert VertexInv(adj, src, l, v);
      forall w | Leads(adj, src, w, v)
        ensures l.reached[v] && Weight(adj, src, w) >= l.distance[v].d
      {
        NoShorterWalk(adj, src, l, d, w);
      }
      if l.reached[v] {
        var w :| TracedTo(adj, src, l, v, l.distance[v].d, w);
        assert Leads(adj, src, w, v);
      }
    }
  }

  // ----- The program -----

  function Unreached(reached: seq<bool>): nat {
    if reached == [] then 0 else Unreached(reached[..|reached| - 1]) + (if reached[|reached| - 1] then 0 else 1)
  }

  lemma {:induction false} OneFewer(reached: seq<bool>, v: nat)
    requires v < |reached| && !reached[v]
    ensures Unreached(reached[v := true]) < Unreached(reached)
    decreases |reached|
  {
    var k := |reached| - 1;
    if v < k {
      OneFewer(reached[..k], v);
      assert reached[v := true][..k] == reached[..k][v := true];
    } else {
      assert reached[v := true][..k] == reached[..k];
    }
  }

  class Graph {
    const adjacents: Adjacency
    const reached: array<bool>
    const distance: array<Distance>
    const reachedFrom: array<nat>

    ghost predicate Valid()
      reads this
    {
      && WellFormed(adjacents)
      && reached.Length == distance.Length == reachedFrom.Length == |adjacents|
    }

    function Marks(): Labels
      reads this, reached, distance, reachedFrom
    {
      Labels(reached[..], distance[..], reachedFrom[..])
    }

    constructor (adj: Adjacency)
      requires WellFormed(adj)
      ensures Valid() && adjacents == adj && fresh(reached) && fresh(distance) && fresh(reachedFrom)
      ensures Marks() == Labels(seq(|adj|, _ => false), seq(|adj|, _ => Infinite), seq(|adj|, _ => 0))
    {
      adjacents := adj;
      reached := new bool[|adj|](_ => false);
      distance := new Distance[|adj|](_ => Infinite);
      reachedFrom := new nat[|adj|](_ => 0);
      new;
      assert Marks().reached == seq(|adj|, _ => false);
      assert Marks().distance == seq(|adj|, _ => Infinite);
      assert Marks().reachedFrom == seq(|adj|, _ => 0);
    }

    /** `graph_recompute`, for the bits of the reached flags and of the distances. */
    method Recompute()
      requires Valid()
      modifies reached, distance, reachedFrom
      ensures var n := |adjacents|;
              Marks() == Labels(seq(n, _ => false), seq(n, _ => Infinite), seq(n, _ => 0))
    {
      var i := 0;
      while i < |adjacents|
        invariant i <= |adjacents|
        invariant forall j :: 0 <= j < i ==> !reached[j] && distance[j] == Infinite && reachedFrom[j] == 0
      {
        reached[i], reachedFrom[i] := false, 0;
        distance[i] := Infinite;
        i := i + 1;
      }
      assert reached[..] == seq(|adjacents|, _ => false);
      assert distance[..] == seq(|adjacents|, _ => Infinite);
      assert reachedFrom[..] == seq(|adjacents|, _ => 0);
    }

    /** Visits the edges of a vertex just reached. */
    method Scan(src: nat, c: nat, queue: Queue) returns (q: Queue)
      requires Valid() && c < |adjacents| && reached[c] && distance[c].Finite?
      requires Inv(adjacents, src, Marks(), queue, distance[c].d, c, 0)
      modifies distance, reachedFrom
      ensures Between(adjacents, src, Marks(), q, old(distance[c].d))
    {
      hide VertexInv, QueueInv, Relaxed;
      q := queue;
      ghost var d := distance[c].d;
      var k := 0;
      while k < |adjacents[c]|
        invariant k <= |adjacents[c]| && distance[c] == Finite(d)
        invariant Inv(adjacents, src, Marks(), q, d, c, k)
      {
        var Edge(v, weight) := adjacents[c][k];
        var far := distance[c].d + weight;
        if Longer(distance[v], far) {
          Shorten(adjacents, src, Marks(), q, d, c, k);
          ghost var was := Marks();
          distance[v], reachedFrom[v] := Finite(far), c;
          assert Marks() == was.(distance := was.distance[v := Finite(far)], reachedFrom := was.reachedFrom[v := c]);
          q := q + multiset{Entry(v, far)};
        } else {
          EdgeFine(adjacents, Marks(), c, k);
        }
        k := k + 1;
      }
      AllEdges(adjacents, Marks(), c);
    }

    /** Returns -1, and changes nothing, exactly if the source is no vertex. */
    method ShortestPathFrom(src: nat) returns (r: int)
      requires Valid()
      modifies reached, distance, reachedFrom
      ensures r == if src < |adjacents| then 0 else -1
      ensures src >= |adjacents| ==> Marks() == old(Marks())
      ensures src < |adjacents| ==> Shaped(adjacents, src, Marks()) && Solved(adjacents, src, Marks())
    {
      hide Inv, Solved;
      if src >= |adjacents| {
        return -1;
      }
      Recompute();
      distance[src] := Finite(0);
      assert Marks() == Start(|adjacents|, src);
      StartInv(adjacents, src);
      var q: Queue := multiset{Entry(src, 0)};
      ghost var d := 0;
      while q != multiset{}
        invariant Between(adjacents, src, Marks(), q, d)
        decreases Unreached(reached[..]), |q|
      {
        var e: Entry := Least(q);
        InQueue(adjacents, src, Marks(), q, d, e);
        if reached[e.id] {
          Skip(adjacents, src, Marks(), q, d, e);
          q := q - multiset{e};
        } else {
          Settle(adjacents, src, Marks(), q, d, e);
          OneFewer(reached[..], e.id);
          ghost var was := Marks();
          reached[e.id] := true;
          assert Marks() == was.(reached := was.reached[e.id := true]);
          q := Scan(src, e.id, q - multiset{e});
          d := e.priority;
        }
      }
      Finish(adjacents, src, Marks(), d);
      return 0;
    }
  }

  lemma EdgeFine(adj: Adjacency, l: Labels, c: nat, k: nat)
    requires WellFormed(adj) && |l.reached| == |l.distance| == |adj| && Relaxed(adj, l, c, k)
    requires c < |adj| && k < |adj[c]| && l.distance[c].Finite?
    requires !Longer(l.distance[adj[c][k].id], l.distance[c].d + adj[c][k].weight)
    ensures Relaxed(adj, l, c, k + 1)
  {
  }

  lemma AllEdges(adj: Adjacency, l: Labels, c: nat)
    requires WellFormed(adj) && |l.reached| == |l.distance| == |adj| && c < |adj| && Relaxed(adj, l, c, |adj[c]|)
    ensures Relaxed(adj, l, |adj|, 0)
  {
  }

  lemma InQueue(adj: Adjacency, src: nat, l: Labels, q: Queue, d: nat, e: Entry)
    requires Between(adj, src, l, q, d) && q[e] > 0
    ensures e.id < |adj|
  {
    hide VertexInv, Relaxed;
  }

  /** An entry of least priority exists; which one the queue has at its front is left open. */
  lemma HasLeast(q: Queue)
    requires q != multiset{}
    ensures exists e :: Front(q, e)
    decreases |q|
  {
    var e :| e in q;
    var rest := q - multiset{e};
    assert q == rest + multiset{e};
    if rest == multiset{} {
      assert Front(q, e);
    } else {
      HasLeast(rest);
      var f :| Front(rest, f);
      assert Front(q, if e.priority < f.priority then e else f);
    }
  }

  method Least(q: Queue) returns (e: Entry)
    requires q != multiset{}
    ensures Front(q, e)
  {
    HasLeast(q);
    e :| e in q && Front(q, e);
  }
}

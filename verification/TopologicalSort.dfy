/** `graph_topological_sort` of `eda-2/src/c/graph/lib/graph.c`: Kahn's algorithm over the queue of
    `ContiguousQueue`. */
module TopologicalSort {
  import opened FiniteSets
  import opened Graphs
  import opened ContiguousQueue

  // ----- The specification -----

  ghost predicate Cyclic(adj: Adjacency)
    requires WellFormed(adj)
  {
    exists v: nat, w: Walk :: v < |adj| && w.Via? && Leads(adj, v, w, v)
  }

  predicate Distinct(s: seq<nat>) {
    forall i, j :: 0 <= i < j < |s| ==> s[i] != s[j]
  }

  predicate Below(s: seq<nat>, n: nat) {
    forall i :: 0 <= i < |s| ==> s[i] < n
  }

  /** Every predecessor of the vertex at place `i` stands before it. */
  ghost predicate Forward(adj: Adjacency, order: seq<nat>) {
    forall i, u, k {:trigger order[i], adj[u][k]} ::
      0 <= i < |order| && 0 <= u < |adj| && 0 <= k < |adj[u]| && adj[u][k].id == order[i] ==>
        u in order[..i]
  }

  ghost predicate IsTopological(adj: Adjacency, order: seq<nat>) {
    |order| == |adj| && Distinct(order) && Below(order, |adj|) && Forward(adj, order)
  }

  /** Null is returned; the final assertion fails; the vertices are returned in order. */
  datatype Outcome = NoSource | Miscounted | Sorted(order: seq<nat>)

  // ----- Counting edges -----

  /** The edges to `v` in a list from place `k` on. */
  function EdgesTo(edges: seq<Edge>, k: nat, v: nat): nat
    decreases |edges| - k
  {
    if k >= |edges| then 0 else (if edges[k].id == v then 1 else 0) + EdgesTo(edges, k + 1, v)
  }

  /** The edges to `v` from vertices below `m` that are not in `out`. */
  function Incoming(adj: Adjacency, out: set<nat>, m: nat, v: nat): nat
    requires m <= |adj|
  {
    if m == 0 then 0
    else Incoming(adj, out, m - 1, v) + (if m - 1 in out then 0 else EdgesTo(adj[m - 1], 0, v))
  }

  lemma {:induction false} EdgesToZero(edges: seq<Edge>, k: nat, v: nat, j: nat)
    requires EdgesTo(edges, k, v) == 0 && k <= j < |edges|
    ensures edges[j].id != v
    decreases j - k
  {
    if j > k {
      EdgesToZero(edges, k + 1, v, j);
    }
  }

  lemma {:induction false} EdgesToSome(edges: seq<Edge>, k: nat, v: nat) returns (j: nat)
    requires EdgesTo(edges, k, v) > 0
    ensures k <= j < |edges| && edges[j].id == v
    decreases |edges| - k
  {
    if edges[k].id == v {
      j := k;
    } else {
      j := EdgesToSome(edges, k + 1, v);
    }
  }

  lemma {:induction false} IncomingZero(adj: Adjacency, out: set<nat>, m: nat, v: nat, u: nat, k: nat)
    requires m <= |adj| && Incoming(adj, out, m, v) == 0 && u < m && u !in out && k < |adj[u]|
    ensures adj[u][k].id != v
  {
    if u < m - 1 {
      IncomingZero(adj, out, m - 1, v, u, k);
    } else {
      EdgesToZero(adj[u], 0, v, k);
    }
  }

  lemma {:induction false} IncomingSome(adj: Adjacency, out: set<nat>, m: nat, v: nat) returns (u: nat, k: nat)
    requires m <= |adj| && Incoming(adj, out, m, v) > 0
    ensures u < m && u !in out && k < |adj[u]| && adj[u][k].id == v
  {
    if Incoming(adj, out, m - 1, v) > 0 {
      u, k := IncomingSome(adj, out, m - 1, v);
    } else {
      u := m - 1;
      k := EdgesToSome(adj[u], 0, v);
    }
  }

  /** Taking a vertex out takes its edges out. */
  lemma {:induction false} IncomingWithout(adj: Adjacency, out: set<nat>, c: nat, m: nat, v: nat)
    requires m <= |adj| && c !in out && c < |adj|
    ensures Incoming(adj, out, m, v) == Incoming(adj, out + {c}, m, v) + (if c < m then EdgesTo(adj[c], 0, v) else 0)
  {
    if m > 0 {
      IncomingWithout(adj, out, c, m - 1, v);
    }
  }

  // ----- The invariant -----

  function Elements(s: seq<nat>): (r: set<nat>)
    ensures forall x :: x in r <==> x in s
  {
    set x | x in s
  }

  /** `out`: the vertices already in the result; `queue`: those without incoming edges from outside
      `out`; the edges of `current`, in `out` already, are counted from place `k` on. */
  ghost predicate Inv(adj: Adjacency, count: seq<nat>, out: seq<nat>, queue: seq<nat>, current: nat, k: nat) {
    && WellFormed(adj) && |count| == |adj| && current < |adj| && k <= |adj[current]|
    && Distinct(out + queue) && Below(out + queue, |adj|) && current in out
    && Forward(adj, out)
    && (forall v {:trigger count[v]} :: 0 <= v < |adj| ==>
          count[v] == Incoming(adj, Elements(out), |adj|, v) + EdgesTo(adj[current], k, v))
    && (forall v {:trigger count[v]} :: 0 <= v < |adj| ==> (count[v] == 0 <==> v in out + queue))
  }

  /** The same between two vertices. */
  ghost predicate Between(adj: Adjacency, count: seq<nat>, out: seq<nat>, queue: seq<nat>) {
    && WellFormed(adj) && |count| == |adj|
    && Distinct(out + queue) && Below(out + queue, |adj|)
    && Forward(adj, out)
    && (forall v {:trigger count[v]} :: 0 <= v < |adj| ==> count[v] == Incoming(adj, Elements(out), |adj|, v))
    && (forall v {:trigger count[v]} :: 0 <= v < |adj| ==> (count[v] == 0 <==> v in out + queue))
  }

  lemma TakeForward(adj: Adjacency, out: seq<nat>, c: nat)
    requires WellFormed(adj) && Forward(adj, out) && c < |adj| && Incoming(adj, Elements(out), |adj|, c) == 0
    ensures Forward(adj, out + [c])
  {
    var order := out + [c];
    forall i, u, k {:trigger order[i], adj[u][k]} |
        0 <= i < |order| && 0 <= u < |adj| && 0 <= k < |adj[u]| && adj[u][k].id == order[i]
      ensures u in order[..i]
    {
      assert order[..i] == out[..i];
      if i < |out| {
        assert order[i] == out[i];
      } else if u !in out {
        IncomingZero(adj, Elements(out), |adj|, c, u, k);
      }
    }
  }

  lemma TakeCounts(adj: Adjacency, out: seq<nat>, c: nat, v: nat)
    requires c < |adj| && c !in out
    ensures Incoming(adj, Elements(out), |adj|, v) == Incoming(adj, Elements(out + [c]), |adj|, v) + EdgesTo(adj[c], 0, v)
  {
    IncomingWithout(adj, Elements(out), c, |adj|, v);
    assert Elements(out + [c]) == Elements(out) + {c};
  }

  /** The front of the queue goes to the result. */
  lemma Take(adj: Adjacency, count: seq<nat>, out: seq<nat>, queue: seq<nat>)
    requires Between(adj, count, out, queue) && queue != []
    ensures Inv(adj, count, out + [queue[0]], queue[1..], queue[0], 0)
  {
    hide Forward, Incoming, EdgesTo, Elements;
    var c := queue[0];
    var all := out + queue;
    assert all[|out|] == c;
    assert out + [c] + queue[1..] == all;
    assert c !in out by {
      assert forall i :: 0 <= i < |out| ==> out[i] == all[i];
    }
    assert count[c] == 0;
    TakeForward(adj, out, c);
    forall v
      ensures Incoming(adj, Elements(out), |adj|, v) == Incoming(adj, Elements(out + [c]), |adj|, v) + EdgesTo(adj[c], 0, v)
    {
      TakeCounts(adj, out, c, v);
    }
  }

  /** One edge of the current vertex goes. */
  lemma Drop(adj: Adjacency, count: seq<nat>, out: seq<nat>, queue: seq<nat>, c: nat, k: nat)
    requires Inv(adj, count, out, queue, c, k) && k < |adj[c]|
    ensures var v := adj[c][k].id;
            && v < |adj| && count[v] > 0
            && Inv(adj, count[v := count[v] - 1], out, if count[v] == 1 then queue + [v] else queue, c, k + 1)
  {
    hide Forward, Incoming;
    var v := adj[c][k].id;
    assert count[v] == count[v];
    var queue' := if count[v] == 1 then queue + [v] else queue;
    if count[v] == 1 {
      assert out + queue' == (out + queue) + [v];
      assert v !in out + queue;
    }
  }

  lemma NextVertex(adj: Adjacency, count: seq<nat>, out: seq<nat>, queue: seq<nat>, c: nat)
    requires c < |adj| && Inv(adj, count, out, queue, c, |adj[c]|)
    ensures Between(adj, count, out, queue)
  {
    hide Forward, Incoming, Distinct, Below;
  }

  // ----- Acyclic or not -----

  lemma {:induction false} WalkClimbs(adj: Adjacency, order: seq<nat>, v: nat, w: Walk, i: nat)
    requires WellFormed(adj) && Forward(adj, order) && Distinct(order) && v < |adj| && IsWalk(adj, v, w)
    requires i < |order| && End(adj, v, w) == order[i]
    ensures w.Via? ==> v in order[..i]
    ensures w.Here? ==> v == order[i]
  {
    if w.Via? {
      var u := End(adj, v, w.before);
      assert adj[u][w.k].id == order[i];
      var j :| 0 <= j < i && order[j] == u;
      WalkClimbs(adj, order, v, w.before, j);
    }
  }

  /** A graph with a topological order has no cycle. */
  lemma OrderedIsAcyclic(adj: Adjacency, order: seq<nat>)
    requires WellFormed(adj) && IsTopological(adj, order)
    ensures !Cyclic(adj)
  {
    forall v: nat, w: Walk | v < |adj| && w.Via?
      ensures !Leads(adj, v, w, v)
    {
      if Leads(adj, v, w, v) {
        AllIn(order, |adj|, v);
        var i :| 0 <= i < |order| && order[i] == v;
        WalkClimbs(adj, order, v, w, i);
      }
    }
  }

  lemma {:induction false} ElementsSize(s: seq<nat>, n: nat)
    requires Distinct(s) && Below(s, n)
    ensures |Elements(s)| == |s|
    decreases |s|
  {
    if s == [] {
      assert Elements(s) == {};
    } else {
      var k := |s| - 1;
      ElementsSize(s[..k], n);
      assert Elements(s) == Elements(s[..k]) + {s[k]};
    }
  }

  lemma SizeBound(s: seq<nat>, n: nat)
    requires Distinct(s) && Below(s, n)
    ensures |s| <= n
    ensures |s| == n ==> Elements(s) == UpTo(n)
  {
    ElementsSize(s, n);
    assert Elements(s) <= UpTo(n);
    assert UpTo(n) == Elements(s) + (UpTo(n) - Elements(s));
  }

  lemma AllIn(s: seq<nat>, n: nat, v: nat)
    requires |s| == n && Distinct(s) && Below(s, n) && v < n
    ensures v in s
  {
    SizeBound(s, n);
    assert v in Elements(s);
  }

  ghost predicate HasEdge(adj: Adjacency, u: nat, v: nat) {
    u < |adj| && exists k: nat :: k < |adj[u]| && adj[u][k].id == v
  }

  ghost predicate Preceded(adj: Adjacency, left: set<nat>, v: nat) {
    exists u {:trigger HasEdge(adj, u, v)} :: u in left && HasEdge(adj, u, v)
  }

  /** Each vertex of the path is preceded in the graph by the next one. */
  ghost predicate Backwards(adj: Adjacency, path: seq<nat>) {
    Below(path, |adj|) && forall i {:trigger path[i]} :: 0 < i < |path| ==> HasEdge(adj, path[i], path[i - 1])
  }

  lemma {:induction false} BackPath(adj: Adjacency, left: set<nat>, length: nat) returns (path: seq<nat>)
    requires left != {} && left <= UpTo(|adj|)
    requires forall v {:trigger Preceded(adj, left, v)} :: v in left ==> Preceded(adj, left, v)
    ensures |path| == length + 1 && Backwards(adj, path) && path[length] in left
  {
    if length == 0 {
      var v :| v in left;
      path := [v];
    } else {
      path := BackPath(adj, left, length - 1);
      assert Preceded(adj, left, path[length - 1]);
      var u: nat :| u in left && HasEdge(adj, u, path[length - 1]);
      path := path + [u];
    }
  }

  /** Along a backward path there is a walk from a later vertex to an earlier one. */
  lemma {:induction false} WalkAlong(adj: Adjacency, path: seq<nat>, i: nat, j: nat) returns (w: Walk)
    requires WellFormed(adj) && Backwards(adj, path) && i <= j < |path|
    ensures path[j] < |adj| && Leads(adj, path[j], w, path[i]) && (i < j ==> w.Via?)
    decreases j - i
  {
    if i == j {
      w := Here;
    } else {
      var before := WalkAlong(adj, path, i + 1, j);
      assert HasEdge(adj, path[i + 1], path[i]);
      var k: nat :| k < |adj[path[i + 1]]| && adj[path[i + 1]][k].id == path[i];
      w := Via(before, k);
    }
  }

  /** Where every vertex of some set has a predecessor in the set, there is a cycle. */
  lemma PredecessorsCycle(adj: Adjacency, left: set<nat>)
    requires WellFormed(adj) && left != {} && left <= UpTo(|adj|)
    requires forall v {:trigger Preceded(adj, left, v)} :: v in left ==> Preceded(adj, left, v)
    ensures Cyclic(adj)
  {
    var path := BackPath(adj, left, |adj|);
    if Distinct(path) {
      SizeBound(path, |adj|);
    }
    var i, j :| 0 <= i < j < |path| && path[i] == path[j];
    var w := WalkAlong(adj, path, i, j);
    assert Leads(adj, path[j], w, path[j]);
  }

  /** The queue has run empty: either everything is sorted, or there is a cycle. */
  lemma Finish(adj: Adjacency, count: seq<nat>, out: seq<nat>)
    requires Between(adj, count, out, [])
    ensures |out| <= |adj|
    ensures |out| == |adj| ==> IsTopological(adj, out) && !Cyclic(adj)
    ensures |out| != |adj| ==> Cyclic(adj)
  {
    assert out + [] == out;
    SizeBound(out, |adj|);
    if |out| == |adj| {
      OrderedIsAcyclic(adj, out);
    } else {
      Leftover(adj, count, out);
    }
  }

  lemma OutNotAll(adj: Adjacency, out: seq<nat>)
    requires |Elements(out)| < |adj|
    ensures UpTo(|adj|) - Elements(out) != {}
  {
    var left := UpTo(|adj|) - Elements(out);
    assert |UpTo(|adj|)| <= |Elements(out) + left|  by {
      SubsetSize(UpTo(|adj|), Elements(out) + left);
    }
  }

  lemma Leftover(adj: Adjacency, count: seq<nat>, out: seq<nat>)
    requires Between(adj, count, out, []) && |out| < |adj|
    ensures Cyclic(adj)
  {
    hide Forward, Cyclic;
    assert out + [] == out;
    var left := UpTo(|adj|) - Elements(out);
    ElementsSize(out, |adj|);
    OutNotAll(adj, out);
    forall v {:trigger Preceded(adj, left, v)} | v in left
      ensures Preceded(adj, left, v)
    {
      assert count[v] > 0;
      var u, k := IncomingSome(adj, Elements(out), |adj|, v);
      assert HasEdge(adj, u, v) && u in left;
    }
    PredecessorsCycle(adj, left);
  }

  // ----- The program -----

  class Graph {
    const adjacents: Adjacency
    const incoming: array<nat>

    ghost predicate Valid() {
      WellFormed(adjacents) && incoming.Length == |adjacents|
    }

    constructor (adj: Adjacency)
      requires WellFormed(adj)
      ensures Valid() && adjacents == adj && fresh(incoming)
    {
      adjacents := adj;
      incoming := new nat[|adj|];
    }

    /** `graph_recompute`, for the bit of the incoming edges. */
    method Recompute()
      requires Valid()
      modifies incoming
      ensures forall v {:trigger incoming[v]} :: 0 <= v < |adjacents| ==>
          incoming[v] == Incoming(adjacents, {}, |adjacents|, v)
    {
      var i := 0;
      while i < |adjacents|
        invariant i <= |adjacents|
        invariant forall v {:trigger incoming[v]} :: 0 <= v < i ==> incoming[v] == 0
      {
        incoming[i] := 0;
        i := i + 1;
      }
      i := 0;
      while i < |adjacents|
        invariant i <= |adjacents|
        invariant forall v {:trigger incoming[v]} :: 0 <= v < |adjacents| ==> incoming[v] == Incoming(adjacents, {}, i, v)
      {
        var k := 0;
        while k < |adjacents[i]|
          invariant k <= |adjacents[i]|
          invariant forall v {:trigger incoming[v]} :: 0 <= v < |adjacents| ==>
                      incoming[v] + EdgesTo(adjacents[i], k, v) == Incoming(adjacents, {}, i + 1, v)
        {
          var v := adjacents[i][k].id;
          incoming[v] := incoming[v] + 1;
          k := k + 1;
        }
        i := i + 1;
      }
    }

    method QueueSources() returns (q: Queue)
      requires Valid()
      ensures q.Valid() && fresh(q) && fresh(q.data) && q.Contents() == Sources(incoming[..], |adjacents|)
    {
      hide Sources, WellFormed;
      q := new Queue();
      var i := 0;
      ghost var count := incoming[..];
      NoSources(count);
      while i < |adjacents|
        invariant i <= |adjacents| && incoming[..] == count
        invariant q.Valid() && fresh(q) && fresh(q.data) && q.Contents() == Sources(count, i)
      {
        QueueSource(q, i, count);
        i := i + 1;
      }
    }

    method QueueSource(q: Queue, i: nat, ghost count: seq<nat>)
      requires Valid() && q.Valid() && q.data != incoming && i < |adjacents|
      requires count == incoming[..] && q.Contents() == Sources(count, i)
      modifies q, q.data
      ensures q.Valid() && (q.data == old(q.data) || fresh(q.data))
      ensures q.Contents() == Sources(count, i + 1)
    {
      hide Sources, WellFormed;
      SourcesNext(count, i);
      if incoming[i] == 0 {
        q.Push(i);
      }
    }

    /** Null exactly if every vertex has an incoming edge; the vertices in an order in which all edges
        go forward exactly if there are any and the graph has no cycle; otherwise the final assertion
        fails. */
    method Sort() returns (r: Outcome)
      requires Valid()
      modifies incoming
      ensures r.NoSource? <==> forall v: nat :: !Source(adjacents, v)
      ensures r.Sorted? <==> |adjacents| > 0 && !Cyclic(adjacents)
      ensures r.Sorted? ==> IsTopological(adjacents, r.order)
    {
      hide Cyclic, Source, Between, IsTopological;
      Recompute();
      ghost var count := incoming[..];
      var q := QueueSources();
      SourcesStart(adjacents, count);
      if q.size == 0 {
        NoSourceCycles(adjacents, count);
        return NoSource;
      }
      SomeSource(adjacents, count);
      r := Drain(q);
    }

    /** The main loop, and the assertion behind it. */
    method Drain(q: Queue) returns (r: Outcome)
      requires Valid() && q.Valid() && q.data != incoming && |adjacents| > 0
      requires Between(adjacents, incoming[..], [], q.Contents())
      modifies incoming, q, q.data
      ensures r.Sorted? <==> !Cyclic(adjacents)
      ensures r.Sorted? ==> IsTopological(adjacents, r.order)
      ensures !r.NoSource?
    {
      hide Cyclic, Between, Inv, IsTopological, WellFormed;
      var ret := new nat[|adjacents|];
      var i := 0;
      assert ret[..i] == [];
      while q.size != 0
        invariant q.Valid() && (q.data == old(q.data) || fresh(q.data)) && q.data != ret && q.data != incoming
        invariant i <= ret.Length
        invariant Between(adjacents, incoming[..], ret[..i], q.Contents())
        decreases |adjacents| - i
      {
        Room(adjacents, incoming[..], ret[..i], q.Contents());
        Step(q, ret, i);
        i := i + 1;
      }
      assert q.Contents() == [];
      Finish(adjacents, incoming[..], ret[..i]);
      if i == |adjacents| {
        assert ret[..i] == ret[..];
        return Sorted(ret[..]);
      } else {
        return Miscounted;
      }
    }

    /** One round of the main loop: the front of the queue is the next of the result. */
    method Step(q: Queue, ret: array<nat>, i: nat)
      requires Valid() && q.Valid() && q.data != incoming && q.data != ret && ret != incoming && q.size != 0
      requires i < ret.Length && Between(adjacents, incoming[..], ret[..i], q.Contents())
      modifies incoming, q, q.data, ret
      ensures q.Valid() && (q.data == old(q.data) || fresh(q.data))
      ensures Between(adjacents, incoming[..], ret[..i + 1], q.Contents())
    {
      hide Between, Inv, WellFormed;
      ghost var queue, out := q.Contents(), ret[..i];
      Take(adjacents, incoming[..], out, queue);
      var current := q.Front();
      q.Pop();
      ret[i] := current;
      assert ret[..i + 1] == out + [current];
      Explore(q, current, out + [current]);
    }

    /** Takes the edges of a vertex away and queues the vertices that lose their last one. */
    method Explore(q: Queue, current: nat, ghost out: seq<nat>)
      requires Valid() && q.Valid() && q.data != incoming
      requires Inv(adjacents, incoming[..], out, q.Contents(), current, 0)
      modifies incoming, q, q.data
      ensures q.Valid() && (q.data == old(q.data) || fresh(q.data))
      ensures Between(adjacents, incoming[..], out, q.Contents())
    {
      hide Cyclic, Forward, Distinct, Below, Incoming, EdgesTo, Between, Inv, WellFormed;
      ghost var adj := adjacents;
      var k := 0;
      Current(adj, incoming[..], out, q.Contents(), current, k);
      while k < |adjacents[current]|
        invariant k <= |adjacents[current]| && q.Valid() && q.data != incoming && (q.data == old(q.data) || fresh(q.data))
        invariant Inv(adj, incoming[..], out, q.Contents(), current, k)
      {
        var v := adjacents[current][k].id;
        ghost var count, queue := incoming[..], q.Contents();
        Drop(adj, count, out, queue, current, k);
        incoming[v] := incoming[v] - 1;
        assert incoming[..] == count[v := count[v] - 1];
        assert q.Contents() == queue;
        if incoming[v] == 0 {
          q.Push(v);
        }
        k := k + 1;
      }
      NextVertex(adj, incoming[..], out, q.Contents(), current);
    }
  }

  lemma Current(adj: Adjacency, count: seq<nat>, out: seq<nat>, queue: seq<nat>, c: nat, k: nat)
    requires Inv(adj, count, out, queue, c, k)
    ensures c < |adj|
  {
  }

  lemma Room(adj: Adjacency, count: seq<nat>, out: seq<nat>, queue: seq<nat>)
    requires Between(adj, count, out, queue)
    ensures |out| + |queue| <= |adj|
  {
    SizeBound(out + queue, |adj|);
  }

  /** The vertices below `m` with a count of zero. */
  function Sources(count: seq<nat>, m: nat): seq<nat>
    requires m <= |count|
  {
    if m == 0 then []
    else Sources(count, m - 1) + (if count[m - 1] == 0 then [m - 1] else [])
  }

  lemma {:induction false} SourcesAre(count: seq<nat>, m: nat)
    requires m <= |count|
    ensures Distinct(Sources(count, m)) && Below(Sources(count, m), m)
    ensures forall v: nat :: v < m ==> (v in Sources(count, m) <==> count[v] == 0)
  {
    if m > 0 {
      SourcesAre(count, m - 1);
    }
  }

  lemma NoSources(count: seq<nat>)
    ensures Sources(count, 0) == []
  {
  }

  lemma SourcesNext(count: seq<nat>, i: nat)
    requires i < |count|
    ensures Sources(count, i + 1) == if count[i] == 0 then Sources(count, i) + [i] else Sources(count, i)
  {
  }

  lemma SourcesStart(adj: Adjacency, count: seq<nat>)
    requires WellFormed(adj) && |count| == |adj|
    requires forall v {:trigger count[v]} :: 0 <= v < |adj| ==> count[v] == Incoming(adj, {}, |adj|, v)
    ensures Between(adj, count, [], Sources(count, |count|))
  {
    SourcesAre(count, |count|);
    assert [] + Sources(count, |count|) == Sources(count, |count|);
    assert Elements([]) == {};
  }

  /** No edge leads to `v`. */
  ghost predicate Source(adj: Adjacency, v: nat) {
    v < |adj| && forall u {:trigger HasEdge(adj, u, v)} :: !HasEdge(adj, u, v)
  }

  lemma SourceCount(adj: Adjacency, v: nat)
    requires v < |adj|
    ensures Source(adj, v) <==> Incoming(adj, {}, |adj|, v) == 0
  {
    if Incoming(adj, {}, |adj|, v) > 0 {
      var u, k := IncomingSome(adj, {}, |adj|, v);
      assert HasEdge(adj, u, v);
    } else {
      forall u: nat {:trigger HasEdge(adj, u, v)}
        ensures !HasEdge(adj, u, v)
      {
        if HasEdge(adj, u, v) {
          var k: nat :| k < |adj[u]| && adj[u][k].id == v;
          IncomingZero(adj, {}, |adj|, v, u, k);
        }
      }
    }
  }

  lemma SomeSource(adj: Adjacency, count: seq<nat>)
    requires |count| == |adj| && Sources(count, |count|) != []
    requires forall v {:trigger count[v]} :: 0 <= v < |adj| ==> count[v] == Incoming(adj, {}, |adj|, v)
    ensures |adj| > 0 && !(forall v: nat :: !Source(adj, v))
  {
    hide Source, Incoming;
    SourcesAre(count, |count|);
    var v := Sources(count, |count|)[0];
    assert v in Sources(count, |count|);
    SourceCount(adj, v);
    assert Source(adj, v);
  }

  lemma NoSourceCycles(adj: Adjacency, count: seq<nat>)
    requires WellFormed(adj) && |count| == |adj| && Sources(count, |count|) == []
    requires forall v {:trigger count[v]} :: 0 <= v < |adj| ==> count[v] == Incoming(adj, {}, |adj|, v)
    ensures |adj| > 0 ==> Cyclic(adj)
    ensures forall v: nat :: !Source(adj, v)
  {
    hide Incoming, Cyclic, Distinct, Below, Between;
    SourcesStart(adj, count);
    SourcesAre(count, |count|);
    if |adj| > 0 {
      Leftover(adj, count, []);
    }
    forall v: nat | v < |adj|
      ensures !Source(adj, v)
    {
      assert v !in Sources(count, |count|);
      assert count[v] != 0;
      SourceCount(adj, v);
    }
  }
}

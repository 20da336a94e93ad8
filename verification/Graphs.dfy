/** Directed graphs with weighted adjacency lists, and walks in them. */
module Graphs {

  datatype Edge = Edge(id: nat, weight: nat)

  /** `adj[u]`: the edges that leave vertex `u`, in the order of its list. */
  type Adjacency = seq<seq<Edge>>

  predicate WellFormed(adj: Adjacency) {
    forall u, k {:trigger adj[u][k]} :: 0 <= u < |adj| && 0 <= k < |adj[u]| ==> adj[u][k].id < |adj|
  }

  /** A walk is the sequence of the edges taken, given by their places in the lists. */
  datatype Walk = Here | Via(before: Walk, k: nat)

  predicate IsWalk(adj: Adjacency, src: nat, w: Walk)
    requires WellFormed(adj) && src < |adj|
    decreases w, 0
  {
    w.Via? ==> IsWalk(adj, src, w.before) && w.k < |adj[End(adj, src, w.before)]|
  }

  function End(adj: Adjacency, src: nat, w: Walk): (v: nat)
    requires WellFormed(adj) && src < |adj|
    requires IsWalk(adj, src, w)
    ensures v < |adj|
    decreases w, 1
  {
    match w
    case Here => src
    case Via(before, k) => adj[End(adj, src, before)][k].id
  }

  function Weight(adj: Adjacency, src: nat, w: Walk): nat
    requires WellFormed(adj) && src < |adj|
    requires IsWalk(adj, src, w)
  {
    match w
    case Here => 0
    case Via(before, k) => Weight(adj, src, before) + adj[End(adj, src, before)][k].weight
  }

  ghost predicate Leads(adj: Adjacency, src: nat, w: Walk, v: nat)
    requires WellFormed(adj) && src < |adj|
  {
    IsWalk(adj, src, w) && End(adj, src, w) == v
  }

  ghost predicate Reachable(adj: Adjacency, src: nat, v: nat)
    requires WellFormed(adj) && src < |adj|
  {
    exists w :: Leads(adj, src, w, v)
  }
}

/** Reachability over a finite set of directed edges. */
module Graphs {
  import opened Types

  /** `p` lists the vertices after `u` on a walk that ends in `v`. */
  ghost predicate Walk(edges: set<Edge>, u: TxID, p: seq<TxID>, v: TxID)
    decreases |p|
  {
    if p == [] then u == v else Edge(u, p[0]) in edges && Walk(edges, p[0], p[1..], v)
  }

  ghost predicate Reach(edges: set<Edge>, u: TxID, v: TxID) {
    exists p :: Walk(edges, u, p, v)
  }

  ghost predicate Mutual(edges: set<Edge>, u: TxID, v: TxID) {
    Reach(edges, u, v) && Reach(edges, v, u)
  }

  ghost predicate SuccClosed(edges: set<Edge>, s: set<TxID>) {
    forall e :: e in edges && e.src in s ==> e.dst in s
  }

  ghost predicate PredClosed(edges: set<Edge>, s: set<TxID>) {
    forall e :: e in edges && e.dst in s ==> e.src in s
  }

  ghost function Within(edges: set<Edge>, s: set<TxID>): set<Edge> {
    set e | e in edges && e.src in s && e.dst in s
  }

  ghost function Reversed(edges: set<Edge>): set<Edge> {
    set e | e in edges :: Edge(e.dst, e.src)
  }

  ghost predicate Joins(e: Edge, u: TxID, v: TxID) {
    e == Edge(u, v) || e == Edge(v, u)
  }

  lemma ReachRefl(edges: set<Edge>, u: TxID)
    ensures Reach(edges, u, u)
  {
    assert Walk(edges, u, [], u);
  }

  lemma ReachEdge(edges: set<Edge>, u: TxID, v: TxID)
    requires Edge(u, v) in edges
    ensures Reach(edges, u, v)
  {
    assert Walk(edges, v, [v][1..], v);
    assert Walk(edges, u, [v], v);
  }

  lemma {:induction false} WalkConcat(edges: set<Edge>, u: TxID, p: seq<TxID>, v: TxID, q: seq<TxID>, w: TxID)
    requires Walk(edges, u, p, v) && Walk(edges, v, q, w)
    ensures Walk(edges, u, p + q, w)
    decreases |p|
  {
    if p == [] {
      assert p + q == q;
    } else {
      WalkConcat(edges, p[0], p[1..], v, q, w);
      assert (p + q)[1..] == p[1..] + q;
    }
  }

  lemma ReachTrans(edges: set<Edge>, u: TxID, v: TxID, w: TxID)
    requires Reach(edges, u, v) && Reach(edges, v, w)
    ensures Reach(edges, u, w)
  {
    var p :| Walk(edges, u, p, v);
    var q :| Walk(edges, v, q, w);
    WalkConcat(edges, u, p, v, q, w);
  }

  lemma {:induction false} WalkStaysIn(edges: set<Edge>, s: set<TxID>, u: TxID, p: seq<TxID>, v: TxID)
    requires Walk(edges, u, p, v) && SuccClosed(edges, s) && u in s
    ensures v in s
    decreases |p|
  {
    if p != [] {
      WalkStaysIn(edges, s, p[0], p[1..], v);
    }
  }

  /** A successor-closed set is never left. */
  lemma ReachStaysIn(edges: set<Edge>, s: set<TxID>, u: TxID, v: TxID)
    requires Reach(edges, u, v) && SuccClosed(edges, s) && u in s
    ensures v in s
  {
    var p :| Walk(edges, u, p, v);
    WalkStaysIn(edges, s, u, p, v);
  }

  lemma {:induction false} WalkComesFrom(edges: set<Edge>, s: set<TxID>, u: TxID, p: seq<TxID>, v: TxID)
    requires Walk(edges, u, p, v) && PredClosed(edges, s) && v in s
    ensures u in s
    decreases |p|
  {
    if p != [] {
      WalkComesFrom(edges, s, p[0], p[1..], v);
    }
  }

  /** A predecessor-closed set is never entered. */
  lemma ReachComesFrom(edges: set<Edge>, s: set<TxID>, u: TxID, v: TxID)
    requires Reach(edges, u, v) && PredClosed(edges, s) && v in s
    ensures u in s
  {
    var p :| Walk(edges, u, p, v);
    WalkComesFrom(edges, s, u, p, v);
  }

  lemma {:induction false} WalkMono(small: set<Edge>, large: set<Edge>, u: TxID, p: seq<TxID>, v: TxID)
    requires small <= large && Walk(small, u, p, v)
    ensures Walk(large, u, p, v)
    decreases |p|
  {
    if p != [] {
      WalkMono(small, large, p[0], p[1..], v);
    }
  }

  lemma ReachMono(small: set<Edge>, large: set<Edge>, u: TxID, v: TxID)
    requires small <= large && Reach(small, u, v)
    ensures Reach(large, u, v)
  {
    var p :| Walk(small, u, p, v);
    WalkMono(small, large, u, p, v);
  }

  lemma {:induction false} WalkReversed(edges: set<Edge>, u: TxID, p: seq<TxID>, v: TxID)
    requires Walk(edges, u, p, v)
    ensures Reach(Reversed(edges), v, u)
    decreases |p|
  {
    if p == [] {
      ReachRefl(Reversed(edges), u);
    } else {
      WalkReversed(edges, p[0], p[1..], v);
      assert Edge(p[0], u) in Reversed(edges) by {
        assert Edge(u, p[0]) in edges;
      }
      ReachEdge(Reversed(edges), p[0], u);
      ReachTrans(Reversed(edges), v, p[0], u);
    }
  }

  lemma ReachReversed(edges: set<Edge>, u: TxID, v: TxID)
    ensures Reach(edges, u, v) <==> Reach(Reversed(edges), v, u)
  {
    if Reach(edges, u, v) {
      var p :| Walk(edges, u, p, v);
      WalkReversed(edges, u, p, v);
    }
    if Reach(Reversed(edges), v, u) {
      var p :| Walk(Reversed(edges), v, p, u);
      WalkReversed(Reversed(edges), v, p, u);
      assert Reversed(Reversed(edges)) == edges by {
        forall e | e in edges ensures e in Reversed(Reversed(edges)) {
          assert Edge(e.dst, e.src) in Reversed(edges);
        }
      }
    }
  }

  /** A walk between two members of `s` stays in `s` when `s` holds every vertex
      between them, so it is a walk of the subgraph. */
  lemma {:induction false} WalkWithin(edges: set<Edge>, s: set<TxID>, u: TxID, p: seq<TxID>, v: TxID)
    requires Walk(edges, u, p, v)
    requires forall w :: Reach(edges, u, w) && Reach(edges, w, v) ==> w in s
    ensures Reach(Within(edges, s), u, v)
    decreases |p|
  {
    if p == [] {
      ReachRefl(Within(edges, s), u);
    } else {
      var next := p[0];
      ReachEdge(edges, u, next);
      assert Reach(edges, next, v);
      forall w | Reach(edges, next, w) && Reach(edges, w, v) ensures w in s {
        ReachTrans(edges, u, next, w);
      }
      WalkWithin(edges, s, next, p[1..], v);
      ReachRefl(edges, u);
      ReachRefl(edges, next);
      ReachTrans(edges, u, next, v);
      assert u in s && next in s;
      ReachEdge(Within(edges, s), u, next);
      ReachTrans(Within(edges, s), u, next, v);
    }
  }

  /** A strongly connected class is strongly connected by its own edges. */
  lemma ClassReachWithin(edges: set<Edge>, s: set<TxID>, u: TxID, v: TxID)
    requires u in s && v in s
    requires forall w :: w in s <==> Mutual(edges, u, w)
    ensures Reach(Within(edges, s), u, v)
  {
    var p :| Walk(edges, u, p, v);
    forall w | Reach(edges, u, w) && Reach(edges, w, v) ensures w in s {
      ReachTrans(edges, w, v, u);
    }
    WalkWithin(edges, s, u, p, v);
  }

  lemma MutualTrans(edges: set<Edge>, u: TxID, v: TxID, w: TxID)
    requires Mutual(edges, u, v) && Mutual(edges, v, w)
    ensures Mutual(edges, u, w)
  {
    ReachTrans(edges, u, v, w);
    ReachTrans(edges, w, v, u);
  }

  // ----- Adjacency lists

  type Adjacency = map<TxID, seq<TxID>>

  ghost function AdjEdges(adj: Adjacency): set<Edge> {
    set u, v | u in adj && v in adj[u] :: Edge(u, v)
  }

  function Neighbors(adj: Adjacency, u: TxID): seq<TxID> {
    if u in adj then adj[u] else []
  }

  lemma AdjAdd(adj: Adjacency, u: TxID, v: TxID)
    ensures AdjEdges(adj[u := Neighbors(adj, u) + [v]]) == AdjEdges(adj) + {Edge(u, v)}
  {
    var grown := adj[u := Neighbors(adj, u) + [v]];
    forall e ensures e in AdjEdges(grown) <==> e in AdjEdges(adj) || e == Edge(u, v) {
      assert e in AdjEdges(grown) <==> e.src in grown && e.dst in grown[e.src];
      assert e in AdjEdges(adj) <==> e.src in adj && e.dst in adj[e.src];
    }
  }
}

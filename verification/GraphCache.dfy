/**
  The order leader's materialized graph as a value: what it must be for a given
  evidence state, and which pairs a batch can change in it.
 */
module GraphCache {
  import opened Types
  import opened Graphs
  import opened FairOrder
  import opened EvidenceSpec
  import opened PairFacts
  import opened Growth

  type Nbrs = map<TxID, set<TxID>>

  ghost function Arrows(nbrs: Nbrs): set<Edge> {
    set u, v | u in nbrs && v in nbrs[u] :: Edge(u, v)
  }

  datatype Cache = Cache(nodes: set<TxID>, txStates: map<TxID, TxState>, weights: map<Edge, nat>, edges: Nbrs,
                         inverse: Nbrs)

  ghost function OutOf(edges: set<Edge>, nodes: set<TxID>): Nbrs {
    map u | u in nodes :: set v | v in nodes && Edge(u, v) in edges
  }

  /** The graph re-materialized from the evidence state alone. */
  ghost function Rebuild(p: Params, s: Evidence): Cache {
    var g := GraphOf(p, s);
    Cache(g.nodes, s.states, s.weights, OutOf(g.edges, g.nodes), OutOf(Reversed(g.edges), g.nodes))
  }

  lemma NbrsUnique(a: Nbrs, b: Nbrs)
    requires a.Keys == b.Keys && Arrows(a) == Arrows(b)
    ensures a == b
  {
    forall u | u in a ensures a[u] == b[u] {
      forall v ensures v in a[u] <==> v in b[u] {
        assert v in a[u] <==> Edge(u, v) in Arrows(a);
        assert v in b[u] <==> Edge(u, v) in Arrows(b);
      }
    }
  }

  lemma ArrowsOutOf(edges: set<Edge>, nodes: set<TxID>)
    requires forall e :: e in edges ==> e.src in nodes && e.dst in nodes
    ensures Arrows(OutOf(edges, nodes)) == edges
  {
    forall e | e in edges ensures e in Arrows(OutOf(edges, nodes)) {
      assert e == Edge(e.src, e.dst);
    }
  }

  lemma GraphProper(p: Params, s: Evidence)
    ensures Proper(GraphOf(p, s))
  {
  }

  lemma RebuildArrows(p: Params, s: Evidence)
    ensures Arrows(Rebuild(p, s).edges) == GraphOf(p, s).edges
    ensures Arrows(Rebuild(p, s).inverse) == Reversed(GraphOf(p, s).edges)
  {
    var g := GraphOf(p, s);
    GraphProper(p, s);
    ArrowsOutOf(g.edges, g.nodes);
    ArrowsOutOf(Reversed(g.edges), g.nodes);
  }

  /** To be the rebuilt cache is to have its vertices, states, weights and edges. */
  lemma IsRebuild(p: Params, s: Evidence, c: Cache)
    requires c.nodes == Active(s) && c.txStates == s.states && c.weights == s.weights
    requires c.edges.Keys == c.nodes && c.inverse.Keys == c.nodes
    requires Arrows(c.edges) == GraphOf(p, s).edges && Arrows(c.inverse) == Reversed(GraphOf(p, s).edges)
    ensures c == Rebuild(p, s)
  {
    RebuildArrows(p, s);
    NbrsUnique(c.edges, Rebuild(p, s).edges);
    NbrsUnique(c.inverse, Rebuild(p, s).inverse);
  }

  // ----- One pair

  ghost predicate Selected(nodes: set<TxID>, weights: map<Edge, nat>, threshold: int, e: Edge) {
    e.src in nodes && e.dst in nodes
    && EdgePred(e.src, e.dst, Count(weights, e), Count(weights, Edge(e.dst, e.src)), threshold)
  }

  lemma SelectedIsEdge(p: Params, s: Evidence, weights: map<Edge, nat>, e: Edge)
    requires Count(weights, e) == Count(s.weights, e)
    requires Count(weights, Edge(e.dst, e.src)) == Count(s.weights, Edge(e.dst, e.src))
    ensures Selected(Active(s), weights, p.EdgeThreshold(), e) <==> e in GraphOf(p, s).edges
  {
  }

  // ----- What a batch can change

  ghost predicate Normal(pairs: set<Pair>) {
    forall q :: q in pairs ==> q.a <= q.b
  }

  lemma TouchedNormal(s: Evidence, t: Evidence)
    ensures Normal(TouchedPairs(s, t))
  {
  }

  lemma PairOfIs(q: Pair, e: Edge)
    requires q.a <= q.b
    ensures PairOf(e) == q <==> Joins(e, q.a, q.b)
  {
  }

  lemma Untouched(s: Evidence, t: Evidence, touched: set<TxID>, e: Edge)
    requires s.live == Positioned(s.pos) && t.live == Positioned(t.pos) && Counted(s) && Counted(t)
    requires Advances(s, t, touched) && PairOf(e) !in ChangedPairs(s.weights, t.weights)
    ensures Count(s.weights, e) == Count(t.weights, e)
  {
    WeightsAdvance(s, t, touched, e);
  }

  lemma UntouchedEndpoint(s: Evidence, t: Evidence, u: TxID, v: TxID)
    requires u in Active(t) && v in Active(t) && u != v && Activated(s, t, u)
    ensures MakePair(u, v) in ActivatedPairs(s, t)
  {
  }

  /** Every pair whose edge can change is touched. */
  lemma EdgesChangeOnlyWhereTouched(p: Params, s: Evidence, t: Evidence, touched: set<TxID>, e: Edge)
    requires p.Ok() && Valid(p, s) && Valid(p, t) && Advances(s, t, touched) && PairOf(e) !in TouchedPairs(s, t)
    ensures Count(s.weights, e) == Count(t.weights, e)
    ensures e in GraphOf(p, t).edges <==> e in GraphOf(p, s).edges
  {
    hide TouchedPairs, ChangedPairs, ActivatedPairs, Advances, VisibilityOf, WeightsOf, AllLogs, GraphOf;
    TouchedIsBoth(s, t, PairOf(e));
    var back := Edge(e.dst, e.src);
    assert PairOf(back) == PairOf(e);
    Untouched(s, t, touched, e);
    Untouched(s, t, touched, back);
    ActiveGrows(p, s, t, touched);
    EdgeIf(p, s, e);
    EdgeIf(p, t, e);
    if e.src in Active(t) && e.dst in Active(t) && e.src != e.dst {
      if Activated(s, t, e.src) {
        UntouchedEndpoint(s, t, e.src, e.dst);
      }
      if Activated(s, t, e.dst) {
        UntouchedEndpoint(s, t, e.dst, e.src);
      }
    }
  }

  lemma TouchedIsBoth(s: Evidence, t: Evidence, q: Pair)
    ensures q in TouchedPairs(s, t) <==> q in ChangedPairs(s.weights, t.weights) || q in ActivatedPairs(s, t)
  {
  }

  lemma EdgeIf(p: Params, s: Evidence, e: Edge)
    ensures e in GraphOf(p, s).edges
       <==> e.src != e.dst && e.src in Active(s) && e.dst in Active(s)
            && EdgePred(e.src, e.dst, Count(s.weights, e), Count(s.weights, Edge(e.dst, e.src)), p.EdgeThreshold())
  {
  }
}

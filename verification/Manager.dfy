/** `DependencyManager` (pkg/ofo/dependency.go:313-433, 582-628). */
module Manager {
  import opened Types
  import opened Collections
  import opened Graphs
  import opened EvidenceSpec
  import opened EvidenceFacts
  import opened PairFacts
  import opened Growth
  import opened GraphCache
  import opened Tarjan

  /** `delete(m[u], v)` on a possibly absent inner map. */
  function Drop(nbrs: Nbrs, u: TxID, v: TxID): (r: Nbrs)
    ensures r.Keys == nbrs.Keys
    ensures Arrows(r) == Arrows(nbrs) - {Edge(u, v)}
  {
    var r := if u in nbrs then nbrs[u := nbrs[u] - {v}] else nbrs;
    assert forall e :: e in Arrows(r) <==> e in Arrows(nbrs) && e != Edge(u, v) by { DropArrows(nbrs, u, v, r); }
    r
  }

  lemma DropArrows(nbrs: Nbrs, u: TxID, v: TxID, r: Nbrs)
    requires r == if u in nbrs then nbrs[u := nbrs[u] - {v}] else nbrs
    ensures forall e :: e in Arrows(r) <==> e in Arrows(nbrs) && e != Edge(u, v)
  {
    forall e ensures e in Arrows(r) <==> e in Arrows(nbrs) && e != Edge(u, v) {
      assert e in Arrows(r) <==> e.src in r && e.dst in r[e.src];
      assert e in Arrows(nbrs) <==> e.src in nbrs && e.dst in nbrs[e.src];
    }
  }

  lemma LinkArrows(nbrs: Nbrs, u: TxID, v: TxID)
    requires u in nbrs
    ensures Arrows(nbrs[u := nbrs[u] + {v}]) == Arrows(nbrs) + {Edge(u, v)}
  {
    var r := nbrs[u := nbrs[u] + {v}];
    forall e ensures e in Arrows(r) <==> e in Arrows(nbrs) || e == Edge(u, v) {
      assert e in Arrows(r) <==> e.src in r && e.dst in r[e.src];
      assert e in Arrows(nbrs) <==> e.src in nbrs && e.dst in nbrs[e.src];
    }
  }

  lemma FreshArrows(nbrs: Nbrs, u: TxID)
    requires u !in nbrs
    ensures Arrows(nbrs[u := {}]) == Arrows(nbrs)
  {
    var r := nbrs[u := {}];
    forall e ensures e in Arrows(r) <==> e in Arrows(nbrs) {
      assert e in Arrows(r) <==> e.src in r && e.dst in r[e.src];
      assert e in Arrows(nbrs) <==> e.src in nbrs && e.dst in nbrs[e.src];
    }
  }

  /** `edges` after a pair was refreshed: the chosen direction, or none. */
  ghost predicate PairRefreshed(nodes: set<TxID>, weights: map<Edge, nat>, threshold: int, before: set<Edge>,
                                after: set<Edge>, u: TxID, v: TxID) {
    forall e :: e in after <==> if Joins(e, u, v) then Selected(nodes, weights, threshold, e) else e in before
  }

  lemma NoneSelected(nodes: set<TxID>, weights: map<Edge, nat>, threshold: int, before: set<Edge>, u: TxID, v: TxID)
    requires !Selected(nodes, weights, threshold, Edge(u, v)) && !Selected(nodes, weights, threshold, Edge(v, u))
    ensures PairRefreshed(nodes, weights, threshold, before, before - {Edge(u, v), Edge(v, u)}, u, v)
  {
  }

  /** The two directions of a pair exclude each other. */
  lemma OneSelected(nodes: set<TxID>, weights: map<Edge, nat>, threshold: int, before: set<Edge>, u: TxID, v: TxID)
    requires Selected(nodes, weights, threshold, Edge(u, v))
    ensures PairRefreshed(nodes, weights, threshold, before, before - {Edge(u, v), Edge(v, u)} + {Edge(u, v)}, u, v)
    ensures PairRefreshed(nodes, weights, threshold, before, before - {Edge(v, u), Edge(u, v)} + {Edge(u, v)}, v, u)
  {
  }

  lemma ReversedDrop(edges: set<Edge>, u: TxID, v: TxID)
    ensures Reversed(edges - {Edge(u, v), Edge(v, u)}) == Reversed(edges) - {Edge(u, v), Edge(v, u)}
  {
    var dropped := edges - {Edge(u, v), Edge(v, u)};
    forall f | f in Reversed(edges) - {Edge(u, v), Edge(v, u)} ensures f in Reversed(dropped) {
      assert Edge(f.dst, f.src) in dropped;
    }
  }

  class DependencyManager {
    var nodes: set<TxID>
    var txStates: map<TxID, TxState>
    var weights: map<Edge, nat>
    var edges: Nbrs
    var inverseEdges: Nbrs
    const edgeThreshold: int

    function View(): Cache
      reads this
    {
      Cache(nodes, txStates, weights, edges, inverseEdges)
    }

    ghost predicate Transposed()
      reads this
    {
      edges.Keys == nodes && inverseEdges.Keys == nodes && Arrows(inverseEdges) == Reversed(Arrows(edges))
    }

    constructor (p: Params)
      ensures edgeThreshold == p.EdgeThreshold() && View() == Cache({}, map[], map[], map[], map[])
    {
      nodes, txStates, weights, edges, inverseEdges := {}, map[], map[], map[], map[];
      edgeThreshold := p.EdgeThreshold();
    }

    constructor Clone(src: DependencyManager)
      ensures View() == src.View() && edgeThreshold == src.edgeThreshold
    {
      nodes, txStates, weights := src.nodes, src.txStates, src.weights;
      edges, inverseEdges, edgeThreshold := src.edges, src.inverseEdges, src.edgeThreshold;
    }

    method RefreshPair(u: TxID, v: TxID)
      requires Transposed()
      modifies `edges, `inverseEdges
      ensures Transposed()
      ensures PairRefreshed(nodes, weights, edgeThreshold, Arrows(old(edges)), Arrows(edges), u, v)
    {
      hide Reversed, Arrows, EdgePred, PairRefreshed, Transposed;
      ghost var before := Arrows(edges);
      RemovePair(u, v);
      if u !in nodes || v !in nodes {
        NoneSelected(nodes, weights, edgeThreshold, before, u, v);
        return;
      }
      var wUV, wVU := Count(weights, Edge(u, v)), Count(weights, Edge(v, u));
      if EdgePred(u, v, wUV, wVU, edgeThreshold) {
        OneSelected(nodes, weights, edgeThreshold, before, u, v);
        AddEdge(u, v);
      } else if EdgePred(v, u, wVU, wUV, edgeThreshold) {
        OneSelected(nodes, weights, edgeThreshold, before, v, u);
        AddEdge(v, u);
      } else {
        NoneSelected(nodes, weights, edgeThreshold, before, u, v);
      }
    }

    method RemovePair(u: TxID, v: TxID)
      requires Transposed()
      modifies `edges, `inverseEdges
      ensures Transposed() && Arrows(edges) == Arrows(old(edges)) - {Edge(u, v), Edge(v, u)}
    {
      edges := Drop(Drop(edges, u, v), v, u);
      inverseEdges := Drop(Drop(inverseEdges, u, v), v, u);
      ReversedDrop(Arrows(old(edges)), u, v);
    }

    method AddEdge(u: TxID, v: TxID)
      requires Transposed() && u in nodes && v in nodes
      modifies `edges, `inverseEdges
      ensures Transposed() && Arrows(edges) == Arrows(old(edges)) + {Edge(u, v)}
    {
      LinkArrows(edges, u, v);
      LinkArrows(inverseEdges, v, u);
      ReversedSnoc(Arrows(edges), Edge(u, v));
      edges := edges[u := edges[u] + {v}];
      inverseEdges := inverseEdges[v := inverseEdges[v] + {u}];
    }

    /** The weights of a pair, read again from the evidence; a zero is not kept. */
    method RefreshWeights(w: map<Edge, nat>, q: Pair)
      requires NoZeros(weights)
      modifies `weights
      ensures NoZeros(weights)
      ensures forall e :: Count(weights, e) == if Joins(e, q.a, q.b) then Count(w, e) else Count(old(weights), e)
    {
      RefreshWeight(w, Edge(q.a, q.b));
      RefreshWeight(w, Edge(q.b, q.a));
    }

    method RefreshWeight(w: map<Edge, nat>, key: Edge)
      requires NoZeros(weights)
      modifies `weights
      ensures NoZeros(weights)
      ensures forall e :: Count(weights, e) == if e == key then Count(w, e) else Count(old(weights), e)
    {
      var weight := Count(w, key);
      if weight != 0 {
        weights := weights[key := weight];
      } else {
        weights := weights - {key};
      }
    }

    /** The first loop of `refresh`. */
    method AddNodes(t: Evidence, touched: set<TxID>, pairs: set<Pair>) returns (pairs': set<Pair>)
      requires Transposed()
      modifies `txStates, `nodes, `edges, `inverseEdges
      ensures Transposed() && Arrows(edges) == Arrows(old(edges))
      ensures nodes == old(nodes) + Entering(t, touched)
      ensures txStates == old(txStates) + StatesFor(t, touched)
      ensures pairs' == pairs + EnteringPairs(t, old(nodes), touched)
    {
      pairs' := pairs;
      var rest := touched;
      NobodyEnters(t, nodes, txStates, pairs);
      assert touched - rest == {};
      while rest != {}
        invariant rest <= touched && Transposed() && Arrows(edges) == Arrows(old(edges))
        invariant Added(t, old(nodes), old(txStates), pairs, nodes, txStates, pairs', touched - rest)
        decreases rest
      {
        hide *;
        var id :| id in rest;
        Enters(t, old(nodes), old(txStates), pairs, nodes, txStates, pairs', touched - rest, id);
        assert touched - (rest - {id}) == touched - rest + {id};
        txStates := txStates[id := StateOf(t, id)];
        if StateOf(t, id) != Blank && id !in nodes {
          AddNode(id);
          var incident := IncidentPairs(id, t.live);
          pairs' := pairs' + incident;
        }
        rest := rest - {id};
      }
      assert touched - rest == touched;
    }

    method AddNode(id: TxID)
      requires Transposed() && id !in nodes
      modifies `nodes, `edges, `inverseEdges
      ensures Transposed() && nodes == old(nodes) + {id} && Arrows(edges) == Arrows(old(edges))
    {
      FreshArrows(edges, id);
      FreshArrows(inverseEdges, id);
      nodes := nodes + {id};
      edges := edges[id := {}];
      inverseEdges := inverseEdges[id := {}];
    }

    /** The second loop of `refresh`, over the pairs in any order. */
    method RefreshPairs(t: Evidence, pairs: set<Pair>)
      requires Transposed() && NoZeros(weights) && Normal(pairs)
      modifies `weights, `edges, `inverseEdges
      ensures Transposed() && NoZeros(weights)
      ensures MixedWeights(weights, old(weights), t.weights, pairs)
      ensures MixedEdges(Arrows(edges), Arrows(old(edges)), nodes, t.weights, edgeThreshold, pairs)
    {
      var rest := pairs;
      assert pairs - rest == {};
      while rest != {}
        invariant rest <= pairs && Transposed() && NoZeros(weights)
        invariant MixedWeights(weights, old(weights), t.weights, pairs - rest)
        invariant MixedEdges(Arrows(edges), Arrows(old(edges)), nodes, t.weights, edgeThreshold, pairs - rest)
        decreases rest
      {
        hide Arrows, MixedWeights, MixedEdges, PairRefreshed, NoZeros, Transposed, Normal, Joins;
        var pair :| pair in rest;
        ghost var w, arrows := weights, Arrows(edges);
        RefreshWeights(t.weights, pair);
        RefreshPair(pair.a, pair.b);
        MixedStep(w, weights, old(weights), t.weights, pairs - rest, pair) by { NormalAt(pairs, pair); }
        MixedEdgesStep(arrows, Arrows(edges), Arrows(old(edges)), nodes, weights, t.weights, edgeThreshold,
                       pairs - rest, pair) by {
          NormalAt(pairs, pair);
        }
        assert pairs - (rest - {pair}) == pairs - rest + {pair};
        rest := rest - {pair};
      }
      assert pairs - rest == pairs;
    }

    /** `refresh` after an accepted batch: the incremental graph is the rebuilt one. */
    method Refresh(ghost p: Params, ghost s: Evidence, t: Evidence, touched: set<TxID>, pairs: set<Pair>)
      requires p.Ok() && Valid(p, s) && Valid(p, t) && Advances(s, t, touched) && edgeThreshold == p.EdgeThreshold()
      requires View() == Rebuild(p, s) && pairs == TouchedPairs(s, t)
      modifies this
      ensures View() == Rebuild(p, t)
    {
      hide Valid, Advances, TouchedPairs, Rebuild, MixedWeights, MixedEdges, Arrows, Reversed, EnteringPairs, Entering,
        StatesFor,
        NoZeros, Normal, GraphOf;
      RebuildParts(p, s, View());
      var touchedPairs := AddNodes(t, touched, pairs);
      EnteringIs(p, s, t, touched);
      assert touchedPairs == pairs;
      TouchedNormal(s, t);
      RefreshPairs(t, touchedPairs);
      MixedIsRebuild(p, s, t, touched, View());
    }

    /** Deletes one finalized id; an id that is no node only loses its state. */
    method RemoveNode(id: TxID)
      requires Transposed()
      modifies `nodes, `txStates, `edges, `inverseEdges
      ensures Transposed() && nodes == old(nodes) - {id} && txStates == old(txStates) - {id}
      ensures Arrows(edges) == Avoiding(Arrows(old(edges)), {id})
    {
      hide Arrows, Reversed, Avoiding;
      var parents := if id in inverseEdges then inverseEdges[id] else {};
      ghost var before := Arrows(edges);
      NeighborsOf(inverseEdges, id, parents);
      var cut := DropAll(edges, parents, id);
      var children := if id in cut then cut[id] else {};
      NeighborsOf(cut, id, children);
      var cutInverse := DropAll(inverseEdges, children, id);
      WithoutKey(cut, id);
      WithoutKey(cutInverse, id);
      ParentsCut(before, Arrows(inverseEdges), id, parents, Arrows(cut));
      ChildrenCut(before, Arrows(inverseEdges), Arrows(cut), id, parents, children, Arrows(cutInverse),
                  Arrows(cutInverse - {id}));
      BothCut(before, Arrows(cut), id, Arrows(cut - {id}));
      edges, inverseEdges := cut - {id}, cutInverse - {id};
      nodes, txStates := nodes - {id}, txStates - {id};
    }

    /** `removeFinalized`: what is left is the rebuilt graph of the finalized state. */
    method RemoveFinalized(ghost p: Params, ghost s: Evidence, gone: set<TxID>, ghost batches: seq<FairnessBatch>,
                           ghost part: seq<SCCClaim>)
      requires Valid(p, s) && View() == Rebuild(p, s) && gone == Released(batches)
      modifies this
      ensures View() == Rebuild(p, Finalized(s, batches, part))
    {
      hide Valid, Rebuild, Arrows, Reversed, Avoiding, Finalized, GraphOf, Active, Released;
      RebuildParts(p, s, View());
      var rest := gone;
      assert gone - rest == {};
      AvoidNone(Arrows(edges));
      while rest != {}
        invariant rest <= gone && Transposed() && weights == old(weights)
        invariant nodes == old(nodes) - (gone - rest) && txStates == old(txStates) - (gone - rest)
        invariant Arrows(edges) == Avoiding(Arrows(old(edges)), gone - rest)
        decreases rest
      {
        hide *;
        var id :| id in rest;
        AvoidMore(Arrows(old(edges)), gone - rest, id);
        assert gone - (rest - {id}) == gone - rest + {id};
        RemoveNode(id);
        rest := rest - {id};
      }
      assert gone - rest == gone;
      weights := map e | e in weights && e.src !in gone && e.dst !in gone :: weights[e];
      RemovedIsRebuild(p, s, batches, part, View());
    }

    /** `graph`: sorted adjacency lists; a node without successors has no entry. */
    method Graph() returns (graph: DependencyGraph)
      requires Transposed()
      ensures graph.nodes == nodes && AdjEdges(graph.edges) == Arrows(edges)
      ensures graph.edges.Keys <= nodes
      ensures forall u :: u in graph.edges ==> Distinct(graph.edges[u])
    {
      var lists: Adjacency := map[];
      var rest := edges.Keys;
      while rest != {}
        invariant rest <= edges.Keys && lists.Keys <= edges.Keys - rest
        invariant forall u :: u in edges && u !in rest ==> Lists(lists, edges, u)
        decreases rest
      {
        hide Distinct, Elems, Ascending;
        var u :| u in rest;
        var sorted := SortedSet(edges[u]);
        AscendingDistinct(sorted);
        if sorted != [] {
          lists := lists[u := sorted];
        }
        ListsAt(lists, edges, u, sorted);
        rest := rest - {u};
      }
      ListsAll(lists, edges);
      return DependencyGraph(nodes, lists);
    }
  }

  ghost predicate Lists(lists: Adjacency, edges: Nbrs, u: TxID)
    requires u in edges
  {
    Distinct(Neighbors(lists, u)) && Elems(Neighbors(lists, u)) == edges[u]
  }

  lemma ListsAt(lists: Adjacency, edges: Nbrs, u: TxID, sorted: seq<TxID>)
    requires u in edges && Distinct(sorted) && Elems(sorted) == edges[u] && Neighbors(lists, u) == sorted
    ensures Lists(lists, edges, u)
  {
  }

  lemma ListsAll(lists: Adjacency, edges: Nbrs)
    requires lists.Keys <= edges.Keys && forall u :: u in edges ==> Lists(lists, edges, u)
    ensures AdjEdges(lists) == Arrows(edges)
    ensures forall u :: u in lists ==> Distinct(lists[u])
  {
    hide Distinct;
    forall e ensures e in AdjEdges(lists) <==> e in Arrows(edges) {
      assert e in Arrows(edges) <==> e.src in edges && e.dst in edges[e.src];
      assert e in AdjEdges(lists) <==> e.src in lists && e.dst in lists[e.src];
      if e.src in edges {
        assert Lists(lists, edges, e.src);
        assert e.dst in Elems(Neighbors(lists, e.src)) <==> e.dst in Neighbors(lists, e.src);
      }
    }
    forall u | u in lists ensures Distinct(lists[u]) {
      assert Lists(lists, edges, u);
    }
  }

  /** `delete(nbrs[u], id)` for every `u` of a set. */
  method DropAll(nbrs: Nbrs, ids: set<TxID>, id: TxID) returns (r: Nbrs)
    ensures r.Keys == nbrs.Keys
    ensures forall e :: e in Arrows(r) <==> e in Arrows(nbrs) && !(e.src in ids && e.dst == id)
  {
    r := nbrs;
    var rest := ids;
    while rest != {}
      invariant rest <= ids && r.Keys == nbrs.Keys
      invariant forall e :: e in Arrows(r) <==> e in Arrows(nbrs) && !(e.src in ids && e.src !in rest && e.dst == id)
      decreases rest
    {
      hide Arrows;
      var u :| u in rest;
      r := Drop(r, u, id);
      rest := rest - {u};
    }
  }

  // ----- Removal

  ghost function Avoiding(edges: set<Edge>, gone: set<TxID>): set<Edge> {
    set e | e in edges && e.src !in gone && e.dst !in gone
  }

  lemma AvoidNone(edges: set<Edge>)
    ensures Avoiding(edges, {}) == edges
  {
  }

  lemma AvoidMore(edges: set<Edge>, gone: set<TxID>, id: TxID)
    ensures Avoiding(Avoiding(edges, gone), {id}) == Avoiding(edges, gone + {id})
  {
  }

  lemma NeighborsOf(nbrs: Nbrs, id: TxID, found: set<TxID>)
    requires found == if id in nbrs then nbrs[id] else {}
    ensures forall u :: u in found <==> Edge(id, u) in Arrows(nbrs)
  {
  }

  lemma WithoutKey(nbrs: Nbrs, id: TxID)
    ensures forall e :: e in Arrows(nbrs - {id}) <==> e in Arrows(nbrs) && e.src != id
  {
    forall e ensures e in Arrows(nbrs - {id}) <==> e in Arrows(nbrs) && e.src != id {
      assert e in Arrows(nbrs - {id}) <==> e.src in nbrs - {id} && e.dst in (nbrs - {id})[e.src];
      assert e in Arrows(nbrs) <==> e.src in nbrs && e.dst in nbrs[e.src];
    }
  }

  lemma ParentsCut(before: set<Edge>, inverse: set<Edge>, id: TxID, parents: set<TxID>, cut: set<Edge>)
    requires inverse == Reversed(before) && forall u :: u in parents <==> Edge(id, u) in inverse
    requires forall e :: e in cut <==> e in before && !(e.src in parents && e.dst == id)
    ensures cut == set e | e in before && e.dst != id
  {
    forall e | e in before && e.dst == id ensures e.src in parents {
      assert Edge(id, e.src) in Reversed(before);
    }
  }

  lemma BothCut(before: set<Edge>, cut: set<Edge>, id: TxID, rest: set<Edge>)
    requires cut == (set e | e in before && e.dst != id) && forall e :: e in rest <==> e in cut && e.src != id
    ensures rest == Avoiding(before, {id})
  {
  }

  lemma ChildrenCut(before: set<Edge>, inverse: set<Edge>, cut: set<Edge>, id: TxID, parents: set<TxID>,
                    children: set<TxID>,
                    cutInverse: set<Edge>, rest: set<Edge>)
    requires inverse == Reversed(before) && cut == set e | e in before && e.dst != id
    requires forall u :: u in children <==> Edge(id, u) in cut
    requires forall e :: e in cutInverse <==> e in inverse && !(e.src in children && e.dst == id)
    requires forall e :: e in rest <==> e in cutInverse && e.src != id
    ensures rest == Reversed(Avoiding(before, {id}))
  {
    forall e ensures e in rest <==> e in Reversed(Avoiding(before, {id})) {
      var back := Edge(e.dst, e.src);
      assert e in Reversed(before) <==> back in before;
      assert e in Reversed(Avoiding(before, {id})) <==> back in Avoiding(before, {id});
    }
  }

  lemma RemovedIsRebuild(p: Params, s: Evidence, batches: seq<FairnessBatch>, part: seq<SCCClaim>, c: Cache)
    requires var gone := Released(batches);
      && c.nodes == Active(s) - gone && c.txStates == s.states - gone && c.weights == ForgetWeights(s.weights, gone)
      && c.edges.Keys == c.nodes && c.inverse.Keys == c.nodes
      && Arrows(c.edges) == Avoiding(GraphOf(p, s).edges, gone) && Arrows(c.inverse) == Reversed(Arrows(c.edges))
    ensures c == Rebuild(p, Finalized(s, batches, part))
  {
    FinalizedGraph(p, s, batches, part);
    hide Arrows, Released, Rebuild, Reversed, ForgetWeights;
    IsRebuild(p, Finalized(s, batches, part), c);
  }


  lemma ReversedSnoc(edges: set<Edge>, e: Edge)
    ensures Reversed(edges + {e}) == Reversed(edges) + {Edge(e.dst, e.src)}
  {
    forall f | f in Reversed(edges) + {Edge(e.dst, e.src)} ensures f in Reversed(edges + {e}) {
      assert Edge(f.dst, f.src) in edges + {e};
    }
  }

  ghost predicate NoZeros(w: map<Edge, nat>) {
    forall e :: e in w ==> w[e] != 0
  }

  // ----- The first loop

  ghost function Entering(t: Evidence, touched: set<TxID>): set<TxID> {
    set u | u in touched && StateOf(t, u) != Blank
  }

  ghost function StatesFor(t: Evidence, touched: set<TxID>): map<TxID, TxState> {
    map u | u in touched :: StateOf(t, u)
  }

  ghost function EnteringPairs(t: Evidence, before: set<TxID>, touched: set<TxID>): set<Pair> {
    set u, v | u in touched && v in t.live && u != v && StateOf(t, u) != Blank && u !in before :: MakePair(u, v)
  }

  ghost predicate Added(t: Evidence, nodes0: set<TxID>, states0: map<TxID, TxState>, pairs0: set<Pair>,
                        nodes: set<TxID>, states: map<TxID, TxState>, pairs: set<Pair>, done: set<TxID>) {
    && nodes == nodes0 + Entering(t, done)
    && states == states0 + StatesFor(t, done)
    && pairs == pairs0 + EnteringPairs(t, nodes0, done)
  }

  lemma NobodyEnters(t: Evidence, nodes0: set<TxID>, states0: map<TxID, TxState>, pairs0: set<Pair>)
    ensures Added(t, nodes0, states0, pairs0, nodes0, states0, pairs0, {})
  {
    assert EnteringPairs(t, nodes0, {}) == {};
  }

  lemma Enters(t: Evidence, nodes0: set<TxID>, states0: map<TxID, TxState>, pairs0: set<Pair>,
               nodes: set<TxID>, states: map<TxID, TxState>, pairs: set<Pair>, done: set<TxID>, id: TxID)
    requires Added(t, nodes0, states0, pairs0, nodes, states, pairs, done) && id !in done
    ensures var states' := states[id := StateOf(t, id)];
      if StateOf(t, id) != Blank && id !in nodes then
        Added(t, nodes0, states0, pairs0, nodes + {id}, states', pairs + Incident(id, t.live), done + {id})
      else
        Added(t, nodes0, states0, pairs0, nodes, states', pairs, done + {id})
  {
    hide StateOf;
    EnteringPairsStep(t, nodes0, done, id);
  }

  lemma EnteringPairsStep(t: Evidence, nodes0: set<TxID>, done: set<TxID>, id: TxID)
    ensures EnteringPairs(t, nodes0, done + {id})
         == if StateOf(t, id) != Blank && id !in nodes0 then EnteringPairs(t, nodes0, done) + Incident(id, t.live)
            else EnteringPairs(t, nodes0, done)
  {
    hide StateOf;
    var more := EnteringPairs(t, nodes0, done + {id});
    if StateOf(t, id) != Blank && id !in nodes0 {
      assert more == EnteringPairs(t, nodes0, done) + Incident(id, t.live);
    } else {
      assert more == EnteringPairs(t, nodes0, done);
    }
  }

  // ----- The second loop

  ghost predicate MixedWeights(w: map<Edge, nat>, w0: map<Edge, nat>, w1: map<Edge, nat>, done: set<Pair>) {
    forall e :: Count(w, e) == if PairOf(e) in done then Count(w1, e) else Count(w0, e)
  }

  ghost predicate MixedEdges(edges: set<Edge>, edges0: set<Edge>, nodes: set<TxID>, w1: map<Edge, nat>, threshold: int,
                             done: set<Pair>) {
    forall e :: e in edges <==> if PairOf(e) in done then Selected(nodes, w1, threshold, e) else e in edges0
  }

  lemma NormalAt(pairs: set<Pair>, q: Pair)
    requires Normal(pairs) && q in pairs
    ensures q.a <= q.b
  {
  }

  lemma MixedStep(before: map<Edge, nat>, after: map<Edge, nat>, w0: map<Edge, nat>, w1: map<Edge, nat>,
                  done: set<Pair>, q: Pair)
    requires MixedWeights(before, w0, w1, done) && q.a <= q.b
    requires forall e :: Count(after, e) == if Joins(e, q.a, q.b) then Count(w1, e) else Count(before, e)
    ensures MixedWeights(after, w0, w1, done + {q})
  {
    forall e ensures PairOf(e) == q <==> Joins(e, q.a, q.b) {
      PairOfIs(q, e);
    }
    hide PairOf, Joins, Count;
  }

  lemma MixedEdgesStep(before: set<Edge>, after: set<Edge>, edges0: set<Edge>, nodes: set<TxID>, w: map<Edge, nat>,
                       w1: map<Edge, nat>,
                       threshold: int, done: set<Pair>, q: Pair)
    requires MixedEdges(before, edges0, nodes, w1, threshold, done) && q.a <= q.b
    requires forall e :: Joins(e, q.a, q.b) ==> Count(w, e) == Count(w1, e)
    requires PairRefreshed(nodes, w, threshold, before, after, q.a, q.b)
    ensures MixedEdges(after, edges0, nodes, w1, threshold, done + {q})
  {
    forall e ensures PairOf(e) == q <==> Joins(e, q.a, q.b) {
      PairOfIs(q, e);
    }
    forall e | Joins(e, q.a, q.b) ensures Selected(nodes, w, threshold, e) <==> Selected(nodes, w1, threshold, e) {
      assert Joins(Edge(e.dst, e.src), q.a, q.b);
    }
    hide PairOf, Joins, Selected;
  }

  // ----- Assembly

  lemma RebuildParts(p: Params, s: Evidence, c: Cache)
    requires Valid(p, s) && c == Rebuild(p, s)
    ensures c.nodes == Active(s) && c.txStates == s.states && c.weights == s.weights
    ensures c.edges.Keys == c.nodes && c.inverse.Keys == c.nodes
    ensures Arrows(c.edges) == GraphOf(p, s).edges && Arrows(c.inverse) == Reversed(GraphOf(p, s).edges)
    ensures NoZeros(c.weights)
  {
    hide *;
    RebuildArrows(p, s);
    RebuildFields(p, s);
    ValidWeights(p, s);
  }

  lemma RebuildFields(p: Params, s: Evidence)
    ensures var c := Rebuild(p, s);
      && c.nodes == Active(s) && c.txStates == s.states && c.weights == s.weights
      && c.edges.Keys == c.nodes && c.inverse.Keys == c.nodes
  {
    hide Active;
  }

  lemma ValidWeights(p: Params, s: Evidence)
    requires Valid(p, s)
    ensures NoZeros(s.weights)
  {
    hide AllLogs, VisibilityOf, ClassesOf, Backers;
  }

  lemma EnteringIs(p: Params, s: Evidence, t: Evidence, touched: set<TxID>)
    requires p.Ok() && Valid(p, s) && Valid(p, t) && Advances(s, t, touched)
    ensures Active(s) + Entering(t, touched) == Active(t)
    ensures s.states + StatesFor(t, touched) == t.states
    ensures EnteringPairs(t, Active(s), touched) <= TouchedPairs(s, t)
  {
    hide *;
    ValidKeys(p, s);
    ValidKeys(p, t);
    ActiveGrows(p, s, t, touched);
    forall u ensures u !in touched ==> StateOf(s, u) == StateOf(t, u) {
      StateAdvances(p, s, t, touched, u);
    }
    AdvancesKeys(s, t, touched);
    EnteringNodes(s, t, touched);
    EnteringStates(s, t, touched);
    EnteringActivated(s, t, touched);
  }

  lemma ValidKeys(p: Params, s: Evidence)
    requires Valid(p, s)
    ensures s.states.Keys == s.live && Classified(p, s)
  {
  }

  lemma AdvancesKeys(s: Evidence, t: Evidence, touched: set<TxID>)
    requires Advances(s, t, touched)
    ensures s.live <= t.live <= s.live + touched && touched <= t.live
  {
  }

  lemma EnteringNodes(s: Evidence, t: Evidence, touched: set<TxID>)
    requires s.states.Keys == s.live && t.states.Keys == t.live && touched <= t.live && Active(s) <= Active(t)
    requires forall u :: u in Active(t) && u !in Active(s) ==> u in touched
    ensures Active(s) + Entering(t, touched) == Active(t)
  {
  }

  lemma EnteringStates(s: Evidence, t: Evidence, touched: set<TxID>)
    requires s.states.Keys == s.live && t.states.Keys == t.live && s.live <= t.live <= s.live + touched
    requires touched <= t.live
    requires forall u :: u !in touched ==> StateOf(s, u) == StateOf(t, u)
    ensures s.states + StatesFor(t, touched) == t.states
  {
    forall u | u in s.live && u !in touched ensures s.states[u] == t.states[u] {
      assert StateOf(s, u) == StateOf(t, u);
    }
  }

  lemma EnteringActivated(s: Evidence, t: Evidence, touched: set<TxID>)
    requires s.states.Keys == s.live && t.states.Keys == t.live && touched <= t.live
    requires forall u :: u in Active(t) && u !in Active(s) ==> Activated(s, t, u)
    ensures EnteringPairs(t, Active(s), touched) <= TouchedPairs(s, t)
  {
    hide ChangedPairs, Activated;
    forall u | u in touched && StateOf(t, u) != Blank ensures u in Active(t) {
    }
  }

  lemma MixedIsRebuild(p: Params, s: Evidence, t: Evidence, touched: set<TxID>, c: Cache)
    requires p.Ok() && Valid(p, s) && Valid(p, t) && Advances(s, t, touched)
    requires c.nodes == Active(t) && c.txStates == t.states && NoZeros(c.weights)
    requires c.edges.Keys == c.nodes && c.inverse.Keys == c.nodes && Arrows(c.inverse) == Reversed(Arrows(c.edges))
    requires MixedWeights(c.weights, s.weights, t.weights, TouchedPairs(s, t))
    requires MixedEdges(Arrows(c.edges), GraphOf(p, s).edges, Active(t), t.weights, p.EdgeThreshold(),
                        TouchedPairs(s, t))
    ensures c == Rebuild(p, t)
  {
    hide Valid, Advances, TouchedPairs, GraphOf, Active, Selected, Arrows, Rebuild, PairOf, Reversed;
    forall e
      ensures Count(c.weights, e) == Count(t.weights, e) && (e in Arrows(c.edges) <==> e in GraphOf(p, t).edges)
    {
      if PairOf(e) in TouchedPairs(s, t) {
        SelectedIsEdge(p, t, t.weights, e);
      } else {
        EdgesChangeOnlyWhereTouched(p, s, t, touched, e);
      }
    }
    assert Arrows(c.edges) == GraphOf(p, t).edges;
    SameCounts(c.weights, t.weights) by { RebuildParts(p, t, Rebuild(p, t)); WeightsOfRebuild(p, t); }
    IsRebuild(p, t, c);
  }

  lemma WeightsOfRebuild(p: Params, t: Evidence)
    ensures Rebuild(p, t).weights == t.weights
  {
  }

  lemma SameCounts(a: map<Edge, nat>, b: map<Edge, nat>)
    requires NoZeros(a) && NoZeros(b) && forall e :: Count(a, e) == Count(b, e)
    ensures a == b
  {
    forall e: Edge ensures e in a <==> e in b {
      assert Count(a, e) == Count(b, e);
    }
    forall e | e in a ensures a[e] == b[e] {
      assert Count(a, e) == Count(b, e);
    }
  }
}

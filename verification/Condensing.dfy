/** `BuildCondensationAndSCCInfo` (pkg/ofo/dependency.go:632-660). */
module Condensing {
  import opened Types
  import opened Collections
  import opened Graphs
  import opened FairOrder
  import opened EvidenceSpec
  import opened CertificateSpec
  import opened Kahn
  import opened CrossEdges
  import opened Tarjan

  ghost predicate AllSolid(s: Evidence, component: seq<TxID>) {
    forall u :: u in component ==> StateOf(s, u) == Solid
  }

  /** A component is Solid when all its members are. */
  ghost predicate InfosOk(infos: map<nat, SCCInfo>, sccs: seq<seq<TxID>>, s: Evidence) {
    ClaimInfos(infos, sccs) && forall k :: 0 <= k < |sccs| ==> (infos[k].solid <==> AllSolid(s, sccs[k]))
  }

  method NumberComponent(s: Evidence, component: seq<TxID>, index: nat, comp0: map<TxID, nat>)
    returns (comp: map<TxID, nat>, allSolid: bool)
    ensures comp.Keys == comp0.Keys + Elems(component)
    ensures forall u :: u in comp ==> comp[u] == if u in component then index else comp0[u]
    ensures allSolid <==> AllSolid(s, component)
  {
    comp, allSolid := comp0, true;
    for k := 0 to |component|
      invariant comp.Keys == comp0.Keys + Elems(component[..k])
      invariant forall u :: u in comp ==> comp[u] == if u in component[..k] then index else comp0[u]
      invariant allSolid <==> forall j :: 0 <= j < k ==> StateOf(s, component[j]) == Solid
    {
      hide StateOf;
      ElemsGrow(component, k);
      assert component[..k + 1] == component[..k] + [component[k]];
      comp := comp[component[k] := index];
      if StateOf(s, component[k]) != Solid {
        allSolid := false;
      }
    }
    assert component[..|component|] == component;
  }

  lemma NumbersMore(sccs: seq<seq<TxID>>, k: nat, comp0: map<TxID, nat>, comp: map<TxID, nat>)
    requires k < |sccs| && Disjoint(sccs) && Numbers(comp0, sccs[..k])
    requires comp.Keys == comp0.Keys + Elems(sccs[k])
    requires forall u :: u in comp ==> comp[u] == if u in sccs[k] then k else comp0[u]
    ensures Numbers(comp, sccs[..k + 1])
  {
    var before, after := sccs[..k], sccs[..k + 1];
    forall u | u in comp0 ensures comp0[u] < k {
      NumberInRange(comp0, before, u);
    }
    forall u, j: nat ensures u in comp && comp[u] == j <==> 0 <= j < |after| && u in after[j] {
      if j < k {
        assert after[j] == before[j] == sccs[j];
        assert u in comp0 && comp0[u] == j <==> u in before[j];
      }
    }
  }

  method NumberAll(s: Evidence, sccs: seq<seq<TxID>>) returns (comp: map<TxID, nat>, infos: map<nat, SCCInfo>)
    requires Disjoint(sccs)
    ensures Numbers(comp, sccs) && InfosOk(infos, sccs, s)
  {
    comp, infos := map[], map[];
    for index := 0 to |sccs|
      invariant Numbers(comp, sccs[..index])
      invariant forall k :: k in infos <==> 0 <= k < index
      invariant forall k :: 0 <= k < index ==> infos[k].txs == sccs[k] && (infos[k].solid <==> AllSolid(s, sccs[k]))
    {
      hide Numbers, Disjoint, AllSolid, Elems;
      ghost var before := comp;
      var allSolid;
      comp, allSolid := NumberComponent(s, sccs[index], index, comp);
      NumbersMore(sccs, index, before, comp);
      infos := infos[index := SCCInfo(sccs[index], allSolid)];
    }
    assert sccs[..|sccs|] == sccs;
  }

  // ----- The cross pairs

  /** The edges whose source is not in `rest`. */
  ghost function EdgesFrom(adj: Adjacency, froms: set<TxID>): set<Edge> {
    set e | e in AdjEdges(adj) && e.src in froms
  }

  ghost function RowEdges(from: TxID, neighbors: seq<TxID>): set<Edge> {
    set to | to in neighbors :: Edge(from, to)
  }

  lemma RowMore(from: TxID, neighbors: seq<TxID>, k: nat)
    requires k < |neighbors|
    ensures RowEdges(from, neighbors[..k + 1]) == RowEdges(from, neighbors[..k]) + {Edge(from, neighbors[k])}
  {
    assert neighbors[..k + 1] == neighbors[..k] + [neighbors[k]];
  }

  lemma FromMore(adj: Adjacency, froms: set<TxID>, from: TxID)
    requires from in adj
    ensures EdgesFrom(adj, froms + {from}) == EdgesFrom(adj, froms) + RowEdges(from, adj[from])
  {
    forall to | to in adj[from] ensures Edge(from, to) in AdjEdges(adj) {
    }
  }

  lemma FromAll(adj: Adjacency)
    ensures EdgesFrom(adj, {}) == {} && EdgesFrom(adj, adj.Keys) == AdjEdges(adj)
  {
  }

  ghost predicate Condensed(cond: Condensation, comp: map<TxID, nat>, edges: set<Edge>, seen: set<(nat, nat)>,
                            keys: set<nat>) {
    Condenses(cond, comp, edges) && Seen(cond, seen) && cond.Keys == keys
  }

  lemma CondensedMore(cond: Condensation, comp: map<TxID, nat>, edges: set<Edge>, seen: set<(nat, nat)>, keys: set<nat>,
                      e: Edge)
    requires Condensed(cond, comp, edges, seen, keys) && e.src in comp && e.dst in comp && comp[e.src] in keys
    ensures var u, v := comp[e.src], comp[e.dst];
      if u != v && (u, v) !in seen then
        Condensed(cond[u := Succs(cond, u) + [v]], comp, edges + {e}, seen + {(u, v)}, keys)
      else
        Condensed(cond, comp, edges + {e}, seen, keys)
  {
    var u, v := comp[e.src], comp[e.dst];
    if u != v && (u, v) !in seen {
      CondensesNew(cond, comp, edges, e, Succs(cond, u) + [v]);
      hide Condenses;
    } else {
      CondensesSame(cond, comp, edges, e);
    }
  }

  method CondenseRow(from: TxID, neighbors: seq<TxID>, comp: map<TxID, nat>, cond0: Condensation,
                     seen0: set<(nat, nat)>,
                     ghost edges: set<Edge>, ghost keys: set<nat>)
    returns (cond: Condensation, seen: set<(nat, nat)>)
    requires Condensed(cond0, comp, edges, seen0, keys)
    requires from in comp && comp[from] in keys && forall to :: to in neighbors ==> to in comp
    ensures Condensed(cond, comp, edges + RowEdges(from, neighbors), seen, keys)
  {
    hide *;
    cond, seen := cond0, seen0;
    RowNone(from, neighbors, edges);
    for k := 0 to |neighbors|
      invariant Condensed(cond, comp, edges + RowEdges(from, neighbors[..k]), seen, keys)
    {
      var to := neighbors[k];
      RowMore(from, neighbors, k);
      assert edges + RowEdges(from, neighbors[..k]) + {Edge(from, to)} == edges + RowEdges(from, neighbors[..k + 1]);
      CondensedMore(cond, comp, edges + RowEdges(from, neighbors[..k]), seen, keys, Edge(from, to));
      var u, v := comp[from], comp[to];
      if u != v && (u, v) !in seen {
        seen := seen + {(u, v)};
        cond := cond[u := Succs(cond, u) + [v]];
      }
    }
    assert neighbors[..|neighbors|] == neighbors;
  }

  lemma RowNone(from: TxID, neighbors: seq<TxID>, edges: set<Edge>)
    ensures edges + RowEdges(from, neighbors[..0]) == edges
  {
  }

  lemma NothingCondensed(cond: Condensation, comp: map<TxID, nat>, keys: set<nat>)
    requires cond.Keys == keys && forall k :: k in cond ==> cond[k] == []
    ensures Condensed(cond, comp, {}, {}, keys)
  {
    assert forall a: nat :: Succs(cond, a) == [];
  }

  method CondenseAll(adj: Adjacency, comp: map<TxID, nat>, n: nat, ghost keys: set<nat>) returns (cond: Condensation)
    requires (forall k :: k in keys <==> 0 <= k < n) && Inside(adj, comp, keys)
    ensures cond.Keys == keys && Condenses(cond, comp, AdjEdges(adj))
  {
    hide *;
    cond := map[];
    for index := 0 to n
      invariant (forall k :: k in cond <==> 0 <= k < index) && forall k :: k in cond ==> cond[k] == []
    {
      cond := cond[index := []];
    }
    assert cond.Keys == keys;
    NothingCondensed(cond, comp, keys);
    FromAll(adj);
    var seen: set<(nat, nat)> := {};
    var rest := adj.Keys;
    assert adj.Keys - rest == {};
    while rest != {}
      invariant rest <= adj.Keys && Condensed(cond, comp, EdgesFrom(adj, adj.Keys - rest), seen, keys)
      decreases rest
    {
      var from :| from in rest;
      FromMore(adj, adj.Keys - rest, from);
      assert adj.Keys - (rest - {from}) == adj.Keys - rest + {from};
      InsideAt(adj, comp, keys, from);
      cond, seen := CondenseRow(from, adj[from], comp, cond, seen, EdgesFrom(adj, adj.Keys - rest), keys);
      rest := rest - {from};
    }
    assert adj.Keys - rest == adj.Keys;
    CondensedIs(cond, comp, AdjEdges(adj), seen, keys);
  }

  ghost predicate Inside(adj: Adjacency, comp: map<TxID, nat>, keys: set<nat>) {
    forall u :: u in adj ==> u in comp && comp[u] in keys && forall v :: v in adj[u] ==> v in comp
  }

  lemma InsideAt(adj: Adjacency, comp: map<TxID, nat>, keys: set<nat>, from: TxID)
    requires Inside(adj, comp, keys) && from in adj
    ensures from in comp && comp[from] in keys && forall v :: v in adj[from] ==> v in comp
  {
  }

  lemma CondensedIs(cond: Condensation, comp: map<TxID, nat>, edges: set<Edge>, seen: set<(nat, nat)>, keys: set<nat>)
    requires Condensed(cond, comp, edges, seen, keys)
    ensures Condenses(cond, comp, edges) && cond.Keys == keys
  {
  }

  lemma PartitionInside(graph: DependencyGraph, sccs: seq<seq<TxID>>, comp: map<TxID, nat>, infos: map<nat, SCCInfo>)
    requires Closed(graph) && IsPartition(graph, sccs) && Numbers(comp, sccs) && ClaimInfos(infos, sccs)
    ensures comp.Keys == graph.nodes && Inside(graph.edges, comp, infos.Keys)
  {
    hide AreComponents, Distinct;
    forall u ensures u in comp <==> u in graph.nodes {
      if u in comp {
        NumberInRange(comp, sccs, u);
      }
      UptoNumbers(comp, sccs, |sccs|, u);
    }
    forall u | u in graph.edges ensures u in comp && comp[u] in infos && forall v :: v in graph.edges[u] ==> v in comp {
      NumberInRange(comp, sccs, u);
      forall v | v in graph.edges[u] ensures v in comp {
        assert v in Elems(graph.edges[u]);
      }
    }
  }

  method BuildCondensationAndSCCInfo(graph: DependencyGraph, sccs: seq<seq<TxID>>, s: Evidence)
    returns (cond: Condensation, comp: map<TxID, nat>, infos: map<nat, SCCInfo>)
    requires Closed(graph) && IsPartition(graph, sccs)
    ensures Numbers(comp, sccs) && comp.Keys == graph.nodes && InfosOk(infos, sccs, s)
    ensures Condenses(cond, comp, AdjEdges(graph.edges)) && cond.Keys == infos.Keys
  {
    PartitionApart(graph, sccs);
    hide Closed, IsPartition, Numbers, Inside, Condenses;
    comp, infos := NumberAll(s, sccs);
    PartitionInside(graph, sccs, comp, infos);
    cond := CondenseAll(graph.edges, comp, |sccs|, infos.Keys);
  }

  lemma PartitionApart(graph: DependencyGraph, sccs: seq<seq<TxID>>)
    requires IsPartition(graph, sccs)
    ensures Disjoint(sccs) && Nonempty(sccs)
  {
  }
}

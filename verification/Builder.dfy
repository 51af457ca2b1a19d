/**
  `buildProposal` (pkg/ofo/dependency.go:435-483): what the order leader builds from its
  cached graph is always accepted by the graph-free verifier.
 */
module Builder {
  import opened Types
  import opened Collections
  import opened Graphs
  import opened FairOrder
  import opened EvidenceSpec
  import opened CertificateSpec
  import opened Kahn
  import opened CrossEdges
  import opened ForestVerifier
  import opened Verifier
  import opened TarjanFacts
  import opened Tarjan
  import opened GraphCache
  import opened Manager
  import opened TreeBuilder
  import opened ForestBuilder
  import opened Condensing
  import opened Selection

  // ----- The claims

  lemma ComponentSpanned(edges: set<Edge>, sccs: seq<seq<TxID>>, k: nat, root: TxID)
    requires AreComponents(edges, sccs) && k < |sccs| && root in sccs[k]
    ensures Spanned(edges, Elems(sccs[k]), root)
    ensures Spanned(Reversed(edges), Elems(sccs[k]), root)
  {
    hide Disjoint, Ascending;
    forall v | v in Elems(sccs[k])
      ensures Reach(Within(edges, Elems(sccs[k])), root, v)
      ensures Reach(Within(Reversed(edges), Elems(sccs[k])), root, v)
    {
      var comp := Elems(sccs[k]);
      forall u, w | u in sccs[k] ensures w in comp <==> Mutual(edges, u, w) {
        assert w in sccs[k] <==> Mutual(edges, u, w);
      }
      ClassReachWithin(edges, comp, root, v);
      ClassReachWithin(edges, comp, v, root);
      ReachReversed(Within(edges, comp), v, root);
      ReversedWithin(edges, comp);
    }
  }

  lemma ReversedWithin(edges: set<Edge>, s: set<TxID>)
    ensures Reversed(Within(edges, s)) == Within(Reversed(edges), s)
  {
    forall f | f in Within(Reversed(edges), s) ensures f in Reversed(Within(edges, s)) {
      assert Edge(f.dst, f.src) in Within(edges, s);
    }
  }

  /** One claim of the partition, with its two trees. */
  method BuildClaim(dm: DependencyManager, ghost edges: set<Edge>, component: seq<TxID>, rank: nat,
                    ghost sccs: seq<seq<TxID>>, ghost k: nat)
    returns (claim: SCCClaim)
    requires AreComponents(edges, sccs) && k < |sccs| && component == sccs[k]
    requires Arrows(dm.edges) == edges && Arrows(dm.inverseEdges) == Reversed(edges)
    ensures claim.rank == rank && claim.txs == component && ClaimOk(edges, claim)
  {
    ComponentFacts(edges, sccs, k);
    ComponentSpanned(edges, sccs, k, component[0]);
    hide *;
    AscendingDistinct(component);
    var transactions := SortTxIDs(component);
    AscendingUnique(transactions, component);
    var root := transactions[0];
    AlongIs(edges, dm.edges, dm.inverseEdges);
    var inTree := SpanningTree(edges, root, transactions, dm.inverseEdges, true);
    var outTree := SpanningTree(edges, root, transactions, dm.edges, false);
    claim := SCCClaim(transactions, inTree, outTree, rank);
    ClaimIsOk(edges, claim);
  }

  lemma ComponentFacts(edges: set<Edge>, sccs: seq<seq<TxID>>, k: nat)
    requires AreComponents(edges, sccs) && k < |sccs|
    ensures sccs[k] != [] && Ascending(sccs[k])
  {
  }

  lemma AlongIs(edges: set<Edge>, out: Nbrs, into: Nbrs)
    requires Arrows(out) == edges && Arrows(into) == Reversed(edges)
    ensures Along(edges, out, false) && Along(edges, into, true)
  {
  }

  lemma ClaimIsOk(edges: set<Edge>, claim: SCCClaim)
    requires claim.txs != [] && |claim.inTree| == |claim.txs| - 1 && |claim.outTree| == |claim.txs| - 1
    requires TreeOk(edges, claim.txs[0], Elems(claim.txs), claim.outTree, false)
    requires TreeOk(edges, claim.txs[0], Elems(claim.txs), claim.inTree, true)
    ensures ClaimOk(edges, claim)
  {
  }

  ghost predicate Built(edges: set<Edge>, counter: nat, sccs: seq<seq<TxID>>, ordered: seq<nat>, n: nat,
                        part: seq<SCCClaim>, batches: seq<FairnessBatch>)
    requires n <= |ordered|
  {
    && |part| == n && |batches| == n
    && forall i :: 0 <= i < n ==>
         && ordered[i] < |sccs|
         && batches[i] == FairnessBatch(counter + i + 1, sccs[ordered[i]])
         && part[i].rank == i && part[i].txs == sccs[ordered[i]] && ClaimOk(edges, part[i])
  }

  lemma BuiltMore(edges: set<Edge>, counter: nat, sccs: seq<seq<TxID>>, ordered: seq<nat>, n: nat, part: seq<SCCClaim>,
                  batches: seq<FairnessBatch>,
                  claim: SCCClaim)
    requires n < |ordered| && Built(edges, counter, sccs, ordered, n, part, batches) && ordered[n] < |sccs|
    requires claim.rank == n && claim.txs == sccs[ordered[n]] && ClaimOk(edges, claim)
    ensures Built(edges, counter, sccs, ordered, n + 1, part + [claim],
                  batches + [FairnessBatch(counter + n + 1, claim.txs)])
  {
    hide ClaimOk;
  }

  lemma BuiltNone(edges: set<Edge>, counter: nat, sccs: seq<seq<TxID>>, ordered: seq<nat>)
    ensures Built(edges, counter, sccs, ordered, 0, [], [])
  {
  }

  method BuildBatches(dm: DependencyManager, ghost edges: set<Edge>, infos: map<nat, SCCInfo>, ordered: seq<nat>,
                      counter: nat, ghost sccs: seq<seq<TxID>>)
    returns (batches: seq<FairnessBatch>, part: seq<SCCClaim>)
    requires AreComponents(edges, sccs) && ClaimInfos(infos, sccs) && Elems(ordered) <= infos.Keys
    requires Arrows(dm.edges) == edges && Arrows(dm.inverseEdges) == Reversed(edges)
    ensures Built(edges, counter, sccs, ordered, |ordered|, part, batches)
  {
    hide *;
    batches, part := [], [];
    BuiltNone(edges, counter, sccs, ordered);
    for rank := 0 to |ordered|
      invariant Built(edges, counter, sccs, ordered, rank, part, batches)
    {
      var index := ordered[rank];
      AtIndex(ordered, rank);
      InfoAt(infos, sccs, index);
      var claim := BuildClaim(dm, edges, infos[index].txs, rank, sccs, index);
      BuiltMore(edges, counter, sccs, ordered, rank, part, batches, claim);
      part := part + [claim];
      batches := batches + [FairnessBatch(counter + rank + 1, claim.txs)];
    }
  }

  lemma InfoAt(infos: map<nat, SCCInfo>, sccs: seq<seq<TxID>>, k: nat)
    requires ClaimInfos(infos, sccs) && k in infos
    ensures k < |sccs| && infos[k].txs == sccs[k]
  {
  }

  // ----- The certificate

  lemma BuiltPicks(edges: set<Edge>, counter: nat, sccs: seq<seq<TxID>>, ordered: seq<nat>, part: seq<SCCClaim>,
                   batches: seq<FairnessBatch>)
    requires Built(edges, counter, sccs, ordered, |ordered|, part, batches)
    ensures Picks(TxsOf(batches), sccs, ordered)
  {
    hide ClaimOk;
  }

  lemma BuiltPart(g: ActiveGraph, counter: nat, sccs: seq<seq<TxID>>, ordered: seq<nat>, part: seq<SCCClaim>,
                  batches: seq<FairnessBatch>)
    requires Built(g.edges, counter, sccs, ordered, |ordered|, part, batches)
    ensures PartOk(g, batches, part)
  {
    hide ClaimOk;
  }

  lemma BuiltBatches(g: ActiveGraph, counter: nat, sccs: seq<seq<TxID>>, ordered: seq<nat>, part: seq<SCCClaim>,
                     batches: seq<FairnessBatch>)
    requires Built(g.edges, counter, sccs, ordered, |ordered|, part, batches) && AreComponents(g.edges, sccs)
    requires Distinct(ordered)
    requires IncludedIn(batches) <= g.solid
    ensures BatchesOk(g, counter, batches)
  {
    hide ClaimOk, Mutual, Ascending;
    forall k | 0 <= k < |batches| ensures Elems(batches[k].txs) <= g.solid {
      forall u | u in batches[k].txs ensures u in g.solid {
        assert u in TxsOf(batches)[k];
        assert u in IncludedIn(batches);
      }
    }
    forall i, j, v | 0 <= i < j < |batches| && v in batches[i].txs ensures v !in batches[j].txs {
      DistinctAt(ordered, i, j);
    }
  }

  lemma IncludedIsSafe(g: ActiveGraph, sccs: seq<seq<TxID>>, comp: map<TxID, nat>, ordered: seq<nat>,
                       batches: seq<FairnessBatch>)
    requires Picks(TxsOf(batches), sccs, ordered) && Numbers(comp, sccs) && comp.Keys == g.nodes && g.solid <= g.nodes
    requires forall id :: id in g.nodes ==> (comp[id] in Elems(ordered) <==> id in SafeClosure(g))
    ensures IncludedIn(batches) == SafeClosure(g)
  {
    assert SafeClosure(g) <= g.nodes;
    hide SafeClosure, Elems, Numbers, Picks, Upto;
    forall u ensures u in IncludedIn(batches) <==> u in SafeClosure(g) {
      PickedAll(sccs, comp, ordered, TxsOf(batches), u);
    }
  }

  lemma EmptyProposal(g: ActiveGraph, counter: nat)
    requires Proper(g) && g.nodes == {}
    ensures CertOk(g, counter, [], Certificate([], []))
  {
    assert IncludedIn([]) == {};
  }

  lemma GraphClosed(g: ActiveGraph, graph: DependencyGraph)
    requires Proper(g) && graph.nodes == g.nodes && AdjEdges(graph.edges) == g.edges && graph.edges.Keys <= graph.nodes
    ensures Closed(graph)
  {
    forall u, v | u in graph.edges && v in graph.edges[u] ensures v in graph.nodes {
      assert Edge(u, v) in AdjEdges(graph.edges);
    }
  }

  lemma SolidMembers(p: Params, s: Evidence, sccs: seq<seq<TxID>>, infos: map<nat, SCCInfo>, k: nat)
    requires Classified(p, s) && Covers(sccs, Active(s)) && InfosOk(infos, sccs, s) && k < |sccs|
    ensures infos[k].solid <==> Elems(sccs[k]) <= GraphOf(p, s).solid
  {
    forall u | u in sccs[k] ensures StateOf(s, u) == Solid <==> u in GraphOf(p, s).solid {
      assert u in Upto(sccs, |sccs|);
      ShadedIs(p, s, u);
    }
  }

  lemma IsCondensed(p: Params, s: Evidence, graph: DependencyGraph, sccs: seq<seq<TxID>>, comp: map<TxID, nat>,
                    cond: Condensation, infos: map<nat, SCCInfo>)
    requires Classified(p, s) && graph.nodes == Active(s) && AdjEdges(graph.edges) == GraphOf(p, s).edges
    requires IsPartition(graph, sccs)
    requires Numbers(comp, sccs) && InfosOk(infos, sccs, s) && Condenses(cond, comp, GraphOf(p, s).edges)
    requires cond.Keys == infos.Keys
    ensures CondensedGraph(GraphOf(p, s), sccs, comp, cond, infos)
    ensures WellFormed(cond, infos) && Nonempty(sccs)
    ensures Increases(cond, infos.Keys, c => -c)
    ensures AreComponents(GraphOf(p, s).edges, sccs) && ClaimInfos(infos, sccs)
  {
    var g := GraphOf(p, s);
    GraphProper(p, s);
    forall k | 0 <= k < |sccs| ensures infos[k].solid <==> Elems(sccs[k]) <= g.solid {
      SolidMembers(p, s, sccs, infos, k);
    }
    BackwardIncreases(g.edges, sccs, comp, cond, infos.Keys);
    hide Numbers, Condenses, Proper, GraphOf, Covers, Backward, Mutual, Increases;
    assert Nonempty(sccs);
    CondenseWellFormed(cond, infos, comp, g.edges, sccs);
  }

  lemma IsOrderOf(g: ActiveGraph, sccs: seq<seq<TxID>>, comp: map<TxID, nat>, cond: Condensation, infos: map<nat,
                  SCCInfo>,
                  counter: nat, selected: set<nat>, ordered: seq<nat>, part: seq<SCCClaim>, batches: seq<FairnessBatch>)
    requires CondensedGraph(g, sccs, comp, cond, infos) && Nonempty(sccs)
    requires IsKahn(cond, infos, selected, ordered) && Elems(ordered) == selected && Distinct(ordered)
    requires Built(g.edges, counter, sccs, ordered, |ordered|, part, batches)
    ensures OrderOf(g.edges, sccs, comp, cond, infos, ordered, TxsOf(batches))
  {
    BuiltPicks(g.edges, counter, sccs, ordered, part, batches);
    hide Built, IsKahn, Numbers, Condenses, Picks;
  }

  lemma FewerIncreases(cond: Condensation, large: set<nat>, small: set<nat>, rank: nat -> int)
    requires Increases(cond, large, rank) && small <= large
    ensures Increases(cond, small, rank)
  {
  }

  lemma SafeSolid(g: ActiveGraph)
    ensures SafeClosure(g) <= g.solid
  {
  }

  lemma CertIsOk(g: ActiveGraph, counter: nat, batches: seq<FairnessBatch>, part: seq<SCCClaim>,
                 forest: seq<BlockRecord>)
    requires BatchesOk(g, counter, batches) && PartOk(g, batches, part) && Nonempty(TxsOf(batches))
    requires MinFirst(Within(g.edges, Upto(TxsOf(batches), |TxsOf(batches)|)), TxsOf(batches))
    requires IncludedIn(batches) == SafeClosure(g) && ForestOk(g, SafeClosure(g), forest)
    ensures CertOk(g, counter, batches, Certificate(part, forest))
  {
    SafeClosurePredClosed(g);
  }

  /** Builder completeness: for every valid evidence state and the cache that matches it,
      the order and certificate built are accepted, so they are the fair order. */
  method BuildProposal(dm: DependencyManager, p: Params, s: Evidence)
    returns (batches: seq<FairnessBatch>, cert: Certificate)
    requires p.Ok() && Valid(p, s) && dm.View() == Rebuild(p, s)
    ensures CertOk(GraphOf(p, s), s.batchCounter, batches, cert)
  {
    hide *;
    ghost var g := GraphOf(p, s);
    GraphProper(p, s);
    ValidClassified(p, s);
    CacheParts(p, s, dm);
    var graph := dm.Graph();
    if |graph.nodes| == 0 {
      EmptyProposal(g, s.batchCounter);
      return [], Certificate([], []);
    }
    GraphClosed(g, graph);
    var sccs := TarjanSCC(graph);
    var cond, nodeToSCC, infos := BuildCondensationAndSCCInfo(graph, sccs, s);
    IsCondensed(p, s, graph, sccs, nodeToSCC, cond, infos);
    var all := TopoSort(cond, infos, infos.Keys);
    KahnCovers(cond, infos, infos.Keys, all, c => -c);
    var selected := Select(g, sccs, nodeToSCC, cond, infos, all);
    var ordered := TopoSort(cond, infos, selected);
    FewerIncreases(cond, infos.Keys, selected, c => -c);
    KahnCovers(cond, infos, selected, ordered, c => -c);
    var part;
    batches, part := BuildBatches(dm, g.edges, infos, ordered, s.batchCounter, sccs);
    IsOrderOf(g, sccs, nodeToSCC, cond, infos, s.batchCounter, selected, ordered, part, batches);
    PickedMinFirst(g.edges, sccs, nodeToSCC, cond, infos, ordered, TxsOf(batches));
    BuiltPicks(g.edges, s.batchCounter, sccs, ordered, part, batches);
    BuiltPart(g, s.batchCounter, sccs, ordered, part, batches);
    ProperSolid(g);
    IncludedIsSafe(g, sccs, nodeToSCC, ordered, batches);
    SafeSolid(g);
    BuiltBatches(g, s.batchCounter, sccs, ordered, part, batches);
    var forest := BlockForest(p, s, dm.nodes, dm.edges, selected, nodeToSCC);
    CertIsOk(g, s.batchCounter, batches, part, forest);
    cert := Certificate(part, forest);
  }

  lemma ProperSolid(g: ActiveGraph)
    requires Proper(g)
    ensures g.solid <= g.nodes
  {
  }

  lemma CacheParts(p: Params, s: Evidence, dm: DependencyManager)
    requires Valid(p, s) && dm.View() == Rebuild(p, s)
    ensures dm.Transposed() && dm.nodes == Active(s) && GraphOf(p, s).nodes == Active(s)
    ensures Arrows(dm.edges) == GraphOf(p, s).edges && Arrows(dm.inverseEdges) == Reversed(GraphOf(p, s).edges)
  {
    RebuildParts(p, s, dm.View());
  }
}

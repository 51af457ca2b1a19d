/**
  Which components may be released and in what order: what is not Solid taints its
  descendants, the untainted components make up the safe closure, and Kahn's order of
  them is the min-first order.
 */
module Selection {
  import opened Types
  import opened Collections
  import opened Graphs
  import opened FairOrder
  import opened CertificateSpec
  import opened Kahn
  import opened CrossEdges
  import opened TarjanFacts

  /** The condensed active graph. */
  ghost predicate CondensedGraph(g: ActiveGraph, sccs: seq<seq<TxID>>, comp: map<TxID, nat>, cond: Condensation,
                                 infos: map<nat, SCCInfo>) {
    && AreComponents(g.edges, sccs) && Covers(sccs, g.nodes) && Proper(g)
    && Numbers(comp, sccs) && ClaimInfos(infos, sccs) && Condenses(cond, comp, g.edges) && cond.Keys == infos.Keys
    && (forall k :: 0 <= k < |sccs| ==> (infos[k].solid <==> Elems(sccs[k]) <= g.solid))
  }

  /** Some ancestor of the component is not Solid. */
  ghost predicate Tainted(g: ActiveGraph, component: seq<TxID>) {
    exists a, u :: u in component && Reach(g.edges, a, u) && a !in g.solid
  }

  lemma TaintedIs(g: ActiveGraph, sccs: seq<seq<TxID>>, k: nat, u: TxID)
    requires AreComponents(g.edges, sccs) && k < |sccs| && u in sccs[k]
    ensures Tainted(g, sccs[k]) <==> u !in SafeClosure(g)
  {
    hide Reach;
    if Tainted(g, sccs[k]) {
      var a, v :| v in sccs[k] && Reach(g.edges, a, v) && a !in g.solid;
      assert Mutual(g.edges, u, v);
      ReachTrans(g.edges, a, v, u);
    }
    if u !in SafeClosure(g) {
      ReachRefl(g.edges, u);
    }
  }

  /** A walk into a set from outside enters it over some edge. */
  lemma {:induction false} WalkEnters(edges: set<Edge>, s: set<TxID>, u: TxID, p: seq<TxID>, v: TxID) returns (e: Edge)
    requires Walk(edges, u, p, v) && u !in s && v in s
    ensures e in edges && e.src !in s && e.dst in s && Reach(edges, u, e.src)
    decreases |p|
  {
    if p[0] in s {
      e := Edge(u, p[0]);
      ReachRefl(edges, u);
    } else {
      e := WalkEnters(edges, s, p[0], p[1..], v);
      ReachEdge(edges, u, p[0]);
      ReachTrans(edges, u, p[0], e.src);
    }
  }

  /** A tainted component is not Solid itself or has a tainted predecessor. */
  lemma TaintComesFrom(g: ActiveGraph, sccs: seq<seq<TxID>>, comp: map<TxID, nat>, cond: Condensation, infos: map<nat,
                       SCCInfo>, k: nat)
    returns (p: nat)
    requires CondensedGraph(g, sccs, comp, cond, infos) && k < |sccs| && Tainted(g, sccs[k])
    requires Elems(sccs[k]) <= g.solid
    ensures p < |sccs| && k in Succs(cond, p) && Tainted(g, sccs[p])
  {
    hide Reach, AreComponents, Covers, Condenses;
    var a, u :| u in sccs[k] && Reach(g.edges, a, u) && a !in g.solid;
    var e := EntersFrom(g.edges, Elems(sccs[k]), a, u);
    NodeNumber(g, sccs, comp, e.src);
    NodeNumber(g, sccs, comp, e.dst);
    p := comp[e.src];
    assert u in Elems(sccs[k]) && e.dst in sccs[k];
    CrossEntered(cond, comp, g.edges, e);
    assert e.src in sccs[p];
  }

  lemma EntersFrom(edges: set<Edge>, s: set<TxID>, a: TxID, u: TxID) returns (e: Edge)
    requires Reach(edges, a, u) && a !in s && u in s
    ensures e in edges && e.src !in s && e.dst in s && Reach(edges, a, e.src)
  {
    var w :| Walk(edges, a, w, u);
    e := WalkEnters(edges, s, a, w, u);
  }

  lemma NodeNumber(g: ActiveGraph, sccs: seq<seq<TxID>>, comp: map<TxID, nat>, u: TxID)
    requires Covers(sccs, g.nodes) && Numbers(comp, sccs) && u in g.nodes
    ensures u in comp && comp[u] < |sccs| && u in sccs[comp[u]]
  {
    UptoNumbers(comp, sccs, |sccs|, u);
  }

  lemma CrossEntered(cond: Condensation, comp: map<TxID, nat>, edges: set<Edge>, e: Edge)
    requires Condenses(cond, comp, edges) && e in edges && e.src in comp && e.dst in comp && comp[e.src] != comp[e.dst]
    ensures comp[e.dst] in Succs(cond, comp[e.src])
  {
    assert Crosses(comp, edges, comp[e.src], comp[e.dst]);
  }

  /** Taint is passed on along the condensation. */
  lemma TaintGoesTo(g: ActiveGraph, sccs: seq<seq<TxID>>, comp: map<TxID, nat>, cond: Condensation, infos: map<nat,
                    SCCInfo>, p: nat, k: nat)
    requires CondensedGraph(g, sccs, comp, cond, infos) && p < |sccs| && k in Succs(cond, p) && Tainted(g, sccs[p])
    ensures k < |sccs| && Tainted(g, sccs[k])
  {
    hide Reach, Covers;
    assert Crosses(comp, g.edges, p, k);
    var e :| e in g.edges && e.src in comp && e.dst in comp && comp[e.src] == p && comp[e.dst] == k;
    NumberInRange(comp, sccs, e.src);
    NumberInRange(comp, sccs, e.dst);
    var a, u :| u in sccs[p] && Reach(g.edges, a, u) && a !in g.solid;
    assert Mutual(g.edges, u, e.src);
    ReachTrans(g.edges, a, u, e.src);
    ReachEdge(g.edges, e.src, e.dst);
    ReachTrans(g.edges, a, e.src, e.dst);
  }

  // ----- The pass over the topological order

  /** `unsafe` after the first components of the order handed it on. */
  ghost predicate Spreading(g: ActiveGraph, sccs: seq<seq<TxID>>, cond: Condensation, infos: map<nat, SCCInfo>,
                            handed: set<nat>, unsafe: set<nat>) {
    && (forall k :: k in unsafe ==> k < |sccs| && Tainted(g, sccs[k]))
    && (forall k :: k in infos && !infos[k].solid ==> k in unsafe)
    && (forall p, k :: p in handed && p in unsafe && k in Succs(cond, p) ==> k in unsafe)
    && (forall k :: k in handed && k < |sccs| && Tainted(g, sccs[k]) ==> k in unsafe)
  }

  lemma SpreadingStarts(g: ActiveGraph, sccs: seq<seq<TxID>>, comp: map<TxID, nat>, cond: Condensation, infos: map<nat,
                        SCCInfo>, unsafe: set<nat>)
    requires CondensedGraph(g, sccs, comp, cond, infos) && unsafe == set k | k in infos && !infos[k].solid
    ensures Spreading(g, sccs, cond, infos, {}, unsafe)
  {
    hide Reach, AreComponents, Covers, Condenses;
    forall k | k in unsafe ensures Tainted(g, sccs[k]) {
      var u :| u in sccs[k] && u !in g.solid;
      ReachRefl(g.edges, u);
    }
  }

  lemma SpreadingStep(g: ActiveGraph, sccs: seq<seq<TxID>>, comp: map<TxID, nat>, cond: Condensation, infos: map<nat,
                      SCCInfo>,
                      handed: set<nat>, unsafe: set<nat>, from: nat)
    requires CondensedGraph(g, sccs, comp, cond, infos) && Spreading(g, sccs, cond, infos, handed, unsafe)
    requires from < |sccs|
    requires forall p: nat :: p < |sccs| && from in Succs(cond, p) ==> p in handed
    ensures Spreading(g, sccs, cond, infos, handed + {from},
                      if from in unsafe then unsafe + Elems(Succs(cond, from)) else unsafe)
  {
    hide Reach, AreComponents, Covers, Condenses, Tainted, Succs, Numbers;
    if Tainted(g, sccs[from]) && from !in unsafe {
      SolidElems(g, sccs, comp, cond, infos, from);
      var p := TaintComesFrom(g, sccs, comp, cond, infos, from);
      assert false;
    }
    if from in unsafe {
      var unsafe' := unsafe + Elems(Succs(cond, from));
      forall k | k in unsafe' ensures k < |sccs| && Tainted(g, sccs[k]) {
        if k in Elems(Succs(cond, from)) {
          TaintGoesTo(g, sccs, comp, cond, infos, from, k);
        }
      }
      forall p, k | p in handed + {from} && p in unsafe' && k in Succs(cond, p) ensures k in unsafe' {
        if p in Elems(Succs(cond, from)) {
          TaintGoesTo(g, sccs, comp, cond, infos, from, p);
        }
      }
    }
  }

  lemma SolidElems(g: ActiveGraph, sccs: seq<seq<TxID>>, comp: map<TxID, nat>, cond: Condensation, infos: map<nat,
                   SCCInfo>, k: nat)
    requires CondensedGraph(g, sccs, comp, cond, infos) && k < |sccs|
    ensures k in infos && (infos[k].solid <==> Elems(sccs[k]) <= g.solid)
  {
  }

  lemma SpreadingDone(g: ActiveGraph, sccs: seq<seq<TxID>>, comp: map<TxID, nat>, cond: Condensation, infos: map<nat,
                      SCCInfo>,
                      unsafe: set<nat>, id: TxID)
    requires CondensedGraph(g, sccs, comp, cond, infos) && Spreading(g, sccs, cond, infos, infos.Keys, unsafe)
    requires id in g.nodes
    ensures id in comp && comp[id] in infos && (comp[id] in infos.Keys - unsafe <==> id in SafeClosure(g))
  {
    hide Reach, AreComponents, Covers, Condenses, Tainted, Succs, SafeClosure;
    NodeNumber(g, sccs, comp, id);
    TaintedIs(g, sccs, comp[id], id);
  }

  /** The components whose ancestors are all Solid. */
  method Select(ghost g: ActiveGraph, ghost sccs: seq<seq<TxID>>, ghost comp: map<TxID, nat>, cond: Condensation,
                infos: map<nat, SCCInfo>, all: seq<nat>)
    returns (selected: set<nat>)
    requires CondensedGraph(g, sccs, comp, cond, infos)
    requires IsKahn(cond, infos, infos.Keys, all) && Elems(all) == infos.Keys
    ensures selected <= infos.Keys && comp.Keys == g.nodes
    ensures forall id :: id in g.nodes ==> (comp[id] in selected <==> id in SafeClosure(g))
  {
    hide *;
    var unsafe := set k | k in infos && !infos[k].solid;
    SpreadingStarts(g, sccs, comp, cond, infos, unsafe);
    EmptyElems<nat>();
    for i := 0 to |all|
      invariant Spreading(g, sccs, cond, infos, Elems(all[..i]), unsafe)
    {
      var from := all[i];
      ElemsGrow(all, i);
      PredsHanded(g, sccs, comp, cond, infos, all, i);
      SpreadingStep(g, sccs, comp, cond, infos, Elems(all[..i]), unsafe, from);
      if from in unsafe {
        unsafe := HandOn(Succs(cond, from), unsafe);
      }
    }
    assert all[..|all|] == all;
    selected := infos.Keys - unsafe;
    forall id | id in g.nodes
      ensures id in comp && comp[id] in infos && (comp[id] in infos.Keys - unsafe <==> id in SafeClosure(g))
    {
      SpreadingDone(g, sccs, comp, cond, infos, unsafe, id);
    }
    CompKeys(g, sccs, comp, cond, infos);
  }

  method HandOn(tos: seq<nat>, unsafe: set<nat>) returns (r: set<nat>)
    ensures r == unsafe + Elems(tos)
  {
    r := unsafe;
    EmptyElems<nat>();
    for k := 0 to |tos|
      invariant r == unsafe + Elems(tos[..k])
    {
      hide *;
      ElemsGrow(tos, k);
      r := r + {tos[k]};
    }
    assert tos[..|tos|] == tos;
  }

  lemma PredsHanded(g: ActiveGraph, sccs: seq<seq<TxID>>, comp: map<TxID, nat>, cond: Condensation, infos: map<nat,
                    SCCInfo>, all: seq<nat>, i: nat)
    requires CondensedGraph(g, sccs, comp, cond, infos) && i < |all|
    requires IsKahn(cond, infos, infos.Keys, all) && Elems(all) == infos.Keys
    ensures all[i] < |sccs|
    ensures forall p: nat :: p < |sccs| && all[i] in Succs(cond, p) ==> p in Elems(all[..i])
  {
    hide AreComponents, Covers, Condenses, IsKahn, Numbers, Elems;
    AtIndex(all, i);
    forall p: nat | p < |sccs| && all[i] in Succs(cond, p) ensures p in Elems(all[..i]) {
      KahnTopological(cond, infos, infos.Keys, all, i, p);
      ElemOf(all[..i], p);
    }
  }

  lemma CompKeys(g: ActiveGraph, sccs: seq<seq<TxID>>, comp: map<TxID, nat>, cond: Condensation, infos: map<nat,
                 SCCInfo>)
    requires CondensedGraph(g, sccs, comp, cond, infos)
    ensures comp.Keys == g.nodes
  {
    hide AreComponents, Condenses;
    forall u ensures u in comp <==> u in g.nodes {
      UptoNumbers(comp, sccs, |sccs|, u);
      if u in comp {
        NumberInRange(comp, sccs, u);
      }
    }
  }

  // ----- The order of the selected components

  lemma BackwardIncreases(edges: set<Edge>, sccs: seq<seq<TxID>>, comp: map<TxID, nat>, cond: Condensation,
                          used: set<nat>)
    requires Backward(edges, sccs) && Numbers(comp, sccs) && Condenses(cond, comp, edges)
    ensures Increases(cond, used, c => -c)
  {
    forall p, c | p in used && c in used && p in cond && c in cond[p] ensures c < p {
      assert c in Succs(cond, p);
      assert Crosses(comp, edges, p, c);
      var e :| e in edges && e.src in comp && e.dst in comp && comp[e.src] == p && comp[e.dst] == c;
      NumberInRange(comp, sccs, e.src);
      assert e.dst in Upto(sccs, p + 1);
      UptoNumbers(comp, sccs, p + 1, e.dst);
    }
  }

  ghost predicate Picks(batches: seq<seq<TxID>>, sccs: seq<seq<TxID>>, ordered: seq<nat>) {
    |batches| == |ordered| && forall i :: 0 <= i < |ordered| ==> ordered[i] < |sccs| && batches[i] == sccs[ordered[i]]
  }

  lemma PickedUpto(sccs: seq<seq<TxID>>, comp: map<TxID, nat>, ordered: seq<nat>, batches: seq<seq<TxID>>, i: nat,
                   u: TxID)
    requires Picks(batches, sccs, ordered) && Numbers(comp, sccs) && i <= |ordered|
    ensures u in Upto(batches, i) <==> u in comp && comp[u] in Elems(ordered[..i])
  {
    if u in comp && comp[u] in Elems(ordered[..i]) {
      var j :| 0 <= j < i && ordered[..i][j] == comp[u];
      assert u in batches[j];
    }
    if u in Upto(batches, i) {
      var j :| 0 <= j < i && u in batches[j];
      assert ordered[..i][j] == ordered[j];
      assert u in sccs[ordered[j]];
    }
  }

  lemma PickedAll(sccs: seq<seq<TxID>>, comp: map<TxID, nat>, ordered: seq<nat>, batches: seq<seq<TxID>>, u: TxID)
    requires Picks(batches, sccs, ordered) && Numbers(comp, sccs)
    ensures u in Upto(batches, |batches|) <==> u in comp && comp[u] in Elems(ordered)
  {
    PickedUpto(sccs, comp, ordered, batches, |ordered|, u);
    assert ordered[..|ordered|] == ordered;
  }

  ghost predicate OrderOf(edges: set<Edge>, sccs: seq<seq<TxID>>, comp: map<TxID, nat>, cond: Condensation,
                          infos: map<nat, SCCInfo>,
                          ordered: seq<nat>, batches: seq<seq<TxID>>) {
    && Numbers(comp, sccs) && ClaimInfos(infos, sccs) && Condenses(cond, comp, edges) && Nonempty(sccs)
    && IsKahn(cond, infos, Elems(ordered), ordered) && Distinct(ordered) && Picks(batches, sccs, ordered)
  }

  lemma PickedReady(edges: set<Edge>, sccs: seq<seq<TxID>>, comp: map<TxID, nat>, cond: Condensation, infos: map<nat,
                    SCCInfo>,
                    ordered: seq<nat>, batches: seq<seq<TxID>>, i: nat)
    requires OrderOf(edges, sccs, comp, cond, infos, ordered, batches) && i < |batches|
    ensures Ready(Within(edges, Upto(batches, |batches|)), batches[i], Upto(batches, i))
  {
    hide Upto, Elems, IsKahn, Condenses, ClaimInfos;
    var included := Upto(batches, |batches|);
    forall e | e in Within(edges, included) && e.dst in batches[i] && e.src !in batches[i]
      ensures e.src in Upto(batches, i)
    {
      PickedAll(sccs, comp, ordered, batches, e.src);
      PickedUpto(sccs, comp, ordered, batches, i, e.src);
      assert comp[e.dst] == ordered[i];
      CrossEntered(cond, comp, edges, e);
      KahnTopological(cond, infos, Elems(ordered), ordered, i, comp[e.src]);
      ElemOf(ordered[..i], comp[e.src]);
    }
  }

  lemma PickedMayFollow(edges: set<Edge>, sccs: seq<seq<TxID>>, comp: map<TxID, nat>, cond: Condensation,
                        infos: map<nat, SCCInfo>,
                        ordered: seq<nat>, batches: seq<seq<TxID>>, i: nat, k: nat)
    requires OrderOf(edges, sccs, comp, cond, infos, ordered, batches) && i < k < |batches|
    requires Ready(Within(edges, Upto(batches, |batches|)), batches[k], Upto(batches, i))
    ensures MayFollow(cond, Elems(ordered), Elems(ordered[..i]), ordered[k])
  {
    var placed, c := Elems(ordered[..i]), ordered[k];
    assert c !in placed by {
      forall j | 0 <= j < i ensures ordered[..i][j] != c {
        DistinctAt(ordered, j, k);
      }
    }
    assert c in Elems(ordered);
    hide Upto, Elems, IsKahn, ClaimInfos, Distinct;
    forall p | p in Elems(ordered) - placed && p in cond ensures c !in cond[p] {
      if c in cond[p] {
        assert c in Succs(cond, p);
        assert Crosses(comp, edges, p, c);
        var e :| e in edges && e.src in comp && e.dst in comp && comp[e.src] == p && comp[e.dst] == c && p != c;
        PickedAll(sccs, comp, ordered, batches, e.src);
        PickedAll(sccs, comp, ordered, batches, e.dst);
        PickedUpto(sccs, comp, ordered, batches, i, e.src);
        NumberInRange(comp, sccs, e.dst);
      }
    }
    assert Preds(cond, Elems(ordered) - placed, c) == {};
  }

  /** Kahn's order of the selected components is the min-first order of their batches. */
  lemma PickedMinFirst(edges: set<Edge>, sccs: seq<seq<TxID>>, comp: map<TxID, nat>, cond: Condensation, infos: map<nat,
                       SCCInfo>,
                       ordered: seq<nat>, batches: seq<seq<TxID>>)
    requires OrderOf(edges, sccs, comp, cond, infos, ordered, batches)
    ensures Nonempty(batches) && MinFirst(Within(edges, Upto(batches, |batches|)), batches)
  {
    hide Upto, Elems, Condenses, Numbers, Distinct, MayFollow, Ready;
    var edges' := Within(edges, Upto(batches, |batches|));
    forall i | 0 <= i < |batches| ensures Ready(edges', batches[i], Upto(batches, i)) {
      PickedReady(edges, sccs, comp, cond, infos, ordered, batches, i);
    }
    forall i, k | 0 <= i < k < |batches| && Ready(edges', batches[k], Upto(batches, i))
      ensures LessTxID(batches[i][0], batches[k][0])
    {
      PickedMayFollow(edges, sccs, comp, cond, infos, ordered, batches, i, k);
      assert Greedy(cond, infos, Elems(ordered), Elems(ordered[..i]), ordered[i]);
      DistinctAt(ordered, i, k);
      KeyOfClaim(infos, sccs, ordered[i]);
      KeyOfClaim(infos, sccs, ordered[k]);
    }
  }
}

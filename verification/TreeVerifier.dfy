/** `verifyTree` and `verifyClaimedTrees` (pkg/ofo/dependency.go:870-942). */
module TreeVerifier {
  import opened Types
  import opened Collections
  import opened Graphs
  import opened EvidenceSpec
  import opened CertificateSpec

  /** An endpoint absent from the states reads as `Unset`, which is not Blank; the
      callers only ask about active endpoints. */
  predicate LocalEdgePred(s: Evidence, u: TxID, v: TxID, threshold: int) {
    StateOf(s, u) != Blank && StateOf(s, v) != Blank && HasEdge(s, threshold, u, v)
  }

  lemma LocalIsEdge(p: Params, s: Evidence, u: TxID, v: TxID)
    requires u in Active(s) && v in Active(s)
    ensures LocalEdgePred(s, u, v, p.EdgeThreshold()) <==> Edge(u, v) in GraphOf(p, s).edges
  {
  }

  // ----- Breadth-first search from a root

  ghost predicate Explored(edges: set<Edge>, root: TxID, visited: set<TxID>, queue: set<TxID>) {
    && root in visited && queue <= visited
    && (forall v :: v in visited ==> Reach(edges, root, v))
    && (forall e :: e in edges && e.src in visited && e.src !in queue ==> e.dst in visited)
  }

  lemma ExploredAll(edges: set<Edge>, root: TxID, visited: set<TxID>, v: TxID)
    requires Explored(edges, root, visited, {})
    ensures v in visited <==> Reach(edges, root, v)
  {
    if Reach(edges, root, v) {
      ReachStaysIn(edges, visited, root, v);
    }
  }

  lemma ExploredStep(edges: set<Edge>, root: TxID, visited: set<TxID>, queue: set<TxID>, current: TxID,
                     found: set<TxID>)
    requires Explored(edges, root, visited, queue) && current in queue
    requires found == set e | e in edges && e.src == current && e.dst !in visited :: e.dst
    ensures Explored(edges, root, visited + found, queue - {current} + found)
  {
    forall v | v in found ensures Reach(edges, root, v) {
      ReachEdge(edges, current, v);
      ReachTrans(edges, root, current, v);
    }
  }

  /** The unvisited members of a slice, each once, in its order. */
  method Unvisited(neighbors: seq<TxID>, visited: set<TxID>) returns (found: seq<TxID>)
    ensures Elems(found) == (set v | v in neighbors && v !in visited)
  {
    found := [];
    for k := 0 to |neighbors|
      invariant Elems(found) == set v | v in neighbors[..k] && v !in visited
    {
      assert neighbors[..k + 1] == neighbors[..k] + [neighbors[k]];
      if neighbors[k] !in visited && neighbors[k] !in found {
        ElemsConcat(found, [neighbors[k]]);
        found := found + [neighbors[k]];
      }
    }
    assert neighbors[..|neighbors|] == neighbors;
  }

  lemma FoundIs(adj: Adjacency, visited: set<TxID>, current: TxID, found: set<TxID>)
    requires found == set v | v in Neighbors(adj, current) && v !in visited
    ensures found == set e | e in AdjEdges(adj) && e.src == current && e.dst !in visited :: e.dst
  {
    forall v | v in found ensures Edge(current, v) in AdjEdges(adj) {
    }
  }

  lemma ExploredQueue(edges: set<Edge>, root: TxID, visited: set<TxID>, small: set<TxID>, large: set<TxID>)
    requires Explored(edges, root, visited, small) && small <= large <= visited
    ensures Explored(edges, root, visited, large)
  {
  }

  lemma QueueElems(queue: seq<TxID>, found: seq<TxID>)
    requires queue != []
    ensures Elems(queue) - {queue[0]} + Elems(found) <= Elems(queue[1..] + found) <= Elems(queue) + Elems(found)
    ensures queue[0] in Elems(queue)
  {
    ElemsSplit(queue, 1);
    ElemsConcat(queue[1..], found);
  }

  method Search(adj: Adjacency, root: TxID, ghost bound: set<TxID>) returns (visited: set<TxID>)
    requires root in bound && forall e :: e in AdjEdges(adj) ==> e.dst in bound
    ensures forall v :: v in visited <==> Reach(AdjEdges(adj), root, v)
    ensures visited <= bound
  {
    ghost var edges := AdjEdges(adj);
    visited := {root};
    var queue := [root];
    ReachRefl(edges, root);
    assert Explored(edges, root, visited, Elems(queue));
    while |queue| > 0
      invariant Explored(edges, root, visited, Elems(queue)) && visited <= bound
      decreases bound - visited, |queue|
    {
      hide AdjEdges, Explored, Elems;
      var current := queue[0];
      var found := Unvisited(Neighbors(adj, current), visited);
      FoundIs(adj, visited, current, Elems(found));
      QueueElems(queue, found);
      ExploredStep(edges, root, visited, Elems(queue), current, Elems(found));
      ExploredIn(edges, root, visited, Elems(queue));
      ExploredQueue(edges, root, visited + Elems(found), Elems(queue) - {current} + Elems(found),
                    Elems(queue[1..] + found));
      assert Elems(found) <= bound - visited;
      visited := visited + SetOf(found);
      queue := queue[1..] + found;
      NothingNew(found);
    }
    assert Elems(queue) == {};
    forall v ensures v in visited <==> Reach(edges, root, v) {
      ExploredAll(edges, root, visited, v);
    }
  }

  lemma NothingNew(found: seq<TxID>)
    ensures Elems(found) == {} ==> found == []
  {
    assert found != [] ==> found[0] in Elems(found);
  }

  lemma ExploredIn(edges: set<Edge>, root: TxID, visited: set<TxID>, queue: set<TxID>)
    requires Explored(edges, root, visited, queue)
    ensures queue <= visited
  {
  }

  // ----- One tree

  function Down(e: Edge, inward: bool): Edge {
    if inward then Edge(e.dst, e.src) else e
  }

  lemma DownwardSnoc(tree: seq<Edge>, k: nat, inward: bool)
    requires k < |tree|
    ensures Downward(tree[..k + 1], inward) == Downward(tree[..k], inward) + {Down(tree[k], inward)}
  {
    ElemsGrow(tree, k);
  }

  lemma SlotsSnoc(tree: seq<Edge>, k: nat, inward: bool, id: TxID)
    requires k < |tree|
    ensures |Slots(tree[..k + 1], inward, id)|
         == |Slots(tree[..k], inward, id)| + (if Child(tree[k], inward) == id then 1 else 0)
  {
    assert Slots(tree[..k + 1], inward, id)
        == Slots(tree[..k], inward, id) + (if Child(tree[k], inward) == id then {k} else {});
  }

  ghost predicate EdgesOk(edges: set<Edge>, component: set<TxID>, tree: seq<Edge>) {
    forall e :: e in tree ==> e.src in component && e.dst in component && e in edges
  }

  ghost predicate CountsOk(tree: seq<Edge>, inward: bool, parentCount: map<TxID, nat>) {
    forall id :: Count(parentCount, id) == |Slots(tree, inward, id)|
  }

  lemma CountsSnoc(tree: seq<Edge>, k: nat, inward: bool, parentCount: map<TxID, nat>)
    requires k < |tree| && CountsOk(tree[..k], inward, parentCount)
    ensures var id := Child(tree[k], inward);
      CountsOk(tree[..k + 1], inward, parentCount[id := Count(parentCount, id) + 1])
  {
    var id := Child(tree[k], inward);
    var grown := parentCount[id := Count(parentCount, id) + 1];
    forall x ensures Count(grown, x) == |Slots(tree[..k + 1], inward, x)| {
      SlotsSnoc(tree, k, inward, x);
      assert Count(parentCount, x) == |Slots(tree[..k], inward, x)|;
    }
  }

  /** The first `k` edges are real, and read into adjacency lists and parent counts. */
  ghost predicate ReadUpto(edges: set<Edge>, component: set<TxID>, tree: seq<Edge>, inward: bool, k: nat,
                           adj: Adjacency, parentCount: map<TxID, nat>)
    requires k <= |tree|
  {
    && EdgesOk(edges, component, tree[..k])
    && AdjEdges(adj) == Downward(tree[..k], inward)
    && CountsOk(tree[..k], inward, parentCount)
  }

  lemma ReadNone(edges: set<Edge>, component: set<TxID>, tree: seq<Edge>, inward: bool)
    ensures ReadUpto(edges, component, tree, inward, 0, map[], map[])
  {
  }

  lemma ReadStep(edges: set<Edge>, component: set<TxID>, tree: seq<Edge>, inward: bool, k: nat, adj: Adjacency,
                 parentCount: map<TxID, nat>)
    requires k < |tree| && ReadUpto(edges, component, tree, inward, k, adj, parentCount)
    requires tree[k].src in component && tree[k].dst in component && tree[k] in edges
    ensures var down := Down(tree[k], inward);
      ReadUpto(edges, component, tree, inward, k + 1, adj[down.src := Neighbors(adj, down.src) + [down.dst]],
               parentCount[down.dst := Count(parentCount, down.dst) + 1])
  {
    var down := Down(tree[k], inward);
    assert down.dst == Child(tree[k], inward) && Edge(down.src, down.dst) == down;
    assert tree[..k + 1] == tree[..k] + [tree[k]];
    DownwardSnoc(tree, k, inward);
    CountsSnoc(tree, k, inward, parentCount);
    AdjAdd(adj, down.src, down.dst);
    hide AdjEdges, Downward, CountsOk, Down;
  }

  lemma ReadFails(edges: set<Edge>, component: set<TxID>, tree: seq<Edge>, k: nat)
    requires k < |tree| && !(tree[k].src in component && tree[k].dst in component && tree[k] in edges)
    ensures !EdgesOk(edges, component, tree)
  {
    assert tree[k] in tree;
  }

  lemma ReadAll(edges: set<Edge>, component: set<TxID>, tree: seq<Edge>, inward: bool, adj: Adjacency,
                parentCount: map<TxID, nat>)
    requires ReadUpto(edges, component, tree, inward, |tree|, adj, parentCount)
    ensures EdgesOk(edges, component, tree) && AdjEdges(adj) == Downward(tree, inward)
    ensures CountsOk(tree, inward, parentCount)
  {
    assert tree[..|tree|] == tree;
  }

  method ReadTree(p: Params, s: Evidence, component: set<TxID>, tree: seq<Edge>, inward: bool, threshold: int)
    returns (ok: bool, adj: Adjacency, parentCount: map<TxID, nat>)
    requires component <= Active(s) && threshold == p.EdgeThreshold()
    ensures ok <==> EdgesOk(GraphOf(p, s).edges, component, tree)
    ensures ok ==> AdjEdges(adj) == Downward(tree, inward) && CountsOk(tree, inward, parentCount)
  {
    hide *;
    adj, parentCount := map[], map[];
    ghost var edges := GraphOf(p, s).edges;
    ReadNone(edges, component, tree, inward);
    for k := 0 to |tree|
      invariant ReadUpto(edges, component, tree, inward, k, adj, parentCount)
    {
      var edge := tree[k];
      if edge.src in component && edge.dst in component {
        LocalIsEdge(p, s, edge.src, edge.dst);
      }
      if edge.src !in component || edge.dst !in component || !LocalEdgePred(s, edge.src, edge.dst, threshold) {
        ReadFails(edges, component, tree, k);
        return false, adj, parentCount;
      }
      ReadStep(edges, component, tree, inward, k, adj, parentCount);
      var down := Down(edge, inward);
      adj := adj[down.src := Neighbors(adj, down.src) + [down.dst]];
      parentCount := parentCount[down.dst := Count(parentCount, down.dst) + 1];
    }
    ReadAll(edges, component, tree, inward, adj, parentCount);
    return true, adj, parentCount;
  }

  lemma InActive(s: Evidence, component: set<TxID>, u: TxID)
    requires component <= Active(s) && u in component
    ensures u in Active(s)
  {
  }

  method OneParentEach(component: set<TxID>, root: TxID, parentCount: map<TxID, nat>) returns (ok: bool)
    ensures ok <==> forall id :: id in component ==> Count(parentCount, id) == if id == root then 0 else 1
  {
    var rest := component;
    while rest != {}
      invariant rest <= component
      invariant forall id :: id in component && id !in rest ==> Count(parentCount, id) == if id == root then 0 else 1
      decreases rest
    {
      var id :| id in rest;
      var expected := if id == root then 0 else 1;
      if Count(parentCount, id) != expected {
        return false;
      }
      rest := rest - {id};
    }
    return true;
  }

  /** Accepts exactly the spanning trees of the claimed component over real edges. */
  method VerifyTree(p: Params, s: Evidence, root: TxID, component: set<TxID>, tree: seq<Edge>, inward: bool,
                    threshold: int)
    returns (ok: bool)
    requires root in component && component <= Active(s) && threshold == p.EdgeThreshold()
    ensures ok <==> TreeOk(GraphOf(p, s).edges, root, component, tree, inward)
  {
    ghost var edges := GraphOf(p, s).edges;
    var adj, parentCount;
    ok, adj, parentCount := ReadTree(p, s, component, tree, inward, threshold);
    if !ok {
      return false;
    }
    hide GraphOf, Slots, Active, HasEdge;
    ok := OneParentEach(component, root, parentCount);
    if !ok {
      return false;
    }
    DownwardInside(edges, component, tree, inward);
    hide Downward, AdjEdges;
    var visited := Search(adj, root, component);
    SubsetCard(visited, component);
    if TreeOk(edges, root, component, tree, inward) {
      assert component <= visited;
      assert visited == component;
    }
    return |visited| == |component|;
  }

  lemma DownwardInside(edges: set<Edge>, component: set<TxID>, tree: seq<Edge>, inward: bool)
    requires EdgesOk(edges, component, tree)
    ensures forall e :: e in Downward(tree, inward) ==> e.dst in component
  {
  }

  /** `verifyClaimedTrees`, on a claim whose membership has been matched already. */
  method VerifyClaimedTrees(p: Params, s: Evidence, claim: SCCClaim, threshold: int) returns (ok: bool)
    requires claim.txs != [] && Elems(claim.txs) <= Active(s) && threshold == p.EdgeThreshold()
    ensures ok <==> ClaimOk(GraphOf(p, s).edges, claim)
  {
    var component := SetOf(claim.txs);
    var root := claim.txs[0];
    if |claim.inTree| != |claim.txs| - 1 || |claim.outTree| != |claim.txs| - 1 {
      return false;
    }
    hide TreeOk;
    ok := VerifyTree(p, s, root, component, claim.outTree, false, threshold);
    if ok {
      ok := VerifyTree(p, s, root, component, claim.inTree, true, threshold);
    }
  }
}

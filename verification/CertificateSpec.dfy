/**
  What the graph-free verifier checks of a proposed order and its certificate, and why
  that is enough: spanning in- and out-trees, ranks that grow along edges, a closed
  frontier and a forest of blockers pin down the fair order of the active graph,
  although no component and no closure is ever computed.
 */
module CertificateSpec {
  import opened Types
  import opened Collections
  import opened Graphs
  import opened FairOrder

  function Child(e: Edge, inward: bool): TxID {
    if inward then e.src else e.dst
  }

  ghost function Slots(tree: seq<Edge>, inward: bool, id: TxID): set<nat> {
    set k: nat | k < |tree| && Child(tree[k], inward) == id
  }

  /** The tree's edges from parent to child; an inward tree is stored reversed. */
  ghost function Downward(tree: seq<Edge>, inward: bool): set<Edge> {
    if inward then Reversed(Elems(tree)) else Elems(tree)
  }

  ghost predicate TreeOk(edges: set<Edge>, root: TxID, component: set<TxID>, tree: seq<Edge>, inward: bool) {
    && (forall e :: e in tree ==> e.src in component && e.dst in component && e in edges)
    && (forall id :: id in component ==> |Slots(tree, inward, id)| == if id == root then 0 else 1)
    && (forall id :: id in component ==> Reach(Downward(tree, inward), root, id))
  }

  ghost predicate ClaimOk(edges: set<Edge>, claim: SCCClaim) {
    && claim.txs != []
    && |claim.inTree| == |claim.txs| - 1 && |claim.outTree| == |claim.txs| - 1
    && TreeOk(edges, claim.txs[0], Elems(claim.txs), claim.outTree, false)
    && TreeOk(edges, claim.txs[0], Elems(claim.txs), claim.inTree, true)
  }

  /** The parent pointers of a forest, from child to parent. */
  ghost function Upward(records: seq<BlockRecord>): set<Edge> {
    set r | r in records && r.hasParent :: Edge(r.vertex, r.parent)
  }

  ghost predicate RecordOk(g: ActiveGraph, included: set<TxID>, records: seq<BlockRecord>, r: BlockRecord) {
    && r.vertex in g.nodes && r.vertex !in included
    && (if r.hasParent then
          r.depth != 0 && exists q :: q in records && ParentOk(g, r, q)
        else r.depth == 0 && r.vertex !in g.solid)
  }

  ghost predicate ParentOk(g: ActiveGraph, r: BlockRecord, q: BlockRecord) {
    q.vertex == r.parent && r.depth == q.depth + 1 && Edge(r.parent, r.vertex) in g.edges
  }

  ghost predicate OneRecordEach(records: seq<BlockRecord>) {
    forall j, k :: 0 <= j < k < |records| ==> records[j].vertex != records[k].vertex
  }

  ghost predicate HasRecord(records: seq<BlockRecord>, x: TxID) {
    exists r :: r in records && r.vertex == x
  }

  ghost predicate OnBlockerPath(blocked: set<TxID>, records: seq<BlockRecord>, v: TxID) {
    exists x :: x in blocked && Reach(Upward(records), x, v)
  }

  ghost predicate ForestOk(g: ActiveGraph, included: set<TxID>, records: seq<BlockRecord>) {
    && OneRecordEach(records)
    && (forall r :: r in records ==> RecordOk(g, included, records, r))
    && (forall x :: x in g.solid - included ==> HasRecord(records, x))
    && (forall r :: r in records ==> OnBlockerPath(g.solid - included, records, r.vertex))
  }

  function TxsOf(batches: seq<FairnessBatch>): seq<seq<TxID>> {
    seq(|batches|, i requires 0 <= i < |batches| => batches[i].txs)
  }

  ghost predicate BatchesOk(g: ActiveGraph, counter: nat, batches: seq<FairnessBatch>) {
    && (forall k :: 0 <= k < |batches| ==> batches[k].index == counter + k + 1)
    && (forall k :: 0 <= k < |batches| ==> Ascending(batches[k].txs) && Elems(batches[k].txs) <= g.solid)
    && Disjoint(TxsOf(batches))
  }

  ghost predicate PartOk(g: ActiveGraph, batches: seq<FairnessBatch>, part: seq<SCCClaim>) {
    && |part| == |batches|
    && (forall k :: 0 <= k < |part| ==>
         part[k].rank == k && part[k].txs == batches[k].txs && ClaimOk(g.edges, part[k]))
  }

  ghost predicate Nonempty(batches: seq<seq<TxID>>) {
    forall i :: 0 <= i < |batches| ==> batches[i] != []
  }

  ghost function IncludedIn(batches: seq<FairnessBatch>): set<TxID> {
    Upto(TxsOf(batches), |batches|)
  }

  /** Everything the verifier checks. */
  ghost predicate CertOk(g: ActiveGraph, counter: nat, batches: seq<FairnessBatch>, cert: Certificate) {
    && BatchesOk(g, counter, batches)
    && PartOk(g, batches, cert.part)
    && Nonempty(TxsOf(batches))
    && MinFirst(Within(g.edges, IncludedIn(batches)), TxsOf(batches))
    && PredClosed(g.edges, IncludedIn(batches))
    && ForestOk(g, IncludedIn(batches), cert.forest)
  }

  // ----- Soundness

  lemma TreeReach(edges: set<Edge>, root: TxID, component: set<TxID>, tree: seq<Edge>, inward: bool, id: TxID)
    requires TreeOk(edges, root, component, tree, inward) && id in component
    ensures inward ==> Reach(edges, id, root)
    ensures !inward ==> Reach(edges, root, id)
  {
    if inward {
      ReachReversed(Elems(tree), id, root);
      ReachMono(Elems(tree), edges, id, root);
    } else {
      ReachMono(Elems(tree), edges, root, id);
    }
  }

  lemma ClaimConnected(edges: set<Edge>, claim: SCCClaim, u: TxID, v: TxID)
    requires ClaimOk(edges, claim) && u in claim.txs && v in claim.txs
    ensures Reach(edges, u, v)
  {
    var root := claim.txs[0];
    TreeReach(edges, root, Elems(claim.txs), claim.inTree, true, u);
    TreeReach(edges, root, Elems(claim.txs), claim.outTree, false, v);
    ReachTrans(edges, u, root, v);
  }

  lemma UptoClosed(edges: set<Edge>, batches: seq<seq<TxID>>, k: nat)
    requires Nonempty(batches) && MinFirst(edges, batches) && k <= |batches|
    ensures PredClosed(edges, Upto(batches, k))
  {
    forall e | e in edges && e.dst in Upto(batches, k) ensures e.src in Upto(batches, k) {
      var j :| 0 <= j < k && e.dst in batches[j];
      assert Ready(edges, batches[j], Upto(batches, j));
      if e.src !in batches[j] {
        var i :| 0 <= i < j && e.src in batches[i];
      }
    }
  }

  /** With a closed frontier, the edges among the included vertices are all that matter. */
  lemma FrontierMinFirst(edges: set<Edge>, batches: seq<seq<TxID>>)
    requires Nonempty(batches) && PredClosed(edges, Upto(batches, |batches|))
    ensures MinFirst(Within(edges, Upto(batches, |batches|)), batches) <==> MinFirst(edges, batches)
  {
    var included := Upto(batches, |batches|);
    forall k, placed | 0 <= k < |batches|
      ensures Ready(Within(edges, included), batches[k], placed) <==> Ready(edges, batches[k], placed)
    {
      assert Elems(batches[k]) <= included;
      forall e | e in edges && e.dst in batches[k] ensures e in Within(edges, included) {
        assert e.dst in Elems(batches[k]);
      }
    }
  }

  /** Batches that come later never reach earlier ones. */
  lemma LaterNeverReaches(edges: set<Edge>, batches: seq<seq<TxID>>, i: nat, u: TxID, v: TxID)
    requires Nonempty(batches) && MinFirst(edges, batches)
    requires i < |batches| && u in batches[i] && Reach(edges, v, u)
    ensures v in Upto(batches, i + 1)
  {
    UptoClosed(edges, batches, i + 1);
    assert u in Upto(batches, i + 1);
    ReachComesFrom(edges, Upto(batches, i + 1), v, u);
  }

  lemma BatchIsComponent(g: ActiveGraph, batches: seq<seq<TxID>>, i: nat, u: TxID, v: TxID)
    requires Nonempty(batches) && MinFirst(g.edges, batches) && Disjoint(batches)
    requires i < |batches| && u in batches[i]
    requires forall k, a, b :: 0 <= k < |batches| && a in batches[k] && b in batches[k] ==> Reach(g.edges, a, b)
    ensures v in batches[i] <==> Mutual(g.edges, u, v)
  {
    if Mutual(g.edges, u, v) {
      LaterNeverReaches(g.edges, batches, i, u, v);
      var j :| 0 <= j < i + 1 && v in batches[j];
      LaterNeverReaches(g.edges, batches, j, v, u);
      var k :| 0 <= k < j + 1 && u in batches[k];
      assert k == i;
    }
  }

  /** An excluded Solid vertex hangs below a vertex that is not Solid. */
  lemma {:induction false} BlockedByShaded(g: ActiveGraph, included: set<TxID>, records: seq<BlockRecord>,
                                           r: BlockRecord)
    returns (a: TxID)
    requires (forall q :: q in records ==> RecordOk(g, included, records, q)) && r in records
    ensures a !in g.solid && Reach(g.edges, a, r.vertex)
    decreases r.depth
  {
    if r.hasParent {
      var q :| q in records && ParentOk(g, r, q);
      a := BlockedByShaded(g, included, records, q);
      ReachEdge(g.edges, r.parent, r.vertex);
      ReachTrans(g.edges, a, q.vertex, r.vertex);
    } else {
      a := r.vertex;
      ReachRefl(g.edges, a);
    }
  }

  lemma IncludedIsClosure(g: ActiveGraph, included: set<TxID>, records: seq<BlockRecord>)
    requires included <= g.solid && PredClosed(g.edges, included) && ForestOk(g, included, records)
    ensures included == SafeClosure(g)
  {
    hide Reach, RecordOk, OnBlockerPath, OneRecordEach;
    SafeClosureLargest(g, included);
    forall x | x in SafeClosure(g) ensures x in included {
      if x !in included {
        assert HasRecord(records, x);
        var r :| r in records && r.vertex == x;
        var a := BlockedByShaded(g, included, records, r);
        assert false;
      }
    }
  }

  lemma IncludedSolid(g: ActiveGraph, counter: nat, batches: seq<FairnessBatch>)
    requires BatchesOk(g, counter, batches)
    ensures IncludedIn(batches) <= g.solid
  {
    forall u | u in IncludedIn(batches) ensures u in g.solid {
      var j :| 0 <= j < |batches| && u in TxsOf(batches)[j];
      assert u in Elems(batches[j].txs);
    }
  }

  /** Verifier soundness: an accepted certificate certifies the fair order. */
  lemma CertSound(g: ActiveGraph, counter: nat, batches: seq<FairnessBatch>, cert: Certificate)
    requires CertOk(g, counter, batches, cert)
    ensures IsFairOrder(g, TxsOf(batches))
  {
    var txs := TxsOf(batches);
    IncludedSolid(g, counter, batches);
    IncludedIsClosure(g, IncludedIn(batches), cert.forest);
    FrontierMinFirst(g.edges, txs);
    forall k, a, b | 0 <= k < |txs| && a in txs[k] && b in txs[k] ensures Reach(g.edges, a, b) {
      ClaimConnected(g.edges, cert.part[k], a, b);
    }
    forall i, u, v | 0 <= i < |txs| && u in txs[i] ensures v in txs[i] <==> Mutual(g.edges, u, v) {
      BatchIsComponent(g, txs, i, u, v);
    }
  }

  /** Whatever trees and forests two accepted proposals carry, they order the same
      batches with the same indices. */
  lemma NoLeaderDiscretion(g: ActiveGraph, counter: nat, a: seq<FairnessBatch>, b: seq<FairnessBatch>,
                           certA: Certificate, certB: Certificate)
    requires CertOk(g, counter, a, certA) && CertOk(g, counter, b, certB)
    ensures a == b && Components(certA.part) == Components(certB.part)
  {
    CertSound(g, counter, a, certA);
    CertSound(g, counter, b, certB);
    FairOrderUnique(g, TxsOf(a), TxsOf(b));
    forall k | 0 <= k < |a| ensures k < |b| && a[k] == b[k] {
      assert TxsOf(a)[k] == TxsOf(b)[k];
    }
    assert |a| == |TxsOf(a)| == |b|;
  }
}

/**
  What a fragment is supposed to output, with no mention of how it is found or
  certified: the safe closure of the active graph, cut into its strongly connected
  components, in the min-identifier-first topological order. The order is unique,
  so a leader has no say in it.
 */
module FairOrder {
  import opened Types
  import opened Collections
  import opened Graphs

  /** The non-Blank live vertices, the edges between them, and which are Solid. */
  datatype ActiveGraph = ActiveGraph(nodes: set<TxID>, edges: set<Edge>, solid: set<TxID>)

  ghost predicate Proper(g: ActiveGraph) {
    && (forall e :: e in g.edges ==> e.src in g.nodes && e.dst in g.nodes)
    && g.solid <= g.nodes
  }

  /** The Solid vertices all of whose ancestors are Solid. */
  ghost function SafeClosure(g: ActiveGraph): set<TxID> {
    set u | u in g.solid && forall a :: Reach(g.edges, a, u) ==> a in g.solid
  }

  ghost function Upto(batches: seq<seq<TxID>>, k: nat): set<TxID>
    requires k <= |batches|
  {
    set j, v | 0 <= j < k && v in batches[j] :: v
  }

  /** Every edge into the batch comes from the batch or from `placed`. */
  ghost predicate Ready(edges: set<Edge>, batch: seq<TxID>, placed: set<TxID>) {
    forall e :: e in edges && e.dst in batch && e.src !in batch ==> e.src in placed
  }

  ghost predicate Disjoint(batches: seq<seq<TxID>>) {
    forall i, j, v :: 0 <= i < j < |batches| && v in batches[i] ==> v !in batches[j]
  }

  /** The batches are disjoint maximal strongly connected components, each in id order. */
  ghost predicate AreComponents(edges: set<Edge>, batches: seq<seq<TxID>>) {
    && Disjoint(batches)
    && (forall i :: 0 <= i < |batches| ==> batches[i] != [] && Ascending(batches[i]))
    && (forall i, u, v :: 0 <= i < |batches| && u in batches[i] ==>
         (v in batches[i] <==> Mutual(edges, u, v)))
  }

  /** Each batch is, among the batches not yet placed and ready to be, the one with
      the least identifier. */
  ghost predicate MinFirst(edges: set<Edge>, batches: seq<seq<TxID>>)
    requires forall i :: 0 <= i < |batches| ==> batches[i] != []
  {
    && (forall i :: 0 <= i < |batches| ==> Ready(edges, batches[i], Upto(batches, i)))
    && (forall i, k :: 0 <= i < k < |batches| && Ready(edges, batches[k], Upto(batches, i)) ==>
         LessTxID(batches[i][0], batches[k][0]))
  }

  ghost predicate Covers(batches: seq<seq<TxID>>, s: set<TxID>) {
    Upto(batches, |batches|) == s
  }

  ghost predicate IsFairOrder(g: ActiveGraph, batches: seq<seq<TxID>>) {
    AreComponents(g.edges, batches) && Covers(batches, SafeClosure(g)) && MinFirst(g.edges, batches)
  }

  lemma SafeClosurePredClosed(g: ActiveGraph)
    ensures PredClosed(g.edges, SafeClosure(g))
  {
    forall e | e in g.edges && e.dst in SafeClosure(g)
      ensures e.src in SafeClosure(g)
    {
      ReachEdge(g.edges, e.src, e.dst);
      forall a | Reach(g.edges, a, e.src) ensures a in g.solid {
        ReachTrans(g.edges, a, e.src, e.dst);
      }
    }
  }

  /** The safe closure is the largest predecessor-closed set of Solid vertices. */
  lemma SafeClosureLargest(g: ActiveGraph, s: set<TxID>)
    requires s <= g.solid && PredClosed(g.edges, s)
    ensures s <= SafeClosure(g)
  {
    forall u, a | u in s && Reach(g.edges, a, u) ensures a in g.solid {
      ReachComesFrom(g.edges, s, a, u);
    }
  }

  /** Where a batch of one fair order sits in another one that agrees up to `i`. */
  lemma Relocated(g: ActiveGraph, a: seq<seq<TxID>>, b: seq<seq<TxID>>, i: nat) returns (k: nat)
    requires IsFairOrder(g, a) && IsFairOrder(g, b)
    requires i < |a| && i <= |b| && a[..i] == b[..i]
    ensures i <= k < |b| && b[k] == a[i]
  {
    var u := a[i][0];
    assert u in Upto(a, |a|) by {
      assert 0 <= i < |a| && u in a[i];
    }
    assert u in Upto(b, |b|);
    forall j | 0 <= j < i ensures u !in b[j] {
      assert a[..i][j] == b[..i][j];
    }
    k :| 0 <= k < |b| && u in b[k];
    SameComponent(g.edges, a[i], b[k], u);
  }

  lemma SameComponent(edges: set<Edge>, a: seq<TxID>, b: seq<TxID>, u: TxID)
    requires Ascending(a) && Ascending(b)
    requires forall v :: v in a <==> Mutual(edges, u, v)
    requires forall v :: v in b <==> Mutual(edges, u, v)
    ensures a == b
  {
    hide Mutual, Ascending;
    AscendingUnique(a, b);
  }

  lemma SamePrefixPlaced(a: seq<seq<TxID>>, b: seq<seq<TxID>>, i: nat)
    requires i <= |a| && i <= |b| && a[..i] == b[..i]
    ensures Upto(a, i) == Upto(b, i)
  {
    forall j | 0 <= j < i ensures a[j] == b[j] {
      assert a[..i][j] == b[..i][j];
    }
  }

  lemma LeastAt(edges: set<Edge>, batches: seq<seq<TxID>>, i: nat, k: nat)
    requires (forall j :: 0 <= j < |batches| ==> batches[j] != []) && MinFirst(edges, batches)
    requires i < k < |batches| && Ready(edges, batches[k], Upto(batches, i))
    ensures LessTxID(batches[i][0], batches[k][0])
  {
  }

  /** Were the next batches different, each would be the lesser one. */
  lemma SameNext(g: ActiveGraph, a: seq<seq<TxID>>, b: seq<seq<TxID>>, m: nat)
    requires IsFairOrder(g, a) && IsFairOrder(g, b)
    requires m < |a| && m <= |b| && a[..m] == b[..m]
    ensures m < |b| && a[m] == b[m]
  {
    assert Ready(g.edges, a[m], Upto(a, m));
    var k := Relocated(g, a, b, m);
    assert Ready(g.edges, b[m], Upto(b, m));
    var l := Relocated(g, b, a, m);
    hide Ready, Upto, AreComponents, Covers;
    SamePrefixPlaced(a, b, m);
    if m < k {
      LeastAt(g.edges, b, m, k);
    }
    if m < l {
      LeastAt(g.edges, a, m, l);
    }
  }

  lemma {:induction false} FairOrdersAgreeUpto(g: ActiveGraph, a: seq<seq<TxID>>, b: seq<seq<TxID>>, i: nat)
    requires IsFairOrder(g, a) && IsFairOrder(g, b) && i <= |a|
    ensures i <= |b| && a[..i] == b[..i]
  {
    hide IsFairOrder;
    if i > 0 {
      FairOrdersAgreeUpto(g, a, b, i - 1);
      SameNext(g, a, b, i - 1);
      assert a[..i] == a[..i - 1] + [a[i - 1]];
      assert b[..i] == b[..i - 1] + [b[i - 1]];
    }
  }

  /** No leader discretion: an active graph has at most one fair order. */
  lemma FairOrderUnique(g: ActiveGraph, a: seq<seq<TxID>>, b: seq<seq<TxID>>)
    requires IsFairOrder(g, a) && IsFairOrder(g, b)
    ensures a == b
  {
    FairOrdersAgreeUpto(g, a, b, |a|);
    FairOrdersAgreeUpto(g, b, a, |b|);
    assert a[..|a|] == a && b[..|a|] == b;
  }

  /** Deleting the safe closure leaves reachability among the other vertices alone. */
  ghost function Without(g: ActiveGraph, gone: set<TxID>): ActiveGraph {
    ActiveGraph(g.nodes - gone,
                (set e | e in g.edges && e.src !in gone && e.dst !in gone),
                g.solid - gone)
  }

  lemma {:induction false} WalkAvoids(g: ActiveGraph, gone: set<TxID>, u: TxID, p: seq<TxID>, v: TxID)
    requires PredClosed(g.edges, gone) && u !in gone && Walk(g.edges, u, p, v)
    ensures v !in gone && Walk(Without(g, gone).edges, u, p, v)
    decreases |p|
  {
    if p != [] {
      WalkAvoids(g, gone, p[0], p[1..], v);
    }
  }

  lemma RemovalKeepsReach(g: ActiveGraph, gone: set<TxID>, u: TxID, v: TxID)
    requires PredClosed(g.edges, gone) && u !in gone && v !in gone
    ensures Reach(Without(g, gone).edges, u, v) <==> Reach(g.edges, u, v)
  {
    if Reach(g.edges, u, v) {
      var p :| Walk(g.edges, u, p, v);
      WalkAvoids(g, gone, u, p, v);
    }
    if Reach(Without(g, gone).edges, u, v) {
      ReachMono(Without(g, gone).edges, g.edges, u, v);
    }
  }

  /** ... and nothing releasable: the remaining graph has an empty safe closure. */
  lemma NothingReleasable(g: ActiveGraph)
    ensures SafeClosure(Without(g, SafeClosure(g))) == {}
  {
    var gone := SafeClosure(g);
    var rest := Without(g, gone);
    SafeClosurePredClosed(g);
    forall u | u in SafeClosure(rest) ensures false {
      forall a | Reach(g.edges, a, u) ensures a in g.solid {
        if a !in gone {
          RemovalKeepsReach(g, gone, a, u);
        }
      }
    }
  }
}

/** `verifyBlockForest` (pkg/ofo/dependency.go:944-993). */
module ForestVerifier {
  import opened Types
  import opened Collections
  import opened Graphs
  import opened FairOrder
  import opened EvidenceSpec
  import opened CertificateSpec
  import opened TreeVerifier

  type Index = map<TxID, BlockRecord>

  /** The per-record checks that need no other record. */
  ghost predicate ShapeOk(g: ActiveGraph, included: set<TxID>, r: BlockRecord) {
    && r.vertex in g.nodes && r.vertex !in included
    && (if r.hasParent then r.depth != 0 else r.depth == 0 && r.vertex !in g.solid)
  }

  ghost predicate Indexes(index: Index, records: seq<BlockRecord>) {
    && (forall r :: r in records ==> r.vertex in index && index[r.vertex] == r)
    && (forall v :: v in index ==> index[v] in records && index[v].vertex == v)
  }

  ghost predicate LinkOk(g: ActiveGraph, index: Index, r: BlockRecord) {
    r.hasParent ==> r.parent in index && ParentOk(g, r, index[r.parent])
  }

  lemma ShadedIs(p: Params, s: Evidence, u: TxID)
    requires Classified(p, s) && u in Active(s)
    ensures StateOf(s, u) == Shaded <==> u !in GraphOf(p, s).solid
    ensures StateOf(s, u) == Solid <==> u in GraphOf(p, s).solid
  {
  }

  method IndexRecords(p: Params, s: Evidence, active: set<TxID>, included: set<TxID>, records: seq<BlockRecord>)
    returns (ok: bool, index: Index)
    requires Classified(p, s) && active == Active(s)
    ensures ok <==> OneRecordEach(records) && forall r :: r in records ==> ShapeOk(GraphOf(p, s), included, r)
    ensures ok ==> Indexes(index, records)
  {
    index := map[];
    ghost var g := GraphOf(p, s);
    assert g.nodes == active;
    for k := 0 to |records|
      invariant OneRecordEach(records[..k]) && Indexes(index, records[..k])
      invariant forall r :: r in records[..k] ==> ShapeOk(g, included, r)
    {
      hide Active, GraphOf, Classified;
      var r := records[k];
      assert records[..k + 1] == records[..k] + [r];
      if r.vertex !in active || r.vertex in included {
        assert !ShapeOk(g, included, r);
        return false, index;
      }
      if r.vertex in index {
        assert index[r.vertex] in records[..k];
        return false, index;
      }
      ShadedIs(p, s, r.vertex);
      if !r.hasParent {
        if r.depth != 0 || StateOf(s, r.vertex) != Shaded {
          assert !ShapeOk(g, included, r);
          return false, index;
        }
      } else if r.depth == 0 {
        assert !ShapeOk(g, included, r);
        return false, index;
      }
      index := index[r.vertex := r];
    }
    assert records[..|records|] == records;
    return true, index;
  }

  method CheckLinks(p: Params, s: Evidence, index: Index, records: seq<BlockRecord>, threshold: int) returns (ok: bool)
    requires threshold == p.EdgeThreshold() && Indexes(index, records)
    requires forall r :: r in records ==> r.vertex in Active(s)
    ensures ok <==> forall r :: r in records ==> LinkOk(GraphOf(p, s), index, r)
  {
    for k := 0 to |records|
      invariant forall j :: 0 <= j < k ==> LinkOk(GraphOf(p, s), index, records[j])
    {
      hide Active, GraphOf;
      var r := records[k];
      if r.hasParent {
        if r.parent in index {
          assert index[r.parent] in records;
          LocalIsEdge(p, s, r.parent, r.vertex);
        }
        if r.parent !in index || r.depth != index[r.parent].depth + 1
             || !LocalEdgePred(s, r.parent, r.vertex, threshold) {
          assert !LinkOk(GraphOf(p, s), index, r);
          return false;
        }
      }
    }
    return true;
  }

  /** With an index, record-local and link checks are the record checks of the spec. */
  lemma RecordsAreOk(g: ActiveGraph, included: set<TxID>, records: seq<BlockRecord>, index: Index)
    requires Indexes(index, records)
    ensures (forall r :: r in records ==> RecordOk(g, included, records, r))
       <==> (forall r :: r in records ==> ShapeOk(g, included, r) && LinkOk(g, index, r))
  {
    forall r | r in records
      ensures RecordOk(g, included, records, r) <==> ShapeOk(g, included, r) && LinkOk(g, index, r)
    {
      if r.hasParent && r.parent in index && ParentOk(g, r, index[r.parent]) {
        assert index[r.parent] in records;
      }
    }
  }

  // ----- The walks

  lemma ReachFirst(edges: set<Edge>, u: TxID, v: TxID)
    requires Reach(edges, u, v) && u != v
    ensures exists w :: Edge(u, w) in edges && Reach(edges, w, v)
  {
    var path :| Walk(edges, u, path, v);
    assert Walk(edges, path[0], path[1..], v);
  }

  lemma OneWayUp(index: Index, records: seq<BlockRecord>, u: TxID, w: TxID)
    requires Indexes(index, records) && Edge(u, w) in Upward(records)
    ensures u in index && index[u].hasParent && index[u].parent == w
  {
    var r :| r in records && r.hasParent && Edge(r.vertex, r.parent) == Edge(u, w);
  }

  lemma UpwardEdge(index: Index, records: seq<BlockRecord>, u: TxID)
    requires Indexes(index, records) && u in index && index[u].hasParent
    ensures Edge(u, index[u].parent) in Upward(records)
  {
    assert index[u] in records;
  }

  /** What is above `u` is `u` and, unless `u` is a root, what is above its parent. */
  lemma AboveStep(index: Index, records: seq<BlockRecord>, u: TxID, v: TxID)
    requires Indexes(index, records) && u in index
    ensures Reach(Upward(records), u, v)
       <==> v == u || (index[u].hasParent && Reach(Upward(records), index[u].parent, v))
  {
    var up := Upward(records);
    ReachRefl(up, u);
    if index[u].hasParent {
      UpwardEdge(index, records, u);
      ReachEdge(up, u, index[u].parent);
      if Reach(up, index[u].parent, v) {
        ReachTrans(up, u, index[u].parent, v);
      }
    }
    if Reach(up, u, v) && v != u {
      ReachFirst(up, u, v);
      var w :| Edge(u, w) in up && Reach(up, w, v);
      OneWayUp(index, records, u, w);
    }
  }

  ghost predicate Linked(index: Index) {
    forall v :: v in index && index[v].hasParent ==>
      index[v].parent in index && index[v].depth == index[index[v].parent].depth + 1
  }

  /** One walk from an excluded Solid vertex; the depth strictly decreases. */
  method WalkUp(index: Index, ghost records: seq<BlockRecord>, id: TxID, used: set<TxID>)
    returns (ok: bool, used': set<TxID>)
    requires Indexes(index, records) && Linked(index)
    ensures ok <==> id in index
    ensures ok ==> forall v :: v in used' <==> v in used || Reach(Upward(records), id, v)
    ensures ok ==> used' <= used + index.Keys
  {
    used' := used;
    if id !in index {
      return false, used';
    }
    ghost var up := Upward(records);
    var current := id;
    while true
      invariant current in index && used' <= used + index.Keys
      invariant forall v :: v in used || Reach(up, id, v) <==> v in used' || Reach(up, current, v)
      decreases index[current].depth
    {
      hide Reach, Upward, Indexes;
      var r := index[current];
      forall v ensures Reach(up, current, v) <==> v == current || (r.hasParent && Reach(up, r.parent, v)) {
        AboveStep(index, records, current, v);
      }
      used' := used' + {current};
      if !r.hasParent {
        break;
      }
      current := r.parent;
    }
    return true, used';
  }

  ghost predicate Walked(blocked: set<TxID>, records: seq<BlockRecord>, used: set<TxID>) {
    forall v :: v in used <==> OnBlockerPath(blocked, records, v)
  }

  lemma WalkedStep(blocked: set<TxID>, records: seq<BlockRecord>, used: set<TxID>, id: TxID, used': set<TxID>)
    requires Walked(blocked, records, used)
    requires forall v :: v in used' <==> v in used || Reach(Upward(records), id, v)
    ensures Walked(blocked + {id}, records, used')
  {
    hide Upward, Reach;
    forall v ensures v in used' <==> OnBlockerPath(blocked + {id}, records, v) {
      if OnBlockerPath(blocked, records, v) {
        var x :| x in blocked && Reach(Upward(records), x, v);
        assert x in blocked + {id};
      }
    }
  }

  method WalkAll(index: Index, ghost records: seq<BlockRecord>, blocked: set<TxID>) returns (ok: bool, used: set<TxID>)
    requires Indexes(index, records) && Linked(index)
    ensures ok <==> forall x :: x in blocked ==> x in index
    ensures ok ==> Walked(blocked, records, used) && used <= index.Keys
  {
    used := {};
    var rest := blocked;
    assert blocked - rest == {};
    while rest != {}
      invariant rest <= blocked && used <= index.Keys
      invariant forall x :: x in blocked - rest ==> x in index
      invariant Walked(blocked - rest, records, used)
      decreases rest
    {
      hide Walked, Indexes, Linked;
      var id :| id in rest;
      ghost var before := used;
      ok, used := WalkUp(index, records, id, used);
      if !ok {
        return false, used;
      }
      WalkedStep(blocked - rest, records, before, id, used);
      assert blocked - (rest - {id}) == blocked - rest + {id};
      rest := rest - {id};
    }
    assert blocked - rest == blocked;
    return true, used;
  }

  lemma IndexSize(index: Index, records: seq<BlockRecord>)
    requires Indexes(index, records) && OneRecordEach(records)
    ensures |index.Keys| == |records|
    ensures forall x :: x in index <==> HasRecord(records, x)
  {
    var vertices := seq(|records|, i requires 0 <= i < |records| => records[i].vertex);
    DistinctIf(vertices);
    DistinctCard(vertices);
    assert Elems(vertices) == index.Keys by {
      forall v | v in index ensures v in vertices {
        var i :| 0 <= i < |records| && records[i] == index[v];
        assert vertices[i] == v;
      }
    }
    forall x | x in index ensures HasRecord(records, x) {
      assert index[x] in records;
    }
  }

  /** All walks together visit as many vertices as there are records exactly when every
      record lies on a walk. */
  lemma UsedMeansOnPath(index: Index, records: seq<BlockRecord>, blocked: set<TxID>, used: set<TxID>)
    requires Indexes(index, records) && OneRecordEach(records)
    requires Walked(blocked, records, used) && used <= index.Keys
    ensures |used| == |records| <==> forall r :: r in records ==> OnBlockerPath(blocked, records, r.vertex)
  {
    hide OnBlockerPath, HasRecord;
    IndexSize(index, records);
    SubsetCard(used, index.Keys);
    if |used| == |records| {
      forall r | r in records ensures OnBlockerPath(blocked, records, r.vertex) {
        assert r.vertex in used;
      }
    }
    if forall r :: r in records ==> OnBlockerPath(blocked, records, r.vertex) {
      forall v | v in index ensures v in used {
        assert index[v] in records;
      }
      assert used == index.Keys;
    }
  }

  method VerifyBlockForest(p: Params, s: Evidence, active: set<TxID>, included: set<TxID>, records: seq<BlockRecord>,
                           threshold: int)
    returns (ok: bool)
    requires Classified(p, s) && active == Active(s) && threshold == p.EdgeThreshold()
    ensures ok <==> ForestOk(GraphOf(p, s), included, records)
  {
    ghost var g := GraphOf(p, s);
    var index;
    ok, index := IndexRecords(p, s, active, included, records);
    if !ok {
      return false;
    }
    RecordsAreOk(g, included, records, index);
    ok := CheckLinks(p, s, index, records, threshold);
    if !ok {
      return false;
    }
    var blocked := set id | id in active && id !in included && StateOf(s, id) == Solid;
    assert blocked == g.solid - included;
    assert Linked(index);
    var used;
    ok, used := WalkAll(index, records, blocked);
    IndexSize(index, records);
    if !ok {
      return false;
    }
    UsedMeansOnPath(index, records, blocked, used);
    return |used| == |records|;
  }
}

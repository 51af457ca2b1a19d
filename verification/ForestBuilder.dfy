/** `blockForest` (pkg/ofo/dependency.go:519-580): breadth-first from the Shaded vertices,
    then the parent chains of the excluded Solid ones. */
module ForestBuilder {
  import opened Types
  import opened Collections
  import opened Graphs
  import opened FairOrder
  import opened EvidenceSpec
  import opened CertificateSpec
  import opened ForestVerifier
  import opened GraphCache
  import opened TreeBuilder

  datatype Parents = Parents(parent: map<TxID, TxID>, depth: map<TxID, nat>)

  /** Every visited vertex but the roots hangs, one deeper, below a visited predecessor. */
  ghost predicate Parented(edges: set<Edge>, roots: set<TxID>, visited: set<TxID>, f: Parents) {
    && roots <= visited && f.parent.Keys == visited - roots && f.depth.Keys == f.parent.Keys
    && (forall v :: v in f.parent ==> f.parent[v] in visited && Edge(f.parent[v], v) in edges
                                      && f.depth[v] == Count(f.depth, f.parent[v]) + 1)
  }

  lemma ParentedMore(edges: set<Edge>, roots: set<TxID>, visited: set<TxID>, f: Parents, current: TxID, next: TxID)
    requires Parented(edges, roots, visited, f) && current in visited && next !in visited
    requires Edge(current, next) in edges
    ensures Parented(edges, roots, visited + {next},
                     Parents(f.parent[next := current], f.depth[next := Count(f.depth, current) + 1]))
  {
  }

  lemma RootsOnly(arrows: set<Edge>, roots: set<TxID>, queue: seq<TxID>)
    requires Elems(queue) == roots
    ensures Parented(arrows, roots, roots, Parents(map[], map[])) && Settled(arrows, roots, Elems(queue))
  {
  }

  method Adopt(ghost edges: set<Edge>, ghost roots: set<TxID>, current: TxID, neighbors: seq<TxID>,
               visited0: set<TxID>, queue0: seq<TxID>, f0: Parents)
    returns (visited: set<TxID>, queue: seq<TxID>, f: Parents)
    requires Parented(edges, roots, visited0, f0) && current in visited0
    requires forall next :: next in neighbors ==> Edge(current, next) in edges
    ensures Parented(edges, roots, visited, f)
    ensures Visited(visited0, Elems(queue0), Elems(neighbors), visited, Elems(queue))
    ensures neighbors == [] ==> queue == queue0
  {
    hide *;
    visited, queue, f := visited0, queue0, f0;
    VisitedNone(visited0, queue0, neighbors);
    for k := 0 to |neighbors|
      invariant Parented(edges, roots, visited, f) && current in visited
      invariant Visited(visited0, Elems(queue0), Elems(neighbors[..k]), visited, Elems(queue))
      invariant k == 0 ==> queue == queue0
    {
      var next := neighbors[k];
      VisitedMore(visited0, Elems(queue0), neighbors, k, visited, queue, queue + [next]);
      if next in visited {
        continue;
      }
      ParentedMore(edges, roots, visited, f, current, next);
      visited := visited + {next};
      f := Parents(f.parent[next := current], f.depth[next := Count(f.depth, current) + 1]);
      queue := queue + [next];
    }
    assert neighbors[..|neighbors|] == neighbors;
  }

  lemma NextEdges(adjacency: Nbrs, current: TxID, visited: set<TxID>, found: set<TxID>)
    requires found == set next | next in NextOf(adjacency, current) && next !in visited
    ensures forall next :: next in found ==> Edge(current, next) in Arrows(adjacency)
    ensures forall e :: e in Arrows(adjacency) && e.src == current ==> e.dst in visited + found
  {
  }

  lemma VisitedBound(edges: set<Edge>, roots: set<TxID>, visited: set<TxID>, f: Parents, nodes: set<TxID>)
    requires Parented(edges, roots, visited, f) && roots <= nodes && forall e :: e in edges ==> e.dst in nodes
    ensures visited <= nodes
  {
    forall v | v in visited ensures v in nodes {
      if v !in roots {
        assert Edge(f.parent[v], v) in edges;
      }
    }
  }

  /** The breadth-first pass. */
  method Spread(adjacency: Nbrs, roots: set<TxID>, ghost nodes: set<TxID>) returns (visited: set<TxID>, f: Parents)
    requires roots <= nodes && forall e :: e in Arrows(adjacency) ==> e.dst in nodes
    ensures Parented(Arrows(adjacency), roots, visited, f) && SuccClosed(Arrows(adjacency), visited) && visited <= nodes
  {
    hide *;
    ghost var arrows := Arrows(adjacency);
    var queue := SortedSet(roots);
    visited, f := roots, Parents(map[], map[]);
    RootsOnly(arrows, roots, queue);
    while |queue| > 0
      invariant Parented(arrows, roots, visited, f)
      invariant Settled(arrows, visited, Elems(queue)) && Elems(queue) <= visited
      decreases nodes - visited, |queue|
    {
      var current := queue[0];
      QueueRest(queue);
      var found := set next | next in NextOf(adjacency, current) && next !in visited;
      NextEdges(adjacency, current, visited, found);
      var neighbors := SortedSet(found);
      MembersOf(neighbors, found);
      ghost var before := visited;
      var queue';
      visited, queue', f := Adopt(arrows, roots, current, neighbors, visited, queue[1..], f);
      VisitedBound(arrows, roots, visited, f, nodes);
      SettledStep(arrows, before, queue, found, visited, queue');
      VisitedInside(before, Elems(queue[1..]), found, visited, Elems(queue'), nodes);
      queue := queue';
    }
    QueueEmpty(queue);
    SettledClosed(arrows, visited);
    VisitedBound(arrows, roots, visited, f, nodes);
  }

  lemma SettledClosed(arrows: set<Edge>, visited: set<TxID>)
    requires Settled(arrows, visited, {})
    ensures SuccClosed(arrows, visited)
  {
  }

  // ----- The chains

  /** Parent pointers of the vertices used so far. */
  ghost function Up(f: Parents, used: set<TxID>): set<Edge> {
    set v | v in used && v in f.parent :: Edge(v, f.parent[v])
  }

  ghost predicate OnChain(f: Parents, used: set<TxID>, blocked: set<TxID>, v: TxID) {
    exists x :: x in blocked && Reach(Up(f, used), x, v)
  }

  ghost predicate Chained(f: Parents, used: set<TxID>, blocked: set<TxID>) {
    && (forall v :: v in used && v in f.parent ==> f.parent[v] in used)
    && (forall v :: v in used ==> OnChain(f, used, blocked, v))
    && blocked <= used
  }

  /** In the middle of a walk from `id`, with `current` next. */
  ghost predicate Walking(f: Parents, used: set<TxID>, blocked: set<TxID>, id: TxID, current: TxID) {
    && (forall v :: v in used && v in f.parent ==> f.parent[v] in used || f.parent[v] == current)
    && (forall v :: v in used ==> OnChain(f, used, blocked + {id}, v))
    && Reach(Up(f, used), id, current)
    && blocked <= used && (id in used || id == current)
  }

  lemma OnChainMore(f: Parents, used: set<TxID>, blocked: set<TxID>, current: TxID, v: TxID, blocked': set<TxID>)
    requires OnChain(f, used, blocked, v) && blocked <= blocked'
    ensures OnChain(f, used + {current}, blocked', v)
  {
    hide Reach;
    var x :| x in blocked && Reach(Up(f, used), x, v);
    ReachMono(Up(f, used), Up(f, used + {current}), x, v);
  }

  lemma WalkBegins(f: Parents, used: set<TxID>, blocked: set<TxID>, id: TxID)
    requires Chained(f, used, blocked)
    ensures Walking(f, used, blocked, id, id)
  {
    hide Reach, Up;
    ReachRefl(Up(f, used), id);
    forall v | v in used ensures OnChain(f, used, blocked + {id}, v) {
      var x :| x in blocked && Reach(Up(f, used), x, v);
    }
  }

  lemma WalkMarks(f: Parents, used: set<TxID>, blocked: set<TxID>, id: TxID, current: TxID)
    requires Walking(f, used, blocked, id, current)
    ensures forall v :: v in used + {current} ==> OnChain(f, used + {current}, blocked + {id}, v)
    ensures Reach(Up(f, used + {current}), id, current)
  {
    ReachMono(Up(f, used), Up(f, used + {current}), id, current);
    hide Reach, Up;
    forall v | v in used ensures OnChain(f, used + {current}, blocked + {id}, v) {
      OnChainMore(f, used, blocked + {id}, current, v, blocked + {id});
    }
  }

  lemma WalkClimbs(f: Parents, used: set<TxID>, blocked: set<TxID>, id: TxID, current: TxID)
    requires Walking(f, used, blocked, id, current) && current in f.parent
    ensures Walking(f, used + {current}, blocked, id, f.parent[current])
  {
    hide Reach;
    WalkMarks(f, used, blocked, id, current);
    var up := Up(f, used + {current});
    ReachEdge(up, current, f.parent[current]);
    ReachTrans(up, id, current, f.parent[current]);
  }

  lemma WalkEnds(f: Parents, used: set<TxID>, blocked: set<TxID>, id: TxID, current: TxID)
    requires Walking(f, used, blocked, id, current) && current !in f.parent
    ensures Chained(f, used + {current}, blocked + {id})
  {
    hide Reach, Up;
    WalkMarks(f, used, blocked, id, current);
  }

  method Climb(f: Parents, roots: set<TxID>, id: TxID, used0: set<TxID>,
               ghost edges: set<Edge>, ghost visited: set<TxID>, ghost blocked: set<TxID>) returns (used: set<TxID>)
    requires Parented(edges, roots, visited, f) && id in visited && used0 <= visited && Chained(f, used0, blocked)
    ensures used <= visited && Chained(f, used, blocked + {id})
  {
    hide *;
    used := used0;
    var current := id;
    WalkBegins(f, used, blocked, id);
    while true
      invariant used <= visited && current in visited && Walking(f, used, blocked, id, current)
      decreases Count(f.depth, current)
    {
      ParentedAt(edges, roots, visited, f, current);
      if current in roots || current !in f.parent {
        WalkEnds(f, used, blocked, id, current);
        used := used + {current};
        break;
      }
      WalkClimbs(f, used, blocked, id, current);
      used := used + {current};
      current := f.parent[current];
    }
  }

  lemma ParentedAt(edges: set<Edge>, roots: set<TxID>, visited: set<TxID>, f: Parents, v: TxID)
    requires Parented(edges, roots, visited, f) && v in visited
    ensures v in f.parent <==> v !in roots
    ensures v in f.parent ==> f.parent[v] in visited && Count(f.depth, f.parent[v]) < Count(f.depth, v)
  {
  }

  lemma NoChains(f: Parents)
    ensures Chained(f, {}, {})
  {
  }

  method ClimbAll(f: Parents, roots: set<TxID>, blocked: set<TxID>, ghost edges: set<Edge>, ghost visited: set<TxID>)
    returns (used: set<TxID>)
    requires Parented(edges, roots, visited, f) && blocked <= visited
    ensures used <= visited && Chained(f, used, blocked)
  {
    hide *;
    used := {};
    var rest := blocked;
    NoChains(f);
    assert blocked - rest == {};
    while rest != {}
      invariant rest <= blocked && used <= visited && Chained(f, used, blocked - rest)
      decreases rest
    {
      var id :| id in rest;
      used := Climb(f, roots, id, used, edges, visited, blocked - rest);
      assert blocked - (rest - {id}) == blocked - rest + {id};
      rest := rest - {id};
    }
    assert blocked - rest == blocked;
  }

  // ----- The records

  function RecordFor(f: Parents, id: TxID): BlockRecord {
    BlockRecord(id, if id in f.parent then f.parent[id] else 0, id in f.parent, Count(f.depth, id))
  }

  ghost predicate Records(f: Parents, used: set<TxID>, records: seq<BlockRecord>) {
    && OneRecordEach(records)
    && (forall r :: r in records ==> r.vertex in used && r == RecordFor(f, r.vertex))
    && (forall v :: v in used ==> RecordFor(f, v) in records)
  }

  method Write(f: Parents, used: set<TxID>) returns (records: seq<BlockRecord>)
    ensures Records(f, used, records)
  {
    var ids := SortedSet(used);
    AscendingDistinct(ids);
    records := [];
    for k := 0 to |ids|
      invariant |records| == k && forall j :: 0 <= j < k ==> records[j] == RecordFor(f, ids[j])
    {
      records := records + [RecordFor(f, ids[k])];
    }
    RecordsFor(f, used, ids, records);
  }

  lemma RecordsFor(f: Parents, used: set<TxID>, ids: seq<TxID>, records: seq<BlockRecord>)
    requires Distinct(ids) && Elems(ids) == used && |records| == |ids|
    requires forall j :: 0 <= j < |ids| ==> records[j] == RecordFor(f, ids[j])
    ensures Records(f, used, records)
  {
    forall j, k | 0 <= j < k < |records| ensures records[j].vertex != records[k].vertex {
      DistinctAt(ids, j, k);
    }
    forall r | r in records ensures r.vertex in used && r == RecordFor(f, r.vertex) {
      var j :| 0 <= j < |records| && records[j] == r;
      assert ids[j] in Elems(ids);
    }
    forall v | v in used ensures RecordFor(f, v) in records {
      var j :| 0 <= j < |ids| && ids[j] == v;
      assert records[j] == RecordFor(f, v);
    }
  }

  lemma UpwardIsUp(f: Parents, used: set<TxID>, records: seq<BlockRecord>)
    requires Records(f, used, records)
    ensures Upward(records) == Up(f, used)
  {
    forall v | v in used && v in f.parent ensures Edge(v, f.parent[v]) in Upward(records) {
      assert RecordFor(f, v) in records;
    }
  }

  /** Below a root nothing is releasable. */
  lemma {:induction false} HangsBelowRoot(edges: set<Edge>, roots: set<TxID>, visited: set<TxID>, f: Parents, v: TxID)
    returns (r: TxID)
    requires Parented(edges, roots, visited, f) && v in visited
    ensures r in roots && Reach(edges, r, v)
    decreases Count(f.depth, v)
  {
    if v in roots {
      r := v;
      ReachRefl(edges, v);
    } else {
      r := HangsBelowRoot(edges, roots, visited, f, f.parent[v]);
      ReachEdge(edges, f.parent[v], v);
      ReachTrans(edges, r, f.parent[v], v);
    }
  }

  lemma NotIncluded(g: ActiveGraph, visited: set<TxID>, f: Parents, v: TxID)
    requires Parented(g.edges, g.nodes - g.solid, visited, f) && v in visited
    ensures v !in SafeClosure(g)
  {
    var r := HangsBelowRoot(g.edges, g.nodes - g.solid, visited, f, v);
  }

  /** Every excluded Solid vertex is reached from a Shaded one. */
  lemma BlockedVisited(g: ActiveGraph, visited: set<TxID>)
    requires Proper(g) && SuccClosed(g.edges, visited) && g.nodes - g.solid <= visited
    ensures g.solid - SafeClosure(g) <= visited
  {
    forall x | x in g.solid - SafeClosure(g) ensures x in visited {
      var a :| Reach(g.edges, a, x) && a !in g.solid;
      ReachComesFrom(g.edges, g.nodes, a, x);
      ReachStaysIn(g.edges, visited, a, x);
    }
  }

  lemma RecordIsOk(g: ActiveGraph, visited: set<TxID>, f: Parents, used: set<TxID>, blocked: set<TxID>,
                   records: seq<BlockRecord>, r: BlockRecord)
    requires Parented(g.edges, g.nodes - g.solid, visited, f) && visited <= g.nodes && used <= visited
    requires Chained(f, used, blocked) && Records(f, used, records) && r in records
    ensures RecordOk(g, SafeClosure(g), records, r)
  {
    hide OnChain, OneRecordEach;
    NotIncluded(g, visited, f, r.vertex);
    hide SafeClosure;
    if r.hasParent {
      var q := RecordFor(f, r.parent);
      assert r.parent in used;
      assert q in records;
      assert ParentOk(g, r, q);
    }
  }

  lemma ForestIsOk(g: ActiveGraph, visited: set<TxID>, f: Parents, used: set<TxID>, records: seq<BlockRecord>)
    requires Parented(g.edges, g.nodes - g.solid, visited, f) && visited <= g.nodes && used <= visited
    requires Chained(f, used, g.solid - SafeClosure(g)) && Records(f, used, records)
    ensures ForestOk(g, SafeClosure(g), records)
  {
    UpwardIsUp(f, used, records);
    hide SafeClosure, Parented, RecordOk, Reach, Upward, Up;
    var blocked := g.solid - SafeClosure(g);
    forall r | r in records
      ensures RecordOk(g, SafeClosure(g), records, r) && OnBlockerPath(blocked, records, r.vertex)
    {
      RecordIsOk(g, visited, f, used, blocked, records, r);
      assert OnChain(f, used, blocked, r.vertex);
    }
    forall x | x in blocked ensures HasRecord(records, x) {
      assert RecordFor(f, x) in records;
    }
  }

  /** Certifies everything that is held back: the forest of blockers is the one the
      verifier accepts for the safe closure. */
  method BlockForest(ghost p: Params, s: Evidence, nodes: set<TxID>, adjacency: Nbrs, selected: set<nat>,
                     nodeToSCC: map<TxID, nat>)
    returns (records: seq<BlockRecord>)
    requires Classified(p, s) && nodes == Active(s) && Arrows(adjacency) == GraphOf(p, s).edges
    requires nodeToSCC.Keys == nodes
    requires forall id :: id in nodes ==> (nodeToSCC[id] in selected <==> id in SafeClosure(GraphOf(p, s)))
    ensures ForestOk(GraphOf(p, s), SafeClosure(GraphOf(p, s)), records)
  {
    ghost var g := GraphOf(p, s);
    GraphProper(p, s);
    var roots := set id | id in nodes && StateOf(s, id) == Shaded;
    var blocked := set id | id in nodes && StateOf(s, id) == Solid && nodeToSCC[id] !in selected;
    RootsAre(p, s, nodes, roots);
    BlockedAre(p, s, nodes, blocked, selected, nodeToSCC);
    hide *;
    ProperParts(g);
    var visited, f := Spread(adjacency, roots, nodes);
    ParentedRoots(g.edges, roots, visited, f);
    BlockedVisited(g, visited);
    var used := ClimbAll(f, roots, blocked, g.edges, visited);
    records := Write(f, used);
    ForestIsOk(g, visited, f, used, records);
  }

  lemma ProperParts(g: ActiveGraph)
    requires Proper(g)
    ensures forall e :: e in g.edges ==> e.dst in g.nodes
  {
  }

  lemma ParentedRoots(edges: set<Edge>, roots: set<TxID>, visited: set<TxID>, f: Parents)
    requires Parented(edges, roots, visited, f)
    ensures roots <= visited
  {
  }

  lemma RootsAre(p: Params, s: Evidence, nodes: set<TxID>, roots: set<TxID>)
    requires Classified(p, s) && nodes == Active(s) && roots == set id | id in nodes && StateOf(s, id) == Shaded
    ensures roots == GraphOf(p, s).nodes - GraphOf(p, s).solid && GraphOf(p, s).nodes == nodes
  {
    forall u | u in nodes ensures StateOf(s, u) == Shaded <==> u !in GraphOf(p, s).solid {
      ShadedIs(p, s, u);
    }
  }

  lemma BlockedAre(p: Params, s: Evidence, nodes: set<TxID>, blocked: set<TxID>, selected: set<nat>,
                   nodeToSCC: map<TxID, nat>)
    requires Classified(p, s) && nodes == Active(s) && nodeToSCC.Keys == nodes
    requires forall id :: id in nodes ==> (nodeToSCC[id] in selected <==> id in SafeClosure(GraphOf(p, s)))
    requires blocked == set id | id in nodes && StateOf(s, id) == Solid && nodeToSCC[id] !in selected
    ensures blocked == GraphOf(p, s).solid - SafeClosure(GraphOf(p, s))
  {
    hide SafeClosure;
    forall u | u in nodes ensures StateOf(s, u) == Solid <==> u in GraphOf(p, s).solid {
      ShadedIs(p, s, u);
    }
  }
}

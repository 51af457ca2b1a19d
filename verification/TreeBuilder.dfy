/** `spanningTree` (pkg/ofo/dependency.go:482-519): breadth-first over one component. */
module TreeBuilder {
  import opened Types
  import opened Collections
  import opened Graphs
  import opened CertificateSpec
  import opened TreeVerifier
  import opened GraphCache

  function TreeEdge(current: TxID, next: TxID, inward: bool): Edge {
    if inward then Edge(next, current) else Edge(current, next)
  }

  /** A tree over `visited`: one parent per non-root, all reached from the root. */
  ghost predicate Growing(edges: set<Edge>, root: TxID, component: set<TxID>, inward: bool, visited: set<TxID>,
                          tree: seq<Edge>) {
    && root in visited && visited <= component
    && EdgesOk(edges, component, tree)
    && OneParent(root, inward, visited, tree)
    && (forall id :: id in visited ==> Reach(Downward(tree, inward), root, id))
    && |tree| + 1 == |visited|
  }

  ghost predicate OneParent(root: TxID, inward: bool, visited: set<TxID>, tree: seq<Edge>) {
    forall id :: |Slots(tree, inward, id)| == if id in visited && id != root then 1 else 0
  }

  lemma OneParentMore(root: TxID, inward: bool, visited: set<TxID>, tree: seq<Edge>, grown: seq<Edge>, next: TxID)
    requires OneParent(root, inward, visited, tree) && next !in visited && next != root
    requires |grown| == |tree| + 1 && grown[..|tree|] == tree && Child(grown[|tree|], inward) == next
    ensures OneParent(root, inward, visited + {next}, grown)
  {
    forall id ensures |Slots(grown, inward, id)| == if id in visited + {next} && id != root then 1 else 0 {
      SlotsSnoc(grown, |tree|, inward, id);
      assert grown[..|tree| + 1] == grown;
    }
  }

  lemma ReachMore(root: TxID, inward: bool, visited: set<TxID>, tree: seq<Edge>, grown: seq<Edge>, current: TxID,
                  next: TxID)
    requires forall id :: id in visited ==> Reach(Downward(tree, inward), root, id)
    requires |grown| == |tree| + 1 && grown[..|tree|] == tree && grown[|tree|] == TreeEdge(current, next, inward)
    requires current in visited
    ensures forall id :: id in visited + {next} ==> Reach(Downward(grown, inward), root, id)
  {
    hide Reach, Downward;
    DownwardSnoc(grown, |tree|, inward);
    assert grown[..|tree| + 1] == grown;
    forall id | id in visited ensures Reach(Downward(grown, inward), root, id) {
      ReachMono(Downward(tree, inward), Downward(grown, inward), root, id);
    }
    ReachEdge(Downward(grown, inward), current, next);
    ReachTrans(Downward(grown, inward), root, current, next);
  }

  lemma GrowOne(edges: set<Edge>, root: TxID, component: set<TxID>, inward: bool, visited: set<TxID>, tree: seq<Edge>,
                current: TxID, next: TxID, grown: seq<Edge>)
    requires Growing(edges, root, component, inward, visited, tree)
    requires current in visited && next in component && next !in visited && TreeEdge(current, next, inward) in edges
    requires grown == tree + [TreeEdge(current, next, inward)]
    ensures Growing(edges, root, component, inward, visited + {next}, grown)
  {
    hide OneParent, Reach, Downward;
    assert grown[..|tree|] == tree;
    OneParentMore(root, inward, visited, tree, grown, next);
    ReachMore(root, inward, visited, tree, grown, current, next);
  }

  lemma JustRoot(edges: set<Edge>, root: TxID, component: set<TxID>, inward: bool)
    requires root in component
    ensures Growing(edges, root, component, inward, {root}, [])
  {
    ReachRefl(Downward([], inward), root);
    assert forall id :: Slots([], inward, id) == {};
  }

  /** Everything visited but no longer queued has had its successors visited. */
  ghost predicate Settled(arrows: set<Edge>, visited: set<TxID>, queue: set<TxID>) {
    forall e :: e in arrows && e.src in visited && e.src !in queue ==> e.dst in visited
  }

  /** What visiting the members of `added` does to the visited set and to the queue. */
  ghost predicate Visited(visited0: set<TxID>, queue0: set<TxID>, added: set<TxID>, visited: set<TxID>,
                          queue: set<TxID>) {
    visited == visited0 + added && queue0 + (visited - visited0) <= queue <= queue0 + visited
  }

  lemma VisitedNone(visited0: set<TxID>, queue0: seq<TxID>, neighbors: seq<TxID>)
    ensures Visited(visited0, Elems(queue0), Elems(neighbors[..0]), visited0, Elems(queue0))
  {
  }

  lemma VisitedMore(visited0: set<TxID>, queue0: set<TxID>, neighbors: seq<TxID>, k: nat, visited: set<TxID>,
                    queue: seq<TxID>, grown: seq<TxID>)
    requires k < |neighbors| && Visited(visited0, queue0, Elems(neighbors[..k]), visited, Elems(queue))
    requires grown == queue + [neighbors[k]]
    ensures if neighbors[k] in visited then Visited(visited0, queue0, Elems(neighbors[..k + 1]), visited, Elems(queue))
            else Visited(visited0, queue0, Elems(neighbors[..k + 1]), visited + {neighbors[k]}, Elems(grown))
  {
    ElemsGrow(neighbors, k);
    ElemsConcat(queue, [neighbors[k]]);
    assert Elems([neighbors[k]]) == {neighbors[k]};
    hide Elems;
  }

  /** The unvisited neighbours become children of `current`. */
  method Attach(ghost edges: set<Edge>, ghost root: TxID, ghost component: set<TxID>, inward: bool, current: TxID,
                neighbors: seq<TxID>,
                visited0: set<TxID>, queue0: seq<TxID>, tree0: seq<Edge>)
    returns (visited: set<TxID>, queue: seq<TxID>, tree: seq<Edge>)
    requires Growing(edges, root, component, inward, visited0, tree0) && current in visited0
    requires forall next :: next in neighbors ==> next in component && TreeEdge(current, next, inward) in edges
    ensures Growing(edges, root, component, inward, visited, tree)
    ensures Visited(visited0, Elems(queue0), Elems(neighbors), visited, Elems(queue))
    ensures neighbors == [] ==> queue == queue0
  {
    hide *;
    visited, queue, tree := visited0, queue0, tree0;
    VisitedNone(visited0, queue0, neighbors);
    for k := 0 to |neighbors|
      invariant Growing(edges, root, component, inward, visited, tree) && current in visited
      invariant Visited(visited0, Elems(queue0), Elems(neighbors[..k]), visited, Elems(queue))
      invariant k == 0 ==> queue == queue0
    {
      var next := neighbors[k];
      VisitedMore(visited0, Elems(queue0), neighbors, k, visited, queue, queue + [next]);
      if next in visited {
        continue;
      }
      GrowOne(edges, root, component, inward, visited, tree, current, next, tree + [TreeEdge(current, next, inward)]);
      visited := visited + {next};
      queue := queue + [next];
      tree := tree + [TreeEdge(current, next, inward)];
    }
    assert neighbors[..|neighbors|] == neighbors;
  }

  ghost predicate Spanned(arrows: set<Edge>, component: set<TxID>, root: TxID) {
    forall v :: v in component ==> Reach(Within(arrows, component), root, v)
  }

  lemma SettledStep(arrows: set<Edge>, visited: set<TxID>, queue: seq<TxID>, found: set<TxID>, visited': set<TxID>,
                    queue': seq<TxID>)
    requires Settled(arrows, visited, Elems(queue)) && queue != []
    requires Visited(visited, Elems(queue[1..]), found, visited', Elems(queue'))
    requires forall e :: e in arrows && e.src == queue[0] ==> e.dst in visited + found
    ensures Settled(arrows, visited', Elems(queue'))
  {
    QueueRest(queue);
    hide Elems;
  }

  lemma AllSettled(arrows: set<Edge>, component: set<TxID>, root: TxID, visited: set<TxID>)
    requires Settled(Within(arrows, component), visited, {}) && Spanned(arrows, component, root) && root in visited
    ensures component <= visited
  {
    hide Reach;
    forall v | v in component ensures v in visited {
      ReachStaysIn(Within(arrows, component), visited, root, v);
    }
  }

  lemma GrownIsTree(edges: set<Edge>, root: TxID, component: seq<TxID>, inward: bool, tree: seq<Edge>)
    requires Growing(edges, root, Elems(component), inward, Elems(component), tree) && Distinct(component)
    ensures TreeOk(edges, root, Elems(component), tree, inward) && |tree| == |component| - 1
  {
    hide Reach, Slots, Downward, Distinct;
    DistinctCard(component);
  }

  ghost predicate Along(edges: set<Edge>, adjacency: Nbrs, inward: bool) {
    Arrows(adjacency) == if inward then Reversed(edges) else edges
  }

  lemma NeighborEdges(edges: set<Edge>, adjacency: Nbrs, inward: bool, component: set<TxID>, current: TxID,
                      visited: set<TxID>, found: set<TxID>)
    requires Along(edges, adjacency, inward) && current in component
    requires found == set next | next in NextOf(adjacency, current) && next in component && next !in visited
    ensures forall next :: next in found ==> next in component && TreeEdge(current, next, inward) in edges
    ensures forall e :: e in Within(Arrows(adjacency), component) && e.src == current ==> e.dst in visited + found
  {
    forall next | next in found ensures TreeEdge(current, next, inward) in edges {
      assert Edge(current, next) in Arrows(adjacency);
    }
  }

  function NextOf(adjacency: Nbrs, u: TxID): set<TxID> {
    if u in adjacency then adjacency[u] else {}
  }

  lemma QueueRest(queue: seq<TxID>)
    requires queue != []
    ensures Elems(queue) == {queue[0]} + Elems(queue[1..])
  {
    ElemsSplit(queue, 1);
    assert queue[..1] == [queue[0]];
  }

  method SpanningTree(ghost edges: set<Edge>, root: TxID, component: seq<TxID>, adjacency: Nbrs, inward: bool)
    returns (tree: seq<Edge>)
    requires root in component && Distinct(component) && Along(edges, adjacency, inward)
    requires Spanned(Arrows(adjacency), Elems(component), root)
    ensures TreeOk(edges, root, Elems(component), tree, inward) && |tree| == |component| - 1
  {
    hide *;
    var inComponent := SetOf(component);
    ghost var arrows := Within(Arrows(adjacency), inComponent);
    var visited := {root};
    var queue := [root];
    tree := [];
    RootIn(component, root);
    JustRoot(edges, root, inComponent, inward);
    RootQueued(arrows, root);
    while |queue| > 0
      invariant Growing(edges, root, inComponent, inward, visited, tree)
      invariant Settled(arrows, visited, Elems(queue)) && Elems(queue) <= visited
      decreases inComponent - visited, |queue|
    {
      var current := queue[0];
      QueueRest(queue);
      GrowingInside(edges, root, inComponent, inward, visited, tree);
      var found := set next | next in NextOf(adjacency, current) && next in inComponent && next !in visited;
      NeighborEdges(edges, adjacency, inward, inComponent, current, visited, found);
      var neighbors := SortedSet(found);
      MembersOf(neighbors, found);
      ghost var before := visited;
      var queue';
      visited, queue', tree := Attach(edges, root, inComponent, inward, current, neighbors, visited, queue[1..], tree);
      GrowingInside(edges, root, inComponent, inward, visited, tree);
      SettledStep(arrows, before, queue, found, visited, queue');
      VisitedInside(before, Elems(queue[1..]), found, visited, Elems(queue'), inComponent);
      queue := queue';
    }
    QueueEmpty(queue);
    GrowingInside(edges, root, inComponent, inward, visited, tree);
    AllSettled(Arrows(adjacency), inComponent, root, visited);
    assert visited == Elems(component);
    GrownIsTree(edges, root, component, inward, tree);
  }

  lemma RootIn(component: seq<TxID>, root: TxID)
    requires root in component
    ensures root in Elems(component)
  {
  }

  lemma RootQueued(arrows: set<Edge>, root: TxID)
    ensures Settled(arrows, {root}, Elems([root])) && Elems([root]) <= {root}
  {
  }

  lemma QueueEmpty(queue: seq<TxID>)
    requires |queue| == 0
    ensures Elems(queue) == {}
  {
  }

  lemma VisitedInside(visited0: set<TxID>, queue0: set<TxID>, found: set<TxID>, visited: set<TxID>, queue: set<TxID>,
                      bound: set<TxID>)
    requires Visited(visited0, queue0, found, visited, queue) && queue0 <= visited0 && found !! visited0
    requires visited <= bound
    ensures queue <= visited
    ensures if found == {} then visited == visited0 else bound - visited < bound - visited0
  {
    if found != {} {
      var x :| x in found;
      assert x in bound - visited0 && x !in bound - visited;
    }
  }

  lemma MembersOf(neighbors: seq<TxID>, found: set<TxID>)
    requires Elems(neighbors) == found
    ensures forall x :: x in neighbors <==> x in found
    ensures neighbors != [] ==> found != {}
  {
    if neighbors != [] {
      assert neighbors[0] in Elems(neighbors);
    }
  }

  lemma GrowingInside(edges: set<Edge>, root: TxID, component: set<TxID>, inward: bool, visited: set<TxID>,
                      tree: seq<Edge>)
    requires Growing(edges, root, component, inward, visited, tree)
    ensures visited <= component && root in visited
  {
  }
}

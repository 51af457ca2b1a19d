/** `TarjanSCC` (pkg/ofo/dependency.go:662-710). */
module Tarjan {
  import opened Types
  import opened Collections
  import opened Graphs
  import opened FairOrder
  import opened TarjanFacts

  datatype DependencyGraph = DependencyGraph(nodes: set<TxID>, edges: Adjacency)

  /** Edges stay inside the nodes. */
  ghost predicate Closed(graph: DependencyGraph) {
    && graph.edges.Keys <= graph.nodes
    && forall u :: u in graph.edges ==> Elems(graph.edges[u]) <= graph.nodes
  }

  ghost predicate Kept(links: map<TxID, nat>, links': map<TxID, nat>, seen: set<TxID>) {
    forall u :: u in seen && u in links ==> u in links' && links'[u] == links[u]
  }

  lemma KeptByAdding(links: map<TxID, nat>, v: TxID, low: nat, seen: set<TxID>)
    requires v !in seen
    ensures Kept(links, links[v := low], seen)
  {
  }

  lemma KeptSame(links: map<TxID, nat>, seen: set<TxID>)
    ensures Kept(links, links, seen)
  {
  }

  lemma PushSeen(a: Pass, v: TxID)
    ensures Push(a, v).num.Keys == a.num.Keys + {v}
  {
  }

  lemma KeptTrans(l0: map<TxID, nat>, l1: map<TxID, nat>, l2: map<TxID, nat>, small: set<TxID>, large: set<TxID>)
    requires Kept(l0, l1, small) && Kept(l1, l2, large) && small <= large
    ensures Kept(l0, l2, small)
  {
  }

  lemma SuccessorIs(edges: set<Edge>, v: TxID, done: set<TxID>, w: TxID)
    requires Successors(edges, v, done) && w in done
    ensures Edge(v, w) in edges
  {
  }

  lemma NeighborsAre(graph: DependencyGraph, v: TxID)
    requires Closed(graph)
    ensures Elems(Neighbors(graph.edges, v)) <= graph.nodes
    ensures Successors(AdjEdges(graph.edges), v, Elems(Neighbors(graph.edges, v)))
  {
  }

  /** The variables `connect` shares with its recursive calls. A map to bool is the set
      of its true keys. */
  class Search {
    const graph: DependencyGraph
    var index: nat
    var indices: map<TxID, nat>
    var lowlink: map<TxID, nat>
    var stack: seq<TxID>
    var onStack: set<TxID>
    var components: seq<seq<TxID>>

    constructor (graph: DependencyGraph)
      ensures this.graph == graph && index == 0 && indices == map[] && lowlink == map[]
      ensures stack == [] && onStack == {} && components == []
    {
      this.graph := graph;
      index, indices, lowlink, stack, onStack, components := 0, map[], map[], [], {}, [];
    }

    ghost function View(): Pass
      reads this
    {
      Pass(indices, index, stack, components)
    }

    ghost predicate Consistent()
      reads this
    {
      onStack == Elems(stack) && indices.Keys <= lowlink.Keys && indices.Keys <= graph.nodes
    }

    method Enter(v: TxID)
      requires Consistent() && v in graph.nodes
      modifies this
      ensures Consistent() && View() == Push(old(View()), v)
      ensures lowlink == old(lowlink)[v := old(index)]
    {
      ElemsConcat(stack, [v]);
      indices := indices[v := index];
      lowlink := lowlink[v := index];
      index := index + 1;
      stack := stack + [v];
      onStack := onStack + {v};
    }

    /** Pops down to `v`, which lies at `height`. */
    method PopTo(v: TxID, ghost height: nat) returns (component: seq<TxID>)
      requires height < |stack| && stack[height] == v && Distinct(stack) && onStack == Elems(stack)
      modifies `stack, `onStack
      ensures stack == old(stack)[..height] && onStack == Elems(stack)
      ensures Distinct(component) && Elems(component) == Elems(old(stack)[height..])
    {
      component := [];
      ghost var full := stack;
      EmptyElems<TxID>();
      assert full[..|full|] == full && full[|full|..] == [];
      while true
        invariant height < |stack| <= |full| && stack == full[..|stack|] && onStack == Elems(stack)
        invariant Distinct(component) && Elems(component) == Elems(full[|stack|..])
        decreases |stack|
      {
        hide Distinct, Elems;
        var w := stack[|stack| - 1];
        PopFacts(full, |stack| - 1, component);
        stack := stack[..|stack| - 1];
        onStack := onStack - {w};
        component := component + [w];
        if w == v {
          SamePlace(full, |stack|, height);
          break;
        }
      }
    }

    method Connect(v: TxID, ghost gray: set<TxID>)
      requires Closed(graph) && Consistent() && Going(AdjEdges(graph.edges), View(), gray)
      requires v in graph.nodes && v !in indices
      requires forall x :: x in gray ==> Reach(AdjEdges(graph.edges), x, v)
      modifies this
      ensures Consistent() && Going(AdjEdges(graph.edges), View(), gray)
      ensures v in indices && Returned(AdjEdges(graph.edges), old(View()), View(), v, lowlink[v])
      ensures Kept(old(lowlink), lowlink, old(indices).Keys)
      decreases graph.nodes - indices.Keys, 0
    {
      hide *;
      ghost var edges, a := AdjEdges(graph.edges), View();
      ViewIs();
      GoingParts(edges, a, gray);
      ScanBegins(edges, a, gray, v);
      Enter(v);
      KeptByAdding(old(lowlink), v, old(index), old(indices).Keys);
      ViewIs();
      PushSeen(a, v);
      NeighborsAre(graph, v);
      var neighbors := SortTxIDs(Neighbors(graph.edges, v));
      ghost var links, seen := lowlink, indices.Keys;
      FollowAll(v, neighbors, gray, a);
      KeptTrans(old(lowlink), links, lowlink, old(indices).Keys, seen - {v});
      Finish(v, gray, a, Elems(neighbors));
    }

    lemma ViewIs()
      ensures View() == Pass(indices, index, stack, components)
    {
    }

    /** The scan of `v`'s successors, in id order. */
    method FollowAll(v: TxID, neighbors: seq<TxID>, ghost gray: set<TxID>, ghost a: Pass)
      requires Closed(graph) && Consistent() && v in lowlink && Shape(a) && gray <= Elems(a.stack)
      requires Scan(AdjEdges(graph.edges), a, View(), gray, v, {}, lowlink[v])
      requires Successors(AdjEdges(graph.edges), v, Elems(neighbors)) && Elems(neighbors) <= graph.nodes
      modifies this
      ensures Consistent() && v in lowlink && old(indices).Keys <= indices.Keys
      ensures Scan(AdjEdges(graph.edges), a, View(), gray, v, Elems(neighbors), lowlink[v])
      ensures Kept(old(lowlink), lowlink, old(indices).Keys - {v})
      decreases graph.nodes - indices.Keys, 2
    {
      hide *;
      ghost var edges := AdjEdges(graph.edges);
      EmptyElems<TxID>();
      KeptSame(lowlink, indices.Keys - {v});
      assert neighbors[..0] == [];
      for k := 0 to |neighbors|
        invariant Consistent() && v in lowlink && old(indices).Keys <= indices.Keys
        invariant Scan(edges, a, View(), gray, v, Elems(neighbors[..k]), lowlink[v])
        invariant Kept(old(lowlink), lowlink, old(indices).Keys - {v})
      {
        ElemsGrow(neighbors, k);
        AtIndex(neighbors, k);
        SuccessorIs(edges, v, Elems(neighbors), neighbors[k]);
        ghost var links, seen := lowlink, indices.Keys;
        Follow(v, neighbors[k], gray, a, Elems(neighbors[..k]));
        KeptTrans(old(lowlink), links, lowlink, old(indices).Keys - {v}, seen - {v});
      }
      assert neighbors[..|neighbors|] == neighbors;
    }

    /** One step of the scan of `v`'s successors. */
    method Follow(v: TxID, w: TxID, ghost gray: set<TxID>, ghost a: Pass, ghost done: set<TxID>)
      requires Closed(graph) && Consistent() && v in lowlink && Shape(a) && gray <= Elems(a.stack)
      requires Scan(AdjEdges(graph.edges), a, View(), gray, v, done, lowlink[v])
      requires Edge(v, w) in AdjEdges(graph.edges) && w in graph.nodes
      modifies this
      ensures Consistent() && v in lowlink && old(indices).Keys <= indices.Keys
      ensures Scan(AdjEdges(graph.edges), a, View(), gray, v, done + {w}, lowlink[v])
      ensures Kept(old(lowlink), lowlink, old(indices).Keys - {v})
      decreases graph.nodes - indices.Keys, 1
    {
      hide Going, Scan, Reach, Closed, AdjEdges, Neighbors, Distinct, Elems, Returned, Extends, Push, Shape, Ascending;
      ghost var edges, b := AdjEdges(graph.edges), View();
      ScanNumbers(edges, a, b, gray, v, done, lowlink[v]);
      if w !in indices {
        GraysReach(edges, a, b, gray, v, w);
        Connect(w, gray + {v});
        ReturnedSeen(edges, b, View(), w, lowlink[w]);
        ScanCalls(edges, a, b, View(), gray, v, done, lowlink[v], w, lowlink[w]);
        if lowlink[w] < lowlink[v] {
          lowlink := lowlink[v := lowlink[w]];
        }
      } else {
        ScanMeets(edges, a, b, gray, v, done, lowlink[v], w);
        InElems(stack);
        if w in onStack && indices[w] < lowlink[v] {
          lowlink := lowlink[v := indices[w]];
        }
      }
    }

    /** A vertex whose low link is its own number is the root of a component. */
    method Finish(v: TxID, ghost gray: set<TxID>, ghost a: Pass, ghost done: set<TxID>)
      requires Closed(graph) && Consistent() && v in lowlink
      requires Scan(AdjEdges(graph.edges), a, View(), gray, v, done, lowlink[v])
      requires Successors(AdjEdges(graph.edges), v, done) && Going(AdjEdges(graph.edges), a, gray)
      modifies `stack, `onStack, `components
      ensures Consistent() && Going(AdjEdges(graph.edges), View(), gray)
      ensures v in indices && Returned(AdjEdges(graph.edges), a, View(), v, lowlink[v])
    {
      hide Going, Scan, Reach, Closed, AdjEdges, Neighbors, Distinct, Elems, Returned, Extends, Push;
      ghost var edges, b := AdjEdges(graph.edges), View();
      GoingParts(edges, a, gray);
      ScanNumbers(edges, a, b, gray, v, done, lowlink[v]);
      if lowlink[v] == indices[v] {
        var component := PopTo(v, |a.stack|);
        component := SortTxIDs(component);
        MemberIf(a, b, component, v);
        components := components + [component];
        Pops(edges, a, b, gray, v, done, component);
      } else {
        Stays(edges, a, b, gray, v, done, lowlink[v]);
      }
    }
  }

  lemma PopFacts(full: seq<TxID>, k: nat, component: seq<TxID>)
    requires k < |full| && Distinct(full) && Distinct(component) && Elems(component) == Elems(full[k + 1..])
    ensures Distinct(component + [full[k]]) && Elems(component + [full[k]]) == Elems(full[k..])
    ensures Elems(full[..k]) == Elems(full[..k + 1]) - {full[k]} && full[..k + 1][..k] == full[..k]
  {
    SplitAt(full, k);
    assert full[k] !in Elems(component);
    DistinctSnoc(component, full[k]);
    assert full[k..] == [full[k]] + full[k + 1..];
    ElemsConcat([full[k]], full[k + 1..]);
  }

  /** A partition of the nodes into the strongly connected components, each in id order,
      with edges between components leading back to earlier ones. */
  ghost predicate IsPartition(graph: DependencyGraph, components: seq<seq<TxID>>) {
    && AreComponents(AdjEdges(graph.edges), components)
    && Covers(components, graph.nodes)
    && Backward(AdjEdges(graph.edges), components)
  }

  lemma NothingYet(edges: set<Edge>)
    ensures Going(edges, Pass(map[], 0, [], []), {})
  {
  }

  /** With no call in progress the stack is empty and everything discovered is emitted. */
  lemma AllEmitted(edges: set<Edge>, a: Pass, nodes: set<TxID>)
    requires Going(edges, a, {}) && a.num.Keys == nodes
    ensures AreComponents(edges, a.comps) && Backward(edges, a.comps) && Covers(a.comps, nodes)
  {
    hide AreComponents, Backward, Reach;
    forall y ensures !Anchored(edges, a.num, {}, y) {
    }
  }

  method TarjanSCC(graph: DependencyGraph) returns (components: seq<seq<TxID>>)
    requires Closed(graph)
    ensures IsPartition(graph, components)
  {
    hide Going, Closed, AdjEdges, Distinct, Returned, Kept, AreComponents, Backward, Covers;
    ghost var edges := AdjEdges(graph.edges);
    var search := new Search(graph);
    var nodes := SortedSet(graph.nodes);
    NothingYet(edges);
    for k := 0 to |nodes|
      invariant search.graph == graph && search.Consistent() && Going(edges, search.View(), {})
      invariant Elems(nodes[..k]) <= search.indices.Keys
    {
      AtIndex(nodes, k);
      ElemsGrow(nodes, k);
      if nodes[k] !in search.indices {
        ghost var before := search.View();
        search.Connect(nodes[k], {});
        ReturnedSeen(edges, before, search.View(), nodes[k], search.lowlink[nodes[k]]);
      }
    }
    assert nodes[..|nodes|] == nodes;
    AllEmitted(edges, search.View(), graph.nodes);
    return search.components;
  }
}

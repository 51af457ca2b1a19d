/**
  The rules of the protocol in numbers: which ids are live, how they are classed, which
  edges the graph has and which extensions may come next, from the replicas' logs alone.
 */
module Rules {
  import opened Types
  import opened Collections
  import opened Graphs
  import opened FairOrder
  import opened EvidenceSpec
  import opened EvidenceFacts
  import opened CertificateSpec
  import opened Chain
  import opened Conservation
  import opened Logs
  import opened Fairness

  // ----- From positions

  /** An edge runs from `u` to `v` exactly when both are active, at least n - qH + 1
      replicas position `u` before `v`, and more do so than the other way round, the
      smaller id winning a tie. */
  lemma EdgeRule(p: Params, s: Evidence, u: TxID, v: TxID)
    requires p.Ok() && Valid(p, s)
    ensures var forward := set i | i in s.pos && u in s.pos[i] && v in s.pos[i] && s.pos[i][u] < s.pos[i][v];
      var backward := set i | i in s.pos && u in s.pos[i] && v in s.pos[i] && s.pos[i][v] < s.pos[i][u];
      Edge(u, v) in GraphOf(p, s).edges <==>
        && u != v && u in GraphOf(p, s).nodes && v in GraphOf(p, s).nodes
        && |forward| >= p.n - p.qH + 1
        && (|forward| > |backward| || (|forward| == |backward| && u < v))
  {
    hide *;
    WeightIs(p, s, Edge(u, v));
    WeightIs(p, s, Edge(v, u));
    BackersAre(s.pos, u, v);
    BackersAre(s.pos, v, u);
    EdgeByWeight(p, s, u, v);
  }

  lemma EdgeByWeight(p: Params, s: Evidence, u: TxID, v: TxID)
    ensures var forward, backward := Count(s.weights, Edge(u, v)), Count(s.weights, Edge(v, u));
      Edge(u, v) in GraphOf(p, s).edges <==>
        && u != v && u in GraphOf(p, s).nodes && v in GraphOf(p, s).nodes
        && forward >= p.n - p.qH + 1
        && (forward > backward || (forward == backward && u < v))
  {
    hide Active;
  }

  lemma BackersAre(pos: Positions, u: TxID, v: TxID)
    ensures Backers(pos, Edge(u, v)) == set i | i in pos && u in pos[i] && v in pos[i] && pos[i][u] < pos[i][v]
    ensures Backers(pos, Edge(u, v)) == set i | i in pos && v in pos[i] && u in pos[i] && pos[i][u] < pos[i][v]
  {
  }

  /** Solid when at least n - 2f replicas have seen it, Shaded when at least n - qH + 1 but
      fewer have, and Blank otherwise. */
  ghost predicate ClassedBy(p: Params, st: TxState, seen: nat) {
    && (st == Solid <==> seen >= p.n - 2 * p.f)
    && (st == Shaded <==> p.n - p.qH + 1 <= seen < p.n - 2 * p.f)
    && (st == Blank <==> seen < p.n - p.qH + 1)
  }

  /** A live id is classed by the number of replicas that position it. */
  lemma ClassRule(p: Params, s: Evidence, u: TxID)
    requires p.Ok() && Valid(p, s) && u in s.live
    ensures ClassedBy(p, StateOf(s, u), |set i | i in s.pos && u in s.pos[i]|)
    ensures u in GraphOf(p, s).solid <==> StateOf(s, u) == Solid
    ensures u in GraphOf(p, s).nodes <==> StateOf(s, u) != Blank
  {
    hide *;
    ViewersAre(s.pos, u);
    ClassIs(p, s, u);
    ClassifyIs(p, |Viewers(s.pos, u)|);
  }

  lemma ViewersAre(pos: Positions, u: TxID)
    ensures Viewers(pos, u) == set i | i in pos && u in pos[i]
  {
  }

  lemma ClassIs(p: Params, s: Evidence, u: TxID)
    requires Valid(p, s) && u in s.live
    ensures StateOf(s, u) == Classify(p, |Viewers(s.pos, u)|)
    ensures u in GraphOf(p, s).solid <==> StateOf(s, u) == Solid
    ensures u in GraphOf(p, s).nodes <==> StateOf(s, u) != Blank
  {
    hide Sound, Counted, Viewers, Classify;
  }

  lemma ClassifyIs(p: Params, seen: nat)
    requires p.Ok()
    ensures ClassedBy(p, Classify(p, seen), seen)
  {
  }

  lemma LiveRule(p: Params, s: Evidence, u: TxID)
    requires Valid(p, s)
    ensures u in s.live <==> exists i :: i in s.pos && u in s.pos[i]
    ensures u in s.live ==> u !in s.done
    ensures u in GraphOf(p, s).nodes ==> u in s.live
  {
  }

  // ----- From logs

  ghost function Seen(n: nat, logs: Replica -> seq<TxID>, u: TxID): set<Replica> {
    set i | i in Replicas(n) && u in logs(i)
  }

  ghost function Ahead(n: nat, logs: Replica -> seq<TxID>, u: TxID, v: TxID): set<Replica> {
    set i | i in Replicas(n) && Before(logs(i), u, v)
  }

  ghost predicate FromLogs(p: Params, s: Evidence, logs: Replica -> seq<TxID>) {
    Valid(p, s) && forall i :: i in Replicas(p.n) ==> LogAgrees(s, i, logs(i))
  }

  /** The graph as a count over logs; nothing else goes into it. */
  ghost function LogGraph(p: Params, logs: Replica -> seq<TxID>, done: set<TxID>): ActiveGraph {
    var nodes := set i, u | i in Replicas(p.n) && u in logs(i) && u !in done
                            && |Seen(p.n, logs, u)| >= p.n - p.qH + 1 :: u;
    ActiveGraph(nodes,
                (set u, v | u in nodes && v in nodes && LogEdge(p, logs, u, v) :: Edge(u, v)),
                (set u | u in nodes && |Seen(p.n, logs, u)| >= p.n - 2 * p.f))
  }

  ghost predicate LogEdge(p: Params, logs: Replica -> seq<TxID>, u: TxID, v: TxID) {
    var forward, backward := |Ahead(p.n, logs, u, v)|, |Ahead(p.n, logs, v, u)|;
    u != v && forward >= p.n - p.qH + 1 && (forward > backward || (forward == backward && u < v))
  }

  lemma PlaceInLog(done: map<TxID, DoneRecord>, pos: map<TxID, nat>, log: seq<TxID>, u: TxID)
    requires Places(done, pos, log) && u !in done
    ensures u in pos <==> u in log
    ensures u in pos ==> 1 <= pos[u] <= |log| && log[pos[u] - 1] == u
    ensures forall k :: 0 <= k < |log| && log[k] == u ==> u in pos && pos[u] == k + 1
  {
  }

  lemma OrderInLog(done: map<TxID, DoneRecord>, pos: map<TxID, nat>, log: seq<TxID>, u: TxID, v: TxID)
    requires Places(done, pos, log) && u !in done && v !in done
    ensures Precedes(pos, Edge(u, v)) <==> Before(log, u, v)
  {
    PlaceInLog(done, pos, log, u);
    PlaceInLog(done, pos, log, v);
    hide Places;
    if Precedes(pos, Edge(u, v)) {
      assert log[pos[u] - 1] == u && log[pos[v] - 1] == v;
    }
  }

  lemma CountsFromLogs(p: Params, s: Evidence, logs: Replica -> seq<TxID>, u: TxID, v: TxID)
    requires FromLogs(p, s, logs) && u !in s.done && v !in s.done
    ensures Viewers(s.pos, u) == Seen(p.n, logs, u)
    ensures Backers(s.pos, Edge(u, v)) == Ahead(p.n, logs, u, v)
  {
    hide *;
    EachLog(p, s, logs);
    forall i | i in Replicas(p.n)
      ensures u in s.pos[i] <==> u in logs(i)
      ensures Precedes(s.pos[i], Edge(u, v)) <==> Before(logs(i), u, v)
    {
      PlaceInLog(s.done, s.pos[i], logs(i), u);
      OrderInLog(s.done, s.pos[i], logs(i), u, v);
    }
    SameViewers(p.n, s.pos, logs, u);
    SameBackers(p.n, s.pos, logs, u, v);
  }

  lemma EachLog(p: Params, s: Evidence, logs: Replica -> seq<TxID>)
    requires FromLogs(p, s, logs)
    ensures s.pos.Keys == Replicas(p.n)
    ensures forall i :: i in Replicas(p.n) ==> Places(s.done, s.pos[i], logs(i))
  {
    hide Places, Counted, Classified, Positioned, AllLogs, Count;
  }

  lemma SameViewers(n: nat, pos: Positions, logs: Replica -> seq<TxID>, u: TxID)
    requires pos.Keys == Replicas(n)
    requires forall i :: i in Replicas(n) ==> (u in pos[i] <==> u in logs(i))
    ensures Viewers(pos, u) == Seen(n, logs, u)
  {
  }

  lemma SameBackers(n: nat, pos: Positions, logs: Replica -> seq<TxID>, u: TxID, v: TxID)
    requires pos.Keys == Replicas(n)
    requires forall i :: i in Replicas(n) ==> (Precedes(pos[i], Edge(u, v)) <==> Before(logs(i), u, v))
    ensures Backers(pos, Edge(u, v)) == Ahead(n, logs, u, v)
  {
    hide Precedes, Before;
  }

  lemma NodesFromLogs(p: Params, s: Evidence, logs: Replica -> seq<TxID>, u: TxID)
    requires p.Ok() && FromLogs(p, s, logs)
    ensures u in GraphOf(p, s).nodes <==> u in LogGraph(p, logs, s.done.Keys).nodes
    ensures u in GraphOf(p, s).solid <==> u in LogGraph(p, logs, s.done.Keys).solid
    ensures u in GraphOf(p, s).nodes ==> u !in s.done
  {
    hide *;
    FromLogsValid(p, s, logs);
    LiveRule(p, s, u);
    SolidLive(p, s, u);
    LogNode(p, logs, s.done.Keys, u);
    ThresholdFacts(p);
    if u !in s.done {
      CountsFromLogs(p, s, logs, u, u);
      ViewersAre(s.pos, u);
      SomeoneSaw(s.pos, u);
      if u in s.live {
        ClassRule(p, s, u);
        ClassedIs(p, StateOf(s, u), |Seen(p.n, logs, u)|);
      }
    }
  }

  lemma FromLogsValid(p: Params, s: Evidence, logs: Replica -> seq<TxID>)
    requires FromLogs(p, s, logs)
    ensures Valid(p, s)
  {
  }

  lemma SolidLive(p: Params, s: Evidence, u: TxID)
    ensures u in GraphOf(p, s).solid ==> u in GraphOf(p, s).nodes
  {
  }

  lemma SomeoneSaw(pos: Positions, u: TxID)
    ensures |Viewers(pos, u)| > 0 <==> exists i :: i in pos && u in pos[i]
  {
    if i :| i in pos && u in pos[i] {
      assert i in Viewers(pos, u);
    }
  }

  lemma ClassedIs(p: Params, st: TxState, seen: nat)
    requires ClassedBy(p, st, seen) && p.Ok()
    ensures st == Solid <==> seen >= p.n - 2 * p.f
    ensures st != Blank <==> seen >= p.n - p.qH + 1
    ensures p.n - p.qH + 1 > 0 && p.n - p.qH + 1 <= p.n - 2 * p.f
  {
  }

  lemma LogNode(p: Params, logs: Replica -> seq<TxID>, done: set<TxID>, u: TxID)
    requires p.Ok()
    ensures u in LogGraph(p, logs, done).nodes <==> u !in done && |Seen(p.n, logs, u)| >= p.n - p.qH + 1
    ensures u in LogGraph(p, logs, done).solid <==> u !in done && |Seen(p.n, logs, u)| >= p.n - 2 * p.f
  {
    var seen := Seen(p.n, logs, u);
    if |seen| >= p.n - p.qH + 1 {
      assert seen != {};
      var i :| i in seen;
    }
  }

  lemma EdgesFromLogs(p: Params, s: Evidence, logs: Replica -> seq<TxID>, u: TxID, v: TxID)
    requires p.Ok() && FromLogs(p, s, logs) && u !in s.done && v !in s.done
    ensures Edge(u, v) in GraphOf(p, s).edges
       <==> u in GraphOf(p, s).nodes && v in GraphOf(p, s).nodes && LogEdge(p, logs, u, v)
  {
    hide *;
    FromLogsValid(p, s, logs);
    WeightIs(p, s, Edge(u, v));
    WeightIs(p, s, Edge(v, u));
    EdgeByWeight(p, s, u, v);
    CountsFromLogs(p, s, logs, u, v);
    CountsFromLogs(p, s, logs, v, u);
    LogEdgeIs(p, logs, u, v);
  }

  lemma LogEdgeIs(p: Params, logs: Replica -> seq<TxID>, u: TxID, v: TxID)
    ensures LogEdge(p, logs, u, v) <==>
      var forward, backward := |Ahead(p.n, logs, u, v)|, |Ahead(p.n, logs, v, u)|;
      u != v && forward >= p.n - p.qH + 1 && (forward > backward || (forward == backward && u < v))
  {
    hide Ahead;
  }

  /** The graph of a state is the count over the logs that the state agrees with. */
  lemma GraphFromLogs(p: Params, s: Evidence, logs: Replica -> seq<TxID>)
    requires p.Ok() && FromLogs(p, s, logs)
    ensures GraphOf(p, s) == LogGraph(p, logs, s.done.Keys)
  {
    hide *;
    var g, l := GraphOf(p, s), LogGraph(p, logs, s.done.Keys);
    forall u
      ensures (u in g.nodes <==> u in l.nodes) && (u in g.solid <==> u in l.solid) && (u in g.nodes ==> u !in s.done)
    {
      NodesFromLogs(p, s, logs, u);
    }
    EdgeEnds(p, s);
    LogEdgesAre(p, logs, s.done.Keys);
    forall e ensures e in g.edges <==> e in l.edges {
      if e.src in g.nodes && e.dst in g.nodes {
        EdgesFromLogs(p, s, logs, e.src, e.dst);
        assert e == Edge(e.src, e.dst);
      }
    }
    assert g.nodes == l.nodes && g.solid == l.solid && g.edges == l.edges;
  }

  lemma EdgeEnds(p: Params, s: Evidence)
    ensures forall e :: e in GraphOf(p, s).edges ==> e.src in GraphOf(p, s).nodes && e.dst in GraphOf(p, s).nodes
  {
  }

  lemma LogEdgesAre(p: Params, logs: Replica -> seq<TxID>, done: set<TxID>)
    ensures var l := LogGraph(p, logs, done);
      forall e :: e in l.edges <==> e.src in l.nodes && e.dst in l.nodes && LogEdge(p, logs, e.src, e.dst)
  {
    hide LogEdge, Seen;
  }

  // ----- Over runs

  ghost function LogsOf(h: seq<Fragment>): Replica -> seq<TxID> {
    i => AdmittedLog(h, i)
  }

  lemma RunFromLogs(c: Context, h: seq<Fragment>)
    requires c.cfg.params.Ok() && Run(c, h)
    ensures FromLogs(c.cfg.params, StateAfter(c, h), LogsOf(h))
  {
    hide Valid, Run, StateAfter, LogAgrees, AdmittedLog;
    RunValid(c, h);
    forall i | i in Replicas(c.cfg.params.n) ensures LogAgrees(StateAfter(c, h), i, LogsOf(h)(i)) {
      RunLogAgrees(c, h, i);
    }
  }

  lemma NextFromLogs(c: Context, h: seq<Fragment>, f: Fragment)
    requires c.cfg.params.Ok() && Run(c, h) && Acceptable(c, StateAfter(c, h), LatestAfter(c, h), f)
    ensures FromLogs(c.cfg.params, Pre(c, StateAfter(c, h), f), LogsOf(h + [f]))
    ensures Pre(c, StateAfter(c, h), f).done == StateAfter(c, h).done
  {
    hide Valid, Run, StateAfter, LatestAfter, LogAgrees, Acceptable, AdmittedLog, Pre, ChunkOf;
    var s := StateAfter(c, h);
    RunValid(c, h);
    PreValid(c, s, LatestAfter(c, h), f);
    PreDone(c, s, f);
    forall i | i in Replicas(c.cfg.params.n) ensures LogAgrees(Pre(c, s, f), i, LogsOf(h + [f])(i)) {
      RunLogAgrees(c, h, i);
      IngestAgrees(c, s, LatestAfter(c, h), f, i, AdmittedLog(h, i));
      LogGrows(h, f, i);
    }
  }

  lemma LogGrows(h: seq<Fragment>, f: Fragment, i: Replica)
    ensures AdmittedLog(h + [f], i) == AdmittedLog(h, i) + ChunkOf(f.evidence, i)
  {
    assert (h + [f])[..|h|] == h;
  }

  /** After every run: each class and each edge, by counting the admitted logs. */
  lemma RunRules(c: Context, h: seq<Fragment>)
    requires c.cfg.params.Ok() && Run(c, h)
    ensures var p, s := c.cfg.params, StateAfter(c, h);
      && GraphOf(p, s) == LogGraph(p, LogsOf(h), s.done.Keys)
      && forall u :: u in s.live ==>
           ClassedBy(p, StateOf(s, u), |Seen(p.n, LogsOf(h), u)|)
  {
    hide *;
    RunFromLogs(c, h);
    GraphFromLogs(c.cfg.params, StateAfter(c, h), LogsOf(h));
    ClassesFromLogs(c.cfg.params, StateAfter(c, h), LogsOf(h));
  }

  lemma ClassesFromLogs(p: Params, s: Evidence, logs: Replica -> seq<TxID>)
    requires p.Ok() && FromLogs(p, s, logs)
    ensures forall u :: u in s.live ==> ClassedBy(p, StateOf(s, u), |Seen(p.n, logs, u)|)
  {
    hide *;
    FromLogsValid(p, s, logs);
    forall u | u in s.live ensures ClassedBy(p, StateOf(s, u), |Seen(p.n, logs, u)|) {
      LiveRule(p, s, u);
      CountsFromLogs(p, s, logs, u, u);
      ViewersAre(s.pos, u);
      ClassRule(p, s, u);
    }
  }

  /** What an accepted fragment releases, and in which order, is decided by the admitted
      logs, its own extensions included, and by what was finalized before. */
  lemma OrderFromLogs(c: Context, h: seq<Fragment>, f: Fragment)
    requires c.cfg.params.Ok() && Run(c, h) && Acceptable(c, StateAfter(c, h), LatestAfter(c, h), f)
    ensures IsFairOrder(LogGraph(c.cfg.params, LogsOf(h + [f]), StateAfter(c, h).done.Keys), TxsOf(BatchesOf(f)))
  {
    hide *;
    NextFromLogs(c, h, f);
    GraphFromLogs(c.cfg.params, Pre(c, StateAfter(c, h), f), LogsOf(h + [f]));
    OutputIsFair(c, StateAfter(c, h), LatestAfter(c, h), f);
  }

  /** A fair order, spelled out: the released ids are the Solid ones with Solid ancestors
      only; each batch lists one class of mutual reachability in ascending order; and if a
      later batch could have stood in the place of an earlier one, that one has the smaller
      first id. */
  lemma FairOrderRule(g: ActiveGraph, batches: seq<seq<TxID>>)
    requires forall i :: 0 <= i < |batches| ==> batches[i] != []
    ensures IsFairOrder(g, batches) <==>
      && (forall u :: InSome(batches, u) <==> Releasable(g, u))
      && (forall i, j, k :: 0 <= i < |batches| && 0 <= j < k < |batches[i]| ==> batches[i][j] < batches[i][k])
      && (forall i, k, u :: 0 <= i < k < |batches| && u in batches[i] ==> u !in batches[k])
      && (forall i, u, v :: 0 <= i < |batches| && u in batches[i] ==>
           (v in batches[i] <==> Reach(g.edges, u, v) && Reach(g.edges, v, u)))
      && (forall i :: 0 <= i < |batches| ==> Follows(g, batches, i, i))
      && (forall i, k :: 0 <= i < k < |batches| && Follows(g, batches, k, i) ==> batches[i][0] < batches[k][0])
  {
    hide *;
    FairParts(g, batches);
    ComponentsIff(g.edges, batches);
    CoversIff(g, batches);
    MinFirstIff(g, batches);
  }

  ghost predicate InSome(batches: seq<seq<TxID>>, u: TxID) {
    exists i :: 0 <= i < |batches| && u in batches[i]
  }

  /** Solid, and so is every id that reaches it. */
  ghost predicate Releasable(g: ActiveGraph, u: TxID) {
    u in g.solid && forall a :: Reach(g.edges, a, u) ==> a in g.solid
  }

  /** Every edge into batch `k` comes from that batch or from one of the first `i`. */
  ghost predicate Follows(g: ActiveGraph, batches: seq<seq<TxID>>, k: nat, i: nat)
    requires k < |batches| && i <= |batches|
  {
    forall u, v :: Edge(u, v) in g.edges && v in batches[k] && u !in batches[k] ==>
      exists j :: 0 <= j < i && u in batches[j]
  }

  lemma FairParts(g: ActiveGraph, batches: seq<seq<TxID>>)
    requires forall i :: 0 <= i < |batches| ==> batches[i] != []
    ensures IsFairOrder(g, batches) <==>
      AreComponents(g.edges, batches) && Covers(batches, SafeClosure(g)) && MinFirst(g.edges, batches)
  {
    hide AreComponents, Covers, SafeClosure, MinFirst;
  }

  lemma ComponentsIff(edges: set<Edge>, batches: seq<seq<TxID>>)
    requires forall i :: 0 <= i < |batches| ==> batches[i] != []
    ensures AreComponents(edges, batches) <==>
      && (forall i, j, k :: 0 <= i < |batches| && 0 <= j < k < |batches[i]| ==> batches[i][j] < batches[i][k])
      && (forall i, k, u :: 0 <= i < k < |batches| && u in batches[i] ==> u !in batches[k])
      && (forall i, u, v :: 0 <= i < |batches| && u in batches[i] ==>
           (v in batches[i] <==> Reach(edges, u, v) && Reach(edges, v, u)))
  {
    AscendingIff(batches);
    DisjointIff(batches);
    ClassesIff(edges, batches);
    hide Ascending, Reach, Disjoint, Mutual;
  }

  lemma ClassesIff(edges: set<Edge>, batches: seq<seq<TxID>>)
    ensures (forall i, u, v :: 0 <= i < |batches| && u in batches[i] ==> (v in batches[i] <==> Mutual(edges, u, v)))
       <==> forall i, u, v :: 0 <= i < |batches| && u in batches[i] ==>
              (v in batches[i] <==> Reach(edges, u, v) && Reach(edges, v, u))
  {
    hide Reach;
    if forall i, u, v :: 0 <= i < |batches| && u in batches[i] ==> (v in batches[i] <==> Mutual(edges, u, v)) {
      forall i, u, v | 0 <= i < |batches| && u in batches[i]
        ensures v in batches[i] <==> Reach(edges, u, v) && Reach(edges, v, u)
      {
        assert v in batches[i] <==> Mutual(edges, u, v);
      }
    } else {
      var i, u, v :| 0 <= i < |batches| && u in batches[i] && (v in batches[i] <==> !Mutual(edges, u, v));
      assert v in batches[i] <==> !(Reach(edges, u, v) && Reach(edges, v, u));
    }
  }

  lemma DisjointIff(batches: seq<seq<TxID>>)
    ensures Disjoint(batches) <==> forall i, k, u :: 0 <= i < k < |batches| && u in batches[i] ==> u !in batches[k]
  {
  }

  lemma AscendingIff(batches: seq<seq<TxID>>)
    ensures (forall i :: 0 <= i < |batches| ==> Ascending(batches[i])) <==>
      forall i, j, k :: 0 <= i < |batches| && 0 <= j < k < |batches[i]| ==> batches[i][j] < batches[i][k]
  {
  }

  lemma CoversIff(g: ActiveGraph, batches: seq<seq<TxID>>)
    ensures Covers(batches, SafeClosure(g)) <==> forall u :: InSome(batches, u) <==> Releasable(g, u)
  {
    hide *;
    CoversIs(batches, SafeClosure(g));
    forall u
      ensures u in Upto(batches, |batches|) <==> InSome(batches, u)
      ensures u in SafeClosure(g) <==> Releasable(g, u)
    {
      InUpto(batches, u);
      InClosure(g, u);
    }
  }

  lemma InUpto(batches: seq<seq<TxID>>, u: TxID)
    ensures u in Upto(batches, |batches|) <==> InSome(batches, u)
  {
  }

  lemma InClosure(g: ActiveGraph, u: TxID)
    ensures u in SafeClosure(g) <==> Releasable(g, u)
  {
    hide Reach;
  }

  lemma CoversIs(batches: seq<seq<TxID>>, s: set<TxID>)
    ensures Covers(batches, s) <==> forall u :: u in Upto(batches, |batches|) <==> u in s
  {
    hide Upto;
  }

  lemma MinFirstIff(g: ActiveGraph, batches: seq<seq<TxID>>)
    requires forall i :: 0 <= i < |batches| ==> batches[i] != []
    ensures MinFirst(g.edges, batches) <==>
      && (forall i :: 0 <= i < |batches| ==> Follows(g, batches, i, i))
      && (forall i, k :: 0 <= i < k < |batches| && Follows(g, batches, k, i) ==> batches[i][0] < batches[k][0])
  {
    ReadyIff(g, batches);
    hide Ready, Upto, Follows;
  }

  lemma ReadyIff(g: ActiveGraph, batches: seq<seq<TxID>>)
    ensures forall k, i :: 0 <= k < |batches| && 0 <= i <= |batches| ==>
      (Ready(g.edges, batches[k], Upto(batches, i)) <==> Follows(g, batches, k, i))
  {
    forall k, i | 0 <= k < |batches| && 0 <= i <= |batches|
      ensures Ready(g.edges, batches[k], Upto(batches, i)) <==> Follows(g, batches, k, i)
    {
      if Follows(g, batches, k, i) {
        forall e | e in g.edges && e.dst in batches[k] && e.src !in batches[k] ensures e.src in Upto(batches, i) {
          assert e == Edge(e.src, e.dst);
        }
      }
    }
  }

  // ----- Which evidence may come next

  /** The one extension a replica may add to its log in the next fragment of a run. */
  ghost predicate OrderRule(c: Context, h: seq<Fragment>, o: LocalOrder) {
    var i, log := o.replica, AdmittedLog(h, o.replica);
    && i < c.cfg.params.n && o.epoch == c.epoch && o.fragmentSeq == |h| + 1
    && |o.txs| <= c.cfg.params.maxOrderSize
    && o.prevPosition == |log| && o.newPosition == |log| + |o.txs|
    && o.prevHead == ChainHead(ChunksOf(h, i))
    && o.newHead == (if o.txs == [] then o.prevHead else LogHead(o.prevHead, |log|, |log| + |o.txs|, o.txs))
    && c.cfg.auth.verifyReplica(i, OrderHash(o.(signature := 0)), o.signature)
    && (forall j, k :: 0 <= j < k < |o.txs| ==> o.txs[j] != o.txs[k])
    && (forall id :: id in o.txs ==> id in StateAfter(c, h).done || id !in log)
  }

  /** After a run, exactly those batches are accepted (content aside) that hold n - f such
      extensions, of replicas in strictly increasing order. */
  lemma AcceptsRule(c: Context, h: seq<Fragment>, orders: seq<LocalOrder>)
    requires c.cfg.params.Ok() && Run(c, h)
    ensures Accepts(c.cfg, StateAfter(c, h), orders, c.epoch, |h| + 1) <==>
      && |orders| == c.cfg.params.n - c.cfg.params.f
      && (forall j, k :: 0 <= j < k < |orders| ==> orders[j].replica < orders[k].replica)
      && (forall j :: 0 <= j < |orders| ==> OrderRule(c, h, orders[j]))
  {
    hide *;
    RunValid(c, h);
    forall o ensures AcceptsOrder(c.cfg, StateAfter(c, h), o, c.epoch, |h| + 1) <==> OrderRule(c, h, o) {
      OrderIs(c, h, o);
    }
    BatchIs(c.cfg, StateAfter(c, h), orders, c.epoch);
  }

  lemma BatchIs(cfg: Config, s: Evidence, orders: seq<LocalOrder>, epoch: nat)
    ensures Accepts(cfg, s, orders, epoch, s.fragmentSeq + 1) <==>
      && |orders| == cfg.params.n - cfg.params.f
      && (forall j, k :: 0 <= j < k < |orders| ==> orders[j].replica < orders[k].replica)
      && (forall j :: 0 <= j < |orders| ==> AcceptsOrder(cfg, s, orders[j], epoch, s.fragmentSeq + 1))
  {
    hide AcceptsOrder;
  }

  lemma OrderIs(c: Context, h: seq<Fragment>, o: LocalOrder)
    requires c.cfg.params.Ok() && Run(c, h)
    ensures AcceptsOrder(c.cfg, StateAfter(c, h), o, c.epoch, |h| + 1) <==> OrderRule(c, h, o)
  {
    hide *;
    var s, i, log := StateAfter(c, h), o.replica, AdmittedLog(h, o.replica);
    HeadIsChain(c, h, i);
    RunLogAgrees(c, h, i);
    RunValid(c, h);
    DistinctMeans(o.txs);
    AgreesIs(s, i, log);
    forall id ensures AcceptsId(s, i, id) <==> id in s.done || id !in log {
      SelfReferring(c.cfg.params, s, id);
      AcceptsIdIs(s, i, log, id);
    }
    OrderExpanded(c, h, o, s, log);
  }

  lemma AgreesIs(s: Evidence, i: Replica, log: seq<TxID>)
    requires LogAgrees(s, i, log)
    ensures Count(s.logSeq, i) == |log| && Places(s.done, PosOf(s, i), log)
  {
  }

  lemma AcceptsIdIs(s: Evidence, i: Replica, log: seq<TxID>, id: TxID)
    requires Places(s.done, PosOf(s, i), log) && (id in s.txRef ==> s.txRef[id] == id)
    ensures AcceptsId(s, i, id) <==> id in s.done || id !in log
  {
    if id !in s.done {
      PlaceInLog(s.done, PosOf(s, i), log, id);
    }
  }

  lemma OrderExpanded(c: Context, h: seq<Fragment>, o: LocalOrder, s: Evidence, log: seq<TxID>)
    requires s == StateAfter(c, h) && log == AdmittedLog(h, o.replica) && Count(s.logSeq, o.replica) == |log|
    requires HeadOf(s, o.replica) == ChainHead(ChunksOf(h, o.replica))
    requires forall id :: AcceptsId(s, o.replica, id) <==> id in s.done || id !in log
    requires Distinct(o.txs) <==> forall j, k :: 0 <= j < k < |o.txs| ==> o.txs[j] != o.txs[k]
    ensures AcceptsOrder(c.cfg, s, o, c.epoch, |h| + 1) <==> OrderRule(c, h, o)
  {
    hide StateAfter, AdmittedLog, ChainHead, ChunksOf, HeadOf, Count, AcceptsId, Distinct;
  }

  lemma SelfReferring(p: Params, s: Evidence, id: TxID)
    requires Valid(p, s)
    ensures id in s.txRef ==> s.txRef[id] == id
  {
  }

  lemma DistinctMeans(ids: seq<TxID>)
    ensures Distinct(ids) <==> forall j, k :: 0 <= j < k < |ids| ==> ids[j] != ids[k]
  {
    if Distinct(ids) {
      forall j, k | 0 <= j < k < |ids| ensures ids[j] != ids[k] {
        DistinctAt(ids, j, k);
      }
    }
    if forall j, k :: 0 <= j < k < |ids| ==> ids[j] != ids[k] {
      DistinctIf(ids);
    }
  }

  /** Content is at hand exactly when some valid bytes with the id's hash are stored under it. */
  lemma AdmittedRule(a: Admission, id: TxID)
    ensures Admitted(a, id) <==>
      exists bytes ::
        && a.transactionID(bytes) == id && a.validate(bytes)
        && id in a.content && a.content[id] == Resolved(bytes, id)
  {
    if Admitted(a, id) {
      assert a.content[id] == Resolved(a.content[id].bytes, id);
    }
  }

  // ----- What a fragment and a done record say

  /** How many batches a run has released. */
  ghost function BatchCount(h: seq<Fragment>): nat {
    if h == [] then 0 else BatchCount(h[..|h| - 1]) + |BatchesOf(h[|h| - 1])|
  }

  lemma {:induction false} CounterIs(c: Context, h: seq<Fragment>)
    requires c.cfg.params.Ok() && Run(c, h)
    ensures StateAfter(c, h).batchCounter == BatchCount(h)
  {
    hide *;
    RunParts(c, h);
    if h == [] {
      GenesisCounter(c);
    } else {
      var before, f := h[..|h| - 1], h[|h| - 1];
      CounterIs(c, before);
      PreDone(c, StateAfter(c, before), f);
      PostFields(c, StateAfter(c, before), f);
      OutputIsFair(c, StateAfter(c, before), LatestAfter(c, before), f);
      ShapeIs(GraphOf(c.cfg.params, Pre(c, StateAfter(c, before), f)), BatchCount(before), f);
    }
    CountedBatches(h);
  }

  lemma GenesisCounter(c: Context)
    ensures Genesis(c.epoch, c.cfg.params.n, c.genesisState).batchCounter == 0
  {
  }

  lemma CountedBatches(h: seq<Fragment>)
    ensures BatchCount(h) == if h == [] then 0 else BatchCount(h[..|h| - 1]) + |BatchesOf(h[|h| - 1])|
  {
  }

  lemma ShapeIs(g: ActiveGraph, counter: nat, f: Fragment)
    requires f.certificate.Some? && CertOk(g, counter, BatchesOf(f), f.certificate.value)
    ensures |PartOf(f)| == |BatchesOf(f)|
    ensures forall j :: 0 <= j < |BatchesOf(f)| ==> Shaped(BatchesOf(f)[j], PartOf(f)[j], counter + j + 1, j)
    ensures BatchesOf(f) != [] ==> BatchesOf(f)[|BatchesOf(f)| - 1].index == counter + |BatchesOf(f)|
  {
    hide ForestOk, MinFirst, TreeOk, Ascending;
    forall j | 0 <= j < |BatchesOf(f)| ensures Shaped(BatchesOf(f)[j], PartOf(f)[j], counter + j + 1, j) {
      AscendingMeans(BatchesOf(f)[j].txs);
    }
  }

  /** A batch and its claim: ids in ascending order, none missing, and trees of one edge less. */
  ghost predicate Shaped(batch: FairnessBatch, claim: SCCClaim, index: nat, rank: nat) {
    && batch.index == index && claim.rank == rank && claim.txs == batch.txs && batch.txs != []
    && (forall i, k :: 0 <= i < k < |batch.txs| ==> batch.txs[i] < batch.txs[k])
    && |claim.inTree| == |batch.txs| - 1 && |claim.outTree| == |batch.txs| - 1
  }

  lemma AscendingMeans(ids: seq<TxID>)
    requires Ascending(ids)
    ensures forall i, k :: 0 <= i < k < |ids| ==> ids[i] < ids[k]
  {
  }

  /** Batches are numbered from 1 through all fragments of a run; the claims of a fragment
      are ranked from 0 and list its batches one by one. */
  lemma FragmentShape(c: Context, h: seq<Fragment>, k: nat)
    requires c.cfg.params.Ok() && Run(c, h) && k < |h|
    ensures h[k].finalOrder.Some? && h[k].certificate.Some? && |PartOf(h[k])| == |BatchesOf(h[k])|
    ensures forall j :: 0 <= j < |BatchesOf(h[k])| ==>
      Shaped(BatchesOf(h[k])[j], PartOf(h[k])[j], BatchCount(h[..k]) + j + 1, j)
  {
    hide *;
    var s := StateAfter(c, h[..k]);
    RunAt(c, h, k);
    CounterIs(c, h[..k]);
    PreDone(c, s, h[k]);
    OutputIsFair(c, s, LatestAfter(c, h[..k]), h[k]);
    ShapeIs(GraphOf(c.cfg.params, Pre(c, s, h[k])), BatchCount(h[..k]), h[k]);
  }

  ghost predicate Filed(done: map<TxID, DoneRecord>, u: TxID, fragmentSeq: nat, index: nat) {
    u in done && done[u] == DoneRecord(fragmentSeq, index)
  }

  ghost predicate InBatch(batches: seq<FairnessBatch>, u: TxID, index: nat) {
    exists j :: 0 <= j < |batches| && u in batches[j].txs && batches[j].index == index
  }

  lemma RecordsAre(fragmentSeq: nat, batches: seq<FairnessBatch>, u: TxID, q: nat, index: nat)
    requires Disjoint(TxsOf(batches))
    ensures Filed(AllRecords(fragmentSeq, batches), u, q, index) <==> q == fragmentSeq && InBatch(batches, u, index)
    ensures u in AllRecords(fragmentSeq, batches) <==> u in Released(batches)
  {
    RecordKeys(fragmentSeq, batches);
    hide AllRecords, Disjoint, TxsOf;
    if u in AllRecords(fragmentSeq, batches) {
      var j :| 0 <= j < |batches| && u in batches[j].txs;
      RecordAt(fragmentSeq, batches, j, u);
    }
    if InBatch(batches, u, index) {
      var j :| 0 <= j < |batches| && u in batches[j].txs && batches[j].index == index;
      RecordAt(fragmentSeq, batches, j, u);
    }
  }

  lemma FiledJoin(done: map<TxID, DoneRecord>, records: map<TxID, DoneRecord>, u: TxID, q: nat, index: nat)
    requires done.Keys !! records.Keys
    ensures Filed(done + records, u, q, index) <==> Filed(done, u, q, index) || Filed(records, u, q, index)
  {
  }

  lemma BatchesApart(g: ActiveGraph, counter: nat, batches: seq<FairnessBatch>, cert: Certificate)
    requires CertOk(g, counter, batches, cert)
    ensures Disjoint(TxsOf(batches))
  {
    hide Disjoint, TxsOf;
  }

  lemma StepFiles(c: Context, s: Evidence, latest: Digest, f: Fragment, u: TxID, q: nat, index: nat)
    requires Valid(c.cfg.params, s) && Acceptable(c, s, latest, f)
    ensures Filed(Post(c, s, f).done, u, q, index) <==>
      Filed(s.done, u, q, index) || (q == s.fragmentSeq + 1 && InBatch(BatchesOf(f), u, index))
  {
    hide *;
    var t, batches := Pre(c, s, f), BatchesOf(f);
    PreValid(c, s, latest, f);
    PreDone(c, s, f);
    ReleasedLive(c, s, latest, f);
    ValidApart(c.cfg.params, t);
    PostFields(c, s, f);
    OutputIsFair(c, s, latest, f);
    BatchesApart(GraphOf(c.cfg.params, t), t.batchCounter, batches, f.certificate.value);
    RecordsAre(t.fragmentSeq, batches, u, q, index);
    FiledJoin(t.done, AllRecords(t.fragmentSeq, batches), u, q, index);
  }

  /** An id is done, as of a fragment and a batch, exactly when that fragment of the run has
      it in that batch. */
  lemma {:induction false} DoneRule(c: Context, h: seq<Fragment>, u: TxID, q: nat, index: nat)
    requires c.cfg.params.Ok() && Run(c, h)
    ensures Filed(StateAfter(c, h).done, u, q, index) <==> 1 <= q <= |h| && InBatch(BatchesOf(h[q - 1]), u, index)
  {
    hide *;
    RunParts(c, h);
    if h == [] {
      GenesisFiles(c, u, q, index);
    } else {
      var before, f := h[..|h| - 1], h[|h| - 1];
      RunValid(c, before);
      DoneRule(c, before, u, q, index);
      StepFiles(c, StateAfter(c, before), LatestAfter(c, before), f, u, q, index);
    }
  }

  lemma GenesisFiles(c: Context, u: TxID, q: nat, index: nat)
    ensures !Filed(Genesis(c.epoch, c.cfg.params.n, c.genesisState).done, u, q, index)
  {
  }
}

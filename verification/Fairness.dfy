/**
  Batch-order fairness over whole runs: if enough replicas received x before y, then y
  is never finalized ahead of x. It rests on the logs (positions are places), on quorum
  counting (2 qH >= n + 2f + 1), on the edge that the counts force, and on the frontier
  and rank checks that make the output respect that edge.
 */
module Fairness {
  import opened Types
  import opened Collections
  import opened Graphs
  import opened FairOrder
  import opened EvidenceSpec
  import opened EvidenceFacts
  import opened CertificateSpec
  import opened GraphCache
  import opened Chain
  import opened Conservation
  import opened Logs

  ghost predicate Before(log: seq<TxID>, x: TxID, y: TxID) {
    exists a, b :: 0 <= a < b < |log| && log[a] == x && log[b] == y
  }

  /** The replica's receipt log is duplicate-free, has `x` before `y`, and what was
      admitted from it is a prefix of it. */
  ghost predicate Vouches(admitted: seq<TxID>, log: seq<TxID>, x: TxID, y: TxID) {
    Distinct(log) && admitted <= log && Before(log, x, y)
  }

  /** Where a vouching replica positions the two ids. */
  lemma VouchedPositions(done: map<TxID, DoneRecord>, pos: map<TxID, nat>, admitted: seq<TxID>, log: seq<TxID>, x: TxID,
                         y: TxID)
    requires Places(done, pos, admitted) && Vouches(admitted, log, x, y)
    ensures y in pos && x !in done ==> Precedes(pos, Edge(x, y))
    ensures !Precedes(pos, Edge(y, x))
  {
    hide Distinct;
    var a, b :| 0 <= a < b < |log| && log[a] == x && log[b] == y;
    if y in pos {
      SamePlace(log, b, pos[y] - 1) by {
        assert admitted[pos[y] - 1] == y;
        assert log[pos[y] - 1] == admitted[pos[y] - 1];
      }
      assert log[a] == admitted[a];
      if x in pos {
        SamePlace(log, a, pos[x] - 1) by {
          assert admitted[pos[x] - 1] == x;
          assert log[pos[x] - 1] == admitted[pos[x] - 1];
        }
      }
    }
  }

  ghost predicate Vouched(s: Evidence, quorum: set<Replica>, x: TxID, y: TxID) {
    forall i :: i in quorum ==>
      && (y in PosOf(s, i) && x !in s.done ==> Precedes(PosOf(s, i), Edge(x, y)))
      && !Precedes(PosOf(s, i), Edge(y, x))
  }

  lemma Overlap<T>(a: set<T>, b: set<T>, all: set<T>)
    requires a <= all && b <= all
    ensures |a * b| >= |a| + |b| - |all|
  {
    assert a + b == (a - b) + b && a == (a - b) + (a * b);
    assert |a + b| == |a - b| + |b| && |a| == |a - b| + |a * b|;
    SubsetCard(a + b, all);
  }

  lemma ForwardCount(s: Evidence, n: nat, quorum: set<Replica>, x: TxID, y: TxID)
    requires s.pos.Keys == Replicas(n) && quorum <= Replicas(n) && Vouched(s, quorum, x, y) && x !in s.done
    ensures |Backers(s.pos, Edge(x, y))| >= |quorum| + |Viewers(s.pos, y)| - n
  {
    var both := quorum * Viewers(s.pos, y);
    Overlap(quorum, Viewers(s.pos, y), Replicas(n));
    forall i | i in both ensures i in Backers(s.pos, Edge(x, y)) {
      assert y in PosOf(s, i);
    }
    SubsetCard(both, Backers(s.pos, Edge(x, y)));
  }

  lemma BackwardCount(s: Evidence, n: nat, quorum: set<Replica>, x: TxID, y: TxID)
    requires s.pos.Keys == Replicas(n) && quorum <= Replicas(n) && Vouched(s, quorum, x, y)
    ensures |Backers(s.pos, Edge(y, x))| <= n - |quorum|
  {
    var others := Replicas(n) - quorum;
    forall i | i in Backers(s.pos, Edge(y, x)) ensures i in others {
      assert PosOf(s, i) == s.pos[i];
    }
    SubsetCard(Backers(s.pos, Edge(y, x)), others);
    assert Replicas(n) == others + quorum;
    assert |others| + |quorum| == n;
  }

  /** The counts force the edge. */
  lemma EdgeForms(p: Params, s: Evidence, quorum: set<Replica>, x: TxID, y: TxID)
    requires p.Ok() && Valid(p, s) && quorum <= Replicas(p.n) && |quorum| >= p.qH
    requires Vouched(s, quorum, x, y) && x !in s.done && y in GraphOf(p, s).solid
    ensures Edge(x, y) in GraphOf(p, s).edges
  {
    hide *;
    ValidCounting(p, s);
    ForwardCount(s, p.n, quorum, x, y);
    BackwardCount(s, p.n, quorum, x, y);
    WeightIs(p, s, Edge(x, y));
    WeightIs(p, s, Edge(y, x));
    SolidSeen(p, s, y);
    CountsForce(p, s, x, y, |quorum|, |Viewers(s.pos, y)|);
    EdgesAreActive(p, s, x, y);
    EdgeIf(p, s, Edge(x, y));
    ForcedApart(p, s, x, y);
  }

  lemma ValidCounting(p: Params, s: Evidence)
    requires Valid(p, s)
    ensures s.pos.Keys == Replicas(p.n)
  {
  }

  lemma WeightIs(p: Params, s: Evidence, e: Edge)
    requires Valid(p, s)
    ensures Count(s.weights, e) == |Backers(s.pos, e)|
  {
    WeightAt(s.pos, e);
  }

  lemma SolidSeen(p: Params, s: Evidence, u: TxID)
    requires p.Ok() && Valid(p, s) && u in GraphOf(p, s).solid
    ensures |Viewers(s.pos, u)| >= p.n - 2 * p.f
  {
    hide Viewers, Counted, AllLogs;
  }

  /** The threshold arithmetic: 2 qH >= n + 2f + 1. */
  lemma CountsForce(p: Params, s: Evidence, x: TxID, y: TxID, q: nat, seen: nat)
    requires p.Ok() && q >= p.qH && seen >= p.n - 2 * p.f
    requires Count(s.weights, Edge(x, y)) >= q + seen - p.n && Count(s.weights, Edge(y, x)) <= p.n - q
    ensures HasEdge(s, p.EdgeThreshold(), x, y)
  {
  }

  lemma ForcedApart(p: Params, s: Evidence, x: TxID, y: TxID)
    requires HasEdge(s, p.EdgeThreshold(), x, y)
    ensures x != y
    ensures EdgePred(x, y, Count(s.weights, Edge(x, y)), Count(s.weights, Edge(y, x)), p.EdgeThreshold())
  {
  }

  /** The output respects every edge of the active graph. */
  lemma OutputRespects(g: ActiveGraph, counter: nat, batches: seq<FairnessBatch>, cert: Certificate, x: TxID, y: TxID)
    returns (i: nat, j: nat)
    requires CertOk(g, counter, batches, cert) && Edge(x, y) in g.edges && y in Released(batches)
    ensures i <= j < |batches| && x in batches[i].txs && y in batches[j].txs
  {
    ReleasedIsIncluded(batches);
    var txs := TxsOf(batches);
    j :| 0 <= j < |batches| && y in batches[j].txs;
    assert y in txs[j];
    assert x in IncludedIn(batches);
    assert Ready(Within(g.edges, IncludedIn(batches)), txs[j], Upto(txs, j));
    if x in txs[j] {
      i := j;
    } else {
      assert Edge(x, y) in Within(g.edges, IncludedIn(batches));
      assert x in Upto(txs, j);
      i :| 0 <= i < j && x in txs[i];
    }
  }

  ghost predicate QuorumVouches(h: seq<Fragment>, logs: Replica -> seq<TxID>, quorum: set<Replica>, x: TxID, y: TxID) {
    forall i :: i in quorum ==> Vouches(AdmittedLog(h, i), logs(i), x, y)
  }

  lemma VouchesEarlier(h: seq<Fragment>, logs: Replica -> seq<TxID>, quorum: set<Replica>, x: TxID, y: TxID)
    requires h != [] && QuorumVouches(h, logs, quorum, x, y)
    ensures QuorumVouches(h[..|h| - 1], logs, quorum, x, y)
  {
    hide Before, Distinct;
    forall i | i in quorum ensures Vouches(AdmittedLog(h[..|h| - 1], i), logs(i), x, y) {
      assert AdmittedLog(h[..|h| - 1], i) <= AdmittedLog(h, i);
    }
  }

  lemma PreVouched(c: Context, h: seq<Fragment>, logs: Replica -> seq<TxID>, quorum: set<Replica>, x: TxID, y: TxID)
    requires c.cfg.params.Ok() && Run(c, h) && h != [] && QuorumVouches(h, logs, quorum, x, y)
    ensures Vouched(Pre(c, StateAfter(c, h[..|h| - 1]), h[|h| - 1]), quorum, x, y)
  {
    hide Valid, Acceptable, Pre, Vouches, Places, Precedes, PosOf, Post;
    var before, f := h[..|h| - 1], h[|h| - 1];
    var s := StateAfter(c, before);
    RunValid(c, before);
    forall i | i in quorum
      ensures y in PosOf(Pre(c, s, f), i) && x !in Pre(c, s, f).done ==> Precedes(PosOf(Pre(c, s, f), i), Edge(x, y))
      ensures !Precedes(PosOf(Pre(c, s, f), i), Edge(y, x))
    {
      RunLogAgrees(c, before, i);
      IngestAgrees(c, s, LatestAfter(c, before), f, i, AdmittedLog(before, i));
      VouchedPositions(Pre(c, s, f).done, PosOf(Pre(c, s, f), i), AdmittedLog(h, i), logs(i), x, y);
    }
  }

  /** Both ids are recorded, `x` under no later batch than `y`. */
  ghost predicate Ordered(done: map<TxID, DoneRecord>, x: TxID, y: TxID) {
    x in done && y in done && done[x].batchIndex <= done[y].batchIndex
  }

  /** One fragment: whatever it releases is preceded by what a quorum saw before it. */
  lemma StepFair(c: Context, s: Evidence, latest: Digest, f: Fragment, quorum: set<Replica>, x: TxID, y: TxID)
    requires c.cfg.params.Ok() && Valid(c.cfg.params, s) && Acceptable(c, s, latest, f) && Indexed(s)
    requires quorum <= Replicas(c.cfg.params.n) && |quorum| >= c.cfg.params.qH && Vouched(Pre(c, s, f), quorum, x, y)
    requires y in Post(c, s, f).done && y !in s.done
    ensures Ordered(Post(c, s, f).done, x, y)
  {
    hide *;
    var t, batches := Pre(c, s, f), BatchesOf(f);
    var g := GraphOf(c.cfg.params, t);
    var records := AllRecords(t.fragmentSeq, batches);
    PreValid(c, s, latest, f);
    PreDone(c, s, f);
    PostFields(c, s, f);
    OutputIsFair(c, s, latest, f);
    CertParts(g, t.batchCounter, batches, f.certificate.value);
    BatchesRecorded(g, t.batchCounter, batches, t.fragmentSeq);
    RecordLate(records, t.fragmentSeq, t.batchCounter, |batches|, y);
    if x in s.done {
      IndexedAt(s, x);
      StepKeepsDone(c, s, latest, f);
      KeptAt(s.done, Post(c, s, f).done, x);
    } else {
      ReleasedSolid(c, s, latest, f, y);
      EdgeForms(c.cfg.params, t, quorum, x, y);
      var i, j := OutputRespects(g, t.batchCounter, batches, f.certificate.value, x, y);
      BatchesParts(g, t.batchCounter, batches, i);
      BatchesParts(g, t.batchCounter, batches, j);
      RecordAt(t.fragmentSeq, batches, i, x);
      RecordAt(t.fragmentSeq, batches, j, y);
    }
    OrderedIf(Post(c, s, f).done, x, y);
  }

  lemma OrderedIf(done: map<TxID, DoneRecord>, x: TxID, y: TxID)
    requires x in done && y in done && done[x].batchIndex <= done[y].batchIndex
    ensures Ordered(done, x, y)
  {
  }

  lemma RecordLate(records: map<TxID, DoneRecord>, fragmentSeq: nat, counter: nat, m: nat, u: TxID)
    requires Recorded(records, fragmentSeq, counter, m)
    ensures u in records ==> counter < records[u].batchIndex
  {
  }

  lemma IndexedAt(s: Evidence, u: TxID)
    requires Indexed(s) && u in s.done
    ensures s.done[u].batchIndex <= s.batchCounter
  {
  }

  lemma KeptAt(a: map<TxID, DoneRecord>, b: map<TxID, DoneRecord>, u: TxID)
    requires Kept(a, b) && u in a
    ensures u in b && b[u] == a[u]
  {
  }

  lemma BatchesParts(g: ActiveGraph, counter: nat, batches: seq<FairnessBatch>, j: nat)
    requires BatchesOk(g, counter, batches) && j < |batches|
    ensures Disjoint(TxsOf(batches)) && batches[j].index == counter + j + 1
  {
  }

  lemma ReleasedSolid(c: Context, s: Evidence, latest: Digest, f: Fragment, u: TxID)
    requires Acceptable(c, s, latest, f) && u in Released(BatchesOf(f))
    ensures u in GraphOf(c.cfg.params, Pre(c, s, f)).solid
  {
    ReleasesClosure(c, s, latest, f);
    hide Pre, Reach, Acceptable, GraphOf;
  }

  /** Batch-order fairness, for every run, every pair and every such quorum: once `y` is
      finalized, so is `x`, in no later batch. */
  lemma {:induction false} BatchOrderFairness(c: Context, h: seq<Fragment>, logs: Replica -> seq<TxID>,
                                              quorum: set<Replica>, x: TxID, y: TxID)
    requires c.cfg.params.Ok() && Run(c, h)
    requires quorum <= Replicas(c.cfg.params.n) && |quorum| >= c.cfg.params.qH
    requires QuorumVouches(h, logs, quorum, x, y)
    requires y in StateAfter(c, h).done
    ensures Ordered(StateAfter(c, h).done, x, y)
  {
    hide Valid, Acceptable, Post, Indexed, Vouched, QuorumVouches, Kept;
    var before, f := h[..|h| - 1], h[|h| - 1];
    var s := StateAfter(c, before);
    RunValid(c, before);
    if y in s.done {
      VouchesEarlier(h, logs, quorum, x, y);
      BatchOrderFairness(c, before, logs, quorum, x, y);
      StepKeepsDone(c, s, LatestAfter(c, before), f);
      KeptAt(s.done, StateAfter(c, h).done, x);
      KeptAt(s.done, StateAfter(c, h).done, y);
    } else {
      RunIndexed(c, before);
      PreVouched(c, h, logs, quorum, x, y);
      StepFair(c, s, LatestAfter(c, before), f, quorum, x, y);
    }
  }
}

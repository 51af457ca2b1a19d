/**
  Runs: sequences of fragments each of which a replica accepted on the state its
  predecessors left. Everything proved here holds after every such run.
 */
module Chain {
  import opened Types
  import opened Graphs
  import opened FairOrder
  import opened EvidenceSpec
  import opened EvidenceFacts
  import opened PairFacts
  import opened Growth
  import opened CertificateSpec
  import opened Verifier

  /** What the replicas of one epoch agree on beforehand. */
  datatype Context = Context(cfg: Config, epoch: nat, leader: Replica, authContext: Digest, genesisState: Digest,
                             genesisFragment: Digest)

  ghost function Pre(c: Context, s: Evidence, f: Fragment): Evidence {
    Ingest(c.cfg.params, s, f.evidence, f.epoch)
  }

  ghost function Post(c: Context, s: Evidence, f: Fragment): Evidence {
    Finalized(Pre(c, s, f), BatchesOf(f), PartOf(f))
  }

  function BatchesOf(f: Fragment): seq<FairnessBatch> {
    if f.finalOrder.Some? then f.finalOrder.value else []
  }

  function PartOf(f: Fragment): seq<SCCClaim> {
    if f.certificate.Some? then f.certificate.value.part else []
  }

  predicate Extending(c: Context, s: Evidence, latest: Digest, f: Fragment) {
    && f.leader == c.leader && f.epoch == c.epoch && f.authContext == c.authContext
    && f.fragmentSeq == s.fragmentSeq + 1 && f.previousState == s.stateId && f.previousFragment == latest
  }

  /** What makes a fragment acceptable on a committed state, the leader's signature and
      the pending slot aside. */
  ghost predicate Acceptable(c: Context, s: Evidence, latest: Digest, f: Fragment) {
    && Extending(c, s, latest, f)
    && Accepts(c.cfg, s, f.evidence, f.epoch, f.fragmentSeq)
    && f.candidateEvidenceState == Pre(c, s, f).stateId
    && Certifies(c.cfg.params, Pre(c, s, f), f.finalOrder, f.certificate)
    && f.candidatePostState == Post(c, s, f).stateId
  }

  ghost function StateAfter(c: Context, h: seq<Fragment>): Evidence {
    if h == [] then Genesis(c.epoch, c.cfg.params.n, c.genesisState)
    else Post(c, StateAfter(c, h[..|h| - 1]), h[|h| - 1])
  }

  function LatestAfter(c: Context, h: seq<Fragment>): Digest {
    if h == [] then c.genesisFragment else FragmentDigest(h[|h| - 1])
  }

  ghost predicate Run(c: Context, h: seq<Fragment>) {
    h == [] ||
    var before := h[..|h| - 1];
    Run(c, before) && Acceptable(c, StateAfter(c, before), LatestAfter(c, before), h[|h| - 1])
  }

  lemma RunSnoc(c: Context, h: seq<Fragment>, f: Fragment)
    requires Run(c, h) && Acceptable(c, StateAfter(c, h), LatestAfter(c, h), f)
    ensures Run(c, h + [f]) && StateAfter(c, h + [f]) == Post(c, StateAfter(c, h), f)
    ensures LatestAfter(c, h + [f]) == FragmentDigest(f)
  {
    assert (h + [f])[..|h|] == h;
  }

  /** One step back. */
  lemma RunParts(c: Context, h: seq<Fragment>)
    requires Run(c, h)
    ensures h == [] ==>
      StateAfter(c, h) == Genesis(c.epoch, c.cfg.params.n, c.genesisState) && LatestAfter(c, h) == c.genesisFragment
    ensures h != [] ==>
      var before, f := h[..|h| - 1], h[|h| - 1];
      && Run(c, before) && Acceptable(c, StateAfter(c, before), LatestAfter(c, before), f)
      && StateAfter(c, h) == Post(c, StateAfter(c, before), f) && LatestAfter(c, h) == FragmentDigest(f)
  {
    hide Acceptable, Post, FragmentDigest;
  }

  lemma {:induction false} RunPrefix(c: Context, h: seq<Fragment>, k: nat)
    requires Run(c, h) && k <= |h|
    ensures Run(c, h[..k])
    decreases |h|
  {
    hide Acceptable, StateAfter;
    if k < |h| {
      RunPrefix(c, h[..|h| - 1], k);
      assert h[..|h| - 1][..k] == h[..k];
    } else {
      assert h[..k] == h;
    }
  }

  /** The k-th fragment was accepted on the state after the first k. */
  lemma RunAt(c: Context, h: seq<Fragment>, k: nat)
    requires Run(c, h) && k < |h|
    ensures Run(c, h[..k]) && Acceptable(c, StateAfter(c, h[..k]), LatestAfter(c, h[..k]), h[k])
    ensures StateAfter(c, h[..k + 1]) == Post(c, StateAfter(c, h[..k]), h[k])
  {
    hide Acceptable, Post;
    RunPrefix(c, h, k + 1);
    assert h[..k + 1][..k] == h[..k] && h[..k + 1][k] == h[k];
    RunPrefix(c, h, k);
  }

  // ----- Cache correctness

  lemma PreValid(c: Context, s: Evidence, latest: Digest, f: Fragment)
    requires Valid(c.cfg.params, s) && Acceptable(c, s, latest, f)
    ensures Valid(c.cfg.params, Pre(c, s, f)) && Pre(c, s, f).fragmentSeq == s.fragmentSeq + 1
    ensures Advances(s, Pre(c, s, f), FreshUpto(s.done, f.evidence))
  {
    hide Valid, Accepts, Certifies, AdmitAll;
    IngestValid(c.cfg, s, f.evidence, f.epoch);
    IngestAdvances(c.cfg, s, f.evidence, f.epoch);
  }

  lemma PostValid(c: Context, s: Evidence, latest: Digest, f: Fragment)
    requires Valid(c.cfg.params, s) && Acceptable(c, s, latest, f)
    ensures Valid(c.cfg.params, Post(c, s, f)) && Post(c, s, f).fragmentSeq == s.fragmentSeq + 1
  {
    PreValid(c, s, latest, f);
    hide Valid, Acceptable, Ingest;
    FinalizedValid(c.cfg.params, Pre(c, s, f), BatchesOf(f), PartOf(f));
  }

  /** Cache correctness in every reachable state: visibility, weights and classes are
      what the positions say, no live id is done, and the sequence counts the fragments. */
  lemma {:induction false} RunValid(c: Context, h: seq<Fragment>)
    requires c.cfg.params.Ok() && Run(c, h)
    ensures Valid(c.cfg.params, StateAfter(c, h)) && StateAfter(c, h).fragmentSeq == |h|
  {
    hide Valid, Acceptable, Post;
    if h == [] {
      GenesisValid(c.cfg.params, c.epoch, c.genesisState);
    } else {
      var before := h[..|h| - 1];
      RunValid(c, before);
      PostValid(c, StateAfter(c, before), LatestAfter(c, before), h[|h| - 1]);
    }
  }

  // ----- What a fragment outputs

  /** The fair order of the active graph of the state it was accepted on. */
  lemma OutputIsFair(c: Context, s: Evidence, latest: Digest, f: Fragment)
    requires Acceptable(c, s, latest, f)
    ensures f.finalOrder.Some? && f.certificate.Some?
    ensures CertOk(GraphOf(c.cfg.params, Pre(c, s, f)), Pre(c, s, f).batchCounter, BatchesOf(f), f.certificate.value)
    ensures IsFairOrder(GraphOf(c.cfg.params, Pre(c, s, f)), TxsOf(BatchesOf(f)))
  {
    AcceptedIsFair(c.cfg.params, Pre(c, s, f), f.finalOrder, f.certificate);
  }

  lemma ReleasedIsIncluded(batches: seq<FairnessBatch>)
    ensures Released(batches) == IncludedIn(batches)
  {
    forall u | u in Released(batches) ensures u in IncludedIn(batches) {
      var j :| 0 <= j < |batches| && u in batches[j].txs;
      assert u in TxsOf(batches)[j];
    }
    forall u | u in IncludedIn(batches) ensures u in Released(batches) {
      var j :| 0 <= j < |batches| && u in TxsOf(batches)[j];
      assert u in batches[j].txs;
    }
  }

  lemma ReleasesClosure(c: Context, s: Evidence, latest: Digest, f: Fragment)
    requires Acceptable(c, s, latest, f)
    ensures Released(BatchesOf(f)) == SafeClosure(GraphOf(c.cfg.params, Pre(c, s, f)))
  {
    hide Acceptable, CertOk, SafeClosure, GraphOf, Pre;
    OutputIsFair(c, s, latest, f);
    ReleasedIsIncluded(BatchesOf(f));
  }

  /** No leader discretion: two fragments acceptable on one state with the same evidence
      output the same batches, claim the same components and lead to the same state. */
  lemma SameOutput(c: Context, s: Evidence, latest: Digest, f: Fragment, g: Fragment)
    requires Acceptable(c, s, latest, f) && Acceptable(c, s, latest, g) && f.evidence == g.evidence
    ensures f.finalOrder == g.finalOrder && Components(PartOf(f)) == Components(PartOf(g))
    ensures f.candidatePostState == g.candidatePostState && Post(c, s, f) == Post(c, s, g)
  {
    OutputIsFair(c, s, latest, f);
    OutputIsFair(c, s, latest, g);
    assert Pre(c, s, f) == Pre(c, s, g);
    hide IsFairOrder, Certifies, Ingest, Accepts, GraphOf;
    NoLeaderDiscretion(GraphOf(c.cfg.params, Pre(c, s, f)), Pre(c, s, f).batchCounter, BatchesOf(f), BatchesOf(g),
                       f.certificate.value, g.certificate.value);
  }

  // ----- Nothing releasable is left

  lemma SettledGraph(c: Context, s: Evidence, latest: Digest, f: Fragment)
    requires Acceptable(c, s, latest, f)
    ensures SafeClosure(GraphOf(c.cfg.params, Post(c, s, f))) == {}
  {
    var g := GraphOf(c.cfg.params, Pre(c, s, f));
    ReleasesClosure(c, s, latest, f);
    FinalizedGraph(c.cfg.params, Pre(c, s, f), BatchesOf(f), PartOf(f));
    NothingReleasable(g);
    hide SafeClosure, GraphOf, Pre, Without, Released;
  }

  lemma GenesisSettled(p: Params, epoch: nat, stateId: Digest)
    ensures SafeClosure(GraphOf(p, Genesis(epoch, p.n, stateId))) == {}
  {
  }

  /** After every run nothing more could be released without new evidence. */
  lemma RunSettled(c: Context, h: seq<Fragment>)
    requires Run(c, h)
    ensures SafeClosure(GraphOf(c.cfg.params, StateAfter(c, h))) == {}
  {
    hide SafeClosure, GraphOf, Acceptable, Post;
    if h == [] {
      GenesisSettled(c.cfg.params, c.epoch, c.genesisState);
    } else {
      SettledGraph(c, StateAfter(c, h[..|h| - 1]), LatestAfter(c, h[..|h| - 1]), h[|h| - 1]);
    }
  }

  /** Releasing a closure leaves the rest as it was: reachability, hence components, and
      every weight among the remaining ids. */
  lemma RestUntouched(c: Context, s: Evidence, latest: Digest, f: Fragment, u: TxID, v: TxID)
    requires Acceptable(c, s, latest, f) && u !in Released(BatchesOf(f)) && v !in Released(BatchesOf(f))
    ensures Reach(GraphOf(c.cfg.params, Post(c, s, f)).edges, u, v)
       <==> Reach(GraphOf(c.cfg.params, Pre(c, s, f)).edges, u, v)
    ensures Count(Post(c, s, f).weights, Edge(u, v)) == Count(Pre(c, s, f).weights, Edge(u, v))
  {
    var p, t, gone := c.cfg.params, Pre(c, s, f), Released(BatchesOf(f));
    ReleasesClosure(c, s, latest, f);
    FinalizedGraph(p, t, BatchesOf(f), PartOf(f));
    SafeClosurePredClosed(GraphOf(p, t));
    hide Reach, Pre, GraphOf, SafeClosure, Acceptable, Released;
    RemovalKeepsReach(GraphOf(p, t), gone, u, v);
  }

  // ----- Rounds without new identifiers

  ghost predicate NothingNew(orders: seq<LocalOrder>) {
    forall j :: 0 <= j < |orders| ==> orders[j].txs == []
  }

  /** The fields the active graph is read off. */
  ghost predicate SameGraph(s: Evidence, t: Evidence) {
    s.live == t.live && s.pos == t.pos && s.weights == t.weights && s.states == t.states
  }

  lemma AdmitNothing(s: Evidence, o: LocalOrder)
    requires o.txs == [] && o.replica in s.pos && s.live == Positioned(s.pos) && Counted(s)
    ensures SameGraph(s, AdmitOne(s, o))
  {
    hide *;
    NothingPlaced(s.done, s.pos, o);
    AdmitOneFields(s, o);
    CountedWeights(s);
    SameGraphIf(s, AdmitOne(s, o));
  }

  lemma AdmitOneFields(s: Evidence, o: LocalOrder)
    ensures var t, novel := AdmitOne(s, o), FreshIds(s.done, o);
      && t.pos == Extend(s.pos, o.replica, NewPositions(s.done, o)) && t.live == s.live + novel
      && t.weights == WeightsOf(t.live, t.pos) && (novel == {} ==> t.states == s.states)
  {
    hide NewPositions, FreshIds, VisibilityOf, WeightsOf, Extend;
  }

  lemma CountedWeights(s: Evidence)
    requires Counted(s)
    ensures s.weights == WeightsOf(s.live, s.pos)
  {
  }

  lemma SameGraphIf(s: Evidence, t: Evidence)
    requires s.live == t.live && s.pos == t.pos && s.weights == t.weights && s.states == t.states
    ensures SameGraph(s, t)
  {
  }

  lemma NothingPlaced(done: map<TxID, DoneRecord>, pos: Positions, o: LocalOrder)
    requires o.txs == [] && o.replica in pos
    ensures FreshIds(done, o) == {} && Extend(pos, o.replica, NewPositions(done, o)) == pos
  {
    assert NewPositions(done, o) == map[];
    assert pos[o.replica] + map[] == pos[o.replica];
  }

  lemma {:induction false} AdmitAllNothing(c: Context, s: Evidence, orders: seq<LocalOrder>, k: nat)
    requires Valid(c.cfg.params, s) && Accepts(c.cfg, s, orders, c.epoch, s.fragmentSeq + 1)
    requires NothingNew(orders) && k <= |orders|
    ensures SameGraph(s, AdmitAll(Opened(s, orders, c.epoch), orders[..k]))
    decreases k
  {
    hide Sound, Counted, Classified, Accepts, StillAppend, AdmitOne, FreshIds, AdmitAll;
    if k == 0 {
      NothingAdmittedYet(s, orders, c.epoch);
    } else {
      AdmitAllNothing(c, s, orders, k - 1);
      var t := AdmitAll(Opened(s, orders, c.epoch), orders[..k - 1]);
      AcceptsSound(c.cfg, s, orders, c.epoch, k - 1);
      AppendsAt(c.cfg.params, t, orders, k - 1);
      SoundLive(c.cfg.params, t);
      AdmitAllSnoc(Opened(s, orders, c.epoch), orders, k - 1);
      AdmitNothing(t, orders[k - 1]);
    }
  }

  lemma SoundLive(p: Params, t: Evidence)
    requires Sound(p, t)
    ensures t.live == Positioned(t.pos)
  {
  }

  lemma NothingAdmittedYet(s: Evidence, orders: seq<LocalOrder>, epoch: nat)
    ensures SameGraph(s, AdmitAll(Opened(s, orders, epoch), orders[..0]))
  {
    assert orders[..0] == [];
  }

  lemma SameGraphOf(p: Params, s: Evidence, t: Evidence)
    requires Classified(p, s) && s.live == t.live && s.pos == t.pos && s.weights == t.weights && Classified(p, t)
    ensures GraphOf(p, s) == GraphOf(p, t)
  {
    assert forall u, v :: HasEdge(s, p.EdgeThreshold(), u, v) == HasEdge(t, p.EdgeThreshold(), u, v);
  }

  lemma IngestFields(p: Params, s: Evidence, orders: seq<LocalOrder>, epoch: nat)
    ensures var t := AdmitAll(Opened(s, orders, epoch), orders);
      var u := Ingest(p, s, orders, epoch);
      u.live == t.live && u.pos == t.pos && u.weights == t.weights && Classified(p, u)
  {
    hide AdmitAll;
  }

  /** A round of empty extensions outputs no batch. */
  lemma EmptyRoundIsSilent(c: Context, h: seq<Fragment>, f: Fragment)
    requires c.cfg.params.Ok() && Run(c, h) && Acceptable(c, StateAfter(c, h), LatestAfter(c, h), f)
    requires NothingNew(f.evidence)
    ensures f.finalOrder == Some([])
  {
    hide *;
    var p, s := c.cfg.params, StateAfter(c, h);
    var t := Pre(c, s, f);
    RunValid(c, h);
    RunSettled(c, h);
    AcceptableEvidence(c, s, LatestAfter(c, h), f);
    SameGraphAfter(c, s, f);
    ReleasesClosure(c, s, LatestAfter(c, h), f);
    OutputIsFair(c, s, LatestAfter(c, h), f);
    BatchesAre(f);
    if BatchesOf(f) != [] {
      FirstReleased(c, t, f);
    }
  }

  lemma BatchesAre(f: Fragment)
    requires f.finalOrder.Some?
    ensures f.finalOrder == Some(BatchesOf(f))
  {
  }

  lemma SameGraphAfter(c: Context, s: Evidence, f: Fragment)
    requires Valid(c.cfg.params, s) && Accepts(c.cfg, s, f.evidence, c.epoch, s.fragmentSeq + 1)
    requires NothingNew(f.evidence) && f.epoch == c.epoch
    ensures GraphOf(c.cfg.params, s) == GraphOf(c.cfg.params, Pre(c, s, f))
  {
    hide *;
    AdmitAllNothing(c, s, f.evidence, |f.evidence|);
    assert f.evidence[..|f.evidence|] == f.evidence;
    IngestFields(c.cfg.params, s, f.evidence, f.epoch);
    SameGraphIs(s, AdmitAll(Opened(s, f.evidence, c.epoch), f.evidence));
    ValidClassified(c.cfg.params, s);
    PreIs(c, s, f);
    SameGraphOf(c.cfg.params, s, Pre(c, s, f));
  }

  lemma SameGraphIs(s: Evidence, t: Evidence)
    requires SameGraph(s, t)
    ensures s.live == t.live && s.pos == t.pos && s.weights == t.weights
  {
  }

  lemma PreIs(c: Context, s: Evidence, f: Fragment)
    ensures Pre(c, s, f) == Ingest(c.cfg.params, s, f.evidence, f.epoch)
  {
  }

  lemma AcceptableEvidence(c: Context, s: Evidence, latest: Digest, f: Fragment)
    requires Acceptable(c, s, latest, f)
    ensures f.epoch == c.epoch && f.fragmentSeq == s.fragmentSeq + 1
    ensures Accepts(c.cfg, s, f.evidence, c.epoch, s.fragmentSeq + 1)
  {
  }

  lemma FirstReleased(c: Context, t: Evidence, f: Fragment)
    requires f.certificate.Some? && BatchesOf(f) != []
    requires CertOk(GraphOf(c.cfg.params, t), t.batchCounter, BatchesOf(f), f.certificate.value)
    ensures Released(BatchesOf(f)) != {}
  {
    hide ForestOk, PartOk, BatchesOk, MinFirst, GraphOf;
    var batches := BatchesOf(f);
    assert TxsOf(batches)[0] != [];
    var u := batches[0].txs[0];
    assert u in batches[0].txs;
    assert u in Released(batches);
  }
}

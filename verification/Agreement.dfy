/** One digest, one history: the latest fragment digest pins down the committed state. */
module Agreement {
  import opened Types
  import opened EvidenceSpec
  import opened Chain

  /** What two replicas need to have in common: not their keys, not their content. */
  predicate SameStart(c: Context, d: Context) {
    c.cfg.params == d.cfg.params && c.epoch == d.epoch && c.genesisState == d.genesisState
  }

  lemma SameStartRefl(c: Context)
    ensures SameStart(c, c)
  {
  }

  lemma EncodedDetermines(c: Context, d: Context, s: Evidence, f: Fragment, g: Fragment)
    requires SameStart(c, d)
    requires FragmentDigest(f) == FragmentDigest(g)
    requires f.finalOrder.Some? && f.certificate.Some? && g.finalOrder.Some? && g.certificate.Some?
    ensures Pre(c, s, f) == Pre(d, s, g) && Post(c, s, f) == Post(d, s, g)
    ensures f.previousFragment == g.previousFragment && f.fragmentSeq == g.fragmentSeq && f.evidence == g.evidence
    ensures f.finalOrder == g.finalOrder && PartOf(f) == PartOf(g)
  {
    hide Ingest, Finalized;
    var a, b := EncodedFragment(f), EncodedFragment(g);
    assert a == b;
    assert a.certificate.value.part == f.certificate.value.part;
    assert b.certificate.value.part == g.certificate.value.part;
  }

  lemma AcceptableParts(c: Context, s: Evidence, latest: Digest, f: Fragment)
    requires Acceptable(c, s, latest, f)
    ensures f.finalOrder.Some? && f.certificate.Some? && f.previousFragment == latest
    ensures f.fragmentSeq == s.fragmentSeq + 1
  {
  }

  lemma SameGenesis(c: Context, d: Context)
    requires SameStart(c, d)
    ensures Genesis(c.epoch, c.cfg.params.n, c.genesisState) == Genesis(d.epoch, d.cfg.params.n, d.genesisState)
  {
  }

  /** Two replicas with the same parameters and genesis that reach the same committed
      sequence and the same latest fragment digest hold the same evidence state, caches
      included. */
  lemma {:induction false} StateAgreement(c: Context, h1: seq<Fragment>, d: Context, h2: seq<Fragment>)
    requires SameStart(c, d)
    requires Run(c, h1) && Run(d, h2) && |h1| == |h2| && LatestAfter(c, h1) == LatestAfter(d, h2)
    ensures StateAfter(c, h1) == StateAfter(d, h2)
    ensures forall k :: 0 <= k < |h1| ==> FragmentDigest(h1[k]) == FragmentDigest(h2[k])
  {
    hide *;
    RunParts(c, h1);
    RunParts(d, h2);
    SameGenesis(c, d);
    if h1 != [] {
      var b1, b2, f, g := h1[..|h1| - 1], h2[..|h2| - 1], h1[|h1| - 1], h2[|h2| - 1];
      AcceptableParts(c, StateAfter(c, b1), LatestAfter(c, b1), f);
      AcceptableParts(d, StateAfter(d, b2), LatestAfter(d, b2), g);
      EncodedDetermines(c, d, StateAfter(c, b1), f, g);
      StateAgreement(c, b1, d, b2);
      forall k | 0 <= k < |h1| ensures FragmentDigest(h1[k]) == FragmentDigest(h2[k]) {
        if k < |b1| {
          assert FragmentDigest(b1[k]) == FragmentDigest(b2[k]);
        }
      }
    }
  }

  // ----- What identifiers and digests bind

  /** The state after a fragment is named by everything that led to it. */
  lemma PostName(c: Context, s: Evidence, f: Fragment)
    ensures Post(c, s, f).stateId
         == PostState(f.epoch, s.fragmentSeq + 1,
                      PreState(f.epoch, s.fragmentSeq + 1, s.stateId, EvidenceHash(f.evidence)), BatchesOf(f),
                      seq(|PartOf(f)|, j requires 0 <= j < |PartOf(f)| =>
                            Component(PartOf(f)[j].rank, PartOf(f)[j].txs)))
    ensures Pre(c, s, f).stateId == PreState(f.epoch, s.fragmentSeq + 1, s.stateId, EvidenceHash(f.evidence))
  {
    AdmitKeepsName(Opened(s, f.evidence, f.epoch), f.evidence);
    hide AdmitAll, ClassesOf;
  }

  lemma {:induction false} AdmitKeepsName(s: Evidence, orders: seq<LocalOrder>)
    ensures AdmitAll(s, orders).stateId == s.stateId && AdmitAll(s, orders).epoch == s.epoch
  {
    hide VisibilityOf, WeightsOf, NewPositions, FreshIds;
    if orders != [] {
      AdmitKeepsName(s, orders[..|orders| - 1]);
    }
  }

  /** The identifier of a state binds the whole run behind it: the genesis state and, place
      by place, the evidence, the order and the components; in any two contexts. */
  lemma {:induction false} StateIdBindsRun(c: Context, h: seq<Fragment>, d: Context, g: seq<Fragment>)
    requires Run(c, h) && Run(d, g) && |h| == |g| && StateAfter(c, h).stateId == StateAfter(d, g).stateId
    ensures c.genesisState == d.genesisState
    ensures forall k :: 0 <= k < |h| ==>
      && h[k].evidence == g[k].evidence && h[k].finalOrder == g[k].finalOrder
      && |PartOf(h[k])| == |PartOf(g[k])|
      && (forall j :: 0 <= j < |PartOf(h[k])| ==>
           PartOf(h[k])[j].rank == PartOf(g[k])[j].rank && PartOf(h[k])[j].txs == PartOf(g[k])[j].txs)
  {
    hide *;
    RunParts(c, h);
    RunParts(d, g);
    GenesisName(c);
    GenesisName(d);
    if h != [] {
      var b1, b2, f1, f2 := h[..|h| - 1], g[..|g| - 1], h[|h| - 1], g[|g| - 1];
      AcceptableParts(c, StateAfter(c, b1), LatestAfter(c, b1), f1);
      AcceptableParts(d, StateAfter(d, b2), LatestAfter(d, b2), f2);
      SameName(c, StateAfter(c, b1), f1, d, StateAfter(d, b2), f2);
      StateIdBindsRun(c, b1, d, b2);
      forall k | 0 <= k < |h|
        ensures h[k].evidence == g[k].evidence && h[k].finalOrder == g[k].finalOrder
        ensures |PartOf(h[k])| == |PartOf(g[k])|
        ensures forall j :: 0 <= j < |PartOf(h[k])| ==>
          PartOf(h[k])[j].rank == PartOf(g[k])[j].rank && PartOf(h[k])[j].txs == PartOf(g[k])[j].txs
      {
        if k < |b1| {
          assert h[k] == b1[k] && g[k] == b2[k];
        }
      }
    }
  }

  lemma GenesisName(c: Context)
    ensures Genesis(c.epoch, c.cfg.params.n, c.genesisState).stateId == c.genesisState
  {
  }

  lemma SameName(c: Context, s: Evidence, f: Fragment, d: Context, t: Evidence, g: Fragment)
    requires Post(c, s, f).stateId == Post(d, t, g).stateId && f.finalOrder.Some? && g.finalOrder.Some?
    ensures s.stateId == t.stateId && f.evidence == g.evidence && f.finalOrder == g.finalOrder
    ensures |PartOf(f)| == |PartOf(g)|
    ensures forall j :: 0 <= j < |PartOf(f)| ==>
      PartOf(f)[j].rank == PartOf(g)[j].rank && PartOf(f)[j].txs == PartOf(g)[j].txs
  {
    PostName(c, s, f);
    PostName(d, t, g);
    hide Post, PartOf;
    var a := seq(|PartOf(f)|, j requires 0 <= j < |PartOf(f)| => Component(PartOf(f)[j].rank, PartOf(f)[j].txs));
    var b := seq(|PartOf(g)|, j requires 0 <= j < |PartOf(g)| => Component(PartOf(g)[j].rank, PartOf(g)[j].txs));
    assert a == b && f.finalOrder == Some(BatchesOf(f)) && g.finalOrder == Some(BatchesOf(g));
    forall j | 0 <= j < |PartOf(f)|
      ensures PartOf(f)[j].rank == PartOf(g)[j].rank && PartOf(f)[j].txs == PartOf(g)[j].txs
    {
      assert a[j] == b[j];
    }
  }

  /** Every fragment of a run names its place, its leader, and the state and the fragment
      before it. */
  lemma FragmentsChain(c: Context, h: seq<Fragment>, k: nat)
    requires c.cfg.params.Ok() && Run(c, h) && k < |h|
    ensures h[k].fragmentSeq == k + 1 && h[k].leader == c.leader && h[k].epoch == c.epoch
    ensures h[k].authContext == c.authContext
    ensures h[k].previousState == StateAfter(c, h[..k]).stateId
    ensures h[k].previousState == if k == 0 then c.genesisState else h[k - 1].candidatePostState
    ensures h[k].previousFragment == if k == 0 then c.genesisFragment else FragmentDigest(h[k - 1])
    ensures h[k].candidateEvidenceState
         == PreState(c.epoch, k + 1, h[k].previousState, EvidenceHash(h[k].evidence))
    ensures h[k].candidatePostState == StateAfter(c, h[..k + 1]).stateId
  {
    hide *;
    RunAt(c, h, k);
    RunValid(c, h[..k]);
    PlaceOf(c, StateAfter(c, h[..k]), LatestAfter(c, h[..k]), h[k]);
    PostName(c, StateAfter(c, h[..k]), h[k]);
    LatestIs(c, h[..k]);
    RunParts(c, h[..k]);
    GenesisName(c);
    if k > 0 {
      RunAt(c, h, k - 1);
      PlaceOf(c, StateAfter(c, h[..k - 1]), LatestAfter(c, h[..k - 1]), h[k - 1]);
      assert h[..k][k - 1] == h[k - 1] && h[..k - 1 + 1] == h[..k];
    }
  }

  lemma LatestIs(c: Context, h: seq<Fragment>)
    ensures LatestAfter(c, h) == if h == [] then c.genesisFragment else FragmentDigest(h[|h| - 1])
  {
    hide FragmentDigest;
  }

  lemma PlaceOf(c: Context, s: Evidence, latest: Digest, f: Fragment)
    requires Acceptable(c, s, latest, f)
    ensures f.fragmentSeq == s.fragmentSeq + 1 && f.leader == c.leader && f.epoch == c.epoch
    ensures f.authContext == c.authContext
    ensures f.previousState == s.stateId && f.previousFragment == latest
    ensures f.candidateEvidenceState == Pre(c, s, f).stateId && f.candidatePostState == Post(c, s, f).stateId
  {
    hide Accepts, Pre, Post;
  }

  /** The digest that a replica signs binds every field of its extension but the signature. */
  lemma LocalOrderDigestBinds(o: LocalOrder, q: LocalOrder)
    ensures LocalOrderDigest(o) == LocalOrderDigest(q) <==> o == q.(signature := o.signature)
  {
    if LocalOrderDigest(o) == LocalOrderDigest(q) {
      assert o.(signature := 0) == q.(signature := 0);
      assert o == o.(signature := 0).(signature := o.signature);
    }
  }
}

/**
  Batch-order fairness for service objects: the receipts of honest services are enough,
  even of those that have not yet committed everything the run contains.
 */
module EndToEnd {
  import opened Types
  import opened Collections
  import opened EvidenceSpec
  import opened Chain
  import opened Agreement
  import opened Logs
  import opened Fairness
  import opened Service
  import opened Hosting
  import LO = LocalOrders

  /** Nobody forges replica `i`'s signature anywhere in the run. */
  ghost predicate RunUnforged(h: seq<Fragment>, i: Replica, signed: set<LocalOrder>) {
    forall k :: 0 <= k < |h| ==> LO.Unforged(h[k].evidence, i, signed)
  }

  /** A replica that has committed `m` fragments signed nothing for a fragment after the
      next one. */
  lemma NothingAhead(c: Context, h: seq<Fragment>, i: Replica, m: nat, k: nat, r: LO.Producer)
    requires c.cfg.params.Ok() && Run(c, h) && m < k < |h| && LO.Unforged(h[k].evidence, i, r.signed)
    requires LO.HonestLog(i, c.epoch, StateAfter(c, h[..m]), AdmittedLog(h[..m], i), r)
    ensures ChunkOf(h[k].evidence, i) == []
  {
    hide *;
    RunPrefix(c, h, m);
    RunValid(c, h[..m]);
    RunAt(c, h, k);
    RunValid(c, h[..k]);
    LO.CommittedOrder(c, StateAfter(c, h[..k]), LatestAfter(c, h[..k]), h[k], i);
    OrderFound(h[k].evidence, i);
    ChunkIs(h[k].evidence, i);
    if OrderBy(h[k].evidence, i).Some? {
      var o := OrderBy(h[k].evidence, i).value;
      SignedLater(i, c.epoch, StateAfter(c, h[..m]), AdmittedLog(h[..m], i), r, h[k].evidence, o);
      assert false;
    }
  }

  lemma SignedLater(i: Replica, epoch: nat, s: Evidence, admitted: seq<TxID>, r: LO.Producer, orders: seq<LocalOrder>,
                    o: LocalOrder)
    requires LO.HonestLog(i, epoch, s, admitted, r) && LO.Unforged(orders, i, r.signed)
    requires o in orders && o.replica == i
    ensures o.fragmentSeq <= s.fragmentSeq + 1
  {
    var q :| q in r.signed && LocalOrderDigest(q) == LocalOrderDigest(o);
    LO.SameDigestSameChunk(q, o);
  }

  /** What a run admitted of an honest replica is a prefix of what the replica received,
      wherever in the run the replica stands. */
  lemma {:induction false} AdmittedIsReceived(c: Context, h: seq<Fragment>, i: Replica, m: nat, r: LO.Producer)
    requires c.cfg.params.Ok() && Run(c, h) && m <= |h| && RunUnforged(h, i, r.signed)
    requires LO.HonestLog(i, c.epoch, StateAfter(c, h[..m]), AdmittedLog(h[..m], i), r)
    ensures AdmittedLog(h, i) <= r.received
    ensures |h| > m ==> AdmittedLog(h, i) == AdmittedLog(h[..m], i) + ChunkOf(h[m].evidence, i)
    decreases |h|
  {
    hide Run, AdmittedLog, ChunkOf, LO.HonestLog, StateAfter, LO.Unforged;
    ReceivedSplits(i, c.epoch, StateAfter(c, h[..m]), AdmittedLog(h[..m], i), r);
    if |h| == m {
      assert h[..m] == h;
    } else {
      var before, f := h[..|h| - 1], h[|h| - 1];
      LO.AdmittedSnoc(before, f, i);
      assert before + [f] == h;
      RunPrefix(c, h, |h| - 1);
      if |before| == m {
        NextChunkReceived(c, h, i, m, r);
      } else {
        assert before[..m] == h[..m];
        AdmittedIsReceived(c, before, i, m, r);
        NothingAhead(c, h, i, m, |h| - 1, r);
      }
    }
  }

  lemma ReceivedSplits(i: Replica, epoch: nat, s: Evidence, admitted: seq<TxID>, r: LO.Producer)
    requires LO.HonestLog(i, epoch, s, admitted, r)
    ensures r.received == admitted + r.queue && Distinct(r.received)
  {
  }

  lemma NextChunkReceived(c: Context, h: seq<Fragment>, i: Replica, m: nat, r: LO.Producer)
    requires c.cfg.params.Ok() && Run(c, h) && m < |h| && LO.Unforged(h[m].evidence, i, r.signed)
    requires LO.HonestLog(i, c.epoch, StateAfter(c, h[..m]), AdmittedLog(h[..m], i), r)
    ensures AdmittedLog(h[..m], i) + ChunkOf(h[m].evidence, i) <= r.received
  {
    hide *;
    RunAt(c, h, m);
    RunValid(c, h[..m]);
    var s, admitted, orders := StateAfter(c, h[..m]), AdmittedLog(h[..m], i), h[m].evidence;
    LO.CommittedOrder(c, s, LatestAfter(c, h[..m]), h[m], i);
    OrderFound(orders, i);
    ChunkIs(orders, i);
    ReceivedSplits(i, c.epoch, s, admitted, r);
    if OrderBy(orders, i).Some? {
      LO.RetainedCommitted(i, c.epoch, s, admitted, r, orders, OrderBy(orders, i).value);
    }
  }

  /** Equal digests, equal admitted logs. */
  lemma {:induction false} SameAdmitted(h: seq<Fragment>, g: seq<Fragment>, i: Replica)
    requires Digests(h) == Digests(g)
    ensures AdmittedLog(h, i) == AdmittedLog(g, i)
    decreases |h|
  {
    hide ChunkOf, FragmentDigest;
    DigestsLength(h);
    DigestsLength(g);
    if h != [] {
      var n := |h| - 1;
      assert Digests(h)[n] == FragmentDigest(h[n]) && Digests(g)[n] == FragmentDigest(g[n]);
      SameEvidence(h[n], g[n]);
      assert Digests(h[..n]) == Digests(h)[..n] && Digests(g[..n]) == Digests(g)[..n];
      SameAdmitted(h[..n], g[..n], i);
    }
  }

  lemma SameEvidence(f: Fragment, g: Fragment)
    requires FragmentDigest(f) == FragmentDigest(g)
    ensures f.evidence == g.evidence
  {
    assert EncodedFragment(f).evidence == f.evidence && EncodedFragment(g).evidence == g.evidence;
  }

  /** An honest service of the run's context, some way behind in the run. */
  ghost predicate Follows(s: OFOService, c: Context, h: seq<Fragment>, i: Replica)
    reads s, s.committed, s.manager, Footprint(s.pending)
  {
    && s.Valid() && s.HonestLog() && s.replica == i && s.c == c
    && Digests(s.history) <= Digests(h) && RunUnforged(h, i, s.signed)
  }

  lemma FollowerVouches(s: OFOService, c: Context, h: seq<Fragment>, i: Replica, x: TxID, y: TxID)
    requires Run(c, h) && Follows(s, c, h, i) && Before(s.received, x, y)
    ensures Vouches(AdmittedLog(h, i), s.received, x, y)
  {
    hide *;
    FollowsIs(s, c, h, i);
    var m, r := |s.history|, s.Producer();
    s.OwnState();
    s.InstalledParts();
    s.HonestIs();
    s.ProducerIs();
    DigestsLength(h);
    DigestsLength(s.history);
    RunPrefix(c, h, m);
    SameLatest(c, s.history, h);
    SameStartRefl(c);
    StateAgreement(c, s.history, c, h[..m]);
    DigestsPrefix(h, m);
    SameAdmitted(s.history, h[..m], i);
    AdmittedIsReceived(c, h, i, m, r);
    ReceivedSplits(i, c.epoch, StateAfter(c, h[..m]), AdmittedLog(h[..m], i), r);
    VouchesIf(AdmittedLog(h, i), s.received, x, y);
  }

  lemma FollowsIs(s: OFOService, c: Context, h: seq<Fragment>, i: Replica)
    requires Follows(s, c, h, i)
    ensures s.Valid() && s.HonestLog() && s.replica == i && s.c == c
    ensures Digests(s.history) <= Digests(h) && RunUnforged(h, i, s.signed)
  {
  }

  lemma DigestsPrefix(h: seq<Fragment>, m: nat)
    requires m <= |h|
    ensures |Digests(h)| == |h| && Digests(h[..m]) == Digests(h)[..m]
  {
    hide FragmentDigest;
  }

  lemma VouchesIf(admitted: seq<TxID>, log: seq<TxID>, x: TxID, y: TxID)
    requires admitted <= log && Distinct(log) && Before(log, x, y)
    ensures Vouches(admitted, log, x, y)
  {
  }

  /** Fairness end to end: if qH honest services, each at some point of the run, received
      `x` before `y`, the run never finalizes `y` ahead of `x`. */
  lemma ServiceFairness(c: Context, h: seq<Fragment>, services: map<Replica, OFOService>, quorum: set<Replica>, x: TxID,
                        y: TxID)
    requires c.cfg.params.Ok() && Run(c, h)
    requires quorum <= Replicas(c.cfg.params.n) && |quorum| >= c.cfg.params.qH && quorum <= services.Keys
    requires forall i :: i in quorum ==> Follows(services[i], c, h, i) && Before(services[i].received, x, y)
    requires y in StateAfter(c, h).done
    ensures Ordered(StateAfter(c, h).done, x, y)
  {
    hide *;
    var received := map i | i in quorum :: services[i].received;
    var logs: Replica -> seq<TxID> := i => if i in received then received[i] else [];
    forall i | i in quorum ensures Vouches(AdmittedLog(h, i), logs(i), x, y) {
      FollowerVouches(services[i], c, h, i, x, y);
    }
    QuorumIf(h, logs, quorum, x, y);
    BatchOrderFairness(c, h, logs, quorum, x, y);
  }

  lemma QuorumIf(h: seq<Fragment>, logs: Replica -> seq<TxID>, quorum: set<Replica>, x: TxID, y: TxID)
    requires forall i :: i in quorum ==> Vouches(AdmittedLog(h, i), logs(i), x, y)
    ensures QuorumVouches(h, logs, quorum, x, y)
  {
    hide Vouches, AdmittedLog;
  }
}

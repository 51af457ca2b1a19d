/** What a whole run conserves: ids, finalization records, batch indices and states. */
module Conservation {
  import opened Types
  import opened Graphs
  import opened FairOrder
  import opened EvidenceSpec
  import opened EvidenceFacts
  import opened PairFacts
  import opened Growth
  import opened CertificateSpec
  import opened Chain

  // ----- Every admitted id is live or done, never both

  ghost function IdsOf(orders: seq<LocalOrder>): set<TxID> {
    set j, u | 0 <= j < |orders| && u in orders[j].txs :: u
  }

  ghost function EverAdmitted(h: seq<Fragment>): set<TxID> {
    if h == [] then {} else EverAdmitted(h[..|h| - 1]) + IdsOf(h[|h| - 1].evidence)
  }

  lemma FreshIsRest(done: map<TxID, DoneRecord>, orders: seq<LocalOrder>)
    ensures FreshUpto(done, orders) + done.Keys == IdsOf(orders) + done.Keys
  {
    forall u | u in IdsOf(orders) && u !in done ensures u in FreshUpto(done, orders) {
      var j :| 0 <= j < |orders| && u in orders[j].txs;
      assert u in FreshIds(done, orders[j]);
    }
    forall u | u in FreshUpto(done, orders) ensures u in IdsOf(orders) {
      var j :| 0 <= j < |orders| && u in FreshIds(done, orders[j]);
      assert u in orders[j].txs;
    }
  }

  lemma AdmitAllDone(s: Evidence, orders: seq<LocalOrder>)
    ensures AdmitAll(s, orders).done == s.done && AdmitAll(s, orders).batchCounter == s.batchCounter
  {
  }

  lemma PreDone(c: Context, s: Evidence, f: Fragment)
    ensures Pre(c, s, f).done == s.done && Pre(c, s, f).batchCounter == s.batchCounter
  {
    hide AdmitAll;
    AdmitAllDone(Opened(s, f.evidence, f.epoch), f.evidence);
  }

  lemma ReleasedLive(c: Context, s: Evidence, latest: Digest, f: Fragment)
    requires Acceptable(c, s, latest, f)
    ensures Released(BatchesOf(f)) <= Pre(c, s, f).live
  {
    ReleasesClosure(c, s, latest, f);
    hide Pre, Reach;
  }

  lemma PostFields(c: Context, s: Evidence, f: Fragment)
    ensures var t, gone := Pre(c, s, f), Released(BatchesOf(f));
      && Post(c, s, f).live == t.live - gone
      && Post(c, s, f).done == t.done + AllRecords(t.fragmentSeq, BatchesOf(f))
      && AllRecords(t.fragmentSeq, BatchesOf(f)).Keys == gone
      && Post(c, s, f).done.Keys == t.done.Keys + gone
      && Post(c, s, f).states == t.states - gone
      && Post(c, s, f).batchCounter
         == if BatchesOf(f) == [] then t.batchCounter else BatchesOf(f)[|BatchesOf(f)| - 1].index
  {
    hide Pre;
    RecordKeys(Pre(c, s, f).fragmentSeq, BatchesOf(f));
  }

  lemma StepConserves(c: Context, s: Evidence, latest: Digest, f: Fragment)
    requires Valid(c.cfg.params, s) && Acceptable(c, s, latest, f)
    ensures Post(c, s, f).live + Post(c, s, f).done.Keys == s.live + s.done.Keys + IdsOf(f.evidence)
  {
    hide *;
    PreValid(c, s, latest, f);
    PreDone(c, s, f);
    ReleasedLive(c, s, latest, f);
    PostFields(c, s, f);
    FreshIsRest(s.done, f.evidence);
    AdvancesLive(s, Pre(c, s, f), FreshUpto(s.done, f.evidence));
    Moved(s.live, s.done.Keys, FreshUpto(s.done, f.evidence), Released(BatchesOf(f)), IdsOf(f.evidence));
  }

  lemma Moved(live: set<TxID>, done: set<TxID>, touched: set<TxID>, gone: set<TxID>, ids: set<TxID>)
    requires touched + done == ids + done && gone <= live + touched
    ensures (live + touched - gone) + (done + gone) == live + done + ids
  {
    forall u | u in live + done + ids ensures u in (live + touched - gone) + (done + gone) {
      assert u in ids ==> u in ids + done;
    }
    forall u | u in touched ensures u in ids + done {
      assert u in touched + done;
    }
  }

  lemma AdvancesLive(s: Evidence, t: Evidence, touched: set<TxID>)
    requires Advances(s, t, touched)
    ensures t.live == s.live + touched
  {
  }

  lemma ValidApart(p: Params, s: Evidence)
    requires Valid(p, s)
    ensures s.live !! s.done.Keys
  {
  }

  /** Every id ever admitted is in exactly one of Live and Done. */
  lemma {:induction false} LiveOrDone(c: Context, h: seq<Fragment>)
    requires c.cfg.params.Ok() && Run(c, h)
    ensures StateAfter(c, h).live + StateAfter(c, h).done.Keys == EverAdmitted(h)
    ensures StateAfter(c, h).live !! StateAfter(c, h).done.Keys
  {
    hide Valid, Acceptable, Post, IdsOf;
    RunValid(c, h);
    ValidApart(c.cfg.params, StateAfter(c, h));
    if h != [] {
      var before := h[..|h| - 1];
      LiveOrDone(c, before);
      RunValid(c, before);
      StepConserves(c, StateAfter(c, before), LatestAfter(c, before), h[|h| - 1]);
    }
  }

  // ----- Done records never change

  ghost predicate Kept(done: map<TxID, DoneRecord>, done': map<TxID, DoneRecord>) {
    forall u :: u in done ==> u in done' && done'[u] == done[u]
  }

  lemma KeptJoin(done: map<TxID, DoneRecord>, records: map<TxID, DoneRecord>)
    requires done.Keys !! records.Keys
    ensures Kept(done, done + records)
  {
  }

  lemma StepKeepsDone(c: Context, s: Evidence, latest: Digest, f: Fragment)
    requires Valid(c.cfg.params, s) && Acceptable(c, s, latest, f)
    ensures Kept(s.done, Post(c, s, f).done)
  {
    hide *;
    PreValid(c, s, latest, f);
    PreDone(c, s, f);
    ReleasedLive(c, s, latest, f);
    ValidApart(c.cfg.params, Pre(c, s, f));
    PostFields(c, s, f);
    KeptJoin(s.done, AllRecords(Pre(c, s, f).fragmentSeq, BatchesOf(f)));
  }

  lemma {:induction false} DoneIsForever(c: Context, h: seq<Fragment>, k: nat)
    requires c.cfg.params.Ok() && Run(c, h) && k <= |h|
    ensures Kept(StateAfter(c, h[..k]).done, StateAfter(c, h).done)
    decreases |h|
  {
    hide Valid, Acceptable, Post;
    if k == |h| {
      assert h[..k] == h;
    } else {
      var before := h[..|h| - 1];
      DoneIsForever(c, before, k);
      assert before[..k] == h[..k];
      RunValid(c, before);
      StepKeepsDone(c, StateAfter(c, before), LatestAfter(c, before), h[|h| - 1]);
    }
  }

  // ----- Batch indices

  lemma {:induction false} RecordAt(fragmentSeq: nat, batches: seq<FairnessBatch>, j: nat, u: TxID)
    requires Disjoint(TxsOf(batches)) && j < |batches| && u in batches[j].txs
    ensures u in AllRecords(fragmentSeq, batches)
    ensures AllRecords(fragmentSeq, batches)[u] == DoneRecord(fragmentSeq, batches[j].index)
    decreases |batches|
  {
    var rest, last := batches[..|batches| - 1], batches[|batches| - 1];
    if j < |rest| {
      assert u in TxsOf(batches)[j];
      assert u !in TxsOf(batches)[|rest|];
      DisjointRest(batches);
      RecordAt(fragmentSeq, rest, j, u);
    }
  }

  lemma DisjointRest(batches: seq<FairnessBatch>)
    requires batches != [] && Disjoint(TxsOf(batches))
    ensures Disjoint(TxsOf(batches[..|batches| - 1]))
  {
    var rest := batches[..|batches| - 1];
    forall i, j, v | 0 <= i < j < |TxsOf(rest)| && v in TxsOf(rest)[i] ensures v !in TxsOf(rest)[j] {
      assert v in TxsOf(batches)[i];
      assert v !in TxsOf(batches)[j];
    }
  }

  ghost predicate Uses(done: map<TxID, DoneRecord>, k: nat) {
    exists u :: u in done && done[u].batchIndex == k
  }

  /** The used batch indices are exactly 1 to the counter, and one batch belongs to one
      fragment. */
  ghost predicate Indexed(s: Evidence) {
    && (forall u :: u in s.done ==> 1 <= s.done[u].batchIndex <= s.batchCounter)
    && (forall k: nat :: 1 <= k <= s.batchCounter ==> Uses(s.done, k))
    && (forall u, v :: u in s.done && v in s.done && s.done[u].batchIndex == s.done[v].batchIndex ==>
         s.done[u].fragmentSeq == s.done[v].fragmentSeq)
  }

  /** What one fragment records: batch j of it under the j-th index after the counter. */
  ghost predicate Recorded(records: map<TxID, DoneRecord>, fragmentSeq: nat, counter: nat, m: nat) {
    && (forall u :: u in records ==>
         counter < records[u].batchIndex <= counter + m && records[u].fragmentSeq == fragmentSeq)
    && (forall k: nat :: counter < k <= counter + m ==> Uses(records, k))
  }

  lemma BatchesRecorded(g: ActiveGraph, counter: nat, batches: seq<FairnessBatch>, fragmentSeq: nat)
    requires BatchesOk(g, counter, batches) && Nonempty(TxsOf(batches))
    ensures Recorded(AllRecords(fragmentSeq, batches), fragmentSeq, counter, |batches|)
  {
    var records := AllRecords(fragmentSeq, batches);
    RecordKeys(fragmentSeq, batches);
    forall u | u in records
      ensures counter < records[u].batchIndex <= counter + |batches| && records[u].fragmentSeq == fragmentSeq
    {
      var j :| 0 <= j < |batches| && u in batches[j].txs;
      RecordAt(fragmentSeq, batches, j, u);
    }
    forall k: nat | counter < k <= counter + |batches| ensures Uses(records, k) {
      var j := k - counter - 1;
      assert TxsOf(batches)[j] != [];
      var u := batches[j].txs[0];
      RecordAt(fragmentSeq, batches, j, u);
      assert u in records && records[u].batchIndex == k;
    }
  }

  lemma CounterAfter(g: ActiveGraph, counter: nat, batches: seq<FairnessBatch>)
    requires BatchesOk(g, counter, batches)
    ensures (if batches == [] then counter else batches[|batches| - 1].index) == counter + |batches|
  {
  }

  lemma IndexedStep(s: Evidence, t: Evidence, records: map<TxID, DoneRecord>, fragmentSeq: nat, m: nat)
    requires Indexed(s) && Recorded(records, fragmentSeq, s.batchCounter, m) && s.done.Keys !! records.Keys
    requires t.done == s.done + records && t.batchCounter == s.batchCounter + m
    ensures Indexed(t)
  {
    forall k: nat | 1 <= k <= t.batchCounter ensures Uses(t.done, k) {
      if k <= s.batchCounter {
        assert Uses(s.done, k);
        var u :| u in s.done && s.done[u].batchIndex == k;
        assert t.done[u] == s.done[u];
      } else {
        assert Uses(records, k);
        var u :| u in records && records[u].batchIndex == k;
        assert t.done[u] == records[u];
      }
    }
  }

  lemma StepIndexes(c: Context, s: Evidence, latest: Digest, f: Fragment)
    requires Valid(c.cfg.params, s) && Acceptable(c, s, latest, f) && Indexed(s)
    ensures Indexed(Post(c, s, f))
  {
    hide *;
    var t, batches := Pre(c, s, f), BatchesOf(f);
    var g := GraphOf(c.cfg.params, t);
    PreValid(c, s, latest, f);
    PreDone(c, s, f);
    ReleasedLive(c, s, latest, f);
    ValidApart(c.cfg.params, t);
    PostFields(c, s, f);
    OutputIsFair(c, s, latest, f);
    CertParts(g, t.batchCounter, batches, f.certificate.value);
    BatchesRecorded(g, t.batchCounter, batches, t.fragmentSeq);
    CounterAfter(g, t.batchCounter, batches);
    IndexedStep(s, Post(c, s, f), AllRecords(t.fragmentSeq, batches), t.fragmentSeq, |batches|);
  }

  lemma CertParts(g: ActiveGraph, counter: nat, batches: seq<FairnessBatch>, cert: Certificate)
    requires CertOk(g, counter, batches, cert)
    ensures BatchesOk(g, counter, batches) && Nonempty(TxsOf(batches))
  {
  }

  lemma {:induction false} RunIndexed(c: Context, h: seq<Fragment>)
    requires c.cfg.params.Ok() && Run(c, h)
    ensures Indexed(StateAfter(c, h))
  {
    hide Valid, Acceptable, Post;
    if h != [] {
      var before := h[..|h| - 1];
      RunIndexed(c, before);
      RunValid(c, before);
      StepIndexes(c, StateAfter(c, before), LatestAfter(c, before), h[|h| - 1]);
    }
  }

  // ----- States only advance

  lemma StepAdvances(c: Context, s: Evidence, latest: Digest, f: Fragment, u: TxID)
    requires c.cfg.params.Ok() && Valid(c.cfg.params, s) && Acceptable(c, s, latest, f)
    requires u in s.live && u in Post(c, s, f).live
    ensures Rank(StateOf(s, u)) <= Rank(StateOf(Post(c, s, f), u))
  {
    PreValid(c, s, latest, f);
    PostFields(c, s, f);
    hide Acceptable, Pre, Post, AllRecords, Released, FreshUpto, ClassesOf, Sound, Counted;
    StateAdvances(c.cfg.params, s, Pre(c, s, f), FreshUpto(s.done, f.evidence), u);
  }

  /** Once live, an id that is live later was live all the while, and its state only went
      Blank, Shaded, Solid. */
  lemma {:induction false} StatesAdvance(c: Context, h: seq<Fragment>, k: nat, u: TxID)
    requires c.cfg.params.Ok() && Run(c, h) && k <= |h|
    requires u in StateAfter(c, h[..k]).live && u in StateAfter(c, h).live
    ensures Rank(StateOf(StateAfter(c, h[..k]), u)) <= Rank(StateOf(StateAfter(c, h), u))
    decreases |h|
  {
    hide Valid, Acceptable, Post, StateOf;
    if k == |h| {
      assert h[..k] == h;
    } else {
      var before := h[..|h| - 1];
      assert before[..k] == h[..k];
      StillLive(c, h, k, u);
      StatesAdvance(c, before, k, u);
      RunValid(c, before);
      StepAdvances(c, StateAfter(c, before), LatestAfter(c, before), h[|h| - 1], u);
    }
  }

  lemma {:induction false} AdmittedGrows(h: seq<Fragment>, k: nat)
    requires k <= |h|
    ensures EverAdmitted(h[..k]) <= EverAdmitted(h)
    decreases |h|
  {
    if k == |h| {
      assert h[..k] == h;
    } else {
      AdmittedGrows(h[..|h| - 1], k);
      assert h[..|h| - 1][..k] == h[..k];
    }
  }

  lemma StillLive(c: Context, h: seq<Fragment>, k: nat, u: TxID)
    requires c.cfg.params.Ok() && Run(c, h) && k < |h|
    requires u in StateAfter(c, h[..k]).live && u in StateAfter(c, h).live
    ensures u in StateAfter(c, h[..|h| - 1]).live
  {
    hide *;
    var before := h[..|h| - 1];
    RunPrefix(c, h, |h| - 1);
    RunPrefix(c, h, k);
    LiveOrDone(c, h[..k]);
    LiveOrDone(c, h);
    LiveOrDone(c, before);
    AdmittedGrows(before, k);
    assert before[..k] == h[..k];
    DoneIsForever(c, h, |h| - 1);
    KeptKeys(StateAfter(c, before).done, StateAfter(c, h).done);
  }

  lemma KeptKeys(a: map<TxID, DoneRecord>, b: map<TxID, DoneRecord>)
    requires Kept(a, b)
    ensures a.Keys <= b.Keys
  {
  }

  // ----- Edges and states

  /** A pair whose weight meets the edge threshold has two non-Blank live endpoints, so
      the local edge test never reads the state of an absent id. */
  lemma EdgesAreActive(p: Params, s: Evidence, u: TxID, v: TxID)
    requires p.Ok() && Valid(p, s) && HasEdge(s, p.EdgeThreshold(), u, v)
    ensures u in Active(s) && v in Active(s)
  {
    var e := Edge(u, v);
    WeightAt(s.pos, e);
    WeightBound(s.pos, e);
    assert |Backers(s.pos, e)| >= p.EdgeThreshold();
    hide Backers, WeightsOf, Viewers;
    SeenIsActive(p, s, u);
    SeenIsActive(p, s, v);
  }

  lemma SeenIsActive(p: Params, s: Evidence, u: TxID)
    requires p.Ok() && Valid(p, s) && |Viewers(s.pos, u)| >= p.EdgeThreshold()
    ensures u in Active(s)
  {
    Visible(s.pos, u);
    hide Viewers, Counted, AllLogs;
  }

  lemma Visible(pos: Positions, u: TxID)
    ensures |Viewers(pos, u)| > 0 ==> u in Positioned(pos)
  {
    if Viewers(pos, u) != {} {
      var i :| i in Viewers(pos, u);
    }
  }
}

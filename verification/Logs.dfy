/** The replicas' logs as a run admitted them, and what the state remembers of them. */
module Logs {
  import opened Types
  import opened Collections
  import opened EvidenceSpec
  import opened EvidenceFacts
  import opened PairFacts
  import opened Chain

  function OrderBy(orders: seq<LocalOrder>, i: Replica): Option<LocalOrder> {
    if orders == [] then None
    else if orders[|orders| - 1].replica == i then Some(orders[|orders| - 1])
    else OrderBy(orders[..|orders| - 1], i)
  }

  lemma {:induction false} OrderFound(orders: seq<LocalOrder>, i: Replica)
    ensures OrderBy(orders, i).Some? <==> exists o :: o in orders && o.replica == i
    ensures OrderBy(orders, i).Some? ==> OrderBy(orders, i).value in orders && OrderBy(orders, i).value.replica == i
  {
    if orders != [] {
      var rest, last := orders[..|orders| - 1], orders[|orders| - 1];
      OrderFound(rest, i);
      assert forall o :: o in orders <==> o in rest || o == last;
    }
  }

  /** What replica `i` contributes to a batch. */
  function ChunkOf(orders: seq<LocalOrder>, i: Replica): seq<TxID> {
    var o := OrderBy(orders, i);
    if o.Some? then o.value.txs else []
  }

  lemma ChunkIs(orders: seq<LocalOrder>, i: Replica)
    ensures ChunkOf(orders, i) == if OrderBy(orders, i).Some? then OrderBy(orders, i).value.txs else []
  {
    hide OrderBy;
  }

  /** All ids of replica `i`, in the order it extended its log. */
  function AdmittedLog(h: seq<Fragment>, i: Replica): seq<TxID> {
    if h == [] then [] else AdmittedLog(h[..|h| - 1], i) + ChunkOf(h[|h| - 1].evidence, i)
  }

  // ----- Positions are places in the log

  /** Every id of the log is finalized or positioned at its place, and nothing else is
      positioned. */
  ghost predicate Places(done: map<TxID, DoneRecord>, pos: map<TxID, nat>, log: seq<TxID>) {
    && (forall k :: 0 <= k < |log| ==> log[k] in done || (log[k] in pos && pos[log[k]] == k + 1))
    && (forall u :: u in pos ==> 1 <= pos[u] <= |log| && log[pos[u] - 1] == u)
  }

  ghost predicate LogAgrees(s: Evidence, i: Replica, log: seq<TxID>) {
    Count(s.logSeq, i) == |log| && Places(s.done, PosOf(s, i), log)
  }

  lemma AgreesOther(s: Evidence, o: LocalOrder, i: Replica, log: seq<TxID>)
    requires LogAgrees(s, i, log) && o.replica != i
    ensures LogAgrees(AdmitOne(s, o), i, log)
  {
    hide Places, VisibilityOf, WeightsOf, NewPositions;
    assert PosOf(AdmitOne(s, o), i) == PosOf(s, i);
  }

  lemma PlacedAt(done: map<TxID, DoneRecord>, o: LocalOrder, k: nat)
    requires Distinct(o.txs) && k < |o.txs| && o.txs[k] !in done
    ensures o.txs[k] in NewPositions(done, o) && NewPositions(done, o)[o.txs[k]] == o.prevPosition + k + 1
  {
    var j := IndexIn(o.txs, o.txs[k]);
    if j < k {
      DistinctAt(o.txs, j, k);
    } else if k < j {
      DistinctAt(o.txs, k, j);
    }
  }

  lemma PlacedFrom(done: map<TxID, DoneRecord>, o: LocalOrder, u: TxID)
    requires u in NewPositions(done, o)
    ensures o.prevPosition < NewPositions(done, o)[u] <= o.prevPosition + |o.txs|
    ensures o.txs[NewPositions(done, o)[u] - o.prevPosition - 1] == u
  {
  }

  lemma PlacesGrow(done: map<TxID, DoneRecord>, pos: map<TxID, nat>, o: LocalOrder, log: seq<TxID>)
    requires Places(done, pos, log) && o.prevPosition == |log| && Distinct(o.txs) && FreshIds(done, o) !! pos.Keys
    ensures Places(done, pos + NewPositions(done, o), log + o.txs)
  {
    var add, longer := NewPositions(done, o), log + o.txs;
    NewPositionKeys(done, o);
    hide NewPositions, Distinct, FreshIds;
    forall k | 0 <= k < |longer|
      ensures longer[k] in done || (longer[k] in pos + add && (pos + add)[longer[k]] == k + 1)
    {
      if k >= |log| && longer[k] !in done {
        PlacedAt(done, o, k - |log|);
      }
    }
    forall u | u in add ensures 1 <= add[u] <= |longer| && longer[add[u] - 1] == u {
      PlacedFrom(done, o, u);
    }
  }

  lemma AgreesOwn(p: Params, s: Evidence, o: LocalOrder, log: seq<TxID>)
    requires Appends(p, s, o) && LogAgrees(s, o.replica, log) && o.replica in s.pos
    ensures LogAgrees(AdmitOne(s, o), o.replica, log + o.txs)
  {
    PlacesGrow(s.done, PosOf(s, o.replica), o, log);
    hide Places, VisibilityOf, WeightsOf, NewPositions, FreshIds, Distinct;
  }

  lemma OrderBySnoc(orders: seq<LocalOrder>, k: nat, i: Replica)
    requires k < |orders|
    ensures OrderBy(orders[..k + 1], i) == if orders[k].replica == i then Some(orders[k]) else OrderBy(orders[..k], i)
  {
    assert orders[..k + 1][..k] == orders[..k];
  }

  lemma {:induction false} NoneBefore(orders: seq<LocalOrder>, k: nat, i: Replica)
    requires k <= |orders| && forall j :: 0 <= j < k ==> orders[j].replica != i
    ensures OrderBy(orders[..k], i) == None
  {
    if k > 0 {
      NoneBefore(orders, k - 1, i);
      OrderBySnoc(orders, k - 1, i);
    }
  }

  lemma {:induction false} AdmitAllAgrees(p: Params, s: Evidence, orders: seq<LocalOrder>, i: Replica, log: seq<TxID>,
                                          k: nat)
    requires Sound(p, s) && Counted(s) && Increasing(orders) && StillAppend(p, s, orders, 0)
    requires LogAgrees(s, i, log) && k <= |orders|
    ensures LogAgrees(AdmitAll(s, orders[..k]), i, log + ChunkOf(orders[..k], i))
    decreases k
  {
    hide Sound, Counted, LogAgrees, AdmitOne, Appends, AdmitAll;
    if k == 0 {
      NoneBefore(orders, 0, i);
      AdmitNone(s, orders);
      assert log + [] == log;
    } else {
      AdmitAllAgrees(p, s, orders, i, log, k - 1);
      AdmitAllSound(p, s, orders, k - 1);
      AdmitAllSnoc(s, orders, k - 1);
      OrderBySnoc(orders, k - 1, i);
      var t, o := AdmitAll(s, orders[..k - 1]), orders[k - 1];
      if o.replica == i {
        NoneBefore(orders, k - 1, i);
        assert log + [] == log;
        AppendsAt(p, t, orders, k - 1);
        AgreesOwn(p, t, o, log);
      } else {
        AgreesOther(t, o, i, log + ChunkOf(orders[..k - 1], i));
      }
    }
  }

  lemma AdmitNone(s: Evidence, orders: seq<LocalOrder>)
    ensures AdmitAll(s, orders[..0]) == s
  {
    assert orders[..0] == [];
  }

  lemma OpenedAgrees(s: Evidence, orders: seq<LocalOrder>, epoch: nat, i: Replica, log: seq<TxID>)
    requires LogAgrees(s, i, log)
    ensures LogAgrees(Opened(s, orders, epoch), i, log)
  {
  }

  lemma IngestOnlyClassifies(p: Params, s: Evidence, orders: seq<LocalOrder>, epoch: nat, i: Replica, log: seq<TxID>)
    requires LogAgrees(AdmitAll(Opened(s, orders, epoch), orders), i, log)
    ensures LogAgrees(Ingest(p, s, orders, epoch), i, log)
  {
    hide AdmitAll, Places, ClassesOf;
  }

  lemma IngestAgrees(c: Context, s: Evidence, latest: Digest, f: Fragment, i: Replica, log: seq<TxID>)
    requires Valid(c.cfg.params, s) && Acceptable(c, s, latest, f) && LogAgrees(s, i, log)
    ensures LogAgrees(Pre(c, s, f), i, log + ChunkOf(f.evidence, i))
  {
    hide *;
    var t := Opened(s, f.evidence, f.epoch);
    AcceptableEvidence(c, s, latest, f);
    ValidParts(c.cfg.params, s);
    AcceptsSound(c.cfg, s, f.evidence, f.epoch, 0);
    AdmitNone(t, f.evidence);
    AcceptsIncreasing(c.cfg, s, f.evidence, f.epoch, f.fragmentSeq);
    OpenedAgrees(s, f.evidence, f.epoch, i, log);
    AdmitAllAgrees(c.cfg.params, t, f.evidence, i, log, |f.evidence|);
    assert f.evidence[..|f.evidence|] == f.evidence;
    IngestOnlyClassifies(c.cfg.params, s, f.evidence, f.epoch, i, log + ChunkOf(f.evidence, i));
    PreIs(c, s, f);
  }

  lemma AcceptsIncreasing(cfg: Config, s: Evidence, orders: seq<LocalOrder>, epoch: nat, fragmentSeq: nat)
    requires Accepts(cfg, s, orders, epoch, fragmentSeq)
    ensures Increasing(orders)
  {
  }

  lemma PlacesShrink(done: map<TxID, DoneRecord>, records: map<TxID, DoneRecord>, pos: map<TxID, nat>, log: seq<TxID>)
    requires Places(done, pos, log)
    ensures Places(done + records, pos - records.Keys, log)
  {
  }

  lemma FinalizeAgrees(s: Evidence, batches: seq<FairnessBatch>, part: seq<SCCClaim>, i: Replica, log: seq<TxID>)
    requires LogAgrees(s, i, log)
    ensures LogAgrees(Finalized(s, batches, part), i, log)
  {
    RecordKeys(s.fragmentSeq, batches);
    hide AllRecords, Released, Places;
    PlacesShrink(s.done, AllRecords(s.fragmentSeq, batches), PosOf(s, i), log);
    assert PosOf(Finalized(s, batches, part), i) == PosOf(s, i) - Released(batches);
  }

  /** In every reachable state, replica `i`'s positions are the places of its admitted log. */
  lemma {:induction false} RunLogAgrees(c: Context, h: seq<Fragment>, i: Replica)
    requires c.cfg.params.Ok() && Run(c, h)
    ensures LogAgrees(StateAfter(c, h), i, AdmittedLog(h, i))
  {
    hide Valid, Acceptable, Pre, ChunkOf;
    if h == [] {
      assert PosOf(Genesis(c.epoch, c.cfg.params.n, c.genesisState), i) == map[];
    } else {
      hide LogAgrees, Finalized, Genesis;
      var before, f := h[..|h| - 1], h[|h| - 1];
      RunLogAgrees(c, before, i);
      RunValid(c, before);
      IngestAgrees(c, StateAfter(c, before), LatestAfter(c, before), f, i, AdmittedLog(before, i));
      FinalizeAgrees(Pre(c, StateAfter(c, before), f), BatchesOf(f), PartOf(f), i, AdmittedLog(h, i));
    }
  }

  // ----- Heads commit to logs

  /** The non-empty extensions of replica `i`. */
  function ChunksOf(h: seq<Fragment>, i: Replica): seq<seq<TxID>> {
    if h == [] then []
    else
      var rest, chunk := ChunksOf(h[..|h| - 1], i), ChunkOf(h[|h| - 1].evidence, i);
      if chunk == [] then rest else rest + [chunk]
  }

  function Flatten(chunks: seq<seq<TxID>>): seq<TxID> {
    if chunks == [] then [] else Flatten(chunks[..|chunks| - 1]) + chunks[|chunks| - 1]
  }

  function ChainHead(chunks: seq<seq<TxID>>): Digest {
    if chunks == [] then ZERO_DIGEST
    else
      var rest, last := chunks[..|chunks| - 1], chunks[|chunks| - 1];
      LogHead(ChainHead(rest), |Flatten(rest)|, |Flatten(rest)| + |last|, last)
  }

  lemma {:induction false} LogIsFlat(h: seq<Fragment>, i: Replica)
    ensures AdmittedLog(h, i) == Flatten(ChunksOf(h, i))
    ensures forall k :: 0 <= k < |ChunksOf(h, i)| ==> ChunksOf(h, i)[k] != []
  {
    hide ChunkOf;
    if h != [] {
      LogIsFlat(h[..|h| - 1], i);
      var rest, chunk := ChunksOf(h[..|h| - 1], i), ChunkOf(h[|h| - 1].evidence, i);
      assert (rest + [chunk])[..|rest|] == rest;
    }
  }

  lemma {:induction false} AdmitAllHead(s: Evidence, orders: seq<LocalOrder>, i: Replica)
    ensures HeadOf(AdmitAll(s, orders), i)
         == if OrderBy(orders, i).Some? then OrderBy(orders, i).value.newHead else HeadOf(s, i)
    ensures OrderBy(orders, i).Some? ==> OrderBy(orders, i).value in orders
  {
    if orders != [] {
      AdmitAllHead(s, orders[..|orders| - 1], i);
      hide AdmitAll, VisibilityOf, WeightsOf, NewPositions, FreshIds;
    }
  }

  lemma PostHead(c: Context, s: Evidence, f: Fragment, i: Replica)
    ensures HeadOf(Post(c, s, f), i)
         == if OrderBy(f.evidence, i).Some? then OrderBy(f.evidence, i).value.newHead else HeadOf(s, i)
    ensures OrderBy(f.evidence, i).Some? ==> OrderBy(f.evidence, i).value in f.evidence
  {
    AdmitAllHead(Opened(s, f.evidence, f.epoch), f.evidence, i);
    hide AdmitAll, OrderBy, ClassesOf, AllRecords;
  }

  lemma OrderChecked(c: Context, s: Evidence, latest: Digest, f: Fragment, o: LocalOrder)
    requires Acceptable(c, s, latest, f) && o in f.evidence
    ensures o.prevHead == HeadOf(s, o.replica) && o.newHead == LocalOrderHead(o)
    ensures o.prevPosition == Count(s.logSeq, o.replica) && o.newPosition == o.prevPosition + |o.txs|
  {
    var j :| 0 <= j < |f.evidence| && f.evidence[j] == o;
    assert AcceptsOrder(c.cfg, s, f.evidence[j], f.epoch, f.fragmentSeq);
  }

  /** The committed head of a replica is the chain over its non-empty extensions; empty
      ones leave no trace. */
  lemma {:induction false} HeadIsChain(c: Context, h: seq<Fragment>, i: Replica)
    requires c.cfg.params.Ok() && Run(c, h)
    ensures HeadOf(StateAfter(c, h), i) == ChainHead(ChunksOf(h, i))
  {
    hide *;
    RunParts(c, h);
    HeadStarts(c, i);
    if h != [] {
      var before, f := h[..|h| - 1], h[|h| - 1];
      var s := StateAfter(c, before);
      HeadIsChain(c, before, i);
      PostHead(c, s, f, i);
      OrderFound(f.evidence, i);
      if OrderBy(f.evidence, i).Some? {
        OrderChecked(c, s, LatestAfter(c, before), f, OrderBy(f.evidence, i).value);
        LogLength(c, before, i);
      }
      ChainStep(h, i, HeadOf(s, i));
    }
  }

  lemma HeadStarts(c: Context, i: Replica)
    ensures HeadOf(Genesis(c.epoch, c.cfg.params.n, c.genesisState), i) == ChainHead(ChunksOf([], i))
  {
  }

  lemma ChainHeadSnoc(rest: seq<seq<TxID>>, chunk: seq<TxID>)
    ensures ChainHead(rest + [chunk]) == LogHead(ChainHead(rest), |Flatten(rest)|, |Flatten(rest)| + |chunk|, chunk)
  {
    assert (rest + [chunk])[..|rest|] == rest;
  }

  lemma ChunksSnoc(h: seq<Fragment>, i: Replica)
    requires h != []
    ensures var rest, chunk := ChunksOf(h[..|h| - 1], i), ChunkOf(h[|h| - 1].evidence, i);
      ChunksOf(h, i) == if chunk == [] then rest else rest + [chunk]
  {
    hide ChunkOf;
  }

  lemma ChainStep(h: seq<Fragment>, i: Replica, head: Digest)
    requires h != [] && head == ChainHead(ChunksOf(h[..|h| - 1], i))
    requires var o := OrderBy(h[|h| - 1].evidence, i);
      o.Some? ==> o.value.prevHead == head && o.value.prevPosition == |Flatten(ChunksOf(h[..|h| - 1], i))|
                  && o.value.newPosition == o.value.prevPosition + |o.value.txs|
    ensures var o := OrderBy(h[|h| - 1].evidence, i);
      ChainHead(ChunksOf(h, i)) == if o.Some? then LocalOrderHead(o.value) else head
  {
    hide OrderBy, ChunksOf, ChainHead, Flatten;
    var rest, chunk := ChunksOf(h[..|h| - 1], i), ChunkOf(h[|h| - 1].evidence, i);
    ChunksSnoc(h, i);
    ChainHeadSnoc(rest, chunk);
  }

  lemma LogLength(c: Context, h: seq<Fragment>, i: Replica)
    requires c.cfg.params.Ok() && Run(c, h)
    ensures Count(StateAfter(c, h).logSeq, i) == |Flatten(ChunksOf(h, i))|
  {
    RunLogAgrees(c, h, i);
    LogIsFlat(h, i);
  }

  lemma {:induction false} ChainBinds(a: seq<seq<TxID>>, b: seq<seq<TxID>>)
    requires ChainHead(a) == ChainHead(b)
    ensures a == b
    decreases |a|
  {
    if a != [] {
      assert b != [];
      ChainBinds(a[..|a| - 1], b[..|b| - 1]);
      assert a == a[..|a| - 1] + [a[|a| - 1]] && b == b[..|b| - 1] + [b[|b| - 1]];
    } else {
      assert b == [];
    }
  }

  /** Hash-chain binding: runs that reach the same head for a replica admitted the same
      ids from it, cut into the same non-empty extensions. */
  lemma HeadBindsLog(c1: Context, h1: seq<Fragment>, c2: Context, h2: seq<Fragment>, i: Replica)
    requires c1.cfg.params.Ok() && c2.cfg.params.Ok() && Run(c1, h1) && Run(c2, h2)
    requires HeadOf(StateAfter(c1, h1), i) == HeadOf(StateAfter(c2, h2), i)
    ensures ChunksOf(h1, i) == ChunksOf(h2, i) && AdmittedLog(h1, i) == AdmittedLog(h2, i)
    ensures Count(StateAfter(c1, h1).logSeq, i) == Count(StateAfter(c2, h2).logSeq, i)
  {
    HeadIsChain(c1, h1, i);
    HeadIsChain(c2, h2, i);
    ChainBinds(ChunksOf(h1, i), ChunksOf(h2, i));
    LogIsFlat(h1, i);
    LogIsFlat(h2, i);
    LogLength(c1, h1, i);
    LogLength(c2, h2, i);
  }
}

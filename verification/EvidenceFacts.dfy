/** What every step on the evidence state keeps: the caches stay equal to their
    position-only definitions, and the incremental updates are exactly the change. */
module EvidenceFacts {
  import opened Types
  import opened Collections
  import opened FairOrder
  import opened EvidenceSpec

  lemma GenesisValid(p: Params, epoch: nat, stateId: Digest)
    requires p.Ok()
    ensures Valid(p, Genesis(epoch, p.n, stateId))
  {
    hide *;
    var s := Genesis(epoch, p.n, stateId);
    GenesisFields(p, epoch, stateId);
    SoundIs(p, s);
    ValidIs(p, s);
  }

  lemma GenesisFields(p: Params, epoch: nat, stateId: Digest)
    ensures var s := Genesis(epoch, p.n, stateId);
      && s.pos.Keys == Replicas(p.n) && s.live == Positioned(s.pos) && s.live == {} && s.done == map[]
      && s.txRef == SelfRefs(s.live) && AllLogs(s.pos, s.logSeq) && s.doneRoot == DoneSet(s.done)
      && Counted(s) && Classified(p, s)
  {
    NobodyPositioned(p.n);
    NothingCounted(p, Genesis(epoch, p.n, stateId).pos);
    hide Replicas, Positioned, VisibilityOf, WeightsOf, ClassesOf;
  }

  lemma NobodyPositioned(n: nat)
    ensures Positioned(map i | i in Replicas(n) :: map[]) == {}
  {
    hide Replicas;
  }

  lemma NothingCounted(p: Params, pos: Positions)
    ensures VisibilityOf({}, pos) == map[] && WeightsOf({}, pos) == map[] && ClassesOf(p, {}, pos) == map[]
  {
    assert EdgesOver({}) == {};
  }

  // ----- One extension

  /** The pairs ordered by `m` that touch a member of `novel`. */
  ghost function NewPairs(m: map<TxID, nat>, novel: set<TxID>): set<Edge> {
    set e | e in EdgesOver(m.Keys) && Precedes(m, e) && (e.src in novel || e.dst in novel)
  }

  ghost function Bump<K(!new)>(m: map<K, nat>, up: set<K>): map<K, nat> {
    map k | k in m.Keys + up :: Count(m, k) + (if k in up then 1 else 0)
  }

  lemma AppendedLog(m: map<TxID, nat>, done: map<TxID, DoneRecord>, o: LocalOrder)
    requires OneLog(m, o.prevPosition) && Distinct(o.txs) && FreshIds(done, o) !! m.Keys
    ensures OneLog(m + NewPositions(done, o), o.prevPosition + |o.txs|)
  {
    var add := NewPositions(done, o);
    NewPositionKeys(done, o);
    forall u | u in add
      ensures o.prevPosition < add[u] <= o.prevPosition + |o.txs| && o.txs[add[u] - o.prevPosition - 1] == u
    {
    }
    hide NewPositions, FreshIds, Distinct;
  }

  lemma ViewersAppend(pos: Positions, i: Replica, add: map<TxID, nat>, u: TxID)
    requires i in pos && pos[i].Keys !! add.Keys
    ensures |Viewers(Extend(pos, i, add), u)| == |Viewers(pos, u)| + (if u in add then 1 else 0)
  {
    var after := Viewers(Extend(pos, i, add), u);
    if u in add {
      assert i !in Viewers(pos, u);
      assert after == Viewers(pos, u) + {i};
    } else {
      assert after == Viewers(pos, u);
    }
  }

  lemma BackersAppend(pos: Positions, i: Replica, add: map<TxID, nat>, e: Edge)
    requires i in pos && pos[i].Keys !! add.Keys
    ensures |Backers(Extend(pos, i, add), e)|
         == |Backers(pos, e)| + (if e in NewPairs(pos[i] + add, add.Keys) then 1 else 0)
  {
    var after := Backers(Extend(pos, i, add), e);
    if e in NewPairs(pos[i] + add, add.Keys) {
      assert i !in Backers(pos, e);
      assert after == Backers(pos, e) + {i};
    } else {
      assert Precedes(pos[i] + add, e) <==> Precedes(pos[i], e);
      assert after == Backers(pos, e);
    }
  }

  lemma PositionedAppend(pos: Positions, i: Replica, add: map<TxID, nat>)
    requires i in pos
    ensures Positioned(Extend(pos, i, add)) == Positioned(pos) + add.Keys
  {
    var after := Extend(pos, i, add);
    forall u | u in Positioned(pos) ensures u in Positioned(after) {
      var j :| j in pos && u in pos[j];
      assert j in after && u in after[j];
    }
    forall u | u in add ensures u in Positioned(after) {
      assert i in after && u in after[i];
    }
  }

  /** To be the bumped map is to have its keys and its counts. */
  lemma IsBump<K(!new)>(m: map<K, nat>, up: set<K>, bumped: map<K, nat>)
    requires forall k :: k in bumped <==> k in m || k in up
    requires forall k :: k in bumped ==> bumped[k] == Count(m, k) + (if k in up then 1 else 0)
    ensures bumped == Bump(m, up)
  {
  }

  lemma VisibilityAt(pos: Positions, u: TxID)
    ensures Count(VisibilityOf(Positioned(pos), pos), u) == |Viewers(pos, u)|
  {
    if u !in Positioned(pos) {
      assert Viewers(pos, u) == {};
    }
  }

  lemma VisibilityAppend(pos: Positions, i: Replica, add: map<TxID, nat>)
    requires i in pos && pos[i].Keys !! add.Keys
    ensures VisibilityOf(Positioned(pos) + add.Keys, Extend(pos, i, add))
         == Bump(VisibilityOf(Positioned(pos), pos), add.Keys)
  {
    var v := VisibilityOf(Positioned(pos), pos);
    var v' := VisibilityOf(Positioned(pos) + add.Keys, Extend(pos, i, add));
    forall u | u in v' ensures v'[u] == Count(v, u) + (if u in add.Keys then 1 else 0) {
      ViewersAppend(pos, i, add, u);
      VisibilityAt(pos, u);
    }
    IsBump(v, add.Keys, v');
  }

  lemma WeightAt(pos: Positions, e: Edge)
    ensures e in WeightsOf(Positioned(pos), pos) <==> Backers(pos, e) != {}
    ensures Count(WeightsOf(Positioned(pos), pos), e) == |Backers(pos, e)|
  {
    if Backers(pos, e) != {} {
      var i :| i in Backers(pos, e);
      assert e.src in Positioned(pos) && e.dst in Positioned(pos);
    }
  }

  lemma WeightAppendAt(pos: Positions, i: Replica, add: map<TxID, nat>, e: Edge)
    requires i in pos && pos[i].Keys !! add.Keys
    ensures var w := WeightsOf(Positioned(pos), pos);
      var w' := WeightsOf(Positioned(Extend(pos, i, add)), Extend(pos, i, add));
      var up := NewPairs(pos[i] + add, add.Keys);
      && (e in w' <==> e in w || e in up)
      && Count(w', e) == Count(w, e) + (if e in up then 1 else 0)
  {
    WeightAt(pos, e);
    WeightAt(Extend(pos, i, add), e);
    BackersAppend(pos, i, add, e);
  }

  lemma WeightsAppend(pos: Positions, i: Replica, add: map<TxID, nat>)
    requires i in pos && pos[i].Keys !! add.Keys
    ensures WeightsOf(Positioned(Extend(pos, i, add)), Extend(pos, i, add))
         == Bump(WeightsOf(Positioned(pos), pos), NewPairs(pos[i] + add, add.Keys))
  {
    var w, w' := WeightsOf(Positioned(pos), pos), WeightsOf(Positioned(Extend(pos, i, add)), Extend(pos, i, add));
    var up := NewPairs(pos[i] + add, add.Keys);
    forall e: Edge
      ensures e in w' <==> e in w || e in up
      ensures Count(w', e) == Count(w, e) + (if e in up then 1 else 0)
    {
      WeightAppendAt(pos, i, add, e);
    }
    IsBump(w, up, w');
  }

  /** What an accepted extension guarantees about the state it is applied to. */
  ghost predicate Appends(p: Params, s: Evidence, o: LocalOrder) {
    && o.replica < p.n
    && o.prevPosition == Count(s.logSeq, o.replica)
    && o.newPosition == o.prevPosition + |o.txs|
    && Distinct(o.txs)
    && FreshIds(s.done, o) !! PosOf(s, o.replica).Keys
  }

  lemma NewPositionKeys(done: map<TxID, DoneRecord>, o: LocalOrder)
    ensures NewPositions(done, o).Keys == FreshIds(done, o)
  {
  }

  /** New-old and new-new pairs are all an extension changes. */
  lemma AdmitOneIncrement(s: Evidence, o: LocalOrder)
    requires s.live == Positioned(s.pos) && Counted(s)
    requires o.replica in s.pos && FreshIds(s.done, o) !! s.pos[o.replica].Keys
    ensures AdmitOne(s, o).visibility == Bump(s.visibility, FreshIds(s.done, o))
    ensures AdmitOne(s, o).weights
         == Bump(s.weights, NewPairs(s.pos[o.replica] + NewPositions(s.done, o), FreshIds(s.done, o)))
  {
    var add := NewPositions(s.done, o);
    NewPositionKeys(s.done, o);
    VisibilityAppend(s.pos, o.replica, add);
    WeightsAppend(s.pos, o.replica, add);
    PositionedAppend(s.pos, o.replica, add);
  }

  lemma LogsAppend(s: Evidence, o: LocalOrder)
    requires AllLogs(s.pos, s.logSeq) && o.replica in s.pos && Distinct(o.txs)
    requires o.prevPosition == Count(s.logSeq, o.replica) && o.newPosition == o.prevPosition + |o.txs|
    requires FreshIds(s.done, o) !! s.pos[o.replica].Keys
    ensures AllLogs(Extend(s.pos, o.replica, NewPositions(s.done, o)), s.logSeq[o.replica := o.newPosition])
  {
    AppendedLog(s.pos[o.replica], s.done, o);
    var pos, logSeq := Extend(s.pos, o.replica, NewPositions(s.done, o)), s.logSeq[o.replica := o.newPosition];
    forall i | i in pos ensures OneLog(pos[i], Count(logSeq, i)) {
      if i != o.replica {
        assert OneLog(s.pos[i], Count(s.logSeq, i));
      }
    }
  }

  lemma SelfRefsJoin(a: set<TxID>, b: set<TxID>)
    ensures SelfRefs(a) + SelfRefs(b) == SelfRefs(a + b)
  {
  }

  lemma SelfRefsDrop(a: set<TxID>, gone: set<TxID>)
    ensures SelfRefs(a) - gone == SelfRefs(a - gone)
  {
  }

  lemma AdmitOneLive(s: Evidence, o: LocalOrder)
    requires s.live == Positioned(s.pos) && o.replica in s.pos && s.live !! s.done.Keys
    requires s.txRef == SelfRefs(s.live)
    ensures AdmitOne(s, o).pos.Keys == s.pos.Keys
    ensures AdmitOne(s, o).live == Positioned(AdmitOne(s, o).pos)
    ensures AdmitOne(s, o).live !! s.done.Keys
    ensures AdmitOne(s, o).txRef == SelfRefs(AdmitOne(s, o).live)
  {
    NewPositionKeys(s.done, o);
    PositionedAppend(s.pos, o.replica, NewPositions(s.done, o));
    SelfRefsJoin(s.live, FreshIds(s.done, o));
  }

  lemma AdmitOneSound(p: Params, s: Evidence, o: LocalOrder)
    requires Sound(p, s) && Appends(p, s, o)
    ensures Sound(p, AdmitOne(s, o)) && Counted(AdmitOne(s, o))
  {
    AdmitOneLive(s, o);
    LogsAppend(s, o);
  }

  // ----- A batch

  lemma AcceptedAppends(cfg: Config, s: Evidence, o: LocalOrder, epoch: nat, fragmentSeq: nat)
    requires AcceptsOrder(cfg, s, o, epoch, fragmentSeq)
    ensures Appends(cfg.params, s, o)
  {
    assert forall id :: id in o.txs ==> AcceptsId(s, o.replica, id);
  }

  lemma AppendsKept(p: Params, s: Evidence, o: LocalOrder, q: LocalOrder)
    requires Appends(p, s, q) && o.replica != q.replica
    ensures Appends(p, AdmitOne(s, o), q)
  {
  }

  ghost predicate StillAppend(p: Params, s: Evidence, orders: seq<LocalOrder>, k: nat) {
    forall j :: k <= j < |orders| ==> Appends(p, s, orders[j])
  }

  lemma StillAppendAfter(p: Params, s: Evidence, orders: seq<LocalOrder>, k: nat)
    requires Increasing(orders) && k < |orders| && StillAppend(p, s, orders, k)
    ensures StillAppend(p, AdmitOne(s, orders[k]), orders, k + 1)
  {
    forall j | k + 1 <= j < |orders| ensures Appends(p, AdmitOne(s, orders[k]), orders[j]) {
      AppendsKept(p, s, orders[k], orders[j]);
    }
  }

  lemma AdmitAllSnoc(s: Evidence, orders: seq<LocalOrder>, k: nat)
    requires k < |orders|
    ensures AdmitAll(s, orders[..k + 1]) == AdmitOne(AdmitAll(s, orders[..k]), orders[k])
  {
    assert orders[..k + 1][..k] == orders[..k];
  }

  lemma {:induction false} AdmitAllSound(p: Params, s: Evidence, orders: seq<LocalOrder>, k: nat)
    requires Sound(p, s) && Counted(s)
    requires Increasing(orders) && StillAppend(p, s, orders, 0)
    requires k <= |orders|
    ensures Sound(p, AdmitAll(s, orders[..k])) && Counted(AdmitAll(s, orders[..k]))
    ensures AdmitAll(s, orders[..k]).done == s.done
    ensures StillAppend(p, AdmitAll(s, orders[..k]), orders, k)
    decreases k
  {
    if k == 0 {
      assert orders[..0] == [];
    } else {
      AdmitAllSound(p, s, orders, k - 1);
      AdmitAllSnoc(s, orders, k - 1);
      AdmitOneSound(p, AdmitAll(s, orders[..k - 1]), orders[k - 1]);
      StillAppendAfter(p, AdmitAll(s, orders[..k - 1]), orders, k - 1);
    }
  }

  lemma AcceptsSound(cfg: Config, s: Evidence, orders: seq<LocalOrder>, epoch: nat, k: nat)
    requires Sound(cfg.params, s) && Counted(s) && Accepts(cfg, s, orders, epoch, s.fragmentSeq + 1)
    requires k <= |orders|
    ensures var t := AdmitAll(Opened(s, orders, epoch), orders[..k]);
      Sound(cfg.params, t) && Counted(t) && t.done == s.done && StillAppend(cfg.params, t, orders, k)
  {
    forall j | 0 <= j < |orders| ensures Appends(cfg.params, Opened(s, orders, epoch), orders[j]) {
      AcceptedAppends(cfg, s, orders[j], epoch, s.fragmentSeq + 1);
    }
    AdmitAllSound(cfg.params, Opened(s, orders, epoch), orders, k);
  }

  /** Cache correctness is kept by every accepted batch. */
  lemma IngestValid(cfg: Config, s: Evidence, orders: seq<LocalOrder>, epoch: nat)
    requires Valid(cfg.params, s) && Accepts(cfg, s, orders, epoch, s.fragmentSeq + 1)
    ensures Valid(cfg.params, Ingest(cfg.params, s, orders, epoch))
  {
    AcceptsSound(cfg, s, orders, epoch, |orders|);
    assert orders[..|orders|] == orders;
  }

  // ----- Finalization

  lemma {:induction false} RecordKeys(fragmentSeq: nat, batches: seq<FairnessBatch>)
    ensures AllRecords(fragmentSeq, batches).Keys == Released(batches)
  {
    if batches != [] {
      var rest, last := batches[..|batches| - 1], batches[|batches| - 1];
      RecordKeys(fragmentSeq, rest);
      ReleasedSnoc(batches);
    }
  }

  lemma ReleasedSnoc(batches: seq<FairnessBatch>)
    requires batches != []
    ensures Released(batches) == Released(batches[..|batches| - 1]) + Elems(batches[|batches| - 1].txs)
  {
    var rest, last := batches[..|batches| - 1], batches[|batches| - 1];
    forall u | u in Released(rest) ensures u in Released(batches) {
      var j :| 0 <= j < |rest| && u in rest[j].txs;
      assert u in batches[j].txs;
    }
    forall u | u in Released(batches) ensures u in Released(rest) + Elems(last.txs) {
      var j :| 0 <= j < |batches| && u in batches[j].txs;
      assert j < |rest| ==> u in rest[j].txs;
    }
  }

  lemma ForgetPositioned(pos: Positions, gone: set<TxID>)
    ensures Positioned(Forget(pos, gone)) == Positioned(pos) - gone
  {
    var after := Forget(pos, gone);
    forall u | u in Positioned(pos) - gone ensures u in Positioned(after) {
      var i :| i in pos && u in pos[i];
      assert i in after && u in after[i];
    }
  }

  lemma ForgetViewers(pos: Positions, gone: set<TxID>, u: TxID)
    requires u !in gone
    ensures Viewers(Forget(pos, gone), u) == Viewers(pos, u)
  {
  }

  lemma ForgetBackers(pos: Positions, gone: set<TxID>, e: Edge)
    requires e.src !in gone && e.dst !in gone
    ensures Backers(Forget(pos, gone), e) == Backers(pos, e)
  {
    forall i | i in pos ensures Precedes(Forget(pos, gone)[i], e) <==> Precedes(pos[i], e) {
    }
  }

  lemma ForgetCounts(p: Params, pos: Positions, live: set<TxID>, gone: set<TxID>)
    ensures VisibilityOf(live - gone, Forget(pos, gone)) == VisibilityOf(live, pos) - gone
    ensures ClassesOf(p, live - gone, Forget(pos, gone)) == ClassesOf(p, live, pos) - gone
  {
    forall u | u !in gone ensures Viewers(Forget(pos, gone), u) == Viewers(pos, u) {
      ForgetViewers(pos, gone, u);
    }
  }

  lemma ForgetWeightsOf(pos: Positions, gone: set<TxID>)
    ensures WeightsOf(Positioned(pos) - gone, Forget(pos, gone)) == ForgetWeights(WeightsOf(Positioned(pos), pos), gone)
  {
    ForgetPositioned(pos, gone);
    var w, w' := WeightsOf(Positioned(pos), pos), WeightsOf(Positioned(pos) - gone, Forget(pos, gone));
    forall e: Edge
      ensures e in w' <==> e in ForgetWeights(w, gone)
      ensures e in w' ==> w'[e] == w[e]
    {
      if e.src !in gone && e.dst !in gone {
        WeightAt(pos, e);
        WeightAt(Forget(pos, gone), e);
        ForgetBackers(pos, gone, e);
      }
    }
  }

  lemma ForgetLogs(pos: Positions, logSeq: map<Replica, nat>, gone: set<TxID>)
    requires AllLogs(pos, logSeq)
    ensures AllLogs(Forget(pos, gone), logSeq)
  {
    forall i | i in pos ensures OneLog(Forget(pos, gone)[i], Count(logSeq, i)) {
      assert OneLog(pos[i], Count(logSeq, i));
    }
  }

  /** Finalizing deletes selectively: what stays keeps every count and weight, and
      the caches are again exactly what the remaining positions say. */
  lemma FinalizedValid(p: Params, s: Evidence, batches: seq<FairnessBatch>, part: seq<SCCClaim>)
    requires Valid(p, s)
    ensures Valid(p, Finalized(s, batches, part))
  {
    hide *;
    ValidIs(p, s);
    FinalizedSound(p, s, batches, part);
    FinalizedCaches(p, s, batches, part);
    ValidIs(p, Finalized(s, batches, part));
  }

  lemma ValidIs(p: Params, s: Evidence)
    ensures Valid(p, s) <==> Sound(p, s) && Counted(s) && Classified(p, s)
    ensures Sound(p, s) ==> s.live == Positioned(s.pos)
  {
  }

  lemma FinalizedSound(p: Params, s: Evidence, batches: seq<FairnessBatch>, part: seq<SCCClaim>)
    requires Sound(p, s)
    ensures Sound(p, Finalized(s, batches, part))
  {
    hide *;
    var gone, t := Released(batches), Finalized(s, batches, part);
    SoundIs(p, s);
    SoundIs(p, t);
    FinalizedFields(s, batches, part);
    SelfRefsDrop(s.live, gone);
    ForgetPositioned(s.pos, gone);
    ForgetKeys(s.pos, gone);
    ForgetLogs(s.pos, s.logSeq, gone);
  }

  lemma SoundIs(p: Params, s: Evidence)
    ensures Sound(p, s) <==> s.pos.Keys == Replicas(p.n) && s.live == Positioned(s.pos) && s.live !! s.done.Keys
                             && s.txRef == SelfRefs(s.live) && AllLogs(s.pos, s.logSeq) && s.doneRoot == DoneSet(s.done)
  {
  }

  lemma ForgetKeys(pos: Positions, gone: set<TxID>)
    ensures Forget(pos, gone).Keys == pos.Keys
  {
  }

  lemma FinalizedFields(s: Evidence, batches: seq<FairnessBatch>, part: seq<SCCClaim>)
    ensures var t, gone := Finalized(s, batches, part), Released(batches);
      && t.pos == Forget(s.pos, gone) && t.live == s.live - gone && t.txRef == s.txRef - gone && t.logSeq == s.logSeq
      && t.done.Keys == s.done.Keys + gone && t.doneRoot == DoneSet(t.done)
  {
    RecordKeys(s.fragmentSeq, batches);
    hide AllRecords, Released;
  }

  lemma FinalizedCaches(p: Params, s: Evidence, batches: seq<FairnessBatch>, part: seq<SCCClaim>)
    requires s.live == Positioned(s.pos) && Counted(s) && Classified(p, s)
    ensures Counted(Finalized(s, batches, part)) && Classified(p, Finalized(s, batches, part))
  {
    var gone := Released(batches);
    ForgetCounts(p, s.pos, s.live, gone);
    ForgetWeightsOf(s.pos, gone);
    hide VisibilityOf, WeightsOf, ClassesOf, Forget, ForgetWeights, Released, AllRecords, Positioned;
  }

  lemma ForgottenEdges(s: Evidence, batches: seq<FairnessBatch>, part: seq<SCCClaim>, threshold: int, e: Edge)
    requires e.src !in Released(batches) && e.dst !in Released(batches)
    ensures HasEdge(Finalized(s, batches, part), threshold, e.src, e.dst) == HasEdge(s, threshold, e.src, e.dst)
  {
  }

  /** The active graph after finalizing is the old one without the released ids. */
  lemma FinalizedGraph(p: Params, s: Evidence, batches: seq<FairnessBatch>, part: seq<SCCClaim>)
    ensures GraphOf(p, Finalized(s, batches, part)) == Without(GraphOf(p, s), Released(batches))
  {
    var gone := Released(batches);
    var t := Finalized(s, batches, part);
    assert Active(t) == Active(s) - gone;
    forall e: Edge | e.src !in gone && e.dst !in gone
      ensures HasEdge(t, p.EdgeThreshold(), e.src, e.dst) == HasEdge(s, p.EdgeThreshold(), e.src, e.dst)
    {
      ForgottenEdges(s, batches, part, p.EdgeThreshold(), e);
    }
  }

  // ----- Weights against visibility

  /** A weight never exceeds the visibility of either endpoint, and the two directions
      together never exceed it. */
  lemma WeightBound(pos: Positions, e: Edge)
    ensures |Backers(pos, e)| <= |Viewers(pos, e.src)|
    ensures |Backers(pos, e)| + |Backers(pos, Edge(e.dst, e.src))| <= |Viewers(pos, e.dst)|
  {
    var back := Edge(e.dst, e.src);
    SubsetCard(Backers(pos, e), Viewers(pos, e.src));
    assert Backers(pos, e) !! Backers(pos, back);
    assert |Backers(pos, e) + Backers(pos, back)| == |Backers(pos, e)| + |Backers(pos, back)|;
    SubsetCard(Backers(pos, e) + Backers(pos, back), Viewers(pos, e.dst));
  }

  lemma ValidParts(p: Params, s: Evidence)
    requires Valid(p, s)
    ensures Sound(p, s) && Counted(s)
  {
  }
}

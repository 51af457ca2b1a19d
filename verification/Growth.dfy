/** Accepted batches only add: positions, visibility, weights and states never go back. */
module Growth {
  import opened Types
  import opened EvidenceSpec
  import opened EvidenceFacts
  import opened PairFacts

  ghost predicate PosGrew(a: Positions, b: Positions) {
    && (forall u :: |Viewers(a, u)| <= |Viewers(b, u)|)
    && (forall e :: |Backers(a, e)| <= |Backers(b, e)|)
  }

  lemma AppendGrows(pos: Positions, i: Replica, add: map<TxID, nat>)
    requires i in pos && pos[i].Keys !! add.Keys
    ensures PosGrew(pos, Extend(pos, i, add))
  {
    hide Viewers, Backers, NewPairs, Extend;
    forall u ensures |Viewers(pos, u)| <= |Viewers(Extend(pos, i, add), u)| {
      ViewersAppend(pos, i, add, u);
    }
    forall e ensures |Backers(pos, e)| <= |Backers(Extend(pos, i, add), e)| {
      BackersAppend(pos, i, add, e);
    }
  }

  lemma PosGrewTrans(a: Positions, b: Positions, c: Positions)
    requires PosGrew(a, b) && PosGrew(b, c)
    ensures PosGrew(a, c)
  {
    hide Viewers, Backers;
  }

  lemma AdmitOneGrows(t: Evidence, o: LocalOrder)
    requires o.replica in t.pos && FreshIds(t.done, o) !! t.pos[o.replica].Keys
    ensures PosGrew(t.pos, AdmitOne(t, o).pos)
  {
    NewPositionKeys(t.done, o);
    AppendGrows(t.pos, o.replica, NewPositions(t.done, o));
  }

  lemma {:induction false} AdmitAllGrows(cfg: Config, s: Evidence, orders: seq<LocalOrder>, epoch: nat, k: nat)
    requires Valid(cfg.params, s) && Accepts(cfg, s, orders, epoch, s.fragmentSeq + 1) && k <= |orders|
    ensures PosGrew(s.pos, AdmitAll(Opened(s, orders, epoch), orders[..k]).pos)
    decreases k
  {
    hide Sound, Counted, Classified, Accepts, StillAppend, AdmitOne, FreshIds, PosGrew, AdmitAll;
    if k == 0 {
      NothingAdmitted(s, orders, epoch);
    } else {
      AdmitAllGrows(cfg, s, orders, epoch, k - 1);
      var t := AdmitAll(Opened(s, orders, epoch), orders[..k - 1]);
      AcceptsSound(cfg, s, orders, epoch, k - 1);
      AppendsAt(cfg.params, t, orders, k - 1);
      AdmitAllSnoc(Opened(s, orders, epoch), orders, k - 1);
      AdmitOneGrows(t, orders[k - 1]);
      PosGrewTrans(s.pos, t.pos, AdmitOne(t, orders[k - 1]).pos);
    }
  }

  lemma NothingAdmitted(s: Evidence, orders: seq<LocalOrder>, epoch: nat)
    ensures PosGrew(s.pos, AdmitAll(Opened(s, orders, epoch), orders[..0]).pos)
  {
    assert orders[..0] == [];
  }

  /** How a batch moves a valid state: only the touched ids are seen by more replicas. */
  ghost predicate Advances(s: Evidence, t: Evidence, touched: set<TxID>) {
    && PosGrew(s.pos, t.pos)
    && s.live <= t.live <= s.live + touched && touched <= t.live
    && (forall u :: u !in touched ==> |Viewers(t.pos, u)| == |Viewers(s.pos, u)|)
  }

  lemma IngestAdvances(cfg: Config, s: Evidence, orders: seq<LocalOrder>, epoch: nat)
    requires Valid(cfg.params, s) && Accepts(cfg, s, orders, epoch, s.fragmentSeq + 1)
    ensures Advances(s, Ingest(cfg.params, s, orders, epoch), FreshUpto(s.done, orders))
  {
    hide Sound, Counted, Classified, Accepts, StillAppend, AdmitOne, FreshIds, FreshUpto, PosGrew, AdmitAll, ClassesOf,
      Opened;
    assert orders[..|orders|] == orders;
    TracksAll(cfg, s, orders, epoch, |orders|);
    AdmitAllGrows(cfg, s, orders, epoch, |orders|);
  }

  // ----- States

  function Rank(st: TxState): int {
    match st
    case Solid => 2
    case Shaded => 1
    case Blank => 0
    case Unset => 0
  }

  /** Blank to Shaded to Solid, never back. */
  lemma StateAdvances(p: Params, s: Evidence, t: Evidence, touched: set<TxID>, u: TxID)
    requires p.Ok() && Classified(p, s) && Classified(p, t) && Advances(s, t, touched)
    ensures u in s.live ==> Rank(StateOf(s, u)) <= Rank(StateOf(t, u))
    ensures u !in touched ==> StateOf(s, u) == StateOf(t, u)
  {
    hide Viewers;
    assert |Viewers(s.pos, u)| <= |Viewers(t.pos, u)|;
  }

  lemma ActiveGrows(p: Params, s: Evidence, t: Evidence, touched: set<TxID>)
    requires p.Ok() && Classified(p, s) && Classified(p, t) && Advances(s, t, touched)
    ensures Active(s) <= Active(t)
    ensures forall u :: u in Active(t) && u !in Active(s) ==> u in touched && Activated(s, t, u)
  {
    hide Viewers, PosGrew;
    forall u ensures u in s.live ==> Rank(StateOf(s, u)) <= Rank(StateOf(t, u))
      ensures u !in touched ==> StateOf(s, u) == StateOf(t, u)
    {
      StateAdvances(p, s, t, touched, u);
    }
  }

  lemma WeightsAdvance(s: Evidence, t: Evidence, touched: set<TxID>, e: Edge)
    requires s.live == Positioned(s.pos) && t.live == Positioned(t.pos) && Counted(s) && Counted(t)
    requires Advances(s, t, touched)
    ensures Count(s.weights, e) <= Count(t.weights, e)
    ensures e in t.weights ==> t.weights[e] > 0
    ensures e in s.weights ==> s.weights[e] > 0
  {
    WeightAt(s.pos, e);
    WeightAt(t.pos, e);
    hide Viewers, Backers;
    assert |Backers(s.pos, e)| <= |Backers(t.pos, e)|;
  }
}

/**
  When the commit protocol of module `Hosting` refuses an honest leader: a follower whose
  slot is still held by a candidate that the leader gave up, a follower that lacks content,
  and a follower that was handed a copy of the candidate that does not count. All happen
  in a system of two correct replicas.
 */
module Blocking {
  import opened Types
  import opened Collections
  import opened FairOrder
  import opened EvidenceSpec
  import opened EvidenceFacts
  import opened CertificateSpec
  import opened Chain
  import opened Agreement
  import opened Service
  import opened Hosting

  // ----- How long a slot stays taken

  /** A follower's slot is freed only by the commit of the digest that it holds. */
  lemma SlotKept(c: Context, faulty: set<Replica>, s: System, a: Action, i: Replica)
    requires i in s.nodes && i != c.leader && s.nodes[i].slot.Some?
    ensures var t, d := Next(c, faulty, s, a), FragmentDigest(s.nodes[i].slot.value);
      && i in t.nodes
      && if a == Commit(i, d) && d in s.commits then t.nodes[i] == Install(s.nodes[i], d)
         else t.nodes[i].slot == s.nodes[i].slot && t.nodes[i].history == s.nodes[i].history
  {
    hide FragmentDigest, Acceptable, Available, Hear;
  }

  /** Meanwhile it answers every other candidate with a refusal, whoever sent it. */
  lemma TakenRefuses(c: Context, faulty: set<Replica>, s: System, i: Replica, g: Fragment)
    requires i in s.nodes && s.nodes[i].slot.Some?
    requires FragmentDigest(g) != FragmentDigest(s.nodes[i].slot.value)
    ensures Ack(i, FragmentDigest(g), false) in Next(c, faulty, s, Stray(i, g)).acks
    ensures i != c.leader && g in s.candidates ==>
      Ack(i, FragmentDigest(g), false) in Next(c, faulty, s, Candidate(i, g)).acks
    ensures Next(c, faulty, s, Candidate(i, g)).nodes == s.nodes
  {
    hide FragmentDigest, Acceptable, Available;
    assert s.nodes[i := s.nodes[i]] == s.nodes;
  }

  lemma LeaderGrows(c: Context, faulty: set<Replica>, s: System, a: Action)
    requires c.leader in s.nodes
    ensures c.leader in Next(c, faulty, s, a).nodes
    ensures Digests(NodeOf(s, c.leader).history) <= Digests(NodeOf(Next(c, faulty, s, a), c.leader).history)
  {
    hide FragmentDigest, Acceptable, Available, Hear;
  }

  /** The slot stays taken as long as the leader has not committed that very candidate,
      whatever else the leader constructs and commits and whatever messages arrive. */
  lemma {:induction false} BlockedUntilCommitted(c: Context, faulty: set<Replica>, s: System, actions: seq<Action>,
                                                 i: Replica)
    requires c.cfg.params.Ok() && c.leader < c.cfg.params.n && c.leader !in faulty && Inv(c, faulty, s)
    requires i in s.nodes && i != c.leader && s.nodes[i].slot.Some?
    requires var t := Steps(c, faulty, s, actions);
      FragmentDigest(s.nodes[i].slot.value) !in Digests(NodeOf(t, c.leader).history)
    ensures var t := Steps(c, faulty, s, actions);
      i in t.nodes && t.nodes[i].slot == s.nodes[i].slot && t.nodes[i].history == s.nodes[i].history
  {
    hide Inv, Next, FragmentDigest, Digests;
    if actions != [] {
      var before, a := actions[..|actions| - 1], actions[|actions| - 1];
      var t := Steps(c, faulty, s, before);
      StepsKeep(c, faulty, s, before);
      BothNodes(c, faulty, t, c.leader);
      LeaderGrows(c, faulty, t, a);
      BlockedUntilCommitted(c, faulty, s, before, i);
      SlotKept(c, faulty, t, a, i);
    }
  }

  /** A committed digest stands at the place that its fragment names. */
  lemma NotAmong(c: Context, x: Node, l: Node)
    requires c.cfg.params.Ok() && NodeOk(c, x) && NodeOk(c, l) && x.slot.Some?
    requires |x.history| < |l.history| && FragmentDigest(l.history[|x.history|]) != FragmentDigest(x.slot.value)
    ensures FragmentDigest(x.slot.value) !in Digests(l.history)
  {
    hide *;
    var d := FragmentDigest(x.slot.value);
    if d in Digests(l.history) {
      var k := IndexOf(l.history, d);
      NodeParts(c, x);
      NodeParts(c, l);
      RunAt(c, l.history, k);
      RunValid(c, l.history[..k]);
      RunValid(c, x.history);
      var s, t := StateAfter(c, l.history[..k]), StateAfter(c, x.history);
      AcceptableParts(c, s, LatestAfter(c, l.history[..k]), l.history[k]);
      AcceptableParts(c, t, LatestAfter(c, x.history), x.slot.value);
      SameSequence(x.slot.value, l.history[k]);
      assert false;
    }
  }

  lemma {:induction false} LeaderOnlyGrows(c: Context, faulty: set<Replica>, s: System, actions: seq<Action>)
    requires c.leader in s.nodes
    ensures c.leader in Steps(c, faulty, s, actions).nodes
    ensures Digests(NodeOf(s, c.leader).history) <= Digests(NodeOf(Steps(c, faulty, s, actions), c.leader).history)
  {
    hide Next, Digests;
    if actions != [] {
      LeaderOnlyGrows(c, faulty, s, actions[..|actions| - 1]);
      LeaderGrows(c, faulty, Steps(c, faulty, s, actions[..|actions| - 1]), actions[|actions| - 1]);
    }
  }

  lemma SamePlaceLater(h: seq<Fragment>, g: seq<Fragment>, k: nat)
    requires Digests(h) <= Digests(g) && k < |h|
    ensures k < |g| && FragmentDigest(g[k]) == FragmentDigest(h[k])
  {
    hide FragmentDigest;
    DigestsLength(h);
    DigestsLength(g);
    assert Digests(g)[k] == Digests(h)[k];
  }

  /** That is what happens to a follower at the leader's place in the run when the leader
      commits something else. */
  lemma PassedBy(c: Context, faulty: set<Replica>, s: System, i: Replica)
    requires c.leader in s.nodes && i in s.nodes && i != c.leader && s.nodes[i].slot.Some?
    requires s.gate.Some? && s.gate.value.Reached? && s.nodes[c.leader].slot.Some?
    requires |s.nodes[i].history| == |s.nodes[c.leader].history|
    requires FragmentDigest(s.nodes[c.leader].slot.value) != FragmentDigest(s.nodes[i].slot.value)
    ensures var t := Next(c, faulty, s, Settle);
      && i in t.nodes && t.nodes[i] == s.nodes[i]
      && var x, l := t.nodes[i], NodeOf(t, c.leader);
         |x.history| < |l.history| && FragmentDigest(l.history[|x.history|]) != FragmentDigest(x.slot.value)
  {
    hide FragmentDigest;
  }

  /** Once the leader has committed another fragment in the place of the one that a
      follower holds, nothing that can happen ever frees the slot again: the follower
      commits nothing more. */
  lemma BlockedForever(c: Context, faulty: set<Replica>, s: System, actions: seq<Action>, i: Replica)
    requires c.cfg.params.Ok() && c.leader < c.cfg.params.n && c.leader !in faulty && Inv(c, faulty, s)
    requires i in s.nodes && i != c.leader && s.nodes[i].slot.Some?
    requires var x, l := s.nodes[i], NodeOf(s, c.leader);
      |x.history| < |l.history| && FragmentDigest(l.history[|x.history|]) != FragmentDigest(x.slot.value)
    ensures var t := Steps(c, faulty, s, actions);
      i in t.nodes && t.nodes[i].slot == s.nodes[i].slot && t.nodes[i].history == s.nodes[i].history
  {
    hide *;
    var t := Steps(c, faulty, s, actions);
    BothNodes(c, faulty, s, i);
    StepsKeep(c, faulty, s, actions);
    LeaderOnlyGrows(c, faulty, s, actions);
    BothNodes(c, faulty, t, c.leader);
    SamePlaceLater(NodeOf(s, c.leader).history, NodeOf(t, c.leader).history, |s.nodes[i].history|);
    NotAmong(c, s.nodes[i], NodeOf(t, c.leader));
    BlockedUntilCommitted(c, faulty, s, actions, i);
  }

  /** The run that brings it about: the leader gives up `f` and constructs `g`. */
  lemma AbandonedBlocks(c: Context, faulty: set<Replica>, s: System, i: Replica, f: Fragment, g: Fragment)
    requires c.leader in s.nodes && i in s.nodes && i != c.leader && s.gate.None?
    requires FragmentDigest(f) != FragmentDigest(g)
    requires CanTake(c, s.nodes[c.leader], f) && CanTake(c, s.nodes[c.leader], g)
    requires CanTake(c, s.nodes[i], f) && CanTake(c, s.nodes[i], g)
    ensures var t := Steps(c, faulty, s, [Construct(f), Candidate(i, f), Cancel, Construct(g), Candidate(i, g)]);
      && NodeOf(t, c.leader).slot == Some(g) && NodeOf(t, i).slot == Some(f)
      && NodeOf(t, i).history == s.nodes[i].history
      && Ack(i, FragmentDigest(g), false) in t.acks
  {
    hide FragmentDigest, Acceptable, Available;
    var s1 := Next(c, faulty, s, Construct(f));
    var s2 := Next(c, faulty, s1, Candidate(i, f));
    var s3 := Next(c, faulty, s2, Cancel);
    var s4 := Next(c, faulty, s3, Construct(g));
    FiveSteps(c, faulty, s, Construct(f), Candidate(i, f), Cancel, Construct(g), Candidate(i, g));
    assert s2.nodes[i] == Take(s.nodes[i], f);
    assert s3.nodes[c.leader].slot.None? && s3.nodes[c.leader].history == s.nodes[c.leader].history;
    assert s3.gate.None? && CanTake(c, s3.nodes[c.leader], g);
    assert s4.nodes[c.leader].slot == Some(g) && s4.nodes[i] == s2.nodes[i];
    TakenRefuses(c, faulty, s4, i, g);
  }

  /** A copy of the leader's candidate that does not count, when it is the first to arrive,
      makes a follower that could take the candidate refuse it; the leader gives up, and
      its own copy then takes the slot. */
  lemma StrayBlocks(c: Context, faulty: set<Replica>, s: System, i: Replica, f: Fragment)
    requires c.cfg.params.Ok() && c.leader in s.nodes && i in s.nodes && i < c.cfg.params.n && i != c.leader
    requires s.gate.None? && 1 < c.cfg.params.n - c.cfg.params.f
    requires CanTake(c, s.nodes[c.leader], f) && CanTake(c, s.nodes[i], f)
    ensures var no := Ack(i, FragmentDigest(f), false);
      var t := Steps(c, faulty, s, [Construct(f), Stray(i, f), Acknowledge(no), Settle, Candidate(i, f)]);
      && no in t.acks && t.gate.None? && t.nodes.Keys == s.nodes.Keys
      && t.nodes[c.leader].slot.None? && t.nodes[c.leader].history == s.nodes[c.leader].history
      && t.nodes[i].slot == Some(f) && t.nodes[i].history == s.nodes[i].history
  {
    hide *;
    var no := Ack(i, FragmentDigest(f), false);
    var s1 := Next(c, faulty, s, Construct(f));
    var s2 := Next(c, faulty, s1, Stray(i, f));
    var s3 := Next(c, faulty, s2, Acknowledge(no));
    var s4 := Next(c, faulty, s3, Settle);
    FiveSteps(c, faulty, s, Construct(f), Stray(i, f), Acknowledge(no), Settle, Candidate(i, f));
    Constructs(c, faulty, s, f);
    CanTakeIs(c, s.nodes[i], f);
    Strays(c, faulty, s1, i, f);
    Refuses(c, faulty, s2, no);
    RefusalIs(c, faulty, s3);
    Answers(c, faulty, s4, i, f);
  }

  lemma StepsSnoc(c: Context, faulty: set<Replica>, s: System, actions: seq<Action>, a: Action, longer: seq<Action>)
    requires longer == actions + [a]
    ensures Steps(c, faulty, s, longer) == Next(c, faulty, Steps(c, faulty, s, actions), a)
  {
    hide Next;
    assert longer[..|longer| - 1] == actions;
  }

  lemma TwoSteps(c: Context, faulty: set<Replica>, s: System, a: Action, b: Action)
    ensures Steps(c, faulty, s, [a, b]) == Next(c, faulty, Next(c, faulty, s, a), b)
  {
    hide Next;
    StepsSnoc(c, faulty, s, [], a, [a]);
    StepsSnoc(c, faulty, s, [a], b, [a, b]);
  }

  lemma FiveSteps(c: Context, faulty: set<Replica>, s: System, a1: Action, a2: Action, a3: Action, a4: Action,
                  a5: Action)
    ensures Steps(c, faulty, s, [a1, a2, a3, a4, a5])
         == Next(c, faulty, Next(c, faulty, Next(c, faulty, Next(c, faulty, Next(c, faulty, s, a1), a2), a3), a4), a5)
  {
    hide *;
    TwoSteps(c, faulty, s, a1, a2);
    StepsSnoc(c, faulty, s, [a1, a2], a3, [a1, a2, a3]);
    StepsSnoc(c, faulty, s, [a1, a2, a3], a4, [a1, a2, a3, a4]);
    StepsSnoc(c, faulty, s, [a1, a2, a3, a4], a5, [a1, a2, a3, a4, a5]);
  }

  // ----- Two correct replicas

  function Everyone(): Authenticator {
    Authenticator((i, d, signature) => true, (i, d, signature) => true)
  }

  /** n = 2, f = 0, qH = 2, extensions of at most one id; replica 0 leads. */
  function TwoReplicas(): Context {
    Context(Config(Params(2, 0, 2, 1), Everyone()), 0, 0, ZERO_DIGEST, ZERO_DIGEST, ZERO_DIGEST)
  }

  function Opening(i: Replica, txs: seq<TxID>): LocalOrder {
    var o := LocalOrder(i, 0, 1, 0, |txs|, ZERO_DIGEST, txs, ZERO_DIGEST, 0);
    o.(newHead := LocalOrderHead(o))
  }

  ghost function Start2(): Evidence {
    Genesis(0, 2, ZERO_DIGEST)
  }

  /** The first fragment when replica 0 reports `txs` and replica 1 nothing: no id is
      Solid yet and nothing is released. */
  ghost function First(txs: seq<TxID>): Fragment {
    var orders := [Opening(0, txs), Opening(1, [])];
    var pre := Ingest(TwoReplicas().cfg.params, Start2(), orders, 0);
    Draft(TwoReplicas(), Start2(), ZERO_DIGEST, orders, [], Certificate([], []), pre.stateId,
          Finalized(pre, [], []).stateId)
  }

  lemma NothingToCertify(g: ActiveGraph, counter: nat)
    requires g.solid == {}
    ensures CertOk(g, counter, [], Certificate([], []))
  {
    assert TxsOf([]) == [];
    assert IncludedIn([]) == {};
  }

  lemma OpeningsAccepted(txs: seq<TxID>)
    requires |txs| <= 1
    ensures Accepts(TwoReplicas().cfg, Start2(), [Opening(0, txs), Opening(1, [])], 0, 1)
  {
    var orders := [Opening(0, txs), Opening(1, [])];
    assert Distinct(txs) by {
      if |txs| == 1 {
        assert txs[..0] == [];
      }
    }
    assert Distinct<TxID>([]);
    forall j | 0 <= j < |orders| ensures AcceptsOrder(TwoReplicas().cfg, Start2(), orders[j], 0, 1) {
      hide Distinct, LocalOrderDigest;
    }
  }

  lemma AdmitsTwo(s: Evidence, a: LocalOrder, b: LocalOrder)
    ensures AdmitAll(s, [a, b]) == AdmitOne(AdmitOne(s, a), b)
  {
    hide AdmitOne;
    AdmitAllSnoc(s, [a, b], 0);
    AdmitAllSnoc(s, [a, b], 1);
    assert [a, b][..0] == [] && [a, b][..1] == [a] && [a, b][..2] == [a, b];
  }

  lemma PositionsAfter(s: Evidence, o: LocalOrder)
    ensures AdmitOne(s, o).pos == Extend(s.pos, o.replica, NewPositions(s.done, o))
    ensures o.txs == [] ==> NewPositions(s.done, o) == map[]
  {
    hide VisibilityOf, WeightsOf;
  }

  /** Replica 1 positions nothing, so no id is seen twice. */
  lemma SeenByOne(txs: seq<TxID>, u: TxID)
    ensures var orders := [Opening(0, txs), Opening(1, [])];
      |Viewers(AdmitAll(Opened(Start2(), orders, 0), orders).pos, u)| <= 1
  {
    hide AdmitOne, AdmitAll;
    var a, b := Opening(0, txs), Opening(1, []);
    var s0 := Opened(Start2(), [a, b], 0);
    AdmitsTwo(s0, a, b);
    PositionsAfter(s0, a);
    PositionsAfter(AdmitOne(s0, a), b);
    hide NewPositions, Opened;
    var pos := AdmitAll(s0, [a, b]).pos;
    assert Viewers(pos, u) <= {0};
    SubsetCard(Viewers(pos, u), {0});
  }

  lemma SolidIs(p: Params, s: Evidence, orders: seq<LocalOrder>, epoch: nat, u: TxID)
    ensures u in GraphOf(p, Ingest(p, s, orders, epoch)).solid ==>
      |Viewers(AdmitAll(Opened(s, orders, epoch), orders).pos, u)| >= p.SolidThreshold()
  {
    hide AdmitAll, Opened, Viewers;
  }

  lemma NoneSolid(txs: seq<TxID>)
    ensures var p := TwoReplicas().cfg.params;
      GraphOf(p, Ingest(p, Start2(), [Opening(0, txs), Opening(1, [])], 0)).solid == {}
  {
    hide Ingest, GraphOf, AdmitAll, Viewers, Opening, Start2, Opened;
    var p, orders := TwoReplicas().cfg.params, [Opening(0, txs), Opening(1, [])];
    forall u ensures u !in GraphOf(p, Ingest(p, Start2(), orders, 0)).solid {
      SolidIs(p, Start2(), orders, 0, u);
      SeenByOne(txs, u);
    }
  }

  lemma FirstAcceptable(txs: seq<TxID>)
    requires |txs| <= 1
    ensures Acceptable(TwoReplicas(), Start2(), ZERO_DIGEST, First(txs))
    ensures First(txs).evidence == [Opening(0, txs), Opening(1, [])]
  {
    hide *;
    var orders := [Opening(0, txs), Opening(1, [])];
    var pre := Ingest(TwoReplicas().cfg.params, Start2(), orders, 0);
    OpeningsAccepted(txs);
    NoneSolid(txs);
    NothingToCertify(GraphOf(TwoReplicas().cfg.params, pre), pre.batchCounter);
    FirstIs(txs);
    DraftAcceptable(TwoReplicas(), Start2(), ZERO_DIGEST, orders, [], Certificate([], []), pre.stateId,
                    Finalized(pre, [], []).stateId);
  }

  lemma FirstIs(txs: seq<TxID>)
    ensures TwoReplicas().epoch == 0 && Start2().fragmentSeq == 0 && TwoReplicas().cfg.params.Ok()
    ensures var orders := [Opening(0, txs), Opening(1, [])];
      var pre := Ingest(TwoReplicas().cfg.params, Start2(), orders, 0);
      First(txs) == Draft(TwoReplicas(), Start2(), ZERO_DIGEST, orders, [], Certificate([], []), pre.stateId,
                          Finalized(pre, [], []).stateId)
  {
    hide Ingest, Finalized;
  }

  // ----- Two refusals

  function Empty(x: TxID): Admission {
    Admission(map[], bytes => x, bytes => true)
  }

  function Full(x: TxID): Admission {
    Empty(x).(content := map[x := Resolved([], x)])
  }

  lemma StartIs(stores: Replica -> Admission)
    ensures var s := Start(2, stores);
      && s.nodes.Keys == {0, 1} && s.nodes[0] == Fresh(stores(0)) && s.nodes[1] == Fresh(stores(1))
      && s.gate.None? && s.candidates == {} && s.acks == {} && s.commits == {}
  {
  }

  lemma FirstEvidence(txs: seq<TxID>)
    ensures First(txs).evidence == [Opening(0, txs), Opening(1, [])] && Opening(0, txs).txs == txs
    ensures Opening(1, []).txs == []
    ensures EncodedFragment(First(txs)).evidence == First(txs).evidence
  {
    hide Ingest, Finalized;
  }

  lemma FreshIs(store: Admission)
    ensures Fresh(store) == Node([], None, {}, store)
    ensures StateAfter(TwoReplicas(), []) == Start2() && LatestAfter(TwoReplicas(), []) == ZERO_DIGEST
    ensures Start2().done == map[]
  {
  }

  lemma AvailableFirst(store: Admission, txs: seq<TxID>, evidence: seq<LocalOrder>)
    requires |evidence| == 2 && evidence[0].txs == txs && evidence[1].txs == []
    ensures Available(store, map[], evidence) <==> forall x :: x in txs ==> Admitted(store, x)
  {
    hide Admitted;
  }

  /** A fresh replica can take the first fragment exactly when it has the content. */
  lemma FreshTakes(store: Admission, txs: seq<TxID>)
    requires |txs| <= 1
    ensures CanTake(TwoReplicas(), Fresh(store), First(txs)) <==> forall x :: x in txs ==> Admitted(store, x)
  {
    hide *;
    FirstAcceptable(txs);
    FirstEvidence(txs);
    FreshIs(store);
    AvailableFirst(store, txs, First(txs).evidence);
    CanTakeIs(TwoReplicas(), Fresh(store), First(txs));
  }

  lemma FirstsDiffer(x: TxID)
    ensures FragmentDigest(First([])) != FragmentDigest(First([x]))
  {
    hide First, EncodedFragment, Opening;
    FirstEvidence([]);
    FirstEvidence([x]);
  }

  lemma FullHas(x: TxID)
    ensures Admitted(Full(x), x) && !Admitted(Empty(x), x)
    ensures Store(Empty(x), x, []) == Some(Full(x)) && Empty(x).validate([])
  {
  }

  /** Both replicas are in the same state and have all content, and still replica 1 refuses
      the leader's candidate: it holds the one that the leader gave up. */
  lemma RefusedWhileHeld(x: TxID)
    ensures var f, g := First([]), First([x]);
      var t := AfterActions(TwoReplicas(), {}, i => Full(x),
                            [Construct(f), Candidate(1, f), Cancel, Construct(g), Candidate(1, g)]);
      && NodeOf(t, 0).slot == Some(g) && NodeOf(t, 1).slot == Some(f) && NodeOf(t, 1).history == []
      && CanTake(TwoReplicas(), Fresh(Full(x)), g)
      && Ack(1, FragmentDigest(g), false) in t.acks
  {
    hide *;
    FullHas(x);
    FreshTakes(Full(x), []);
    FreshTakes(Full(x), [x]);
    FirstsDiffer(x);
    StartIs(i => Full(x));
    LeaderIs();
    FreshIs(Full(x));
    var s := Start(2, i => Full(x));
    AbandonedBlocks(TwoReplicas(), {}, s, 1, First([]), First([x]));
    AfterActionsIs(TwoReplicas(), {}, i => Full(x),
      [Construct(First([])), Candidate(1, First([])), Cancel, Construct(First([x])), Candidate(1, First([x]))]);
  }

  /** Such a run of two correct replicas from genesis, both having all content. */
  lemma RefusedAfterStray(x: TxID)
    ensures var f := First([x]);
      var no := Ack(1, FragmentDigest(f), false);
      var t := AfterActions(TwoReplicas(), {}, i => Full(x),
                            [Construct(f), Stray(1, f), Acknowledge(no), Settle, Candidate(1, f)]);
      && no in t.acks && t.gate.None? && t.nodes.Keys == {0, 1}
      && t.nodes[0].slot.None? && t.nodes[0].history == [] && t.nodes[1].slot == Some(f) && t.nodes[1].history == []
  {
    hide *;
    FullHas(x);
    FreshTakes(Full(x), [x]);
    StartIs(i => Full(x));
    LeaderIs();
    FreshIs(Full(x));
    var s, f := Start(2, i => Full(x)), First([x]);
    StrayBlocks(TwoReplicas(), {}, s, 1, f);
    AfterActionsIs(TwoReplicas(), {}, i => Full(x),
      [Construct(f), Stray(1, f), Acknowledge(Ack(1, FragmentDigest(f), false)), Settle, Candidate(1, f)]);
  }

  lemma LeaderIs()
    ensures TwoReplicas().leader == 0 && TwoReplicas().cfg.params == Params(2, 0, 2, 1) && TwoReplicas().cfg.params.Ok()
  {
  }

  /** A replica with a free slot in the leader's state refuses for want of content, and
      accepts once it has received it. */
  lemma RefusedWithoutContent(x: TxID)
    ensures var g := First([x]);
      var t := AfterActions(TwoReplicas(), {}, i => if i == 0 then Full(x) else Empty(x),
                            [Construct(g), Candidate(1, g)]);
      var t' := Steps(TwoReplicas(), {}, t, [Receive(1, x, []), Candidate(1, g)]);
      && t.nodes.Keys == t'.nodes.Keys == {0, 1}
      && t.nodes[0].slot == Some(g) && t.nodes[1] == Fresh(Empty(x)) && Ack(1, FragmentDigest(g), false) in t.acks
      && t'.nodes[1].slot == Some(g) && Ack(1, FragmentDigest(g), true) in t'.acks
  {
    hide *;
    var stores: Replica -> Admission := i => if i == 0 then Full(x) else Empty(x);
    var c, g := TwoReplicas(), First([x]);
    var s := Start(2, stores);
    var s1 := Next(c, {}, s, Construct(g));
    var t := Next(c, {}, s1, Candidate(1, g));
    var t1 := Next(c, {}, t, Receive(1, x, []));
    FullHas(x);
    FreshTakes(Full(x), [x]);
    FreshTakes(Empty(x), [x]);
    StartIs(stores);
    LeaderIs();
    FreshIs(Full(x));
    FreshIs(Empty(x));
    TwoSteps(c, {}, s, Construct(g), Candidate(1, g));
    TwoSteps(c, {}, t, Receive(1, x, []), Candidate(1, g));
    AfterActionsIs(c, {}, stores, [Construct(g), Candidate(1, g)]);
    Constructs(c, {}, s, g);
    Answers(c, {}, s1, 1, g);
    Learns(c, t, 1, x, []);
    Answers(c, {}, t1, 1, g);
  }

  lemma Constructs(c: Context, faulty: set<Replica>, s: System, f: Fragment)
    requires c.leader in s.nodes && s.gate.None? && CanTake(c, s.nodes[c.leader], f)
    ensures var t := Next(c, faulty, s, Construct(f));
      && t.nodes == s.nodes[c.leader := Take(s.nodes[c.leader], f)] && t.nodes[c.leader].slot == Some(f)
      && t.nodes[c.leader].history == s.nodes[c.leader].history
      && f in t.candidates && t.gate == Some(Open(c.cfg.params, {c.leader}))
  {
    hide CanTake, FragmentDigest;
  }

  lemma Strays(c: Context, faulty: set<Replica>, s: System, i: Replica, f: Fragment)
    requires i in s.nodes && s.nodes[i].slot.None?
    ensures var t := Next(c, faulty, s, Stray(i, f));
      t == s.(acks := t.acks) && Ack(i, FragmentDigest(f), false) in t.acks
  {
    hide FragmentDigest;
  }

  /** A refusal closes a gate that still waits. */
  lemma Refuses(c: Context, faulty: set<Replica>, s: System, no: Ack)
    requires c.leader in s.nodes && s.nodes[c.leader].slot.Some? && s.gate == Some(Open(c.cfg.params, {c.leader}))
    requires no in s.acks && !no.accepted && no.digest == FragmentDigest(s.nodes[c.leader].slot.value)
    requires no.from < c.cfg.params.n && no.from != c.leader && 1 < c.cfg.params.n - c.cfg.params.f
    ensures Next(c, faulty, s, Acknowledge(no)) == s.(gate := Some(Refused))
  {
    hide FragmentDigest;
  }

  lemma Answers(c: Context, faulty: set<Replica>, s: System, i: Replica, f: Fragment)
    requires i in s.nodes && i != c.leader && f in s.candidates
    ensures var x := if CanTake(c, s.nodes[i], f) then Take(s.nodes[i], f) else s.nodes[i];
      var t := Next(c, faulty, s, Candidate(i, f));
      && t.nodes == s.nodes[i := x] && t == s.(nodes := t.nodes, acks := t.acks) && s.acks <= t.acks
      && x.history == s.nodes[i].history
      && Ack(i, FragmentDigest(f), Held(x, FragmentDigest(f))) in t.acks
      && (CanTake(c, s.nodes[i], f) ==> Held(x, FragmentDigest(f)) && x.slot == Some(f))
      && (s.nodes[i].slot.None? && !CanTake(c, s.nodes[i], f) ==> !Held(x, FragmentDigest(f)))
  {
    hide CanTake, FragmentDigest;
  }

  lemma Learns(c: Context, s: System, i: Replica, id: TxID, bytes: Content)
    requires i in s.nodes && s.nodes[i].store.validate(bytes) && Store(s.nodes[i].store, id, bytes).Some?
    ensures var x := s.nodes[i].(store := Store(s.nodes[i].store, id, bytes).value);
      && Next(c, {}, s, Receive(i, id, bytes)).nodes == s.nodes[i := x]
      && Next(c, {}, s, Receive(i, id, bytes)).candidates == s.candidates
  {
  }
}

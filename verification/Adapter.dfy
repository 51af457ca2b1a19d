/**
  What a node does with the messages of the hosting layer (pkg/auth_adapter.go), on real
  service objects, and what it makes of the node that the service shows. Module `Network`
  puts many services side by side and makes steps of the system of module `Hosting` of
  these calls.
 */
module Adapter {
  import opened Types
  import opened EvidenceSpec
  import opened Chain
  import opened Agreement
  import opened EvidenceObject
  import opened Service
  import H = Hosting

  /** The service is in the state of node `x`. */
  ghost predicate Shows(s: OFOService, x: H.Node)
    reads s`history, s`pending, s`admission
  {
    && x.history == s.history && x.store == s.admission && (x.slot.Some? <==> s.pending.Some?)
    && (x.slot.Some? ==> x.slot.value == s.pending.value.fragment)
  }

  /** A candidate of the leader, rightly signed, that reaches a follower. */
  predicate Delivered(s: OFOService, f: Fragment, signature: Signature, sender: Replica) {
    !s.Leads() && sender == s.c.leader && s.c.cfg.auth.verifyLeader(f.leader, FragmentDigest(f), signature)
  }

  lemma PendingHeld(s: OFOService, x: H.Node, digest: Digest)
    requires s.Valid() && Shows(s, x)
    ensures H.Held(x, digest) <==> s.pending.Some? && s.pending.value.digest == digest
  {
    hide Acceptable, Run, FragmentDigest;
  }

  lemma ConfirmsTakes(s: OFOService, x: H.Node, f: Fragment, signature: Signature, sender: Replica)
    requires s.Valid() && Shows(s, x) && !s.Leads() && s.pending.None?
    ensures Confirms(s.c, s.admission, s.committed.View(), s.latestCommittedFragment, None, f, signature, sender)
       <==> Delivered(s, f, signature, sender) && H.CanTake(s.c, x, f)
  {
    hide Accepts, Available, Run, FragmentDigest, StateAfter, LatestAfter;
  }

  /** The transaction case, passed on to the service. */
  method OnTransaction(s: OFOService, ghost x: H.Node, id: TxID, bytes: Content) returns (ghost x': H.Node)
    requires s.Valid() && Shows(s, x)
    modifies s`admission, s`receiptQueue, s`observed, s`received
    ensures s.Valid() && Shows(s, x') && x' == H.Learn(x, id, bytes)
  {
    hide *;
    ShowsIs(s, x);
    LearnIs(x, id, bytes);
    s.ReceiveTransaction(id, bytes);
    x' := H.Learn(x, id, bytes);
    ShowsIs(s, x');
  }

  lemma LearnIs(x: H.Node, id: TxID, bytes: Content)
    ensures H.Learn(x, id, bytes)
         == if x.store.validate(bytes) && Store(x.store, id, bytes).Some?
            then x.(store := Store(x.store, id, bytes).value) else x
  {
  }

  /** The candidate case of `HandleMessage` and its acknowledgement. */
  method OnCandidate(s: OFOService, ghost x: H.Node, f: Fragment, signature: Signature, sender: Replica)
    returns (ack: H.Ack, ghost x': H.Node)
    requires s.Valid() && Shows(s, x)
    modifies s`pending
    ensures s.Valid() && Shows(s, x')
    ensures x' == if Delivered(s, f, signature, sender) then H.Verify(s.c, x, f) else x
    ensures ack == H.Answer(s.replica, x', f)
    ensures s.pending == old(s.pending) || (s.pending.Some? && fresh(s.pending.value.done))
  {
    hide *;
    ShowsIs(s, x);
    x' := x;
    if !s.Leads() {
      if s.pending.None? {
        ConfirmsTakes(s, x, f, signature, sender);
      }
      SlotIs(s.pending);
      var ok := s.VerifyCandidate(f, signature, sender);
      x' := if Delivered(s, f, signature, sender) then H.Verify(s.c, x, f) else x;
      VerifyIs(s.c, x, f);
    }
    DeliveredIs(s, f, signature, sender);
    ShowsIs(s, x');
    PendingHeld(s, x', FragmentDigest(f));
    AnswerOf(s.replica, x', f);
    ack := H.Ack(s.replica, FragmentDigest(f), s.pending.Some? && s.pending.value.digest == FragmentDigest(f));
  }

  lemma ShowsIs(s: OFOService, x: H.Node)
    ensures Shows(s, x) <==> x.history == s.history && x.store == s.admission && (x.slot.Some? <==> s.pending.Some?)
                             && (x.slot.Some? ==> x.slot.value == s.pending.value.fragment)
  {
  }

  lemma AnswerOf(i: Replica, x: H.Node, f: Fragment)
    ensures H.Answer(i, x, f) == H.Ack(i, FragmentDigest(f), H.Held(x, FragmentDigest(f)))
  {
  }

  lemma DeliveredIs(s: OFOService, f: Fragment, signature: Signature, sender: Replica)
    ensures Delivered(s, f, signature, sender) ==> !s.Leads()
  {
  }

  lemma VerifyIs(c: Context, x: H.Node, f: Fragment)
    ensures x.slot.Some? ==> H.Verify(c, x, f) == x
    ensures x.slot.None? && H.CanTake(c, x, f) ==> H.Verify(c, x, f) == H.Take(x, f)
    ensures H.Take(x, f).history == x.history && H.Take(x, f).store == x.store && H.Take(x, f).slot == Some(f)
    ensures !H.CanTake(c, x, f) ==> H.Verify(c, x, f) == x
  {
    hide Acceptable;
  }

  /** The commit case of `HandleMessage`. */
  method OnCommit(s: OFOService, ghost x: H.Node, digest: Digest, sender: Replica) returns (ghost x': H.Node)
    requires s.Valid() && Shows(s, x)
    modifies s, if s.pending.Some? then {s.pending.value.done} else {}
    ensures s.Valid() && Shows(s, x')
    ensures x' == if sender == s.c.leader then H.Install(x, digest) else x
    ensures s.pending == old(s.pending) || s.pending.None?
  {
    hide *;
    x' := x;
    if sender != s.c.leader {
      return;
    }
    var ok;
    ok, x' := Commit(s, x, digest);
  }

  method Commit(s: OFOService, ghost x: H.Node, digest: Digest) returns (ok: bool, ghost x': H.Node)
    requires s.Valid() && Shows(s, x)
    modifies s, if s.pending.Some? then {s.pending.value.done} else {}
    ensures s.Valid() && Shows(s, x') && x' == H.Install(x, digest)
    ensures ok <==> H.Held(x, digest)
    ensures s.pending == if ok then None else old(s.pending)
  {
    hide *;
    ShowsIs(s, x);
    PendingHeld(s, x, digest);
    H.InstallIs(x, digest);
    var batches := s.CommitPending(digest);
    ok := batches.Some?;
    x' := H.Install(x, digest);
    ShowsIs(s, x');
  }

  // ----- The leader

  function Drop(x: H.Node, digest: Digest): H.Node {
    if H.Held(x, digest) then x.(slot := None) else x
  }

  lemma DropIs(x: H.Node, digest: Digest)
    ensures !H.Held(x, digest) ==> Drop(x, digest) == x
    ensures H.Held(x, digest) ==>
      && x.slot.Some? && Drop(x, digest).history == x.history
      && Drop(x, digest).slot == None && Drop(x, digest).store == x.store
    ensures !H.Held(Drop(x, digest), digest)
  {
    hide FragmentDigest;
  }

  method Abandon(s: OFOService, ghost x: H.Node, digest: Digest) returns (ghost x': H.Node)
    requires s.Valid() && Shows(s, x)
    modifies s`pending, if s.pending.Some? then {s.pending.value.done} else {}
    ensures s.Valid() && Shows(s, x') && x' == Drop(x, digest)
    ensures s.pending == old(s.pending) || s.pending.None?
  {
    hide *;
    ShowsIs(s, x);
    PendingHeld(s, x, digest);
    DropIs(x, digest);
    var ok := s.AbandonPending(digest);
    x' := Drop(x, digest);
    ShowsIs(s, x');
  }

  /** At some point n - f replicas, the leader among them, stand for the digest, and nobody
      else has refused it. */
  ghost predicate Quorum(c: Context, digest: Digest, acks: seq<H.Ack>) {
    exists k ::
      && 0 <= k <= |acks|
      && |H.Acceptors(c.cfg.params, c.leader, digest, acks, k)| >= c.cfg.params.n - c.cfg.params.f
      && forall j :: 0 <= j < k && acks[j].digest == digest && acks[j].from < c.cfg.params.n && !acks[j].accepted ==>
           acks[j].from in H.Acceptors(c.cfg.params, c.leader, digest, acks, j)
  }

  lemma QuorumIs(c: Context, digest: Digest, acks: seq<H.Ack>)
    ensures Quorum(c, digest, acks)
       <==> H.HearAll(c.cfg.params, digest, H.Open(c.cfg.params, {c.leader}), acks).Reached?
  {
    hide H.HearAll, H.Open, H.Acceptors;
    H.ReachedIff(c.cfg.params, c.leader, digest, acks);
  }

  lemma ParamsOk(s: OFOService)
    requires s.Valid()
    ensures s.c.cfg.params.Ok()
  {
  }

  /** `Propose`. `sent` says that every candidate message went out, `cancelled` that the
      context had ended when the quorum was complete. The digest is committed exactly when
      the gate is reached in time, and otherwise the deferred call abandons it: it is
      never still pending afterwards. */
  method Propose(s: OFOService, ghost x: H.Node, digest: Digest, acks: seq<H.Ack>, sent: bool, cancelled: bool)
    returns (committed: bool, ghost x': H.Node)
    requires s.Valid() && Shows(s, x)
    modifies s, if s.pending.Some? then {s.pending.value.done} else {}
    ensures s.Valid() && Shows(s, x')
    ensures committed <==> sent && !cancelled && Quorum(s.c, digest, acks) && H.Held(x, digest)
    ensures x' == if committed then H.Install(x, digest) else Drop(x, digest)
    ensures !H.Held(x', digest)
    ensures s.pending == old(s.pending) || s.pending.None?
  {
    hide *;
    QuorumIs(s.c, digest, acks);
    H.InstallIs(x, digest);
    DropIs(x, digest);
    DropIs(H.Install(x, digest), digest);
    ShowsIs(s, x);
    ParamsOk(s);
    committed, x' := false, x;
    if sent {
      s.Whole();
      var reached, accepted := H.AwaitQuorum(s.c.cfg.params, s.c.leader, digest, acks);
      s.StillValid();
      ShowsIs(s, x);
      if reached && !cancelled {
        committed, x' := Commit(s, x, digest);
      }
    }
    x' := Abandon(s, x', digest);
  }

  /** One turn of `runProposerStage`: a batch that construction refuses changes nothing;
      otherwise its candidate was free to be taken, and the turn ends with it committed
      or abandoned. */
  method ProposerRound(s: OFOService, ghost x: H.Node, orders: seq<LocalOrder>, acks: seq<H.Ack>, sent: bool,
                       cancelled: bool)
    returns (candidate: Option<Fragment>, committed: bool, ghost x': H.Node)
    requires s.Valid() && s.Leads() && Shows(s, x)
    modifies s, if s.pending.Some? then {s.pending.value.done} else {}
    ensures s.Valid() && Shows(s, x')
    ensures candidate.None? ==> x' == x && !committed
    ensures candidate.Some? ==>
      var f := candidate.value;
      var d := FragmentDigest(f);
      && H.CanTake(s.c, x, f) && f.evidence == LO.Canonical(orders)
      && (committed <==> sent && !cancelled && Quorum(s.c, d, acks))
      && x'.slot.None?
      && x' == if committed then H.Install(H.Take(x, f), d) else Drop(H.Take(x, f), d)
  {
    hide *;
    ShowsIs(s, x);
    var ok := s.ConstructCandidate(orders);
    if !ok {
      x' := x;
      ShowsIs(s, x);
      return None, false, x';
    }
    var f := s.pending.value.fragment;
    Taken(s, x, f);
    var turn;
    H.InstallIs(H.Take(x, f), s.pending.value.digest);
    DropIs(H.Take(x, f), s.pending.value.digest);
    turn, x' := Propose(s, H.Take(x, f), s.pending.value.digest, acks, sent, cancelled);
    return Some(f), turn, x';
  }

  lemma Taken(s: OFOService, x: H.Node, f: Fragment)
    requires s.Valid() && s.pending.Some? && s.pending.value.fragment == f && x.history == s.history && x.slot.None?
    requires x.store == s.admission && Available(s.admission, s.committed.done, f.evidence)
    ensures H.CanTake(s.c, x, f) && Shows(s, H.Take(x, f))
    ensures s.pending.value.digest == FragmentDigest(f) && H.Held(H.Take(x, f), FragmentDigest(f))
  {
    hide Accepts, Available, FragmentDigest, Run, StateAfter, LatestAfter;
  }

  // ----- What is answered

  /** An answer accepts exactly when the slot already held the candidate, or it was
      delivered and could be taken. */
  lemma AnswerIs(c: Context, x: H.Node, f: Fragment, delivered: bool)
    ensures var x' := if delivered then H.Verify(c, x, f) else x;
      H.Held(x', FragmentDigest(f)) <==> H.Held(x, FragmentDigest(f)) || (delivered && H.CanTake(c, x, f))
  {
    hide Acceptable, Available, FragmentDigest;
  }

  /** A follower in the leader's committed state refuses the leader's candidate exactly when
      its slot holds another one, or is free and the copy at hand does not count or some
      content is missing. */
  lemma LeaderIsAnswered(leader: OFOService, follower: OFOService, x: H.Node, signature: Signature, sender: Replica)
    requires leader.Valid() && follower.Valid() && leader.c == follower.c && leader.pending.Some?
    requires leader.committed.fragmentSeq == follower.committed.fragmentSeq
    requires leader.latestCommittedFragment == follower.latestCommittedFragment && Shows(follower, x)
    ensures var f, d := leader.pending.value.fragment, leader.pending.value.digest;
      var x' := if Delivered(follower, f, signature, sender) then H.Verify(follower.c, x, f) else x;
      !H.Held(x', d) <==>
        if follower.pending.Some? then follower.pending.value.digest != d
        else !Delivered(follower, f, signature, sender)
             || !Available(follower.admission, follower.committed.done, f.evidence)
  {
    hide *;
    var f := leader.pending.value.fragment;
    leader.PendingDigest();
    PendingHeld(follower, x, FragmentDigest(f));
    AnswerIs(follower.c, x, f, Delivered(follower, f, signature, sender));
    ShowsIs(follower, x);
    SameStartRefl(leader.c);
    SameCommitted(leader, follower);
    follower.OwnState();
    follower.InstalledParts();
    ViewFields(follower.committed);
    H.CanTakeIs(follower.c, x, f);
  }

  // ----- Hearing the acknowledgements

  function Hearing(acks: seq<H.Ack>): seq<H.Action> {
    seq(|acks|, k requires 0 <= k < |acks| => H.Acknowledge(acks[k]))
  }

  lemma {:induction false} HearingIsHearAll(c: Context, faulty: set<Replica>, sys: H.System, acks: seq<H.Ack>)
    requires sys.gate.Some? && H.NodeOf(sys, c.leader).slot.Some? && forall a :: a in acks ==> a in sys.acks
    ensures var d := FragmentDigest(H.NodeOf(sys, c.leader).slot.value);
      H.Steps(c, faulty, sys, Hearing(acks)) == sys.(gate := Some(H.HearAll(c.cfg.params, d, sys.gate.value, acks)))
  {
    hide H.Hear, FragmentDigest;
    if acks != [] {
      var before := acks[..|acks| - 1];
      assert Hearing(acks)[..|acks| - 1] == Hearing(before);
      HearingIsHearAll(c, faulty, sys, before);
    }
  }

  /** A whole `Propose`, from the open gate on: it hears the acknowledgements in their
      order, and then settles or cancels. */
  lemma ProposeIsSteps(c: Context, faulty: set<Replica>, sys: H.System, digest: Digest, acks: seq<H.Ack>,
                       committed: bool)
    requires c.leader in sys.nodes && H.Held(sys.nodes[c.leader], digest)
    requires sys.gate == Some(H.Open(c.cfg.params, {c.leader})) && forall a :: a in acks ==> a in sys.acks
    requires committed ==> Quorum(c, digest, acks)
    ensures var x := sys.nodes[c.leader];
      var t := H.Next(c, faulty, H.Steps(c, faulty, sys, Hearing(acks)), if committed then H.Settle else H.Cancel);
      && t.nodes == sys.nodes[c.leader := if committed then H.Install(x, digest) else Drop(x, digest)]
      && t.gate.None? && t.commits == sys.commits + (if committed then {digest} else {})
  {
    hide *;
    QuorumIs(c, digest, acks);
    SlotIsFor(c, sys, digest);
    HearingIsHearAll(c, faulty, sys, acks);
    var gate := H.HearAll(c.cfg.params, digest, H.Open(c.cfg.params, {c.leader}), acks);
    Closes(c, faulty, sys.(gate := Some(gate)), digest, committed);
  }

  lemma SlotIsFor(c: Context, sys: H.System, digest: Digest)
    requires c.leader in sys.nodes && H.Held(sys.nodes[c.leader], digest)
    ensures H.NodeOf(sys, c.leader).slot.Some? && FragmentDigest(H.NodeOf(sys, c.leader).slot.value) == digest
  {
    hide FragmentDigest;
  }

  lemma Closes(c: Context, faulty: set<Replica>, sys: H.System, digest: Digest, committed: bool)
    requires c.leader in sys.nodes && H.Held(sys.nodes[c.leader], digest)
    requires sys.gate.Some? && (committed ==> sys.gate.value.Reached?)
    ensures var x := sys.nodes[c.leader];
      var t := H.Next(c, faulty, sys, if committed then H.Settle else H.Cancel);
      && t.nodes == sys.nodes[c.leader := if committed then H.Install(x, digest) else Drop(x, digest)]
      && t.gate.None? && t.commits == sys.commits + (if committed then {digest} else {})
  {
    hide FragmentDigest;
  }
}

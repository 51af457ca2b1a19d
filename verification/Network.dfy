/**
  Many services side by side: what each of them does with a message is one step of the
  system of module `Hosting`, and the services keep showing the nodes of that system.
 */
module Network {
  import opened Types
  import opened EvidenceSpec
  import opened Chain
  import opened Service
  import opened Adapter
  import H = Hosting
  import LO = LocalOrders

  /** Service objects of some of the replicas, the leader's among them. */
  type Services = map<Replica, OFOService>

  ghost function Parts(services: Services): set<object>
    reads services.Values
  {
    set i, o | i in services && o in Objects(services[i]) :: o
  }

  ghost function Objects(s: OFOService): set<object>
    reads s
  {
    var own: set<object> := {s, s.committed};
    own + (if s.manager == null then {} else {s.manager}) + Footprint(s.pending)
  }

  ghost predicate Up(c: Context, sys: H.System, i: Replica, s: OFOService)
    reads s, Objects(s)
  {
    i in sys.nodes && s.replica == i && s.c == c && s.Valid() && Shows(s, sys.nodes[i])
  }

  /** No two services wait on one signal. */
  ghost predicate SignalsApart(services: Services)
    reads services.Values`pending
  {
    forall i, j ::
      i in services && j in services && i != j && services[i].pending.Some? && services[j].pending.Some? ==>
      services[i].pending.value.done != services[j].pending.value.done
  }

  /** The services show their nodes of a system in which the protocol invariant holds. */
  ghost predicate Mirrors(c: Context, faulty: set<Replica>, services: Services, sys: H.System)
    reads services.Values, Parts(services)
  {
    && c.cfg.params.Ok() && c.leader < c.cfg.params.n && c.leader !in faulty && c.leader in services
    && H.Inv(c, faulty, sys)
    && (forall i :: i in services ==> Up(c, sys, i, services[i]))
    && SignalsApart(services)
  }

  ghost predicate Hosts(c: Context, faulty: set<Replica>, services: Services, sys: H.System, s: OFOService)
    reads services.Values, Parts(services), s
  {
    Mirrors(c, faulty, services, sys) && s.replica in services && services[s.replica] == s
  }

  /** Genesis services show the nodes of the system's start. */
  lemma GenesisMirrors(c: Context, faulty: set<Replica>, services: Services, stores: Replica -> Admission)
    requires c.cfg.params.Ok() && c.leader < c.cfg.params.n && c.leader !in faulty && c.leader in services
    requires forall i :: i in services ==>
      var s := services[i];
      && i < c.cfg.params.n && s.replica == i && s.c == c && s.Valid()
      && s.history == [] && s.pending.None? && s.admission == stores(i)
    ensures Mirrors(c, faulty, services, H.Start(c.cfg.params.n, stores))
  {
    hide H.Inv, OFOService.Valid;
    H.StartInv(c, faulty, stores);
  }

  /** Nothing of another service is touched by a call on `s`. */
  lemma Elsewhere(c: Context, faulty: set<Replica>, services: Services, sys: H.System, s: OFOService, j: Replica)
    requires Hosts(c, faulty, services, sys, s) && j in services && j != s.replica
    ensures services[j] != s && j in sys.nodes && Up(c, sys, j, services[j])
    ensures s !in Objects(services[j])
    ensures s.pending.Some? ==> s.pending.value.done !in Objects(services[j])
  {
    hide *;
    HostsBoth(c, faulty, services, sys, s, j);
    ObjectsApart(s, services[j]);
  }

  lemma HostsBoth(c: Context, faulty: set<Replica>, services: Services, sys: H.System, s: OFOService, j: Replica)
    requires Hosts(c, faulty, services, sys, s) && j in services && j != s.replica
    ensures services[j] != s && j in sys.nodes && Up(c, sys, j, services[j])
    ensures s.pending.Some? && services[j].pending.Some? ==>
      s.pending.value.done != services[j].pending.value.done
  {
    hide H.Inv, Shows, OFOService.Valid;
    assert Up(c, sys, j, services[j]) && Up(c, sys, s.replica, s);
  }

  lemma ObjectsApart(s: OFOService, t: OFOService)
    requires s != t && (s.pending.Some? && t.pending.Some? ==> s.pending.value.done != t.pending.value.done)
    ensures s !in Objects(t)
    ensures s.pending.Some? ==> s.pending.value.done !in Objects(t)
  {
  }

  lemma HostParts(c: Context, faulty: set<Replica>, services: Services, sys: H.System, s: OFOService)
    requires Hosts(c, faulty, services, sys, s)
    ensures s.replica in services && services[s.replica] == s && s.c == c
    ensures s.replica in sys.nodes && s.Valid() && Shows(s, sys.nodes[s.replica])
    ensures c.cfg.params.Ok() && c.leader < c.cfg.params.n && c.leader !in faulty && c.leader in services
    ensures H.Inv(c, faulty, sys) && SignalsApart(services)
  {
    hide H.Inv, Shows, Run, Acceptable;
    assert Up(c, sys, s.replica, s);
  }

  lemma UpSame(c: Context, sys: H.System, sys': H.System, j: Replica, s: OFOService)
    requires Up(c, sys, j, s) && j in sys'.nodes && sys'.nodes[j] == sys.nodes[j]
    ensures Up(c, sys', j, s)
  {
    hide Shows, Run, Acceptable;
  }

  lemma UpIf(c: Context, sys: H.System, s: OFOService)
    requires s.replica in sys.nodes && s.c == c && s.Valid() && Shows(s, sys.nodes[s.replica])
    ensures Up(c, sys, s.replica, s)
  {
  }

  lemma StillHosts(c: Context, faulty: set<Replica>, services: Services, sys: H.System, s: OFOService)
    requires c.cfg.params.Ok() && c.leader < c.cfg.params.n && c.leader !in faulty && c.leader in services
    requires H.Inv(c, faulty, sys) && SignalsApart(services)
    requires s.replica in services && services[s.replica] == s
    requires forall j :: j in services ==> Up(c, sys, j, services[j])
    ensures Hosts(c, faulty, services, sys, s)
  {
    hide H.Inv, Up, SignalsApart;
  }

  /** Services that show their nodes and live within `rest`. */
  ghost predicate AllUp(c: Context, services: Services, sys: H.System, rest: set<object>)
    reads services.Values, rest
  {
    forall j | j in services :: Objects(services[j]) <= rest && Up(c, sys, j, services[j])
  }

  ghost predicate Foreign(s: OFOService, others: Services, rest: set<object>)
    reads s`pending
  {
    s !in others.Values && s !in rest && (s.pending.Some? ==> s.pending.value.done !in rest)
  }

  lemma OthersAre(c: Context, faulty: set<Replica>, services: Services, sys: H.System, s: OFOService)
    requires Hosts(c, faulty, services, sys, s)
    ensures var others := services - {s.replica};
      AllUp(c, others, sys, Parts(others)) && Foreign(s, others, Parts(others))
    ensures forall j :: j in services && j != s.replica ==> services[j] != s
  {
    hide Hosts, Up, Objects;
    var others := services - {s.replica};
    forall j | j in others
      ensures services[j] != s && j in sys.nodes && Up(c, sys, j, services[j]) && s !in Objects(services[j])
      ensures s.pending.Some? ==> s.pending.value.done !in Objects(services[j])
    {
      Elsewhere(c, faulty, services, sys, s, j);
    }
  }

  /** The system has moved on by node `s.replica` alone. */
  lemma Moved(c: Context, faulty: set<Replica>, services: Services, sys: H.System, sys': H.System, s: OFOService,
              x: H.Node, rest: set<object>)
    requires c.cfg.params.Ok() && c.leader < c.cfg.params.n && c.leader !in faulty && c.leader in services
    requires H.Inv(c, faulty, sys') && SignalsApart(services)
    requires s.replica in services && services[s.replica] == s && s.replica in sys.nodes
    requires s.c == c && s.Valid() && Shows(s, x)
    requires AllUp(c, services - {s.replica}, sys, rest)
    requires sys'.nodes == sys.nodes[s.replica := x]
    ensures Hosts(c, faulty, services, sys', s)
  {
    hide *;
    UpIf(c, sys', s);
    forall j | j in services ensures Up(c, sys', j, services[j]) {
      if j != s.replica {
        OtherUp(c, services - {s.replica}, sys, rest, j);
        UpSame(c, sys, sys', j, services[j]);
      }
    }
    StillHosts(c, faulty, services, sys', s);
  }

  lemma OtherUp(c: Context, others: Services, sys: H.System, rest: set<object>, j: Replica)
    requires AllUp(c, others, sys, rest) && j in others
    ensures j in sys.nodes && Up(c, sys, j, others[j])
  {
    hide Objects, Shows, OFOService.Valid;
  }

  ghost function SlotsOf(services: Services): map<Replica, Option<Pending>>
    reads services.Values`pending
  {
    map i | i in services :: services[i].pending
  }

  lemma SlotsAre(services: Services, s: OFOService)
    requires s.replica in services && services[s.replica] == s
    requires forall j :: j in services && j != s.replica ==> services[j] != s
    ensures SlotsOf(services).Keys == services.Keys && SlotsOf(services)[s.replica] == s.pending
    ensures forall j :: j in services ==> SlotsOf(services)[j] == services[j].pending
  {
  }

  ghost predicate SlotsApart(slots: map<Replica, Option<Pending>>) {
    forall i, j :: i in slots && j in slots && i != j && slots[i].Some? && slots[j].Some? ==>
      slots[i].value.done != slots[j].value.done
  }

  lemma ApartIs(services: Services)
    ensures SignalsApart(services) <==> SlotsApart(SlotsOf(services))
  {
    if SlotsApart(SlotsOf(services)) {
      forall i, j | i in services && j in services && i != j && services[i].pending.Some? && services[j].pending.Some?
        ensures services[i].pending.value.done != services[j].pending.value.done
      {
        assert SlotsOf(services)[i].Some? && SlotsOf(services)[j].Some?;
      }
    }
  }

  /** The signals stay apart when one service keeps, frees or newly fills its slot. */
  lemma StillApart(services: Services, slots: map<Replica, Option<Pending>>, s: OFOService)
    requires s.replica in services && services[s.replica] == s && slots.Keys == services.Keys && SlotsApart(slots)
    requires forall j :: j in services && j != s.replica ==> services[j].pending == slots[j]
    requires s.pending == slots[s.replica] || s.pending.None?
             || forall j :: j in slots && slots[j].Some? ==> slots[j].value.done != s.pending.value.done
    ensures SignalsApart(services)
  {
    ApartIs(services);
    var now := SlotsOf(services);
    forall i, j | i in now && j in now && i != j && now[i].Some? && now[j].Some?
      ensures now[i].value.done != now[j].value.done
    {
      assert now[i] == services[i].pending && now[j] == services[j].pending;
      assert i != s.replica ==> now[i] == slots[i];
      assert j != s.replica ==> now[j] == slots[j];
    }
  }

  lemma ForeignIs(s: OFOService, others: Services, rest: set<object>)
    requires Foreign(s, others, rest)
    ensures s !in others.Values && s !in rest && (s.pending.Some? ==> s.pending.value.done !in rest)
  {
  }

  // ----- A transaction

  method TransactionAlone(s: OFOService, ghost x: H.Node, id: TxID, bytes: Content,
                          ghost c: Context, ghost others: Services, ghost sys: H.System, ghost rest: set<object>)
    returns (ghost x': H.Node)
    requires s.Valid() && Shows(s, x) && AllUp(c, others, sys, rest) && Foreign(s, others, rest)
    modifies s`admission, s`receiptQueue, s`observed, s`received
    ensures s.Valid() && Shows(s, x') && x' == H.Learn(x, id, bytes) && AllUp(c, others, sys, rest)
  {
    hide *;
    ForeignIs(s, others, rest);
    x' := OnTransaction(s, x, id, bytes);
  }

  /** A transaction that reaches a replica is the system's receive step. */
  method TransactionStep(s: OFOService, id: TxID, bytes: Content,
                         ghost c: Context, ghost faulty: set<Replica>, ghost services: Services, ghost sys: H.System)
    returns (ghost sys': H.System)
    requires Hosts(c, faulty, services, sys, s)
    modifies s`admission, s`receiptQueue, s`observed, s`received
    ensures Hosts(c, faulty, services, sys', s) && sys' == H.Next(c, faulty, sys, H.Receive(s.replica, id, bytes))
  {
    hide *;
    HostParts(c, faulty, services, sys, s);
    OthersAre(c, faulty, services, sys, s);
    ghost var others, a := services - {s.replica}, H.Receive(s.replica, id, bytes);
    ghost var x := TransactionAlone(s, sys.nodes[s.replica], id, bytes, c, others, sys, Parts(others));
    sys' := H.Next(c, faulty, sys, a);
    H.NextKeeps(c, faulty, sys, a);
    ReceiveIs(c, faulty, sys, s.replica, id, bytes);
    Moved(c, faulty, services, sys, sys', s, x, old(Parts(others)));
  }

  lemma ReceiveIs(c: Context, faulty: set<Replica>, sys: H.System, i: Replica, id: TxID, bytes: Content)
    requires i in sys.nodes
    ensures H.Next(c, faulty, sys, H.Receive(i, id, bytes)).nodes == sys.nodes[i := H.Learn(sys.nodes[i], id, bytes)]
  {
    hide H.Learn;
  }

  // ----- A candidate

  method CandidateAlone(s: OFOService, ghost x: H.Node, f: Fragment, signature: Signature, sender: Replica,
                        ghost c: Context, ghost others: Services, ghost sys: H.System, ghost rest: set<object>)
    returns (ack: H.Ack, ghost x': H.Node)
    requires s.Valid() && Shows(s, x) && AllUp(c, others, sys, rest) && Foreign(s, others, rest)
    modifies s`pending
    ensures s.Valid() && Shows(s, x') && AllUp(c, others, sys, rest) && ack == H.Answer(s.replica, x', f)
    ensures x' == if Delivered(s, f, signature, sender) then H.Verify(s.c, x, f) else x
    ensures s.pending == old(s.pending) || (s.pending.Some? && fresh(s.pending.value.done))
  {
    hide *;
    ForeignIs(s, others, rest);
    ack, x' := OnCandidate(s, x, f, signature, sender);
  }

  /** The step that an arriving copy of a candidate makes: the leader's own, rightly signed
      copy is verified by a follower, any other copy is only answered. */
  function CandidateAction(s: OFOService, f: Fragment, signature: Signature, sender: Replica): H.Action {
    if Delivered(s, f, signature, sender) then H.Candidate(s.replica, f) else H.Stray(s.replica, f)
  }

  /** A candidate that reaches a replica, from anyone and however signed, is one step of
      the system, and the replica's answer is then under way. What the leader signs and
      sends are its own candidates. */
  method CandidateStep(s: OFOService, f: Fragment, signature: Signature, sender: Replica,
                       ghost c: Context, ghost faulty: set<Replica>, ghost services: Services, ghost sys: H.System)
    returns (ack: H.Ack, ghost sys': H.System)
    requires Hosts(c, faulty, services, sys, s)
    requires Delivered(s, f, signature, sender) ==> f in sys.candidates
    modifies s`pending
    ensures Hosts(c, faulty, services, sys', s) && ack in sys'.acks
    ensures sys' == H.Next(c, faulty, sys, CandidateAction(s, f, signature, sender))
    ensures ack == H.Answer(s.replica, sys'.nodes[s.replica], f)
  {
    hide *;
    HostParts(c, faulty, services, sys, s);
    OthersAre(c, faulty, services, sys, s);
    SlotsAre(services, s);
    ApartIs(services);
    ghost var slots := SlotsOf(services);
    ghost var others, a := services - {s.replica}, CandidateAction(s, f, signature, sender);
    ghost var x;
    ack, x := CandidateAlone(s, sys.nodes[s.replica], f, signature, sender, c, others, sys, Parts(others));
    sys' := H.Next(c, faulty, sys, a);
    H.NextKeeps(c, faulty, sys, a);
    CandidateIs(s, f, signature, sender, faulty, sys);
    StillApart(services, slots, s);
    Moved(c, faulty, services, sys, sys', s, x, old(Parts(others)));
  }

  lemma CandidateIs(s: OFOService, f: Fragment, signature: Signature, sender: Replica, faulty: set<Replica>,
                    sys: H.System)
    requires s.replica in sys.nodes && (Delivered(s, f, signature, sender) ==> f in sys.candidates)
    ensures var x := sys.nodes[s.replica];
      var x' := if Delivered(s, f, signature, sender) then H.Verify(s.c, x, f) else x;
      var sys' := H.Next(s.c, faulty, sys, CandidateAction(s, f, signature, sender));
      sys'.nodes == sys.nodes[s.replica := x'] && H.Answer(s.replica, x', f) in sys'.acks
  {
    hide H.Verify, H.Answer, FragmentDigest;
    assert sys.nodes[s.replica := sys.nodes[s.replica]] == sys.nodes;
  }

  // ----- A commit

  method CommitAlone(s: OFOService, ghost x: H.Node, digest: Digest, sender: Replica,
                     ghost c: Context, ghost others: Services, ghost sys: H.System, ghost rest: set<object>)
    returns (ghost x': H.Node)
    requires s.Valid() && Shows(s, x) && AllUp(c, others, sys, rest) && Foreign(s, others, rest)
    modifies s, if s.pending.Some? then {s.pending.value.done} else {}
    ensures s.Valid() && Shows(s, x') && AllUp(c, others, sys, rest)
    ensures x' == if sender == s.c.leader then H.Install(x, digest) else x
    ensures s.pending == old(s.pending) || s.pending.None?
  {
    hide *;
    ForeignIs(s, others, rest);
    x' := OnCommit(s, x, digest, sender);
  }

  /** A commit message of the leader is the system's commit step; anyone else's is nothing. */
  method CommitStep(s: OFOService, digest: Digest, sender: Replica,
                    ghost c: Context, ghost faulty: set<Replica>, ghost services: Services, ghost sys: H.System)
    returns (ghost sys': H.System)
    requires Hosts(c, faulty, services, sys, s) && (sender == c.leader ==> digest in sys.commits)
    modifies s, if s.pending.Some? then {s.pending.value.done} else {}
    ensures Hosts(c, faulty, services, sys', s)
    ensures sys' == if sender == c.leader then H.Next(c, faulty, sys, H.Commit(s.replica, digest)) else sys
  {
    hide *;
    HostParts(c, faulty, services, sys, s);
    OthersAre(c, faulty, services, sys, s);
    SlotsAre(services, s);
    ApartIs(services);
    ghost var slots := SlotsOf(services);
    ghost var others, a := services - {s.replica}, H.Commit(s.replica, digest);
    ghost var x := CommitAlone(s, sys.nodes[s.replica], digest, sender, c, others, sys, Parts(others));
    sys' := if sender == c.leader then H.Next(c, faulty, sys, a) else sys;
    H.NextKeeps(c, faulty, sys, a);
    CommitIs(c, faulty, sys, s.replica, digest);
    StillApart(services, slots, s);
    Moved(c, faulty, services, sys, sys', s, x, old(Parts(others)));
  }

  lemma CommitIs(c: Context, faulty: set<Replica>, sys: H.System, i: Replica, digest: Digest)
    requires i in sys.nodes
    ensures digest in sys.commits ==>
      H.Next(c, faulty, sys, H.Commit(i, digest)).nodes == sys.nodes[i := H.Install(sys.nodes[i], digest)]
    ensures sys.nodes[i := sys.nodes[i]] == sys.nodes
  {
    hide H.Install;
  }

  // ----- The leader's own steps

  method ConstructAlone(s: OFOService, ghost x: H.Node, orders: seq<LocalOrder>,
                        ghost c: Context, ghost others: Services, ghost sys: H.System, ghost rest: set<object>)
    returns (candidate: Option<Fragment>, ghost x': H.Node)
    requires s.Valid() && s.Leads() && Shows(s, x) && AllUp(c, others, sys, rest) && Foreign(s, others, rest)
    modifies s`pending
    ensures s.Valid() && Shows(s, x') && AllUp(c, others, sys, rest)
    ensures candidate.None? ==> x' == x && s.pending == old(s.pending)
    ensures candidate.Some? ==>
      && H.CanTake(s.c, x, candidate.value) && x' == H.Take(x, candidate.value)
      && candidate.value.evidence == LO.Canonical(orders) && s.pending.Some? && fresh(s.pending.value.done)
  {
    hide *;
    ForeignIs(s, others, rest);
    ShowsIs(s, x);
    var ok := s.ConstructCandidate(orders);
    if !ok {
      ShowsIs(s, x);
      return None, x;
    }
    Taken(s, x, s.pending.value.fragment);
    return Some(s.pending.value.fragment), H.Take(x, s.pending.value.fragment);
  }

  /** A construction that succeeds is the system's construct step. */
  method ConstructStep(s: OFOService, orders: seq<LocalOrder>,
                       ghost c: Context, ghost faulty: set<Replica>, ghost services: Services, ghost sys: H.System)
    returns (candidate: Option<Fragment>, ghost sys': H.System)
    requires Hosts(c, faulty, services, sys, s) && s.Leads()
    modifies s`pending
    ensures Hosts(c, faulty, services, sys', s)
    ensures candidate.None? ==> sys' == sys
    ensures candidate.Some? ==>
      && sys' == H.Next(c, faulty, sys, H.Construct(candidate.value)) && candidate.value in sys'.candidates
      && sys'.nodes[s.replica].slot == candidate && sys'.gate == Some(H.Open(c.cfg.params, {c.leader}))
  {
    hide *;
    HostParts(c, faulty, services, sys, s);
    OthersAre(c, faulty, services, sys, s);
    SlotsAre(services, s);
    ApartIs(services);
    ghost var slots := SlotsOf(services);
    ghost var others := services - {s.replica};
    ghost var x;
    candidate, x := ConstructAlone(s, sys.nodes[s.replica], orders, c, others, sys, Parts(others));
    sys' := sys;
    CommitIs(c, faulty, sys, s.replica, ZERO_DIGEST);
    LeadsIs(s);
    if candidate.Some? {
      sys' := H.Next(c, faulty, sys, H.Construct(candidate.value));
      H.NextKeeps(c, faulty, sys, H.Construct(candidate.value));
      ConstructIs(c, faulty, sys, candidate.value);
    }
    StillApart(services, slots, s);
    Moved(c, faulty, services, sys, sys', s, x, old(Parts(others)));
  }

  lemma LeadsIs(s: OFOService)
    ensures s.Leads() <==> s.replica == s.c.leader
  {
  }

  /** A free slot means that no proposal is under way. */
  lemma ConstructIs(c: Context, faulty: set<Replica>, sys: H.System, f: Fragment)
    requires H.Inv(c, faulty, sys) && c.leader in sys.nodes && H.CanTake(c, sys.nodes[c.leader], f)
    ensures var t := H.Next(c, faulty, sys, H.Construct(f));
      && t.nodes == sys.nodes[c.leader := H.Take(sys.nodes[c.leader], f)] && t.nodes[c.leader].slot == Some(f)
      && f in t.candidates && t.gate == Some(H.Open(c.cfg.params, {c.leader}))
  {
    hide Acceptable, Available, FragmentDigest, H.Nodes, H.Prefixes, H.Commits, H.Acks, H.Quorums;
  }

  method ProposeAlone(s: OFOService, ghost x: H.Node, digest: Digest, acks: seq<H.Ack>, sent: bool, cancelled: bool,
                      ghost c: Context, ghost others: Services, ghost sys: H.System, ghost rest: set<object>)
    returns (committed: bool, ghost x': H.Node)
    requires s.Valid() && Shows(s, x) && AllUp(c, others, sys, rest) && Foreign(s, others, rest)
    modifies s, if s.pending.Some? then {s.pending.value.done} else {}
    ensures s.Valid() && Shows(s, x') && AllUp(c, others, sys, rest)
    ensures committed <==> sent && !cancelled && Quorum(s.c, digest, acks) && H.Held(x, digest)
    ensures x' == if committed then H.Install(x, digest) else Drop(x, digest)
    ensures s.pending == old(s.pending) || s.pending.None?
  {
    hide *;
    ForeignIs(s, others, rest);
    committed, x' := Adapter.Propose(s, x, digest, acks, sent, cancelled);
  }

  /** A proposal, once its gate is open, is the steps that hear its acknowledgements and
      then settle or cancel. */
  method ProposeSteps(s: OFOService, digest: Digest, acks: seq<H.Ack>, sent: bool, cancelled: bool,
                      ghost c: Context, ghost faulty: set<Replica>, ghost services: Services, ghost sys: H.System)
    returns (committed: bool, ghost sys': H.System)
    requires Hosts(c, faulty, services, sys, s) && s.Leads() && H.Held(sys.nodes[s.replica], digest)
    requires sys.gate == Some(H.Open(c.cfg.params, {c.leader})) && forall a :: a in acks ==> a in sys.acks
    modifies s, if s.pending.Some? then {s.pending.value.done} else {}
    ensures Hosts(c, faulty, services, sys', s)
    ensures committed <==> sent && !cancelled && Quorum(c, digest, acks)
    ensures sys' == H.Next(c, faulty, H.Steps(c, faulty, sys, Hearing(acks)), if committed then H.Settle else H.Cancel)
    ensures sys'.gate.None? && (committed ==> digest in sys'.commits)
  {
    hide *;
    HostParts(c, faulty, services, sys, s);
    OthersAre(c, faulty, services, sys, s);
    LeadsIs(s);
    SlotsAre(services, s);
    ApartIs(services);
    ghost var slots := SlotsOf(services);
    ghost var others := services - {s.replica};
    ghost var x;
    committed, x := ProposeAlone(s, sys.nodes[s.replica], digest, acks, sent, cancelled, c, others, sys, Parts(others));
    ghost var heard, a := H.Steps(c, faulty, sys, Hearing(acks)), if committed then H.Settle else H.Cancel;
    sys' := H.Next(c, faulty, heard, a);
    H.StepsKeep(c, faulty, sys, Hearing(acks));
    H.NextKeeps(c, faulty, heard, a);
    ProposeIsSteps(c, faulty, sys, digest, acks, committed);
    StillApart(services, slots, s);
    Moved(c, faulty, services, sys, sys', s, x, old(Parts(others)));
  }
}

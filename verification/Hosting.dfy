/**
  The hosting gate and the commit messages between nodes (pkg/auth_adapter.go): a system
  of replicas over a network that may lose, duplicate and reorder everything.
 */
module Hosting {
  import opened Types
  import opened EvidenceSpec
  import opened Chain
  import opened Agreement

  // ----- The gate of `Propose`

  datatype Ack = Ack(from: Replica, digest: Digest, accepted: bool)

  datatype Gate = Waiting(accepted: set<Replica>) | Refused | Reached(accepted: set<Replica>)

  function Open(p: Params, accepted: set<Replica>): Gate {
    if |accepted| >= p.n - p.f then Reached(accepted) else Waiting(accepted)
  }

  /** Other digests, unknown senders and repeated senders are skipped. */
  function Hear(p: Params, digest: Digest, g: Gate, ack: Ack): Gate {
    if !g.Waiting? || ack.digest != digest || ack.from >= p.n || ack.from in g.accepted then g
    else if !ack.accepted then Refused
    else Open(p, g.accepted + {ack.from})
  }

  function HearAll(p: Params, digest: Digest, g: Gate, acks: seq<Ack>): Gate {
    if acks == [] then g else Hear(p, digest, HearAll(p, digest, g, acks[..|acks| - 1]), acks[|acks| - 1])
  }

  ghost predicate Backed(p: Params, leader: Replica, digest: Digest, acks: seq<Ack>, accepted: set<Replica>) {
    leader in accepted && forall i :: i in accepted && i != leader ==> i < p.n && Ack(i, digest, true) in acks
  }

  lemma {:induction false} HearAllBacked(p: Params, leader: Replica, digest: Digest, acks: seq<Ack>)
    ensures var g := HearAll(p, digest, Open(p, {leader}), acks);
      && (g.Waiting? ==> Backed(p, leader, digest, acks, g.accepted))
      && (g.Reached? ==> Backed(p, leader, digest, acks, g.accepted) && |g.accepted| >= p.n - p.f)
  {
    if acks != [] {
      HearAllBacked(p, leader, digest, acks[..|acks| - 1]);
      assert forall a :: a in acks[..|acks| - 1] ==> a in acks;
    }
  }

  lemma {:induction false} GateStays(p: Params, digest: Digest, g: Gate, acks: seq<Ack>, k: nat)
    requires k <= |acks| && !HearAll(p, digest, g, acks[..k]).Waiting?
    ensures HearAll(p, digest, g, acks) == HearAll(p, digest, g, acks[..k])
    decreases |acks|
  {
    if k < |acks| {
      assert acks[..|acks| - 1][..k] == acks[..k];
      GateStays(p, digest, g, acks[..|acks| - 1], k);
    } else {
      assert acks[..k] == acks;
    }
  }

  /** The leader and whoever accepted the digest among the first k acknowledgements. */
  ghost function Acceptors(p: Params, leader: Replica, digest: Digest, acks: seq<Ack>, k: nat): set<Replica>
    requires k <= |acks|
  {
    {leader} + set j | 0 <= j < k && acks[j].digest == digest && acks[j].from < p.n && acks[j].accepted :: acks[j].from
  }

  /** Among the first k acknowledgements nobody refuses the digest who has not accepted it
      before. */
  ghost predicate Unrefused(p: Params, leader: Replica, digest: Digest, acks: seq<Ack>, k: nat)
    requires k <= |acks|
  {
    forall j :: 0 <= j < k && acks[j].digest == digest && acks[j].from < p.n && !acks[j].accepted ==>
      acks[j].from in Acceptors(p, leader, digest, acks, j)
  }

  lemma AcceptorsMore(p: Params, leader: Replica, digest: Digest, acks: seq<Ack>, k: nat)
    requires k < |acks|
    ensures var a, more := acks[k], Acceptors(p, leader, digest, acks, k + 1);
      more == if a.digest == digest && a.from < p.n && a.accepted
              then Acceptors(p, leader, digest, acks, k) + {a.from} else Acceptors(p, leader, digest, acks, k)
    ensures Unrefused(p, leader, digest, acks, k + 1) <==>
      && Unrefused(p, leader, digest, acks, k)
      && (acks[k].digest == digest && acks[k].from < p.n && !acks[k].accepted ==>
           acks[k].from in Acceptors(p, leader, digest, acks, k))
  {
  }

  ghost predicate Passes(p: Params, leader: Replica, digest: Digest, acks: seq<Ack>, k: nat)
    requires k <= |acks|
  {
    |Acceptors(p, leader, digest, acks, k)| >= p.n - p.f && Unrefused(p, leader, digest, acks, k)
  }

  ghost predicate Passed(p: Params, leader: Replica, digest: Digest, acks: seq<Ack>, k: nat)
    requires k <= |acks|
  {
    exists j :: 0 <= j <= k && Passes(p, leader, digest, acks, j)
  }

  lemma PassedMore(p: Params, leader: Replica, digest: Digest, acks: seq<Ack>, k: nat)
    requires k < |acks|
    ensures Passed(p, leader, digest, acks, k + 1)
       <==> Passed(p, leader, digest, acks, k) || Passes(p, leader, digest, acks, k + 1)
    ensures Passes(p, leader, digest, acks, k) ==> Passed(p, leader, digest, acks, k)
  {
    hide Passes;
  }

  /** Where the gate stands, by counting the acknowledgements. */
  ghost predicate StandsAt(p: Params, g: Gate, accepted: set<Replica>, unrefused: bool, passed: bool) {
    && (g.Reached? <==> passed) && (g.Refused? ==> !unrefused)
    && (g.Waiting? ==> g.accepted == accepted && unrefused && |accepted| < p.n - p.f)
  }

  lemma StandsAfter(p: Params, digest: Digest, g: Gate, a: Ack, accepted: set<Replica>, unrefused: bool, passed: bool)
    requires StandsAt(p, g, accepted, unrefused, passed)
    ensures var heard := a.digest == digest && a.from < p.n;
      var accepted' := if heard && a.accepted then accepted + {a.from} else accepted;
      var unrefused' := unrefused && (heard && !a.accepted ==> a.from in accepted);
      StandsAt(p, Hear(p, digest, g, a), accepted', unrefused', passed || (|accepted'| >= p.n - p.f && unrefused'))
  {
    if a.from in accepted {
      assert accepted + {a.from} == accepted;
    }
  }

  lemma {:induction false} GateAfter(p: Params, leader: Replica, digest: Digest, acks: seq<Ack>, k: nat)
    requires k <= |acks|
    ensures StandsAt(p, HearAll(p, digest, Open(p, {leader}), acks[..k]), Acceptors(p, leader, digest, acks, k),
                     Unrefused(p, leader, digest, acks, k), Passed(p, leader, digest, acks, k))
  {
    hide Acceptors, Unrefused, Passed, Passes, StandsAt, Hear, Open;
    if k == 0 {
      assert acks[..0] == [];
      GateOpens(p, leader, digest, acks);
    } else {
      GateAfter(p, leader, digest, acks, k - 1);
      AcceptorsMore(p, leader, digest, acks, k - 1);
      PassedMore(p, leader, digest, acks, k - 1);
      assert acks[..k][..k - 1] == acks[..k - 1];
      StandsAfter(p, digest, HearAll(p, digest, Open(p, {leader}), acks[..k - 1]), acks[k - 1],
                  Acceptors(p, leader, digest, acks, k - 1), Unrefused(p, leader, digest, acks, k - 1),
                  Passed(p, leader, digest, acks, k - 1));
      PassesIs(p, leader, digest, acks, k);
    }
  }

  lemma PassesIs(p: Params, leader: Replica, digest: Digest, acks: seq<Ack>, k: nat)
    requires k <= |acks|
    ensures Passes(p, leader, digest, acks, k)
       <==> |Acceptors(p, leader, digest, acks, k)| >= p.n - p.f && Unrefused(p, leader, digest, acks, k)
  {
    hide Acceptors, Unrefused;
  }

  lemma GateOpens(p: Params, leader: Replica, digest: Digest, acks: seq<Ack>)
    ensures StandsAt(p, Open(p, {leader}), Acceptors(p, leader, digest, acks, 0), Unrefused(p, leader, digest, acks, 0),
                     Passed(p, leader, digest, acks, 0))
  {
    NobodyYet(p, leader, digest, acks);
    hide Acceptors, Unrefused;
    assert Passes(p, leader, digest, acks, 0) <==> |{leader}| >= p.n - p.f;
  }

  lemma NobodyYet(p: Params, leader: Replica, digest: Digest, acks: seq<Ack>)
    ensures Acceptors(p, leader, digest, acks, 0) == {leader} && Unrefused(p, leader, digest, acks, 0)
  {
  }

  /** The gate is reached exactly when, at some point, n - f replicas stand for the digest
      and none has refused it. */
  lemma ReachedIff(p: Params, leader: Replica, digest: Digest, acks: seq<Ack>)
    ensures HearAll(p, digest, Open(p, {leader}), acks).Reached? <==> exists k ::
      && 0 <= k <= |acks| && |Acceptors(p, leader, digest, acks, k)| >= p.n - p.f
      && forall j :: 0 <= j < k && acks[j].digest == digest && acks[j].from < p.n && !acks[j].accepted ==>
           acks[j].from in Acceptors(p, leader, digest, acks, j)
  {
    hide HearAll, Open, Acceptors;
    GateAfter(p, leader, digest, acks, |acks|);
    assert acks[..|acks|] == acks;
    if k :| 0 <= k <= |acks| && |Acceptors(p, leader, digest, acks, k)| >= p.n - p.f
            && forall j :: 0 <= j < k && acks[j].digest == digest && acks[j].from < p.n && !acks[j].accepted ==>
                 acks[j].from in Acceptors(p, leader, digest, acks, j)
    {
      assert Passes(p, leader, digest, acks, k);
    }
  }

  /** The acknowledgement loop of `Propose`; the input ends when the context is cancelled.
      It commits exactly when, after some of the acknowledgements, the leader and those who
      accepted are n - f and nobody else has refused; strangers, other digests and second
      thoughts do not count. */
  method AwaitQuorum(p: Params, leader: Replica, digest: Digest, acks: seq<Ack>)
    returns (commit: bool, accepted: set<Replica>)
    requires p.Ok()
    ensures commit <==> exists k ::
      && 0 <= k <= |acks| && |Acceptors(p, leader, digest, acks, k)| >= p.n - p.f
      && forall j :: 0 <= j < k && acks[j].digest == digest && acks[j].from < p.n && !acks[j].accepted ==>
           acks[j].from in Acceptors(p, leader, digest, acks, j)
    ensures commit <==> HearAll(p, digest, Open(p, {leader}), acks).Reached?
    ensures commit ==> |accepted| >= p.n - p.f && Backed(p, leader, digest, acks, accepted)
  {
    hide Acceptors;
    ReachedIff(p, leader, digest, acks);
    ghost var start := Open(p, {leader});
    accepted := {leader};
    var k := 0;
    assert acks[..0] == [];
    while |accepted| < p.n - p.f
      invariant k <= |acks| && HearAll(p, digest, start, acks[..k]) == Open(p, accepted)
      decreases |acks| - k
    {
      if k == |acks| {
        assert acks[..k] == acks;
        return false, accepted;
      }
      var ack := acks[k];
      assert acks[..k + 1][..k] == acks[..k];
      k := k + 1;
      if ack.digest != digest || ack.from >= p.n || ack.from in accepted {
        continue;
      }
      if !ack.accepted {
        GateStays(p, digest, start, acks, k);
        return false, accepted;
      }
      accepted := accepted + {ack.from};
    }
    GateStays(p, digest, start, acks, k);
    HearAllBacked(p, leader, digest, acks);
    return true, accepted;
  }

  // ----- The system

  /** A replica: what it committed, its pending candidate, every digest it ever had
      pending, and the content it has. */
  datatype Node = Node(history: seq<Fragment>, slot: Option<Fragment>, everPending: set<Digest>, store: Admission)

  /** Messages are never removed: any of them may arrive any number of times, or never. */
  datatype System = System(
    nodes: map<Replica, Node>,
    candidates: set<Fragment>,
    acks: set<Ack>,
    commits: set<Digest>,
    gate: Option<Gate>,
    quorums: map<Digest, set<Replica>>)

  /** Besides the leader's candidates a replica may get copies that do not count: from
      another sender, wrongly signed, or at the leader itself. It looks at none of these
      (`Stray`), but it answers them all. */
  datatype Action =
    | Receive(i: Replica, id: TxID, bytes: Content)
    | Construct(f: Fragment)
    | Candidate(i: Replica, f: Fragment)
    | Stray(i: Replica, f: Fragment)
    | Forge(ack: Ack)
    | Acknowledge(ack: Ack)
    | Settle
    | Cancel
    | Commit(i: Replica, digest: Digest)

  function Fresh(store: Admission): Node {
    Node([], None, {}, store)
  }

  function Start(n: nat, stores: Replica -> Admission): System {
    System(map i | i in Replicas(n) :: Fresh(stores(i)), {}, {}, {}, None, map[])
  }

  function NodeOf(s: System, i: Replica): Node {
    if i in s.nodes then s.nodes[i] else Fresh(NO_CONTENT)
  }

  const NO_CONTENT := Admission(map[], bytes => 0, bytes => true)

  function Held(x: Node, digest: Digest): bool {
    x.slot.Some? && FragmentDigest(x.slot.value) == digest
  }

  function Take(x: Node, f: Fragment): Node {
    x.(slot := Some(f), everPending := x.everPending + {FragmentDigest(f)})
  }

  ghost predicate CanTake(c: Context, x: Node, f: Fragment) {
    && x.slot.None? && Acceptable(c, StateAfter(c, x.history), LatestAfter(c, x.history), f)
    && Available(x.store, StateAfter(c, x.history).done, f.evidence)
  }

  /** Valid content is kept; the rest is dropped. */
  function Learn(x: Node, id: TxID, bytes: Content): Node {
    var stored := Store(x.store, id, bytes);
    if x.store.validate(bytes) && stored.Some? then x.(store := stored.value) else x
  }

  /** A follower's handling of a candidate. */
  ghost function Verify(c: Context, x: Node, f: Fragment): Node {
    if CanTake(c, x, f) then Take(x, f) else x
  }

  /** What a replica answers about a candidate once it has dealt with it. */
  function Answer(i: Replica, x: Node, f: Fragment): Ack {
    Ack(i, FragmentDigest(f), Held(x, FragmentDigest(f)))
  }

  function Install(x: Node, digest: Digest): Node {
    if Held(x, digest) then x.(history := x.history + [x.slot.value], slot := None) else x
  }

  ghost function Next(c: Context, faulty: set<Replica>, s: System, a: Action): System {
    var p, l := c.cfg.params, c.leader;
    match a
    case Receive(i, id, bytes) =>
      if i in s.nodes then s.(nodes := s.nodes[i := Learn(s.nodes[i], id, bytes)]) else s
    case Construct(f) =>
      if l in s.nodes && s.gate.None? && CanTake(c, s.nodes[l], f) then
        s.(nodes := s.nodes[l := Take(s.nodes[l], f)], candidates := s.candidates + {f}, gate := Some(Open(p, {l})))
      else s
    case Candidate(i, f) =>
      if i in s.nodes && i != l && f in s.candidates then
        var x := Verify(c, s.nodes[i], f);
        s.(nodes := s.nodes[i := x], acks := s.acks + {Answer(i, x, f)})
      else s
    case Stray(i, f) =>
      if i in s.nodes then s.(acks := s.acks + {Answer(i, s.nodes[i], f)}) else s
    case Forge(ack) =>
      if ack.from in faulty then s.(acks := s.acks + {ack}) else s
    case Acknowledge(ack) =>
      if s.gate.Some? && ack in s.acks && NodeOf(s, l).slot.Some? then
        s.(gate := Some(Hear(p, FragmentDigest(NodeOf(s, l).slot.value), s.gate.value, ack)))
      else s
    case Settle =>
      if l in s.nodes && s.gate.Some? && s.nodes[l].slot.Some? && !s.gate.value.Waiting? then
        var d := FragmentDigest(s.nodes[l].slot.value);
        if s.gate.value.Refused? then s.(nodes := s.nodes[l := s.nodes[l].(slot := None)], gate := None)
        else s.(nodes := s.nodes[l := Install(s.nodes[l], d)], gate := None, commits := s.commits + {d},
                quorums := s.quorums[d := s.gate.value.accepted])
      else s
    case Cancel =>
      if l in s.nodes then s.(nodes := s.nodes[l := s.nodes[l].(slot := None)], gate := None) else s
    case Commit(i, d) =>
      if i in s.nodes && d in s.commits then s.(nodes := s.nodes[i := Install(s.nodes[i], d)]) else s
  }

  ghost function Steps(c: Context, faulty: set<Replica>, s: System, actions: seq<Action>): System {
    if actions == [] then s
    else Next(c, faulty, Steps(c, faulty, s, actions[..|actions| - 1]), actions[|actions| - 1])
  }

  ghost function AfterActions(c: Context, faulty: set<Replica>, stores: Replica -> Admission,
                              actions: seq<Action>): System {
    Steps(c, faulty, Start(c.cfg.params.n, stores), actions)
  }

  // ----- The invariant

  function Digests(h: seq<Fragment>): seq<Digest> {
    seq(|h|, k requires 0 <= k < |h| => FragmentDigest(h[k]))
  }

  ghost predicate NodeOk(c: Context, x: Node) {
    && Run(c, x.history)
    && (x.slot.Some? ==> Acceptable(c, StateAfter(c, x.history), LatestAfter(c, x.history), x.slot.value)
                         && FragmentDigest(x.slot.value) in x.everPending)
  }

  /** The honest members of a quorum had the digest pending. */
  ghost predicate Supported(s: System, faulty: set<Replica>, digest: Digest, accepted: set<Replica>) {
    forall i :: i in accepted && i !in faulty ==> i in s.nodes && digest in s.nodes[i].everPending
  }

  ghost predicate Nodes(c: Context, s: System) {
    && s.nodes.Keys == Replicas(c.cfg.params.n)
    && (forall i :: i in s.nodes ==> NodeOk(c, s.nodes[i]))
  }

  ghost predicate Prefixes(c: Context, s: System) {
    forall i :: i in s.nodes ==> Digests(s.nodes[i].history) <= Digests(NodeOf(s, c.leader).history)
  }

  ghost predicate Commits(c: Context, s: System) {
    forall d :: d in s.commits ==> d in Digests(NodeOf(s, c.leader).history)
  }

  ghost predicate Acks(s: System, faulty: set<Replica>) {
    forall a :: a in s.acks && a.accepted && a.from !in faulty ==>
      a.from in s.nodes && a.digest in s.nodes[a.from].everPending
  }

  ghost predicate GateOk(c: Context, faulty: set<Replica>, s: System) {
    s.gate.Some? ==>
      && NodeOf(s, c.leader).slot.Some?
      && var d := FragmentDigest(NodeOf(s, c.leader).slot.value);
         match s.gate.value
         case Waiting(a) => c.leader in a && Supported(s, faulty, d, a)
         case Refused => true
         case Reached(a) => c.leader in a && |a| >= c.cfg.params.n - c.cfg.params.f && Supported(s, faulty, d, a)
  }

  /** Behind every committed digest stand n - f replicas, the leader among them. */
  ghost predicate Quorums(c: Context, faulty: set<Replica>, s: System) {
    forall d :: d in Digests(NodeOf(s, c.leader).history) ==>
      && d in s.quorums && |s.quorums[d]| >= c.cfg.params.n - c.cfg.params.f && c.leader in s.quorums[d]
      && Supported(s, faulty, d, s.quorums[d])
  }

  ghost predicate Inv(c: Context, faulty: set<Replica>, s: System) {
    && Nodes(c, s) && Prefixes(c, s) && Commits(c, s)
    && Acks(s, faulty) && GateOk(c, faulty, s) && Quorums(c, faulty, s)
  }

  // ----- Every action keeps it

  ghost predicate Remembers(x: Node, y: Node) {
    x.everPending <= y.everPending
  }

  lemma StaysSupported(s: System, t: System, faulty: set<Replica>, digest: Digest, accepted: set<Replica>)
    requires Supported(s, faulty, digest, accepted)
    requires forall i :: i in s.nodes ==> i in t.nodes && Remembers(s.nodes[i], t.nodes[i])
    ensures Supported(t, faulty, digest, accepted)
  {
  }

  /** One replica changes its slot; no history does. */
  lemma SlotChanges(c: Context, faulty: set<Replica>, s: System, t: System, i: Replica, x: Node)
    requires Inv(c, faulty, s) && i in s.nodes && NodeOk(c, x)
    requires x.history == s.nodes[i].history && Remembers(s.nodes[i], x)
    requires t.nodes == s.nodes[i := x] && t.commits == s.commits && t.quorums == s.quorums
    ensures Nodes(c, t) && Prefixes(c, t) && Commits(c, t) && Quorums(c, faulty, t)
    ensures forall d, accepted :: Supported(s, faulty, d, accepted) ==> Supported(t, faulty, d, accepted)
    ensures t.acks == s.acks ==> Acks(t, faulty)
    ensures i != c.leader && t.gate == s.gate ==> GateOk(c, faulty, t)
  {
    hide NodeOk, Digests, FragmentDigest;
    forall j | j in s.nodes ensures j in t.nodes && Remembers(s.nodes[j], t.nodes[j]) {
    }
    forall d, accepted | Supported(s, faulty, d, accepted) ensures Supported(t, faulty, d, accepted) {
      StaysSupported(s, t, faulty, d, accepted);
    }
    assert NodeOf(t, c.leader).history == NodeOf(s, c.leader).history;
    hide Supported;
  }

  /** No replica changes. */
  lemma NodesStay(c: Context, faulty: set<Replica>, s: System, t: System)
    requires Inv(c, faulty, s) && t.nodes == s.nodes && t.commits == s.commits && t.quorums == s.quorums
    ensures Nodes(c, t) && Prefixes(c, t) && Commits(c, t) && Quorums(c, faulty, t)
    ensures forall d, accepted :: Supported(s, faulty, d, accepted) ==> Supported(t, faulty, d, accepted)
    ensures t.acks == s.acks ==> Acks(t, faulty)
    ensures t.gate == s.gate ==> GateOk(c, faulty, t)
  {
    hide NodeOk, Digests, FragmentDigest;
    assert NodeOf(t, c.leader) == NodeOf(s, c.leader);
    forall d, accepted | Supported(s, faulty, d, accepted) ensures Supported(t, faulty, d, accepted) {
    }
    hide Supported;
  }

  lemma TakeOk(c: Context, x: Node, f: Fragment)
    requires NodeOk(c, x) && CanTake(c, x, f)
    ensures NodeOk(c, Take(x, f)) && Remembers(x, Take(x, f))
  {
    hide Acceptable, StateAfter, LatestAfter, Run, FragmentDigest;
  }

  lemma InstallOk(c: Context, x: Node, digest: Digest)
    requires NodeOk(c, x) && Held(x, digest)
    ensures NodeOk(c, Install(x, digest)) && Remembers(x, Install(x, digest))
    ensures Digests(Install(x, digest).history) == Digests(x.history) + [digest]
  {
    hide *;
    NodeParts(c, x);
    HeldIs(x, digest);
    RunSnoc(c, x.history, x.slot.value);
    InstallIs(x, digest);
    NodeIf(c, Install(x, digest));
    DigestsSnoc(x.history, x.slot.value);
  }

  lemma NodeParts(c: Context, x: Node)
    requires NodeOk(c, x)
    ensures Run(c, x.history)
    ensures x.slot.Some? ==> Acceptable(c, StateAfter(c, x.history), LatestAfter(c, x.history), x.slot.value)
  {
  }

  lemma NodeIf(c: Context, x: Node)
    requires Run(c, x.history) && x.slot.None?
    ensures NodeOk(c, x)
  {
  }

  lemma HeldIs(x: Node, digest: Digest)
    ensures Held(x, digest) <==> x.slot.Some? && FragmentDigest(x.slot.value) == digest
  {
  }

  lemma InstallIs(x: Node, digest: Digest)
    ensures !Held(x, digest) ==> Install(x, digest) == x
    ensures Held(x, digest) ==>
      && x.slot.Some? && Install(x, digest).history == x.history + [x.slot.value]
      && Install(x, digest).slot == None && Install(x, digest).store == x.store
    ensures !Held(Install(x, digest), digest) && Remembers(x, Install(x, digest))
  {
    hide FragmentDigest;
  }

  lemma CanTakeIs(c: Context, x: Node, f: Fragment)
    ensures CanTake(c, x, f) <==>
      && x.slot.None? && Acceptable(c, StateAfter(c, x.history), LatestAfter(c, x.history), f)
      && Available(x.store, StateAfter(c, x.history).done, f.evidence)
  {
    hide Acceptable, Available, StateAfter, LatestAfter;
  }

  lemma DigestsSnoc(h: seq<Fragment>, f: Fragment)
    ensures Digests(h + [f]) == Digests(h) + [FragmentDigest(f)]
  {
    hide FragmentDigest;
  }

  lemma DropOk(c: Context, x: Node)
    requires NodeOk(c, x)
    ensures NodeOk(c, x.(slot := None)) && Remembers(x, x.(slot := None))
  {
  }

  lemma ConstructKeeps(c: Context, faulty: set<Replica>, s: System, f: Fragment)
    requires c.leader !in faulty && Inv(c, faulty, s)
    ensures Inv(c, faulty, Next(c, faulty, s, Construct(f)))
  {
    hide Acceptable, StateAfter, LatestAfter, Run, NodeOk, FragmentDigest, CanTake, Quorums, Prefixes, Commits;
    var l := c.leader;
    if l in s.nodes && s.gate.None? && CanTake(c, s.nodes[l], f) {
      TakeOk(c, s.nodes[l], f);
      SlotChanges(c, faulty, s, Next(c, faulty, s, Construct(f)), l, Take(s.nodes[l], f));
    }
  }

  lemma CandidateKeeps(c: Context, faulty: set<Replica>, s: System, i: Replica, f: Fragment)
    requires c.leader !in faulty && Inv(c, faulty, s)
    ensures Inv(c, faulty, Next(c, faulty, s, Candidate(i, f)))
  {
    hide Acceptable, StateAfter, LatestAfter, Run, FragmentDigest, CanTake, Quorums, Prefixes, Commits, GateOk;
    if i in s.nodes && i != c.leader && f in s.candidates {
      var t := Next(c, faulty, s, Candidate(i, f));
      if CanTake(c, s.nodes[i], f) {
        TakeOk(c, s.nodes[i], f);
      }
      SlotChanges(c, faulty, s, t, i, Verify(c, s.nodes[i], f));
    }
  }

  lemma StrayKeeps(c: Context, faulty: set<Replica>, s: System, i: Replica, f: Fragment)
    requires Inv(c, faulty, s)
    ensures Inv(c, faulty, Next(c, faulty, s, Stray(i, f)))
  {
    hide Acceptable, StateAfter, LatestAfter, Run, FragmentDigest, Quorums, Prefixes, Commits, GateOk;
    if i in s.nodes {
      NodesStay(c, faulty, s, Next(c, faulty, s, Stray(i, f)));
    }
  }

  lemma HearOk(c: Context, faulty: set<Replica>, s: System, ack: Ack)
    requires GateOk(c, faulty, s) && Acks(s, faulty) && s.gate.Some? && ack in s.acks
    requires s.nodes.Keys == Replicas(c.cfg.params.n)
    ensures var d := FragmentDigest(NodeOf(s, c.leader).slot.value);
      GateOk(c, faulty, s.(gate := Some(Hear(c.cfg.params, d, s.gate.value, ack))))
  {
    hide FragmentDigest;
    var d := FragmentDigest(NodeOf(s, c.leader).slot.value);
    var t := s.(gate := Some(Hear(c.cfg.params, d, s.gate.value, ack)));
    assert NodeOf(t, c.leader) == NodeOf(s, c.leader);
    if s.gate.value.Waiting? && ack.digest == d && ack.accepted {
      assert Supported(t, faulty, d, s.gate.value.accepted + {ack.from});
    }
  }

  lemma AcknowledgeKeeps(c: Context, faulty: set<Replica>, s: System, ack: Ack)
    requires c.leader !in faulty && Inv(c, faulty, s)
    ensures Inv(c, faulty, Next(c, faulty, s, Acknowledge(ack)))
  {
    hide Acceptable, StateAfter, LatestAfter, Run, NodeOk, FragmentDigest, Prefixes, Commits, Acks, GateOk, Quorums,
      Hear;
    NodesStay(c, faulty, s, Next(c, faulty, s, Acknowledge(ack)));
    if s.gate.Some? && ack in s.acks && NodeOf(s, c.leader).slot.Some? {
      HearOk(c, faulty, s, ack);
    }
  }

  lemma SettleKeeps(c: Context, faulty: set<Replica>, s: System)
    requires c.leader !in faulty && Inv(c, faulty, s)
    ensures Inv(c, faulty, Next(c, faulty, s, Settle))
  {
    hide *;
    var l := c.leader;
    var t := Next(c, faulty, s, Settle);
    if l in s.nodes && s.gate.Some? && s.nodes[l].slot.Some? && !s.gate.value.Waiting? {
      if s.gate.value.Refused? {
        RefusalIs(c, faulty, s);
        LeaderDrops(c, faulty, s, t);
      } else {
        LeaderInstalls(c, faulty, s);
      }
    } else {
      NothingSettled(c, faulty, s);
    }
  }

  lemma RefusalIs(c: Context, faulty: set<Replica>, s: System)
    requires c.leader in s.nodes && s.gate == Some(Refused) && s.nodes[c.leader].slot.Some?
    ensures Next(c, faulty, s, Settle)
         == s.(nodes := s.nodes[c.leader := s.nodes[c.leader].(slot := None)], gate := None)
  {
    hide FragmentDigest;
  }

  lemma NothingSettled(c: Context, faulty: set<Replica>, s: System)
    requires !(c.leader in s.nodes && s.gate.Some? && s.nodes[c.leader].slot.Some? && !s.gate.value.Waiting?)
    ensures Next(c, faulty, s, Settle) == s
  {
    hide FragmentDigest;
  }

  /** The leader gives up its candidate. */
  lemma LeaderDrops(c: Context, faulty: set<Replica>, s: System, t: System)
    requires Inv(c, faulty, s) && c.leader in s.nodes
    requires t == s.(nodes := s.nodes[c.leader := s.nodes[c.leader].(slot := None)], gate := None)
    ensures Inv(c, faulty, t)
  {
    hide Acceptable, StateAfter, LatestAfter, Run, FragmentDigest, Quorums, Prefixes, Commits, NodeOk;
    DropOk(c, s.nodes[c.leader]);
    SlotChanges(c, faulty, s, t, c.leader, s.nodes[c.leader].(slot := None));
  }

  lemma LeaderInstalls(c: Context, faulty: set<Replica>, s: System)
    requires c.leader !in faulty && Inv(c, faulty, s) && c.leader in s.nodes
    requires s.gate.Some? && s.gate.value.Reached? && s.nodes[c.leader].slot.Some?
    ensures Inv(c, faulty, Next(c, faulty, s, Settle))
  {
    hide Acceptable, StateAfter, LatestAfter, Run, NodeOk, Digests;
    var l := c.leader;
    var d := FragmentDigest(s.nodes[l].slot.value);
    var t := Next(c, faulty, s, Settle);
    InstallOk(c, s.nodes[l], d);
    hide FragmentDigest;
    forall j | j in s.nodes ensures j in t.nodes && Remembers(s.nodes[j], t.nodes[j]) {
    }
    forall e, accepted | Supported(s, faulty, e, accepted) ensures Supported(t, faulty, e, accepted) {
      StaysSupported(s, t, faulty, e, accepted);
    }
    hide Supported;
    assert Digests(NodeOf(t, l).history) == Digests(NodeOf(s, l).history) + [d];
  }

  lemma CancelKeeps(c: Context, faulty: set<Replica>, s: System)
    requires c.leader !in faulty && Inv(c, faulty, s)
    ensures Inv(c, faulty, Next(c, faulty, s, Cancel))
  {
    hide Inv, FragmentDigest;
    if c.leader in s.nodes {
      LeaderDrops(c, faulty, s, Next(c, faulty, s, Cancel));
    }
  }

  lemma ReceiveKeeps(c: Context, faulty: set<Replica>, s: System, i: Replica, id: TxID, bytes: Content)
    requires c.leader !in faulty && Inv(c, faulty, s)
    ensures Inv(c, faulty, Next(c, faulty, s, Receive(i, id, bytes)))
  {
    hide Acceptable, StateAfter, LatestAfter, Run, FragmentDigest, Quorums, Prefixes, Commits, Learn;
    if i in s.nodes {
      var t := Next(c, faulty, s, Receive(i, id, bytes));
      LearnOk(c, s.nodes[i], id, bytes);
      SlotChanges(c, faulty, s, t, i, Learn(s.nodes[i], id, bytes));
    }
  }

  lemma LearnOk(c: Context, x: Node, id: TxID, bytes: Content)
    ensures NodeOk(c, x) ==> NodeOk(c, Learn(x, id, bytes))
    ensures var y := Learn(x, id, bytes);
      y.history == x.history && y.slot == x.slot && y.everPending == x.everPending
  {
    hide Acceptable, StateAfter, LatestAfter, Run, FragmentDigest;
  }

  lemma SameSequence(f: Fragment, g: Fragment)
    requires FragmentDigest(f) == FragmentDigest(g)
    ensures f.fragmentSeq == g.fragmentSeq
  {
    assert EncodedFragment(f).fragmentSeq == f.fragmentSeq && EncodedFragment(g).fragmentSeq == g.fragmentSeq;
  }

  /** A committed digest names its place: a replica that holds the candidate for it has
      committed exactly what the leader committed before. */
  lemma CommitExtendsPrefix(c: Context, x: Node, leader: Node, digest: Digest)
    requires c.cfg.params.Ok() && NodeOk(c, x) && NodeOk(c, leader) && Held(x, digest)
    requires Digests(x.history) <= Digests(leader.history) && digest in Digests(leader.history)
    ensures Digests(x.history) + [digest] <= Digests(leader.history)
  {
    hide *;
    var k := IndexOf(leader.history, digest);
    NodeParts(c, x);
    NodeParts(c, leader);
    HeldIs(x, digest);
    RunAt(c, leader.history, k);
    RunValid(c, leader.history[..k]);
    RunValid(c, x.history);
    AcceptableParts(c, StateAfter(c, leader.history[..k]), LatestAfter(c, leader.history[..k]), leader.history[k]);
    AcceptableParts(c, StateAfter(c, x.history), LatestAfter(c, x.history), x.slot.value);
    SameSequence(x.slot.value, leader.history[k]);
    DigestsLength(x.history);
    PrefixMore(Digests(x.history), Digests(leader.history), k);
  }

  lemma IndexOf(h: seq<Fragment>, digest: Digest) returns (k: nat)
    requires digest in Digests(h)
    ensures k < |h| && FragmentDigest(h[k]) == digest && |Digests(h)| == |h| && Digests(h)[k] == digest
  {
    k :| 0 <= k < |h| && Digests(h)[k] == digest;
  }

  lemma DigestsLength(h: seq<Fragment>)
    ensures |Digests(h)| == |h|
  {
  }

  lemma PrefixMore<T>(a: seq<T>, b: seq<T>, k: nat)
    requires a <= b && k == |a| < |b|
    ensures a + [b[k]] <= b
  {
  }

  lemma CommitKeeps(c: Context, faulty: set<Replica>, s: System, i: Replica, digest: Digest)
    requires c.cfg.params.Ok() && c.leader !in faulty && c.leader < c.cfg.params.n && Inv(c, faulty, s)
    ensures Inv(c, faulty, Next(c, faulty, s, Commit(i, digest)))
  {
    hide Inv, FragmentDigest;
    if i in s.nodes && digest in s.commits {
      if Held(s.nodes[i], digest) {
        LeaderCommitsOnce(c, faulty, s, digest);
        FollowerInstalls(c, faulty, s, i, digest);
      } else {
        assert s.nodes[i := s.nodes[i]] == s.nodes;
      }
    }
  }

  /** The leader never holds a digest that it already committed. */
  lemma LeaderCommitsOnce(c: Context, faulty: set<Replica>, s: System, digest: Digest)
    requires c.cfg.params.Ok() && c.leader < c.cfg.params.n && Inv(c, faulty, s) && digest in s.commits
    ensures c.leader in s.nodes && !Held(s.nodes[c.leader], digest)
  {
    hide NodeOk, Digests, FragmentDigest, Held, Quorums, GateOk, Acks;
    var l := s.nodes[c.leader];
    if Held(l, digest) {
      CommitExtendsPrefix(c, l, l, digest);
      assert false;
    }
  }

  lemma CommitIs(c: Context, faulty: set<Replica>, s: System, i: Replica, digest: Digest)
    requires i in s.nodes && digest in s.commits
    ensures Next(c, faulty, s, Commit(i, digest)) == s.(nodes := s.nodes[i := Install(s.nodes[i], digest)])
  {
    hide Install;
  }

  lemma BothNodes(c: Context, faulty: set<Replica>, s: System, i: Replica)
    requires Inv(c, faulty, s) && c.leader < c.cfg.params.n && (i in s.nodes || i == c.leader)
    ensures i in s.nodes && c.leader in s.nodes && NodeOf(s, c.leader) == s.nodes[c.leader]
    ensures NodeOk(c, s.nodes[i]) && NodeOk(c, s.nodes[c.leader])
    ensures Digests(s.nodes[i].history) <= Digests(s.nodes[c.leader].history)
    ensures forall d :: d in s.commits ==> d in Digests(s.nodes[c.leader].history)
  {
    hide NodeOk, Digests, Quorums, Acks, GateOk;
  }

  /** A follower moves on within the leader's history. */
  lemma FollowerMoves(c: Context, faulty: set<Replica>, s: System, i: Replica, y: Node)
    requires Inv(c, faulty, s) && i in s.nodes && i != c.leader && NodeOk(c, y) && Remembers(s.nodes[i], y)
    requires Digests(y.history) <= Digests(NodeOf(s, c.leader).history)
    ensures Inv(c, faulty, s.(nodes := s.nodes[i := y]))
  {
    hide NodeOk, Digests, FragmentDigest;
    var t := s.(nodes := s.nodes[i := y]);
    assert NodeOf(t, c.leader) == NodeOf(s, c.leader);
    forall e, accepted | Supported(s, faulty, e, accepted) ensures Supported(t, faulty, e, accepted) {
      StaysSupported(s, t, faulty, e, accepted);
    }
    hide Supported;
  }

  lemma FollowerInstalls(c: Context, faulty: set<Replica>, s: System, i: Replica, digest: Digest)
    requires c.cfg.params.Ok() && c.leader !in faulty && c.leader < c.cfg.params.n && Inv(c, faulty, s)
    requires i in s.nodes && i != c.leader && digest in s.commits && Held(s.nodes[i], digest)
    ensures Inv(c, faulty, Next(c, faulty, s, Commit(i, digest)))
  {
    hide *;
    var x := s.nodes[i];
    CommitIs(c, faulty, s, i, digest);
    BothNodes(c, faulty, s, i);
    InstallOk(c, x, digest);
    CommitExtendsPrefix(c, x, s.nodes[c.leader], digest);
    FollowerMoves(c, faulty, s, i, Install(x, digest));
  }

  lemma StartInv(c: Context, faulty: set<Replica>, stores: Replica -> Admission)
    requires c.leader < c.cfg.params.n
    ensures Inv(c, faulty, Start(c.cfg.params.n, stores))
  {
    hide Acceptable, StateAfter, LatestAfter;
  }

  lemma Reachable(c: Context, faulty: set<Replica>, stores: Replica -> Admission, actions: seq<Action>)
    requires c.cfg.params.Ok() && c.leader < c.cfg.params.n && c.leader !in faulty
    ensures Inv(c, faulty, AfterActions(c, faulty, stores, actions))
  {
    hide *;
    StartInv(c, faulty, stores);
    StepsKeep(c, faulty, Start(c.cfg.params.n, stores), actions);
    AfterActionsIs(c, faulty, stores, actions);
  }

  lemma AfterActionsIs(c: Context, faulty: set<Replica>, stores: Replica -> Admission, actions: seq<Action>)
    ensures AfterActions(c, faulty, stores, actions) == Steps(c, faulty, Start(c.cfg.params.n, stores), actions)
  {
  }

  lemma {:induction false} StepsKeep(c: Context, faulty: set<Replica>, s0: System, actions: seq<Action>)
    requires c.cfg.params.Ok() && c.leader < c.cfg.params.n && c.leader !in faulty && Inv(c, faulty, s0)
    ensures Inv(c, faulty, Steps(c, faulty, s0, actions))
  {
    hide Inv, Next;
    if actions != [] {
      StepsKeep(c, faulty, s0, actions[..|actions| - 1]);
      NextKeeps(c, faulty, Steps(c, faulty, s0, actions[..|actions| - 1]), actions[|actions| - 1]);
    }
  }

  lemma NextKeeps(c: Context, faulty: set<Replica>, s: System, a: Action)
    requires c.cfg.params.Ok() && c.leader < c.cfg.params.n && c.leader !in faulty && Inv(c, faulty, s)
    ensures Inv(c, faulty, Next(c, faulty, s, a))
  {
    hide *;
    match a
    case Receive(i, id, bytes) => ReceiveKeeps(c, faulty, s, i, id, bytes);
    case Construct(f) => ConstructKeeps(c, faulty, s, f);
    case Candidate(i, f) => CandidateKeeps(c, faulty, s, i, f);
    case Stray(i, f) => StrayKeeps(c, faulty, s, i, f);
    case Forge(ack) => ForgeKeeps(c, faulty, s, ack);
    case Acknowledge(ack) => AcknowledgeKeeps(c, faulty, s, ack);
    case Settle => SettleKeeps(c, faulty, s);
    case Cancel => CancelKeeps(c, faulty, s);
    case Commit(i, d) => CommitKeeps(c, faulty, s, i, d);
  }

  lemma ForgeKeeps(c: Context, faulty: set<Replica>, s: System, ack: Ack)
    requires Inv(c, faulty, s)
    ensures Inv(c, faulty, Next(c, faulty, s, Forge(ack)))
  {
    hide Nodes, Prefixes, Commits, Quorums, GateOk, FragmentDigest;
    NodesStay(c, faulty, s, Next(c, faulty, s, Forge(ack)));
  }

  // ----- What it means

  /** Whatever the network loses, repeats or reorders and whatever the faulty replicas
      acknowledge, every replica's committed digests are a prefix of the leader's, and its
      state is the one the leader had at that point. */
  lemma FollowersArePrefixes(c: Context, faulty: set<Replica>, stores: Replica -> Admission, actions: seq<Action>,
                             i: Replica)
    requires c.cfg.params.Ok() && c.leader < c.cfg.params.n && c.leader !in faulty && i < c.cfg.params.n
    ensures var s := AfterActions(c, faulty, stores, actions);
      var h, l := NodeOf(s, i).history, NodeOf(s, c.leader).history;
      && Digests(h) <= Digests(l) && |h| <= |l|
      && StateAfter(c, h) == StateAfter(c, l[..|h|])
  {
    hide *;
    Reachable(c, faulty, stores, actions);
    var s := AfterActions(c, faulty, stores, actions);
    InvParts(c, faulty, s, i);
    var h, l := NodeOf(s, i).history, NodeOf(s, c.leader).history;
    DigestsLength(h);
    DigestsLength(l);
    RunPrefix(c, l, |h|);
    SameLatest(c, h, l);
    SameStartRefl(c);
    StateAgreement(c, h, c, l[..|h|]);
  }

  lemma InvParts(c: Context, faulty: set<Replica>, s: System, i: Replica)
    requires Inv(c, faulty, s) && c.leader < c.cfg.params.n && i < c.cfg.params.n
    ensures Run(c, NodeOf(s, i).history) && Run(c, NodeOf(s, c.leader).history)
    ensures Digests(NodeOf(s, i).history) <= Digests(NodeOf(s, c.leader).history)
  {
    hide Acceptable, StateAfter, Digests, Quorums, GateOk, Acks, Commits;
    assert NodeOk(c, s.nodes[i]) && NodeOk(c, s.nodes[c.leader]);
  }

  lemma SameLatest(c: Context, h: seq<Fragment>, l: seq<Fragment>)
    requires |h| <= |l| && Digests(h) <= Digests(l)
    ensures LatestAfter(c, h) == LatestAfter(c, l[..|h|])
  {
    hide FragmentDigest;
    if h != [] {
      assert Digests(h)[|h| - 1] == Digests(l)[|h| - 1];
    }
  }

  /** The leader commits a digest only once n - f distinct replicas, itself among them,
      accepted it; the honest ones had verified that very candidate. */
  lemma CommittedByQuorum(c: Context, faulty: set<Replica>, stores: Replica -> Admission, actions: seq<Action>,
                          digest: Digest)
    returns (accepted: set<Replica>)
    requires c.cfg.params.Ok() && c.leader < c.cfg.params.n && c.leader !in faulty
    requires digest in Digests(NodeOf(AfterActions(c, faulty, stores, actions), c.leader).history)
    ensures |accepted| >= c.cfg.params.n - c.cfg.params.f && c.leader in accepted
    ensures forall i :: i in accepted && i !in faulty ==>
      digest in NodeOf(AfterActions(c, faulty, stores, actions), i).everPending
  {
    Reachable(c, faulty, stores, actions);
    var s := AfterActions(c, faulty, stores, actions);
    accepted := s.quorums[digest];
  }
}

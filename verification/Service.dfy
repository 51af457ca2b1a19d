/** `OFOService` (pkg/ofo/service.go): one replica's pending, commit and abandon
    lifecycle, and its producer side. */
module Service {
  import opened Types
  import opened Collections
  import opened EvidenceSpec
  import opened EvidenceFacts
  import opened Growth
  import opened EvidenceObject
  import opened CertificateSpec
  import opened Verifier
  import opened GraphCache
  import opened Manager
  import opened Builder
  import opened Chain
  import opened Agreement
  import opened Logs
  import LO = LocalOrders

  /** A `done` channel: closing it twice would panic. */
  class DoneSignal {
    var closed: bool

    constructor ()
      ensures !closed
    {
      closed := false;
    }

    method Close()
      requires !closed
      modifies this
      ensures closed
    {
      closed := true;
    }
  }

  /** A follower's candidate has no graph cache. */
  datatype Pending = Pending(digest: Digest, preState: EvidenceState, postState: EvidenceState,
                             manager: DependencyManager?,
                             fragment: Fragment, done: DoneSignal)

  /** What a pending candidate is, on the committed state `s` with latest digest `latest`. */
  ghost predicate PendingOk(c: Context, s: Evidence, latest: Digest, leads: bool, q: Pending)
    reads q.preState, q.postState, q.manager, q.done
  {
    && Acceptable(c, s, latest, q.fragment) && q.digest == FragmentDigest(q.fragment)
    && q.preState.View() == Pre(c, s, q.fragment) && q.postState.View() == Post(c, s, q.fragment)
    && CacheOk(c, leads, q.manager, Post(c, s, q.fragment))
    && !q.done.closed
  }

  /** The leader, and only the leader, keeps the graph; it is the rebuilt one. */
  ghost predicate CacheOk(c: Context, leads: bool, dm: DependencyManager?, s: Evidence)
    reads dm
  {
    && (dm != null <==> leads)
    && (dm != null ==> dm.edgeThreshold == c.cfg.params.EdgeThreshold() && dm.View() == Rebuild(c.cfg.params, s))
  }

  lemma PendingIf(c: Context, s: Evidence, latest: Digest, leads: bool, q: Pending)
    requires Acceptable(c, s, latest, q.fragment) && q.digest == FragmentDigest(q.fragment) && !q.done.closed
    requires q.preState.View() == Pre(c, s, q.fragment) && q.postState.View() == Post(c, s, q.fragment)
    requires q.manager != null <==> leads
    requires leads ==>
      && q.manager.edgeThreshold == c.cfg.params.EdgeThreshold()
      && q.manager.View() == Rebuild(c.cfg.params, Post(c, s, q.fragment))
    ensures PendingOk(c, s, latest, leads, q)
  {
  }

  lemma FollowerCache(c: Context, dm: DependencyManager?, s: Evidence, t: Evidence)
    requires CacheOk(c, false, dm, s)
    ensures CacheOk(c, false, dm, t)
  {
  }

  lemma PendingParts(c: Context, s: Evidence, latest: Digest, leads: bool, q: Pending)
    requires PendingOk(c, s, latest, leads, q)
    ensures Acceptable(c, s, latest, q.fragment) && q.digest == FragmentDigest(q.fragment)
    ensures Increasing(q.fragment.evidence)
    ensures q.postState.View() == Post(c, s, q.fragment)
    ensures CacheOk(c, leads, q.manager, q.postState.View()) && (leads ==> q.manager != null)
  {
    AcceptsIncreasing(c.cfg, s, q.fragment.evidence, q.fragment.epoch, q.fragment.fragmentSeq);
  }

  ghost function Footprint(pending: Option<Pending>): set<object> {
    if pending.None? then {}
    else
      var q := pending.value;
      {q.preState, q.postState, q.done} + (if q.manager == null then {} else {q.manager})
  }

  // ----- Building a candidate, on values

  function Draft(c: Context, s: Evidence, latest: Digest, orders: seq<LocalOrder>, batches: seq<FairnessBatch>,
                 cert: Certificate,
                 pre: Digest, post: Digest): Fragment {
    Fragment(c.epoch, c.authContext, c.leader, s.fragmentSeq + 1, s.stateId, latest, orders, Some(batches), Some(cert),
             pre, post)
  }

  lemma DraftAcceptable(c: Context, s: Evidence, latest: Digest, orders: seq<LocalOrder>, batches: seq<FairnessBatch>,
                        cert: Certificate,
                        pre: Digest, post: Digest)
    requires Accepts(c.cfg, s, orders, c.epoch, s.fragmentSeq + 1)
    requires var t := Ingest(c.cfg.params, s, orders, c.epoch);
      && CertOk(GraphOf(c.cfg.params, t), t.batchCounter, batches, cert)
      && pre == t.stateId && post == Finalized(t, batches, cert.part).stateId
    ensures var f := Draft(c, s, latest, orders, batches, cert, pre, post);
      && Acceptable(c, s, latest, f) && f.evidence == orders
      && Pre(c, s, f) == Ingest(c.cfg.params, s, orders, c.epoch)
      && Post(c, s, f) == Finalized(Ingest(c.cfg.params, s, orders, c.epoch), batches, cert.part)
  {
    hide Accepts, Ingest, CertOk, Finalized, GraphOf;
  }

  lemma CandidateOk(c: Context, s: Evidence, latest: Digest, orders: seq<LocalOrder>, batches: seq<FairnessBatch>,
                    cert: Certificate,
                    graph: DependencyManager, q: Pending)
    requires Accepts(c.cfg, s, orders, c.epoch, s.fragmentSeq + 1)
    requires q.preState.View() == Ingest(c.cfg.params, s, orders, c.epoch)
    requires CertOk(GraphOf(c.cfg.params, q.preState.View()), q.preState.batchCounter, batches, cert)
    requires q.postState.View() == Finalized(q.preState.View(), batches, cert.part)
    requires graph.edgeThreshold == c.cfg.params.EdgeThreshold()
    requires graph.View() == Rebuild(c.cfg.params, q.postState.View())
    requires q.fragment == Draft(c, s, latest, orders, batches, cert, q.preState.stateId, q.postState.stateId)
    requires q.digest == FragmentDigest(q.fragment) && q.manager == graph && !q.done.closed
    ensures PendingOk(c, s, latest, true, q) && q.fragment.evidence == orders
  {
    hide *;
    ViewFields(q.preState);
    ViewFields(q.postState);
    DraftAcceptable(c, s, latest, orders, batches, cert, q.preState.stateId, q.postState.stateId);
    PendingIf(c, s, latest, true, q);
  }

  /** From a committed state and its graph to a candidate: everything happens on clones. */
  method Propose(c: Context, admission: Admission, committed: EvidenceState, manager: DependencyManager,
                 orders: seq<LocalOrder>)
    returns (ok: bool, preState: EvidenceState, postState: EvidenceState, graph: DependencyManager,
             batches: seq<FairnessBatch>, cert: Certificate)
    requires c.cfg.params.Ok() && Valid(c.cfg.params, committed.View())
    requires manager.edgeThreshold == c.cfg.params.EdgeThreshold()
    requires manager.View() == Rebuild(c.cfg.params, committed.View())
    ensures fresh(preState) && fresh(postState) && fresh(graph)
    ensures ok <==> Accepts(c.cfg, committed.View(), orders, c.epoch, committed.fragmentSeq + 1)
                    && Available(admission, committed.done, orders)
    ensures ok ==> preState.View() == Ingest(c.cfg.params, committed.View(), orders, c.epoch)
    ensures ok ==> CertOk(GraphOf(c.cfg.params, preState.View()), preState.batchCounter, batches, cert)
    ensures ok ==> postState.View() == Finalized(preState.View(), batches, cert.part)
    ensures ok ==>
      graph.edgeThreshold == c.cfg.params.EdgeThreshold() && graph.View() == Rebuild(c.cfg.params, postState.View())
  {
    hide *;
    ghost var p, s := c.cfg.params, committed.View();
    ViewFields(committed);
    preState := new EvidenceState.Clone(committed);
    ViewFields(preState);
    graph := new DependencyManager.Clone(manager);
    postState := preState;
    batches, cert := [], Certificate([], []);
    var touchedNodes, touchedPairs;
    var next := committed.fragmentSeq + 1;
    ok, touchedNodes, touchedPairs := preState.ApplyEvidence(c.cfg, admission, orders, c.epoch, next, true);
    if !ok {
      return;
    }
    IngestValid(c.cfg, s, orders, c.epoch);
    IngestAdvances(c.cfg, s, orders, c.epoch);
    graph.Refresh(p, s, preState.View(), touchedNodes, touchedPairs);
    batches, cert := BuildProposal(graph, c.cfg.params, preState.View());
    ViewFields(preState);
    postState := new EvidenceState.Clone(preState);
    var gone := postState.Release(batches, cert.part);
    graph.RemoveFinalized(p, preState.View(), gone, batches, cert.part);
  }

  lemma AcceptableIs(c: Context, s: Evidence, latest: Digest, f: Fragment)
    requires Extending(c, s, latest, f)
    ensures f.epoch == c.epoch && f.fragmentSeq == s.fragmentSeq + 1
    ensures Acceptable(c, s, latest, f)
       <==> Accepts(c.cfg, s, f.evidence, f.epoch, f.fragmentSeq)
            && f.candidateEvidenceState == Pre(c, s, f).stateId
            && Certifies(c.cfg.params, Pre(c, s, f), f.finalOrder, f.certificate)
            && f.candidatePostState == Post(c, s, f).stateId
    ensures Pre(c, s, f) == Ingest(c.cfg.params, s, f.evidence, f.epoch)
    ensures Post(c, s, f) == Finalized(Pre(c, s, f), BatchesOf(f), PartOf(f))
  {
    hide Accepts, Certifies, Ingest, Finalized;
  }

  /** A follower replays the evidence on clones and checks both state names and the
      certificate. */
  method Check(c: Context, admission: Admission, committed: EvidenceState, latest: Digest, f: Fragment)
    returns (ok: bool, preState: EvidenceState, postState: EvidenceState)
    requires c.cfg.params.Ok() && Valid(c.cfg.params, committed.View()) && Extending(c, committed.View(), latest, f)
    ensures fresh(preState) && fresh(postState)
    ensures ok <==> Acceptable(c, committed.View(), latest, f) && Available(admission, committed.done, f.evidence)
    ensures ok ==> preState.View() == Pre(c, committed.View(), f) && postState.View() == Post(c, committed.View(), f)
  {
    hide *;
    ghost var s := committed.View();
    AcceptableIs(c, s, latest, f);
    preState := new EvidenceState.Clone(committed);
    postState := preState;
    ViewFields(committed);
    ViewFields(preState);
    var nodes, pairs;
    ok, nodes, pairs := preState.ApplyEvidence(c.cfg, admission, f.evidence, f.epoch, f.fragmentSeq, false);
    if !ok {
      return;
    }
    IngestValid(c.cfg, s, f.evidence, f.epoch);
    ViewFields(preState);
    if preState.stateId != f.candidateEvidenceState {
      return false, preState, postState;
    }
    ok := VerifyStructuralCertificate(c.cfg.params, preState.View(), f.finalOrder, f.certificate);
    if !ok {
      return;
    }
    CertifiesBoth(c.cfg.params, preState.View(), f);
    postState := new EvidenceState.Clone(preState);
    var gone := postState.Release(f.finalOrder.value, f.certificate.value.part);
    ViewFields(postState);
    return postState.stateId == f.candidatePostState, preState, postState;
  }

  lemma CertifiesBoth(p: Params, s: Evidence, f: Fragment)
    requires Certifies(p, s, f.finalOrder, f.certificate)
    ensures f.finalOrder.Some? && f.certificate.Some? && BatchesOf(f) == f.finalOrder.value
    ensures PartOf(f) == f.certificate.value.part
  {
  }

  class OFOService {
    const c: Context
    const replica: Replica
    const isMalicious: bool
    const signer: Signer
    /** The content store grows; everything else here is fixed. */
    var admission: Admission
    var committed: EvidenceState
    var pending: Option<Pending>
    var latestCommittedFragment: Digest
    var manager: DependencyManager?
    var receiptQueue: seq<TxID>
    var observed: set<TxID>
    var localOrderPending: Option<LocalOrder>
    /** The committed fragments, the first receipts and all signed extensions. */
    ghost var history: seq<Fragment>
    ghost var received: seq<TxID>
    ghost var signed: set<LocalOrder>

    predicate Leads() {
      replica == c.leader
    }

    ghost predicate Installed()
      reads `committed, `latestCommittedFragment, `history, committed
    {
      && c.cfg.params.Ok() && Run(c, history)
      && committed.View() == StateAfter(c, history) && latestCommittedFragment == LatestAfter(c, history)
    }

    ghost predicate Valid()
      reads `committed, `latestCommittedFragment, `history, `manager, `pending, committed, manager, Footprint(pending)
    {
      && Installed()
      && CacheOk(c, Leads(), manager, committed.View())
      && (pending.Some? ==> PendingOk(c, committed.View(), latestCommittedFragment, Leads(), pending.value))
    }

    ghost function Producer(): LO.Producer
      reads `receiptQueue, `localOrderPending, `received, `signed
    {
      LO.Producer(receiptQueue, localOrderPending, received, signed)
    }

    ghost predicate HonestLog()
      reads `committed, `history, `observed, `receiptQueue, `localOrderPending, `received, `signed, committed
    {
      && !isMalicious && observed == Elems(received)
      && LO.HonestLog(replica, c.epoch, committed.View(), AdmittedLog(history, replica), Producer())
    }

    constructor (c: Context, replica: Replica, isMalicious: bool, signer: Signer, admission: Admission)
      requires c.cfg.params.Ok()
      ensures Valid() && history == [] && pending.None? && this.c == c && this.replica == replica
      ensures this.isMalicious == isMalicious
      ensures this.signer == signer && this.admission == admission
      ensures committed.View() == Genesis(c.epoch, c.cfg.params.n, c.genesisState)
      ensures latestCommittedFragment == c.genesisFragment && (manager != null <==> replica == c.leader)
      ensures receiptQueue == [] && observed == {} && localOrderPending.None?
      ensures !isMalicious ==> HonestLog()
    {
      this.c, this.replica, this.isMalicious, this.signer, this.admission := c, replica, isMalicious, signer, admission;
      committed := new EvidenceState(c.epoch, c.cfg.params.n, c.genesisState);
      pending, latestCommittedFragment := None, c.genesisFragment;
      receiptQueue, observed, localOrderPending := [], {}, None;
      history, received, signed := [], [], {};
      if replica == c.leader {  // `isLeader`
        manager := new DependencyManager(c.cfg.params);
      } else {
        manager := null;
      }
      new;
      hide *;
      RunStarts(c);
      EmptyCache(c, manager);
      Reinstalled();
      StillValid();
      HonestIs();
      ProducerIs();
      LO.StartsHonest(c, replica);
    }

    /** `constructCandidate`: on a free slot an acceptable batch whose content is at hand
        yields a pending candidate, acceptable to every replica in the same committed state
        that has the content. */
    method ConstructCandidate(orders: seq<LocalOrder>) returns (ok: bool)
      requires Valid() && Leads()
      modifies `pending
      ensures Valid() && (!ok ==> pending == old(pending))
      ensures old(pending).Some? ==> !ok
      ensures ok ==>
        pending.Some? && fresh(pending.value.done) && pending.value.fragment.evidence == LO.Canonical(orders)
      ensures ok ==> Available(admission, committed.done, LO.Canonical(orders))
      ensures (old(pending).None? && (forall d :: signer.signLeader(d).Some?)
               && Accepts(c.cfg, committed.View(), LO.Canonical(orders), c.epoch, committed.fragmentSeq + 1)
               && Available(admission, committed.done, LO.Canonical(orders))) ==> ok
    {
      hide *;
      if pending.Some? {
        return false;
      }
      OwnState();
      ViewFields(committed);
      var sorted := LO.Canonical(orders);
      var preState, postState, graph, batches, cert;
      ok, preState, postState, graph, batches, cert := Propose(c, admission, committed, manager, sorted);
      if !ok {
        StillValid();
        return false;
      }
      var fragment := Draft(c, committed.View(), latestCommittedFragment, sorted, batches, cert, preState.stateId,
                            postState.stateId);
      var digest := FragmentDigest(fragment);
      if signer.signLeader(digest).None? {
        StillValid();
        return false;
      }
      var done := new DoneSignal();
      var candidate := Pending(digest, preState, postState, graph, fragment, done);
      CandidateOk(c, committed.View(), latestCommittedFragment, sorted, batches, cert, graph, candidate);
      Install(candidate);
    }

    method Install(q: Pending)
      requires Installed() && CacheOk(c, Leads(), manager, committed.View())
      requires PendingOk(c, committed.View(), latestCommittedFragment, Leads(), q)
      modifies `pending
      ensures pending == Some(q) && Valid()
    {
      hide *;
      pending := Some(q);
      StillValid();
    }

    lemma Whole()
      requires Valid()
      ensures Installed() && CacheOk(c, Leads(), manager, committed.View())
      ensures pending.Some? ==> PendingOk(c, committed.View(), latestCommittedFragment, Leads(), pending.value)
    {
    }

    lemma Apart()
      ensures pending.Some? ==> this !in Footprint(pending)
      ensures pending.Some? ==>
        {pending.value.preState as object, pending.value.postState, pending.value.done} <= Footprint(pending)
      ensures pending.Some? && pending.value.manager != null ==> pending.value.manager in Footprint(pending)
    {
    }

    lemma InstalledParts()
      requires Installed()
      ensures c.cfg.params.Ok() && Run(c, history) && committed.View() == StateAfter(c, history)
      ensures latestCommittedFragment == LatestAfter(c, history)
    {
    }

    lemma Reinstalled()
      requires c.cfg.params.Ok() && Run(c, history)
      requires committed.View() == StateAfter(c, history) && latestCommittedFragment == LatestAfter(c, history)
      ensures Installed()
    {
    }

    lemma ProducerIs()
      ensures Producer() == LO.Producer(receiptQueue, localOrderPending, received, signed)
    {
    }

    lemma HonestIs()
      ensures HonestLog() <==> !isMalicious && observed == Elems(received)
                               && LO.HonestLog(replica, c.epoch, committed.View(), AdmittedLog(history, replica),
                                               Producer())
    {
    }

    lemma StillValid()
      requires Installed() && CacheOk(c, Leads(), manager, committed.View())
      requires pending.Some? ==> PendingOk(c, committed.View(), latestCommittedFragment, Leads(), pending.value)
      ensures Valid()
    {
    }

    lemma OwnState()
      requires Valid()
      ensures c.cfg.params.Ok() && EvidenceSpec.Valid(c.cfg.params, committed.View())
      ensures Installed() && CacheOk(c, Leads(), manager, committed.View())
      ensures Leads() ==> manager != null && manager.edgeThreshold == c.cfg.params.EdgeThreshold()
                          && manager.View() == Rebuild(c.cfg.params, committed.View())
    {
      RunValid(c, history);
    }

    /** `verifyCandidate`: with a candidate already pending only that very candidate is
        confirmed; otherwise exactly the acceptable fragments whose content is at hand are,
        and become pending. */
    method VerifyCandidate(fragment: Fragment, signature: Signature, sender: Replica) returns (ok: bool)
      requires Valid() && !Leads()
      modifies `pending
      ensures Valid()
      ensures ok <==> Confirms(c, admission, committed.View(), latestCommittedFragment, SlotOf(old(pending)), fragment,
                               signature, sender)
      ensures if ok && old(pending).None?
              then pending.Some? && fresh(pending.value.done) && pending.value.fragment == fragment
              else pending == old(pending)
    {
      hide *;
      var digest := FragmentDigest(fragment);
      SlotIs(pending);
      ConfirmsIs(c, admission, committed.View(), latestCommittedFragment, SlotOf(pending), fragment, signature, sender);
      ViewFields(committed);
      if sender != c.leader || !Extending(c, committed.View(), latestCommittedFragment, fragment) {
        return false;
      }
      if !c.cfg.auth.verifyLeader(fragment.leader, digest, signature) {
        return false;
      }
      if pending.Some? {
        PendingDigest();
        return pending.value.digest == digest;
      }
      OwnState();
      var preState, postState;
      ok, preState, postState := Check(c, admission, committed, latestCommittedFragment, fragment);
      if !ok {
        StillValid();
        return false;
      }
      var done := new DoneSignal();
      var candidate := Pending(digest, preState, postState, null, fragment, done);
      PendingIf(c, committed.View(), latestCommittedFragment, Leads(), candidate);
      Install(candidate);
    }

    lemma PendingDigest()
      requires Valid() && pending.Some?
      ensures Acceptable(c, committed.View(), latestCommittedFragment, pending.value.fragment)
      ensures pending.value.digest == FragmentDigest(pending.value.fragment)
    {
    }

    /** `AbandonPending`. */
    method AbandonPending(digest: Digest) returns (ok: bool)
      requires Valid()
      modifies `pending, if pending.Some? then {pending.value.done} else {}
      ensures Valid()
      ensures ok <==> old(pending).Some? && old(pending).value.digest == digest
      ensures if ok then pending.None? && old(pending).value.done.closed else pending == old(pending)
    {
      hide *;
      if pending.None? || pending.value.digest != digest {
        return false;
      }
      OwnState();
      PendingOpen();
      var candidate := pending.value;
      pending := None;
      candidate.done.Close();
      StillValid();
      return true;
    }

    lemma PendingOpen()
      requires Valid() && pending.Some?
      ensures !pending.value.done.closed && Installed()
      ensures PendingOk(c, committed.View(), latestCommittedFragment, Leads(), pending.value)
    {
    }

    /** `applyCommittedLocalOrder`. */
    method ApplyCommittedLocalOrder(orders: seq<LocalOrder>)
      requires Increasing(orders)
      modifies `receiptQueue, `localOrderPending
      ensures Producer() == LO.Settles(old(Producer()), OrderBy(orders, replica))
    {
      LO.SettlesNone(Producer());
      NoneBefore(orders, 0, replica);
      for k := 0 to |orders|
        invariant Producer() == LO.Settles(old(Producer()), OrderBy(orders[..k], replica))
      {
        hide OrderBy, LO.Dropping, LocalOrderDigest;
        var order := orders[k];
        OrderBySnoc(orders, k, replica);
        if order.replica != replica {
          continue;
        }
        NoneBefore(orders, k, replica);
        receiptQueue := LO.FilterQueue(receiptQueue, set x | x in order.txs);
        if localOrderPending.Some? && LocalOrderDigest(localOrderPending.value) == LocalOrderDigest(order) {
          localOrderPending := None;
        }
      }
      assert orders[..|orders|] == orders;
    }

    /** `CommitPending`, the only way to install a state. */
    method CommitPending(digest: Digest) returns (batches: Option<seq<FairnessBatch>>)
      requires Valid()
      modifies this, if pending.Some? then {pending.value.done} else {}
      ensures Valid()
      ensures batches.Some? <==> old(pending).Some? && old(pending).value.digest == digest
      ensures batches.None? ==> unchanged(this)
      ensures batches.Some? ==>
        && history == old(history) + [old(pending).value.fragment] && latestCommittedFragment == digest
        && pending.None? && old(pending).value.done.closed
        && batches.value == BatchesOf(old(pending).value.fragment)
        && Producer() == LO.Settles(old(Producer()), OrderBy(old(pending).value.fragment.evidence, replica))
        && observed == old(observed) && admission == old(admission)
      ensures (old(HonestLog())
               && (batches.Some? ==> LO.Unforged(old(pending).value.fragment.evidence, replica, old(signed))))
              ==> HonestLog()
    {
      hide *;
      if pending.None? || pending.value.digest != digest {
        return None;
      }
      OwnState();
      PendingOpen();
      var candidate := pending.value;
      ghost var h, f, r := history, candidate.fragment, Producer();
      ghost var honest := HonestLog() && LO.Unforged(f.evidence, replica, signed);
      if honest {
        HonestSettles(candidate);
      }
      Adopt(candidate);
      ApplyCommittedLocalOrder(candidate.fragment.evidence);
      pending := None;
      candidate.done.Close();
      StillValid();
      HonestIs();
      return Some(BatchesOf(candidate.fragment));
    }

    /** Installs the candidate's state, and its graph at the leader. */
    method Adopt(q: Pending)
      requires Installed() && PendingOk(c, committed.View(), latestCommittedFragment, Leads(), q)
      requires CacheOk(c, Leads(), manager, committed.View())
      modifies `committed, `latestCommittedFragment, `manager, `history
      ensures Installed() && CacheOk(c, Leads(), manager, committed.View()) && manager in {old(manager), q.manager}
      ensures committed == q.postState && committed.View() == StateAfter(c, history)
      ensures history == old(history) + [q.fragment] && latestCommittedFragment == q.digest
      ensures Increasing(q.fragment.evidence)
    {
      hide *;
      PendingParts(c, committed.View(), latestCommittedFragment, Leads(), q);
      InstalledParts();
      RunSnoc(c, history, q.fragment);
      if !Leads() {
        FollowerCache(c, manager, committed.View(), q.postState.View());
      }
      committed := q.postState;
      latestCommittedFragment := q.digest;
      if Leads() {
        manager := q.manager;
      }
      history := history + [q.fragment];
      Reinstalled();
    }

    lemma HonestSettles(q: Pending)
      requires Installed() && PendingOk(c, committed.View(), latestCommittedFragment, Leads(), q)
      requires HonestLog() && LO.Unforged(q.fragment.evidence, replica, signed)
      ensures !isMalicious && observed == Elems(received)
      ensures LO.HonestLog(replica, c.epoch, StateAfter(c, history + [q.fragment]),
                           AdmittedLog(history + [q.fragment], replica),
                           LO.Settles(Producer(), OrderBy(q.fragment.evidence, replica)))
    {
      hide *;
      PendingParts(c, committed.View(), latestCommittedFragment, Leads(), q);
      InstalledParts();
      HonestIs();
      ProducerIs();
      LO.CommitKeeps(c, history, q.fragment, replica, Producer());
    }

    /** The transaction case of `HandleMessage`: valid content is stored, and from then on
        resolves; its id is queued when it is seen for the first time. */
    method ReceiveTransaction(id: TxID, bytes: Content)
      requires Valid()
      modifies `admission, `receiptQueue, `observed, `received
      ensures Valid()
      ensures if old(admission).validate(bytes) && Store(old(admission), id, bytes).Some?
              then admission == Store(old(admission), id, bytes).value && Admitted(admission, id)
                   && observed == old(observed) + {id}
                   && receiptQueue == old(receiptQueue) + (if id in old(observed) then [] else [id])
                   && received == old(received) + (if id in old(observed) then [] else [id])
              else admission == old(admission) && observed == old(observed)
                   && receiptQueue == old(receiptQueue) && received == old(received)
      ensures forall x :: Admitted(old(admission), x) ==> Admitted(admission, x)
      ensures old(HonestLog()) ==> HonestLog()
    {
      hide *;
      StoreRefuses(admission, id, bytes);
      if admission.transactionID(bytes) != id || !admission.validate(bytes) {
        return;
      }
      var stored := Store(admission, id, bytes);
      if stored.None? {
        return;
      }
      forall x ensures Admitted(admission, x) ==> Admitted(stored.value, x) {
        StoreAdmits(admission, id, bytes, x);
      }
      StoreAdmits(admission, id, bytes, id);
      Keep(stored.value);
      if id !in observed {
        Receive(id);
      }
    }

    method Keep(store: Admission)
      requires Valid()
      modifies `admission
      ensures Valid() && admission == store && (old(HonestLog()) ==> HonestLog())
    {
      hide *;
      Whole();
      Apart();
      HonestIs();
      admission := store;
      StillValid();
      HonestIs();
    }

    method Receive(id: TxID)
      requires Valid() && id !in observed
      modifies `receiptQueue, `observed, `received
      ensures Valid()
      ensures receiptQueue == old(receiptQueue) + [id] && received == old(received) + [id]
      ensures observed == old(observed) + {id}
      ensures old(HonestLog()) ==> HonestLog()
    {
      hide *;
      ghost var honest, r := HonestLog(), Producer();
      Whole();
      Apart();
      HonestIs();
      ProducerIs();
      if honest {
        ReceivedNew(received, observed, id);
        LO.ReceiveKeeps(replica, c.epoch, committed.View(), AdmittedLog(history, replica), r, id);
      }
      observed, receiptQueue, received := observed + {id}, receiptQueue + [id], received + [id];
      StillValid();
      HonestIs();
      ProducerIs();
      LO.ReceivedIs(r, id);
    }

    /** `GenerateAndSendLocalOrder`: a retained extension is sent again, re-signed when the
        sequence has moved on; otherwise the oldest receipts make a fresh one. */
    method GenerateLocalOrder() returns (sent: Option<LocalOrder>)
      requires Valid()
      modifies `localOrderPending, `signed
      ensures Valid()
      ensures sent == LO.Sent(c, signer.signReplica, replica, isMalicious, committed.View(), old(Producer()))
      ensures Producer() == LO.AfterSend(c, signer.signReplica, replica, isMalicious, committed.View(), old(Producer()))
      ensures old(HonestLog()) ==> HonestLog()
    {
      hide *;
      ghost var honest, r := HonestLog(), Producer();
      HonestIs();
      ProducerIs();
      var s := committed.View();
      if localOrderPending.Some? {
        var order := localOrderPending.value;
        if order.fragmentSeq == s.fragmentSeq + 1 && order.epoch == c.epoch {
          LO.SendsAgain(c, signer.signReplica, replica, isMalicious, s, r);
          return Some(order);
        }
        sent := Sign(LO.Moved(order, c.epoch, s.fragmentSeq + 1));
      } else {
        var ids := TakeIds();
        sent := Sign(LO.Unsigned(replica, c.epoch, s, ids));
      }
      LO.SendsNext(c, signer.signReplica, replica, isMalicious, s, r, sent);
      if honest {
        LO.SendKeeps(c, signer.signReplica, replica, s, AdmittedLog(history, replica), r);
      }
      HonestIs();
    }

    method TakeIds() returns (ids: seq<TxID>)
      requires Valid()
      ensures Valid() && ids == LO.NextChunk(receiptQueue, c.cfg.params.maxOrderSize, isMalicious)
    {
      ids := LO.TakeChunk(receiptQueue, c.cfg.params.maxOrderSize, isMalicious);
    }

    /** Signs and retains an extension, unless the key is unavailable. */
    method Sign(order: LocalOrder) returns (sent: Option<LocalOrder>)
      requires Valid()
      modifies `localOrderPending, `signed
      ensures Valid()
      ensures var signature := signer.signReplica(LocalOrderDigest(order));
        if signature.None? then sent.None? && Producer() == old(Producer())
        else sent == Some(order.(signature := signature.value)) && Producer() == LO.Signs(old(Producer()), sent.value)
    {
      hide *;
      ghost var r := Producer();
      Whole();
      Apart();
      ProducerIs();
      var signature := signer.signReplica(LocalOrderDigest(order));
      if signature.None? {
        return None;
      }
      sent := Some(order.(signature := signature.value));
      localOrderPending := sent;
      signed := signed + {sent.value};
      StillValid();
      ProducerIs();
      LO.SignsIs(r, sent.value);
    }
  }

  lemma ReceivedNew(received: seq<TxID>, observed: set<TxID>, id: TxID)
    requires observed == Elems(received) && id !in observed
    ensures id !in received && Elems(received + [id]) == observed + {id}
  {
    ElemsConcat(received, [id]);
  }

  /** What a follower checks before it looks at its slot or at the evidence. */
  ghost predicate Eligible(c: Context, s: Evidence, latest: Digest, f: Fragment, signature: Signature,
                           sender: Replica) {
    sender == c.leader && Extending(c, s, latest, f) && c.cfg.auth.verifyLeader(f.leader, FragmentDigest(f), signature)
  }

  lemma ConfirmsIs(c: Context, a: Admission, s: Evidence, latest: Digest, slot: Option<Digest>, f: Fragment,
                   signature: Signature,
                   sender: Replica)
    ensures Confirms(c, a, s, latest, slot, f, signature, sender)
       <==> sender == c.leader && Extending(c, s, latest, f)
            && c.cfg.auth.verifyLeader(f.leader, FragmentDigest(f), signature)
            && if slot.Some? then slot.value == FragmentDigest(f)
               else Acceptable(c, s, latest, f) && Available(a, s.done, f.evidence)
  {
    hide Available, Acceptable, Extending, FragmentDigest;
  }

  lemma RunStarts(c: Context)
    ensures Run(c, []) && StateAfter(c, []) == Genesis(c.epoch, c.cfg.params.n, c.genesisState)
    ensures LatestAfter(c, []) == c.genesisFragment
  {
  }

  lemma EmptyCache(c: Context, dm: DependencyManager?)
    requires dm != null ==>
      dm.edgeThreshold == c.cfg.params.EdgeThreshold() && dm.View() == Cache({}, map[], map[], map[], map[])
    ensures CacheOk(c, dm != null, dm, Genesis(c.epoch, c.cfg.params.n, c.genesisState))
  {
    var s := Genesis(c.epoch, c.cfg.params.n, c.genesisState);
    assert Rebuild(c.cfg.params, s) == Cache({}, map[], map[], map[], map[]);
  }

  /** The checks of `NewOFOService`. */
  function CheckedContext(replica: Replica, n: nat, f: nat, gamma: real, loMaxSize: int, auth: Option<Authenticator>,
                          admission: Option<Admission>, epoch: nat, leader: Replica, authContext: Digest,
                          genesisState: Digest, genesisFragment: Digest, hasHandler: bool): (r: Option<Context>)
    ensures r.Some? <==>
      && 0 < n && replica < n && 3 * f + 1 <= n && 0.5 < gamma <= 1.0 && 0 <= loMaxSize
      && n + 2 * f + 1 <= 2 * QuorumSize(gamma, n - f)
      && auth.Some? && admission.Some? && leader < n && (replica == leader ==> hasHandler)
    ensures r.Some? ==>
      && r.value.cfg.params.Ok() && r.value.cfg.params == Params(n, f, QuorumSize(gamma, n - f), loMaxSize)
      && r.value.cfg.auth == auth.value && r.value.epoch == epoch && r.value.leader == leader
      && r.value.authContext == authContext
      && r.value.genesisState == genesisState && r.value.genesisFragment == genesisFragment
  {
    hide QuorumSize;
    var params := CheckParams(replica, n, f, gamma, loMaxSize);
    if params.None? || auth.None? || admission.None? || leader >= n || (replica == leader && !hasHandler) then None
    else Some(Context(Config(params.value, auth.value), epoch, leader, authContext, genesisState, genesisFragment))
  }

  /** `NewOFOService`; null stands for an error. It fails exactly when a listed test does;
      otherwise the service starts from what it was given. */
  method NewOFOService(replica: Replica, n: nat, f: nat, gamma: real, loMaxSize: int, isMalicious: bool,
                       auth: Option<Authenticator>, signer: Signer, admission: Option<Admission>, epoch: nat,
                       leader: Replica, authContext: Digest, genesisState: Digest, genesisFragment: Digest,
                       hasHandler: bool)
    returns (s: OFOService?)
    ensures s != null <==>
      && 0 < n && replica < n && 3 * f + 1 <= n && 0.5 < gamma <= 1.0 && 0 <= loMaxSize
      && n + 2 * f + 1 <= 2 * QuorumSize(gamma, n - f)
      && auth.Some? && admission.Some? && leader < n && (replica == leader ==> hasHandler)
    ensures s != null ==>
      && fresh(s) && s.Valid() && s.history == [] && s.pending.None? && (!isMalicious ==> s.HonestLog())
      && s.replica == replica && s.isMalicious == isMalicious && s.signer == signer && s.admission == admission.value
    ensures s != null ==>
      && s.c.cfg.params.n == n && s.c.cfg.params.f == f && s.c.cfg.params.maxOrderSize == loMaxSize
      && (s.c.cfg.params.qH - 1) as real < gamma * (n - f) as real <= s.c.cfg.params.qH as real
      && s.c.cfg.auth == auth.value && s.c.epoch == epoch && s.c.leader == leader && s.c.authContext == authContext
    ensures s != null ==>
      && s.committed.stateId == genesisState && s.latestCommittedFragment == genesisFragment
      && s.committed.epoch == epoch && s.committed.fragmentSeq == 0 && s.committed.batchCounter == 0
      && s.committed.done == map[] && s.committed.live == {}
      && (s.manager != null <==> replica == leader)
      && s.receiptQueue == [] && s.observed == {} && s.localOrderPending.None?
  {
    hide *;
    var context := CheckedContext(replica, n, f, gamma, loMaxSize, auth, admission, epoch, leader, authContext,
                                  genesisState, genesisFragment, hasHandler);
    if context.None? {
      return null;
    }
    QuorumSizeIs(gamma, n - f);
    s := new OFOService(context.value, replica, isMalicious, signer, admission.value);
    StartFields(context.value);
    ViewFields(s.committed);
  }

  lemma StartFields(c: Context)
    ensures var s := Genesis(c.epoch, c.cfg.params.n, c.genesisState);
      && s.stateId == c.genesisState && s.epoch == c.epoch && s.fragmentSeq == 0 && s.batchCounter == 0
      && s.done == map[] && s.live == {}
  {
  }

  // ----- Two replicas

  /** State agreement: replicas with the same parameters and genesis that report the same
      committed sequence and the same latest digest hold the same evidence state, whatever
      each of them constructed, verified, abandoned, stored or retransmitted on the way. */
  lemma SameCommitted(a: OFOService, b: OFOService)
    requires a.Valid() && b.Valid() && SameStart(a.c, b.c)
    requires a.committed.fragmentSeq == b.committed.fragmentSeq
    requires a.latestCommittedFragment == b.latestCommittedFragment
    ensures a.committed.View() == b.committed.View()
  {
    hide *;
    a.OwnState();
    b.OwnState();
    a.InstalledParts();
    b.InstalledParts();
    ViewFields(a.committed);
    ViewFields(b.committed);
    RunValid(a.c, a.history);
    RunValid(b.c, b.history);
    StateAgreement(a.c, a.history, b.c, b.history);
  }

  /** When a follower with content store `a` confirms a fragment. */
  ghost predicate Confirms(c: Context, a: Admission, s: Evidence, latest: Digest, slot: Option<Digest>, f: Fragment,
                           signature: Signature, sender: Replica) {
    && Eligible(c, s, latest, f, signature, sender)
    && if slot.Some? then slot.value == FragmentDigest(f)
       else Acceptable(c, s, latest, f) && Available(a, s.done, f.evidence)
  }

  ghost function SlotOf(pending: Option<Pending>): Option<Digest> {
    if pending.Some? then Some(pending.value.digest) else None
  }

  /** A follower in the leader's committed state confirms the leader's properly signed
      candidate exactly when its own slot already holds that candidate, or is free and the
      follower has the content of every id that is not finalized. A slot still taken by a
      candidate the leader has abandoned makes it refuse, and so does missing content. */
  lemma LeaderIsConfirmed(leader: OFOService, follower: OFOService, signature: Signature)
    requires leader.Valid() && follower.Valid() && leader.c == follower.c && leader.pending.Some?
    requires leader.committed.fragmentSeq == follower.committed.fragmentSeq
    requires leader.latestCommittedFragment == follower.latestCommittedFragment
    requires leader.c.cfg.auth.verifyLeader(leader.c.leader, leader.pending.value.digest, signature)
    ensures Confirms(follower.c, follower.admission, follower.committed.View(), follower.latestCommittedFragment,
                     SlotOf(follower.pending), leader.pending.value.fragment, signature, leader.c.leader)
       <==> if follower.pending.Some? then follower.pending.value.digest == leader.pending.value.digest
            else Available(follower.admission, follower.committed.done, leader.pending.value.fragment.evidence)
  {
    hide *;
    SameStartRefl(leader.c);
    SameCommitted(leader, follower);
    ViewFields(follower.committed);
    leader.PendingDigest();
    ConfirmsIff(follower.c, follower.admission, follower.committed.View(), follower.latestCommittedFragment,
                SlotOf(follower.pending), leader.pending.value.fragment, signature);
    SlotIs(follower.pending);
  }

  lemma ConfirmsIff(c: Context, a: Admission, s: Evidence, latest: Digest, slot: Option<Digest>, f: Fragment,
                    signature: Signature)
    requires Acceptable(c, s, latest, f) && c.cfg.auth.verifyLeader(c.leader, FragmentDigest(f), signature)
    ensures Confirms(c, a, s, latest, slot, f, signature, c.leader)
       <==> if slot.Some? then slot.value == FragmentDigest(f) else Available(a, s.done, f.evidence)
  {
    hide Available, Accepts, Certifies, Pre, Post, FragmentDigest;
  }

  lemma SlotIs(pending: Option<Pending>)
    ensures SlotOf(pending) == if pending.Some? then Some(pending.value.digest) else None
  {
  }
}

/**
  Collector, proposer and the commit path of the order leader (pkg/ofo/service.go:239-355)
  around its service object. Any sequence of calls is an interleaving of the two stages
  with the hosting layer and the network.
 */
module LeaderPipeline {
  import opened Types
  import opened EvidenceSpec
  import opened EvidenceObject
  import opened Chain
  import opened Service
  import opened Collector
  import LO = LocalOrders

  /** Where a round is: being collected, handed to construction, waiting for its candidate
      to be committed or abandoned, or finished and about to be acknowledged. */
  datatype Stage = Collecting | Handed(batch: seq<LocalOrder>) | Awaiting(done: DoneSignal) | Finished

  /** The only pending candidate is the one that the proposer waits for, it carries the
      complete batch of the next sequence, and its signal tells when it is settled. */
  ghost predicate SlotMatches(s: OFOService, stage: Stage)
    requires s.c.cfg.params.Ok()
    reads s, s.committed, if stage.Awaiting? then {stage.done} else {}
  {
    if stage.Awaiting? && !stage.done.closed then
      && s.pending.Some? && s.pending.value.done == stage.done
      && Complete(s.c.cfg.params, s.committed.fragmentSeq + 1, s.pending.value.fragment.evidence)
    else s.pending.None?
  }

  class Pipeline {
    const service: OFOService
    var pending: seq<LocalOrder>
    var receivedFrom: set<Replica>
    var stage: Stage

    /** Between rounds nothing is gathered; what is gathered or handed over belongs to the
        sequence after the committed one. */
    ghost predicate Rounds()
      requires service.c.cfg.params.Ok()
      reads this, service, service.committed
    {
      var p, next := service.c.cfg.params, service.committed.fragmentSeq + 1;
      && receivedFrom == Senders(pending) && Gathered(p, next, pending) && |pending| < p.n - p.f
      && (!stage.Collecting? ==> pending == [])
      && (stage.Handed? ==> Complete(p, next, stage.batch))
    }

    ghost predicate Valid()
      reads this, service, service.committed, service.manager, Footprint(service.pending)
      reads if stage.Awaiting? then {stage.done} else {}
    {
      && service.Valid() && service.Leads() && service.c.cfg.params.Ok()
      && Rounds() && SlotMatches(service, stage) && CompleteRun(service.c.cfg.params, service.history)
    }

    constructor (service: OFOService)
      requires service.Valid() && service.Leads() && service.pending.None? && service.history == []
      ensures Valid() && this.service == service && stage == Collecting && pending == []
    {
      hide *;
      service.Whole();
      this.service := service;
      pending, receivedFrom, stage := [], {}, Collecting;
      new;
      service.StillValid();
      service.OwnState();
      NothingGathered(service.c.cfg.params, service.committed.fragmentSeq + 1);
      StartsIdle();
      StillValid();
    }

    lemma StartsIdle()
      requires service.c.cfg.params.Ok() && stage == Collecting && pending == [] && receivedFrom == {}
      requires service.pending.None? && service.history == []
      requires Gathered(service.c.cfg.params, service.committed.fragmentSeq + 1, []) && Senders([]) == {}
      ensures Rounds() && SlotMatches(service, stage) && CompleteRun(service.c.cfg.params, service.history)
    {
    }

    lemma Whole()
      requires Valid()
      ensures service.Valid() && service.Leads() && service.c.cfg.params.Ok()
      ensures Rounds() && SlotMatches(service, stage) && CompleteRun(service.c.cfg.params, service.history)
    {
    }

    lemma StillValid()
      requires service.Valid() && service.Leads() && service.c.cfg.params.Ok()
      requires Rounds() && SlotMatches(service, stage) && CompleteRun(service.c.cfg.params, service.history)
      ensures Valid()
    {
    }

    lemma RoundsAre()
      requires service.c.cfg.params.Ok()
      ensures var p, next := service.c.cfg.params, service.committed.fragmentSeq + 1;
        Rounds() <==>
          && receivedFrom == Senders(pending) && Gathered(p, next, pending) && |pending| < p.n - p.f
          && (!stage.Collecting? ==> pending == [])
          && (stage.Handed? ==> Complete(p, next, stage.batch))
      ensures service.c.cfg.params.f < service.c.cfg.params.n
    {
    }

    lemma SlotIs()
      requires service.c.cfg.params.Ok()
      ensures SlotMatches(service, stage) <==>
        if stage.Awaiting? && !stage.done.closed then
          && service.pending.Some? && service.pending.value.done == stage.done
          && Complete(service.c.cfg.params, service.committed.fragmentSeq + 1, service.pending.value.fragment.evidence)
        else service.pending.None?
    {
    }

    /** An order arrives from `sender`. While a round is out, arrivals are drained;
        otherwise only a scheduled replica's own first order for the sequence after the
        committed one is kept, and the last one missing hands the batch over. */
    method OnOrder(order: LocalOrder, sender: Replica)
      requires Valid()
      modifies this
      ensures Valid()
      ensures !old(stage).Collecting? ==> stage == old(stage)
      ensures var p, next, kept := service.c.cfg.params, service.committed.fragmentSeq + 1, old(pending) + [order];
        if !(old(stage).Collecting? && sender == order.replica && order.fragmentSeq == next
             && Scheduled(order.replica, next, p)
             && order.replica !in Senders(old(pending)))
        then pending == old(pending) && stage == old(stage)
        else if |kept| < p.n - p.f then pending == kept && stage == Collecting
        else pending == [] && stage == Handed(kept) && Complete(p, next, kept)
    {
      hide *;
      Whole();
      RoundsAre();
      SlotIs();
      var p, expected := service.c.cfg.params, service.committed.fragmentSeq + 1;
      if sender != order.replica || !stage.Collecting? || order.fragmentSeq != expected
           || !Scheduled(order.replica, expected, p) {
        return;
      }
      if order.replica !in receivedFrom {
        GatheredMore(p, expected, pending, order);
        pending := pending + [order];
        receivedFrom := receivedFrom + {order.replica};
      }
      if |pending| >= p.n - p.f {
        GatheredIsComplete(p, expected, pending);
        NothingGathered(p, expected);
        stage := Handed(pending);
        pending, receivedFrom := [], {};
      }
      RoundsAre();
      SlotIs();
      StillValid();
    }

    /** The proposer constructs from the batch that it was handed. There is never another
        candidate in the way; the new one carries one order of each scheduled replica, all
        for the sequence after the committed one. */
    method Construct()
      requires Valid()
      modifies this`stage, service`pending
      ensures Valid()
      ensures !old(stage).Handed? ==> stage == old(stage) && service.pending == old(service.pending)
      ensures old(stage).Handed? ==> old(service.pending).None?
      ensures old(stage).Handed? && service.pending.None? ==> stage == Finished
      ensures old(stage).Handed? && service.pending.Some? ==>
        var p, next, q := service.c.cfg.params, service.committed.fragmentSeq + 1, service.pending.value;
        && stage == Awaiting(q.done) && fresh(q.done) && !q.done.closed
        && q.fragment.evidence == LO.Canonical(old(stage).batch) && q.fragment.fragmentSeq == next
        && |q.fragment.evidence| == p.n - p.f && Senders(q.fragment.evidence) == ScheduledSet(next, p)
        && forall o :: o in q.fragment.evidence ==> o.fragmentSeq == next
      ensures (old(stage).Handed? && (forall d :: service.signer.signLeader(d).Some?)
               && Accepts(service.c.cfg, service.committed.View(), LO.Canonical(old(stage).batch), service.c.epoch,
                          service.committed.fragmentSeq + 1)
               && Available(service.admission, service.committed.done, LO.Canonical(old(stage).batch)))
              ==> service.pending.Some?
    {
      hide *;
      Whole();
      RoundsAre();
      SlotIs();
      if !stage.Handed? {
        return;
      }
      var batch := stage.batch;
      var ok := service.ConstructCandidate(batch);
      if ok {
        CanonicalComplete(service.c.cfg.params, service.committed.fragmentSeq + 1, batch);
        CompleteParts(service.c.cfg.params, service.committed.fragmentSeq + 1, LO.Canonical(batch));
        CandidateParts(service);
        service.Whole();
        stage := Awaiting(service.pending.value.done);
        service.StillValid();
      } else {
        stage := Finished;
      }
      RoundsAre();
      SlotIs();
      StillValid();
    }

    /** The hosting layer commits. Only the candidate that the proposer waits for can be
        committed; at any other time, and for any other digest, nothing changes. */
    method Commit(digest: Digest) returns (ok: bool)
      requires Valid()
      modifies service, if service.pending.Some? then {service.pending.value.done} else {}
      ensures Valid() && stage == old(stage) && pending == old(pending)
      ensures ok <==> stage.Awaiting? && !old(stage.done.closed) && old(service.pending).value.digest == digest
      ensures ok ==>
        && service.history == old(service.history) + [old(service.pending).value.fragment]
        && service.committed.fragmentSeq == old(service.committed.fragmentSeq) + 1
        && service.latestCommittedFragment == digest && service.pending.None? && stage.done.closed
      ensures !ok ==> service.history == old(service.history) && service.committed == old(service.committed)
                      && service.pending == old(service.pending)
                      && (stage.Awaiting? ==> stage.done.closed == old(stage.done.closed))
    {
      hide *;
      Whole();
      RoundsAre();
      SlotIs();
      CompleteRunIs(service.c.cfg.params, service.history);
      SequenceIs(service);
      NothingGathered(service.c.cfg.params, service.committed.fragmentSeq + 2);
      var batches := service.CommitPending(digest);
      ok := batches.Some?;
      if service.pending.Some? {
        CandidateParts(service);
      }
      SequenceIs(service);
      CompleteRunIs(service.c.cfg.params, service.history);
      RoundsAre();
      SlotIs();
      StillValid();
    }

    /** The hosting layer abandons, with the same care. */
    method Abandon(digest: Digest) returns (ok: bool)
      requires Valid()
      modifies service`pending, if service.pending.Some? then {service.pending.value.done} else {}
      ensures Valid() && stage == old(stage) && pending == old(pending)
      ensures ok <==> stage.Awaiting? && !old(stage.done.closed) && old(service.pending).value.digest == digest
      ensures ok ==> service.pending.None? && stage.done.closed
      ensures !ok ==>
        service.pending == old(service.pending) && (stage.Awaiting? ==> stage.done.closed == old(stage.done.closed))
    {
      hide *;
      Whole();
      RoundsAre();
      SlotIs();
      ok := service.AbandonPending(digest);
      if service.pending.Some? {
        CandidateParts(service);
      }
      RoundsAre();
      SlotIs();
      StillValid();
    }

    /** The proposer notices that its candidate is settled. */
    method OnDone()
      requires Valid()
      modifies this`stage
      ensures Valid()
      ensures stage == if old(stage).Awaiting? && service.pending.None? then Finished else old(stage)
    {
      hide *;
      Whole();
      RoundsAre();
      SlotIs();
      if stage.Awaiting? && stage.done.closed {
        stage := Finished;
      }
      RoundsAre();
      SlotIs();
      StillValid();
    }

    /** The collector is told that the round is over: it starts the next one from nothing,
        with no candidate pending. */
    method OnRoundDone()
      requires Valid()
      modifies this`stage
      ensures Valid()
      ensures stage == if old(stage).Finished? then Collecting else old(stage)
      ensures old(stage).Finished? ==> pending == [] && service.pending.None?
    {
      hide *;
      Whole();
      RoundsAre();
      SlotIs();
      if stage.Finished? {
        stage := Collecting;
      }
      RoundsAre();
      SlotIs();
      StillValid();
    }

    /** The leader's own receipts and extensions do not disturb a round. */
    method OnTransaction(id: TxID, bytes: Content)
      requires Valid()
      modifies service`admission, service`receiptQueue, service`observed, service`received
      ensures Valid()
    {
      hide *;
      Whole();
      RoundsAre();
      SlotIs();
      service.ReceiveTransaction(id, bytes);
      RoundsAre();
      SlotIs();
      StillValid();
    }

    method OnTick() returns (sent: Option<LocalOrder>)
      requires Valid()
      modifies service`localOrderPending, service`signed
      ensures Valid()
    {
      hide *;
      Whole();
      RoundsAre();
      SlotIs();
      sent := service.GenerateLocalOrder();
      RoundsAre();
      SlotIs();
      StillValid();
    }
  }

  lemma CompleteParts(p: Params, k: nat, batch: seq<LocalOrder>)
    requires p.Ok() && Complete(p, k, batch)
    ensures |batch| == p.n - p.f && Senders(batch) == ScheduledSet(k, p)
    ensures forall o :: o in batch ==> o.fragmentSeq == k
  {
    hide Scheduled;
  }

  lemma CandidateParts(s: OFOService)
    requires s.Valid() && s.pending.Some?
    ensures !s.pending.value.done.closed && s.pending.value.fragment.fragmentSeq == s.committed.fragmentSeq + 1
  {
    hide Run, Accepts, FragmentDigest, StateAfter;
  }

  lemma CompleteRunIs(p: Params, h: seq<Fragment>)
    requires p.Ok()
    ensures CompleteRun(p, h) <==> forall k :: 0 <= k < |h| ==> Complete(p, k + 1, h[k].evidence)
  {
    hide Complete;
  }

  lemma SequenceIs(s: OFOService)
    requires s.Valid()
    ensures s.c.cfg.params.Ok() && s.committed.fragmentSeq == |s.history|
  {
    hide *;
    s.OwnState();
    s.InstalledParts();
    ViewFields(s.committed);
    RunValid(s.c, s.history);
  }
}

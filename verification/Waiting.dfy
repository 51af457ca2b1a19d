/**
  How long an id can wait: the queue of an honest, retransmitting replica over a run whose
  fragments carry complete batches, as the rotating collector makes them.
 */
module Waiting {
  import opened Types
  import opened Collections
  import opened EvidenceSpec
  import opened Chain
  import opened Logs
  import opened Collector
  import opened Service
  import LO = LocalOrders

  /** What happens at the replica: a first receipt, a send, or a committed fragment. */
  datatype Event = Receipt(id: TxID) | Send | Committed(f: Fragment)

  /** What it committed, and its producer side. */
  datatype Line = Line(history: seq<Fragment>, r: LO.Producer)

  /** The committed state and the honest log invariant: what an honest service is in. */
  ghost predicate LineOk(c: Context, i: Replica, x: Line) {
    Run(c, x.history) && LO.HonestLog(i, c.epoch, StateAfter(c, x.history), AdmittedLog(x.history, i), x.r)
  }

  lemma ServiceLine(s: OFOService)
    requires s.Valid() && s.HonestLog()
    ensures s.c.cfg.params.Ok() && LineOk(s.c, s.replica, Line(s.history, s.Producer()))
  {
    hide *;
    s.OwnState();
    s.InstalledParts();
    s.HonestIs();
    LineIf(s.c, s.replica, Line(s.history, s.Producer()));
  }

  lemma LineIf(c: Context, i: Replica, x: Line)
    ensures LineOk(c, i, x)
       <==> Run(c, x.history) && LO.HonestLog(i, c.epoch, StateAfter(c, x.history), AdmittedLog(x.history, i), x.r)
  {
  }

  /** Receipts are first receipts; a fragment is acceptable, carries a complete batch, and
      nobody forged the replica's signature. That it has sent is not assumed. */
  ghost predicate Possible(c: Context, i: Replica, x: Line, e: Event)
    requires c.cfg.params.Ok()
  {
    match e
    case Receipt(id) => id !in x.r.received
    case Send => true
    case Committed(f) =>
      && Acceptable(c, StateAfter(c, x.history), LatestAfter(c, x.history), f)
      && Complete(c.cfg.params, |x.history| + 1, f.evidence) && LO.Unforged(f.evidence, i, x.r.signed)
  }

  ghost function After(c: Context, sign: Digest -> Option<Signature>, i: Replica, x: Line, e: Event): Line {
    match e
    case Receipt(id) => x.(r := LO.Received(x.r, id))
    case Send => x.(r := LO.AfterSend(c, sign, i, false, StateAfter(c, x.history), x.r))
    case Committed(f) => Line(x.history + [f], LO.Settles(x.r, OrderBy(f.evidence, i)))
  }

  ghost function AfterAll(c: Context, sign: Digest -> Option<Signature>, i: Replica, x: Line, es: seq<Event>): Line {
    if es == [] then x else After(c, sign, i, AfterAll(c, sign, i, x, es[..|es| - 1]), es[|es| - 1])
  }

  ghost predicate AllPossible(c: Context, sign: Digest -> Option<Signature>, i: Replica, x: Line, es: seq<Event>)
    requires c.cfg.params.Ok()
  {
    es == [] ||
    var before := es[..|es| - 1];
    AllPossible(c, sign, i, x, before) && Possible(c, i, AfterAll(c, sign, i, x, before), es[|es| - 1])
  }

  function Rounds(es: seq<Event>): nat {
    if es == [] then 0 else Rounds(es[..|es| - 1]) + (if es[|es| - 1].Committed? then 1 else 0)
  }

  lemma LineKept(c: Context, sign: Digest -> Option<Signature>, i: Replica, x: Line, e: Event)
    requires c.cfg.params.Ok() && LineOk(c, i, x) && Possible(c, i, x, e)
    ensures LineOk(c, i, After(c, sign, i, x, e))
  {
    hide *;
    var s, admitted := StateAfter(c, x.history), AdmittedLog(x.history, i);
    var y := After(c, sign, i, x, e);
    LineIf(c, i, x);
    LineIf(c, i, y);
    AfterIs(c, sign, i, x, e);
    PossibleIs(c, i, x, e);
    match e
    case Receipt(id) => LO.ReceiveKeeps(i, c.epoch, s, admitted, x.r, id);
    case Send => LO.SendKeeps(c, sign, i, s, admitted, x.r);
    case Committed(f) =>
      RunSnoc(c, x.history, f);
      LO.CommitKeeps(c, x.history, f, i, x.r);
  }

  lemma AfterIs(c: Context, sign: Digest -> Option<Signature>, i: Replica, x: Line, e: Event)
    ensures e.Receipt? ==> After(c, sign, i, x, e) == Line(x.history, LO.Received(x.r, e.id))
    ensures e.Send? ==>
      After(c, sign, i, x, e) == Line(x.history, LO.AfterSend(c, sign, i, false, StateAfter(c, x.history), x.r))
    ensures e.Committed? ==>
      After(c, sign, i, x, e) == Line(x.history + [e.f], LO.Settles(x.r, OrderBy(e.f.evidence, i)))
  {
  }

  lemma PossibleIs(c: Context, i: Replica, x: Line, e: Event)
    requires c.cfg.params.Ok() && Possible(c, i, x, e)
    ensures e.Receipt? ==> e.id !in x.r.received
    ensures e.Committed? ==>
      && Acceptable(c, StateAfter(c, x.history), LatestAfter(c, x.history), e.f)
      && Complete(c.cfg.params, |x.history| + 1, e.f.evidence) && LO.Unforged(e.f.evidence, i, x.r.signed)
  {
    hide Acceptable, Complete, LO.Unforged;
  }

  // ----- What a round does for the replica

  /** Committed extensions still needed until the id at place `k` of the queue is in. */
  function Debt(k: nat, retained: Option<LocalOrder>, size: nat): nat
    requires 0 < size
  {
    if retained.None? then k / size + 1
    else if k < |retained.value.txs| then 1
    else (k - |retained.value.txs|) / size + 2
  }

  /** `id` was admitted, or waits at a place that costs at most `debt` extensions. */
  ghost predicate Waits(i: Replica, x: Line, id: TxID, size: nat, debt: int)
    requires 0 < size
  {
    id in AdmittedLog(x.history, i) ||
    exists k :: 0 <= k < |x.r.queue| && x.r.queue[k] == id && Debt(k, x.r.retained, size) <= debt
  }

  lemma DivLess(k: nat, size: nat)
    requires 0 < size
    ensures k < size ==> k / size == 0
    ensures size <= k ==> (k - size) / size + 1 == k / size
  {
    if size <= k {
      var q := (k - size) / size;
      assert k - size == size * q + (k - size) % size;
      DivModIs(k, size, q + 1, (k - size) % size);
    } else {
      DivModIs(k, size, 0, k);
    }
  }

  lemma ScheduledHasOrder(p: Params, k: nat, evidence: seq<LocalOrder>, i: Replica)
    requires p.Ok() && i < p.n && Complete(p, k, evidence)
    ensures OrderBy(evidence, i).Some? <==> Scheduled(i, k, p)
    ensures OrderBy(evidence, i).Some? ==>
      var o := OrderBy(evidence, i).value;
      o in evidence && o.replica == i && o.fragmentSeq == k
  {
    OrderFound(evidence, i);
    InScheduledSet(k, p, i);
    hide Scheduled, OrderBy;
  }

  /** A scheduled round admits exactly the chunk that the replica retains, and so it did
      send; any other round leaves its producer side alone. */
  lemma RoundAdmits(c: Context, i: Replica, x: Line, f: Fragment)
    requires c.cfg.params.Ok() && i < c.cfg.params.n && LineOk(c, i, x) && Possible(c, i, x, Committed(f))
    ensures var h, r' := x.history + [f], LO.Settles(x.r, OrderBy(f.evidence, i));
      if Scheduled(i, |x.history| + 1, c.cfg.params) then
        && x.r.retained.Some? && x.r.retained.value.txs <= x.r.queue
        && AdmittedLog(h, i) == AdmittedLog(x.history, i) + x.r.retained.value.txs
        && r'.queue == x.r.queue[|x.r.retained.value.txs|..] && r'.retained.None?
      else AdmittedLog(h, i) == AdmittedLog(x.history, i) && r' == x.r
  {
    hide *;
    var s, admitted := StateAfter(c, x.history), AdmittedLog(x.history, i);
    LineIf(c, i, x);
    PossibleIs(c, i, x, Committed(f));
    RunValid(c, x.history);
    ScheduledHasOrder(c.cfg.params, |x.history| + 1, f.evidence, i);
    LO.AdmittedSnoc(x.history, f, i);
    ChunkIs(f.evidence, i);
    LO.SettlesNone(x.r);
    if OrderBy(f.evidence, i).Some? {
      var o := OrderBy(f.evidence, i).value;
      LO.RetainedCommitted(i, c.epoch, s, admitted, x.r, f.evidence, o);
      LO.SameDigestSameChunk(x.r.retained.value, o);
      QueueDistinct(i, c.epoch, s, admitted, x.r);
      SettledQueue(x.r.queue, o.txs);
      SettlesMatch(x.r, o);
    }
  }

  lemma QueueDistinct(i: Replica, epoch: nat, s: Evidence, admitted: seq<TxID>, r: LO.Producer)
    requires LO.HonestLog(i, epoch, s, admitted, r)
    ensures Distinct(r.queue) && (r.retained.Some? ==> r.retained.value.txs <= r.queue)
  {
    hide Distinct, LO.SignedOnce;
    assert r.received[|admitted|..] == r.queue;
    DistinctSuffix(r.received, |admitted|);
  }

  lemma SettlesMatch(r: LO.Producer, o: LocalOrder)
    requires r.retained.Some? && LocalOrderDigest(r.retained.value) == LocalOrderDigest(o)
    ensures LO.Settles(r, Some(o)).queue == LO.Dropping(r.queue, set x | x in o.txs)
    ensures LO.Settles(r, Some(o)).retained.None?
  {
    hide LO.Dropping, LocalOrderDigest;
  }

  lemma SettledQueue(queue: seq<TxID>, chunk: seq<TxID>)
    requires Distinct(queue) && chunk <= queue
    ensures LO.Dropping(queue, set x | x in chunk) == queue[|chunk|..] && Distinct(queue[|chunk|..])
  {
    assert queue[..|chunk|] == chunk;
    LO.DroppingPrefix(queue, |chunk|);
    DistinctSuffix(queue, |chunk|);
  }

  /** Sending turns the oldest receipts into the retained chunk, or keeps it. */
  lemma SendChunks(c: Context, sign: Digest -> Option<Signature>, i: Replica, s: Evidence, r: LO.Producer)
    ensures var r' := LO.AfterSend(c, sign, i, false, s, r);
      && r'.queue == r.queue
      && if r.retained.Some? then r'.retained.Some? && r'.retained.value.txs == r.retained.value.txs
         else r'.retained.Some? ==> r'.retained.value.txs == r.queue[..Min(c.cfg.params.maxOrderSize, |r.queue|)]
  {
    hide LocalOrderDigest, LocalOrderHead;
  }

  /** One event never raises the debt, and a scheduled round pays one. */
  lemma WaitsStep(c: Context, sign: Digest -> Option<Signature>, i: Replica, x: Line, e: Event, id: TxID, debt: int)
    requires c.cfg.params.Ok() && i < c.cfg.params.n && 0 < c.cfg.params.maxOrderSize
    requires LineOk(c, i, x) && Possible(c, i, x, e) && Waits(i, x, id, c.cfg.params.maxOrderSize, debt)
    ensures Waits(i, After(c, sign, i, x, e), id, c.cfg.params.maxOrderSize,
                  debt - if e.Committed? && Scheduled(i, |x.history| + 1, c.cfg.params) then 1 else 0)
  {
    hide *;
    var size := c.cfg.params.maxOrderSize;
    AfterIs(c, sign, i, x, e);
    match e
    case Receipt(new') =>
      WaitsReceipt(i, x, id, size, debt, new');
    case Send =>
      SendChunks(c, sign, i, StateAfter(c, x.history), x.r);
      WaitsSend(i, x, After(c, sign, i, x, e), id, size, debt);
    case Committed(f) =>
      RoundAdmits(c, i, x, f);
      if Scheduled(i, |x.history| + 1, c.cfg.params) {
        WaitsRound(i, x, After(c, sign, i, x, e), id, size, debt);
      } else {
        WaitsIdle(i, x, After(c, sign, i, x, e), id, size, debt);
      }
  }

  lemma WaitsReceipt(i: Replica, x: Line, id: TxID, size: nat, debt: int, new': TxID)
    requires 0 < size && Waits(i, x, id, size, debt)
    ensures Waits(i, Line(x.history, LO.Received(x.r, new')), id, size, debt)
  {
    hide AdmittedLog;
    if id !in AdmittedLog(x.history, i) {
      var k :| 0 <= k < |x.r.queue| && x.r.queue[k] == id && Debt(k, x.r.retained, size) <= debt;
      assert LO.Received(x.r, new').queue[k] == id;
    }
  }

  lemma WaitsSend(i: Replica, x: Line, y: Line, id: TxID, size: nat, debt: int)
    requires 0 < size && Waits(i, x, id, size, debt) && y.history == x.history && y.r.queue == x.r.queue
    requires if x.r.retained.Some? then y.r.retained.Some? && y.r.retained.value.txs == x.r.retained.value.txs
             else y.r.retained.Some? ==> y.r.retained.value.txs == x.r.queue[..Min(size, |x.r.queue|)]
    ensures Waits(i, y, id, size, debt)
  {
    hide AdmittedLog;
    if id !in AdmittedLog(x.history, i) {
      var k :| 0 <= k < |x.r.queue| && x.r.queue[k] == id && Debt(k, x.r.retained, size) <= debt;
      DivLess(k, size);
      assert y.r.queue[k] == id;
    }
  }

  lemma WaitsRound(i: Replica, x: Line, y: Line, id: TxID, size: nat, debt: int)
    requires 0 < size && Waits(i, x, id, size, debt) && x.r.retained.Some?
    requires var chunk := x.r.retained.value.txs;
      && chunk <= x.r.queue && y.r.queue == x.r.queue[|chunk|..] && y.r.retained.None?
      && AdmittedLog(y.history, i) == AdmittedLog(x.history, i) + chunk
    ensures Waits(i, y, id, size, debt - 1)
  {
    hide AdmittedLog;
    if id !in AdmittedLog(x.history, i) {
      var chunk := x.r.retained.value.txs;
      var k :| 0 <= k < |x.r.queue| && x.r.queue[k] == id && Debt(k, x.r.retained, size) <= debt;
      if k < |chunk| {
        assert chunk[k] == id;
      } else {
        assert y.r.queue[k - |chunk|] == id;
      }
    }
  }

  lemma WaitsIdle(i: Replica, x: Line, y: Line, id: TxID, size: nat, debt: int)
    requires 0 < size && Waits(i, x, id, size, debt) && y.r == x.r
    requires AdmittedLog(y.history, i) == AdmittedLog(x.history, i)
    ensures Waits(i, y, id, size, debt)
  {
    hide AdmittedLog;
    if id !in AdmittedLog(x.history, i) {
      var k :| 0 <= k < |x.r.queue| && x.r.queue[k] == id && Debt(k, x.r.retained, size) <= debt;
      assert y.r.queue[k] == id;
    }
  }

  // ----- Over many rounds

  function ScheduledRounds(i: Replica, p: Params, k: nat, rounds: nat): nat
    requires p.Ok()
  {
    if rounds == 0 then 0 else ScheduledRounds(i, p, k, rounds - 1) + (if Scheduled(i, k + rounds, p) then 1 else 0)
  }

  lemma {:induction false} WaitsThrough(c: Context, sign: Digest -> Option<Signature>, i: Replica, x: Line,
                                        es: seq<Event>,
                                        id: TxID, debt: int)
    requires c.cfg.params.Ok() && i < c.cfg.params.n && 0 < c.cfg.params.maxOrderSize
    requires LineOk(c, i, x) && AllPossible(c, sign, i, x, es) && Waits(i, x, id, c.cfg.params.maxOrderSize, debt)
    ensures var y := AfterAll(c, sign, i, x, es);
      && LineOk(c, i, y) && x.history <= y.history && |y.history| == |x.history| + Rounds(es)
      && Waits(i, y, id, c.cfg.params.maxOrderSize, debt - ScheduledRounds(i, c.cfg.params, |x.history|, Rounds(es)))
  {
    hide *;
    OneEventAtATime(c, sign, i, x, es);
    if es != [] {
      var before, e := es[..|es| - 1], es[|es| - 1];
      WaitsThrough(c, sign, i, x, before, id, debt);
      var y := AfterAll(c, sign, i, x, before);
      LineKept(c, sign, i, y, e);
      WaitsStep(c, sign, i, y, e, id, debt - ScheduledRounds(i, c.cfg.params, |x.history|, Rounds(before)));
      AfterIs(c, sign, i, y, e);
      HistoryGrows(c, sign, i, y, e);
    }
  }

  lemma OneEventAtATime(c: Context, sign: Digest -> Option<Signature>, i: Replica, x: Line, es: seq<Event>)
    requires c.cfg.params.Ok() && AllPossible(c, sign, i, x, es)
    ensures es == [] ==> AfterAll(c, sign, i, x, es) == x && Rounds(es) == 0
    ensures es == [] ==> ScheduledRounds(i, c.cfg.params, |x.history|, Rounds(es)) == 0
    ensures es != [] ==>
      var before, e := es[..|es| - 1], es[|es| - 1];
      var y, now := AfterAll(c, sign, i, x, before), if e.Committed? then 1 else 0;
      && AllPossible(c, sign, i, x, before) && Possible(c, i, y, e)
      && AfterAll(c, sign, i, x, es) == After(c, sign, i, y, e) && Rounds(es) == Rounds(before) + now
      && ScheduledRounds(i, c.cfg.params, |x.history|, Rounds(es))
         == ScheduledRounds(i, c.cfg.params, |x.history|, Rounds(before))
            + if now == 1 && Scheduled(i, |x.history| + Rounds(es), c.cfg.params) then 1 else 0
  {
    hide Scheduled, Possible, After;
  }

  lemma HistoryGrows(c: Context, sign: Digest -> Option<Signature>, i: Replica, x: Line, e: Event)
    ensures x.history <= After(c, sign, i, x, e).history
    ensures |After(c, sign, i, x, e).history| == |x.history| + if e.Committed? then 1 else 0
  {
    hide LO.Settles, LO.AfterSend, LO.Received;
  }

  lemma {:induction false} MoreRounds(i: Replica, p: Params, k: nat, a: nat, b: nat)
    requires p.Ok()
    ensures ScheduledRounds(i, p, k, a + b) == ScheduledRounds(i, p, k, a) + ScheduledRounds(i, p, k + a, b)
    decreases b
  {
    hide Scheduled;
    if b > 0 {
      MoreRounds(i, p, k, a, b - 1);
    }
  }

  lemma {:induction false} OneScheduled(i: Replica, p: Params, k: nat, rounds: nat, d: nat)
    requires p.Ok() && d < rounds && Scheduled(i, k + 1 + d, p)
    ensures ScheduledRounds(i, p, k, rounds) >= 1
    decreases rounds
  {
    hide Scheduled;
    if d < rounds - 1 {
      OneScheduled(i, p, k, rounds - 1, d);
    }
  }

  lemma {:induction false} ScheduledOften(i: Replica, p: Params, k: nat, m: nat)
    requires p.Ok() && i < p.n
    ensures ScheduledRounds(i, p, k, (p.f + 1) * m) >= m
  {
    hide Scheduled;
    if m > 0 {
      ScheduledOften(i, p, k, m - 1);
      var a, b := (p.f + 1) * (m - 1), p.f + 1;
      assert (p.f + 1) * m == a + b;
      MoreRounds(i, p, k, a, b);
      var d := NeverSkippedLong(i, k + a + 1, p);
      OneScheduled(i, p, k + a, b, d);
    }
  }

  lemma {:induction false} RoundsMonotone(i: Replica, p: Params, k: nat, a: nat, b: nat)
    requires p.Ok() && a <= b
    ensures ScheduledRounds(i, p, k, a) <= ScheduledRounds(i, p, k, b)
  {
    hide Scheduled;
    MoreRounds(i, p, k, a, b - a);
  }

  lemma DivDown(k: nat, less: nat, size: nat)
    requires 0 < size && less <= k
    ensures (k - less) / size <= k / size
  {
    var a, b := (k - less) / size, k / size;
    assert k - less == size * a + (k - less) % size && k == size * b + k % size;
    if a > b {
      assert size * (a - b) == size * a - size * b;
      AtLeastOnce(size, a - b);
    }
  }

  /** Bounded admission: with a positive size limit, the id at place `k` of an honest
      replica's queue is admitted within (f + 1)(k / size + 2) further fragments of a run
      with complete batches, whatever chunk is retained at the start. */
  lemma BoundedAdmission(c: Context, sign: Digest -> Option<Signature>, i: Replica, x: Line, es: seq<Event>, k: nat)
    requires c.cfg.params.Ok() && i < c.cfg.params.n && 0 < c.cfg.params.maxOrderSize
    requires LineOk(c, i, x) && k < |x.r.queue|
    requires AllPossible(c, sign, i, x, es)
    requires Rounds(es) >= (c.cfg.params.f + 1) * (k / c.cfg.params.maxOrderSize + 2)
    ensures var y := AfterAll(c, sign, i, x, es);
      && Run(c, y.history) && x.history <= y.history && |y.history| == |x.history| + Rounds(es)
      && x.r.queue[k] in AdmittedLog(y.history, i)
  {
    hide *;
    var p, m := c.cfg.params, k / c.cfg.params.maxOrderSize + 2;
    var id, y := x.r.queue[k], AfterAll(c, sign, i, x, es);
    StartsWaiting(i, x, k, p.maxOrderSize);
    WaitsThrough(c, sign, i, x, es, id, m);
    ScheduledOften(i, p, |x.history|, m);
    RoundsMonotone(i, p, |x.history|, (p.f + 1) * m, Rounds(es));
    WaitsNoMore(i, y, id, p.maxOrderSize, m - ScheduledRounds(i, p, |x.history|, Rounds(es)));
    LineIf(c, i, y);
  }

  lemma StartsWaiting(i: Replica, x: Line, k: nat, size: nat)
    requires 0 < size && k < |x.r.queue|
    ensures Waits(i, x, x.r.queue[k], size, k / size + 2)
  {
    hide AdmittedLog;
    if x.r.retained.Some? && k >= |x.r.retained.value.txs| {
      DivDown(k, |x.r.retained.value.txs|, size);
    }
    assert Debt(k, x.r.retained, size) <= k / size + 2;
  }

  lemma WaitsNoMore(i: Replica, x: Line, id: TxID, size: nat, debt: int)
    requires 0 < size && debt <= 0 && Waits(i, x, id, size, debt)
    ensures id in AdmittedLog(x.history, i)
  {
    hide AdmittedLog;
    DebtPositive(size);
  }

  lemma DebtPositive(size: nat)
    requires 0 < size
    ensures forall k: nat, retained :: Debt(k, retained, size) > 0
  {
  }
}

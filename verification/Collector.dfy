/**
  The leader's rotating collector (pkg/ofo/service.go:239-320): who is scheduled, and when
  a batch is complete.
 */
module Collector {
  import opened Types
  import opened Collections
  import opened EvidenceSpec
  import LO = LocalOrders

  // ----- The rotation

  /** A replica's distance from the first of the round, as the collector computes it. */
  function Offset(i: Replica, k: nat, n: nat): nat
    requires 0 < n
  {
    (i + n - k % n) % n
  }

  predicate Scheduled(i: Replica, k: nat, p: Params)
    requires p.Ok()
  {
    i < p.n && Offset(i, k, p.n) < p.n - p.f
  }

  lemma OffsetIs(i: Replica, k: nat, n: nat)
    requires 0 < n && i < n
    ensures Offset(i, k, n) == if i >= k % n then i - k % n else i + n - k % n
  {
    var x := i + n - k % n;
    if i >= k % n {
      assert x == n + (i - k % n);
      AddModulus(i - k % n, n);
    } else {
      SmallMod(x, n);
    }
  }

  lemma AtLeastOnce(n: nat, d: int)
    requires d >= 1
    ensures n * d >= n
  {
    assert n * d == n + n * (d - 1);
  }

  lemma DivModIs(x: nat, n: nat, q: int, r: nat)
    requires r < n && x == n * q + r
    ensures x / n == q && x % n == r
  {
    var q', r' := x / n, x % n;
    assert x == n * q' + r';
    assert n * (q - q') == n * q - n * q' && n * (q' - q) == n * q' - n * q;
    if q > q' {
      AtLeastOnce(n, q - q');
    } else if q < q' {
      AtLeastOnce(n, q' - q);
    }
  }

  lemma AddModulus(x: nat, n: nat)
    requires x < n
    ensures (n + x) % n == x
  {
    DivModIs(n + x, n, 1, x);
  }

  lemma SmallMod(x: nat, n: nat)
    requires x < n
    ensures x % n == x
  {
  }

  /** From one sequence to the next every replica moves one place forward. */
  lemma OffsetStep(i: Replica, k: nat, n: nat)
    requires 0 < n && i < n
    ensures Offset(i, k + 1, n) == if Offset(i, k, n) > 0 then Offset(i, k, n) - 1 else n - 1
  {
    OffsetIs(i, k, n);
    OffsetIs(i, k + 1, n);
    NextMod(k, n);
  }

  lemma NextMod(k: nat, n: nat)
    requires 0 < n
    ensures (k + 1) % n == if k % n == n - 1 then 0 else k % n + 1
  {
    var q, r := k / n, k % n;
    assert k == n * q + r;
    if r == n - 1 {
      assert n * (q + 1) == n * q + n;
      DivModIs(k + 1, n, q + 1, 0);
    } else {
      DivModIs(k + 1, n, q, r + 1);
    }
  }

  lemma {:induction false} OffsetFalls(i: Replica, k: nat, n: nat, d: nat)
    requires 0 < n && i < n && d <= Offset(i, k, n)
    ensures Offset(i, k + d, n) == Offset(i, k, n) - d
  {
    hide Offset;
    if d > 0 {
      OffsetFalls(i, k, n, d - 1);
      OffsetStep(i, k + d - 1, n);
    }
  }

  /** No replica is skipped for more than `f` sequences in a row. */
  lemma NeverSkippedLong(i: Replica, k: nat, p: Params) returns (d: nat)
    requires p.Ok() && i < p.n
    ensures d <= p.f && Scheduled(i, k + d, p)
  {
    OffsetIs(i, k, p.n);
    var o := Offset(i, k, p.n);
    if o < p.n - p.f {
      d := 0;
    } else {
      d := o - (p.n - p.f - 1);
      OffsetFalls(i, k, p.n, d);
    }
  }

  /** Replica `i` stands `j` places before sequence `k` in the rotation. */
  ghost predicate StandsBefore(i: Replica, j: nat, k: nat, n: nat)
    requires 0 < n
  {
    (i + j) % n == k % n
  }

  /** A sequence skips exactly the f replicas that stand just before it in the rotation. */
  lemma SkippedIff(i: Replica, k: nat, p: Params)
    requires p.Ok() && i < p.n
    ensures !Scheduled(i, k, p) <==> exists j :: 1 <= j <= p.f && StandsBefore(i, j, k, p.n)
  {
    var n, r := p.n, k % p.n;
    OffsetIs(i, k, n);
    if !Scheduled(i, k, p) {
      var j := n - Offset(i, k, n);
      if i >= r {
        AddModulus(r, n);
      } else {
        SmallMod(r, n);
      }
      assert StandsBefore(i, j, k, n);
    }
    if j :| 1 <= j <= p.f && StandsBefore(i, j, k, n) {
      if i + j < n {
        SmallMod(i + j, n);
      } else {
        AddModulus(i + j - n, n);
      }
    }
  }

  ghost function ScheduledSet(k: nat, p: Params): set<Replica>
    requires p.Ok()
  {
    set i | i in Replicas(p.n) && Scheduled(i, k, p)
  }

  /** The replica at distance `j`. */
  lemma InScheduledSet(k: nat, p: Params, i: Replica)
    requires p.Ok() && i < p.n
    ensures i in ScheduledSet(k, p) <==> Scheduled(i, k, p)
  {
    hide Scheduled;
  }

  function AtOffset(j: nat, k: nat, n: nat): Replica
    requires 0 < n && j < n
  {
    if j + k % n < n then j + k % n else j + k % n - n
  }

  lemma AtOffsetIs(j: nat, k: nat, n: nat)
    requires 0 < n && j < n
    ensures AtOffset(j, k, n) < n && Offset(AtOffset(j, k, n), k, n) == j
  {
    OffsetIs(AtOffset(j, k, n), k, n);
  }

  lemma OffsetAt(i: Replica, k: nat, n: nat)
    requires 0 < n && i < n
    ensures Offset(i, k, n) < n && AtOffset(Offset(i, k, n), k, n) == i
  {
    OffsetIs(i, k, n);
  }

  /** Each sequence schedules exactly n - f replicas. */
  lemma ScheduledCount(k: nat, p: Params)
    requires p.Ok()
    ensures |ScheduledSet(k, p)| == p.n - p.f
  {
    var m := p.n - p.f;
    var listed := seq(m, j requires 0 <= j < m => AtOffset(j, k, p.n));
    forall i, j | 0 <= i < j < m ensures listed[i] != listed[j] {
      AtOffsetIs(i, k, p.n);
      AtOffsetIs(j, k, p.n);
    }
    DistinctIf(listed);
    DistinctCard(listed);
    hide Offset, AtOffset;
    forall i ensures i in Elems(listed) <==> i in ScheduledSet(k, p) {
      if i in listed {
        var j :| 0 <= j < m && listed[j] == i;
        AtOffsetIs(j, k, p.n);
      }
      if i in ScheduledSet(k, p) {
        OffsetAt(i, k, p.n);
        assert listed[Offset(i, k, p.n)] == i;
      }
    }
    assert Elems(listed) == ScheduledSet(k, p);
  }

  // ----- Complete batches

  ghost function Senders(orders: seq<LocalOrder>): set<Replica> {
    set o | o in orders :: o.replica
  }

  ghost predicate OnePerSender(orders: seq<LocalOrder>) {
    forall j, k :: 0 <= j < k < |orders| ==> orders[j].replica != orders[k].replica
  }

  /** Orders of distinct scheduled replicas for sequence `k`. */
  ghost predicate Gathered(p: Params, k: nat, orders: seq<LocalOrder>)
    requires p.Ok()
  {
    OnePerSender(orders) && forall o :: o in orders ==> o.fragmentSeq == k && Scheduled(o.replica, k, p)
  }

  /** Exactly one order of each scheduled replica. */
  ghost predicate Complete(p: Params, k: nat, batch: seq<LocalOrder>)
    requires p.Ok()
  {
    && OnePerSender(batch) && |batch| == p.n - p.f && Senders(batch) == ScheduledSet(k, p)
    && forall o :: o in batch ==> o.fragmentSeq == k
  }

  lemma GatheredIsComplete(p: Params, k: nat, orders: seq<LocalOrder>)
    requires p.Ok() && Gathered(p, k, orders) && |orders| == p.n - p.f
    ensures Complete(p, k, orders)
  {
    ScheduledCount(k, p);
    SendersCount(orders);
    hide Scheduled;
    assert Senders(orders) <= ScheduledSet(k, p);
    SubsetCard(Senders(orders), ScheduledSet(k, p));
  }

  lemma SendersCount(orders: seq<LocalOrder>)
    requires OnePerSender(orders)
    ensures |Senders(orders)| == |orders|
  {
    var replicas := seq(|orders|, j requires 0 <= j < |orders| => orders[j].replica);
    DistinctIf(replicas);
    DistinctCard(replicas);
    forall i | i in Senders(orders) ensures i in Elems(replicas) {
      var j :| 0 <= j < |orders| && orders[j].replica == i;
      assert replicas[j] == i;
    }
    forall i | i in replicas ensures i in Senders(orders) {
      var j :| 0 <= j < |replicas| && replicas[j] == i;
      assert orders[j] in orders;
    }
    assert Senders(orders) == Elems(replicas);
  }

  lemma GatheredMore(p: Params, k: nat, orders: seq<LocalOrder>, o: LocalOrder)
    requires p.Ok() && Gathered(p, k, orders) && o.replica !in Senders(orders) && o.fragmentSeq == k
    requires Scheduled(o.replica, k, p)
    ensures Gathered(p, k, orders + [o]) && Senders(orders + [o]) == Senders(orders) + {o.replica}
  {
    hide Scheduled;
    assert forall q :: q in orders ==> q.replica in Senders(orders);
    assert o in orders + [o];
    forall i | i in Senders(orders) ensures i in Senders(orders + [o]) {
      var q :| q in orders && q.replica == i;
      assert q in orders + [o];
    }
  }

  lemma NothingGathered(p: Params, k: nat)
    requires p.Ok()
    ensures Gathered(p, k, []) && Senders([]) == {}
  {
  }

  /** A complete batch, sorted by `construct`, has the senders the replicas demand. */
  lemma CompleteIsCanonical(p: Params, k: nat, batch: seq<LocalOrder>)
    requires p.Ok() && Complete(p, k, batch)
    ensures Increasing(LO.Canonical(batch)) && |LO.Canonical(batch)| == p.n - p.f
  {
    hide Scheduled;
    var sorted := LO.Canonical(batch);
    LO.CanonicalSorts(batch);
    assert |multiset(sorted)| == |sorted| && |multiset(batch)| == |batch|;
    SameSenders(batch, sorted);
    SendersCount(batch);
    OnePerSenderIf(sorted);
    forall j, k | 0 <= j < k < |sorted| ensures sorted[j].replica < sorted[k].replica {
    }
  }

  lemma SameSenders(a: seq<LocalOrder>, b: seq<LocalOrder>)
    requires multiset(a) == multiset(b)
    ensures Senders(a) == Senders(b)
  {
    forall o | o in a || o in b ensures o in a && o in b {
      assert o in multiset(a) <==> o in a;
      assert o in multiset(b) <==> o in b;
    }
  }

  lemma OnePerSenderIf(orders: seq<LocalOrder>)
    requires |Senders(orders)| == |orders|
    ensures OnePerSender(orders)
  {
    var replicas := seq(|orders|, j requires 0 <= j < |orders| => orders[j].replica);
    forall i ensures i in Senders(orders) <==> i in Elems(replicas) {
      if i in Senders(orders) {
        var j :| 0 <= j < |orders| && orders[j].replica == i;
        assert replicas[j] == i;
      }
      if i in replicas {
        var j :| 0 <= j < |replicas| && replicas[j] == i;
        assert orders[j] in orders;
      }
    }
    assert Senders(orders) == Elems(replicas);
    DistinctCard(replicas);
    forall j, k | 0 <= j < k < |orders| ensures orders[j].replica != orders[k].replica {
      DistinctAt(replicas, j, k);
    }
  }

  /** Sorting by replica keeps a batch complete. */
  lemma CanonicalComplete(p: Params, k: nat, batch: seq<LocalOrder>)
    requires p.Ok() && Complete(p, k, batch)
    ensures Complete(p, k, LO.Canonical(batch))
  {
    hide Scheduled, LO.Canonical;
    CompleteIsCanonical(p, k, batch);
    LO.CanonicalSorts(batch);
    var sorted := LO.Canonical(batch);
    SameSenders(batch, sorted);
    forall o | o in sorted ensures o.fragmentSeq == k {
      assert o in multiset(sorted);
    }
  }

  /** Every fragment of the run carries the complete batch of its sequence. */
  ghost predicate CompleteRun(p: Params, h: seq<Fragment>)
    requires p.Ok()
  {
    forall k :: 0 <= k < |h| ==> Complete(p, k + 1, h[k].evidence)
  }
}

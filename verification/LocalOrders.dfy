/**
  The producer side as values: the chunk a replica signs next, what it retains, and the
  invariant that ties both to its first-receipt log.
 */
module LocalOrders {
  import opened Types
  import opened Collections
  import opened EvidenceSpec
  import opened Chain
  import opened Logs

  // ----- Canonical order of a batch (`sort.Slice` by replica)

  function InsertOrder(orders: seq<LocalOrder>, o: LocalOrder): seq<LocalOrder> {
    if orders == [] || orders[|orders| - 1].replica <= o.replica then orders + [o]
    else InsertOrder(orders[..|orders| - 1], o) + [orders[|orders| - 1]]
  }

  function Canonical(orders: seq<LocalOrder>): seq<LocalOrder> {
    if orders == [] then [] else InsertOrder(Canonical(orders[..|orders| - 1]), orders[|orders| - 1])
  }

  ghost predicate NonDecreasing(orders: seq<LocalOrder>) {
    forall j, k :: 0 <= j < k < |orders| ==> orders[j].replica <= orders[k].replica
  }

  lemma BelowLast(orders: seq<LocalOrder>, inserted: seq<LocalOrder>, o: LocalOrder)
    requires orders != [] && NonDecreasing(orders) && o.replica <= orders[|orders| - 1].replica
    requires multiset(inserted) == multiset(orders[..|orders| - 1]) + multiset{o}
    ensures forall q :: q in inserted ==> q.replica <= orders[|orders| - 1].replica
  {
    var rest := orders[..|orders| - 1];
    forall q | q in inserted ensures q.replica <= orders[|orders| - 1].replica {
      assert q in multiset(inserted);
      if q != o {
        assert q in multiset(rest);
        var j :| 0 <= j < |rest| && rest[j] == q;
      }
    }
  }

  lemma AppendLast(orders: seq<LocalOrder>, last: LocalOrder)
    requires NonDecreasing(orders) && forall q :: q in orders ==> q.replica <= last.replica
    ensures NonDecreasing(orders + [last]) && multiset(orders + [last]) == multiset(orders) + multiset{last}
  {
  }

  lemma SplitLast(orders: seq<LocalOrder>)
    requires orders != [] && NonDecreasing(orders)
    ensures NonDecreasing(orders[..|orders| - 1])
    ensures multiset(orders) == multiset(orders[..|orders| - 1]) + multiset{orders[|orders| - 1]}
    ensures forall q :: q in orders ==> q.replica <= orders[|orders| - 1].replica
  {
    assert orders == orders[..|orders| - 1] + [orders[|orders| - 1]];
  }

  lemma {:induction false} InsertKeeps(orders: seq<LocalOrder>, o: LocalOrder)
    requires NonDecreasing(orders)
    ensures NonDecreasing(InsertOrder(orders, o))
    ensures multiset(InsertOrder(orders, o)) == multiset(orders) + multiset{o}
  {
    hide NonDecreasing;
    if orders != [] {
      SplitLast(orders);
    }
    if orders == [] || orders[|orders| - 1].replica <= o.replica {
      AppendLast(orders, o);
    } else {
      var rest, last := orders[..|orders| - 1], orders[|orders| - 1];
      InsertKeeps(rest, o);
      BelowLast(orders, InsertOrder(rest, o), o);
      AppendLast(InsertOrder(rest, o), last);
    }
  }

  /** The canonical order is a permutation sorted by replica. */
  lemma {:induction false} CanonicalSorts(orders: seq<LocalOrder>)
    ensures NonDecreasing(Canonical(orders)) && multiset(Canonical(orders)) == multiset(orders)
  {
    if orders != [] {
      var rest, last := orders[..|orders| - 1], orders[|orders| - 1];
      CanonicalSorts(rest);
      InsertKeeps(Canonical(rest), last);
      assert orders == rest + [last];
    }
  }

  /** An accepted batch is in canonical order already, so sorting it again, as its digest
      does, changes nothing. */
  lemma {:induction false} CanonicalIdentity(orders: seq<LocalOrder>)
    requires Increasing(orders)
    ensures Canonical(orders) == orders
  {
    if orders != [] {
      var rest, last := orders[..|orders| - 1], orders[|orders| - 1];
      CanonicalIdentity(rest);
      assert rest == [] || rest[|rest| - 1].replica < last.replica;
      assert orders == rest + [last];
    }
  }

  // ----- The next extension

  function Reversed(ids: seq<TxID>): (r: seq<TxID>)
    ensures |r| == |ids|
  {
    if ids == [] then [] else Reversed(ids[1..]) + [ids[0]]
  }

  /** The oldest receipts that fit; a malicious replica reverses them. */
  function NextChunk(queue: seq<TxID>, maxSize: nat, malicious: bool): seq<TxID> {
    var ids := queue[..Min(maxSize, |queue|)];
    if malicious then Reversed(ids) else ids
  }

  lemma {:induction false} ReversedAt(ids: seq<TxID>, k: nat)
    requires k < |ids|
    ensures Reversed(ids)[k] == ids[|ids| - 1 - k]
  {
    if k < |ids| - 1 {
      ReversedAt(ids[1..], k);
    }
  }

  lemma ChunkAt(queue: seq<TxID>, maxSize: nat, malicious: bool)
    ensures var ids, size := NextChunk(queue, maxSize, malicious), if |queue| < maxSize then |queue| else maxSize;
      && |ids| == size
      && forall k :: 0 <= k < size ==> ids[k] == queue[if malicious then size - 1 - k else k]
  {
    var ids := queue[..Min(maxSize, |queue|)];
    forall k | 0 <= k < |ids| ensures Reversed(ids)[k] == ids[|ids| - 1 - k] {
      ReversedAt(ids, k);
    }
  }

  /** The two ends have been exchanged up to `i`. */
  ghost predicate Exchanged(ids0: seq<TxID>, ids: seq<TxID>, i: nat) {
    && |ids| == |ids0|
    && forall k :: 0 <= k < |ids| ==> ids[k] == ids0[if k < i || k >= |ids| - i then |ids| - 1 - k else k]
  }

  lemma ExchangedMore(ids0: seq<TxID>, ids: seq<TxID>, i: nat, swapped: seq<TxID>)
    requires Exchanged(ids0, ids, i) && i < |ids| - 1 - i
    requires var j := |ids| - 1 - i; swapped == ids[i := ids[j]][j := ids[i]]
    ensures Exchanged(ids0, swapped, i + 1)
  {
    var n := |ids|;
    var j := n - 1 - i;
    assert ids[j] == ids0[j] && ids[i] == ids0[i];
    forall k | 0 <= k < n
      ensures swapped[k] == ids0[if k < i + 1 || k >= n - (i + 1) then n - 1 - k else k]
    {
      if k == i {
        assert swapped[k] == ids[j];
      } else if k == j {
        assert swapped[k] == ids[i];
      } else {
        assert swapped[k] == ids[k];
      }
    }
  }

  lemma NotExchanged(ids: seq<TxID>)
    ensures Exchanged(ids, ids, 0)
  {
  }

  lemma ExchangedAll(ids0: seq<TxID>, ids: seq<TxID>, i: nat)
    requires Exchanged(ids0, ids, i) && 2 * i >= |ids| - 1
    ensures |ids| == |ids0| && forall k :: 0 <= k < |ids| ==> ids[k] == ids0[|ids| - 1 - k]
  {
  }

  /** The chunk taken off the queue, the malicious reversal done by exchanging ends. */
  method TakeChunk(queue: seq<TxID>, maxSize: nat, malicious: bool) returns (ids: seq<TxID>)
    ensures ids == NextChunk(queue, maxSize, malicious)
    ensures |ids| == if |queue| < maxSize then |queue| else maxSize
    ensures forall k :: 0 <= k < |ids| ==> ids[k] == queue[if malicious then |ids| - 1 - k else k]
  {
    hide *;
    var size := maxSize;
    if |queue| < size {
      size := |queue|;
    }
    ids := queue[..size];
    ChunkAt(queue, maxSize, malicious);
    if malicious {
      ghost var ids0 := ids;
      var i := 0;
      NotExchanged(ids0);
      while i < |ids| - 1 - i
        invariant 0 <= i && 2 * i <= |ids| && Exchanged(ids0, ids, i)
      {
        var j := |ids| - 1 - i;
        var swapped := ids[i := ids[j]][j := ids[i]];
        ExchangedMore(ids0, ids, i, swapped);
        ids := swapped;
        i := i + 1;
      }
      ExchangedAll(ids0, ids, i);
    }
  }

  function Unsigned(i: Replica, epoch: nat, s: Evidence, ids: seq<TxID>): LocalOrder {
    var prev := Count(s.logSeq, i);
    var o := LocalOrder(i, epoch, s.fragmentSeq + 1, prev, prev + |ids|, HeadOf(s, i), ids, ZERO_DIGEST, 0);
    o.(newHead := LocalOrderHead(o))
  }

  /** A retained extension moved to the next fragment keeps its chunk. */
  function Moved(o: LocalOrder, epoch: nat, fragmentSeq: nat): LocalOrder {
    o.(epoch := epoch, fragmentSeq := fragmentSeq)
  }

  function Dropping(queue: seq<TxID>, ids: set<TxID>): seq<TxID> {
    if queue == [] then []
    else if queue[|queue| - 1] in ids then Dropping(queue[..|queue| - 1], ids)
    else Dropping(queue[..|queue| - 1], ids) + [queue[|queue| - 1]]
  }

  lemma {:induction false} DroppingPrefix(queue: seq<TxID>, k: nat)
    requires Distinct(queue) && k <= |queue|
    ensures Dropping(queue, Elems(queue[..k])) == queue[k..]
    decreases |queue|
  {
    if k < |queue| {
      var rest := queue[..|queue| - 1];
      DroppingPrefix(rest, k);
      assert rest[..k] == queue[..k];
      assert queue[|queue| - 1] !in queue[..k];
      assert queue[k..] == rest[k..] + [queue[|queue| - 1]];
    } else {
      assert queue[..k] == queue;
      AllGone(queue, Elems(queue));
    }
  }

  lemma {:induction false} AllGone(queue: seq<TxID>, ids: set<TxID>)
    requires Elems(queue) <= ids
    ensures Dropping(queue, ids) == []
  {
    if queue != [] {
      assert queue[|queue| - 1] in Elems(queue);
      AllGone(queue[..|queue| - 1], ids);
    }
  }

  // ----- The honest-log invariant

  /** The producer state of one replica, with the ghosts the invariant speaks of: its
      first receipts in order, and every extension it ever signed. */
  datatype Producer = Producer(queue: seq<TxID>, retained: Option<LocalOrder>, received: seq<TxID>,
                               signed: set<LocalOrder>)

  ghost predicate ChunkOk(i: Replica, epoch: nat, s: Evidence, queue: seq<TxID>, o: LocalOrder) {
    && o.replica == i && o.epoch == epoch && o.fragmentSeq <= s.fragmentSeq + 1
    && o.txs <= queue
    && o.prevPosition == Count(s.logSeq, i) && o.newPosition == o.prevPosition + |o.txs|
    && o.prevHead == HeadOf(s, i) && o.newHead == LocalOrderHead(o)
  }

  /** One extension per fragment, none ahead of time, the current one retained. */
  ghost predicate SignedOnce(s: Evidence, r: Producer) {
    && (forall o, q :: o in r.signed && q in r.signed && o.fragmentSeq == q.fragmentSeq ==>
         LocalOrderDigest(o) == LocalOrderDigest(q))
    && (forall o :: o in r.signed ==> o.fragmentSeq <= s.fragmentSeq + 1)
    && (forall o :: o in r.signed && o.fragmentSeq == s.fragmentSeq + 1 ==>
         r.retained.Some? && LocalOrderDigest(r.retained.value) == LocalOrderDigest(o))
  }

  ghost predicate HonestLog(i: Replica, epoch: nat, s: Evidence, admitted: seq<TxID>, r: Producer) {
    && r.received == admitted + r.queue && Distinct(r.received)
    && (r.retained.Some? ==> ChunkOk(i, epoch, s, r.queue, r.retained.value))
    && SignedOnce(s, r)
  }

  lemma StartsHonest(c: Context, i: Replica)
    ensures HonestLog(i, c.epoch, StateAfter(c, []), AdmittedLog([], i), Producer([], None, [], {}))
    ensures Elems<TxID>([]) == {}
  {
  }

  /** Signatures cannot be forged: an accepted extension of replica `i` was signed by it. */
  ghost predicate Unforged(orders: seq<LocalOrder>, i: Replica, signed: set<LocalOrder>) {
    forall o :: o in orders && o.replica == i ==> exists q :: q in signed && LocalOrderDigest(q) == LocalOrderDigest(o)
  }

  function Received(r: Producer, id: TxID): Producer {
    r.(queue := r.queue + [id], received := r.received + [id])
  }

  lemma ReceiveKeeps(i: Replica, epoch: nat, s: Evidence, admitted: seq<TxID>, r: Producer, id: TxID)
    requires HonestLog(i, epoch, s, admitted, r) && id !in r.received
    ensures HonestLog(i, epoch, s, admitted, Received(r, id))
  {
    DistinctSnoc(r.received, id);
    if r.retained.Some? {
      ChunkStays(i, epoch, s, r.queue, r.retained.value, id);
    }
    hide Distinct, SignedOnce, ChunkOk;
    SameSigned(s, r, Received(r, id));
    assert r.received + [id] == admitted + (r.queue + [id]);
  }

  lemma ChunkStays(i: Replica, epoch: nat, s: Evidence, queue: seq<TxID>, o: LocalOrder, id: TxID)
    requires ChunkOk(i, epoch, s, queue, o)
    ensures ChunkOk(i, epoch, s, queue + [id], o)
  {
  }

  lemma SameSigned(s: Evidence, r: Producer, r': Producer)
    requires SignedOnce(s, r) && r'.signed == r.signed && r'.retained == r.retained
    ensures SignedOnce(s, r')
  {
  }

  function Signs(r: Producer, o: LocalOrder): Producer {
    r.(retained := Some(o), signed := r.signed + {o})
  }

  lemma SignKeeps(s: Evidence, r: Producer, o: LocalOrder)
    requires SignedOnce(s, r) && o.fragmentSeq == s.fragmentSeq + 1
    requires r.retained.None? || r.retained.value.fragmentSeq != s.fragmentSeq + 1
    ensures SignedOnce(s, Signs(r, o))
  {
  }

  /** Signing a fresh chunk. */
  lemma FreshKeeps(i: Replica, epoch: nat, s: Evidence, admitted: seq<TxID>, r: Producer, maxSize: nat, sig: Signature)
    requires HonestLog(i, epoch, s, admitted, r) && r.retained.None?
    ensures HonestLog(i, epoch, s, admitted,
                      Signs(r, Unsigned(i, epoch, s, NextChunk(r.queue, maxSize, false)).(signature := sig)))
  {
    hide Distinct;
    SignKeeps(s, r, Unsigned(i, epoch, s, NextChunk(r.queue, maxSize, false)).(signature := sig));
  }

  /** Re-signing the retained chunk for a later fragment. */
  lemma MovedKeeps(i: Replica, epoch: nat, s: Evidence, admitted: seq<TxID>, r: Producer, sig: Signature)
    requires HonestLog(i, epoch, s, admitted, r) && r.retained.Some?
    requires r.retained.value.fragmentSeq != s.fragmentSeq + 1
    ensures HonestLog(i, epoch, s, admitted,
                      Signs(r, Moved(r.retained.value, epoch, s.fragmentSeq + 1).(signature := sig)))
  {
    hide Distinct;
    SignKeeps(s, r, Moved(r.retained.value, epoch, s.fragmentSeq + 1).(signature := sig));
  }

  lemma ReceivedIs(r: Producer, id: TxID)
    ensures Received(r, id) == Producer(r.queue + [id], r.retained, r.received + [id], r.signed)
  {
  }

  lemma SignsIs(r: Producer, o: LocalOrder)
    ensures Signs(r, o) == Producer(r.queue, Some(o), r.received, r.signed + {o})
  {
  }

  /** The extension to sign next, its signature aside. */
  function ToSign(c: Context, i: Replica, malicious: bool, s: Evidence, r: Producer): LocalOrder {
    if r.retained.Some? then Moved(r.retained.value, c.epoch, s.fragmentSeq + 1)
    else Unsigned(i, c.epoch, s, NextChunk(r.queue, c.cfg.params.maxOrderSize, malicious))
  }

  predicate Current(c: Context, s: Evidence, r: Producer) {
    r.retained.Some? && r.retained.value.fragmentSeq == s.fragmentSeq + 1 && r.retained.value.epoch == c.epoch
  }

  /** What a replica sends: the extension it retains for the next fragment, or a newly
      signed one; nothing when signing fails. */
  function Sent(c: Context, sign: Digest -> Option<Signature>, i: Replica, malicious: bool, s: Evidence, r: Producer):
    Option<LocalOrder>
  {
    if Current(c, s, r) then r.retained
    else
      var o := ToSign(c, i, malicious, s, r);
      var signature := sign(LocalOrderDigest(o));
      if signature.None? then None else Some(o.(signature := signature.value))
  }

  /** What it retains afterwards. */
  function AfterSend(c: Context, sign: Digest -> Option<Signature>, i: Replica, malicious: bool, s: Evidence,
                     r: Producer):
    Producer
  {
    var sent := Sent(c, sign, i, malicious, s, r);
    if Current(c, s, r) || sent.None? then r else Signs(r, sent.value)
  }

  /** What is sent, field by field: an extension for the fragment after the committed one, in
      the current epoch, with the ids and the chain of the retained one if there is one, and
      otherwise with the oldest receipts (in reverse, if malicious) on the committed
      position and head; signed unless it was already current; retained. */
  lemma SentMeans(c: Context, sign: Digest -> Option<Signature>, i: Replica, malicious: bool, s: Evidence, r: Producer)
    ensures var sent, r' := Sent(c, sign, i, malicious, s, r), AfterSend(c, sign, i, malicious, s, r);
      if sent.None? then r' == r && exists d :: sign(d).None?
      else
        var o := sent.value;
        var size := if |r.queue| < c.cfg.params.maxOrderSize then |r.queue| else c.cfg.params.maxOrderSize;
        && r'.retained == sent && r'.queue == r.queue && r'.received == r.received
        && o.fragmentSeq == s.fragmentSeq + 1 && o.epoch == c.epoch
        && (if r.retained.Some? then
              o == r.retained.value.(epoch := o.epoch, fragmentSeq := o.fragmentSeq, signature := o.signature)
            else
              && o.replica == i && |o.txs| == size
              && (forall k :: 0 <= k < size ==> o.txs[k] == r.queue[if malicious then size - 1 - k else k])
              && o.prevPosition == Count(s.logSeq, i) && o.newPosition == o.prevPosition + size
              && o.prevHead == HeadOf(s, i)
              && o.newHead == if size == 0 then o.prevHead
                              else LogHead(o.prevHead, o.prevPosition, o.newPosition, o.txs))
        && (sent == r.retained
            || (sign(OrderHash(o.(signature := 0))) == Some(o.signature) && r'.signed == r.signed + {o}))
  {
    ChunkAt(r.queue, c.cfg.params.maxOrderSize, malicious);
    hide NextChunk;
  }

  lemma SendsAgain(c: Context, sign: Digest -> Option<Signature>, i: Replica, malicious: bool, s: Evidence, r: Producer)
    requires r.retained.Some? && r.retained.value.fragmentSeq == s.fragmentSeq + 1 && r.retained.value.epoch == c.epoch
    ensures Sent(c, sign, i, malicious, s, r) == r.retained && AfterSend(c, sign, i, malicious, s, r) == r
  {
  }

  lemma SendsNext(c: Context, sign: Digest -> Option<Signature>, i: Replica, malicious: bool, s: Evidence, r: Producer,
                  sent: Option<LocalOrder>)
    requires !(r.retained.Some? && r.retained.value.fragmentSeq == s.fragmentSeq + 1
               && r.retained.value.epoch == c.epoch)
    requires var o := if r.retained.Some? then Moved(r.retained.value, c.epoch, s.fragmentSeq + 1)
                      else Unsigned(i, c.epoch, s, NextChunk(r.queue, c.cfg.params.maxOrderSize, malicious));
      var signature := sign(LocalOrderDigest(o));
      sent == if signature.None? then None else Some(o.(signature := signature.value))
    ensures Sent(c, sign, i, malicious, s, r) == sent
    ensures AfterSend(c, sign, i, malicious, s, r) == if sent.None? then r else Signs(r, sent.value)
  {
  }

  /** Sending keeps the honest log, and with it that a replica signs one extension per
      fragment. */
  lemma SendKeeps(c: Context, sign: Digest -> Option<Signature>, i: Replica, s: Evidence, admitted: seq<TxID>,
                  r: Producer)
    requires HonestLog(i, c.epoch, s, admitted, r)
    ensures HonestLog(i, c.epoch, s, admitted, AfterSend(c, sign, i, false, s, r))
  {
    hide SignedOnce, Distinct, LocalOrderDigest, Signs, Unsigned, Moved, NextChunk;
    var sent := Sent(c, sign, i, false, s, r);
    if !Current(c, s, r) && sent.Some? {
      var sig := sent.value.signature;
      if r.retained.Some? {
        RetainedEpoch(i, c.epoch, s, admitted, r);
        MovedKeeps(i, c.epoch, s, admitted, r, sig);
      } else {
        FreshKeeps(i, c.epoch, s, admitted, r, c.cfg.params.maxOrderSize, sig);
      }
    }
  }

  lemma RetainedEpoch(i: Replica, epoch: nat, s: Evidence, admitted: seq<TxID>, r: Producer)
    requires HonestLog(i, epoch, s, admitted, r) && r.retained.Some?
    ensures r.retained.value.epoch == epoch
  {
  }

  /** What committing a batch does to the producer. */
  function Settles(r: Producer, committed: Option<LocalOrder>): Producer {
    if committed.None? then r
    else
      var o := committed.value;
      r.(queue := Dropping(r.queue, set x | x in o.txs),
         retained := if r.retained.Some? && LocalOrderDigest(r.retained.value) == LocalOrderDigest(o) then None
                     else r.retained)
  }

  lemma SettlesNone(r: Producer)
    ensures Settles(r, None) == r
  {
  }

  lemma SameDigestSameChunk(o: LocalOrder, q: LocalOrder)
    requires LocalOrderDigest(o) == LocalOrderDigest(q)
    ensures o.txs == q.txs && o.fragmentSeq == q.fragmentSeq && o.replica == q.replica
  {
    assert o.(signature := 0) == q.(signature := 0);
  }

  lemma RetainedCommitted(i: Replica, epoch: nat, s: Evidence, admitted: seq<TxID>, r: Producer,
                          orders: seq<LocalOrder>, o: LocalOrder)
    requires HonestLog(i, epoch, s, admitted, r) && Unforged(orders, i, r.signed)
    requires o in orders && o.replica == i && o.fragmentSeq == s.fragmentSeq + 1
    ensures r.retained.Some? && LocalOrderDigest(r.retained.value) == LocalOrderDigest(o)
    ensures o.txs <= r.queue
  {
    hide Distinct;
    var q :| q in r.signed && LocalOrderDigest(q) == LocalOrderDigest(o);
    SameDigestSameChunk(q, o);
    assert r.retained.Some? && LocalOrderDigest(r.retained.value) == LocalOrderDigest(q);
    SameDigestSameChunk(r.retained.value, o);
  }

  /** The sequence and head of replica `i` after a fragment. */
  ghost predicate Advanced(i: Replica, s: Evidence, t: Evidence, committed: Option<LocalOrder>) {
    && t.fragmentSeq == s.fragmentSeq + 1
    && (committed.None? ==> Count(t.logSeq, i) == Count(s.logSeq, i) && HeadOf(t, i) == HeadOf(s, i))
  }

  lemma SignedOnceLater(s: Evidence, t: Evidence, r: Producer, r': Producer)
    requires SignedOnce(s, r) && t.fragmentSeq == s.fragmentSeq + 1 && r'.signed == r.signed
    ensures SignedOnce(t, r')
  {
  }

  /** Committing a fragment keeps the honest log: its chunk moves from the queue to the
      admitted log, and an omitted extension is retained as it was. */
  lemma SettleKeeps(i: Replica, epoch: nat, s: Evidence, t: Evidence, admitted: seq<TxID>, r: Producer,
                    orders: seq<LocalOrder>)
    requires HonestLog(i, epoch, s, admitted, r) && Unforged(orders, i, r.signed)
    requires OrderBy(orders, i).Some? ==> OrderBy(orders, i).value in orders && OrderBy(orders, i).value.replica == i
                                          && OrderBy(orders, i).value.fragmentSeq == s.fragmentSeq + 1
    requires Advanced(i, s, t, OrderBy(orders, i))
    ensures HonestLog(i, epoch, t, admitted + ChunkOf(orders, i), Settles(r, OrderBy(orders, i)))
  {
    hide Distinct, Unforged, SignedOnce, OrderBy;
    var committed := OrderBy(orders, i);
    SignedOnceLater(s, t, r, Settles(r, committed));
    if committed.None? {
      assert admitted + [] == admitted;
    } else {
      var o := committed.value;
      RetainedCommitted(i, epoch, s, admitted, r, orders, o);
      var k := |o.txs|;
      assert r.queue[..k] == o.txs;
      assert r.received[|admitted|..] == r.queue;
      DistinctSuffix(r.received, |admitted|);
      DroppingPrefix(r.queue, k);
      assert r.queue == o.txs + r.queue[k..];
      assert admitted + r.queue == (admitted + o.txs) + r.queue[k..];
    }
  }

  /** Committing an acceptable fragment keeps the honest log of its replica. */
  lemma CommitKeeps(c: Context, h: seq<Fragment>, f: Fragment, i: Replica, r: Producer)
    requires c.cfg.params.Ok() && Run(c, h) && Acceptable(c, StateAfter(c, h), LatestAfter(c, h), f)
    requires HonestLog(i, c.epoch, StateAfter(c, h), AdmittedLog(h, i), r) && Unforged(f.evidence, i, r.signed)
    ensures HonestLog(i, c.epoch, StateAfter(c, h + [f]), AdmittedLog(h + [f], i), Settles(r, OrderBy(f.evidence, i)))
  {
    hide *;
    var s := StateAfter(c, h);
    RunSnoc(c, h, f);
    RunValid(c, h);
    RunValid(c, h + [f]);
    OrderFound(f.evidence, i);
    PostHead(c, s, f, i);
    AdmittedSnoc(h, f, i);
    RunLogAgrees(c, h, i);
    RunLogAgrees(c, h + [f], i);
    CommittedOrder(c, s, LatestAfter(c, h), f, i);
    AdvancedBy(c, h, f, i);
    SettleKeeps(i, c.epoch, s, StateAfter(c, h + [f]), AdmittedLog(h, i), r, f.evidence);
  }

  lemma AdmittedSnoc(h: seq<Fragment>, f: Fragment, i: Replica)
    ensures AdmittedLog(h + [f], i) == AdmittedLog(h, i) + ChunkOf(f.evidence, i)
  {
    assert (h + [f])[..|h|] == h;
  }

  lemma CommittedOrder(c: Context, s: Evidence, latest: Digest, f: Fragment, i: Replica)
    requires Acceptable(c, s, latest, f)
    ensures OrderBy(f.evidence, i).Some? ==> OrderBy(f.evidence, i).value.fragmentSeq == s.fragmentSeq + 1
  {
    PostHead(c, s, f, i);
    if OrderBy(f.evidence, i).Some? {
      var o := OrderBy(f.evidence, i).value;
      var j :| 0 <= j < |f.evidence| && f.evidence[j] == o;
      assert AcceptsOrder(c.cfg, s, f.evidence[j], f.epoch, f.fragmentSeq);
    }
  }

  lemma AdvancedBy(c: Context, h: seq<Fragment>, f: Fragment, i: Replica)
    requires c.cfg.params.Ok() && Run(c, h) && Acceptable(c, StateAfter(c, h), LatestAfter(c, h), f)
    ensures Advanced(i, StateAfter(c, h), StateAfter(c, h + [f]), OrderBy(f.evidence, i))
  {
    RunSnoc(c, h, f);
    RunValid(c, h);
    RunValid(c, h + [f]);
    PostHead(c, StateAfter(c, h), f, i);
    AdmittedSnoc(h, f, i);
    RunLogAgrees(c, h, i);
    RunLogAgrees(c, h + [f], i);
    hide Run, Acceptable, StateAfter, LatestAfter, Post, Places, OrderBy, AdmittedLog;
  }

  /** The filter loop over the receipt queue. */
  method FilterQueue(queue: seq<TxID>, ids: set<TxID>) returns (remaining: seq<TxID>)
    ensures remaining == Dropping(queue, ids)
  {
    remaining := [];
    for k := 0 to |queue|
      invariant remaining == Dropping(queue[..k], ids)
    {
      assert queue[..k + 1][..k] == queue[..k];
      if queue[k] !in ids {
        remaining := remaining + [queue[k]];
      }
    }
    assert queue[..|queue|] == queue;
  }
}

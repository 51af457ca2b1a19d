/**
  The encoders as they run (pkg/types/type.go:148-318, pkg/ofo/dependency.go:122-144): each
  appends to a buffer, field by field and element by element, and what it appends is the
  byte string of the functional writers.
 */
module Buffers {
  import opened Types
  import opened Collections
  import opened Encoding
  import opened Preimages
  import opened Canonical
  import LO = LocalOrders

  // ----- Writers append

  /** What a writer writes does not depend on what follows it. */
  ghost predicate Plain<T(!new)>(w: (T, seq<Byte>) -> seq<Byte>) {
    forall x, s :: w(x, s) == w(x, []) + s
  }

  lemma {:induction false} AllPlain<T(!new)>(w: (T, seq<Byte>) -> seq<Byte>, xs: seq<T>, s: seq<Byte>)
    requires Plain(w)
    ensures WriteAll(w, xs, s) == WriteAll(w, xs, []) + s
  {
    if xs != [] {
      AllPlain(w, xs[1..], s);
      var rest := WriteAll(w, xs[1..], []);
      assert w(xs[0], rest + s) == w(xs[0], []) + (rest + s) == w(xs[0], []) + rest + s;
      assert w(xs[0], rest) == w(xs[0], []) + rest;
    }
  }

  lemma {:induction false} AllSnoc<T(!new)>(w: (T, seq<Byte>) -> seq<Byte>, xs: seq<T>, x: T)
    requires Plain(w)
    ensures WriteAll(w, xs + [x], []) == WriteAll(w, xs, []) + w(x, [])
  {
    if xs == [] {
      assert (xs + [x])[1..] == [];
    } else {
      assert (xs + [x])[1..] == xs[1..] + [x];
      AllSnoc(w, xs[1..], x);
      var rest := WriteAll(w, xs[1..], []);
      assert w(xs[0], rest + w(x, [])) == w(xs[0], []) + (rest + w(x, []));
      assert w(xs[0], rest) == w(xs[0], []) + rest;
    }
  }

  lemma AllUpto<T(!new)>(w: (T, seq<Byte>) -> seq<Byte>, xs: seq<T>, i: nat)
    requires Plain(w) && i < |xs|
    ensures WriteAll(w, xs[..i + 1], []) == WriteAll(w, xs[..i], []) + w(xs[i], [])
  {
    assert xs[..i + 1] == xs[..i] + [xs[i]];
    AllSnoc(w, xs[..i], xs[i]);
  }

  lemma ListPlain<T(!new)>(w: (T, seq<Byte>) -> seq<Byte>, xs: seq<T>, s: seq<Byte>)
    requires Plain(w)
    ensures WriteList(w, xs, s) == WriteList(w, xs, []) + s
  {
    AllPlain(w, xs, s);
    assert Big(|xs|, 8) + (WriteAll(w, xs, []) + s) == (Big(|xs|, 8) + WriteAll(w, xs, [])) + s;
  }

  lemma IdsPlain()
    ensures Plain(IdWriter()) && Plain(EdgeWriter())
    ensures forall ids, s :: WriteIds(ids, s) == WriteIds(ids, []) + s
    ensures forall tree, s :: WriteTree(tree, s) == WriteTree(tree, []) + s
  {
    hide Big;
    forall e: Edge, s ensures EdgeWriter()(e, s) == EdgeWriter()(e, []) + s {
      assert Big(e.src, 32) + (Big(e.dst, 32) + s) == (Big(e.src, 32) + (Big(e.dst, 32) + [])) + s;
    }
    assert Plain(IdWriter()) && Plain(EdgeWriter());
    forall ids, s ensures WriteIds(ids, s) == WriteIds(ids, []) + s {
      ListPlain(IdWriter(), ids, s);
    }
    forall tree, s ensures WriteTree(tree, s) == WriteTree(tree, []) + s {
      ListPlain(EdgeWriter(), tree, s);
    }
  }

  lemma OrderFlat(k: Codec, o: LocalOrder, s: seq<Byte>)
    ensures WriteOrder(k, o, s)
         == Big(o.replica, 8) + Big(o.epoch, 8) + Big(o.fragmentSeq, 8) + Big(o.prevPosition, 8) + Big(o.newPosition, 8)
            + k.hash(o.prevHead) + WriteIds(o.txs, []) + k.hash(o.newHead) + Big(|k.sig(o.signature)|, 8)
            + k.sig(o.signature) + s
  {
    IdsPlain();
    hide Big, WriteIds;
    var a, b := WriteHash(k, o.newHead, WriteBytes(k.sig(o.signature), s)), WriteIds(o.txs, []);
    assert WriteIds(o.txs, a) == b + a;
  }

  lemma BatchFlat(b: FairnessBatch, s: seq<Byte>)
    ensures WriteBatch(b, s) == Big(b.index, 8) + WriteIds(b.txs, []) + s
  {
    IdsPlain();
    hide Big, WriteIds;
    assert WriteIds(b.txs, s) == WriteIds(b.txs, []) + s;
  }

  lemma ComponentFlat(x: Component, s: seq<Byte>)
    ensures WriteComponent(x, s) == Big(x.rank, 8) + WriteIds(x.txs, []) + s
  {
    IdsPlain();
    hide Big, WriteIds;
    assert WriteIds(x.txs, s) == WriteIds(x.txs, []) + s;
  }

  lemma ClaimFlat(x: SCCClaim, s: seq<Byte>)
    ensures WriteClaim(x, s)
         == WriteIds(x.txs, []) + WriteTree(x.inTree, []) + WriteTree(x.outTree, []) + Big(x.rank, 8) + s
  {
    IdsPlain();
    hide Big, WriteIds, WriteTree;
    var r := WriteU64(x.rank, s);
    var o := WriteTree(x.outTree, r);
    var n := WriteTree(x.inTree, o);
    assert o == WriteTree(x.outTree, []) + r && n == WriteTree(x.inTree, []) + o;
    assert WriteIds(x.txs, n) == WriteIds(x.txs, []) + n;
  }

  lemma RecordFlat(r: BlockRecord, s: seq<Byte>)
    ensures WriteRecord(r, s)
         == Big(r.vertex, 32) + [if r.hasParent then 1 else 0] + Big(if r.hasParent then r.parent else 0, 32)
            + Big(r.depth, 8) + s
  {
    hide Big;
  }

  lemma EntryFlat(x: (TxID, DoneRecord), s: seq<Byte>)
    ensures WriteEntry(x, s) == Big(x.0, 32) + Big(x.1.fragmentSeq, 8) + Big(x.1.batchIndex, 8) + s
  {
    hide Big;
  }

  lemma {:induction false} ZeroBytes(width: nat)
    ensures Big(0, width) == seq(width, i => 0)
  {
    if width > 0 {
      ZeroBytes(width - 1);
    }
  }

  lemma WritersPlain(k: Codec)
    ensures Plain(OrderWriter(k)) && Plain(BatchWriter()) && Plain(ComponentWriter())
    ensures Plain(ClaimWriter()) && Plain(RecordWriter()) && Plain(EntryWriter())
  {
    hide Big, WriteOrder, WriteBatch, WriteComponent, WriteClaim, WriteRecord, WriteEntry, WriteIds, WriteTree;
    forall x, s ensures WriteOrder(k, x, s) == WriteOrder(k, x, []) + s {
      OrderFlat(k, x, s);
      OrderFlat(k, x, []);
    }
    forall x, s ensures WriteBatch(x, s) == WriteBatch(x, []) + s {
      BatchFlat(x, s);
      BatchFlat(x, []);
    }
    forall x, s ensures WriteComponent(x, s) == WriteComponent(x, []) + s {
      ComponentFlat(x, s);
      ComponentFlat(x, []);
    }
    forall x, s ensures WriteClaim(x, s) == WriteClaim(x, []) + s {
      ClaimFlat(x, s);
      ClaimFlat(x, []);
    }
    forall x, s ensures WriteRecord(x, s) == WriteRecord(x, []) + s {
      RecordFlat(x, s);
      RecordFlat(x, []);
    }
    forall x, s ensures WriteEntry(x, s) == WriteEntry(x, []) + s {
      EntryFlat(x, s);
      EntryFlat(x, []);
    }
  }

  lemma NothingYet<T(!new)>(w: (T, seq<Byte>) -> seq<Byte>, xs: seq<T>, start: seq<Byte>)
    ensures start == start + WriteAll(w, xs[..0], [])
  {
  }

  lemma ListIs<T(!new)>(w: (T, seq<Byte>) -> seq<Byte>, xs: seq<T>, before: seq<Byte>, after: seq<Byte>)
    requires after == before + Big(|xs|, 8) + WriteAll(w, xs[..|xs|], [])
    ensures after == before + WriteList(w, xs, [])
  {
    hide Big, WriteAll;
    assert xs[..|xs|] == xs;
    var a, b := Big(|xs|, 8), WriteAll(w, xs, []);
    assert before + a + b == before + (a + b);
  }

  lemma WriterIs(k: Codec)
    ensures forall id: TxID :: IdWriter()(id, []) == Big(id, 32) + []
    ensures forall e :: EdgeWriter()(e, []) == Big(e.src, 32) + (Big(e.dst, 32) + [])
    ensures forall o :: OrderWriter(k)(o, []) == WriteOrder(k, o, [])
    ensures forall b :: BatchWriter()(b, []) == WriteBatch(b, [])
    ensures forall x :: ComponentWriter()(x, []) == WriteComponent(x, [])
    ensures forall x :: ClaimWriter()(x, []) == WriteClaim(x, [])
    ensures forall r :: RecordWriter()(r, []) == WriteRecord(r, [])
    ensures forall x :: EntryWriter()(x, []) == WriteEntry(x, [])
    ensures forall ids :: WriteIds(ids, []) == WriteList(IdWriter(), ids, [])
    ensures forall tree :: WriteTree(tree, []) == WriteList(EdgeWriter(), tree, [])
  {
    hide Big, WriteOrder, WriteBatch, WriteComponent, WriteClaim, WriteRecord, WriteEntry, WriteList;
  }

  // ----- The buffer

  class Buffer {
    var bytes: seq<Byte>

    constructor ()
      ensures bytes == []
    {
      bytes := [];
    }

    method Write(more: seq<Byte>)
      modifies this
      ensures bytes == old(bytes) + more
    {
      bytes := bytes + more;
    }

    /** `writeUint64`, big-endian. */
    method PutUint64(v: nat)
      modifies this
      ensures bytes == old(bytes) + Big(v, 8)
    {
      Write(Big(v, 8));
    }

    /** `writeTxIDs`. */
    method PutTxIDs(ids: seq<TxID>)
      modifies this
      ensures bytes == old(bytes) + WriteIds(ids, [])
    {
      hide *;
      IdsPlain();
      WriterIs(NoHash());
      PutUint64(|ids|);
      ghost var start := bytes;
      NothingYet(IdWriter(), ids, start);
      for i := 0 to |ids|
        invariant bytes == start + WriteAll(IdWriter(), ids[..i], [])
      {
        AllUpto(IdWriter(), ids, i);
        Write(Big(ids[i], 32));
      }
      ListIs(IdWriter(), ids, old(bytes), bytes);
    }

    /** `writeTree`. */
    method PutTree(tree: seq<Edge>)
      modifies this
      ensures bytes == old(bytes) + WriteTree(tree, [])
    {
      hide *;
      IdsPlain();
      WriterIs(NoHash());
      PutUint64(|tree|);
      ghost var start := bytes;
      NothingYet(EdgeWriter(), tree, start);
      for i := 0 to |tree|
        invariant bytes == start + WriteAll(EdgeWriter(), tree[..i], [])
      {
        AllUpto(EdgeWriter(), tree, i);
        Write(Big(tree[i].src, 32));
        Write(Big(tree[i].dst, 32));
      }
      ListIs(EdgeWriter(), tree, old(bytes), bytes);
    }

    /** `writeLocalOrder`. */
    method PutLocalOrder(k: Codec, o: LocalOrder)
      modifies this
      ensures bytes == old(bytes) + WriteOrder(k, o, [])
    {
      hide *;
      OrderFlat(k, o, []);
      PutUint64(o.replica);
      PutUint64(o.epoch);
      PutUint64(o.fragmentSeq);
      PutUint64(o.prevPosition);
      PutUint64(o.newPosition);
      Write(k.hash(o.prevHead));
      PutTxIDs(o.txs);
      Write(k.hash(o.newHead));
      PutUint64(|k.sig(o.signature)|);
      Write(k.sig(o.signature));
    }

    /** The evidence of a batch or a fragment. */
    method PutLocalOrders(k: Codec, orders: seq<LocalOrder>)
      modifies this
      ensures bytes == old(bytes) + WriteList(OrderWriter(k), orders, [])
    {
      hide *;
      WritersPlain(k);
      WriterIs(k);
      PutUint64(|orders|);
      ghost var start := bytes;
      NothingYet(OrderWriter(k), orders, start);
      for i := 0 to |orders|
        invariant bytes == start + WriteAll(OrderWriter(k), orders[..i], [])
      {
        AllUpto(OrderWriter(k), orders, i);
        PutLocalOrder(k, orders[i]);
      }
      ListIs(OrderWriter(k), orders, old(bytes), bytes);
    }

    /** The batches of an order that is there. */
    method PutBatches(batches: seq<FairnessBatch>)
      modifies this
      ensures bytes == old(bytes) + WriteList(BatchWriter(), batches, [])
    {
      hide *;
      WritersPlain(NoHash());
      WriterIs(NoHash());
      PutUint64(|batches|);
      ghost var start := bytes;
      NothingYet(BatchWriter(), batches, start);
      for i := 0 to |batches|
        invariant bytes == start + WriteAll(BatchWriter(), batches[..i], [])
      {
        AllUpto(BatchWriter(), batches, i);
        BatchFlat(batches[i], []);
        PutUint64(batches[i].index);
        PutTxIDs(batches[i].txs);
      }
      ListIs(BatchWriter(), batches, old(bytes), bytes);
    }

    /** What a post-state identifier says of the partition. */
    method PutComponents(parts: seq<Component>)
      modifies this
      ensures bytes == old(bytes) + WriteList(ComponentWriter(), parts, [])
    {
      hide *;
      WritersPlain(NoHash());
      WriterIs(NoHash());
      PutUint64(|parts|);
      ghost var start := bytes;
      NothingYet(ComponentWriter(), parts, start);
      for i := 0 to |parts|
        invariant bytes == start + WriteAll(ComponentWriter(), parts[..i], [])
      {
        AllUpto(ComponentWriter(), parts, i);
        ComponentFlat(parts[i], []);
        PutUint64(parts[i].rank);
        PutTxIDs(parts[i].txs);
      }
      ListIs(ComponentWriter(), parts, old(bytes), bytes);
    }

    /** The claims of a certificate. */
    method PutClaims(claims: seq<SCCClaim>)
      modifies this
      ensures bytes == old(bytes) + WriteList(ClaimWriter(), claims, [])
    {
      hide *;
      WritersPlain(NoHash());
      WriterIs(NoHash());
      PutUint64(|claims|);
      ghost var start := bytes;
      NothingYet(ClaimWriter(), claims, start);
      for i := 0 to |claims|
        invariant bytes == start + WriteAll(ClaimWriter(), claims[..i], [])
      {
        AllUpto(ClaimWriter(), claims, i);
        ClaimFlat(claims[i], []);
        PutTxIDs(claims[i].txs);
        PutTree(claims[i].inTree);
        PutTree(claims[i].outTree);
        PutUint64(claims[i].rank);
      }
      ListIs(ClaimWriter(), claims, old(bytes), bytes);
    }

    /** The forest of a certificate; a root has 32 zero bytes for its parent. */
    method PutRecords(records: seq<BlockRecord>)
      modifies this
      ensures bytes == old(bytes) + WriteList(RecordWriter(), records, [])
    {
      hide *;
      WritersPlain(NoHash());
      WriterIs(NoHash());
      PutUint64(|records|);
      ghost var start := bytes;
      NothingYet(RecordWriter(), records, start);
      for i := 0 to |records|
        invariant bytes == start + WriteAll(RecordWriter(), records[..i], [])
      {
        AllUpto(RecordWriter(), records, i);
        PutRecord(records[i]);
      }
      ListIs(RecordWriter(), records, old(bytes), bytes);
    }

    method PutRecord(r: BlockRecord)
      modifies this
      ensures bytes == old(bytes) + WriteRecord(r, [])
    {
      hide *;
      RecordFlat(r, []);
      ZeroBytes(32);
      Write(Big(r.vertex, 32));
      if r.hasParent {
        Write([1]);
        Write(Big(r.parent, 32));
      } else {
        Write([0]);
        Write(seq(32, i => 0));
      }
      PutUint64(r.depth);
    }

    /** An order that may be missing. */
    method PutFinalOrder(finalOrder: Option<seq<FairnessBatch>>)
      modifies this
      ensures bytes == old(bytes) + WriteBatches(finalOrder, [])
    {
      hide WriteList, Big;
      if finalOrder.None? {
        PutUint64(0);
      } else {
        PutBatches(finalOrder.value);
      }
    }

    /** `writeCertificate`. */
    method PutCertificate(certificate: Option<Certificate>)
      modifies this
      ensures bytes == old(bytes) + WriteCertificate(certificate, [])
    {
      hide WriteList, Big;
      if certificate.None? {
        PutUint64(0);
        PutUint64(0);
        return;
      }
      WritersPlain(NoHash());
      ListPlain(ClaimWriter(), certificate.value.part, WriteList(RecordWriter(), certificate.value.forest, []));
      PutClaims(certificate.value.part);
      PutRecords(certificate.value.forest);
    }
  }

  // ----- What is hashed

  /** `LocalOrderHead` of a nonempty extension. */
  method HeadBytes(k: Codec, o: LocalOrder) returns (bytes: seq<Byte>)
    requires o.txs != []
    ensures bytes == Preimage(k, LocalOrderHead(o))
  {
    hide Big, WriteIds, Ascii;
    var b := new Buffer();
    b.Write(Ascii("AUTIG/local-log"));
    b.Write(k.hash(o.prevHead));
    b.PutUint64(o.prevPosition);
    b.PutUint64(o.newPosition);
    b.PutTxIDs(o.txs);
    bytes := b.bytes;
  }

  /** `LocalOrderDigest`: everything but the signature. */
  method OrderBytes(k: Codec, o: LocalOrder) returns (bytes: seq<Byte>)
    ensures bytes == Preimage(k, LocalOrderDigest(o))
  {
    hide *;
    OrderDigestFlat(k, o);
    var b := new Buffer();
    b.Write(Ascii("AUTIG/local-order/v1"));
    b.PutUint64(o.replica);
    b.PutUint64(o.epoch);
    b.PutUint64(o.fragmentSeq);
    b.PutUint64(o.prevPosition);
    b.PutUint64(o.newPosition);
    b.Write(k.hash(o.prevHead));
    b.PutTxIDs(o.txs);
    b.Write(k.hash(o.newHead));
    bytes := b.bytes;
  }

  lemma OrderDigestFlat(k: Codec, o: LocalOrder)
    ensures Preimage(k, LocalOrderDigest(o))
         == [] + Ascii("AUTIG/local-order/v1") + Big(o.replica, 8) + Big(o.epoch, 8) + Big(o.fragmentSeq, 8)
            + Big(o.prevPosition, 8) + Big(o.newPosition, 8) + k.hash(o.prevHead) + WriteIds(o.txs, [])
            + k.hash(o.newHead)
  {
    IdsPlain();
    hide Big, WriteIds, Ascii;
    var a := WriteHash(k, o.newHead, []);
    assert WriteIds(o.txs, a) == WriteIds(o.txs, []) + a;
  }

  /** `EvidenceBatchDigest`, which sorts by replica first. */
  method EvidenceBytes(k: Codec, orders: seq<LocalOrder>) returns (bytes: seq<Byte>)
    ensures bytes == Preimage(k, EvidenceHash(LO.Canonical(orders)))
  {
    hide WriteList, Ascii, LO.Canonical;
    var b := new Buffer();
    b.Write(Ascii("AUTIG/evidence-batch"));
    b.PutLocalOrders(k, LO.Canonical(orders));
    bytes := b.bytes;
  }

  /** `PreStateIdentifier`. */
  method PreStateBytes(k: Codec, epoch: nat, fragmentSeq: nat, previous: Digest, evidence: Digest)
    returns (bytes: seq<Byte>)
    ensures bytes == Preimage(k, PreState(epoch, fragmentSeq, previous, evidence))
  {
    hide Big, Ascii;
    var b := new Buffer();
    b.Write(Ascii("AUTIG/prestate"));
    b.PutUint64(epoch);
    b.PutUint64(fragmentSeq);
    b.Write(k.hash(previous));
    b.Write(k.hash(evidence));
    bytes := b.bytes;
  }

  /** `PostStateIdentifier`. */
  method PostStateBytes(k: Codec, epoch: nat, fragmentSeq: nat, pre: Digest, finalOrder: Option<seq<FairnessBatch>>,
                        part: seq<SCCClaim>)
    returns (bytes: seq<Byte>)
    ensures bytes == Preimage(k, PostStateId(epoch, fragmentSeq, pre, BatchesIn(finalOrder), part))
  {
    hide *;
    PostStateFlat(k, epoch, fragmentSeq, pre, finalOrder, part);
    var b := new Buffer();
    b.Write(Ascii("AUTIG/poststate"));
    b.PutUint64(epoch);
    b.PutUint64(fragmentSeq);
    b.Write(k.hash(pre));
    b.PutFinalOrder(finalOrder);
    b.PutComponents(Components(part));
    bytes := b.bytes;
  }

  lemma PostStateFlat(k: Codec, epoch: nat, fragmentSeq: nat, pre: Digest, finalOrder: Option<seq<FairnessBatch>>,
                      part: seq<SCCClaim>)
    ensures Preimage(k, PostStateId(epoch, fragmentSeq, pre, BatchesIn(finalOrder), part))
         == [] + Ascii("AUTIG/poststate") + Big(epoch, 8) + Big(fragmentSeq, 8) + k.hash(pre)
            + WriteBatches(finalOrder, []) + WriteList(ComponentWriter(), Components(part), [])
  {
    WritersPlain(k);
    var rest := WriteList(ComponentWriter(), Components(part), []);
    ListPlain(BatchWriter(), BatchesIn(finalOrder), rest);
    NoBatches();
    hide Big, Ascii, WriteList, Plain;
  }

  lemma NoBatches()
    ensures WriteList(BatchWriter(), [], []) == WriteU64(0, [])
  {
    hide Big;
  }

  /** `FragmentDigest`. */
  method FragmentBytes(k: Codec, f: Fragment) returns (bytes: seq<Byte>)
    ensures bytes == Preimage(k, FragmentDigest(f))
  {
    hide *;
    FragmentFlat(k, f);
    var b := new Buffer();
    b.Write(Ascii("AUTIG/fragment/v1"));
    b.PutUint64(f.epoch);
    b.Write(k.hash(f.authContext));
    b.PutUint64(f.leader);
    b.PutUint64(f.fragmentSeq);
    b.Write(k.hash(f.previousState));
    b.Write(k.hash(f.previousFragment));
    b.PutLocalOrders(k, f.evidence);
    b.PutFinalOrder(f.finalOrder);
    b.PutCertificate(f.certificate);
    b.Write(k.hash(f.candidateEvidenceState));
    b.Write(k.hash(f.candidatePostState));
    bytes := b.bytes;
  }

  lemma FragmentFlat(k: Codec, f: Fragment)
    ensures Preimage(k, FragmentDigest(f))
         == [] + Ascii("AUTIG/fragment/v1") + Big(f.epoch, 8) + k.hash(f.authContext) + Big(f.leader, 8)
            + Big(f.fragmentSeq, 8) + k.hash(f.previousState) + k.hash(f.previousFragment)
            + WriteList(OrderWriter(k), f.evidence, []) + WriteBatches(f.finalOrder, [])
            + WriteCertificate(f.certificate, []) + k.hash(f.candidateEvidenceState) + k.hash(f.candidatePostState)
  {
    hide *;
    FragmentParts(k, f);
    FragmentNested(k, f);
    EndsFlat(Ascii("AUTIG/fragment/v1"), Big(f.epoch, 8), k.hash(f.authContext), Big(f.leader, 8),
             Big(f.fragmentSeq, 8), k.hash(f.previousState), k.hash(f.previousFragment),
             WriteList(OrderWriter(k), f.evidence, []), WriteBatches(f.finalOrder, []),
             WriteCertificate(f.certificate, []), k.hash(f.candidateEvidenceState), k.hash(f.candidatePostState));
  }

  lemma EndsFlat(t: seq<Byte>, a: seq<Byte>, b: seq<Byte>, c: seq<Byte>, d: seq<Byte>, e: seq<Byte>, g: seq<Byte>,
                 u: seq<Byte>, v: seq<Byte>, w: seq<Byte>, x: seq<Byte>, y: seq<Byte>)
    ensures t + (a + (b + (c + (d + (e + (g + (u + (v + (w + (x + y))))))))))
         == [] + t + a + b + c + d + e + g + u + v + w + x + y
  {
    var z := w + (x + y);
    assert v + z == v + w + x + y;
    var q := u + (v + z);
    assert q == u + v + w + x + y;
    var r := d + (e + (g + q));
    assert r == d + e + g + q;
    assert t + (a + (b + (c + r))) == t + a + b + c + r;
    assert t + a + b + c + r == t + a + b + c + d + e + g + q;
  }

  /** The three lists of a fragment do not depend on what follows them. */
  lemma FragmentParts(k: Codec, f: Fragment)
    ensures var tail := k.hash(f.candidateEvidenceState) + k.hash(f.candidatePostState);
      WriteList(OrderWriter(k), f.evidence, WriteBatches(f.finalOrder, WriteCertificate(f.certificate, tail)))
      == WriteList(OrderWriter(k), f.evidence, [])
         + (WriteBatches(f.finalOrder, []) + (WriteCertificate(f.certificate, []) + tail))
  {
    hide *;
    var tail := k.hash(f.candidateEvidenceState) + k.hash(f.candidatePostState);
    CertificatePlain(f.certificate, tail);
    BatchesPlain(f.finalOrder, WriteCertificate(f.certificate, tail));
    WritersPlain(k);
    ListPlain(OrderWriter(k), f.evidence, WriteBatches(f.finalOrder, WriteCertificate(f.certificate, tail)));
  }

  lemma FragmentNested(k: Codec, f: Fragment)
    ensures var tail := k.hash(f.candidateEvidenceState) + k.hash(f.candidatePostState);
      Preimage(k, FragmentDigest(f))
      == Ascii("AUTIG/fragment/v1") + (Big(f.epoch, 8) + (k.hash(f.authContext) + (Big(f.leader, 8)
         + (Big(f.fragmentSeq, 8) + (k.hash(f.previousState) + (k.hash(f.previousFragment)
         + WriteList(OrderWriter(k), f.evidence,
             WriteBatches(f.finalOrder, WriteCertificate(f.certificate, tail)))))))))
  {
    FragmentHashed(k, f);
    var tail := WriteHash(k, f.candidateEvidenceState, WriteHash(k, f.candidatePostState, []));
    assert tail == k.hash(f.candidateEvidenceState) + k.hash(f.candidatePostState);
    hide Big, Ascii, WriteList, WriteBatches, WriteCertificate, EncodedFragment, Preimage, FragmentDigest;
  }

  lemma FragmentHashed(k: Codec, f: Fragment)
    ensures Preimage(k, FragmentDigest(f)) == Ascii("AUTIG/fragment/v1") + WriteFragment(k, f, [])
  {
    FragmentWritten(k, f);
    hide WriteFragment, EncodedFragment, Ascii;
  }

  lemma BatchesPlain(finalOrder: Option<seq<FairnessBatch>>, s: seq<Byte>)
    ensures WriteBatches(finalOrder, s) == WriteBatches(finalOrder, []) + s
  {
    WritersPlain(NoHash());
    if finalOrder.Some? {
      ListPlain(BatchWriter(), finalOrder.value, s);
    }
  }

  lemma CertificatePlain(cert: Option<Certificate>, s: seq<Byte>)
    ensures WriteCertificate(cert, s) == WriteCertificate(cert, []) + s
  {
    hide Big;
    WritersPlain(NoHash());
    if cert.Some? {
      var part, forest := cert.value.part, cert.value.forest;
      ListPlain(RecordWriter(), forest, s);
      ListPlain(ClaimWriter(), part, WriteList(RecordWriter(), forest, s));
      ListPlain(ClaimWriter(), part, WriteList(RecordWriter(), forest, []));
      hide WriteList;
      var a, b := WriteList(ClaimWriter(), part, []), WriteList(RecordWriter(), forest, []);
      assert a + (b + s) == a + b + s;
    }
  }

  /** `finalizedSetRoot`: the records in the order of their ids. */
  method DoneSetBytes(k: Codec, records: map<TxID, DoneRecord>) returns (bytes: seq<Byte>)
    ensures bytes == Preimage(k, DoneSet(records))
  {
    hide *;
    var ids := SortedSet(records.Keys);
    InElems(ids);
    var listed := Listed(records, ids);
    ListingSorted(records, ids);
    DoneSetFlat(k, records);
    ListedIs(records, ids);
    WritersPlain(k);
    WriterIs(k);
    var b := new Buffer();
    b.Write(Ascii("AUTIG/finalized-set"));
    b.PutUint64(|ids|);
    ghost var start := b.bytes;
    NothingYet(EntryWriter(), listed, start);
    for i := 0 to |ids|
      invariant b.bytes == start + WriteAll(EntryWriter(), listed[..i], [])
    {
      AllUpto(EntryWriter(), listed, i);
      EntryFlat(listed[i], []);
      b.Write(Big(ids[i], 32));
      b.PutUint64(records[ids[i]].fragmentSeq);
      b.PutUint64(records[ids[i]].batchIndex);
    }
    ListIs(EntryWriter(), listed, [] + Ascii("AUTIG/finalized-set"), b.bytes);
    bytes := b.bytes;
  }

  function Listed(records: map<TxID, DoneRecord>, ids: seq<TxID>): seq<(TxID, DoneRecord)>
    requires forall id :: id in ids ==> id in records
  {
    seq(|ids|, i requires 0 <= i < |ids| => (ids[i], records[ids[i]]))
  }

  lemma ListedIs(records: map<TxID, DoneRecord>, ids: seq<TxID>)
    requires Elems(ids) == records.Keys
    ensures |Listed(records, ids)| == |ids|
    ensures forall i :: 0 <= i < |ids| ==> ids[i] in records && Listed(records, ids)[i] == (ids[i], records[ids[i]])
  {
  }

  lemma DoneSetFlat(k: Codec, records: map<TxID, DoneRecord>)
    ensures Preimage(k, DoneSet(records))
         == Ascii("AUTIG/finalized-set") + WriteList(EntryWriter(), Listing(records), [])
  {
    hide Ascii, WriteList, Listing;
  }

  lemma InElems(ids: seq<TxID>)
    ensures forall id :: id in ids <==> id in Elems(ids)
  {
  }

  lemma {:induction false} ListingSorted(records: map<TxID, DoneRecord>, ids: seq<TxID>)
    requires Ascending(ids) && Elems(ids) == records.Keys
    ensures forall id :: id in ids ==> id in records
    ensures Listing(records) == Listed(records, ids)
    decreases |ids|
  {
    hide *;
    InElems(ids);
    if ids == [] {
      assert records == map[];
      NothingListed();
    } else {
      var last, rest := ids[|ids| - 1], ids[..|ids| - 1];
      LastIsLargest(records, ids);
      ListingSorted(records - {last}, rest);
      ListingStep(records);
      ListedSnoc(records, ids);
    }
  }

  lemma NothingListed()
    ensures Listing(map[]) == [] == Listed(map[], [])
  {
  }

  lemma ListingStep(records: map<TxID, DoneRecord>)
    requires records != map[]
    ensures records.Keys != {}
    ensures var top := Largest(records.Keys);
      top in records && Listing(records) == Listing(records - {top}) + [(top, records[top])]
  {
    hide Largest;
    KeysLess(records, Largest(records.Keys));
  }

  lemma LastIsLargest(records: map<TxID, DoneRecord>, ids: seq<TxID>)
    requires ids != [] && Ascending(ids) && Elems(ids) == records.Keys
    ensures var last, rest := ids[|ids| - 1], ids[..|ids| - 1];
      && last in records && Largest(records.Keys) == last
      && Ascending(rest) && Elems(rest) == (records - {last}).Keys
  {
    var last, rest := ids[|ids| - 1], ids[..|ids| - 1];
    InElems(ids);
    InElems(rest);
    assert last in ids;
    hide Largest, Elems;
    forall x | x in rest ensures x != last && x in ids {
      var i :| 0 <= i < |rest| && rest[i] == x;
      assert ids[i] == x;
    }
    forall x | x in ids && x != last ensures x in rest {
      var i :| 0 <= i < |ids| && ids[i] == x;
      assert rest[i] == x;
    }
    forall x | x in records ensures x <= last {
      var i :| 0 <= i < |ids| && ids[i] == x;
    }
    assert Elems(rest) == (records - {last}).Keys;
  }

  lemma ListedSnoc(records: map<TxID, DoneRecord>, ids: seq<TxID>)
    requires ids != [] && (forall id :: id in ids ==> id in records)
    requires var last, rest := ids[|ids| - 1], ids[..|ids| - 1]; forall id :: id in rest ==> id in records - {last}
    ensures var last, rest := ids[|ids| - 1], ids[..|ids| - 1];
      Listed(records, ids) == Listed(records - {last}, rest) + [(last, records[last])]
  {
    var last, rest := ids[|ids| - 1], ids[..|ids| - 1];
    forall i | 0 <= i < |rest| ensures Listed(records, ids)[i] == Listed(records - {last}, rest)[i] {
      assert rest[i] == ids[i] && rest[i] in rest;
    }
  }

  function NoHash(): Codec {
    Codec(d => [], s => [])
  }
}

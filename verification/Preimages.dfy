/**
  The hashed byte strings, one per digest constructor, and why a digest may be treated
  as its preimage: no two protocol digests share a byte string.
 */
module Preimages {
  import opened Types
  import opened Encoding

  // ----- The composite writers

  function IdWriter(): (TxID, seq<Byte>) -> seq<Byte> {
    (id, s) => WriteId(id, s)
  }

  function WriteIds(ids: seq<TxID>, tail: seq<Byte>): seq<Byte> {
    WriteList(IdWriter(), ids, tail)
  }

  function WriteBytes(bs: seq<Byte>, tail: seq<Byte>): seq<Byte> {
    WriteU64(|bs|, bs + tail)
  }

  function WriteOrder(k: Codec, o: LocalOrder, tail: seq<Byte>): seq<Byte> {
    WriteU64(o.replica, WriteU64(o.epoch, WriteU64(o.fragmentSeq, WriteU64(o.prevPosition, WriteU64(o.newPosition,
      WriteHash(k, o.prevHead, WriteIds(o.txs, WriteHash(k, o.newHead, WriteBytes(k.sig(o.signature), tail)))))))))
  }

  function WriteBatch(b: FairnessBatch, tail: seq<Byte>): seq<Byte> {
    WriteU64(b.index, WriteIds(b.txs, tail))
  }

  function WriteComponent(x: Component, tail: seq<Byte>): seq<Byte> {
    WriteU64(x.rank, WriteIds(x.txs, tail))
  }

  function WriteEdge(e: Edge, tail: seq<Byte>): seq<Byte> {
    WriteId(e.src, WriteId(e.dst, tail))
  }

  function WriteTree(tree: seq<Edge>, tail: seq<Byte>): seq<Byte> {
    WriteList(EdgeWriter(), tree, tail)
  }

  function WriteClaim(x: SCCClaim, tail: seq<Byte>): seq<Byte> {
    WriteIds(x.txs, WriteTree(x.inTree, WriteTree(x.outTree, WriteU64(x.rank, tail))))
  }

  function WriteRecord(r: BlockRecord, tail: seq<Byte>): seq<Byte> {
    WriteId(r.vertex,
      if r.hasParent then [1] + WriteId(r.parent, WriteU64(r.depth, tail))
      else [0] + WriteId(0, WriteU64(r.depth, tail)))
  }

  function WriteEntry(x: (TxID, DoneRecord), tail: seq<Byte>): seq<Byte> {
    WriteId(x.0, WriteU64(x.1.fragmentSeq, WriteU64(x.1.batchIndex, tail)))
  }

  function OrderWriter(k: Codec): (LocalOrder, seq<Byte>) -> seq<Byte> { (x, s) => WriteOrder(k, x, s) }
  function BatchWriter(): (FairnessBatch, seq<Byte>) -> seq<Byte> { (x, s) => WriteBatch(x, s) }
  function ComponentWriter(): (Component, seq<Byte>) -> seq<Byte> { (x, s) => WriteComponent(x, s) }
  function EdgeWriter(): (Edge, seq<Byte>) -> seq<Byte> { (x, s) => WriteEdge(x, s) }
  function ClaimWriter(): (SCCClaim, seq<Byte>) -> seq<Byte> { (x, s) => WriteClaim(x, s) }
  function RecordWriter(): (BlockRecord, seq<Byte>) -> seq<Byte> { (x, s) => WriteRecord(x, s) }
  function EntryWriter(): ((TxID, DoneRecord), seq<Byte>) -> seq<Byte> { (x, s) => WriteEntry(x, s) }

  /** A missing order is written like an empty one. */
  function WriteBatches(finalOrder: Option<seq<FairnessBatch>>, tail: seq<Byte>): seq<Byte> {
    if finalOrder.None? then WriteU64(0, tail) else WriteList(BatchWriter(), finalOrder.value, tail)
  }

  function WriteCertificate(cert: Option<Certificate>, tail: seq<Byte>): seq<Byte> {
    if cert.None? then WriteU64(0, WriteU64(0, tail))
    else WriteList(ClaimWriter(), cert.value.part, WriteList(RecordWriter(), cert.value.forest, tail))
  }

  function WriteFragment(k: Codec, f: Fragment, tail: seq<Byte>): seq<Byte> {
    WriteU64(f.epoch, WriteHash(k, f.authContext, WriteU64(f.leader, WriteU64(f.fragmentSeq,
      WriteHash(k, f.previousState, WriteHash(k, f.previousFragment,
        WriteList(OrderWriter(k), f.evidence, WriteBatches(f.finalOrder, WriteCertificate(f.certificate,
          WriteHash(k, f.candidateEvidenceState, WriteHash(k, f.candidatePostState, tail)))))))))))
  }

  // ----- What fits the fixed-width fields

  predicate Small(v: nat) {
    v < U64_LIMIT
  }

  predicate IdsFit(ids: seq<TxID>) {
    Small(|ids|)
  }

  predicate OrderFits(k: Codec, used: set<Digest>, o: LocalOrder) {
    && Small(o.replica) && Small(o.epoch) && Small(o.fragmentSeq) && Small(o.prevPosition) && Small(o.newPosition)
    && o.prevHead in used && o.newHead in used && IdsFit(o.txs) && Small(|k.sig(o.signature)|)
  }

  predicate BatchFits(b: FairnessBatch) {
    Small(b.index) && IdsFit(b.txs)
  }

  predicate ComponentFits(x: Component) {
    Small(x.rank) && IdsFit(x.txs)
  }

  predicate ClaimFits(x: SCCClaim) {
    Small(x.rank) && IdsFit(x.txs) && Small(|x.inTree|) && Small(|x.outTree|)
  }

  predicate RecordFits(r: BlockRecord) {
    Small(r.depth)
  }

  predicate EntryFits(x: (TxID, DoneRecord)) {
    Small(x.1.fragmentSeq) && Small(x.1.batchIndex)
  }

  // ----- Reading back

  function Equal<T(==)>(): (T, T) -> bool {
    (x, y) => x == y
  }

  lemma EqualAll<T>(a: seq<T>, b: seq<T>)
    requires AllSame(Equal<T>(), a, b)
    ensures a == b
  {
  }

  lemma IdsUnique(a: seq<TxID>, b: seq<TxID>, s: seq<Byte>, t: seq<Byte>)
    requires IdsFit(a) && IdsFit(b) && WriteIds(a, s) == WriteIds(b, t)
    ensures a == b && s == t
  {
    var fits := (x: TxID) => true;
    forall x, y, s, t | IdWriter()(x, s) == IdWriter()(y, t) ensures x == y && s == t {
      IdUnique(x, y, s, t);
    }
    assert Unique(IdWriter(), fits, Equal<TxID>());
    hide WriteList, IdWriter;
    ListUnique(IdWriter(), fits, Equal<TxID>(), a, b, s, t);
    EqualAll(a, b);
  }

  lemma BytesUnique(a: seq<Byte>, b: seq<Byte>, s: seq<Byte>, t: seq<Byte>)
    requires Small(|a|) && Small(|b|) && WriteBytes(a, s) == WriteBytes(b, t)
    ensures a == b && s == t
  {
    U64Unique(|a|, |b|, a + s, b + t);
    SplitTail(a, b, s, t);
  }

  lemma OrderUnique(k: Codec, used: set<Digest>, a: LocalOrder, b: LocalOrder, s: seq<Byte>, t: seq<Byte>)
    requires Sane(k, used) && OrderFits(k, used, a) && OrderFits(k, used, b)
    requires WriteOrder(k, a, s) == WriteOrder(k, b, t)
    ensures a == b && s == t
  {
    hide WriteU64, WriteHash, WriteIds, WriteBytes, Sane;
    var a8, b8 := WriteBytes(k.sig(a.signature), s), WriteBytes(k.sig(b.signature), t);
    var a7, b7 := WriteHash(k, a.newHead, a8), WriteHash(k, b.newHead, b8);
    var a6, b6 := WriteIds(a.txs, a7), WriteIds(b.txs, b7);
    var a5, b5 := WriteHash(k, a.prevHead, a6), WriteHash(k, b.prevHead, b6);
    var a4, b4 := WriteU64(a.newPosition, a5), WriteU64(b.newPosition, b5);
    var a3, b3 := WriteU64(a.prevPosition, a4), WriteU64(b.prevPosition, b4);
    var a2, b2 := WriteU64(a.fragmentSeq, a3), WriteU64(b.fragmentSeq, b3);
    U64Unique(a.replica, b.replica, WriteU64(a.epoch, a2), WriteU64(b.epoch, b2));
    U64Unique(a.epoch, b.epoch, a2, b2);
    U64Unique(a.fragmentSeq, b.fragmentSeq, a3, b3);
    U64Unique(a.prevPosition, b.prevPosition, a4, b4);
    U64Unique(a.newPosition, b.newPosition, a5, b5);
    HashUnique(k, used, a.prevHead, b.prevHead, a6, b6);
    IdsUnique(a.txs, b.txs, a7, b7);
    HashUnique(k, used, a.newHead, b.newHead, a8, b8);
    BytesUnique(k.sig(a.signature), k.sig(b.signature), s, t);
    SameSignature(k, used, a.signature, b.signature);
  }

  lemma SameSignature(k: Codec, used: set<Digest>, a: Signature, b: Signature)
    requires Sane(k, used) && k.sig(a) == k.sig(b)
    ensures a == b
  {
  }

  lemma OrdersUnique(k: Codec, used: set<Digest>, a: seq<LocalOrder>, b: seq<LocalOrder>, s: seq<Byte>, t: seq<Byte>)
    requires Sane(k, used) && AllFit(o => OrderFits(k, used, o), a) && AllFit(o => OrderFits(k, used, o), b)
    requires WriteList(OrderWriter(k), a, s) == WriteList(OrderWriter(k), b, t)
    ensures a == b && s == t
  {
    hide WriteOrder, OrderFits, Sane, WriteList;
    var fits := o => OrderFits(k, used, o);
    forall x, y, s, t | fits(x) && fits(y) && OrderWriter(k)(x, s) == OrderWriter(k)(y, t) ensures x == y && s == t {
      OrderUnique(k, used, x, y, s, t);
    }
    assert Unique(OrderWriter(k), fits, Equal<LocalOrder>());
    ListUnique(OrderWriter(k), fits, Equal<LocalOrder>(), a, b, s, t);
    EqualAll(a, b);
  }

  lemma BatchListUnique(a: seq<FairnessBatch>, b: seq<FairnessBatch>, s: seq<Byte>, t: seq<Byte>)
    requires AllFit(x => BatchFits(x), a) && AllFit(x => BatchFits(x), b)
    requires WriteList(BatchWriter(), a, s) == WriteList(BatchWriter(), b, t)
    ensures a == b && s == t
  {
    hide WriteU64, WriteIds, WriteList;
    var fits := x => BatchFits(x);
    forall x, y, s, t | fits(x) && fits(y) && BatchWriter()(x, s) == BatchWriter()(y, t) ensures x == y && s == t {
      U64Unique(x.index, y.index, WriteIds(x.txs, s), WriteIds(y.txs, t));
      IdsUnique(x.txs, y.txs, s, t);
    }
    assert Unique(BatchWriter(), fits, Equal<FairnessBatch>());
    ListUnique(BatchWriter(), fits, Equal<FairnessBatch>(), a, b, s, t);
    EqualAll(a, b);
  }

  lemma ComponentListUnique(a: seq<Component>, b: seq<Component>, s: seq<Byte>, t: seq<Byte>)
    requires AllFit(x => ComponentFits(x), a) && AllFit(x => ComponentFits(x), b)
    requires WriteList(ComponentWriter(), a, s) == WriteList(ComponentWriter(), b, t)
    ensures a == b && s == t
  {
    hide WriteU64, WriteIds, WriteList;
    var fits := x => ComponentFits(x);
    forall x, y, s, t | fits(x) && fits(y) && ComponentWriter()(x, s) == ComponentWriter()(y, t)
      ensures x == y && s == t
    {
      U64Unique(x.rank, y.rank, WriteIds(x.txs, s), WriteIds(y.txs, t));
      IdsUnique(x.txs, y.txs, s, t);
    }
    assert Unique(ComponentWriter(), fits, Equal<Component>());
    ListUnique(ComponentWriter(), fits, Equal<Component>(), a, b, s, t);
    EqualAll(a, b);
  }

  lemma TreeUnique(a: seq<Edge>, b: seq<Edge>, s: seq<Byte>, t: seq<Byte>)
    requires Small(|a|) && Small(|b|) && WriteTree(a, s) == WriteTree(b, t)
    ensures a == b && s == t
  {
    hide WriteId, WriteList;
    var fits := (e: Edge) => true;
    forall x, y, s, t | EdgeWriter()(x, s) == EdgeWriter()(y, t) ensures x == y && s == t {
      IdUnique(x.src, y.src, WriteId(x.dst, s), WriteId(y.dst, t));
      IdUnique(x.dst, y.dst, s, t);
    }
    assert Unique(EdgeWriter(), fits, Equal<Edge>());
    ListUnique(EdgeWriter(), fits, Equal<Edge>(), a, b, s, t);
    EqualAll(a, b);
  }

  lemma ClaimListUnique(a: seq<SCCClaim>, b: seq<SCCClaim>, s: seq<Byte>, t: seq<Byte>)
    requires AllFit(x => ClaimFits(x), a) && AllFit(x => ClaimFits(x), b)
    requires WriteList(ClaimWriter(), a, s) == WriteList(ClaimWriter(), b, t)
    ensures a == b && s == t
  {
    hide WriteU64, WriteIds, WriteTree, WriteList;
    var fits := x => ClaimFits(x);
    forall x, y, s, t | fits(x) && fits(y) && ClaimWriter()(x, s) == ClaimWriter()(y, t) ensures x == y && s == t {
      var x3, y3 := WriteU64(x.rank, s), WriteU64(y.rank, t);
      var x2, y2 := WriteTree(x.outTree, x3), WriteTree(y.outTree, y3);
      IdsUnique(x.txs, y.txs, WriteTree(x.inTree, x2), WriteTree(y.inTree, y2));
      TreeUnique(x.inTree, y.inTree, x2, y2);
      TreeUnique(x.outTree, y.outTree, x3, y3);
      U64Unique(x.rank, y.rank, s, t);
    }
    assert Unique(ClaimWriter(), fits, Equal<SCCClaim>());
    ListUnique(ClaimWriter(), fits, Equal<SCCClaim>(), a, b, s, t);
    EqualAll(a, b);
  }

  /** The parent of a root record is not written. */
  function SameRecord(): (BlockRecord, BlockRecord) -> bool {
    (x, y) => EncodedRecord(x) == EncodedRecord(y)
  }

  lemma RecordUnique(a: BlockRecord, b: BlockRecord, s: seq<Byte>, t: seq<Byte>)
    requires RecordFits(a) && RecordFits(b) && WriteRecord(a, s) == WriteRecord(b, t)
    ensures EncodedRecord(a) == EncodedRecord(b) && s == t
  {
    hide WriteU64, WriteId;
    var a', b' := if a.hasParent then a.parent else 0, if b.hasParent then b.parent else 0;
    var x, y := WriteId(a', WriteU64(a.depth, s)), WriteId(b', WriteU64(b.depth, t));
    var p, q := if a.hasParent then [1] else [0], if b.hasParent then [1] else [0];
    IdUnique(a.vertex, b.vertex, p + x, q + y);
    SplitTail(p, q, x, y);
    assert p[0] == q[0];
    IdUnique(a', b', WriteU64(a.depth, s), WriteU64(b.depth, t));
    U64Unique(a.depth, b.depth, s, t);
  }

  lemma ForestUnique(a: seq<BlockRecord>, b: seq<BlockRecord>, s: seq<Byte>, t: seq<Byte>)
    requires AllFit(x => RecordFits(x), a) && AllFit(x => RecordFits(x), b)
    requires WriteList(RecordWriter(), a, s) == WriteList(RecordWriter(), b, t)
    ensures EncodedForest(a) == EncodedForest(b) && s == t
  {
    hide WriteRecord, WriteList, EncodedRecord;
    var fits := x => RecordFits(x);
    forall x, y, s, t | fits(x) && fits(y) && RecordWriter()(x, s) == RecordWriter()(y, t)
      ensures SameRecord()(x, y) && s == t
    {
      RecordUnique(x, y, s, t);
    }
    assert Unique(RecordWriter(), fits, SameRecord());
    ListUnique(RecordWriter(), fits, SameRecord(), a, b, s, t);
    forall i | 0 <= i < |a| ensures EncodedRecord(a[i]) == EncodedRecord(b[i]) {
      assert SameRecord()(a[i], b[i]);
    }
  }
}

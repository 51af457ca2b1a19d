/** Fragments and whole preimages: what their bytes say and what they leave out. */
module Canonical {
  import opened Types
  import opened Encoding
  import opened Preimages

  // ----- Fragments

  predicate FragmentFits(k: Codec, used: set<Digest>, f: Fragment) {
    && Small(f.epoch) && Small(f.leader) && Small(f.fragmentSeq)
    && {f.authContext, f.previousState, f.previousFragment, f.candidateEvidenceState, f.candidatePostState} <= used
    && Small(|f.evidence|) && (forall i :: 0 <= i < |f.evidence| ==> OrderFits(k, used, f.evidence[i]))
    && (f.finalOrder.Some? ==> BatchesFit(f.finalOrder.value))
    && (f.certificate.Some? ==> CertificateFits(f.certificate.value))
  }

  predicate BatchesFit(batches: seq<FairnessBatch>) {
    Small(|batches|) && forall i :: 0 <= i < |batches| ==> BatchFits(batches[i])
  }

  predicate CertificateFits(cert: Certificate) {
    && Small(|cert.part|) && (forall i :: 0 <= i < |cert.part| ==> ClaimFits(cert.part[i]))
    && Small(|cert.forest|) && (forall i :: 0 <= i < |cert.forest| ==> RecordFits(cert.forest[i]))
  }

  function BatchesIn(finalOrder: Option<seq<FairnessBatch>>): seq<FairnessBatch> {
    if finalOrder.Some? then finalOrder.value else []
  }

  function CertificateIn(cert: Option<Certificate>): Certificate {
    if cert.None? then Certificate([], []) else cert.value.(forest := EncodedForest(cert.value.forest))
  }

  lemma BatchesUnique(a: Option<seq<FairnessBatch>>, b: Option<seq<FairnessBatch>>, s: seq<Byte>, t: seq<Byte>)
    requires (a.Some? ==> BatchesFit(a.value)) && (b.Some? ==> BatchesFit(b.value))
    requires WriteBatches(a, s) == WriteBatches(b, t)
    ensures BatchesIn(a) == BatchesIn(b) && s == t
  {
    hide WriteBatch, BatchFits, WriteU64;
    assert WriteBatches(a, s) == WriteList(BatchWriter(), BatchesIn(a), s);
    assert WriteBatches(b, t) == WriteList(BatchWriter(), BatchesIn(b), t);
    hide WriteBatches, WriteList;
    BatchListUnique(BatchesIn(a), BatchesIn(b), s, t);
  }

  lemma CertificateWritten(cert: Option<Certificate>, s: seq<Byte>)
    ensures WriteCertificate(cert, s)
         == WriteList(ClaimWriter(), CertificateIn(cert).part, WriteList(RecordWriter(), CertificateIn(cert).forest, s))
  {
    if cert.Some? {
      ForestWritten(cert.value.forest, s);
    }
  }

  lemma ForestWritten(forest: seq<BlockRecord>, s: seq<Byte>)
    ensures WriteList(RecordWriter(), EncodedForest(forest), s) == WriteList(RecordWriter(), forest, s)
  {
    hide EncodedRecord, WriteRecord;
    RecordsWritten(forest, s);
  }

  lemma {:induction false} RecordsWritten(forest: seq<BlockRecord>, s: seq<Byte>)
    ensures WriteAll(RecordWriter(), EncodedForest(forest), s) == WriteAll(RecordWriter(), forest, s)
  {
    if forest != [] {
      RecordsWritten(forest[1..], s);
      assert EncodedForest(forest)[1..] == EncodedForest(forest[1..]);
      assert EncodedForest(forest)[0] == EncodedRecord(forest[0]);
    }
  }

  lemma EncodedFits(forest: seq<BlockRecord>)
    requires Small(|forest|) && forall i :: 0 <= i < |forest| ==> RecordFits(forest[i])
    ensures AllFit(x => RecordFits(x), EncodedForest(forest))
    ensures EncodedForest(EncodedForest(forest)) == EncodedForest(forest)
  {
  }

  lemma CertificateUnique(a: Option<Certificate>, b: Option<Certificate>, s: seq<Byte>, t: seq<Byte>)
    requires (a.Some? ==> CertificateFits(a.value)) && (b.Some? ==> CertificateFits(b.value))
    requires WriteCertificate(a, s) == WriteCertificate(b, t)
    ensures CertificateIn(a) == CertificateIn(b) && s == t
  {
    CertificateWritten(a, s);
    CertificateWritten(b, t);
    if a.Some? {
      EncodedFits(a.value.forest);
    }
    if b.Some? {
      EncodedFits(b.value.forest);
    }
    var x, y := CertificateIn(a), CertificateIn(b);
    assert AllFit(c => ClaimFits(c), x.part) && AllFit(c => ClaimFits(c), y.part);
    assert AllFit(r => RecordFits(r), x.forest) && AllFit(r => RecordFits(r), y.forest);
    assert EncodedForest(x.forest) == x.forest && EncodedForest(y.forest) == y.forest;
    hide WriteList, WriteCertificate, ClaimFits, RecordFits, AllFit, EncodedForest, CertificateIn, CertificateFits;
    ClaimListUnique(x.part, y.part, WriteList(RecordWriter(), x.forest, s), WriteList(RecordWriter(), y.forest, t));
    ForestUnique(x.forest, y.forest, s, t);
  }

  lemma FragmentUnique(k: Codec, used: set<Digest>, f: Fragment, g: Fragment, s: seq<Byte>, t: seq<Byte>)
    requires Sane(k, used) && FragmentFits(k, used, f) && FragmentFits(k, used, g)
    requires WriteFragment(k, f, s) == WriteFragment(k, g, t)
    ensures EncodedFragment(f) == EncodedFragment(g) && s == t
  {
    hide WriteU64, WriteHash, WriteList, WriteBatches, WriteCertificate, Sane, OrderFits, BatchesFit, CertificateFits,
      EncodedForest;
    var f9, g9 := WriteHash(k, f.candidatePostState, s), WriteHash(k, g.candidatePostState, t);
    var f8, g8 := WriteHash(k, f.candidateEvidenceState, f9), WriteHash(k, g.candidateEvidenceState, g9);
    var f7, g7 := WriteCertificate(f.certificate, f8), WriteCertificate(g.certificate, g8);
    var f6, g6 := WriteBatches(f.finalOrder, f7), WriteBatches(g.finalOrder, g7);
    var f5, g5 := WriteList(OrderWriter(k), f.evidence, f6), WriteList(OrderWriter(k), g.evidence, g6);
    var f4, g4 := WriteHash(k, f.previousFragment, f5), WriteHash(k, g.previousFragment, g5);
    var f3, g3 := WriteHash(k, f.previousState, f4), WriteHash(k, g.previousState, g4);
    var f2, g2 := WriteU64(f.fragmentSeq, f3), WriteU64(g.fragmentSeq, g3);
    var f1, g1 := WriteU64(f.leader, f2), WriteU64(g.leader, g2);
    U64Unique(f.epoch, g.epoch, WriteHash(k, f.authContext, f1), WriteHash(k, g.authContext, g1));
    HashUnique(k, used, f.authContext, g.authContext, f1, g1);
    U64Unique(f.leader, g.leader, f2, g2);
    U64Unique(f.fragmentSeq, g.fragmentSeq, f3, g3);
    HashUnique(k, used, f.previousState, g.previousState, f4, g4);
    HashUnique(k, used, f.previousFragment, g.previousFragment, f5, g5);
    OrdersUnique(k, used, f.evidence, g.evidence, f6, g6);
    BatchesUnique(f.finalOrder, g.finalOrder, f7, g7);
    CertificateUnique(f.certificate, g.certificate, f8, g8);
    HashUnique(k, used, f.candidateEvidenceState, g.candidateEvidenceState, f9, g9);
    HashUnique(k, used, f.candidatePostState, g.candidatePostState, s, t);
    EncodedIs(f);
    EncodedIs(g);
  }

  lemma EncodedIs(f: Fragment)
    ensures EncodedFragment(f)
         == f.(finalOrder := Some(BatchesIn(f.finalOrder)), certificate := Some(CertificateIn(f.certificate)))
  {
  }

  /** The bytes see exactly the encoded fragment: not whether an empty order or an empty
      certificate was there at all, and not the parent a root record carries. */
  lemma FragmentBytesIff(k: Codec, used: set<Digest>, f: Fragment, g: Fragment)
    requires Sane(k, used) && FragmentFits(k, used, f) && FragmentFits(k, used, g)
    ensures WriteFragment(k, f, []) == WriteFragment(k, g, []) <==> EncodedFragment(f) == EncodedFragment(g)
  {
    if WriteFragment(k, f, []) == WriteFragment(k, g, []) {
      FragmentUnique(k, used, f, g, [], []);
    }
    if EncodedFragment(f) == EncodedFragment(g) {
      hide Sane, FragmentFits, WriteList, WriteU64, WriteHash, EncodedFragment;
      FragmentWritten(k, f);
      FragmentWritten(k, g);
    }
  }

  /** Fragments that differ and share their bytes: without an order and with an empty one,
      without a certificate and with an empty one, and with another parent at a root. */
  lemma SameBytes(k: Codec, f: Fragment, root: BlockRecord, parent: TxID)
    requires !root.hasParent
    ensures var a, b := f.(finalOrder := None), f.(finalOrder := Some([]));
      a != b && WriteFragment(k, a, []) == WriteFragment(k, b, [])
    ensures var a, b := f.(certificate := None), f.(certificate := Some(Certificate([], [])));
      a != b && WriteFragment(k, a, []) == WriteFragment(k, b, [])
    ensures var a, b := f.(certificate := Some(Certificate([], [root]))),
                        f.(certificate := Some(Certificate([], [root.(parent := parent)])));
      WriteFragment(k, a, []) == WriteFragment(k, b, [])
  {
    hide WriteFragment;
    FragmentWritten(k, f.(finalOrder := None));
    FragmentWritten(k, f.(finalOrder := Some([])));
    FragmentWritten(k, f.(certificate := None));
    FragmentWritten(k, f.(certificate := Some(Certificate([], []))));
    FragmentWritten(k, f.(certificate := Some(Certificate([], [root]))));
    FragmentWritten(k, f.(certificate := Some(Certificate([], [root.(parent := parent)]))));
    assert EncodedForest([root]) == EncodedForest([root.(parent := parent)]);
    assert EncodedForest([]) == [];
  }

  lemma FragmentWritten(k: Codec, f: Fragment)
    ensures WriteFragment(k, f, []) == WriteFragment(k, EncodedFragment(f), [])
  {
    var tail := WriteHash(k, f.candidateEvidenceState, WriteHash(k, f.candidatePostState, []));
    EncodedIs(f);
    CertificateWritten(f.certificate, tail);
    CertificateWritten(Some(CertificateIn(f.certificate)), tail);
    CertificateTwice(f.certificate);
    hide WriteHash, WriteCertificate, CertificateIn, EncodedFragment;
    var order := WriteCertificate(f.certificate, tail);
    assert WriteBatches(f.finalOrder, order) == WriteBatches(Some(BatchesIn(f.finalOrder)), order);
  }

  lemma CertificateTwice(cert: Option<Certificate>)
    ensures CertificateIn(Some(CertificateIn(cert))) == CertificateIn(cert)
  {
    if cert.Some? {
      var forest := cert.value.forest;
      assert EncodedForest(EncodedForest(forest)) == EncodedForest(forest);
    } else {
      assert EncodedForest([]) == [];
    }
  }

  // ----- Whole preimages

  function Ascii(s: string): seq<Byte> {
    seq(|s|, i requires 0 <= i < |s| => s[i] as int % 256)
  }

  /** The id-sorted listing of a finite record map. */
  ghost function Listing(records: map<TxID, DoneRecord>): seq<(TxID, DoneRecord)>
    decreases |records|
  {
    if records == map[] then []
    else
      var top := Largest(records.Keys);
      KeysLess(records, top);
      Listing(records - {top}) + [(top, records[top])]
  }

  lemma {:induction false} ListingIs(records: map<TxID, DoneRecord>, id: TxID, r: DoneRecord)
    ensures (id, r) in Listing(records) <==> id in records && records[id] == r
    decreases |records|
  {
    if records != map[] {
      var top := Largest(records.Keys);
      KeysLess(records, top);
      ListingIs(records - {top}, id, r);
    }
  }

  lemma ListingDetermines(a: map<TxID, DoneRecord>, b: map<TxID, DoneRecord>)
    requires Listing(a) == Listing(b)
    ensures a == b
  {
    forall id | id in a || id in b ensures id in a && id in b && a[id] == b[id] {
      if id in a {
        ListingIs(a, id, a[id]);
        ListingIs(b, id, a[id]);
      } else {
        ListingIs(b, id, b[id]);
        ListingIs(a, id, b[id]);
      }
    }
  }

  lemma KeysLess(records: map<TxID, DoneRecord>, top: TxID)
    requires top in records
    ensures |records - {top}| + 1 == |records|
  {
    assert (records - {top}).Keys == records.Keys - {top};
    assert records.Keys == (records.Keys - {top}) + {top};
  }

  ghost predicate Tops(s: set<TxID>, m: TxID) {
    m in s && forall x :: x in s ==> x <= m
  }

  ghost function Largest(s: set<TxID>): (m: TxID)
    requires s != {}
    ensures m in s && forall x :: x in s ==> x <= m
  {
    TopExists(s);
    var m :| Tops(s, m);
    m
  }

  lemma {:induction false} LargestExists(s: set<TxID>) returns (top: TxID)
    requires s != {}
    ensures Tops(s, top)
    decreases |s|
  {
    top :| top in s;
    if s != {top} {
      var r := LargestExists(s - {top});
      LargerTops(s, top, r);
      top := if r < top then top else r;
    }
  }

  lemma TopExists(s: set<TxID>)
    requires s != {}
    ensures exists m :: Tops(s, m)
  {
    var m := LargestExists(s);
  }

  lemma LargerTops(s: set<TxID>, m: TxID, r: TxID)
    requires m in s && Tops(s - {m}, r)
    ensures Tops(s, if r < m then m else r)
  {
    forall x | x in s ensures x <= if r < m then m else r {
      assert x != m ==> x in s - {m};
    }
  }

  /** What is hashed for a digest. */
  ghost function Preimage(k: Codec, d: Digest): seq<Byte>
    requires !d.Raw?
  {
    match d
    case LogHead(head, prev, next, ids) =>
      Ascii("AUTIG/local-log") + WriteHash(k, head, WriteU64(prev, WriteU64(next, WriteIds(ids, []))))
    case OrderHash(o) =>
      Ascii("AUTIG/local-order/v1") +
      WriteU64(o.replica, WriteU64(o.epoch, WriteU64(o.fragmentSeq, WriteU64(o.prevPosition,
        WriteU64(o.newPosition, WriteHash(k, o.prevHead, WriteIds(o.txs, WriteHash(k, o.newHead, []))))))))
    case EvidenceHash(orders) =>
      Ascii("AUTIG/evidence-batch") + WriteList(OrderWriter(k), orders, [])
    case PreState(epoch, fragmentSeq, previous, evidence) =>
      Ascii("AUTIG/prestate") +
      WriteU64(epoch, WriteU64(fragmentSeq, WriteHash(k, previous, WriteHash(k, evidence, []))))
    case PostState(epoch, fragmentSeq, pre, batches, components) =>
      Ascii("AUTIG/poststate") + WriteU64(epoch, WriteU64(fragmentSeq, WriteHash(k, pre,
        WriteList(BatchWriter(), batches, WriteList(ComponentWriter(), components, [])))))
    case FragmentHash(f) =>
      Ascii("AUTIG/fragment/v1") + WriteFragment(k, f, [])
    case DoneSet(records) =>
      Ascii("AUTIG/finalized-set") + WriteList(EntryWriter(), Listing(records), [])
  }

  ghost predicate DigestFits(k: Codec, used: set<Digest>, d: Digest) {
    match d
    case Raw(_) => false
    case LogHead(head, prev, next, ids) => head in used && Small(prev) && Small(next) && IdsFit(ids)
    case OrderHash(o) => OrderFits(k, used, o) && o.signature == 0
    case EvidenceHash(orders) => AllFit(o => OrderFits(k, used, o), orders)
    case PreState(epoch, fragmentSeq, previous, evidence) =>
      Small(epoch) && Small(fragmentSeq) && previous in used && evidence in used
    case PostState(epoch, fragmentSeq, pre, batches, components) =>
      && Small(epoch) && Small(fragmentSeq) && pre in used && AllFit(x => BatchFits(x), batches)
      && AllFit(x => ComponentFits(x), components)
    case FragmentHash(f) => FragmentFits(k, used, f) && f == EncodedFragment(f)
    case DoneSet(records) => AllFit(x => EntryFits(x), Listing(records))
  }

  function Kind(d: Digest): nat {
    match d
    case Raw(_) => 0
    case LogHead(_, _, _, _) => 1
    case OrderHash(_) => 2
    case EvidenceHash(_) => 3
    case PreState(_, _, _, _) => 4
    case PostState(_, _, _, _, _) => 5
    case FragmentHash(_) => 6
    case DoneSet(_) => 7
  }

  /** Bytes 6, 7 and 12 tell the domain tags apart. */
  function TagOf(kind: nat): (int, int, int) {
    if kind == 1 then ('l' as int, 'o' as int, 'l' as int)
    else if kind == 2 then ('l' as int, 'o' as int, 'o' as int)
    else if kind == 3 then ('e' as int, 'v' as int, 'c' as int)
    else if kind == 4 then ('p' as int, 'r' as int, 't' as int)
    else if kind == 5 then ('p' as int, 'o' as int, 'a' as int)
    else if kind == 6 then ('f' as int, 'r' as int, 'n' as int)
    else ('f' as int, 'i' as int, 'z' as int)
  }

  lemma Tagged(k: Codec, d: Digest)
    requires !d.Raw?
    ensures |Preimage(k, d)| > 12
    ensures (Preimage(k, d)[6], Preimage(k, d)[7], Preimage(k, d)[12]) == TagOf(Kind(d))
  {
    hide WriteList, WriteFragment, WriteU64, WriteHash, Listing, WriteIds;
  }

  lemma SameKind(k: Codec, d: Digest, e: Digest)
    requires !d.Raw? && !e.Raw? && Preimage(k, d) == Preimage(k, e)
    ensures Kind(d) == Kind(e)
  {
    hide Preimage;
    Tagged(k, d);
    Tagged(k, e);
  }

  lemma LogHeadBinds(k: Codec, used: set<Digest>, d: Digest, e: Digest)
    requires Sane(k, used) && DigestFits(k, used, d) && DigestFits(k, used, e) && d.LogHead? && e.LogHead?
    requires Preimage(k, d) == Preimage(k, e)
    ensures d == e
  {
    hide WriteU64, WriteHash, WriteIds, Sane;
    var d2, e2 := WriteIds(d.ids, []), WriteIds(e.ids, []);
    var d1, e1 := WriteU64(d.newPosition, d2), WriteU64(e.newPosition, e2);
    var d0, e0 := WriteU64(d.prevPosition, d1), WriteU64(e.prevPosition, e1);
    SplitTail(Ascii("AUTIG/local-log"), Ascii("AUTIG/local-log"), WriteHash(k, d.prevHead, d0),
              WriteHash(k, e.prevHead, e0));
    HashUnique(k, used, d.prevHead, e.prevHead, d0, e0);
    U64Unique(d.prevPosition, e.prevPosition, d1, e1);
    U64Unique(d.newPosition, e.newPosition, d2, e2);
    IdsUnique(d.ids, e.ids, [], []);
  }

  lemma OrderHashBinds(k: Codec, used: set<Digest>, d: Digest, e: Digest)
    requires Sane(k, used) && DigestFits(k, used, d) && DigestFits(k, used, e) && d.OrderHash? && e.OrderHash?
    requires Preimage(k, d) == Preimage(k, e)
    ensures d == e
  {
    hide WriteU64, WriteHash, WriteIds, Sane;
    var a, b := d.order, e.order;
    var a7, b7 := WriteHash(k, a.newHead, []), WriteHash(k, b.newHead, []);
    var a6, b6 := WriteIds(a.txs, a7), WriteIds(b.txs, b7);
    var a5, b5 := WriteHash(k, a.prevHead, a6), WriteHash(k, b.prevHead, b6);
    var a4, b4 := WriteU64(a.newPosition, a5), WriteU64(b.newPosition, b5);
    var a3, b3 := WriteU64(a.prevPosition, a4), WriteU64(b.prevPosition, b4);
    var a2, b2 := WriteU64(a.fragmentSeq, a3), WriteU64(b.fragmentSeq, b3);
    var a1, b1 := WriteU64(a.epoch, a2), WriteU64(b.epoch, b2);
    SplitTail(Ascii("AUTIG/local-order/v1"), Ascii("AUTIG/local-order/v1"), WriteU64(a.replica, a1),
              WriteU64(b.replica, b1));
    U64Unique(a.replica, b.replica, a1, b1);
    U64Unique(a.epoch, b.epoch, a2, b2);
    U64Unique(a.fragmentSeq, b.fragmentSeq, a3, b3);
    U64Unique(a.prevPosition, b.prevPosition, a4, b4);
    U64Unique(a.newPosition, b.newPosition, a5, b5);
    HashUnique(k, used, a.prevHead, b.prevHead, a6, b6);
    IdsUnique(a.txs, b.txs, a7, b7);
    HashUnique(k, used, a.newHead, b.newHead, [], []);
  }

  lemma StateBinds(k: Codec, used: set<Digest>, d: Digest, e: Digest)
    requires Sane(k, used) && DigestFits(k, used, d) && DigestFits(k, used, e) && d.PreState? && e.PreState?
    requires Preimage(k, d) == Preimage(k, e)
    ensures d == e
  {
    hide WriteU64, WriteHash, Sane;
    var d2, e2 := WriteHash(k, d.evidence, []), WriteHash(k, e.evidence, []);
    var d1, e1 := WriteHash(k, d.previous, d2), WriteHash(k, e.previous, e2);
    var d0, e0 := WriteU64(d.fragmentSeq, d1), WriteU64(e.fragmentSeq, e1);
    SplitTail(Ascii("AUTIG/prestate"), Ascii("AUTIG/prestate"), WriteU64(d.epoch, d0), WriteU64(e.epoch, e0));
    U64Unique(d.epoch, e.epoch, d0, e0);
    U64Unique(d.fragmentSeq, e.fragmentSeq, d1, e1);
    HashUnique(k, used, d.previous, e.previous, d2, e2);
    HashUnique(k, used, d.evidence, e.evidence, [], []);
  }

  lemma PostStateBinds(k: Codec, used: set<Digest>, d: Digest, e: Digest)
    requires Sane(k, used) && DigestFits(k, used, d) && DigestFits(k, used, e) && d.PostState? && e.PostState?
    requires Preimage(k, d) == Preimage(k, e)
    ensures d == e
  {
    hide WriteU64, WriteHash, WriteList, Sane;
    var d3, e3 := WriteList(ComponentWriter(), d.components, []), WriteList(ComponentWriter(), e.components, []);
    var d2, e2 := WriteList(BatchWriter(), d.batches, d3), WriteList(BatchWriter(), e.batches, e3);
    var d1, e1 := WriteHash(k, d.pre, d2), WriteHash(k, e.pre, e2);
    var d0, e0 := WriteU64(d.fragmentSeq, d1), WriteU64(e.fragmentSeq, e1);
    SplitTail(Ascii("AUTIG/poststate"), Ascii("AUTIG/poststate"), WriteU64(d.epoch, d0), WriteU64(e.epoch, e0));
    U64Unique(d.epoch, e.epoch, d0, e0);
    U64Unique(d.fragmentSeq, e.fragmentSeq, d1, e1);
    HashUnique(k, used, d.pre, e.pre, d2, e2);
    BatchListUnique(d.batches, e.batches, d3, e3);
    ComponentListUnique(d.components, e.components, [], []);
  }

  lemma EntriesUnique(a: seq<(TxID, DoneRecord)>, b: seq<(TxID, DoneRecord)>, s: seq<Byte>, t: seq<Byte>)
    requires AllFit(x => EntryFits(x), a) && AllFit(x => EntryFits(x), b)
    requires WriteList(EntryWriter(), a, s) == WriteList(EntryWriter(), b, t)
    ensures a == b && s == t
  {
    hide WriteU64, WriteId, WriteList;
    var fits := x => EntryFits(x);
    forall x, y, s, t | fits(x) && fits(y) && EntryWriter()(x, s) == EntryWriter()(y, t) ensures x == y && s == t {
      var x1, y1 := WriteU64(x.1.batchIndex, s), WriteU64(y.1.batchIndex, t);
      IdUnique(x.0, y.0, WriteU64(x.1.fragmentSeq, x1), WriteU64(y.1.fragmentSeq, y1));
      U64Unique(x.1.fragmentSeq, y.1.fragmentSeq, x1, y1);
      U64Unique(x.1.batchIndex, y.1.batchIndex, s, t);
    }
    assert Unique(EntryWriter(), fits, Equal<(TxID, DoneRecord)>());
    ListUnique(EntryWriter(), fits, Equal<(TxID, DoneRecord)>(), a, b, s, t);
    EqualAll(a, b);
  }

  lemma ListsBind(k: Codec, used: set<Digest>, d: Digest, e: Digest)
    requires Sane(k, used) && DigestFits(k, used, d) && DigestFits(k, used, e) && Kind(d) == Kind(e)
    requires d.EvidenceHash? || d.FragmentHash? || d.DoneSet?
    requires Preimage(k, d) == Preimage(k, e)
    ensures d == e
  {
    hide WriteList, WriteFragment, Sane, Listing, FragmentFits, AllFit, EncodedFragment;
    if d.EvidenceHash? {
      SplitTail(Ascii("AUTIG/evidence-batch"), Ascii("AUTIG/evidence-batch"),
                WriteList(OrderWriter(k), d.orders, []), WriteList(OrderWriter(k), e.orders, []));
      OrdersUnique(k, used, d.orders, e.orders, [], []);
    } else if d.FragmentHash? {
      SplitTail(Ascii("AUTIG/fragment/v1"), Ascii("AUTIG/fragment/v1"),
                WriteFragment(k, d.fragment, []), WriteFragment(k, e.fragment, []));
      FragmentUnique(k, used, d.fragment, e.fragment, [], []);
    } else {
      SplitTail(Ascii("AUTIG/finalized-set"), Ascii("AUTIG/finalized-set"),
                WriteList(EntryWriter(), Listing(d.records), []), WriteList(EntryWriter(), Listing(e.records), []));
      EntriesUnique(Listing(d.records), Listing(e.records), [], []);
      ListingDetermines(d.records, e.records);
    }
  }

  lemma NotRaw(k: Codec, used: set<Digest>, d: Digest)
    requires DigestFits(k, used, d)
    ensures !d.Raw?
  {
  }

  /** Canonical encodings decode uniquely, across all domains: two digests are equal
      exactly when the bytes hashed for them are. */
  lemma PreimagesBind(k: Codec, used: set<Digest>, d: Digest, e: Digest)
    requires Sane(k, used) && DigestFits(k, used, d) && DigestFits(k, used, e)
    ensures Preimage(k, d) == Preimage(k, e) <==> d == e
  {
    NotRaw(k, used, d);
    NotRaw(k, used, e);
    hide Preimage, Sane, DigestFits;
    if Preimage(k, d) == Preimage(k, e) {
      SameKind(k, d, e);
      if d.LogHead? {
        LogHeadBinds(k, used, d, e);
      } else if d.OrderHash? {
        OrderHashBinds(k, used, d, e);
      } else if d.PreState? {
        StateBinds(k, used, d, e);
      } else if d.PostState? {
        PostStateBinds(k, used, d, e);
      } else {
        ListsBind(k, used, d, e);
      }
    }
  }

  // ----- Transaction identifiers

  /** What `TransactionID` hashes; its value is an identifier, not a digest. */
  function TransactionPreimage(content: seq<Byte>): seq<Byte> {
    Ascii("AUTIG/transaction") + WriteBytes(content, [])
  }

  /** An identifier commits to its content, and no digest is an identifier: the preimages
      of contents are distinct, and distinct from those of every other domain. */
  lemma TransactionsBind(k: Codec, a: seq<Byte>, b: seq<Byte>, d: Digest)
    requires Small(|a|) && Small(|b|) && !d.Raw?
    ensures TransactionPreimage(a) == TransactionPreimage(b) <==> a == b
    ensures TransactionPreimage(a) != Preimage(k, d)
  {
    hide Preimage, WriteBytes;
    Tagged(k, d);
    TransactionTagged(a);
    if TransactionPreimage(a) == TransactionPreimage(b) {
      var tag := Ascii("AUTIG/transaction");
      SplitTail(tag, tag, WriteBytes(a, []), WriteBytes(b, []));
      BytesUnique(a, b, [], []);
    }
  }

  lemma TransactionTagged(content: seq<Byte>)
    ensures |TransactionPreimage(content)| > 6 && TransactionPreimage(content)[6] == 't' as int
  {
    hide WriteBytes;
  }
}

/**
  The public vocabulary of the protocol (pkg/types/type.go): transaction
  identifiers and their public order, thresholds, local orders, fragments and
  certificates.

  A 32-byte digest is a value of the free datatype `Digest`: one constructor per
  hashed preimage, so two digests are equal exactly when their preimages are.
  `Canonical.PreimagesBind` proves that distinct values have distinct byte preimages,
  across all domain tags, which is what entitles the model to this.
 */
module Types {

  /** A 32-byte identifier read as a big-endian number; `Encoding.CompareAgrees`
      shows that `bytes.Compare` on the 32 bytes is the order of these numbers. */
  const ID_LIMIT: nat := 0x1_0000000000000000_0000000000000000_0000000000000000_0000000000000000

  type TxID = x: int | 0 <= x < ID_LIMIT

  predicate LessTxID(a: TxID, b: TxID) {
    a < b
  }

  type Replica = nat

  datatype Option<+T> = None | Some(value: T)

  /** A directed pair: key of a weight, edge of the dependency graph, edge of a
      certificate tree. */
  datatype Edge = Edge(src: TxID, dst: TxID)

  /** An unordered pair; build it with `MakePair`. */
  datatype Pair = Pair(a: TxID, b: TxID)

  function MakePair(u: TxID, v: TxID): Pair {
    if LessTxID(u, v) then Pair(u, v) else Pair(v, u)
  }

  /** `Unset` is what a Go map of states yields for an absent key. */
  datatype TxState = Solid | Shaded | Blank | Unset

  /** An opaque signature; who can make which is the authenticator's business. */
  type Signature = nat

  datatype LocalOrder = LocalOrder(
    replica: Replica,
    epoch: nat,
    fragmentSeq: nat,
    prevPosition: nat,
    newPosition: nat,
    prevHead: Digest,
    txs: seq<TxID>,
    newHead: Digest,
    signature: Signature)

  datatype FairnessBatch = FairnessBatch(index: nat, txs: seq<TxID>)

  datatype SCCClaim = SCCClaim(txs: seq<TxID>, inTree: seq<Edge>, outTree: seq<Edge>, rank: nat)

  datatype BlockRecord = BlockRecord(vertex: TxID, parent: TxID, hasParent: bool, depth: nat)

  datatype Certificate = Certificate(part: seq<SCCClaim>, forest: seq<BlockRecord>)

  datatype DoneRecord = DoneRecord(fragmentSeq: nat, batchIndex: nat)

  /** What `PostStateIdentifier` hashes of a claimed component. */
  datatype Component = Component(rank: nat, txs: seq<TxID>)

  /** Everything of a fragment but the leader's signature. */
  datatype Fragment = Fragment(
    epoch: nat,
    authContext: Digest,
    leader: Replica,
    fragmentSeq: nat,
    previousState: Digest,
    previousFragment: Digest,
    evidence: seq<LocalOrder>,
    finalOrder: Option<seq<FairnessBatch>>,
    certificate: Option<Certificate>,
    candidateEvidenceState: Digest,
    candidatePostState: Digest)

  datatype Digest =
    | Raw(value: nat)  // a 32-byte value that is not a protocol hash; Raw(0) is all zeros
    | LogHead(prevHead: Digest, prevPosition: nat, newPosition: nat, ids: seq<TxID>)
    | OrderHash(order: LocalOrder)  // of an order whose signature field is zeroed
    | EvidenceHash(orders: seq<LocalOrder>)
    | PreState(epoch: nat, fragmentSeq: nat, previous: Digest, evidence: Digest)
    | PostState(epoch: nat, fragmentSeq: nat, pre: Digest, batches: seq<FairnessBatch>, components: seq<Component>)
    | FragmentHash(fragment: Fragment)  // of a fragment in encoded form
    | DoneSet(records: map<TxID, DoneRecord>)

  const ZERO_DIGEST := Raw(0)

  /** The next head of a replica's log; an empty extension leaves it alone. */
  function LocalOrderHead(o: LocalOrder): Digest {
    if o.txs == [] then o.prevHead else LogHead(o.prevHead, o.prevPosition, o.newPosition, o.txs)
  }

  function LocalOrderDigest(o: LocalOrder): Digest {
    OrderHash(o.(signature := 0))
  }

  /** The encoder writes zeros for the parent of a root record. */
  function EncodedRecord(r: BlockRecord): BlockRecord {
    if r.hasParent then r else r.(parent := 0)
  }

  function EncodedForest(forest: seq<BlockRecord>): seq<BlockRecord> {
    seq(|forest|, i requires 0 <= i < |forest| => EncodedRecord(forest[i]))
  }

  /** The encoder writes a missing order or certificate like an empty one. */
  function EncodedFragment(f: Fragment): Fragment {
    f.(finalOrder := Some(if f.finalOrder.Some? then f.finalOrder.value else []),
       certificate := Some(if f.certificate.None? then Certificate([], [])
                           else f.certificate.value.(forest := EncodedForest(f.certificate.value.forest))))
  }

  function FragmentDigest(f: Fragment): Digest {
    FragmentHash(EncodedFragment(f))
  }

  function Components(part: seq<SCCClaim>): seq<Component> {
    seq(|part|, i requires 0 <= i < |part| => Component(part[i].rank, part[i].txs))
  }

  function PostStateId(epoch: nat, fragmentSeq: nat, pre: Digest, batches: seq<FairnessBatch>,
                       part: seq<SCCClaim>): Digest {
    PostState(epoch, fragmentSeq, pre, batches, Components(part))
  }

  /** The checked parameters of a service; `qH` is ceil(gamma * (n - f)). */
  datatype Params = Params(n: nat, f: nat, qH: nat, maxOrderSize: nat) {

    predicate Ok() {
      && 0 < n
      && 3 * f + 1 <= n
      && qH <= n - f
      && n + 2 * f + 1 <= 2 * qH
    }

    function EdgeThreshold(): int {
      n - qH + 1
    }

    function SolidThreshold(): int {
      n - 2 * f
    }
  }

  function Ceil(x: real): int {
    -((-x).Floor)
  }

  /** `qH` over exact reals. */
  function QuorumSize(gamma: real, correct: nat): int {
    Ceil(gamma * correct as real)
  }

  /** The parameter checks of the constructor, over exact reals. A negative size
      limit is refused; `f > (n-1)/3` with integer division is `3f+1 > n`. */
  function CheckParams(replica: Replica, n: nat, f: nat, gamma: real, loMaxSize: int): (r: Option<Params>)
    ensures r.Some? <==>
      && 0 < n && replica < n && 3 * f + 1 <= n && 0.5 < gamma <= 1.0 && 0 <= loMaxSize
      && n + 2 * f + 1 <= 2 * QuorumSize(gamma, n - f)
    ensures r.Some? ==>
      && r.value.Ok()
      && r.value.n == n && r.value.f == f && r.value.maxOrderSize == loMaxSize
      && (r.value.qH - 1) as real < gamma * (n - f) as real <= r.value.qH as real
  {
    hide QuorumSize, Ceil;
    if n == 0 || replica >= n || f >= n || f > (n - 1) / 3 then None
    else if gamma <= 0.5 || gamma > 1.0 then None
    else
      var qH := QuorumSize(gamma, n - f);
      QuorumSizeIs(gamma, n - f);
      if 2 * qH < n + 2 * f + 1 then None
      else if loMaxSize < 0 then None
      else Some(Params(n, f, qH, loMaxSize))
  }

  lemma QuorumSizeIs(gamma: real, correct: nat)
    requires 0.0 < gamma <= 1.0
    ensures (QuorumSize(gamma, correct) - 1) as real < gamma * correct as real <= QuorumSize(gamma, correct) as real
    ensures QuorumSize(gamma, correct) <= correct
  {
    ScaledDown(gamma, correct as real);
    CeilBounds(gamma * correct as real, correct);
  }

  lemma CeilBounds(x: real, m: nat)
    ensures (Ceil(x) - 1) as real < x <= Ceil(x) as real
    ensures x <= m as real ==> Ceil(x) <= m
  {
    if x <= m as real {
      var k: int := 0 - m;
      assert k as real <= -x;
    }
  }

  lemma ScaledDown(g: real, x: real)
    requires 0.0 < g <= 1.0 && 0.0 <= x
    ensures g * x <= x
  {
    assert (1.0 - g) * x >= 0.0;
  }

  /** Every accepted parameter set separates the three states: an id can be Shaded
      without being Solid only between the thresholds, the edge threshold exceeds f,
      and any Solid id already meets the edge threshold. */
  lemma ThresholdFacts(p: Params)
    requires p.Ok()
    ensures p.EdgeThreshold() == p.n - p.qH + 1 && p.SolidThreshold() == p.n - 2 * p.f
    ensures p.f + 1 <= p.EdgeThreshold() <= p.qH - 2 * p.f <= p.SolidThreshold() <= p.n - p.f
  {
  }
}

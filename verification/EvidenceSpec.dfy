/**
  The authoritative evidence state as a value, what an evidence batch must satisfy,
  and the position-only definitions of everything the replicas cache: visibility
  counts, pair weights, transaction states and the active dependency graph.
 */
module EvidenceSpec {
  import opened Types
  import opened Collections
  import opened FairOrder

  type Positions = map<Replica, map<TxID, nat>>

  datatype Evidence = Evidence(
    epoch: nat,
    fragmentSeq: nat,
    batchCounter: nat,
    logSeq: map<Replica, nat>,
    logHead: map<Replica, Digest>,
    live: set<TxID>,
    txRef: map<TxID, TxID>,
    pos: Positions,
    done: map<TxID, DoneRecord>,
    doneRoot: Digest,
    stateId: Digest,
    visibility: map<TxID, nat>,
    weights: map<Edge, nat>,
    states: map<TxID, TxState>)

  // Content resolution and signatures are capabilities handed to the service.

  type Content = seq<nat>

  datatype Resolved = Resolved(bytes: Content, reference: TxID)

  /** A replica's own content store, and what it accepts as content. */
  datatype Admission = Admission(
    content: map<TxID, Resolved>,
    transactionID: Content -> TxID,
    validate: Content -> bool)

  /** Verification is public; a replica signs with what it has. */
  datatype Authenticator = Authenticator(
    verifyReplica: (Replica, Digest, Signature) -> bool,
    verifyLeader: (Replica, Digest, Signature) -> bool)

  datatype Signer = Signer(
    signReplica: Digest -> Option<Signature>,
    signLeader: Digest -> Option<Signature>)

  datatype Config = Config(params: Params, auth: Authenticator)

  predicate Admitted(a: Admission, id: TxID) {
    && id in a.content
    && a.transactionID(a.content[id].bytes) == id
    && a.content[id].reference == id
    && a.validate(a.content[id].bytes)
  }

  /** The replica can resolve every id of the batch that is not finalized yet. */
  ghost predicate Available(a: Admission, done: map<TxID, DoneRecord>, orders: seq<LocalOrder>) {
    forall j, id :: 0 <= j < |orders| && id in orders[j].txs && id !in done ==> Admitted(a, id)
  }

  /** `Store`: refuses a wrong identifier and a second content for one. */
  function Store(a: Admission, id: TxID, bytes: Content): Option<Admission> {
    if a.transactionID(bytes) != id || (id in a.content && a.content[id].bytes != bytes) then None
    else Some(a.(content := a.content[id := Resolved(bytes, id)]))
  }

  lemma StoreRefuses(a: Admission, id: TxID, bytes: Content)
    ensures Store(a, id, bytes).None? <==>
      a.transactionID(bytes) != id || (id in a.content && a.content[id].bytes != bytes)
  {
  }

  /** What was admitted stays so; beyond that, exactly the stored id becomes admitted, and
      exactly when its content is valid. */
  lemma StoreAdmits(a: Admission, id: TxID, bytes: Content, x: TxID)
    requires Store(a, id, bytes).Some?
    ensures Admitted(a, x) ==> Admitted(Store(a, id, bytes).value, x)
    ensures Admitted(Store(a, id, bytes).value, x) <==> if x == id then a.validate(bytes) else Admitted(a, x)
  {
  }

  // Reads of Go maps: an absent key reads as the zero value.

  function Count<K>(m: map<K, nat>, k: K): nat {
    if k in m then m[k] else 0
  }

  function HeadOf(s: Evidence, i: Replica): Digest {
    if i in s.logHead then s.logHead[i] else ZERO_DIGEST
  }

  function PosOf(s: Evidence, i: Replica): map<TxID, nat> {
    if i in s.pos then s.pos[i] else map[]
  }

  function StateOf(s: Evidence, u: TxID): TxState {
    if u in s.states then s.states[u] else Unset
  }

  function Replicas(n: nat): (r: set<Replica>)
    ensures forall i: Replica :: i in r <==> i < n
    ensures |r| == n
  {
    if n == 0 then {} else Replicas(n - 1) + {n - 1}
  }

  function Genesis(epoch: nat, n: nat, stateId: Digest): Evidence {
    Evidence(epoch, 0, 0, map[], map[], {}, map[], map i | i in Replicas(n) :: map[], map[],
             DoneSet(map[]), stateId, map[], map[], map[])
  }

  // ----- Acceptance of an evidence batch

  // Whether the content is at hand differs from replica to replica: see `Available`.

  predicate AcceptsId(s: Evidence, i: Replica, id: TxID) {
    id in s.done || (id !in PosOf(s, i) && (id in s.txRef ==> s.txRef[id] == id))
  }

  ghost predicate AcceptsOrder(cfg: Config, s: Evidence, o: LocalOrder, epoch: nat, fragmentSeq: nat) {
    && o.replica < cfg.params.n && o.epoch == epoch && o.fragmentSeq == fragmentSeq
    && |o.txs| <= cfg.params.maxOrderSize
    && o.newPosition == o.prevPosition + |o.txs|
    && o.prevPosition == Count(s.logSeq, o.replica) && o.prevHead == HeadOf(s, o.replica)
    && o.newHead == LocalOrderHead(o)
    && cfg.auth.verifyReplica(o.replica, LocalOrderDigest(o), o.signature)
    && Distinct(o.txs)
    && (forall id :: id in o.txs ==> AcceptsId(s, o.replica, id))
  }

  predicate Increasing(orders: seq<LocalOrder>) {
    forall j, k :: 0 <= j < k < |orders| ==> orders[j].replica < orders[k].replica
  }

  ghost predicate Accepts(cfg: Config, s: Evidence, orders: seq<LocalOrder>, epoch: nat, fragmentSeq: nat) {
    && fragmentSeq == s.fragmentSeq + 1
    && |orders| == cfg.params.n - cfg.params.f
    && Increasing(orders)
    && (forall j :: 0 <= j < |orders| ==> AcceptsOrder(cfg, s, orders[j], epoch, fragmentSeq))
  }

  // ----- Position-only definitions of the caches

  ghost function Viewers(pos: Positions, u: TxID): set<Replica> {
    set i | i in pos && u in pos[i]
  }

  ghost predicate Precedes(m: map<TxID, nat>, e: Edge) {
    e.src in m && e.dst in m && m[e.src] < m[e.dst]
  }

  /** The replicas that position `e.src` before `e.dst`. */
  ghost function Backers(pos: Positions, e: Edge): set<Replica> {
    set i | i in pos && Precedes(pos[i], e)
  }

  ghost function EdgesOver(s: set<TxID>): set<Edge> {
    set u, v | u in s && v in s :: Edge(u, v)
  }

  ghost function VisibilityOf(live: set<TxID>, pos: Positions): map<TxID, nat> {
    map u | u in live :: |Viewers(pos, u)|
  }

  ghost function WeightsOf(live: set<TxID>, pos: Positions): map<Edge, nat> {
    map e | e in EdgesOver(live) && Backers(pos, e) != {} :: |Backers(pos, e)|
  }

  function Classify(p: Params, visible: nat): TxState {
    if visible >= p.SolidThreshold() then Solid
    else if visible >= p.EdgeThreshold() then Shaded
    else Blank
  }

  ghost function ClassesOf(p: Params, live: set<TxID>, pos: Positions): map<TxID, TxState> {
    map u | u in live :: Classify(p, |Viewers(pos, u)|)
  }

  // ----- The active graph

  predicate EdgePred(u: TxID, v: TxID, wUV: nat, wVU: nat, threshold: int) {
    wUV >= threshold && (wUV > wVU || (wUV == wVU && LessTxID(u, v)))
  }

  ghost function Active(s: Evidence): set<TxID> {
    set u | u in s.states && u in s.live && s.states[u] != Blank
  }

  predicate HasEdge(s: Evidence, threshold: int, u: TxID, v: TxID) {
    EdgePred(u, v, Count(s.weights, Edge(u, v)), Count(s.weights, Edge(v, u)), threshold)
  }

  ghost function GraphOf(p: Params, s: Evidence): ActiveGraph {
    ActiveGraph(Active(s),
                (set e | e in EdgesOver(Active(s)) && HasEdge(s, p.EdgeThreshold(), e.src, e.dst)),
                (set u | u in Active(s) && s.states[u] == Solid))
  }

  // ----- Invariant

  ghost function Positioned(pos: Positions): set<TxID> {
    set i, u | i in pos && u in pos[i] :: u
  }

  ghost predicate OneLog(m: map<TxID, nat>, bound: nat) {
    && (forall u :: u in m ==> 0 < m[u] <= bound)
    && (forall u, v :: u in m && v in m && u != v ==> m[u] != m[v])
  }

  /** Content references commit to the identifier, so an admitted id refers to itself. */
  ghost function SelfRefs(ids: set<TxID>): map<TxID, TxID> {
    map u | u in ids :: u
  }

  ghost predicate AllLogs(pos: Positions, logSeq: map<Replica, nat>) {
    forall i :: i in pos ==> OneLog(pos[i], Count(logSeq, i))
  }

  /** The authoritative fields, on their own. */
  ghost predicate Sound(p: Params, s: Evidence) {
    && s.pos.Keys == Replicas(p.n)
    && s.live == Positioned(s.pos)
    && s.live !! s.done.Keys
    && s.txRef == SelfRefs(s.live)
    && AllLogs(s.pos, s.logSeq)
    && s.doneRoot == DoneSet(s.done)
  }

  /** The counting caches are what the positions say. */
  ghost predicate Counted(s: Evidence) {
    s.visibility == VisibilityOf(s.live, s.pos) && s.weights == WeightsOf(s.live, s.pos)
  }

  ghost predicate Classified(p: Params, s: Evidence) {
    s.states == ClassesOf(p, s.live, s.pos)
  }

  ghost predicate Valid(p: Params, s: Evidence) {
    Sound(p, s) && Counted(s) && Classified(p, s)
  }

  // ----- Ingesting a batch

  ghost function FreshIds(done: map<TxID, DoneRecord>, o: LocalOrder): set<TxID> {
    set id | id in o.txs && id !in done
  }

  /** Where `x` stands in a duplicate-free list. */
  ghost function IndexIn(s: seq<TxID>, x: TxID): (k: nat)
    requires x in s
    ensures k < |s| && s[k] == x
  {
    var k :| 0 <= k < |s| && s[k] == x;
    k
  }

  /** The first positions a batch member assigns: finalized ids keep their slot in
      the numbering but get no position. */
  ghost function NewPositions(done: map<TxID, DoneRecord>, o: LocalOrder): map<TxID, nat> {
    Placed(FreshIds(done, o), o.txs, o.prevPosition)
  }

  ghost function Placed(ids: set<TxID>, txs: seq<TxID>, prev: nat): map<TxID, nat>
    requires ids <= Elems(txs)
  {
    map id | id in ids :: prev + IndexIn(txs, id) + 1
  }

  ghost function Extend(pos: Positions, i: Replica, add: map<TxID, nat>): Positions {
    pos[i := (if i in pos then pos[i] else map[]) + add]
  }

  ghost function Blanks(ids: set<TxID>): map<TxID, TxState> {
    map u | u in ids :: Blank
  }

  ghost function AdmitOne(s: Evidence, o: LocalOrder): Evidence {
    var pos := Extend(s.pos, o.replica, NewPositions(s.done, o));
    var novel := FreshIds(s.done, o);
    s.(live := s.live + novel,
       txRef := s.txRef + SelfRefs(novel),
       pos := pos,
       logSeq := s.logSeq[o.replica := o.newPosition],
       logHead := s.logHead[o.replica := o.newHead],
       visibility := VisibilityOf(s.live + novel, pos),
       weights := WeightsOf(s.live + novel, pos),
       states := s.states + Blanks(novel - s.live))
  }

  ghost function AdmitAll(s: Evidence, orders: seq<LocalOrder>): Evidence {
    if orders == [] then s
    else AdmitOne(AdmitAll(s, orders[..|orders| - 1]), orders[|orders| - 1])
  }

  /** The transition is named before any position is assigned. */
  ghost function Opened(s: Evidence, orders: seq<LocalOrder>, epoch: nat): Evidence {
    s.(epoch := epoch, stateId := PreState(epoch, s.fragmentSeq + 1, s.stateId, EvidenceHash(orders)))
  }

  /** The reference: append all positions, then derive every cache from them. */
  ghost function Ingest(p: Params, s: Evidence, orders: seq<LocalOrder>, epoch: nat): Evidence {
    var t := AdmitAll(Opened(s, orders, epoch), orders);
    t.(fragmentSeq := s.fragmentSeq + 1, states := ClassesOf(p, t.live, t.pos))
  }

  // ----- Finalizing an order

  ghost function Released(batches: seq<FairnessBatch>): set<TxID> {
    set j, u | 0 <= j < |batches| && u in batches[j].txs :: u
  }

  ghost function RecordsOf(fragmentSeq: nat, batch: FairnessBatch): map<TxID, DoneRecord> {
    map u | u in batch.txs :: DoneRecord(fragmentSeq, batch.index)
  }

  ghost function AllRecords(fragmentSeq: nat, batches: seq<FairnessBatch>): map<TxID, DoneRecord> {
    if batches == [] then map[]
    else AllRecords(fragmentSeq, batches[..|batches| - 1]) + RecordsOf(fragmentSeq, batches[|batches| - 1])
  }

  function Forget(pos: Positions, gone: set<TxID>): Positions {
    map i | i in pos :: pos[i] - gone
  }

  ghost function ForgetWeights(weights: map<Edge, nat>, gone: set<TxID>): map<Edge, nat> {
    map e | e in weights && e.src !in gone && e.dst !in gone :: weights[e]
  }

  ghost function Finalized(s: Evidence, batches: seq<FairnessBatch>, part: seq<SCCClaim>): Evidence {
    var gone := Released(batches);
    var done := s.done + AllRecords(s.fragmentSeq, batches);
    s.(done := done,
       doneRoot := DoneSet(done),
       batchCounter := if batches == [] then s.batchCounter else batches[|batches| - 1].index,
       live := s.live - gone,
       txRef := s.txRef - gone,
       pos := Forget(s.pos, gone),
       visibility := s.visibility - gone,
       weights := ForgetWeights(s.weights, gone),
       states := s.states - gone,
       stateId := PostStateId(s.epoch, s.fragmentSeq, s.stateId, batches, part))
  }
}

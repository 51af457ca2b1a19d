/**
  The pair enumeration of one extension: every new-old and every new-new pair once,
  never an old-old one, each in the direction of its positions.
 */
module PairFacts {
  import opened Types
  import opened Collections
  import opened EvidenceSpec
  import opened EvidenceFacts

  /** The pair `u`, `v` as the positions order it. */
  function Dir(m: map<TxID, nat>, u: TxID, v: TxID): Edge
    requires u in m && v in m
  {
    if m[u] < m[v] then Edge(u, v) else Edge(v, u)
  }

  ghost predicate Injective(m: map<TxID, nat>) {
    forall u, v :: u in m && v in m && u != v ==> m[u] != m[v]
  }

  ghost function Star(m: map<TxID, nat>, id: TxID, others: set<TxID>): set<Edge>
    requires id in m && others <= m.Keys
  {
    set x | x in others :: Dir(m, id, x)
  }

  function PairOf(e: Edge): Pair {
    MakePair(e.src, e.dst)
  }

  ghost function PairsIn(edges: set<Edge>): set<Pair> {
    set e | e in edges :: PairOf(e)
  }

  lemma PairsInJoin(a: set<Edge>, b: set<Edge>)
    ensures PairsIn(a + b) == PairsIn(a) + PairsIn(b)
  {
  }

  /** `touchedPairs` after the edges of some pairs were counted. */
  ghost function Touch(collect: bool, touched: set<Pair>, edges: set<Edge>): set<Pair> {
    if collect then touched + PairsIn(edges) else touched
  }

  lemma TouchNone(collect: bool, touched: set<Pair>)
    ensures Touch(collect, touched, {}) == touched
  {
  }

  lemma TouchOff(collect: bool, touched: set<Pair>, edges: set<Edge>)
    ensures !collect ==> Touch(collect, touched, edges) == touched
  {
  }

  lemma TouchSnoc(collect: bool, touched: set<Pair>, edges: set<Edge>, e: Edge)
    ensures Touch(collect, touched, edges + {e})
         == if collect then Touch(collect, touched, edges) + {PairOf(e)} else touched
  {
    PairsInJoin(edges, {e});
  }

  lemma TouchTwice(collect: bool, touched: set<Pair>, a: set<Edge>, b: set<Edge>)
    ensures Touch(collect, Touch(collect, touched, a), b) == Touch(collect, touched, a + b)
  {
    PairsInJoin(a, b);
  }

  lemma BumpOne<K(!new)>(m: map<K, nat>, up: set<K>, k: K)
    requires k !in up
    ensures Bump(m, up)[k := Count(Bump(m, up), k) + 1] == Bump(m, up + {k})
  {
    var bumped := Bump(m, up);
    assert Count(bumped, k) == Count(m, k);
    IsBump(m, up + {k}, bumped[k := Count(bumped, k) + 1]);
  }

  lemma BumpNone<K(!new)>(m: map<K, nat>)
    ensures Bump(m, {}) == m
  {
  }

  lemma BumpTwice<K(!new)>(m: map<K, nat>, a: set<K>, b: set<K>)
    requires a !! b
    ensures Bump(Bump(m, a), b) == Bump(m, a + b)
  {
    IsBump(m, a + b, Bump(Bump(m, a), b));
  }

  lemma StarSnoc(m: map<TxID, nat>, id: TxID, others: set<TxID>, x: TxID)
    requires id in m && others <= m.Keys && x in m && x !in others && x != id && id !in others
    ensures Dir(m, id, x) !in Star(m, id, others)
    ensures Star(m, id, others + {x}) == Star(m, id, others) + {Dir(m, id, x)}
  {
  }

  lemma StarJoin(m: map<TxID, nat>, id: TxID, a: set<TxID>, b: set<TxID>)
    requires id in m && a + b <= m.Keys && a !! b && id !in a + b
    ensures Star(m, id, a + b) == Star(m, id, a) + Star(m, id, b)
    ensures Star(m, id, a) !! Star(m, id, b)
  {
  }

  /** Against the new id at k come the old ids and the later new ones. */
  lemma Remaining(keys: set<TxID>, oldIDs: seq<TxID>, newIDs: seq<TxID>, k: nat)
    requires keys == Elems(oldIDs) + Elems(newIDs) && Elems(oldIDs) !! Elems(newIDs)
    requires k < |newIDs| && Distinct(newIDs)
    ensures Elems(oldIDs) + Elems(newIDs[k + 1..]) == keys - Elems(newIDs[..k]) - {newIDs[k]}
    ensures newIDs[k] !in Elems(newIDs[k + 1..]) && newIDs[k] !in Elems(oldIDs) && newIDs[k] !in Elems(newIDs[..k])
    ensures Elems(oldIDs) !! Elems(newIDs[k + 1..])
    ensures Elems(newIDs[..k + 1]) == Elems(newIDs[..k]) + {newIDs[k]}
  {
    SplitAt(newIDs, k);
  }

  /** Taking the new ids one by one, the pairs not seen before are those of the next
      id with everything that is not an earlier new id. */
  lemma NewPairsSnoc(m: map<TxID, nat>, novel: set<TxID>, id: TxID)
    requires Injective(m) && id in m && novel <= m.Keys && id !in novel
    ensures NewPairs(m, novel + {id}) == NewPairs(m, novel) + Star(m, id, m.Keys - novel - {id})
    ensures NewPairs(m, novel) !! Star(m, id, m.Keys - novel - {id})
  {
    var star := Star(m, id, m.Keys - novel - {id});
    forall e | e in NewPairs(m, novel + {id}) && e !in NewPairs(m, novel) ensures e in star {
      var x := if e.src == id then e.dst else e.src;
      assert x in m.Keys - novel - {id} && e == Dir(m, id, x);
    }
    forall e | e in star ensures e in NewPairs(m, novel + {id}) && e !in NewPairs(m, novel) {
      var x :| x in m.Keys - novel - {id} && e == Dir(m, id, x);
      assert e in EdgesOver(m.Keys);
    }
  }

  lemma NewPairsNone(m: map<TxID, nat>)
    ensures NewPairs(m, {}) == {}
  {
  }

  // ----- Which pairs a batch changed

  ghost function ChangedPairs(w: map<Edge, nat>, w': map<Edge, nat>): set<Pair> {
    PairsIn(set e | e in w' && Count(w, e) != Count(w', e))
  }

  ghost predicate Grown(w: map<Edge, nat>, w': map<Edge, nat>) {
    forall e :: Count(w, e) <= Count(w', e)
  }

  lemma ChangedByBump(w: map<Edge, nat>, w': map<Edge, nat>, up: set<Edge>)
    requires Grown(w, w')
    ensures Grown(w, Bump(w', up))
    ensures ChangedPairs(w, Bump(w', up)) == ChangedPairs(w, w') + PairsIn(up)
  {
    var w'' := Bump(w', up);
    forall e ensures Count(w'', e) == Count(w', e) + (if e in up then 1 else 0) {
    }
    assert (set e | e in w'' && Count(w, e) != Count(w'', e)) == (set e | e in w' && Count(w, e) != Count(w', e)) + up;
    PairsInJoin((set e | e in w' && Count(w, e) != Count(w', e)), up);
  }

  /** Ids that turn from Blank (or unknown) to non-Blank, paired with every live id. */
  ghost predicate Activated(s: Evidence, t: Evidence, u: TxID) {
    u in t.live && StateOf(t, u) != Blank && (u in s.live ==> StateOf(s, u) == Blank)
  }

  ghost function ActivatedPairs(s: Evidence, t: Evidence): set<Pair> {
    set u, v | u in t.live && v in t.live && u != v && Activated(s, t, u) :: MakePair(u, v)
  }

  /** The pairs a batch touches: those with a changed weight, and those of a newly
      active id. */
  ghost function TouchedPairs(s: Evidence, t: Evidence): set<Pair> {
    ChangedPairs(s.weights, t.weights) + ActivatedPairs(s, t)
  }

  ghost function FreshUpto(done: map<TxID, DoneRecord>, orders: seq<LocalOrder>): set<TxID> {
    set j, u | 0 <= j < |orders| && u in FreshIds(done, orders[j]) :: u
  }

  lemma FreshSnoc(done: map<TxID, DoneRecord>, orders: seq<LocalOrder>, k: nat)
    requires k < |orders|
    ensures FreshUpto(done, orders[..k + 1]) == FreshUpto(done, orders[..k]) + FreshIds(done, orders[k])
  {
    forall u | u in FreshUpto(done, orders[..k]) ensures u in FreshUpto(done, orders[..k + 1]) {
      var j :| 0 <= j < k && u in FreshIds(done, orders[..k][j]);
      assert u in FreshIds(done, orders[..k + 1][j]);
    }
    forall u | u in FreshIds(done, orders[k]) ensures u in FreshUpto(done, orders[..k + 1]) {
      assert u in FreshIds(done, orders[..k + 1][k]);
    }
  }

  // ----- Reclassification

  /** What the position loops leave for the final classification: only the ids that
      got a position can change, and a newly live one is Blank. */
  ghost predicate Tracks(s: Evidence, t: Evidence, nodes: set<TxID>) {
    && s.states.Keys == s.live && t.states.Keys == t.live && s.live <= t.live <= s.live + nodes && nodes <= t.live
    && (forall u :: u in s.live ==> t.states[u] == s.states[u])
    && (forall u :: u in t.live && u !in s.live ==> t.states[u] == Blank)
    && (forall u :: u !in nodes ==> |Viewers(t.pos, u)| == |Viewers(s.pos, u)|)
  }

  lemma ViewersAfter(t: Evidence, o: LocalOrder, u: TxID)
    requires o.replica in t.pos && FreshIds(t.done, o) !! t.pos[o.replica].Keys
    ensures |Viewers(AdmitOne(t, o).pos, u)| == |Viewers(t.pos, u)| + (if u in FreshIds(t.done, o) then 1 else 0)
  {
    NewPositionKeys(t.done, o);
    ViewersAppend(t.pos, o.replica, NewPositions(t.done, o), u);
  }

  lemma TracksStep(s: Evidence, t: Evidence, nodes: set<TxID>, o: LocalOrder)
    requires Tracks(s, t, nodes) && o.replica in t.pos && FreshIds(t.done, o) !! t.pos[o.replica].Keys
    ensures Tracks(s, AdmitOne(t, o), nodes + FreshIds(t.done, o))
  {
    hide NewPositions, Extend, Viewers, VisibilityOf, WeightsOf, SelfRefs;
    forall u
      ensures |Viewers(AdmitOne(t, o).pos, u)| == |Viewers(t.pos, u)| + (if u in FreshIds(t.done, o) then 1 else 0)
    {
      ViewersAfter(t, o, u);
    }
  }

  lemma TracksNone(p: Params, s: Evidence, orders: seq<LocalOrder>, epoch: nat)
    requires Valid(p, s)
    ensures Tracks(s, AdmitAll(Opened(s, orders, epoch), orders[..0]), FreshUpto(s.done, orders[..0]))
  {
    hide *;
    NothingYet(s, orders, epoch);
    ValidStates(p, s);
    TracksSame(s, AdmitAll(Opened(s, orders, epoch), orders[..0]));
  }

  lemma NothingYet(s: Evidence, orders: seq<LocalOrder>, epoch: nat)
    ensures AdmitAll(Opened(s, orders, epoch), orders[..0]) == Opened(s, orders, epoch)
    ensures FreshUpto(s.done, orders[..0]) == {}
    ensures var t := Opened(s, orders, epoch);
      t.live == s.live && t.states == s.states && t.pos == s.pos
  {
    assert orders[..0] == [];
  }

  lemma ValidStates(p: Params, s: Evidence)
    requires Valid(p, s)
    ensures s.states.Keys == s.live
  {
  }

  lemma TracksSame(s: Evidence, t: Evidence)
    requires s.states.Keys == s.live && t.live == s.live && t.states == s.states && t.pos == s.pos
    ensures Tracks(s, t, {})
  {
  }

  lemma {:induction false} TracksAll(cfg: Config, s: Evidence, orders: seq<LocalOrder>, epoch: nat, k: nat)
    requires Valid(cfg.params, s) && Accepts(cfg, s, orders, epoch, s.fragmentSeq + 1) && k <= |orders|
    ensures Tracks(s, AdmitAll(Opened(s, orders, epoch), orders[..k]), FreshUpto(s.done, orders[..k]))
    decreases k
  {
    hide Sound, Counted, Classified, Accepts, StillAppend, AdmitOne, FreshIds, Tracks, FreshUpto, AdmitAll;
    if k == 0 {
      TracksNone(cfg.params, s, orders, epoch);
    } else {
      TracksAll(cfg, s, orders, epoch, k - 1);
      var t := AdmitAll(Opened(s, orders, epoch), orders[..k - 1]);
      AcceptsSound(cfg, s, orders, epoch, k - 1);
      AppendsAt(cfg.params, t, orders, k - 1);
      AdmitAllSnoc(Opened(s, orders, epoch), orders, k - 1);
      FreshSnoc(s.done, orders, k - 1);
      TracksStep(s, t, FreshUpto(s.done, orders[..k - 1]), orders[k - 1]);
    }
  }

  lemma AppendsAt(p: Params, t: Evidence, orders: seq<LocalOrder>, k: nat)
    requires Sound(p, t) && StillAppend(p, t, orders, k) && k < |orders|
    ensures Appends(p, t, orders[k]) && orders[k].replica in t.pos
    ensures FreshIds(t.done, orders[k]) !! t.pos[orders[k].replica].Keys
  {
  }

  ghost function Reclassified(p: Params, nodes: set<TxID>, visibility: map<TxID, nat>): map<TxID, TxState> {
    map u | u in nodes :: Classify(p, Count(visibility, u))
  }

  /** Classifying the touched ids classifies everything. */
  lemma ReclassifiedAll(p: Params, s: Evidence, t: Evidence, nodes: set<TxID>)
    requires Classified(p, s) && Tracks(s, t, nodes) && Counted(t)
    ensures t.states + Reclassified(p, nodes, t.visibility) == ClassesOf(p, t.live, t.pos)
  {
  }

  /** The pairs the classification loop adds. */
  ghost function AwokenPairs(p: Params, st: map<TxID, TxState>, live: set<TxID>, nodes: set<TxID>, visibility: map<TxID,
                             nat>): set<Pair> {
    set u, v | u in nodes && v in live && u != v && Awoken(p, st, visibility, u) :: MakePair(u, v)
  }

  ghost predicate Awoken(p: Params, st: map<TxID, TxState>, visibility: map<TxID, nat>, u: TxID) {
    u in st && st[u] == Blank && Classify(p, Count(visibility, u)) != Blank
  }

  lemma AwokenIsActivated(p: Params, s: Evidence, t: Evidence, nodes: set<TxID>, t': Evidence)
    requires Classified(p, s) && Tracks(s, t, nodes) && Counted(t)
    requires t'.live == t.live && t'.states == ClassesOf(p, t.live, t.pos)
    ensures AwokenPairs(p, t.states, t.live, nodes, t.visibility) == ActivatedPairs(s, t')
  {
    forall u | u in t.live
      ensures Activated(s, t', u) <==> u in nodes && Awoken(p, t.states, t.visibility, u)
    {
      assert Count(t.visibility, u) == |Viewers(t.pos, u)|;
    }
  }

  /** The reference state, as the loops reach it. */
  lemma IngestIs(cfg: Config, s: Evidence, orders: seq<LocalOrder>, epoch: nat)
    requires Valid(cfg.params, s) && Accepts(cfg, s, orders, epoch, s.fragmentSeq + 1)
    ensures var t := AdmitAll(Opened(s, orders, epoch), orders);
      var nodes := FreshUpto(s.done, orders);
      && nodes <= t.states.Keys
      && Ingest(cfg.params, s, orders, epoch)
         == t.(fragmentSeq := s.fragmentSeq + 1, states := t.states + Reclassified(cfg.params, nodes, t.visibility))
  {
    hide Sound, Accepts, StillAppend, AdmitOne, FreshIds, FreshUpto, AdmitAll, Opened, ClassesOf, Reclassified;
    assert orders[..|orders|] == orders;
    AcceptsSound(cfg, s, orders, epoch, |orders|);
    TracksAll(cfg, s, orders, epoch, |orders|);
    ReclassifiedAll(cfg.params, s, AdmitAll(Opened(s, orders, epoch), orders), FreshUpto(s.done, orders));
  }

  lemma TouchedIs(cfg: Config, s: Evidence, orders: seq<LocalOrder>, epoch: nat)
    requires Valid(cfg.params, s) && Accepts(cfg, s, orders, epoch, s.fragmentSeq + 1)
    ensures var t := AdmitAll(Opened(s, orders, epoch), orders);
      ChangedPairs(s.weights, t.weights)
        + AwokenPairs(cfg.params, t.states, t.live, FreshUpto(s.done, orders), t.visibility)
      == TouchedPairs(s, Ingest(cfg.params, s, orders, epoch))
  {
    hide Sound, Counted, Accepts, StillAppend, AdmitOne, FreshIds, FreshUpto, AdmitAll, Opened, ClassesOf, Tracks,
      AwokenPairs, ActivatedPairs, ChangedPairs;
    assert orders[..|orders|] == orders;
    AcceptsSound(cfg, s, orders, epoch, |orders|);
    TracksAll(cfg, s, orders, epoch, |orders|);
    AwokenIsActivated(cfg.params, s, AdmitAll(Opened(s, orders, epoch), orders), FreshUpto(s.done, orders),
                      Ingest(cfg.params, s, orders, epoch));
  }

  ghost function Incident(id: TxID, live: set<TxID>): set<Pair> {
    set v | v in live && v != id :: MakePair(id, v)
  }

  method IncidentPairs(id: TxID, live: set<TxID>) returns (pairs: set<Pair>)
    ensures pairs == Incident(id, live)
  {
    pairs := {};
    var rest := live;
    while rest != {}
      invariant rest <= live && pairs == set v | v in live - rest && v != id :: MakePair(id, v)
      decreases rest
    {
      var other :| other in rest;
      if other != id {
        pairs := pairs + {MakePair(id, other)};
      }
      rest := rest - {other};
    }
  }
}

/**
  The mutable evidence state of a replica and the two operations that change it,
  `applyEvidenceWithTouches` and `finalize` (pkg/ofo/dependency.go:160-311, 582-608).
  Each is proved equal to the position-only reference of `EvidenceSpec`.
 */
module EvidenceObject {
  import opened Types
  import opened Collections
  import opened EvidenceSpec
  import opened EvidenceFacts
  import opened PairFacts

  // ----- Validation (reads only)

  method CheckOrder(cfg: Config, admission: Admission, s: Evidence, o: LocalOrder, epoch: nat, fragmentSeq: nat)
    returns (ok: bool)
    ensures ok <==> AcceptsOrder(cfg, s, o, epoch, fragmentSeq) && Resolves(admission, s.done, o.txs)
  {
    if o.replica >= cfg.params.n || o.epoch != epoch || o.fragmentSeq != fragmentSeq {
      return false;
    }
    if |o.txs| > cfg.params.maxOrderSize {
      return false;
    }
    if o.newPosition != o.prevPosition + |o.txs| {
      return false;
    }
    if o.prevPosition != Count(s.logSeq, o.replica) || o.prevHead != HeadOf(s, o.replica) {
      return false;
    }
    if o.newHead != LocalOrderHead(o) {
      return false;
    }
    if !cfg.auth.verifyReplica(o.replica, LocalOrderDigest(o), o.signature) {
      return false;
    }
    ok := CheckIds(admission, s, o);
  }

  ghost predicate Resolves(a: Admission, done: map<TxID, DoneRecord>, txs: seq<TxID>) {
    forall id :: id in txs && id !in done ==> Admitted(a, id)
  }

  ghost predicate IdOk(a: Admission, s: Evidence, i: Replica, id: TxID) {
    AcceptsId(s, i, id) && (id !in s.done ==> Admitted(a, id))
  }

  ghost predicate IdsOk(a: Admission, s: Evidence, i: Replica, txs: seq<TxID>) {
    forall id :: id in txs ==> IdOk(a, s, i, id)
  }

  lemma IdsOkSnoc(a: Admission, s: Evidence, i: Replica, txs: seq<TxID>, k: nat)
    requires k < |txs| && IdsOk(a, s, i, txs[..k])
    ensures IdOk(a, s, i, txs[k]) ==> IdsOk(a, s, i, txs[..k + 1])
    ensures !IdOk(a, s, i, txs[k]) ==> !IdsOk(a, s, i, txs)
  {
    hide IdOk;
    assert txs[..k + 1] == txs[..k] + [txs[k]];
  }

  method CheckIds(a: Admission, s: Evidence, o: LocalOrder) returns (ok: bool)
    ensures ok <==> Distinct(o.txs) && (forall id :: id in o.txs ==> AcceptsId(s, o.replica, id))
                    && Resolves(a, s.done, o.txs)
  {
    hide Distinct, IdsOk, Admitted, PosOf, Resolves;
    var seen: set<TxID> := {};
    IdsStart(a, s, o);
    for k := 0 to |o.txs|
      invariant seen == Elems(o.txs[..k]) && Distinct(o.txs[..k]) && IdsOk(a, s, o.replica, o.txs[..k])
    {
      hide Elems;
      var id := o.txs[k];
      OneMore(o.txs, k);
      IdsOkSnoc(a, s, o.replica, o.txs, k);
      if id in seen {
        return false;
      }
      // A reference recorded earlier in the batch cannot differ from a later one:
      // `Admitted` leaves only the identifier itself.
      if id !in s.done && (id in PosOf(s, o.replica) || !Admitted(a, id) || (id in s.txRef && s.txRef[id] != id)) {
        IdsOkIs(a, s, o.replica, o.txs);
        return false;
      }
      seen := seen + {id};
    }
    assert o.txs[..|o.txs|] == o.txs;
    IdsOkIs(a, s, o.replica, o.txs);
    return true;
  }

  lemma IdsStart(a: Admission, s: Evidence, o: LocalOrder)
    ensures Elems(o.txs[..0]) == {} && Distinct(o.txs[..0]) && IdsOk(a, s, o.replica, o.txs[..0])
  {
  }

  lemma IdsOkIs(a: Admission, s: Evidence, i: Replica, txs: seq<TxID>)
    ensures IdsOk(a, s, i, txs) <==> (forall id :: id in txs ==> AcceptsId(s, i, id)) && Resolves(a, s.done, txs)
  {
    hide AcceptsId, Admitted;
  }

  lemma IncreasingSnoc(orders: seq<LocalOrder>, k: nat)
    requires k < |orders| && Increasing(orders[..k]) && (k > 0 ==> orders[k - 1].replica < orders[k].replica)
    ensures Increasing(orders[..k + 1])
  {
    var shorter, longer := orders[..k], orders[..k + 1];
    forall i, j | 0 <= i < j < |longer| ensures longer[i].replica < longer[j].replica {
      if j < k {
        assert shorter[i].replica < shorter[j].replica;
      } else if i < k - 1 {
        assert shorter[i].replica < shorter[k - 1].replica;
      }
    }
  }

  lemma IncreasingFails(orders: seq<LocalOrder>, k: nat)
    requires 0 < k < |orders| && orders[k - 1].replica >= orders[k].replica
    ensures !Increasing(orders)
  {
  }

  lemma AvailableIs(a: Admission, done: map<TxID, DoneRecord>, orders: seq<LocalOrder>)
    ensures Available(a, done, orders) <==> forall j :: 0 <= j < |orders| ==> Resolves(a, done, orders[j].txs)
  {
    hide Admitted;
  }

  method CheckBatch(cfg: Config, admission: Admission, s: Evidence, orders: seq<LocalOrder>, epoch: nat,
                    fragmentSeq: nat)
    returns (ok: bool)
    requires cfg.params.Ok()
    ensures ok <==> Accepts(cfg, s, orders, epoch, fragmentSeq) && Available(admission, s.done, orders)
    ensures ok ==> fragmentSeq == s.fragmentSeq + 1
  {
    hide AcceptsOrder, Increasing, Available, Resolves;
    AvailableIs(admission, s.done, orders);
    if fragmentSeq != s.fragmentSeq + 1 {
      return false;
    }
    if |orders| != cfg.params.n - cfg.params.f {
      return false;
    }
    NoneOutOfOrder(orders);
    for k := 0 to |orders|
      invariant Increasing(orders[..k])
      invariant forall j :: 0 <= j < k ==> AcceptsOrder(cfg, s, orders[j], epoch, fragmentSeq)
      invariant forall j :: 0 <= j < k ==> Resolves(admission, s.done, orders[j].txs)
    {
      if k > 0 && orders[k - 1].replica >= orders[k].replica {
        IncreasingFails(orders, k);
        return false;
      }
      IncreasingSnoc(orders, k);
      var good := CheckOrder(cfg, admission, s, orders[k], epoch, fragmentSeq);
      if !good {
        return false;
      }
    }
    assert orders[..|orders|] == orders;
    return true;
  }

  lemma NoneOutOfOrder(orders: seq<LocalOrder>)
    ensures Increasing(orders[..0])
  {
  }

  // ----- The state object

  /** The loop over the first k identifiers of an extension, as a recursion. */
  ghost function NovelUpto(done: map<TxID, DoneRecord>, txs: seq<TxID>, k: nat): set<TxID>
    requires k <= |txs|
  {
    if k == 0 then {}
    else NovelUpto(done, txs, k - 1) + (if txs[k - 1] in done then {} else {txs[k - 1]})
  }

  ghost function PlacedUpto(base: map<TxID, nat>, done: map<TxID, DoneRecord>, txs: seq<TxID>, prev: nat,
                            k: nat): map<TxID, nat>
    requires k <= |txs|
  {
    if k == 0 then base
    else if txs[k - 1] in done then PlacedUpto(base, done, txs, prev, k - 1)
    else PlacedUpto(base, done, txs, prev, k - 1)[txs[k - 1] := prev + k]
  }

  lemma {:induction false} NovelUptoIs(done: map<TxID, DoneRecord>, txs: seq<TxID>, k: nat)
    requires k <= |txs|
    ensures NovelUpto(done, txs, k) == (set id | id in txs[..k] && id !in done)
  {
    if k > 0 {
      NovelUptoIs(done, txs, k - 1);
      assert txs[..k] == txs[..k - 1] + [txs[k - 1]];
    }
  }

  lemma {:induction false} PlacedUptoAt(base: map<TxID, nat>, done: map<TxID, DoneRecord>, txs: seq<TxID>, prev: nat,
                                        k: nat, j: nat)
    requires j < k <= |txs| && Distinct(txs) && txs[j] !in done
    ensures txs[j] in PlacedUpto(base, done, txs, prev, k)
    ensures PlacedUpto(base, done, txs, prev, k)[txs[j]] == prev + j + 1
  {
    if j < k - 1 {
      PlacedUptoAt(base, done, txs, prev, k - 1, j);
      DistinctAt(txs, j, k - 1);
    }
  }

  lemma {:induction false} PlacedUptoKeys(base: map<TxID, nat>, done: map<TxID, DoneRecord>, txs: seq<TxID>, prev: nat,
                                          k: nat)
    requires k <= |txs|
    ensures PlacedUpto(base, done, txs, prev, k).Keys == base.Keys + NovelUpto(done, txs, k)
    ensures forall id :: id in base && id !in NovelUpto(done, txs, k) ==>
      PlacedUpto(base, done, txs, prev, k)[id] == base[id]
  {
    if k > 0 {
      PlacedUptoKeys(base, done, txs, prev, k - 1);
    }
  }

  lemma UptoAll(base: map<TxID, nat>, done: map<TxID, DoneRecord>, o: LocalOrder)
    requires Distinct(o.txs)
    ensures NovelUpto(done, o.txs, |o.txs|) == FreshIds(done, o)
    ensures PlacedUpto(base, done, o.txs, o.prevPosition, |o.txs|) == base + NewPositions(done, o)
  {
    hide *;
    NovelUptoIs(done, o.txs, |o.txs|);
    assert o.txs[..|o.txs|] == o.txs;
    FreshIs(done, o);
    PlacedUptoKeys(base, done, o.txs, o.prevPosition, |o.txs|);
    PlacedUptoIs(base, done, o);
    NewPositionKeys(done, o);
    IsJoin(base, NewPositions(done, o), PlacedUpto(base, done, o.txs, o.prevPosition, |o.txs|));
  }

  lemma FreshIs(done: map<TxID, DoneRecord>, o: LocalOrder)
    ensures FreshIds(done, o) == set id | id in o.txs && id !in done
  {
  }

  lemma IsJoin<K, V>(m: map<K, V>, add: map<K, V>, joined: map<K, V>)
    requires joined.Keys == m.Keys + add.Keys
    requires forall k :: k in add ==> joined[k] == add[k]
    requires forall k :: k in m && k !in add ==> joined[k] == m[k]
    ensures joined == m + add
  {
  }

  lemma PlacedUptoIs(base: map<TxID, nat>, done: map<TxID, DoneRecord>, o: LocalOrder)
    requires Distinct(o.txs)
    ensures forall id :: id in NewPositions(done, o) ==>
      && id in PlacedUpto(base, done, o.txs, o.prevPosition, |o.txs|)
      && PlacedUpto(base, done, o.txs, o.prevPosition, |o.txs|)[id] == NewPositions(done, o)[id]
  {
    hide Distinct, PlacedUpto;
    forall id | id in NewPositions(done, o)
      ensures id in PlacedUpto(base, done, o.txs, o.prevPosition, |o.txs|)
      ensures PlacedUpto(base, done, o.txs, o.prevPosition, |o.txs|)[id] == NewPositions(done, o)[id]
    {
      PlacedUptoAt(base, done, o.txs, o.prevPosition, |o.txs|, IndexIn(o.txs, id));
    }
  }

  lemma {:induction false} NotYet(done: map<TxID, DoneRecord>, txs: seq<TxID>, k: nat, j: nat)
    requires k <= j < |txs| && Distinct(txs)
    ensures txs[j] !in NovelUpto(done, txs, k)
  {
    if k > 0 {
      NotYet(done, txs, k - 1, j);
      DistinctAt(txs, k - 1, j);
    }
  }

  ghost function StatesUpto(st: map<TxID, TxState>, live0: set<TxID>, done: map<TxID, DoneRecord>, txs: seq<TxID>,
                            k: nat): map<TxID, TxState>
    requires k <= |txs|
  {
    if k == 0 then st
    else if txs[k - 1] in done || txs[k - 1] in live0 then StatesUpto(st, live0, done, txs, k - 1)
    else StatesUpto(st, live0, done, txs, k - 1)[txs[k - 1] := Blank]
  }

  lemma {:induction false} StatesUptoIs(st: map<TxID, TxState>, live0: set<TxID>, done: map<TxID, DoneRecord>,
                                        txs: seq<TxID>, k: nat)
    requires k <= |txs|
    ensures StatesUpto(st, live0, done, txs, k) == st + Blanks(NovelUpto(done, txs, k) - live0)
  {
    if k > 0 {
      StatesUptoIs(st, live0, done, txs, k - 1);
    }
  }

  lemma ExtendedAt(pos: Positions, i: Replica, add: map<TxID, nat>)
    requires i in pos
    ensures i in Extend(pos, i, add) && Extend(pos, i, add)[i] == pos[i] + add
    ensures Extend(pos, i, add)[i].Keys == pos[i].Keys + add.Keys
  {
  }

  /** The pair loop of one new id after `k` others. */
  ghost predicate Paired(w0: map<Edge, nat>, touched0: set<Pair>, positions: map<TxID, nat>, id: TxID,
                         others: seq<TxID>, k: nat,
                         collect: bool, w: map<Edge, nat>, touched: set<Pair>)
    requires k <= |others|
  {
    && id in positions && Elems(others[..k]) <= positions.Keys
    && w == Bump(w0, Star(positions, id, Elems(others[..k])))
    && touched == Touch(collect, touched0, Star(positions, id, Elems(others[..k])))
  }

  lemma PairsStart(w0: map<Edge, nat>, touched0: set<Pair>, positions: map<TxID, nat>, id: TxID, others: seq<TxID>,
                   collect: bool)
    requires id in positions
    ensures Paired(w0, touched0, positions, id, others, 0, collect, w0, touched0)
  {
    assert Elems(others[..0]) == {};
    assert Star(positions, id, {}) == {};
    BumpNone(w0);
    TouchNone(collect, touched0);
  }

  lemma PairsStep(w0: map<Edge, nat>, touched0: set<Pair>, positions: map<TxID, nat>, id: TxID, others: seq<TxID>,
                  k: nat,
                  collect: bool, w: map<Edge, nat>, touched: set<Pair>)
    requires k < |others| && Paired(w0, touched0, positions, id, others, k, collect, w, touched)
    requires Injective(positions) && id in positions && Elems(others) <= positions.Keys && id !in others
    requires Distinct(others)
    ensures others[k] in positions && positions[id] != positions[others[k]]
    ensures var e := Dir(positions, id, others[k]);
      Paired(w0, touched0, positions, id, others, k + 1, collect, w[e := Count(w, e) + 1],
             if collect then touched + {PairOf(e)} else touched)
  {
    hide *;
    var x, met := others[k], Elems(others[..k]);
    PrefixIn(others, k);
    var star := Star(positions, id, met);
    AtIndex(others, k);
    DistinctPrefix(others, k);
    ElemsGrow(others, k);
    InElems(others);
    InElems(others[..k]);
    PairedIs(w0, touched0, positions, id, others, k, collect, w, touched);
    InjectiveAt(positions, id, x);
    StarSnoc(positions, id, met, x);
    BumpOne(w0, star, Dir(positions, id, x));
    TouchSnoc(collect, touched0, star, Dir(positions, id, x));
    TouchOff(collect, touched0, star);
    PairedIs(w0, touched0, positions, id, others, k + 1, collect, Bump(w0, star + {Dir(positions, id, x)}),
             Touch(collect, touched0, star + {Dir(positions, id, x)}));
  }

  lemma InjectiveAt(m: map<TxID, nat>, u: TxID, v: TxID)
    requires Injective(m) && u in m && v in m && u != v
    ensures m[u] != m[v]
  {
  }

  lemma PairedIs(w0: map<Edge, nat>, touched0: set<Pair>, positions: map<TxID, nat>, id: TxID, others: seq<TxID>,
                 k: nat,
                 collect: bool, w: map<Edge, nat>, touched: set<Pair>)
    requires k <= |others| && id in positions && Elems(others[..k]) <= positions.Keys
    ensures Paired(w0, touched0, positions, id, others, k, collect, w, touched)
       <==> w == Bump(w0, Star(positions, id, Elems(others[..k])))
            && touched == Touch(collect, touched0, Star(positions, id, Elems(others[..k])))
  {
    hide Elems, Bump, Star, Touch;
  }

  lemma PrefixIn(s: seq<TxID>, k: nat)
    requires k <= |s|
    ensures Elems(s[..k]) <= Elems(s)
  {
    ElemsSplit(s, k);
  }

  lemma PairsEnd(w0: map<Edge, nat>, touched0: set<Pair>, positions: map<TxID, nat>, id: TxID, others: seq<TxID>,
                 collect: bool,
                 w: map<Edge, nat>, touched: set<Pair>)
    requires Paired(w0, touched0, positions, id, others, |others|, collect, w, touched)
    ensures Elems(others) <= positions.Keys && w == Bump(w0, Star(positions, id, Elems(others)))
    ensures touched == Touch(collect, touched0, Star(positions, id, Elems(others)))
  {
    assert others[..|others|] == others;
  }

  // ----- The pair enumeration, one new id at a time

  ghost predicate Counting(w0: map<Edge, nat>, touched0: set<Pair>, positions: map<TxID, nat>, newIDs: seq<TxID>,
                           k: nat,
                           collect: bool, w: map<Edge, nat>, touched: set<Pair>)
    requires k <= |newIDs|
  {
    && w == Bump(w0, NewPairs(positions, Elems(newIDs[..k])))
    && touched == Touch(collect, touched0, NewPairs(positions, Elems(newIDs[..k])))
  }

  lemma CountingStarts(w0: map<Edge, nat>, touched0: set<Pair>, positions: map<TxID, nat>, newIDs: seq<TxID>,
                       collect: bool)
    ensures Counting(w0, touched0, positions, newIDs, 0, collect, w0, touched0)
  {
    hide Bump, NewPairs, Touch;
    BumpNone(w0);
    NewPairsNone(positions);
    TouchNone(collect, touched0);
    assert Elems(newIDs[..0]) == {};
  }

  lemma CountingReady(positions: map<TxID, nat>, oldIDs: seq<TxID>, newIDs: seq<TxID>, k: nat)
    requires positions.Keys == Elems(oldIDs) + Elems(newIDs) && Elems(oldIDs) !! Elems(newIDs)
    requires k < |newIDs| && Distinct(newIDs)
    ensures newIDs[k] in positions && Elems(oldIDs) <= positions.Keys && newIDs[k] !in oldIDs
    ensures Elems(newIDs[k + 1..]) <= positions.Keys && newIDs[k] !in newIDs[k + 1..] && Distinct(newIDs[k + 1..])
  {
    hide Distinct;
    Remaining(positions.Keys, oldIDs, newIDs, k);
    DistinctSuffix(newIDs, k + 1);
    AtIndex(newIDs, k);
  }

  /** The new pairs so far, together with those of the next id, in one step. */
  lemma CountingStep(w0: map<Edge, nat>, touched0: set<Pair>, positions: map<TxID, nat>, oldIDs: seq<TxID>,
                     newIDs: seq<TxID>,
                     k: nat, collect: bool, w: map<Edge, nat>, touched: set<Pair>, w': map<Edge, nat>,
                     touched': set<Pair>)
    requires Injective(positions) && positions.Keys == Elems(oldIDs) + Elems(newIDs) && Elems(oldIDs) !! Elems(newIDs)
    requires k < |newIDs| && Distinct(newIDs) && newIDs[k] in positions
    requires Elems(oldIDs) <= positions.Keys && Elems(newIDs[k + 1..]) <= positions.Keys
    requires Counting(w0, touched0, positions, newIDs, k, collect, w, touched)
    requires var a, b := Star(positions, newIDs[k], Elems(oldIDs)), Star(positions, newIDs[k], Elems(newIDs[k + 1..]));
      && w' == Bump(Bump(w, a), b) && touched' == Touch(collect, Touch(collect, touched, a), b)
    ensures Counting(w0, touched0, positions, newIDs, k + 1, collect, w', touched')
  {
    hide Bump, NewPairs, Touch, Star, Distinct, Elems, Injective;
    var id, later := newIDs[k], newIDs[k + 1..];
    Remaining(positions.Keys, oldIDs, newIDs, k);
    PrefixIn(newIDs, k);
    var counted := NewPairs(positions, Elems(newIDs[..k]));
    var a, b := Star(positions, id, Elems(oldIDs)), Star(positions, id, Elems(later));
    StarJoin(positions, id, Elems(oldIDs), Elems(later));
    NewPairsSnoc(positions, Elems(newIDs[..k]), id);
    BumpTwice(w0, counted, a);
    BumpTwice(w0, counted + a, b);
    TouchTwice(collect, touched0, counted, a);
    TouchTwice(collect, touched0, counted + a, b);
    assert counted + a + b == counted + (a + b);
  }

  lemma CountingEnds(w0: map<Edge, nat>, touched0: set<Pair>, positions: map<TxID, nat>, newIDs: seq<TxID>,
                     collect: bool,
                     w: map<Edge, nat>, touched: set<Pair>)
    requires Counting(w0, touched0, positions, newIDs, |newIDs|, collect, w, touched)
    ensures w == Bump(w0, NewPairs(positions, Elems(newIDs)))
    ensures touched == Touch(collect, touched0, NewPairs(positions, Elems(newIDs)))
  {
    hide Bump, NewPairs, Touch, Elems;
    assert newIDs[..|newIDs|] == newIDs;
  }

  /** The append loop after `k` identifiers. */
  ghost predicate Appending(done: map<TxID, DoneRecord>, o: LocalOrder, base: map<TxID, nat>, live0: set<TxID>,
                            seen0: map<TxID, nat>, states0: map<TxID, TxState>, k: nat, positions: map<TxID, nat>,
                            live: set<TxID>, seen: map<TxID, nat>, states: map<TxID, TxState>)
    requires k <= |o.txs|
  {
    && positions == PlacedUpto(base, done, o.txs, o.prevPosition, k)
    && live == live0 + NovelUpto(done, o.txs, k)
    && seen == Bump(seen0, NovelUpto(done, o.txs, k))
    && states == StatesUpto(states0, live0, done, o.txs, k)
  }

  lemma AppendStarts(done: map<TxID, DoneRecord>, o: LocalOrder, base: map<TxID, nat>, live0: set<TxID>,
                     seen0: map<TxID, nat>, states0: map<TxID, TxState>)
    ensures Appending(done, o, base, live0, seen0, states0, 0, base, live0, seen0, states0)
  {
    BumpNone(seen0);
  }

  lemma UptoNext(done: map<TxID, DoneRecord>, o: LocalOrder, base: map<TxID, nat>, live0: set<TxID>, states0: map<TxID,
                 TxState>, k: nat)
    requires k < |o.txs|
    ensures var id := o.txs[k];
      && NovelUpto(done, o.txs, k + 1)
         == (if id in done then NovelUpto(done, o.txs, k) else NovelUpto(done, o.txs, k) + {id})
      && PlacedUpto(base, done, o.txs, o.prevPosition, k + 1)
         == (if id in done then PlacedUpto(base, done, o.txs, o.prevPosition, k)
             else PlacedUpto(base, done, o.txs, o.prevPosition, k)[id := o.prevPosition + k + 1])
      && StatesUpto(states0, live0, done, o.txs, k + 1)
         == (if id in done || id in live0 then StatesUpto(states0, live0, done, o.txs, k)
             else StatesUpto(states0, live0, done, o.txs, k)[id := Blank])
  {
  }

  lemma AppendStep(done: map<TxID, DoneRecord>, o: LocalOrder, base: map<TxID, nat>, live0: set<TxID>,
                   seen0: map<TxID, nat>, states0: map<TxID, TxState>, k: nat, positions: map<TxID, nat>,
                   live: set<TxID>, seen: map<TxID, nat>, states: map<TxID, TxState>)
    requires k < |o.txs| && Distinct(o.txs)
    requires Appending(done, o, base, live0, seen0, states0, k, positions, live, seen, states)
    ensures var id := o.txs[k];
      if id in done then Appending(done, o, base, live0, seen0, states0, k + 1, positions, live, seen, states)
      else Appending(done, o, base, live0, seen0, states0, k + 1, positions[id := o.prevPosition + k + 1], live + {id},
                     seen[id := Count(seen, id) + 1], if id in live then states else states[id := Blank])
  {
    var id := o.txs[k];
    UptoNext(done, o, base, live0, states0, k);
    if id !in done {
      NotYet(done, o.txs, k, k);
      BumpOne(seen0, NovelUpto(done, o.txs, k), id);
    }
    hide Distinct, Bump, NovelUpto, PlacedUpto, StatesUpto;
  }

  lemma AppendEnds(done: map<TxID, DoneRecord>, o: LocalOrder, base: map<TxID, nat>, live0: set<TxID>,
                   seen0: map<TxID, nat>, states0: map<TxID, TxState>, positions: map<TxID, nat>,
                   live: set<TxID>, seen: map<TxID, nat>, states: map<TxID, TxState>)
    requires Appending(done, o, base, live0, seen0, states0, |o.txs|, positions, live, seen, states)
    ensures positions == PlacedUpto(base, done, o.txs, o.prevPosition, |o.txs|)
    ensures live == live0 + NovelUpto(done, o.txs, |o.txs|) && seen == Bump(seen0, NovelUpto(done, o.txs, |o.txs|))
    ensures states == StatesUpto(states0, live0, done, o.txs, |o.txs|)
  {
  }

  /** The ids of an extension that get a position, in its order. */
  method NovelIDs(done: map<TxID, DoneRecord>, txs: seq<TxID>) returns (newIDs: seq<TxID>)
    requires Distinct(txs)
    ensures Elems(newIDs) == (set id | id in txs && id !in done) && Distinct(newIDs)
  {
    newIDs := [];
    for k := 0 to |txs|
      invariant Elems(newIDs) == NovelUpto(done, txs, k) && Distinct(newIDs)
    {
      if txs[k] !in done {
        NotYet(done, txs, k, k);
        assert txs[k] !in Elems(newIDs);
        DistinctSnoc(newIDs, txs[k]);
        newIDs := newIDs + [txs[k]];
      }
    }
    NovelUptoIs(done, txs, |txs|);
    assert txs[..|txs|] == txs;
  }

  lemma NothingFromNothing(done: map<TxID, DoneRecord>, o: LocalOrder, newIDs: seq<TxID>)
    requires Elems(newIDs) == FreshIds(done, o)
    ensures o.txs == [] ==> newIDs == []
  {
    assert newIDs != [] ==> newIDs[0] in Elems(newIDs);
  }

  /** The touched pairs of the first k extensions are the pairs whose weight changed. */
  ghost predicate PairsTracked(collect: bool, w0: map<Edge, nat>, w: map<Edge, nat>, pairs: set<Pair>) {
    Grown(w0, w) && pairs == if collect then ChangedPairs(w0, w) else {}
  }

  lemma PairsTrackedNone(collect: bool, w: map<Edge, nat>)
    ensures PairsTracked(collect, w, w, {})
  {
    assert (set e | e in w && Count(w, e) != Count(w, e)) == {};
  }

  lemma PairsTrackedStep(collect: bool, w0: map<Edge, nat>, w: map<Edge, nat>, pairs: set<Pair>, up: set<Edge>)
    requires PairsTracked(collect, w0, w, pairs)
    ensures PairsTracked(collect, w0, Bump(w, up), Touch(collect, pairs, up))
  {
    ChangedByBump(w0, w, up);
  }

  /** What the two loops did to the fields is what the reference does to the value. */
  lemma FieldsOfAdmitOne(p: Params, s: Evidence, o: LocalOrder, t: Evidence)
    requires Sound(p, s) && Counted(s) && Appends(p, s, o)
    requires t == s.(live := t.live, txRef := t.txRef, pos := t.pos, logSeq := t.logSeq, logHead := t.logHead,
                     visibility := t.visibility, weights := t.weights, states := t.states)
    requires t.pos == Extend(s.pos, o.replica, NewPositions(s.done, o))
    requires t.live == s.live + FreshIds(s.done, o) && t.txRef == SelfRefs(t.live)
    requires t.visibility == Bump(s.visibility, FreshIds(s.done, o))
    requires t.weights == Bump(s.weights, NewPairs(s.pos[o.replica] + NewPositions(s.done, o), FreshIds(s.done, o)))
    requires t.states == s.states + Blanks(FreshIds(s.done, o) - s.live)
    requires t.logSeq == s.logSeq[o.replica := o.newPosition] && t.logHead == s.logHead[o.replica := o.newHead]
    ensures t == AdmitOne(s, o)
  {
    AdmitOneIncrement(s, o);
    SelfRefsJoin(s.live, FreshIds(s.done, o));
  }

  lemma ReadyToIngest(p: Params, s: Evidence, o: LocalOrder)
    requires Sound(p, s) && Appends(p, s, o)
    ensures o.replica in s.pos && Distinct(o.txs) && s.txRef == SelfRefs(s.live)
    ensures FreshIds(s.done, o) !! s.pos[o.replica].Keys && Injective(s.pos[o.replica] + NewPositions(s.done, o))
  {
    AppendedLog(s.pos[o.replica], s.done, o);
  }

  lemma ReclassifiedStep(p: Params, nodes: set<TxID>, id: TxID, visibility: map<TxID, nat>, st: map<TxID, TxState>)
    ensures (st + Reclassified(p, nodes, visibility))[id := Classify(p, Count(visibility, id))]
         == st + Reclassified(p, nodes + {id}, visibility)
  {
  }

  lemma AwokenStep(p: Params, st: map<TxID, TxState>, live: set<TxID>, nodes: set<TxID>, id: TxID, visibility: map<TxID,
                   nat>)
    ensures AwokenPairs(p, st, live, nodes + {id}, visibility)
         == AwokenPairs(p, st, live, nodes, visibility) + AwokenPairs(p, st, live, {id}, visibility)
  {
  }

  lemma AwokenOne(p: Params, st: map<TxID, TxState>, live: set<TxID>, id: TxID, visibility: map<TxID, nat>)
    requires id in st
    ensures AwokenPairs(p, st, live, {id}, visibility)
         == if st[id] == Blank && Classify(p, Count(visibility, id)) != Blank then Incident(id, live) else {}
  {
  }

  lemma AwokenNone(p: Params, st: map<TxID, TxState>, live: set<TxID>, visibility: map<TxID, nat>)
    ensures AwokenPairs(p, st, live, {}, visibility) == {}
    ensures st + Reclassified(p, {}, visibility) == st
  {
  }

  ghost predicate RecordedUpto(done0: map<TxID, DoneRecord>, fragmentSeq: nat, batches: seq<FairnessBatch>, k: nat,
                               done: map<TxID, DoneRecord>, gone: set<TxID>)
    requires k <= |batches|
  {
    done == done0 + AllRecords(fragmentSeq, batches[..k]) && gone == Released(batches[..k])
  }

  lemma NothingRecorded(done0: map<TxID, DoneRecord>, fragmentSeq: nat, batches: seq<FairnessBatch>)
    ensures RecordedUpto(done0, fragmentSeq, batches, 0, done0, {})
  {
  }

  lemma RecordsStep(done0: map<TxID, DoneRecord>, fragmentSeq: nat, batches: seq<FairnessBatch>, k: nat,
                    done: map<TxID, DoneRecord>, gone: set<TxID>)
    requires k < |batches| && RecordedUpto(done0, fragmentSeq, batches, k, done, gone)
    ensures RecordedUpto(done0, fragmentSeq, batches, k + 1, done + RecordsOf(fragmentSeq, batches[k]),
                         gone + Elems(batches[k].txs))
  {
    var longer := batches[..k + 1];
    assert longer[..k] == batches[..k];
    ReleasedSnoc(longer);
    assert AllRecords(fragmentSeq, longer) == AllRecords(fragmentSeq, batches[..k])
                                              + RecordsOf(fragmentSeq, batches[k]);
    hide Released, Elems, RecordsOf, AllRecords;
  }

  lemma AllRecorded(done0: map<TxID, DoneRecord>, fragmentSeq: nat, batches: seq<FairnessBatch>,
                    done: map<TxID, DoneRecord>, gone: set<TxID>)
    requires RecordedUpto(done0, fragmentSeq, batches, |batches|, done, gone)
    ensures done == done0 + AllRecords(fragmentSeq, batches) && gone == Released(batches)
  {
    assert batches[..|batches|] == batches;
  }

  lemma ForgetStep(pos: Positions, weights: map<Edge, nat>, gone: set<TxID>, id: TxID)
    ensures Forget(Forget(pos, gone), {id}) == Forget(pos, gone + {id})
    ensures Forget(pos, {}) == pos
    ensures ForgetWeights(weights, {}) == weights
  {
    forall i | i in pos
      ensures pos[i] - gone - {id} == pos[i] - (gone + {id})
      ensures pos[i] - {} == pos[i]
    {
    }
  }

  lemma RecordsGrow(fragmentSeq: nat, batch: FairnessBatch, k: nat)
    requires k < |batch.txs|
    ensures RecordsOf(fragmentSeq, batch.(txs := batch.txs[..k + 1]))
         == RecordsOf(fragmentSeq, batch.(txs := batch.txs[..k]))[batch.txs[k] := DoneRecord(fragmentSeq, batch.index)]
  {
    assert batch.txs[..k + 1] == batch.txs[..k] + [batch.txs[k]];
  }

  ghost predicate BatchUpto(done0: map<TxID, DoneRecord>, fragmentSeq: nat, batch: FairnessBatch, gone0: set<TxID>,
                            k: nat,
                            done: map<TxID, DoneRecord>, gone: set<TxID>)
    requires k <= |batch.txs|
  {
    done == done0 + RecordsOf(fragmentSeq, batch.(txs := batch.txs[..k])) && gone == gone0 + Elems(batch.txs[..k])
  }

  lemma BatchStarts(done0: map<TxID, DoneRecord>, fragmentSeq: nat, batch: FairnessBatch, gone0: set<TxID>)
    ensures BatchUpto(done0, fragmentSeq, batch, gone0, 0, done0, gone0)
  {
    assert RecordsOf(fragmentSeq, batch.(txs := batch.txs[..0])) == map[];
  }

  lemma BatchStep(done0: map<TxID, DoneRecord>, fragmentSeq: nat, batch: FairnessBatch, gone0: set<TxID>, k: nat,
                  done: map<TxID, DoneRecord>, gone: set<TxID>)
    requires k < |batch.txs| && BatchUpto(done0, fragmentSeq, batch, gone0, k, done, gone)
    ensures BatchUpto(done0, fragmentSeq, batch, gone0, k + 1,
                      done[batch.txs[k] := DoneRecord(fragmentSeq, batch.index)],
                      gone + {batch.txs[k]})
  {
    ElemsGrow(batch.txs, k);
    RecordsGrow(fragmentSeq, batch, k);
    hide RecordsOf, Elems;
  }

  lemma BatchEnds(done0: map<TxID, DoneRecord>, fragmentSeq: nat, batch: FairnessBatch, gone0: set<TxID>,
                  done: map<TxID, DoneRecord>, gone: set<TxID>)
    requires BatchUpto(done0, fragmentSeq, batch, gone0, |batch.txs|, done, gone)
    ensures done == done0 + RecordsOf(fragmentSeq, batch) && gone == gone0 + Elems(batch.txs)
  {
    assert batch.txs[..|batch.txs|] == batch.txs;
  }

  class EvidenceState {
    var epoch: nat
    var fragmentSeq: nat
    var batchCounter: nat
    var logSeq: map<Replica, nat>
    var logHead: map<Replica, Digest>
    var live: set<TxID>
    var txRef: map<TxID, TxID>
    var pos: Positions
    var done: map<TxID, DoneRecord>
    var doneRoot: Digest
    var stateId: Digest
    var visibility: map<TxID, nat>
    var weights: map<Edge, nat>
    var states: map<TxID, TxState>

    function View(): Evidence
      reads this
    {
      Evidence(epoch, fragmentSeq, batchCounter, logSeq, logHead, live, txRef, pos, done, doneRoot, stateId,
               visibility, weights, states)
    }

    /** `NewEvidenceState`. */
    constructor (epoch: nat, n: nat, stateId: Digest)
      ensures View() == Genesis(epoch, n, stateId)
    {
      this.epoch, fragmentSeq, batchCounter := epoch, 0, 0;
      logSeq, logHead, live, txRef := map[], map[], {}, map[];
      pos := map i | i in Replicas(n) :: map[];
      done, doneRoot, this.stateId := map[], DoneSet(map[]), stateId;
      visibility, weights, states := map[], map[], map[];
    }

    /** `clone`. */
    constructor Clone(src: EvidenceState)
      ensures View() == src.View()
    {
      epoch, fragmentSeq, batchCounter := src.epoch, src.fragmentSeq, src.batchCounter;
      logSeq, logHead, live, txRef := src.logSeq, src.logHead, src.live, src.txRef;
      pos, done, doneRoot, stateId := src.pos, src.done, src.doneRoot, src.stateId;
      visibility, weights, states := src.visibility, src.weights, src.states;
    }

    method AppendId(id: TxID)
      requires txRef == SelfRefs(live)
      modifies `live, `txRef, `visibility, `states
      ensures live == old(live) + {id} && txRef == SelfRefs(live)
      ensures states == if id in old(live) then old(states) else old(states)[id := Blank]
      ensures visibility == old(visibility)[id := Count(old(visibility), id) + 1]
    {
      if id !in live {
        live := live + {id};
        // Validation admitted no reference but the id itself.
        txRef := txRef[id := id];
        states := states[id := Blank];
      }
      visibility := visibility[id := Count(visibility, id) + 1];
    }

    /** The loop that assigns first positions. `positions` is the sender's own map. */
    method AppendLoop(o: LocalOrder) returns (positions: map<TxID, nat>)
      requires o.replica in pos && Distinct(o.txs) && txRef == SelfRefs(live)
      modifies `live, `txRef, `visibility, `states
      ensures positions == PlacedUpto(pos[o.replica], done, o.txs, o.prevPosition, |o.txs|)
      ensures live == old(live) + NovelUpto(done, o.txs, |o.txs|) && txRef == SelfRefs(live)
      ensures visibility == Bump(old(visibility), NovelUpto(done, o.txs, |o.txs|))
      ensures states == StatesUpto(old(states), old(live), done, o.txs, |o.txs|)
    {
      hide *;
      positions := pos[o.replica];
      ghost var base, live0, seen0, states0 := positions, live, visibility, states;
      var position := o.prevPosition;
      AppendStarts(done, o, base, live0, seen0, states0);
      for k := 0 to |o.txs|
        invariant position == o.prevPosition + k && txRef == SelfRefs(live)
        invariant Appending(done, o, base, live0, seen0, states0, k, positions, live, visibility, states)
      {
        var id := o.txs[k];
        AppendStep(done, o, base, live0, seen0, states0, k, positions, live, visibility, states);
        position := position + 1;
        if id !in done {
          AppendId(id);
          positions := positions[id := position];
        }
      }
      AppendEnds(done, o, base, live0, seen0, states0, positions, live, visibility, states);
    }

    method AppendPositions(o: LocalOrder) returns (newIDs: seq<TxID>)
      requires o.replica in pos && Distinct(o.txs) && txRef == SelfRefs(live)
      modifies `live, `txRef, `pos, `visibility, `states
      ensures pos == Extend(old(pos), o.replica, NewPositions(done, o))
      ensures live == old(live) + FreshIds(done, o) && txRef == SelfRefs(live)
      ensures visibility == Bump(old(visibility), FreshIds(done, o))
      ensures states == old(states) + Blanks(FreshIds(done, o) - old(live))
      ensures Elems(newIDs) == FreshIds(done, o) && Distinct(newIDs)
    {
      UptoAll(pos[o.replica], done, o);
      StatesUptoIs(states, live, done, o.txs, |o.txs|);
      newIDs := NovelIDs(done, o.txs);
      var positions := AppendLoop(o);
      pos := pos[o.replica := positions];
    }

    /** `addPair`: one more replica orders the pair, in the direction of its positions. */
    method AddPair(positions: map<TxID, nat>, u: TxID, v: TxID, touched: set<Pair>, collect: bool)
      returns (touched': set<Pair>)
      requires u in positions && v in positions && positions[u] != positions[v]
      modifies `weights
      ensures weights == old(weights)[Dir(positions, u, v) := Count(old(weights), Dir(positions, u, v)) + 1]
      ensures touched' == if collect then touched + {PairOf(Dir(positions, u, v))} else touched
    {
      if positions[u] < positions[v] {
        weights := weights[Edge(u, v) := Count(weights, Edge(u, v)) + 1];
      } else {
        weights := weights[Edge(v, u) := Count(weights, Edge(v, u)) + 1];
      }
      touched' := if collect then touched + {MakePair(u, v)} else touched;
      assert u != v;
    }

    /** One inner loop: `id` against each of `others`. */
    method AddPairs(positions: map<TxID, nat>, id: TxID, others: seq<TxID>, touched: set<Pair>, collect: bool)
      returns (touched': set<Pair>)
      requires Injective(positions) && id in positions && Elems(others) <= positions.Keys
      requires id !in others && Distinct(others)
      modifies `weights
      ensures weights == Bump(old(weights), Star(positions, id, Elems(others)))
      ensures touched' == Touch(collect, touched, Star(positions, id, Elems(others)))
    {
      hide *;
      touched' := touched;
      ghost var w0 := weights;
      PairsStart(w0, touched, positions, id, others, collect);
      for k := 0 to |others|
        invariant Paired(w0, touched, positions, id, others, k, collect, weights, touched')
      {
        PairsStep(w0, touched, positions, id, others, k, collect, weights, touched');
        touched' := AddPair(positions, id, others[k], touched', collect);
      }
      PairsEnd(w0, touched, positions, id, others, collect, weights, touched');
    }

    /** The pair loops of one extension. */
    method CountPairs(positions: map<TxID, nat>, oldIDs: seq<TxID>, newIDs: seq<TxID>, touched: set<Pair>,
                      collect: bool)
      returns (touched': set<Pair>)
      requires Injective(positions) && (newIDs == [] || positions.Keys == Elems(oldIDs) + Elems(newIDs))
      requires Elems(oldIDs) !! Elems(newIDs) && Distinct(oldIDs) && Distinct(newIDs)
      modifies `weights
      ensures weights == Bump(old(weights), NewPairs(positions, Elems(newIDs)))
      ensures touched' == Touch(collect, touched, NewPairs(positions, Elems(newIDs)))
    {
      hide *;
      touched' := touched;
      ghost var w0 := weights;
      CountingStarts(w0, touched, positions, newIDs, collect);
      for k := 0 to |newIDs|
        invariant Counting(w0, touched, positions, newIDs, k, collect, weights, touched')
      {
        ghost var w, t := weights, touched';
        CountingReady(positions, oldIDs, newIDs, k);
        touched' := AddPairs(positions, newIDs[k], oldIDs, touched', collect);
        touched' := AddPairs(positions, newIDs[k], newIDs[k + 1..], touched', collect);
        CountingStep(w0, touched, positions, oldIDs, newIDs, k, collect, w, t, weights, touched');
      }
      CountingEnds(w0, touched, positions, newIDs, collect, weights, touched');
    }

    /** One extension of the batch. Old ids are listed only when there are new ones. */
    method IngestOrder(o: LocalOrder, nodes: set<TxID>, pairs: set<Pair>, collect: bool)
      returns (nodes': set<TxID>, pairs': set<Pair>)
      requires o.replica in pos && Distinct(o.txs) && txRef == SelfRefs(live)
      requires FreshIds(done, o) !! pos[o.replica].Keys && Injective(pos[o.replica] + NewPositions(done, o))
      modifies `live, `txRef, `pos, `visibility, `states, `weights, `logSeq, `logHead
      ensures pos == Extend(old(pos), o.replica, NewPositions(done, o))
      ensures live == old(live) + FreshIds(done, o) && txRef == SelfRefs(live)
      ensures visibility == Bump(old(visibility), FreshIds(done, o))
      ensures weights == Bump(old(weights), NewPairs(old(pos)[o.replica] + NewPositions(done, o), FreshIds(done, o)))
      ensures states == old(states) + Blanks(FreshIds(done, o) - old(live))
      ensures logSeq == old(logSeq)[o.replica := o.newPosition] && logHead == old(logHead)[o.replica := o.newHead]
      ensures nodes' == nodes + FreshIds(done, o)
      ensures pairs' == Touch(collect, pairs, NewPairs(old(pos)[o.replica] + NewPositions(done, o), FreshIds(done, o)))
    {
      hide *;
      NewPositionKeys(done, o);
      ExtendedAt(pos, o.replica, NewPositions(done, o));
      var oldIDs: seq<TxID> := [];
      NothingListed(live);
      if o.txs != [] {
        oldIDs := AnyOrder(pos[o.replica].Keys);
      }
      var newIDs := AppendPositions(o);
      NothingFromNothing(done, o, newIDs);
      nodes' := nodes + SetOf(newIDs);
      pairs' := CountPairs(pos[o.replica], oldIDs, newIDs, pairs, collect);
      logSeq := logSeq[o.replica := o.newPosition];
      logHead := logHead[o.replica := o.newHead];
    }

    method IngestNext(ghost p: Params, o: LocalOrder, nodes: set<TxID>, pairs: set<Pair>, collect: bool,
                      ghost w0: map<Edge, nat>)
      returns (nodes': set<TxID>, pairs': set<Pair>)
      requires Sound(p, View()) && Counted(View()) && Appends(p, View(), o)
      requires PairsTracked(collect, w0, weights, pairs)
      modifies this
      ensures View() == AdmitOne(old(View()), o)
      ensures nodes' == nodes + FreshIds(old(done), o)
      ensures PairsTracked(collect, w0, weights, pairs')
    {
      hide Sound, Counted, Appends, AdmitOne, PairsTracked, NewPairs, NewPositions, FreshIds, Bump, Touch, Injective;
      ghost var s := View();
      ReadyToIngest(p, s, o);
      PairsTrackedStep(collect, w0, weights, pairs,
                       NewPairs(s.pos[o.replica] + NewPositions(s.done, o), FreshIds(s.done, o)));
      nodes', pairs' := IngestOrder(o, nodes, pairs, collect);
      FieldsOfAdmitOne(p, s, o, View());
    }

    method IngestAll(ghost cfg: Config, ghost s0: Evidence, orders: seq<LocalOrder>, ghost epoch: nat, collect: bool)
      returns (nodes: set<TxID>, pairs: set<Pair>)
      requires Sound(cfg.params, s0) && Counted(s0) && Accepts(cfg, s0, orders, epoch, s0.fragmentSeq + 1)
      requires View() == Opened(s0, orders, epoch)
      modifies this
      ensures View() == AdmitAll(old(View()), orders)
      ensures nodes == FreshUpto(s0.done, orders)
      ensures PairsTracked(collect, s0.weights, weights, pairs)
    {
      hide Sound, Counted, Accepts, StillAppend, Appends, PairsTracked, AdmitOne, FreshIds;
      nodes, pairs := {}, {};
      PairsTrackedNone(collect, s0.weights);
      assert orders[..0] == [];
      for k := 0 to |orders|
        invariant View() == AdmitAll(old(View()), orders[..k])
        invariant nodes == FreshUpto(s0.done, orders[..k])
        invariant PairsTracked(collect, s0.weights, weights, pairs)
      {
        AcceptsSound(cfg, s0, orders, epoch, k);
        AdmitAllSnoc(old(View()), orders, k);
        FreshSnoc(s0.done, orders, k);
        nodes, pairs := IngestNext(cfg.params, orders[k], nodes, pairs, collect, s0.weights);
      }
      assert orders[..|orders|] == orders;
    }

    /** The closing loop: classify the touched ids, and touch every live pair of an id
        that stops being Blank. */
    method Reclassify(p: Params, nodes: set<TxID>, pairs: set<Pair>, collect: bool) returns (pairs': set<Pair>)
      requires nodes <= states.Keys
      modifies `states
      ensures states == old(states) + Reclassified(p, nodes, visibility)
      ensures pairs' == if collect then pairs + AwokenPairs(p, old(states), live, nodes, visibility) else pairs
    {
      hide AwokenPairs, Reclassified, Incident, Classify;
      pairs' := pairs;
      var rest := nodes;
      AwokenNone(p, states, live, visibility);
      assert nodes - rest == {};
      while rest != {}
        invariant rest <= nodes
        invariant states == old(states) + Reclassified(p, nodes - rest, visibility)
        invariant forall u :: u in rest ==> u in states && states[u] == old(states)[u]
        invariant pairs'
             == if collect then pairs + AwokenPairs(p, old(states), live, nodes - rest, visibility) else pairs
        decreases rest
      {
        var id :| id in rest;
        ReclassifiedStep(p, nodes - rest, id, visibility, old(states));
        AwokenStep(p, old(states), live, nodes - rest, id, visibility);
        AwokenOne(p, old(states), live, id, visibility);
        assert nodes - (rest - {id}) == nodes - rest + {id};
        var oldState, newState := states[id], Classify(p, Count(visibility, id));
        states := states[id := newState];
        if collect && oldState == Blank && newState != Blank {
          var incident := IncidentPairs(id, live);
          pairs' := pairs' + incident;
        }
        rest := rest - {id};
      }
      assert nodes - rest == nodes;
    }

    /** `applyEvidenceWithTouches`: a batch is taken exactly when it is acceptable, a
        refused one changes nothing, and an accepted one leaves what the position-only
        reference computes. The touched pairs, collected only for the order leader, are
        those whose weight changed and those of a newly active id. */
    method ApplyEvidence(cfg: Config, admission: Admission, orders: seq<LocalOrder>, epoch: nat, fragmentSeq: nat,
                         collect: bool)
      returns (ok: bool, nodes: set<TxID>, pairs: set<Pair>)
      requires cfg.params.Ok() && Valid(cfg.params, View())
      modifies this
      ensures ok <==> Accepts(cfg, old(View()), orders, epoch, fragmentSeq) && Available(admission, old(done), orders)
      ensures !ok ==> View() == old(View())
      ensures ok ==> View() == Ingest(cfg.params, old(View()), orders, epoch)
      ensures ok ==> nodes == FreshUpto(old(done), orders)
      ensures ok && collect ==> pairs == TouchedPairs(old(View()), View())
    {
      hide Accepts, Available, Valid, Sound, Counted, AdmitAll, FreshUpto, TouchedPairs, ChangedPairs, AwokenPairs,
        Reclassified, Ingest,
        Grown;
      ghost var s := View();
      nodes, pairs := {}, {};
      ok := CheckBatch(cfg, admission, View(), orders, epoch, fragmentSeq);
      if ok {
        IngestIs(cfg, s, orders, epoch);
        TouchedIs(cfg, s, orders, epoch);
        ValidParts(cfg.params, s);
        stateId := PreState(epoch, fragmentSeq, stateId, EvidenceHash(orders));
        this.epoch := epoch;
        nodes, pairs := IngestAll(cfg, s, orders, epoch, collect);
        pairs := Reclassify(cfg.params, nodes, pairs, collect);
        this.fragmentSeq := fragmentSeq;
      }
    }

    method RecordBatch(batch: FairnessBatch, gone: set<TxID>) returns (gone': set<TxID>)
      modifies `done
      ensures done == old(done) + RecordsOf(fragmentSeq, batch)
      ensures gone' == gone + Elems(batch.txs)
    {
      hide *;
      gone' := gone;
      ghost var done0 := done;
      BatchStarts(done0, fragmentSeq, batch, gone);
      for k := 0 to |batch.txs|
        invariant BatchUpto(done0, fragmentSeq, batch, gone, k, done, gone')
      {
        BatchStep(done0, fragmentSeq, batch, gone, k, done, gone');
        done := done[batch.txs[k] := DoneRecord(fragmentSeq, batch.index)];
        gone' := gone' + {batch.txs[k]};
      }
      BatchEnds(done0, fragmentSeq, batch, gone, done, gone');
    }

    method RecordAll(batches: seq<FairnessBatch>) returns (gone: set<TxID>)
      modifies `done, `batchCounter
      ensures done == old(done) + AllRecords(fragmentSeq, batches)
      ensures gone == Released(batches)
      ensures batchCounter == if batches == [] then old(batchCounter) else batches[|batches| - 1].index
    {
      hide *;
      gone := {};
      ghost var done0 := done;
      NothingRecorded(done0, fragmentSeq, batches);
      for k := 0 to |batches|
        invariant RecordedUpto(done0, fragmentSeq, batches, k, done, gone)
        invariant batchCounter == if k == 0 then old(batchCounter) else batches[k - 1].index
      {
        RecordsStep(done0, fragmentSeq, batches, k, done, gone);
        gone := RecordBatch(batches[k], gone);
        batchCounter := batches[k].index;
      }
      assert batches[..|batches|] == batches;
      AllRecorded(done0, fragmentSeq, batches, done, gone);
    }

    method Delete(gone: set<TxID>)
      modifies `live, `txRef, `visibility, `states, `pos, `weights
      ensures live == old(live) - gone && txRef == old(txRef) - gone
      ensures visibility == old(visibility) - gone && states == old(states) - gone
      ensures pos == Forget(old(pos), gone) && weights == ForgetWeights(old(weights), gone)
    {
      ForgetStep(pos, weights, {}, 0);
      var rest := gone;
      assert gone - rest == {};
      while rest != {}
        invariant rest <= gone
        invariant live == old(live) - (gone - rest) && txRef == old(txRef) - (gone - rest)
        invariant visibility == old(visibility) - (gone - rest) && states == old(states) - (gone - rest)
        invariant pos == Forget(old(pos), gone - rest)
        invariant weights == old(weights)
        decreases rest
      {
        hide Forget;
        var id :| id in rest;
        ForgetStep(old(pos), weights, gone - rest, id);
        assert gone - (rest - {id}) == gone - rest + {id};
        live, txRef, visibility, states := live - {id}, txRef - {id}, visibility - {id}, states - {id};
        pos := Forget(pos, {id});
        rest := rest - {id};
      }
      assert gone - rest == gone;
      weights := map e | e in weights && e.src !in gone && e.dst !in gone :: weights[e];
    }

    /** `finalize`, but for the leader's graph cache. */
    method Release(batches: seq<FairnessBatch>, part: seq<SCCClaim>) returns (gone: set<TxID>)
      modifies this
      ensures View() == Finalized(old(View()), batches, part)
      ensures gone == Released(batches)
    {
      hide Forget, ForgetWeights, AllRecords, Released;
      gone := RecordAll(batches);
      Delete(gone);
      doneRoot := DoneSet(done);
      stateId := PostStateId(epoch, fragmentSeq, stateId, batches, part);
    }
  }

  lemma ViewFields(e: EvidenceState)
    ensures e.View().fragmentSeq == e.fragmentSeq && e.View().batchCounter == e.batchCounter
    ensures e.View().stateId == e.stateId
    ensures e.View().logSeq == e.logSeq && e.View().logHead == e.logHead && e.View().done == e.done
    ensures e.View().epoch == e.epoch && e.View().live == e.live && e.View().txRef == e.txRef && e.View().pos == e.pos
    ensures e.View().doneRoot == e.doneRoot && e.View().states == e.states
    ensures e.View().visibility == e.visibility && e.View().weights == e.weights
  {
  }
}

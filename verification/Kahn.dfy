/** Kahn's algorithm with a minimum-identifier tie-break (pkg/ofo/dependency.go:712-750). */
module Kahn {
  import opened Types
  import opened Collections

  datatype SCCInfo = SCCInfo(txs: seq<TxID>, solid: bool)

  type Condensation = map<nat, seq<nat>>

  ghost predicate WellFormed(cond: Condensation, infos: map<nat, SCCInfo>) {
    && cond.Keys == infos.Keys
    && (forall c :: c in cond ==> Distinct(cond[c]) && Elems(cond[c]) <= infos.Keys)
    && (forall c :: c in infos ==> infos[c].txs != [])
    && (forall c, d :: c in infos && d in infos && c != d ==> infos[c].txs[0] != infos[d].txs[0])
  }

  /** The members of `s` with an edge to `c`. */
  ghost function Preds(cond: Condensation, s: set<nat>, c: nat): set<nat> {
    set p | p in s && p in cond && c in cond[p]
  }

  function Key(infos: map<nat, SCCInfo>, c: nat): TxID {
    if c in infos && infos[c].txs != [] then infos[c].txs[0] else 0
  }

  ghost predicate MayFollow(cond: Condensation, used: set<nat>, placed: set<nat>, c: nat) {
    c in used && c !in placed && Preds(cond, used - placed, c) == {}
  }

  ghost predicate Greedy(cond: Condensation, infos: map<nat, SCCInfo>, used: set<nat>, placed: set<nat>, c: nat) {
    && MayFollow(cond, used, placed, c)
    && (forall d :: MayFollow(cond, used, placed, d) && d != c ==> LessTxID(Key(infos, c), Key(infos, d)))
  }

  /** Each component is the least one whose predecessors are all placed, and the list
      stops only when none is left that may follow. */
  ghost predicate IsKahn(cond: Condensation, infos: map<nat, SCCInfo>, used: set<nat>, result: seq<nat>) {
    && (forall i :: 0 <= i < |result| ==> Greedy(cond, infos, used, Elems(result[..i]), result[i]))
    && (forall c :: !MayFollow(cond, used, Elems(result), c))
  }

  // ----- The indegree counters

  ghost predicate Degrees(cond: Condensation, used: set<nat>, left: set<nat>, indegree: map<nat, nat>) {
    forall c :: c in used ==> c in indegree && indegree[c] == |Preds(cond, left, c)|
  }

  lemma PredsGrow(cond: Condensation, s: set<nat>, p: nat, c: nat)
    requires p !in s && p in cond
    ensures |Preds(cond, s + {p}, c)| == |Preds(cond, s, c)| + (if c in cond[p] then 1 else 0)
  {
    assert Preds(cond, s + {p}, c) == Preds(cond, s, c) + (if c in cond[p] then {p} else {});
  }

  ghost function ReadySet(used: set<nat>, placed: set<nat>, indegree: map<nat, nat>): set<nat> {
    set c | c in used - placed && c in indegree && indegree[c] == 0
  }

  /** Counting one component's edges in. */
  method CountFrom(neighbors: seq<nat>, used: set<nat>, indegree: map<nat, nat>) returns (r: map<nat, nat>)
    requires Distinct(neighbors) && used <= indegree.Keys
    ensures r.Keys == indegree.Keys
    ensures forall c :: c in used ==> r[c] == indegree[c] + if c in neighbors then 1 else 0
  {
    r := indegree;
    for k := 0 to |neighbors|
      invariant r.Keys == indegree.Keys
      invariant forall c :: c in used ==> r[c] == indegree[c] + if c in neighbors[..k] then 1 else 0
    {
      var to := neighbors[k];
      SplitAt(neighbors, k);
      assert to !in neighbors[..k];
      assert forall c :: c in neighbors[..k + 1] <==> c in neighbors[..k] || c == to;
      if to in used {
        r := r[to := r[to] + 1];
      }
    }
    assert neighbors[..|neighbors|] == neighbors;
  }

  lemma DegreesStep(cond: Condensation, used: set<nat>, left: set<nat>, from: nat, before: map<nat, nat>,
                    after: map<nat, nat>)
    requires Degrees(cond, used, left, before) && from !in left && from in cond
    requires forall c :: c in used ==> c in after && after[c] == before[c] + if c in cond[from] then 1 else 0
    ensures Degrees(cond, used, left + {from}, after)
  {
    forall c | c in used ensures after[c] == |Preds(cond, left + {from}, c)| {
      PredsGrow(cond, left, from, c);
    }
  }

  lemma DegreesNone(cond: Condensation, used: set<nat>, indegree: map<nat, nat>)
    requires forall c :: c in used ==> c in indegree && indegree[c] == 0
    ensures Degrees(cond, used, {}, indegree)
  {
    assert forall c :: Preds(cond, {}, c) == {};
  }

  method CountAll(cond: Condensation, infos: map<nat, SCCInfo>, used: set<nat>) returns (indegree: map<nat, nat>)
    requires WellFormed(cond, infos) && used <= infos.Keys
    ensures used <= indegree.Keys && Degrees(cond, used, used, indegree)
  {
    hide *;
    indegree := map c | c in used :: 0;
    DegreesNone(cond, used, indegree);
    var rest := used;
    assert used - rest == {};
    while rest != {}
      invariant rest <= used <= indegree.Keys
      invariant Degrees(cond, used, used - rest, indegree)
      decreases rest
    {
      var from :| from in rest;
      ghost var before := indegree;
      AdjacencyOf(cond, infos, from);
      indegree := CountFrom(cond[from], used, indegree);
      DegreesStep(cond, used, used - rest, from, before, indegree);
      assert used - (rest - {from}) == used - rest + {from};
      rest := rest - {from};
    }
    assert used - rest == used;
  }

  lemma AdjacencyOf(cond: Condensation, infos: map<nat, SCCInfo>, c: nat)
    requires WellFormed(cond, infos) && c in infos.Keys
    ensures c in cond && Distinct(cond[c])
  {
  }

  // ----- The queue

  lemma NotQueued(ready: seq<nat>, more: seq<nat>, zeroed: set<nat>, c: nat)
    requires Elems(more) == Elems(ready) + zeroed && c !in ready && c !in zeroed
    ensures c !in more
  {
    assert c !in Elems(more);
  }

  /** Taking one component off: lower its successors, and queue those that reach zero. */
  method Lower(neighbors: seq<nat>, used: set<nat>, indegree: map<nat, nat>, ready: seq<nat>)
    returns (r: map<nat, nat>, ready': seq<nat>)
    requires Distinct(neighbors) && used <= indegree.Keys
    requires forall c :: c in neighbors && c in used ==> indegree[c] > 0 && c !in ready
    requires Distinct(ready)
    ensures r.Keys == indegree.Keys
    ensures forall c :: c in used ==> r[c] + (if c in neighbors then 1 else 0) == indegree[c]
    ensures Distinct(ready')
    ensures Elems(ready') == Elems(ready) + set c | c in neighbors && c in used && r[c] == 0
  {
    r, ready' := indegree, ready;
    ghost var met: set<nat> := {};
    ghost var zeroed: set<nat> := {};
    for k := 0 to |neighbors|
      invariant r.Keys == indegree.Keys
      invariant met == Elems(neighbors[..k])
      invariant forall c :: c in used ==> r[c] + (if c in met then 1 else 0) == indegree[c]
      invariant forall c :: c in zeroed <==> c in met && c in used && r[c] == 0
      invariant Distinct(ready') && Elems(ready') == Elems(ready) + zeroed
    {
      var to := neighbors[k];
      SplitAt(neighbors, k);
      hide Elems, Distinct;
      met := met + {to};
      if to in used {
        r := r[to := r[to] - 1];
        if r[to] == 0 {
          NotQueued(ready, ready', zeroed, to);
          DistinctSnoc(ready', to);
          ready' := ready' + [to];
          zeroed := zeroed + {to};
        }
      }
    }
    assert neighbors[..|neighbors|] == neighbors;
  }

  // ----- The main loop

  /** The counters and the queue after `placed` have been output. */
  ghost predicate Tracks(cond: Condensation, used: set<nat>, placed: set<nat>, indegree: map<nat, nat>,
                         ready: set<nat>) {
    && placed <= used <= indegree.Keys
    && Degrees(cond, used, used - placed, indegree)
    && (forall c :: c in placed ==> indegree[c] == 0)
    && ready == ReadySet(used, placed, indegree)
  }

  lemma ReadyMeansMayFollow(cond: Condensation, used: set<nat>, placed: set<nat>, indegree: map<nat, nat>,
                            ready: set<nat>, c: nat)
    requires Tracks(cond, used, placed, indegree, ready)
    ensures c in ready <==> MayFollow(cond, used, placed, c)
  {
  }

  lemma LoweredAreWaiting(cond: Condensation, used: set<nat>, placed: set<nat>, indegree: map<nat, nat>,
                          ready: set<nat>, from: nat, c: nat)
    requires Tracks(cond, used, placed, indegree, ready) && from in ready && from in cond
    requires c in cond[from] && c in used
    ensures indegree[c] > 0 && c !in ready
  {
    assert from in Preds(cond, used - placed, c);
  }

  lemma TracksStep(cond: Condensation, used: set<nat>, placed: set<nat>, indegree: map<nat, nat>, ready: set<nat>,
                   from: nat,
                   lowered: map<nat, nat>, ready': set<nat>)
    requires Tracks(cond, used, placed, indegree, ready) && from in ready && from in cond
    requires lowered.Keys == indegree.Keys
    requires forall c :: c in used ==> lowered[c] + (if c in cond[from] then 1 else 0) == indegree[c]
    requires ready' == ready - {from} + set c | c in cond[from] && c in used && lowered[c] == 0
    ensures Tracks(cond, used, placed + {from}, lowered, ready')
  {
    forall c | c in cond[from] && c in used ensures indegree[c] > 0 && c !in ready {
      LoweredAreWaiting(cond, used, placed, indegree, ready, from, c);
    }
    assert used - placed == used - (placed + {from}) + {from};
    forall c | c in used ensures lowered[c] == |Preds(cond, used - (placed + {from}), c)| {
      PredsGrow(cond, used - (placed + {from}), from, c);
    }
  }

  lemma HeadIsGreedy(cond: Condensation, infos: map<nat, SCCInfo>, used: set<nat>, placed: set<nat>, indegree: map<nat,
                     nat>,
                     ready: seq<nat>, key: nat -> TxID)
    requires Tracks(cond, used, placed, indegree, Elems(ready)) && ready != []
    requires (forall c :: key(c) == Key(infos, c)) && KeyAscending(ready, key)
    ensures Greedy(cond, infos, used, placed, ready[0])
  {
    ReadyMeansMayFollow(cond, used, placed, indegree, Elems(ready), ready[0]);
    forall d | MayFollow(cond, used, placed, d) && d != ready[0] ensures LessTxID(Key(infos, ready[0]), Key(infos, d)) {
      ReadyMeansMayFollow(cond, used, placed, indegree, Elems(ready), d);
      var j :| 0 <= j < |ready| && ready[j] == d;
      assert LessTxID(key(ready[0]), key(ready[j]));
    }
  }

  lemma KeysApart(cond: Condensation, infos: map<nat, SCCInfo>, s: set<nat>, key: nat -> TxID)
    requires WellFormed(cond, infos) && s <= infos.Keys && forall c :: key(c) == Key(infos, c)
    ensures KeysDiffer(s, key)
  {
  }

  lemma EmptyQueueDone(cond: Condensation, used: set<nat>, placed: set<nat>, indegree: map<nat, nat>, ready: set<nat>)
    requires Tracks(cond, used, placed, indegree, ready) && ready == {}
    ensures forall c :: !MayFollow(cond, used, placed, c)
  {
    forall c ensures !MayFollow(cond, used, placed, c) {
      ReadyMeansMayFollow(cond, used, placed, indegree, ready, c);
    }
  }

  ghost predicate GreedyUpto(cond: Condensation, infos: map<nat, SCCInfo>, used: set<nat>, result: seq<nat>) {
    forall i :: 0 <= i < |result| ==> Greedy(cond, infos, used, Elems(result[..i]), result[i])
  }

  lemma GreedySnoc(cond: Condensation, infos: map<nat, SCCInfo>, used: set<nat>, result: seq<nat>, c: nat,
                   result': seq<nat>)
    requires GreedyUpto(cond, infos, used, result) && Greedy(cond, infos, used, Elems(result), c)
    requires result' == result + [c]
    ensures GreedyUpto(cond, infos, used, result')
  {
    hide Greedy;
    forall i | 0 <= i < |result'| ensures Greedy(cond, infos, used, Elems(result'[..i]), result'[i]) {
      assert result'[..i] == result[..i];
      if i == |result| {
        assert result[..i] == result;
      }
    }
  }

  method TakeFirst(cond: Condensation, infos: map<nat, SCCInfo>, used: set<nat>, ghost placed: set<nat>,
                   indegree: map<nat, nat>, ready: seq<nat>)
    returns (indegree': map<nat, nat>, ready': seq<nat>)
    requires WellFormed(cond, infos) && used <= infos.Keys && ready != [] && Distinct(ready)
    requires Tracks(cond, used, placed, indegree, Elems(ready))
    ensures Distinct(ready') && Tracks(cond, used, placed + {ready[0]}, indegree', Elems(ready'))
  {
    var from := ready[0];
    SplitAt(ready, 0);
    DistinctSuffix(ready, 1);
    forall c | c in cond[from] && c in used ensures indegree[c] > 0 && c !in ready[1..] {
      LoweredAreWaiting(cond, used, placed, indegree, Elems(ready), from, c);
      assert c !in Elems(ready);
    }
    indegree', ready' := Lower(cond[from], used, indegree, ready[1..]);
    TracksStep(cond, used, placed, indegree, Elems(ready), from, indegree', Elems(ready'));
  }

  /** `topoSortCondensation`; a nil `included` is all of `infos`. The result does not
      depend on the order in which maps and adjacency lists are read. */
  method TopoSort(cond: Condensation, infos: map<nat, SCCInfo>, used: set<nat>) returns (result: seq<nat>)
    requires WellFormed(cond, infos) && used <= infos.Keys
    ensures Distinct(result) && Elems(result) <= used
    ensures IsKahn(cond, infos, used, result)
  {
    var key := (c: nat) => Key(infos, c);
    var indegree := CountAll(cond, infos, used);
    var ready := AnyOrder(set c | c in used && indegree[c] == 0);
    TracksNone(cond, used, indegree, Elems(ready));
    KeysApart(cond, infos, Elems(ready), key);
    ready := SortBy(ready, key);
    AscendingKeysDistinct(ready, key);
    result := [];
    ghost var placed: set<nat> := {};
    while |ready| > 0
      invariant Distinct(result) && Elems(result) == placed && placed <= used
      invariant GreedyUpto(cond, infos, used, result)
      invariant Distinct(ready) && KeyAscending(ready, key) && Tracks(cond, used, placed, indegree, Elems(ready))
      decreases used - placed
    {
      hide Tracks, GreedyUpto, Greedy, Distinct, KeyAscending, Elems, WellFormed;
      var from := ready[0];
      HeadIsGreedy(cond, infos, used, placed, indegree, ready, key);
      HeadIsNew(cond, used, placed, indegree, ready);
      GreedySnoc(cond, infos, used, result, from, result + [from]);
      InElems(result);
      DistinctSnoc(result, from);
      indegree, ready := TakeFirst(cond, infos, used, placed, indegree, ready);
      result, placed := result + [from], placed + {from};
      TrackedInfos(cond, infos, used, placed, indegree, ready);
      KeysApart(cond, infos, Elems(ready), key);
      ready := SortBy(ready, key);
      AscendingKeysDistinct(ready, key);
    }
    EmptyQueueDone(cond, used, placed, indegree, Elems(ready));
  }

  lemma TracksNone(cond: Condensation, used: set<nat>, indegree: map<nat, nat>, ready: set<nat>)
    requires used <= indegree.Keys && Degrees(cond, used, used, indegree)
    requires ready == set c | c in used && indegree[c] == 0
    ensures Tracks(cond, used, {}, indegree, ready)
  {
    assert used - {} == used;
  }

  lemma AscendingKeysDistinct<T>(s: seq<T>, key: T -> TxID)
    requires KeyAscending(s, key)
    ensures Distinct(s)
  {
    DistinctIf(s);
  }

  lemma HeadIsNew(cond: Condensation, used: set<nat>, placed: set<nat>, indegree: map<nat, nat>, ready: seq<nat>)
    requires Tracks(cond, used, placed, indegree, Elems(ready)) && ready != []
    ensures ready[0] in used && ready[0] !in placed
  {
    assert ready[0] in Elems(ready);
  }

  lemma TrackedInfos(cond: Condensation, infos: map<nat, SCCInfo>, used: set<nat>, placed: set<nat>, indegree: map<nat,
                     nat>, ready: seq<nat>)
    requires Tracks(cond, used, placed, indegree, Elems(ready)) && used <= infos.Keys
    ensures Elems(ready) <= infos.Keys && placed <= used
  {
  }

  // ----- What the order is

  lemma {:induction false} KahnAgreeUpto(cond: Condensation, infos: map<nat, SCCInfo>, used: set<nat>, a: seq<nat>,
                                         b: seq<nat>, i: nat)
    requires IsKahn(cond, infos, used, a) && IsKahn(cond, infos, used, b) && i <= |a|
    ensures i <= |b| && a[..i] == b[..i]
  {
    if i > 0 {
      var m := i - 1;
      KahnAgreeUpto(cond, infos, used, a, b, m);
      var placed := Elems(a[..m]);
      assert Greedy(cond, infos, used, placed, a[m]);
      hide MayFollow;
      assert b[..|b|] == b;
      assert Greedy(cond, infos, used, placed, b[m]);
      assert a[m] == b[m];
      assert a[..i] == a[..m] + [a[m]] && b[..i] == b[..m] + [b[m]];
    }
  }

  /** There is one such order, whatever the adjacency order and the map iteration. */
  lemma KahnUnique(cond: Condensation, infos: map<nat, SCCInfo>, used: set<nat>, a: seq<nat>, b: seq<nat>)
    requires IsKahn(cond, infos, used, a) && IsKahn(cond, infos, used, b)
    ensures a == b
  {
    KahnAgreeUpto(cond, infos, used, a, b, |a|);
    KahnAgreeUpto(cond, infos, used, b, a, |b|);
    assert a[..|a|] == a && b[..|a|] == b;
  }

  /** Only which successors a component has matters, not the order they are listed in. */
  lemma KahnOrderFree(a: Condensation, b: Condensation, infos: map<nat, SCCInfo>, used: set<nat>, result: seq<nat>)
    requires a.Keys == b.Keys && forall c :: c in a ==> Elems(a[c]) == Elems(b[c])
    requires IsKahn(a, infos, used, result)
    ensures IsKahn(b, infos, used, result)
  {
    forall s, c ensures Preds(a, s, c) == Preds(b, s, c) {
      forall p | p in s && p in a ensures c in a[p] <==> c in b[p] {
        assert c in Elems(a[p]) <==> c in Elems(b[p]);
      }
    }
    hide Preds, Elems;
    forall placed, c ensures MayFollow(a, used, placed, c) <==> MayFollow(b, used, placed, c) {
    }
    hide MayFollow;
    forall i | 0 <= i < |result| ensures Greedy(b, infos, used, Elems(result[..i]), result[i]) {
      assert Greedy(a, infos, used, Elems(result[..i]), result[i]);
    }
  }

  ghost predicate Increases(cond: Condensation, used: set<nat>, rank: nat -> int) {
    forall p, c :: p in used && c in used && p in cond && c in cond[p] ==> rank(p) < rank(c)
  }

  lemma {:induction false} LowestRank(s: set<nat>, rank: nat -> int) returns (m: nat)
    requires s != {}
    ensures m in s && forall c :: c in s ==> rank(m) <= rank(c)
    decreases |s|
  {
    m :| m in s;
    if s != {m} {
      var l := LowestRank(s - {m}, rank);
      if rank(l) < rank(m) {
        m := l;
      }
      assert s == (s - {m}) + {m};
    }
  }

  /** Over an acyclic condensation nothing is left over. */
  lemma KahnCovers(cond: Condensation, infos: map<nat, SCCInfo>, used: set<nat>, result: seq<nat>, rank: nat -> int)
    requires IsKahn(cond, infos, used, result) && Elems(result) <= used && Increases(cond, used, rank)
    ensures Elems(result) == used
  {
    var left := used - Elems(result);
    if left != {} {
      var m := LowestRank(left, rank);
      assert Preds(cond, left, m) == {};
      assert MayFollow(cond, used, Elems(result), m);
    }
    assert used == left + Elems(result);
  }

  /** Predecessors come first. */
  lemma KahnTopological(cond: Condensation, infos: map<nat, SCCInfo>, used: set<nat>, result: seq<nat>, i: nat, p: nat)
    requires IsKahn(cond, infos, used, result) && i < |result|
    requires p in used && p in cond && result[i] in cond[p]
    ensures p in result[..i]
  {
    var placed := Elems(result[..i]);
    assert Greedy(cond, infos, used, placed, result[i]);
    assert p !in Preds(cond, used - placed, result[i]);
  }
}

/**
  The verifier's condensation: the cross edges of a claimed partition, and why Kahn's
  order of the claims being 0, 1, 2, ... is the min-first order of the batches.
 */
module CrossEdges {
  import opened Types
  import opened Collections
  import opened FairOrder
  import opened EvidenceSpec
  import opened CertificateSpec
  import opened Kahn

  /** `comp` sends every vertex of the batches to the position of its batch. */
  ghost predicate Numbers(comp: map<TxID, nat>, batches: seq<seq<TxID>>) {
    forall u, k :: u in comp && comp[u] == k <==> 0 <= k < |batches| && u in batches[k]
  }

  ghost predicate Ranked(comp: map<TxID, nat>, edges: set<Edge>) {
    forall e :: e in edges && e.src in comp && e.dst in comp ==> comp[e.src] <= comp[e.dst]
  }

  ghost predicate Crosses(comp: map<TxID, nat>, edges: set<Edge>, a: nat, b: nat) {
    exists e :: e in edges && e.src in comp && e.dst in comp && comp[e.src] == a && comp[e.dst] == b && a != b
  }

  function Succs(cond: Condensation, a: nat): seq<nat> {
    if a in cond then cond[a] else []
  }

  /** The condensation holds each cross pair once. */
  ghost predicate Condenses(cond: Condensation, comp: map<TxID, nat>, edges: set<Edge>) {
    && (forall a :: Distinct(Succs(cond, a)))
    && (forall a, b :: b in Succs(cond, a) <==> Crosses(comp, edges, a, b))
  }

  ghost function Identity(n: nat): (r: seq<nat>)
    ensures |r| == n && forall i :: 0 <= i < n ==> r[i] == i
  {
    seq(n, i requires 0 <= i => i)
  }

  ghost predicate ClaimInfos(infos: map<nat, SCCInfo>, batches: seq<seq<TxID>>) {
    && (forall k :: k in infos <==> 0 <= k < |batches|)
    && (forall k :: 0 <= k < |batches| ==> infos[k].txs == batches[k])
  }

  ghost predicate Setting(cond: Condensation, infos: map<nat, SCCInfo>, comp: map<TxID, nat>, edges: set<Edge>,
                          batches: seq<seq<TxID>>) {
    && Nonempty(batches) && Disjoint(batches)
    && Numbers(comp, batches) && ClaimInfos(infos, batches)
    && (forall e :: e in edges ==> e.src in comp && e.dst in comp)
    && Ranked(comp, edges) && Condenses(cond, comp, edges) && cond.Keys == infos.Keys
  }

  lemma NumberInRange(comp: map<TxID, nat>, batches: seq<seq<TxID>>, u: TxID)
    requires Numbers(comp, batches) && u in comp
    ensures comp[u] < |batches| && u in batches[comp[u]]
  {
  }

  lemma CondenseWellFormed(cond: Condensation, infos: map<nat, SCCInfo>, comp: map<TxID, nat>, edges: set<Edge>,
                           batches: seq<seq<TxID>>)
    requires Nonempty(batches) && Disjoint(batches) && Numbers(comp, batches) && ClaimInfos(infos, batches)
    requires Condenses(cond, comp, edges) && cond.Keys == infos.Keys
    ensures WellFormed(cond, infos)
  {
    forall a, b | a in cond && b in cond[a] ensures b in infos {
      assert b in Succs(cond, a);
      assert Crosses(comp, edges, a, b);
      var e :| e in edges && e.src in comp && e.dst in comp && comp[e.dst] == b;
      NumberInRange(comp, batches, e.dst);
    }
    forall a | a in cond ensures Distinct(cond[a]) {
      assert Distinct(Succs(cond, a));
    }
    forall c, d | c in infos && d in infos && c != d ensures infos[c].txs[0] != infos[d].txs[0] {
      assert batches[c][0] in batches[c] && batches[d][0] in batches[d];
    }
  }

  lemma SettingWellFormed(cond: Condensation, infos: map<nat, SCCInfo>, comp: map<TxID, nat>, edges: set<Edge>,
                          batches: seq<seq<TxID>>)
    requires Setting(cond, infos, comp, edges, batches)
    ensures WellFormed(cond, infos)
  {
    CondenseWellFormed(cond, infos, comp, edges, batches);
  }

  lemma UptoNumbers(comp: map<TxID, nat>, batches: seq<seq<TxID>>, i: nat, u: TxID)
    requires Numbers(comp, batches) && i <= |batches|
    ensures u in Upto(batches, i) <==> u in comp && comp[u] < i
  {
    if u in comp && comp[u] < i {
      assert u in batches[comp[u]];
    }
  }

  lemma IdentityPrefix(n: nat, i: nat, c: nat)
    requires i <= n
    ensures c in Elems(Identity(n)[..i]) <==> c < i
  {
    if c < i {
      assert Identity(n)[..i][c] == c;
    }
  }

  lemma NoLatePred(cond: Condensation, infos: map<nat, SCCInfo>, comp: map<TxID, nat>, edges: set<Edge>,
                   batches: seq<seq<TxID>>, i: nat, k: nat, p: nat)
    requires Setting(cond, infos, comp, edges, batches) && i <= k < |batches| && i <= p
    requires Ready(edges, batches[k], Upto(batches, i))
    ensures k !in Succs(cond, p)
  {
    forall u ensures u in Upto(batches, i) <==> u in comp && comp[u] < i {
      UptoNumbers(comp, batches, i, u);
    }
  }

  /** A later batch is ready after the first i exactly when Kahn may place it there. */
  lemma ReadyIsMayFollow(cond: Condensation, infos: map<nat, SCCInfo>, comp: map<TxID, nat>, edges: set<Edge>,
                         batches: seq<seq<TxID>>, i: nat, k: nat)
    requires Setting(cond, infos, comp, edges, batches) && i <= k < |batches|
    ensures Ready(edges, batches[k], Upto(batches, i))
       <==> MayFollow(cond, infos.Keys, Elems(Identity(|batches|)[..i]), k)
  {
    var placed := Elems(Identity(|batches|)[..i]);
    forall c: nat ensures c in placed <==> c < i {
      IdentityPrefix(|batches|, i, c);
    }
    hide Identity, Elems;
    if Ready(edges, batches[k], Upto(batches, i)) {
      forall p | p in infos.Keys - placed ensures k !in Succs(cond, p) {
        NoLatePred(cond, infos, comp, edges, batches, i, k, p);
      }
      assert Preds(cond, infos.Keys - placed, k) == {};
    }
    if MayFollow(cond, infos.Keys, placed, k) {
      forall e | e in edges && e.dst in batches[k] && e.src !in batches[k] ensures e.src in Upto(batches, i) {
        var p := comp[e.src];
        assert comp[e.dst] == k;
        assert Crosses(comp, edges, p, k);
        assert k in Succs(cond, p);
        assert e.src in batches[p];
        assert p !in Preds(cond, infos.Keys - placed, k);
        UptoNumbers(comp, batches, i, e.src);
      }
    }
  }

  lemma KeyOfClaim(infos: map<nat, SCCInfo>, batches: seq<seq<TxID>>, k: nat)
    requires ClaimInfos(infos, batches) && Nonempty(batches) && k < |batches|
    ensures Key(infos, k) == batches[k][0]
  {
  }

  /** Ranks that grow along edges make every batch ready in its turn. */
  lemma RankedReady(comp: map<TxID, nat>, edges: set<Edge>, batches: seq<seq<TxID>>, i: nat)
    requires Numbers(comp, batches) && Ranked(comp, edges) && i < |batches|
    requires forall e :: e in edges ==> e.src in comp && e.dst in comp
    ensures Ready(edges, batches[i], Upto(batches, i))
  {
    forall e | e in edges && e.dst in batches[i] && e.src !in batches[i] ensures e.src in Upto(batches, i) {
      NumberInRange(comp, batches, e.src);
      UptoNumbers(comp, batches, i, e.src);
    }
  }

  lemma IdentityIsKahn(cond: Condensation, infos: map<nat, SCCInfo>, comp: map<TxID, nat>, edges: set<Edge>,
                       batches: seq<seq<TxID>>)
    requires Setting(cond, infos, comp, edges, batches) && MinFirst(edges, batches)
    ensures IsKahn(cond, infos, infos.Keys, Identity(|batches|))
  {
    var n := |batches|;
    var all := Identity(n);
    forall i | 0 <= i < n ensures Greedy(cond, infos, infos.Keys, Elems(all[..i]), all[i]) {
      ReadyIsMayFollow(cond, infos, comp, edges, batches, i, i);
      forall d | MayFollow(cond, infos.Keys, Elems(all[..i]), d) && d != i
        ensures LessTxID(Key(infos, i), Key(infos, d))
      {
        IdentityPrefix(n, i, d);
        ReadyIsMayFollow(cond, infos, comp, edges, batches, i, d);
        KeyOfClaim(infos, batches, i);
        KeyOfClaim(infos, batches, d);
      }
    }
    assert all[..n] == all;
    forall c ensures !MayFollow(cond, infos.Keys, Elems(all), c) {
      IdentityPrefix(n, n, c);
    }
  }

  lemma KahnIdentityIsMinFirst(cond: Condensation, infos: map<nat, SCCInfo>, comp: map<TxID, nat>, edges: set<Edge>,
                               batches: seq<seq<TxID>>)
    requires Setting(cond, infos, comp, edges, batches)
    requires IsKahn(cond, infos, infos.Keys, Identity(|batches|))
    ensures MinFirst(edges, batches)
  {
    var n := |batches|;
    forall i | 0 <= i < n ensures Ready(edges, batches[i], Upto(batches, i)) {
      RankedReady(comp, edges, batches, i);
    }
    forall i, k | 0 <= i < k < n && Ready(edges, batches[k], Upto(batches, i))
      ensures LessTxID(batches[i][0], batches[k][0])
    {
      ReadyIsMayFollow(cond, infos, comp, edges, batches, i, k);
      assert Greedy(cond, infos, infos.Keys, Elems(Identity(n)[..i]), Identity(n)[i]);
      KeyOfClaim(infos, batches, i);
      KeyOfClaim(infos, batches, k);
    }
  }

  /** The verifier's test: Kahn's order of the claims is the identity exactly when the
      batches are in min-first order. */
  lemma KahnTest(cond: Condensation, infos: map<nat, SCCInfo>, comp: map<TxID, nat>, edges: set<Edge>,
                 batches: seq<seq<TxID>>, ordered: seq<nat>)
    requires Setting(cond, infos, comp, edges, batches)
    requires IsKahn(cond, infos, infos.Keys, ordered) && Distinct(ordered) && Elems(ordered) <= infos.Keys
    ensures (forall k :: 0 <= k < |ordered| ==> ordered[k] == k) <==> MinFirst(edges, batches)
  {
    var n := |batches|;
    SettingIncreases(cond, infos, comp, edges, batches);
    KahnCovers(cond, infos, infos.Keys, ordered, c => c);
    DistinctCard(ordered);
    KeysCount(infos, batches);
    hide Setting, IsKahn, MinFirst;
    if MinFirst(edges, batches) {
      IdentityIsKahn(cond, infos, comp, edges, batches);
      KahnUnique(cond, infos, infos.Keys, ordered, Identity(n));
    }
    if forall k :: 0 <= k < |ordered| ==> ordered[k] == k {
      assert ordered == Identity(n);
      KahnIdentityIsMinFirst(cond, infos, comp, edges, batches);
    }
  }

  lemma KeysCount(infos: map<nat, SCCInfo>, batches: seq<seq<TxID>>)
    requires ClaimInfos(infos, batches)
    ensures |infos.Keys| == |batches|
  {
    assert infos.Keys == Replicas(|batches|);
  }

  lemma SettingIncreases(cond: Condensation, infos: map<nat, SCCInfo>, comp: map<TxID, nat>, edges: set<Edge>,
                         batches: seq<seq<TxID>>)
    requires Setting(cond, infos, comp, edges, batches)
    ensures Increases(cond, infos.Keys, c => c)
  {
    forall p, c | p in infos && c in infos && p in cond && c in cond[p] ensures p < c {
      assert c in Succs(cond, p);
      assert Crosses(comp, edges, p, c);
    }
  }

  /** Ranks that fall somewhere already break the min-first order. */
  lemma MinFirstRanked(comp: map<TxID, nat>, edges: set<Edge>, batches: seq<seq<TxID>>)
    requires Numbers(comp, batches) && Nonempty(batches) && MinFirst(edges, batches)
    ensures Ranked(comp, edges)
  {
    forall e | e in edges && e.src in comp && e.dst in comp ensures comp[e.src] <= comp[e.dst] {
      var i := comp[e.dst];
      NumberInRange(comp, batches, e.dst);
      assert Ready(edges, batches[i], Upto(batches, i));
      UptoNumbers(comp, batches, i, e.src);
    }
  }

  // ----- Entering the cross pairs one by one

  /** The cross pairs already entered. */
  ghost predicate Seen(cond: Condensation, seen: set<(nat, nat)>) {
    forall a: nat, b: nat :: (a, b) in seen <==> b in Succs(cond, a)
  }

  /** A cross pair that is already there, or is no cross pair, changes nothing. */
  lemma CondensesSame(cond: Condensation, comp: map<TxID, nat>, edges: set<Edge>, e: Edge)
    requires Condenses(cond, comp, edges) && e.src in comp && e.dst in comp
    requires comp[e.src] == comp[e.dst] || comp[e.dst] in Succs(cond, comp[e.src])
    ensures Condenses(cond, comp, edges + {e})
  {
    forall a, b ensures Crosses(comp, edges + {e}, a, b) <==> Crosses(comp, edges, a, b) {
    }
  }

  lemma CondensesNew(cond: Condensation, comp: map<TxID, nat>, edges: set<Edge>, e: Edge, grown: seq<nat>)
    requires Condenses(cond, comp, edges) && e.src in comp && e.dst in comp
    requires comp[e.src] != comp[e.dst] && comp[e.dst] !in Succs(cond, comp[e.src])
    requires grown == Succs(cond, comp[e.src]) + [comp[e.dst]]
    ensures Condenses(cond[comp[e.src] := grown], comp, edges + {e})
  {
    var x, y := comp[e.src], comp[e.dst];
    var cond' := cond[x := grown];
    DistinctSnoc(Succs(cond, x), y);
    forall a: nat ensures Distinct(Succs(cond', a)) {
      assert Distinct(Succs(cond, a));
    }
    forall a: nat, b: nat ensures b in Succs(cond', a) <==> Crosses(comp, edges + {e}, a, b) {
      CrossesStep(comp, edges, e, a, b);
      assert b in Succs(cond, a) <==> Crosses(comp, edges, a, b);
    }
  }

  lemma CrossesStep(comp: map<TxID, nat>, edges: set<Edge>, e: Edge, a: nat, b: nat)
    requires e.src in comp && e.dst in comp
    ensures Crosses(comp, edges + {e}, a, b)
       <==> Crosses(comp, edges, a, b) || (a != b && a == comp[e.src] && b == comp[e.dst])
  {
    if a != b && a == comp[e.src] && b == comp[e.dst] {
      assert e in edges + {e};
    }
  }
}

/** `verifyStructuralCertificate` (pkg/ofo/dependency.go:752-868). */
module Verifier {
  import opened Types
  import opened Collections
  import opened Graphs
  import opened FairOrder
  import opened EvidenceSpec
  import opened CertificateSpec
  import opened Kahn
  import opened CrossEdges
  import opened TreeVerifier
  import opened ForestVerifier

  // ----- The proposed batches

  ghost predicate BatchOk(solid: set<TxID>, txs: seq<TxID>) {
    Ascending(txs) && Elems(txs) <= solid
  }

  lemma AscendingSnoc(txs: seq<TxID>, k: nat)
    requires k < |txs| && Ascending(txs[..k]) && (k > 0 ==> LessTxID(txs[k - 1], txs[k]))
    ensures Ascending(txs[..k + 1])
  {
    var shorter, longer := txs[..k], txs[..k + 1];
    forall i, j | 0 <= i < j < |longer| ensures LessTxID(longer[i], longer[j]) {
      if j < k {
        assert LessTxID(shorter[i], shorter[j]);
      } else if i < k - 1 {
        assert LessTxID(shorter[i], shorter[k - 1]);
      }
    }
  }

  lemma AscendingFails(txs: seq<TxID>, k: nat)
    requires k < |txs| && (txs[k] in txs[..k] || (k > 0 && !LessTxID(txs[k - 1], txs[k])))
    ensures !Ascending(txs)
  {
  }

  method CheckBatch(p: Params, s: Evidence, active: set<TxID>, txs: seq<TxID>, included: set<TxID>)
    returns (ok: bool, included': set<TxID>)
    requires Valid(p, s) && active == Active(s)
    ensures ok <==> BatchOk(GraphOf(p, s).solid, txs) && Elems(txs) !! included
    ensures ok ==> included' == included + Elems(txs)
  {
    hide Counted, Classified, VisibilityOf, WeightsOf, AllLogs;
    included' := included;
    ghost var solid := GraphOf(p, s).solid;
    for k := 0 to |txs|
      invariant Ascending(txs[..k]) && Elems(txs[..k]) <= solid && Elems(txs[..k]) !! included
      invariant included' == included + Elems(txs[..k])
    {
      var id := txs[k];
      assert id in Elems(txs);
      ElemsGrow(txs, k);
      if id in included' {
        if id in txs[..k] {
          AscendingFails(txs, k);
        }
        return false, included';
      }
      if id in s.done || id !in active || StateOf(s, id) != Solid {
        return false, included';
      }
      if k > 0 && !LessTxID(txs[k - 1], id) {
        AscendingFails(txs, k);
        return false, included';
      }
      AscendingSnoc(txs, k);
      included' := included' + {id};
    }
    assert txs[..|txs|] == txs;
    return true, included';
  }

  lemma UptoSnoc(batches: seq<seq<TxID>>, k: nat)
    requires k < |batches|
    ensures Upto(batches, k + 1) == Upto(batches, k) + Elems(batches[k])
  {
  }

  ghost predicate DisjointUpto(batches: seq<seq<TxID>>, k: nat)
    requires k <= |batches|
  {
    forall i, j, v :: 0 <= i < j < k && v in batches[i] ==> v !in batches[j]
  }

  lemma DisjointSnoc(batches: seq<seq<TxID>>, k: nat)
    requires k < |batches|
    ensures DisjointUpto(batches, k + 1) <==> DisjointUpto(batches, k) && Elems(batches[k]) !! Upto(batches, k)
  {
    if DisjointUpto(batches, k) && Elems(batches[k]) !! Upto(batches, k) {
      forall i, v | 0 <= i < k && v in batches[i] ensures v !in batches[k] {
        assert v in Upto(batches, k);
      }
    }
  }

  lemma DisjointMono(batches: seq<seq<TxID>>, k: nat)
    requires k <= |batches| && Disjoint(batches)
    ensures DisjointUpto(batches, k)
  {
  }

  ghost predicate CheckedUpto(g: ActiveGraph, counter: nat, batches: seq<FairnessBatch>, k: nat)
    requires k <= |batches|
  {
    && (forall j :: 0 <= j < k ==> batches[j].index == counter + j + 1)
    && (forall j :: 0 <= j < k ==> BatchOk(g.solid, batches[j].txs))
  }

  lemma NothingChecked(g: ActiveGraph, counter: nat, batches: seq<FairnessBatch>)
    ensures CheckedUpto(g, counter, batches, 0) && DisjointUpto(TxsOf(batches), 0) && Upto(TxsOf(batches), 0) == {}
  {
  }

  /** One more batch passes, or the whole proposal does not. */
  lemma CheckedSnoc(g: ActiveGraph, counter: nat, batches: seq<FairnessBatch>, k: nat)
    requires k < |batches| && CheckedUpto(g, counter, batches, k) && DisjointUpto(TxsOf(batches), k)
    ensures batches[k].index == counter + k + 1 && BatchOk(g.solid, batches[k].txs) ==>
      CheckedUpto(g, counter, batches, k + 1)
    ensures BatchesOk(g, counter, batches) ==>
      && batches[k].index == counter + k + 1 && BatchOk(g.solid, batches[k].txs)
      && Elems(batches[k].txs) !! Upto(TxsOf(batches), k)
  {
    if BatchesOk(g, counter, batches) {
      DisjointMono(TxsOf(batches), k + 1);
      DisjointSnoc(TxsOf(batches), k);
    }
  }

  lemma CheckedAll(g: ActiveGraph, counter: nat, batches: seq<FairnessBatch>)
    requires CheckedUpto(g, counter, batches, |batches|) && DisjointUpto(TxsOf(batches), |batches|)
    ensures BatchesOk(g, counter, batches) && IncludedIn(batches) == Upto(TxsOf(batches), |batches|)
  {
  }

  method CheckBatches(p: Params, s: Evidence, active: set<TxID>, batches: seq<FairnessBatch>)
    returns (ok: bool, included: set<TxID>)
    requires Valid(p, s) && active == Active(s)
    ensures ok <==> BatchesOk(GraphOf(p, s), s.batchCounter, batches)
    ensures ok ==> included == IncludedIn(batches)
  {
    hide Valid, GraphOf, Active, Upto, DisjointUpto, CheckedUpto, BatchOk, BatchesOk, IncludedIn;
    included := {};
    ghost var g, txs := GraphOf(p, s), TxsOf(batches);
    NothingChecked(g, s.batchCounter, batches);
    for k := 0 to |batches|
      invariant CheckedUpto(g, s.batchCounter, batches, k) && DisjointUpto(txs, k) && included == Upto(txs, k)
    {
      CheckedSnoc(g, s.batchCounter, batches, k);
      UptoSnoc(txs, k);
      DisjointSnoc(txs, k);
      if batches[k].index != s.batchCounter + k + 1 {
        return false, included;
      }
      var fits;
      fits, included := CheckBatch(p, s, active, batches[k].txs, included);
      if !fits {
        return false, included;
      }
    }
    CheckedAll(g, s.batchCounter, batches);
    return true, included;
  }

  // ----- The claimed partition

  ghost predicate ClaimsApart(batches: seq<FairnessBatch>) {
    && Disjoint(TxsOf(batches))
    && (forall k :: 0 <= k < |batches| ==> Distinct(batches[k].txs))
  }

  /** Only the first `k` batches are numbered. */
  ghost predicate NumbersUpto(comp: map<TxID, nat>, batches: seq<FairnessBatch>, k: nat)
    requires k <= |batches|
  {
    && (forall u :: u in comp ==> comp[u] < k && u in batches[comp[u]].txs)
    && (forall j, u :: 0 <= j < k && u in batches[j].txs ==> u in comp && comp[u] == j)
  }

  method NumberClaim(txs: seq<TxID>, index: nat, comp: map<TxID, nat>) returns (ok: bool, comp': map<TxID, nat>)
    ensures ok <==> Distinct(txs) && Elems(txs) !! comp.Keys
    ensures ok ==> comp'.Keys == comp.Keys + Elems(txs)
    ensures ok ==> forall u :: u in comp' ==> comp'[u] == if u in comp then comp[u] else index
  {
    comp' := comp;
    EmptyElems<TxID>();
    for k := 0 to |txs|
      invariant Distinct(txs[..k]) && Elems(txs[..k]) !! comp.Keys
      invariant comp'.Keys == comp.Keys + Elems(txs[..k])
      invariant forall u :: u in comp' ==> comp'[u] == if u in comp then comp[u] else index
    {
      hide *;
      OneMore(txs, k);
      if txs[k] in comp' {
        return false, comp';
      }
      comp' := comp'[txs[k] := index];
    }
    assert txs[..|txs|] == txs;
    return true, comp';
  }

  lemma NumbersSnoc(comp: map<TxID, nat>, comp': map<TxID, nat>, batches: seq<FairnessBatch>, k: nat)
    requires k < |batches| && NumbersUpto(comp, batches, k) && Elems(batches[k].txs) !! comp.Keys
    requires comp'.Keys == comp.Keys + Elems(batches[k].txs)
    requires forall u :: u in comp' ==> comp'[u] == if u in comp then comp[u] else k
    ensures NumbersUpto(comp', batches, k + 1)
  {
  }

  lemma NumbersClash(comp: map<TxID, nat>, batches: seq<FairnessBatch>, k: nat)
    requires k < |batches| && NumbersUpto(comp, batches, k) && !(Elems(batches[k].txs) !! comp.Keys)
    ensures !Disjoint(TxsOf(batches))
  {
    var u :| u in batches[k].txs && u in comp;
    assert u in TxsOf(batches)[comp[u]] && u in TxsOf(batches)[k];
  }

  lemma NumbersAll(comp: map<TxID, nat>, batches: seq<FairnessBatch>)
    requires NumbersUpto(comp, batches, |batches|)
    ensures Numbers(comp, TxsOf(batches)) && Disjoint(TxsOf(batches)) && comp.Keys == IncludedIn(batches)
  {
    var txs := TxsOf(batches);
    forall i, j, v | 0 <= i < j < |txs| && v in txs[i] ensures v !in txs[j] {
      assert v in batches[i].txs && comp[v] == i;
    }
    forall u | u in comp ensures u in IncludedIn(batches) {
      assert u in txs[comp[u]];
    }
  }

  ghost predicate ClaimFits(edges: set<Edge>, batch: FairnessBatch, claim: SCCClaim, k: nat) {
    claim.rank == k && claim.txs == batch.txs && claim.txs != [] && ClaimOk(edges, claim)
  }

  lemma NoClaimFits(g: ActiveGraph, batches: seq<FairnessBatch>, part: seq<SCCClaim>, k: nat)
    requires k < |batches| == |part| && !ClaimFits(g.edges, batches[k], part[k], k)
    ensures !(PartOk(g, batches, part) && Nonempty(TxsOf(batches)))
  {
    assert TxsOf(batches)[k] == batches[k].txs;
  }

  lemma AllClaimsFit(g: ActiveGraph, batches: seq<FairnessBatch>, part: seq<SCCClaim>)
    requires |batches| == |part| && forall j :: 0 <= j < |part| ==> ClaimFits(g.edges, batches[j], part[j], j)
    ensures PartOk(g, batches, part) && Nonempty(TxsOf(batches))
  {
  }

  lemma ClaimClash(comp: map<TxID, nat>, batches: seq<FairnessBatch>, k: nat)
    requires k < |batches| && NumbersUpto(comp, batches, k)
    requires !(Distinct(batches[k].txs) && Elems(batches[k].txs) !! comp.Keys)
    ensures !ClaimsApart(batches)
  {
    if Distinct(batches[k].txs) {
      NumbersClash(comp, batches, k);
    }
  }

  /** Matches the claims against the batches, numbers their members and verifies the
      trees; with `included` taken from the batches, the last two conjuncts hold anyway. */
  method CheckPartition(p: Params, s: Evidence, batches: seq<FairnessBatch>, part: seq<SCCClaim>, included: set<TxID>)
    returns (ok: bool, comp: map<TxID, nat>)
    requires forall k :: 0 <= k < |batches| ==> Elems(batches[k].txs) <= Active(s)
    ensures ok <==> PartOk(GraphOf(p, s), batches, part) && Nonempty(TxsOf(batches))
                    && ClaimsApart(batches) && |IncludedIn(batches)| == |included|
    ensures ok ==> Numbers(comp, TxsOf(batches)) && comp.Keys == IncludedIn(batches)
  {
    hide GraphOf, Active, ClaimOk, NumbersUpto, Distinct, Elems, Disjoint, ClaimFits, Nonempty, TxsOf, IncludedIn,
      Numbers;
    ghost var g, edges := GraphOf(p, s), GraphOf(p, s).edges;
    comp := map[];
    if |part| != |batches| {
      return false, comp;
    }
    NumbersNone(batches);
    for k := 0 to |part|
      invariant forall j :: 0 <= j < k ==> ClaimFits(edges, batches[j], part[j], j)
      invariant forall j :: 0 <= j < k ==> Distinct(batches[j].txs)
      invariant NumbersUpto(comp, batches, k)
    {
      hide PartOk, ClaimsApart;
      var claim := part[k];
      FitsIs(edges, batches[k], claim, k);
      if claim.rank != k || claim.txs != batches[k].txs || |claim.txs| == 0 {
        NoClaimFits(g, batches, part, k);
        return false, comp;
      }
      var apart, comp' := NumberClaim(claim.txs, k, comp);
      if !apart {
        ClaimClash(comp, batches, k);
        return false, comp;
      }
      NumbersSnoc(comp, comp', batches, k);
      comp := comp';
      var connected := VerifyClaimedTrees(p, s, claim, p.EdgeThreshold());
      if !connected {
        NoClaimFits(g, batches, part, k);
        return false, comp;
      }
    }
    AllClaimsFit(g, batches, part);
    NumbersAll(comp, batches);
    assert |comp| == |comp.Keys|;
    return |comp| == |included|, comp;
  }

  lemma FitsIs(edges: set<Edge>, batch: FairnessBatch, claim: SCCClaim, k: nat)
    ensures ClaimFits(edges, batch, claim, k)
       <==> claim.rank == k && claim.txs == batch.txs && claim.txs != [] && ClaimOk(edges, claim)
  {
  }

  lemma NumbersNone(batches: seq<FairnessBatch>)
    ensures NumbersUpto(map[], batches, 0)
  {
  }

  // ----- The cross edges

  /** One direction at most for a pair, and no loop. */
  ghost predicate Oriented(edges: set<Edge>) {
    forall e :: e in edges ==> e.src != e.dst && Edge(e.dst, e.src) !in edges
  }

  lemma GraphOriented(p: Params, s: Evidence)
    ensures Oriented(GraphOf(p, s).edges)
  {
  }

  function SelectedEdge(s: Evidence, u: TxID, v: TxID, threshold: int): Option<Edge> {
    if LocalEdgePred(s, u, v, threshold) then Some(Edge(u, v))
    else if LocalEdgePred(s, v, u, threshold) then Some(Edge(v, u))
    else None
  }

  lemma SelectedIs(p: Params, s: Evidence, u: TxID, v: TxID)
    requires u in Active(s) && v in Active(s)
    ensures forall e ::
      e in GraphOf(p, s).edges && Joins(e, u, v) <==> SelectedEdge(s, u, v, p.EdgeThreshold()) == Some(e)
  {
    GraphOriented(p, s);
    LocalIsEdge(p, s, u, v);
    LocalIsEdge(p, s, v, u);
  }

  /** The edges that touch one of the first `i` ids. */
  ghost function Rows(edges: set<Edge>, ids: seq<TxID>, i: nat): set<Edge>
    requires i <= |ids|
  {
    set e | e in edges && (e.src in ids[..i] || e.dst in ids[..i])
  }

  /** Those, and the edges of `ids[i]` with the ids between it and `ids[j]`. */
  ghost function Scanned(edges: set<Edge>, ids: seq<TxID>, i: nat, j: nat): set<Edge>
    requires i < j <= |ids|
  {
    set e | e in edges && (e in Rows(edges, ids, i) || exists k :: i < k < j && Joins(e, ids[i], ids[k]))
  }

  lemma ScannedStep(edges: set<Edge>, ids: seq<TxID>, i: nat, j: nat, found: Option<Edge>)
    requires i < j < |ids|
    requires forall e :: e in edges && Joins(e, ids[i], ids[j]) <==> found == Some(e)
    ensures found.None? ==> Scanned(edges, ids, i, j + 1) == Scanned(edges, ids, i, j)
    ensures found.Some? ==>
      Scanned(edges, ids, i, j + 1) == Scanned(edges, ids, i, j) + {found.value} && found.value in edges
  {
  }

  lemma RowBegins(edges: set<Edge>, ids: seq<TxID>, i: nat)
    requires i < |ids|
    ensures Scanned(edges, ids, i, i + 1) == Rows(edges, ids, i)
  {
  }

  lemma RowEnds(edges: set<Edge>, ids: seq<TxID>, i: nat)
    requires Oriented(edges) && i < |ids|
    requires forall e :: e in edges ==> e.src in ids && e.dst in ids
    ensures Scanned(edges, ids, i, |ids|) == Rows(edges, ids, i + 1)
  {
    assert ids[..i + 1] == ids[..i] + [ids[i]];
    forall e | e in Rows(edges, ids, i + 1) ensures e in Scanned(edges, ids, i, |ids|) {
      if e !in Rows(edges, ids, i) {
        var other := if e.src == ids[i] then e.dst else e.src;
        assert ids == ids[..i] + ids[i..];
        var k :| 0 <= k < |ids[i..]| && ids[i..][k] == other;
        assert Joins(e, ids[i], ids[i + k]);
      }
    }
  }

  lemma RowsAll(edges: set<Edge>, ids: seq<TxID>)
    requires forall e :: e in edges ==> e.src in ids && e.dst in ids
    ensures Rows(edges, ids, 0) == {} && Rows(edges, ids, |ids|) == edges
  {
    assert ids[..|ids|] == ids;
  }

  lemma WithinOriented(p: Params, s: Evidence, kept: set<TxID>)
    ensures Oriented(Within(GraphOf(p, s).edges, kept))
  {
    GraphOriented(p, s);
  }

  lemma SelectedWithin(p: Params, s: Evidence, kept: set<TxID>, u: TxID, v: TxID)
    requires kept <= Active(s) && u in kept && v in kept
    ensures forall e :: e in Within(GraphOf(p, s).edges, kept) && Joins(e, u, v)
                   <==> SelectedEdge(s, u, v, p.EdgeThreshold()) == Some(e)
  {
    SelectedIs(p, s, u, v);
    forall e | Joins(e, u, v) ensures e.src in kept && e.dst in kept {
    }
  }

  lemma NothingSelected(comp: map<TxID, nat>)
    ensures Ranked(comp, {}) && Condenses(map[], comp, {}) && Entered(map[], {})
  {
    assert forall a: nat :: Succs(map[], a) == [];
  }

  lemma RankedStep(comp: map<TxID, nat>, edges: set<Edge>, e: Edge)
    requires Ranked(comp, edges) && e.src in comp && e.dst in comp && comp[e.src] <= comp[e.dst]
    ensures Ranked(comp, edges + {e})
  {
  }

  ghost predicate NoneEmpty(cond: Condensation) {
    forall a :: a in cond ==> cond[a] != []
  }

  /** `seenCross` holds the pairs already entered. */
  ghost predicate Entered(cond: Condensation, seen: set<(nat, nat)>) {
    NoneEmpty(cond) && Seen(cond, seen)
  }

  method AddCross(comp: map<TxID, nat>, ghost edges: set<Edge>, e: Edge, cond: Condensation, seen: set<(nat, nat)>)
    returns (ok: bool, cond': Condensation, seen': set<(nat, nat)>)
    requires Ranked(comp, edges) && Condenses(cond, comp, edges) && Entered(cond, seen)
    requires e.src in comp && e.dst in comp
    ensures ok <==> comp[e.src] <= comp[e.dst]
    ensures ok ==> Ranked(comp, edges + {e}) && Condenses(cond', comp, edges + {e}) && Entered(cond', seen')
  {
    ok, cond', seen' := true, cond, seen;
    var from, to := comp[e.src], comp[e.dst];
    if from <= to {
      RankedStep(comp, edges, e);
    }
    if from == to {
      CondensesSame(cond, comp, edges, e);
      return;
    }
    if from >= to {
      return false, cond, seen;
    }
    if (from, to) !in seen {
      var grown := Succs(cond, from) + [to];
      CondensesNew(cond, comp, edges, e, grown);
      seen' := seen + {(from, to)};
      cond' := cond[from := grown];
    } else {
      CondensesSame(cond, comp, edges, e);
    }
  }

  method ScanPairs(p: Params, s: Evidence, ids: seq<TxID>, comp: map<TxID, nat>, ghost edges: set<Edge>)
    returns (ok: bool, cond: Condensation)
    requires Elems(ids) == comp.Keys && comp.Keys <= Active(s)
    requires edges == Within(GraphOf(p, s).edges, comp.Keys)
    ensures ok <==> Ranked(comp, edges)
    ensures ok ==> Condenses(cond, comp, edges) && NoneEmpty(cond)
  {
    cond := map[];
    var seen: set<(nat, nat)> := {};
    WithinOriented(p, s, comp.Keys);
    InsideIds(ids, comp, edges);
    RowsAll(edges, ids);
    NothingSelected(comp);
    for i := 0 to |ids|
      invariant Ranked(comp, Rows(edges, ids, i)) && Condenses(cond, comp, Rows(edges, ids, i)) && Entered(cond, seen)
    {
      hide Ranked, Condenses, Rows, Scanned, Entered;
      RowBegins(edges, ids, i);
      ok, cond, seen := ScanRow(p, s, ids, i, comp, edges, cond, seen);
      if !ok {
        return false, cond;
      }
      RowEnds(edges, ids, i);
    }
    return true, cond;
  }

  lemma InsideIds(ids: seq<TxID>, comp: map<TxID, nat>, edges: set<Edge>)
    requires Elems(ids) == comp.Keys && forall e :: e in edges ==> e.src in comp && e.dst in comp
    ensures forall e :: e in edges ==> e.src in ids && e.dst in ids
  {
    forall e | e in edges ensures e.src in ids && e.dst in ids {
      assert e.src in Elems(ids) && e.dst in Elems(ids);
    }
  }

  method ScanRow(p: Params, s: Evidence, ids: seq<TxID>, i: nat, comp: map<TxID, nat>, ghost edges: set<Edge>,
                 cond0: Condensation, seen0: set<(nat, nat)>)
    returns (ok: bool, cond: Condensation, seen: set<(nat, nat)>)
    requires i < |ids| && Elems(ids) == comp.Keys && comp.Keys <= Active(s)
    requires edges == Within(GraphOf(p, s).edges, comp.Keys)
    requires var row := Scanned(edges, ids, i, i + 1);
      Ranked(comp, row) && Condenses(cond0, comp, row) && Entered(cond0, seen0)
    ensures !ok ==> !Ranked(comp, edges)
    ensures ok ==> var row := Scanned(edges, ids, i, |ids|);
      Ranked(comp, row) && Condenses(cond, comp, row) && Entered(cond, seen)
  {
    hide *;
    var threshold := p.EdgeThreshold();
    cond, seen := cond0, seen0;
    var j := i + 1;
    while j < |ids|
      invariant i + 1 <= j <= |ids|
      invariant Ranked(comp, Scanned(edges, ids, i, j)) && Condenses(cond, comp, Scanned(edges, ids, i, j))
      invariant Entered(cond, seen)
    {
      AtIndex(ids, i);
      AtIndex(ids, j);
      var found := SelectedEdge(s, ids[i], ids[j], threshold);
      SelectedWithin(p, s, comp.Keys, ids[i], ids[j]);
      ScannedStep(edges, ids, i, j, found);
      if found.Some? {
        FoundInside(p, s, comp, edges, found.value);
        ok, cond, seen := AddCross(comp, Scanned(edges, ids, i, j), found.value, cond, seen);
        if !ok {
          NotRanked(comp, edges, found.value);
          return false, cond, seen;
        }
      }
      j := j + 1;
    }
    return true, cond, seen;
  }

  lemma FoundInside(p: Params, s: Evidence, comp: map<TxID, nat>, edges: set<Edge>, e: Edge)
    requires edges == Within(GraphOf(p, s).edges, comp.Keys) && e in edges
    ensures e.src in comp && e.dst in comp
  {
  }

  lemma NotRanked(comp: map<TxID, nat>, edges: set<Edge>, e: Edge)
    requires e in edges && e.src in comp && e.dst in comp && comp[e.src] > comp[e.dst]
    ensures !Ranked(comp, edges)
  {
  }

  /** Every position gets an adjacency entry. */
  method FillIn(cond: Condensation, n: nat) returns (filled: Condensation)
    ensures forall a :: a in filled <==> a in cond || 0 <= a < n
    ensures forall a :: Succs(filled, a) == Succs(cond, a)
  {
    filled := cond;
    for index := 0 to n
      invariant forall a :: a in filled <==> a in cond || 0 <= a < index
      invariant forall a :: Succs(filled, a) == Succs(cond, a)
    {
      if index !in filled {
        filled := filled[index := []];
      }
    }
  }

  lemma KeysInRange(cond: Condensation, comp: map<TxID, nat>, edges: set<Edge>, batches: seq<seq<TxID>>, n: nat)
    requires Condenses(cond, comp, edges) && Numbers(comp, batches) && n == |batches|
    requires NoneEmpty(cond)
    ensures forall a :: a in cond ==> a < n
  {
    forall a | a in cond ensures a < n {
      assert cond[a][0] in Succs(cond, a);
      var e :| e in edges && e.src in comp && comp[e.src] == a;
      NumberInRange(comp, batches, e.src);
    }
  }

  method ClaimTable(part: seq<SCCClaim>, ghost batches: seq<seq<TxID>>) returns (infos: map<nat, SCCInfo>)
    requires |part| == |batches| && forall k :: 0 <= k < |part| ==> part[k].txs == batches[k]
    ensures ClaimInfos(infos, batches)
  {
    infos := map[];
    for index := 0 to |part|
      invariant forall k :: k in infos <==> 0 <= k < index
      invariant forall k :: 0 <= k < index ==> infos[k].txs == batches[k]
    {
      infos := infos[index := SCCInfo(part[index].txs, true)];
    }
  }

  lemma FilledCondenses(cond: Condensation, filled: Condensation, comp: map<TxID, nat>, edges: set<Edge>)
    requires Condenses(cond, comp, edges) && forall a :: Succs(filled, a) == Succs(cond, a)
    ensures Condenses(filled, comp, edges)
  {
    forall a ensures Distinct(Succs(filled, a)) {
      assert Distinct(Succs(cond, a));
    }
    forall a: nat, b: nat ensures b in Succs(filled, a) <==> Crosses(comp, edges, a, b) {
      assert b in Succs(cond, a) <==> Crosses(comp, edges, a, b);
    }
  }

  /** The condensation of the claims, and whether Kahn's order of it is 0, 1, 2, ... */
  method CheckOrder(p: Params, s: Evidence, part: seq<SCCClaim>, comp: map<TxID, nat>, included: set<TxID>,
                    ghost batches: seq<seq<TxID>>)
    returns (ok: bool)
    requires Nonempty(batches) && Disjoint(batches) && Numbers(comp, batches)
    requires comp.Keys == included && included <= Active(s)
    requires |part| == |batches| && forall k :: 0 <= k < |part| ==> part[k].txs == batches[k]
    ensures ok <==> MinFirst(Within(GraphOf(p, s).edges, included), batches)
  {
    hide *;
    ghost var edges := Within(GraphOf(p, s).edges, included);
    var ids := SortedSet(included);
    var cond;
    ok, cond := ScanPairs(p, s, ids, comp, edges);
    if !ok {
      UnrankedNotMinFirst(comp, edges, batches);
      return false;
    }
    KeysInRange(cond, comp, edges, batches, |part|);
    var filled := FillIn(cond, |part|);
    FilledCondenses(cond, filled, comp, edges);
    var infos := ClaimTable(part, batches);
    InSetting(filled, infos, comp, edges, batches, p, s);
    SettingWellFormed(filled, infos, comp, edges, batches);
    var ordered := TopoSort(filled, infos, infos.Keys);
    KahnTest(filled, infos, comp, edges, batches, ordered);
    ok := AreRanks(ordered);
  }

  lemma UnrankedNotMinFirst(comp: map<TxID, nat>, edges: set<Edge>, batches: seq<seq<TxID>>)
    requires Numbers(comp, batches) && Nonempty(batches) && !Ranked(comp, edges)
    ensures !MinFirst(edges, batches)
  {
    if MinFirst(edges, batches) {
      MinFirstRanked(comp, edges, batches);
    }
  }

  lemma InSetting(cond: Condensation, infos: map<nat, SCCInfo>, comp: map<TxID, nat>, edges: set<Edge>,
                  batches: seq<seq<TxID>>, p: Params, s: Evidence)
    requires Nonempty(batches) && Disjoint(batches) && Numbers(comp, batches) && ClaimInfos(infos, batches)
    requires edges == Within(GraphOf(p, s).edges, comp.Keys) && Ranked(comp, edges) && Condenses(cond, comp, edges)
    requires forall a: nat :: a in cond <==> a < |batches|
    ensures Setting(cond, infos, comp, edges, batches)
  {
    hide Distinct, Crosses, Disjoint, Succs;
    assert cond.Keys == infos.Keys;
  }

  method AreRanks(ordered: seq<nat>) returns (ok: bool)
    ensures ok <==> forall k :: 0 <= k < |ordered| ==> ordered[k] == k
  {
    for rank := 0 to |ordered|
      invariant forall k :: 0 <= k < rank ==> ordered[k] == k
    {
      if ordered[rank] != rank {
        return false;
      }
    }
    return true;
  }

  // ----- The frontier

  ghost predicate NoEdgeFrom(edges: set<Edge>, outside: TxID, inside: set<TxID>) {
    forall v :: v in inside ==> Edge(outside, v) !in edges
  }

  method CheckFrontierOf(p: Params, s: Evidence, included: set<TxID>, outside: TxID) returns (ok: bool)
    requires included <= Active(s) && outside in Active(s)
    ensures ok <==> NoEdgeFrom(GraphOf(p, s).edges, outside, included)
  {
    hide GraphOf, Active;
    var rest := included;
    while rest != {}
      invariant rest <= included
      invariant NoEdgeFrom(GraphOf(p, s).edges, outside, included - rest)
      decreases rest
    {
      var inside :| inside in rest;
      InActive(s, included, inside);
      LocalIsEdge(p, s, outside, inside);
      if LocalEdgePred(s, outside, inside, p.EdgeThreshold()) {
        return false;
      }
      rest := rest - {inside};
    }
    assert included - rest == included;
    return true;
  }

  method CheckFrontier(p: Params, s: Evidence, active: set<TxID>, included: set<TxID>) returns (ok: bool)
    requires active == Active(s) && included <= active
    ensures ok <==> PredClosed(GraphOf(p, s).edges, included)
  {
    ghost var edges := GraphOf(p, s).edges;
    var rest := active - included;
    while rest != {}
      invariant rest <= active - included
      invariant forall u :: u in active - included - rest ==> NoEdgeFrom(edges, u, included)
      decreases rest
    {
      hide GraphOf, Active, NoEdgeFrom;
      var outside :| outside in rest;
      var closed := CheckFrontierOf(p, s, included, outside);
      if !closed {
        NotClosed(edges, included, outside);
        return false;
      }
      rest := rest - {outside};
    }
    forall e | e in edges && e.dst in included ensures e.src in included {
      EdgeFrom(edges, e, included);
    }
    return true;
  }

  lemma EdgeFrom(edges: set<Edge>, e: Edge, included: set<TxID>)
    requires e in edges && e.dst in included
    ensures !NoEdgeFrom(edges, e.src, included)
  {
  }

  lemma NotClosed(edges: set<Edge>, included: set<TxID>, outside: TxID)
    requires outside !in included && !NoEdgeFrom(edges, outside, included)
    ensures !PredClosed(edges, included)
  {
  }

  // ----- The verifier

  /** Without an order or without a certificate nothing is certified. */
  ghost predicate Certifies(p: Params, s: Evidence, finalOrder: Option<seq<FairnessBatch>>,
                            certificate: Option<Certificate>) {
    && finalOrder.Some? && certificate.Some?
    && CertOk(GraphOf(p, s), s.batchCounter, finalOrder.value, certificate.value)
  }

  lemma BatchesActive(p: Params, s: Evidence, batches: seq<FairnessBatch>)
    requires BatchesOk(GraphOf(p, s), s.batchCounter, batches)
    ensures forall k :: 0 <= k < |batches| ==> Elems(batches[k].txs) <= Active(s)
    ensures IncludedIn(batches) <= Active(s)
    ensures ClaimsApart(batches)
  {
    IncludedSolid(GraphOf(p, s), s.batchCounter, batches);
    forall k | 0 <= k < |batches| ensures Distinct(batches[k].txs) {
      AscendingDistinct(batches[k].txs);
    }
  }

  /** Accepts exactly the certificates of `CertOk`, which are sound for the fair order;
      it looks at no component and no closure. */
  method VerifyStructuralCertificate(p: Params, s: Evidence, finalOrder: Option<seq<FairnessBatch>>,
                                     certificate: Option<Certificate>)
    returns (ok: bool)
    requires Valid(p, s)
    ensures ok <==> Certifies(p, s, finalOrder, certificate)
  {
    if finalOrder.None? || certificate.None? {
      return false;
    }
    hide Valid, GraphOf, Active, BatchesOk, PartOk, Nonempty, MinFirst, PredClosed, ForestOk, ClaimsApart, IncludedIn,
      Numbers;
    var batches, cert := finalOrder.value, certificate.value;
    var active := ActiveOf(s);
    var included;
    ok, included := CheckBatches(p, s, active, batches);
    if !ok {
      return false;
    }
    BatchesActive(p, s, batches);
    var comp;
    ok, comp := CheckPartition(p, s, batches, cert.part, included);
    if !ok {
      return false;
    }
    PartitionApart(GraphOf(p, s), batches, cert.part);
    ok := CheckOrder(p, s, cert.part, comp, included, TxsOf(batches));
    if !ok {
      return false;
    }
    ok := CheckFrontier(p, s, active, included);
    if !ok {
      return false;
    }
    ok := VerifyBlockForest(p, s, active, included, cert.forest, p.EdgeThreshold()) by { ValidClassified(p, s); }
  }

  function ActiveOf(s: Evidence): (r: set<TxID>)
    ensures r == Active(s)
  {
    set u | u in s.states && u in s.live && s.states[u] != Blank
  }

  lemma ValidClassified(p: Params, s: Evidence)
    requires Valid(p, s)
    ensures Classified(p, s)
  {
  }

  lemma PartitionApart(g: ActiveGraph, batches: seq<FairnessBatch>, part: seq<SCCClaim>)
    requires PartOk(g, batches, part) && ClaimsApart(batches)
    ensures Disjoint(TxsOf(batches)) && |part| == |TxsOf(batches)|
    ensures forall k :: 0 <= k < |part| ==> part[k].txs == TxsOf(batches)[k]
  {
  }

  /** Verifier soundness, end to end: what it accepts is the fair order of the active
      graph of the evidence state. */
  lemma AcceptedIsFair(p: Params, s: Evidence, finalOrder: Option<seq<FairnessBatch>>, certificate: Option<Certificate>)
    requires Certifies(p, s, finalOrder, certificate)
    ensures IsFairOrder(GraphOf(p, s), TxsOf(finalOrder.value))
  {
    CertSound(GraphOf(p, s), s.batchCounter, finalOrder.value, certificate.value);
  }
}

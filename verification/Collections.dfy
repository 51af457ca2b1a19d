/** Finite-set counting and the identifier sort (`SortTxIDs`, `sortedSet`). */
module Collections {
  import opened Types

  ghost function Elems<T>(s: seq<T>): set<T> {
    set x | x in s
  }

  function Min(a: nat, b: nat): nat {
    if a < b then a else b
  }

  function SetOf<T(==)>(s: seq<T>): (r: set<T>)
    ensures r == Elems(s)
  {
    set v | v in s
  }

  /** No element occurs twice; `DistinctAt` and `DistinctIf` are the index form. */
  ghost predicate Distinct<T>(s: seq<T>) {
    s == [] || (s[|s| - 1] !in s[..|s| - 1] && Distinct(s[..|s| - 1]))
  }

  lemma {:induction false} DistinctAt<T>(s: seq<T>, i: nat, j: nat)
    requires Distinct(s) && i < j < |s|
    ensures s[i] != s[j]
    decreases |s|
  {
    if j < |s| - 1 {
      DistinctAt(s[..|s| - 1], i, j);
    }
  }

  lemma SamePlace<T>(s: seq<T>, i: nat, j: nat)
    requires Distinct(s) && i < |s| && j < |s| && s[i] == s[j]
    ensures i == j
  {
    if i < j {
      DistinctAt(s, i, j);
    } else if j < i {
      DistinctAt(s, j, i);
    }
  }

  lemma {:induction false} DistinctIf<T>(s: seq<T>)
    requires forall i, j :: 0 <= i < j < |s| ==> s[i] != s[j]
    ensures Distinct(s)
  {
    if s != [] {
      DistinctIf(s[..|s| - 1]);
    }
  }

  lemma DistinctSnoc<T>(s: seq<T>, x: T)
    requires Distinct(s) && x !in s
    ensures Distinct(s + [x])
    ensures Elems(s + [x]) == Elems(s) + {x}
  {
    assert (s + [x])[..|s|] == s;
  }

  lemma {:induction false} DistinctPrefix<T>(s: seq<T>, k: nat)
    requires Distinct(s) && k <= |s|
    ensures Distinct(s[..k])
    ensures k < |s| ==> s[k] !in s[..k]
    decreases |s|
  {
    if k < |s| {
      DistinctPrefix(s[..|s| - 1], k);
      assert s[..|s| - 1][..k] == s[..k];
      if k < |s| - 1 {
        assert s[..|s| - 1][k] == s[k];
      }
    } else {
      assert s[..k] == s;
    }
  }

  predicate Ascending(s: seq<TxID>) {
    forall i, j :: 0 <= i < j < |s| ==> LessTxID(s[i], s[j])
  }

  lemma {:induction false} SubsetCard<T>(a: set<T>, b: set<T>)
    requires a <= b
    ensures |a| <= |b|
    ensures |a| == |b| ==> a == b
  {
    assert b == a + (b - a);
    assert |b| == |a| + |b - a|;
  }

  lemma DistinctSuffix<T>(s: seq<T>, k: nat)
    requires Distinct(s) && k <= |s|
    ensures Distinct(s[k..])
    ensures Elems(s[..k]) !! Elems(s[k..])
  {
    forall i, j | 0 <= i < j < |s| ensures s[i] != s[j] {
      DistinctAt(s, i, j);
    }
    DistinctIf(s[k..]);
  }

  lemma AtIndex<T>(s: seq<T>, i: nat)
    requires i < |s|
    ensures s[i] in Elems(s)
  {
  }

  lemma ElemOf<T>(s: seq<T>, x: T)
    requires x in s
    ensures x in Elems(s)
  {
  }

  lemma InElems<T>(s: seq<T>)
    ensures forall x :: x in s <==> x in Elems(s)
  {
  }

  lemma EmptyElems<T>()
    ensures Elems<T>([]) == {}
  {
  }

  lemma ElemsSplit<T>(s: seq<T>, k: nat)
    requires k <= |s|
    ensures Elems(s) == Elems(s[..k]) + Elems(s[k..])
  {
    assert s == s[..k] + s[k..];
  }

  lemma ElemsGrow<T>(s: seq<T>, k: nat)
    requires k < |s|
    ensures Elems(s[..k + 1]) == Elems(s[..k]) + {s[k]}
  {
    assert s[..k + 1] == s[..k] + [s[k]];
  }

  lemma SplitAt<T>(s: seq<T>, k: nat)
    requires Distinct(s) && k < |s|
    ensures Elems(s) == Elems(s[..k]) + {s[k]} + Elems(s[k + 1..])
    ensures s[k] !in Elems(s[..k]) && s[k] !in Elems(s[k + 1..]) && Elems(s[..k]) !! Elems(s[k + 1..])
    ensures Elems(s[..k + 1]) == Elems(s[..k]) + {s[k]}
    ensures Distinct(s[k + 1..])
  {
    DistinctPrefix(s, k);
    DistinctSuffix(s, k + 1);
    ElemsSplit(s, k + 1);
    ElemsGrow(s, k);
  }

  lemma OneMore<T>(s: seq<T>, k: nat)
    requires k < |s| && Distinct(s[..k])
    ensures Elems(s[..k + 1]) == Elems(s[..k]) + {s[k]} && s[k] in Elems(s)
    ensures if s[k] in Elems(s[..k]) then !Distinct(s) else Distinct(s[..k + 1])
  {
    ElemsGrow(s, k);
    if s[k] in s[..k] {
      if Distinct(s) {
        DistinctPrefix(s, k);
      }
    } else {
      DistinctSnoc(s[..k], s[k]);
      assert s[..k + 1] == s[..k] + [s[k]];
    }
  }

  lemma {:induction false} DistinctCard<T>(s: seq<T>)
    ensures |Elems(s)| <= |s|
    ensures |Elems(s)| == |s| <==> Distinct(s)
  {
    if s == [] {
      assert Elems(s) == {};
    } else {
      var rest, last := s[..|s| - 1], s[|s| - 1];
      DistinctCard(rest);
      assert Elems(s) == Elems(rest) + {last};
    }
  }

  lemma ElemsConcat<T>(a: seq<T>, b: seq<T>)
    ensures Elems(a + b) == Elems(a) + Elems(b)
  {
  }

  /** An identifier set has one ascending listing. */
  lemma {:induction false} AscendingUnique(a: seq<TxID>, b: seq<TxID>)
    requires Ascending(a) && Ascending(b) && Elems(a) == Elems(b)
    ensures a == b
    decreases |a|
  {
    AscendingDistinct(a);
    AscendingDistinct(b);
    DistinctCard(a);
    DistinctCard(b);
    if a != [] {
      var la, lb := a[|a| - 1], b[|b| - 1];
      assert la in Elems(a) && lb in Elems(b);
      assert la in b && lb in a;
      var ra, rb := a[..|a| - 1], b[..|b| - 1];
      assert Elems(ra) == Elems(a) - {la} by {
        assert la !in ra;
        assert forall x :: x in a ==> x in ra || x == la;
      }
      assert Elems(rb) == Elems(b) - {lb} by {
        assert lb !in rb;
        assert forall x :: x in b ==> x in rb || x == lb;
      }
      AscendingUnique(ra, rb);
      assert a == ra + [la] && b == rb + [lb];
    }
  }

  lemma AscendingDistinct(a: seq<TxID>)
    requires Ascending(a)
    ensures Distinct(a)
  {
    DistinctIf(a);
  }

  ghost predicate KeyAscending<T>(s: seq<T>, key: T -> TxID) {
    forall i, j :: 0 <= i < j < |s| ==> LessTxID(key(s[i]), key(s[j]))
  }

  ghost predicate KeysDiffer<T>(s: set<T>, key: T -> TxID) {
    forall x, y :: x in s && y in s && x != y ==> key(x) != key(y)
  }

  /** `sort.Slice` by an identifier key, written out as insertion sort. */
  method SortBy<T(==)>(xs: seq<T>, key: T -> TxID) returns (sorted: seq<T>)
    requires Distinct(xs) && KeysDiffer(Elems(xs), key)
    ensures KeyAscending(sorted, key) && Elems(sorted) == Elems(xs) && |sorted| == |xs|
  {
    sorted := [];
    for i := 0 to |xs|
      invariant KeyAscending(sorted, key) && Elems(sorted) == Elems(xs[..i]) && |sorted| == i
    {
      SplitAt(xs, i);
      ElemsSplit(xs, i);
      assert KeysDiffer(Elems(sorted) + {xs[i]}, key);
      sorted := InsertBy(sorted, xs[i], key);
    }
    assert xs[..|xs|] == xs;
  }

  method InsertBy<T(==)>(sorted: seq<T>, x: T, key: T -> TxID) returns (r: seq<T>)
    requires KeyAscending(sorted, key) && x !in Elems(sorted) && KeysDiffer(Elems(sorted) + {x}, key)
    ensures KeyAscending(r, key) && Elems(r) == Elems(sorted) + {x} && |r| == |sorted| + 1
  {
    var k := 0;
    while k < |sorted| && LessTxID(key(sorted[k]), key(x))
      invariant 0 <= k <= |sorted|
      invariant forall i :: 0 <= i < k ==> LessTxID(key(sorted[i]), key(x))
    {
      k := k + 1;
    }
    forall i | k <= i < |sorted| ensures LessTxID(key(x), key(sorted[i])) {
      assert sorted[k] in Elems(sorted);
      assert i > k ==> LessTxID(key(sorted[k]), key(sorted[i]));
    }
    r := sorted[..k] + [x] + sorted[k..];
    assert sorted == sorted[..k] + sorted[k..];
  }

  ghost predicate InOrder(s: seq<TxID>) {
    forall i, j :: 0 <= i < j < |s| ==> !LessTxID(s[j], s[i])
  }

  /** `SortTxIDs`: a reordering in which nothing precedes a smaller id; without repetitions
      it is the ascending listing. */
  method SortTxIDs(ids: seq<TxID>) returns (sorted: seq<TxID>)
    ensures InOrder(sorted) && multiset(sorted) == multiset(ids)
    ensures Elems(sorted) == Elems(ids) && |sorted| == |ids|
    ensures Distinct(ids) ==> Ascending(sorted)
  {
    sorted := [];
    for i := 0 to |ids|
      invariant InOrder(sorted) && multiset(sorted) == multiset(ids[..i])
    {
      assert ids[..i + 1] == ids[..i] + [ids[i]];
      sorted := InsertID(sorted, ids[i]);
    }
    assert ids[..|ids|] == ids;
    SameMembers(sorted, ids);
    OrderedDistinct(ids, sorted);
  }

  method InsertID(sorted: seq<TxID>, x: TxID) returns (r: seq<TxID>)
    requires InOrder(sorted)
    ensures InOrder(r) && multiset(r) == multiset(sorted) + multiset{x}
  {
    var k := 0;
    while k < |sorted| && LessTxID(sorted[k], x)
      invariant 0 <= k <= |sorted|
      invariant forall i :: 0 <= i < k ==> LessTxID(sorted[i], x)
    {
      k := k + 1;
    }
    r := sorted[..k] + [x] + sorted[k..];
    assert sorted == sorted[..k] + sorted[k..];
    assert forall i :: k <= i < |sorted| ==> !LessTxID(sorted[i], x);
  }

  lemma SameMembers<T>(a: seq<T>, b: seq<T>)
    requires multiset(a) == multiset(b)
    ensures Elems(a) == Elems(b) && |a| == |b|
  {
    assert |multiset(a)| == |a| && |multiset(b)| == |b|;
    forall x ensures x in a <==> x in b {
      assert x in a <==> x in multiset(a);
      assert x in b <==> x in multiset(b);
    }
  }

  lemma OrderedDistinct(ids: seq<TxID>, sorted: seq<TxID>)
    requires InOrder(sorted) && Elems(sorted) == Elems(ids) && |sorted| == |ids|
    ensures Distinct(ids) ==> Ascending(sorted)
  {
    DistinctCard(ids);
    DistinctCard(sorted);
    if Distinct(ids) {
      forall i, j | 0 <= i < j < |sorted| ensures LessTxID(sorted[i], sorted[j]) {
        DistinctAt(sorted, i, j);
      }
    }
  }

  /** A Go map or set is ranged over in an arbitrary order. */
  method AnyOrder<T(==)>(s: set<T>) returns (r: seq<T>)
    ensures Distinct(r) && Elems(r) == s
  {
    hide *;
    r := [];
    var rest := s;
    NothingListed(s);
    while rest != {}
      invariant rest <= s && Distinct(r) && Elems(r) == s - rest
      decreases |rest|
    {
      var x :| x in rest;
      InElems(r);
      DistinctSnoc(r, x);
      rest := rest - {x};
      r := r + [x];
    }
  }

  lemma NothingListed<T>(s: set<T>)
    ensures Distinct<T>([]) && Elems<T>([]) == s - s
  {
  }

  /** `sortedSet`. */
  method SortedSet(s: set<TxID>) returns (r: seq<TxID>)
    ensures Ascending(r) && Elems(r) == s && |r| == |s|
  {
    var listed := AnyOrder(s);
    DistinctCard(listed);
    r := SortTxIDs(listed);
  }
}

/**
  Why one depth-first pass with low links finds the strongly connected components:
  the invariant of the search and what each of its steps does to it. Every vertex on
  the stack reaches an unfinished vertex at or below it, every unfinished vertex reaches
  what is above it, and no edge leaves the components already emitted.
 */
module TarjanFacts {
  import opened Types
  import opened Collections
  import opened Graphs
  import opened FairOrder

  /** The search so far: discovery numbers, the stack and the components emitted. */
  datatype Pass = Pass(num: map<TxID, nat>, next: nat, stack: seq<TxID>, comps: seq<seq<TxID>>)

  ghost function Emitted(comps: seq<seq<TxID>>): set<TxID> {
    Upto(comps, |comps|)
  }

  ghost predicate Rising(num: map<TxID, nat>, stack: seq<TxID>) {
    && (forall u :: u in stack ==> u in num)
    && (forall i, j :: 0 <= i < j < |stack| ==> num[stack[i]] < num[stack[j]])
  }

  ghost predicate Shape(a: Pass) {
    && a.num.Keys == Elems(a.stack) + Emitted(a.comps)
    && Elems(a.stack) !! Emitted(a.comps)
    && (forall u :: u in a.num ==> a.num[u] < a.next)
    && Rising(a.num, a.stack)
  }

  /** `y` reaches an unfinished vertex discovered no later than itself. */
  ghost predicate Anchored(edges: set<Edge>, num: map<TxID, nat>, gray: set<TxID>, y: TxID) {
    exists x :: x in gray && x in num && y in num && num[x] <= num[y] && Reach(edges, y, x)
  }

  ghost predicate Grounded(edges: set<Edge>, a: Pass, gray: set<TxID>) {
    gray <= Elems(a.stack) && forall y :: y in Elems(a.stack) ==> Anchored(edges, a.num, gray, y)
  }

  ghost predicate Tied(edges: set<Edge>, num: map<TxID, nat>, stack: set<TxID>, gray: set<TxID>) {
    forall x, y :: x in gray && y in stack && x in num && y in num && num[x] <= num[y] ==> Reach(edges, x, y)
  }

  /** A finished vertex has no undiscovered successor. */
  ghost predicate Followed(edges: set<Edge>, seen: set<TxID>, gray: set<TxID>) {
    forall e :: e in edges && e.src in seen && e.src !in gray ==> e.dst in seen
  }

  /** Emission order is a reverse topological order of the condensation. */
  ghost predicate Backward(edges: set<Edge>, comps: seq<seq<TxID>>) {
    forall i, e :: 0 <= i < |comps| && e in edges && e.src in comps[i] ==> e.dst in Upto(comps, i + 1)
  }

  ghost predicate Going(edges: set<Edge>, a: Pass, gray: set<TxID>) {
    && Shape(a)
    && Grounded(edges, a, gray)
    && Tied(edges, a.num, Elems(a.stack), gray)
    && Followed(edges, a.num.Keys, gray)
    && AreComponents(edges, a.comps)
    && Backward(edges, a.comps)
  }

  ghost predicate Keeps(num: map<TxID, nat>, num': map<TxID, nat>, next: nat) {
    && (forall u :: u in num ==> u in num' && num'[u] == num[u])
    && (forall u :: u in num' && u !in num ==> next <= num'[u])
  }

  ghost predicate Extends(a: Pass, b: Pass) {
    a.stack <= b.stack && a.comps <= b.comps && a.next <= b.next && Keeps(a.num, b.num, a.next)
  }

  lemma ExtendsTrans(a: Pass, b: Pass, c: Pass)
    requires Extends(a, b) && Extends(b, c)
    ensures Extends(a, c)
  {
  }

  /** Edges from `from` into `to` end at discovery numbers no less than `low`. */
  ghost predicate Escapes(edges: set<Edge>, num: map<TxID, nat>, from: set<TxID>, to: set<TxID>, low: nat) {
    forall e :: e in edges && e.src in from && e.dst in to && e.dst in num ==> low <= num[e.dst]
  }

  ghost predicate LowAt(edges: set<Edge>, a: Pass, v: TxID, low: nat) {
    exists y :: y in Elems(a.stack) && y in a.num && a.num[y] == low && Reach(edges, v, y)
  }

  ghost function Above(a: Pass, height: nat): set<TxID> {
    if height <= |a.stack| then Elems(a.stack[height..]) else {}
  }

  /** What a finished call for `v` leaves: its low link is the number of a stacked vertex
      it reaches, unless its component is out already, and bounds the edges that lead
      from what it stacked to what was stacked before. */
  ghost predicate Returned(edges: set<Edge>, a: Pass, b: Pass, v: TxID, low: nat) {
    && v in b.num && Extends(a, b)
    && (a.next <= low || LowAt(edges, b, v, low))
    && Escapes(edges, b.num, Above(b, |a.stack|), Elems(a.stack), low)
  }

  function Push(a: Pass, v: TxID): Pass {
    Pass(a.num[v := a.next], a.next + 1, a.stack + [v], a.comps)
  }

  lemma PushShape(a: Pass, v: TxID)
    requires Shape(a) && v !in a.num
    ensures Shape(Push(a, v)) && Extends(a, Push(a, v))
  {
    var b := Push(a, v);
    ElemsConcat(a.stack, [v]);
    forall i, j | 0 <= i < j < |b.stack| ensures b.num[b.stack[i]] < b.num[b.stack[j]] {
      assert a.stack[i] in a.num;
    }
  }

  lemma PushGrounded(edges: set<Edge>, a: Pass, gray: set<TxID>, v: TxID)
    requires Grounded(edges, a, gray) && v !in a.num
    ensures Grounded(edges, Push(a, v), gray + {v})
  {
    hide Reach;
    var b := Push(a, v);
    ElemsConcat(a.stack, [v]);
    ReachRefl(edges, v);
    forall y | y in Elems(b.stack) ensures Anchored(edges, b.num, gray + {v}, y) {
      if y != v {
        assert Anchored(edges, a.num, gray, y);
        var x :| x in gray && x in a.num && a.num[x] <= a.num[y] && Reach(edges, y, x);
        assert b.num[x] <= b.num[y];
      }
    }
  }

  lemma PushTied(edges: set<Edge>, a: Pass, gray: set<TxID>, v: TxID)
    requires Tied(edges, a.num, Elems(a.stack), gray) && v !in a.num && gray <= Elems(a.stack)
    requires forall u :: u in a.num ==> a.num[u] < a.next
    requires forall x :: x in gray ==> Reach(edges, x, v)
    ensures Tied(edges, Push(a, v).num, Elems(Push(a, v).stack), gray + {v})
  {
    ElemsConcat(a.stack, [v]);
    assert Elems([v]) == {v};
    ReachRefl(edges, v);
    hide Reach, Elems;
  }

  lemma PushGoing(edges: set<Edge>, a: Pass, gray: set<TxID>, v: TxID)
    requires Going(edges, a, gray) && v !in a.num
    requires forall x :: x in gray ==> Reach(edges, x, v)
    ensures Going(edges, Push(a, v), gray + {v})
  {
    hide Reach, AreComponents, Backward, Anchored, Rising, Tied, Emitted;
    PushShape(a, v);
    PushGrounded(edges, a, gray, v);
    PushTied(edges, a, gray, v);
  }

  // ----- The scan of one vertex's successors

  ghost predicate Scan(edges: set<Edge>, a: Pass, b: Pass, gray: set<TxID>, v: TxID, done: set<TxID>, low: nat) {
    && Going(edges, b, gray + {v}) && v !in a.num && Extends(Push(a, v), b)
    && LowAt(edges, b, v, low) && low <= a.next
    && Escapes(edges, b.num, Above(b, |a.stack| + 1), Elems(a.stack), low)
    && (forall w :: w in done ==> w in b.num && (w in Elems(a.stack) ==> low <= b.num[w]))
  }

  lemma ScanParts(edges: set<Edge>, a: Pass, b: Pass, gray: set<TxID>, v: TxID, done: set<TxID>, low: nat)
    requires Scan(edges, a, b, gray, v, done, low)
    ensures v !in a.num && Extends(Push(a, v), b) && LowAt(edges, b, v, low) && low <= a.next
    ensures Going(edges, b, gray + {v})
    ensures Shape(b) && Grounded(edges, b, gray + {v}) && Tied(edges, b.num, Elems(b.stack), gray + {v})
    ensures AreComponents(edges, b.comps) && Backward(edges, b.comps)
  {
  }

  lemma ScanBegins(edges: set<Edge>, a: Pass, gray: set<TxID>, v: TxID)
    requires Going(edges, a, gray) && v !in a.num
    requires forall x :: x in gray ==> Reach(edges, x, v)
    ensures Scan(edges, a, Push(a, v), gray, v, {}, a.next)
  {
    hide Reach, Going;
    PushGoing(edges, a, gray, v);
    ReachRefl(edges, v);
    assert v in Elems(a.stack + [v]);
    assert Above(Push(a, v), |a.stack| + 1) == {};
  }

  /** `v` is the latest unfinished vertex, so every other one reaches it. */
  lemma GraysReach(edges: set<Edge>, a: Pass, b: Pass, gray: set<TxID>, v: TxID, w: TxID)
    requires Going(edges, b, gray + {v}) && Extends(Push(a, v), b) && gray <= Elems(a.stack) && Shape(a)
    requires v !in a.num && Edge(v, w) in edges
    ensures forall x :: x in gray + {v} ==> Reach(edges, x, w)
  {
    hide Reach, AreComponents, Backward, Followed, Grounded, Emitted;
    ReachEdge(edges, v, w);
    assert Push(a, v).stack[|a.stack|] == v;
    assert v in Elems(b.stack);
    forall x | x in gray ensures Reach(edges, x, w) {
      assert x in a.num && b.num[x] == a.num[x] < a.next == b.num[v];
      ReachTrans(edges, x, v, w);
    }
  }

  lemma AboveGrows(a: Pass, b: Pass, height: nat)
    requires a.stack <= b.stack && height <= |a.stack|
    ensures Above(b, height) == Above(a, height) + Above(b, |a.stack|)
  {
    assert b.stack[height..] == a.stack[height..] + b.stack[|a.stack|..];
    ElemsConcat(a.stack[height..], b.stack[|a.stack|..]);
  }

  lemma EscapesJoin(edges: set<Edge>, num: map<TxID, nat>, num': map<TxID, nat>, from: set<TxID>, from': set<TxID>,
                    to: set<TxID>, low: nat, low': nat)
    requires Escapes(edges, num, from, to, low) && Escapes(edges, num', from', to, low')
    requires forall u :: u in num ==> u in num' && num'[u] == num[u]
    requires to <= num.Keys
    ensures Escapes(edges, num', from + from', to, Min(low, low'))
  {
  }

  lemma EscapesInto(edges: set<Edge>, num: map<TxID, nat>, from: set<TxID>, to: set<TxID>, small: set<TxID>, low: nat)
    requires Escapes(edges, num, from, to, low) && small <= to
    ensures Escapes(edges, num, from, small, low)
  {
  }

  lemma LowKept(edges: set<Edge>, b: Pass, c: Pass, v: TxID, low: nat)
    requires LowAt(edges, b, v, low) && Extends(b, c)
    ensures LowAt(edges, c, v, low)
  {
    hide Reach;
    var y :| y in Elems(b.stack) && y in b.num && b.num[y] == low && Reach(edges, v, y);
    PrefixElems(b.stack, c.stack);
  }

  lemma PrefixElems<T>(s: seq<T>, t: seq<T>)
    requires s <= t
    ensures Elems(s) <= Elems(t)
  {
    forall x | x in s ensures x in t {
      var i :| 0 <= i < |s| && s[i] == x;
      assert t[i] == x;
    }
  }

  lemma LowThrough(edges: set<Edge>, c: Pass, v: TxID, w: TxID, low: nat)
    requires LowAt(edges, c, w, low) && Edge(v, w) in edges
    ensures LowAt(edges, c, v, low)
  {
    hide Reach;
    var y :| y in Elems(c.stack) && y in c.num && c.num[y] == low && Reach(edges, w, y);
    ReachEdge(edges, v, w);
    ReachTrans(edges, v, w, y);
  }

  /** A recursive call for an undiscovered successor. */
  lemma ScanCalls(edges: set<Edge>, a: Pass, b: Pass, c: Pass, gray: set<TxID>, v: TxID, done: set<TxID>, low: nat,
                  w: TxID, lowW: nat)
    requires Scan(edges, a, b, gray, v, done, low) && Shape(a) && w !in b.num && Edge(v, w) in edges
    requires Going(edges, c, gray + {v}) && Returned(edges, b, c, w, lowW)
    ensures Scan(edges, a, c, gray, v, done + {w}, Min(low, lowW))
  {
    hide Going, Reach, LowAt, Escapes, Above;
    ExtendsTrans(Push(a, v), b, c);
    LowKept(edges, b, c, v, low);
    if lowW < low {
      NumberOf(a, b, v);
      LowThrough(edges, c, v, w, lowW);
    }
    StackedBefore(a, b, v);
    AboveGrows(b, c, |a.stack| + 1);
    EscapesInto(edges, c.num, Above(c, |b.stack|), Elems(b.stack), Elems(a.stack), lowW);
    EscapesJoin(edges, b.num, c.num, Above(b, |a.stack| + 1), Above(c, |b.stack|), Elems(a.stack), low, lowW);
  }

  lemma NumberOf(a: Pass, b: Pass, v: TxID)
    requires Extends(Push(a, v), b)
    ensures v in b.num && b.num[v] == a.next < b.next
  {
    assert v in Push(a, v).num;
  }

  lemma StackedBefore(a: Pass, b: Pass, v: TxID)
    requires Extends(Push(a, v), b) && Shape(a)
    ensures Elems(a.stack) <= Elems(b.stack) && Elems(a.stack) <= b.num.Keys && |a.stack| + 1 <= |b.stack|
  {
    PrefixElems(a.stack, a.stack + [v]);
    PrefixElems(a.stack + [v], b.stack);
    assert forall u :: u in a.num ==> u in Push(a, v).num;
  }

  /** A successor met before: on the stack it may lower the link, else it is emitted. */
  lemma ScanMeets(edges: set<Edge>, a: Pass, b: Pass, gray: set<TxID>, v: TxID, done: set<TxID>, low: nat, w: TxID)
    requires Scan(edges, a, b, gray, v, done, low) && Shape(a) && w in b.num && Edge(v, w) in edges
    ensures Scan(edges, a, b, gray, v, done + {w}, if w in b.stack && b.num[w] < low then b.num[w] else low)
  {
    hide Going, Reach, Above;
    StackedBefore(a, b, v);
    ReachEdge(edges, v, w);
    if w in b.stack && b.num[w] < low {
      assert w in Elems(b.stack);
    }
  }

  // ----- The end of a call

  ghost predicate Successors(edges: set<Edge>, v: TxID, done: set<TxID>) {
    forall w :: w in done <==> Edge(v, w) in edges
  }

  lemma StackSplits(a: Pass, b: Pass, v: TxID)
    requires Extends(Push(a, v), b)
    ensures |a.stack| < |b.stack| && b.stack[|a.stack|] == v
    ensures b.stack == a.stack + [v] + b.stack[|a.stack| + 1..]
    ensures Elems(b.stack) == Elems(a.stack) + {v} + Above(b, |a.stack| + 1)
    ensures Above(b, |a.stack|) == {v} + Above(b, |a.stack| + 1)
  {
    assert Push(a, v).stack[|a.stack|] == v;
    assert b.stack[|a.stack|..] == [v] + b.stack[|a.stack| + 1..];
    ElemsConcat([v], b.stack[|a.stack| + 1..]);
    ElemsSplit(b.stack, |a.stack|);
    assert b.stack[..|a.stack|] == a.stack;
  }

  /** The low bound seen from everything stacked since `v`, `v` included. */
  lemma ScanEscapes(edges: set<Edge>, a: Pass, b: Pass, gray: set<TxID>, v: TxID, done: set<TxID>, low: nat)
    requires Scan(edges, a, b, gray, v, done, low) && Successors(edges, v, done)
    ensures Escapes(edges, b.num, Above(b, |a.stack|), Elems(a.stack), low)
  {
    hide Going, LowAt, Above;
    StackSplits(a, b, v);
  }

  lemma FollowedAfter(edges: set<Edge>, a: Pass, b: Pass, gray: set<TxID>, v: TxID, done: set<TxID>, low: nat)
    requires Scan(edges, a, b, gray, v, done, low) && Successors(edges, v, done)
    ensures Followed(edges, b.num.Keys, gray)
  {
    hide Shape, Grounded, Tied, AreComponents, Backward, LowAt, Escapes, Extends;
    forall e | e in edges && e.src in b.num && e.src !in gray ensures e.dst in b.num {
      if e.src == v {
        assert e == Edge(v, e.dst);
        assert e.dst in done;
      }
    }
  }

  /** Once `v` reaches below itself, it is no longer needed as an anchor. */
  lemma AnchorsShift(edges: set<Edge>, num: map<TxID, nat>, gray: set<TxID>, v: TxID, stacked: set<TxID>, y0: TxID)
    requires forall y :: y in stacked ==> Anchored(edges, num, gray + {v}, y)
    requires y0 in stacked && y0 in num && v in num && num[y0] < num[v] && Reach(edges, v, y0)
    ensures forall y :: y in stacked ==> Anchored(edges, num, gray, y)
  {
    hide Reach;
    assert Anchored(edges, num, gray + {v}, y0);
    var x0 :| x0 in gray + {v} && x0 in num && num[x0] <= num[y0] && Reach(edges, y0, x0);
    ReachTrans(edges, v, y0, x0);
    assert x0 in gray;
    forall y | y in stacked ensures Anchored(edges, num, gray, y) {
      assert Anchored(edges, num, gray + {v}, y);
      var x :| x in gray + {v} && x in num && y in num && num[x] <= num[y] && Reach(edges, y, x);
      if x == v {
        ReachTrans(edges, y, v, x0);
      }
    }
  }

  lemma StaysGrounded(edges: set<Edge>, b: Pass, gray: set<TxID>, v: TxID, low: nat)
    requires Grounded(edges, b, gray + {v}) && LowAt(edges, b, v, low) && v in b.num && low < b.num[v]
    ensures Grounded(edges, b, gray)
  {
    hide Reach, Anchored, Elems;
    var y0 :| y0 in Elems(b.stack) && y0 in b.num && b.num[y0] == low && Reach(edges, v, y0);
    AnchorsShift(edges, b.num, gray, v, Elems(b.stack), y0);
  }

  lemma FewerTies(edges: set<Edge>, num: map<TxID, nat>, small: set<TxID>, large: set<TxID>, gray: set<TxID>, v: TxID)
    requires Tied(edges, num, large, gray + {v}) && small <= large
    ensures Tied(edges, num, small, gray)
  {
    hide Reach;
  }

  lemma GoingIf(edges: set<Edge>, b: Pass, gray: set<TxID>)
    requires Shape(b) && Grounded(edges, b, gray) && Tied(edges, b.num, Elems(b.stack), gray)
    requires Followed(edges, b.num.Keys, gray) && AreComponents(edges, b.comps) && Backward(edges, b.comps)
    ensures Going(edges, b, gray)
  {
  }

  lemma ReturnedIf(edges: set<Edge>, a: Pass, b: Pass, v: TxID, low: nat)
    requires v in b.num && Extends(a, b) && (a.next <= low || LowAt(edges, b, v, low))
    requires Escapes(edges, b.num, Above(b, |a.stack|), Elems(a.stack), low)
    ensures Returned(edges, a, b, v, low)
  {
  }

  /** Not a root: `v` is finished but stays stacked, anchored further down. */
  lemma Stays(edges: set<Edge>, a: Pass, b: Pass, gray: set<TxID>, v: TxID, done: set<TxID>, low: nat)
    requires Scan(edges, a, b, gray, v, done, low) && Successors(edges, v, done) && Shape(a) && low < a.next
    ensures Going(edges, b, gray) && Returned(edges, a, b, v, low)
  {
    hide *;
    ScanParts(edges, a, b, gray, v, done, low);
    FollowedAfter(edges, a, b, gray, v, done, low);
    ScanEscapes(edges, a, b, gray, v, done, low);
    NumberOf(a, b, v);
    PushShape(a, v);
    ExtendsTrans(a, Push(a, v), b);
    StaysGrounded(edges, b, gray, v, low);
    FewerTies(edges, b.num, Elems(b.stack), Elems(b.stack), gray, v);
    GoingIf(edges, b, gray);
    ReturnedIf(edges, a, b, v, low);
  }

  /** A root: the part of the stack from `v` on is emitted. */
  function Popped(a: Pass, b: Pass, comp: seq<TxID>): Pass {
    Pass(b.num, b.next, a.stack, b.comps + [comp])
  }

  ghost predicate Member(a: Pass, b: Pass, comp: seq<TxID>) {
    comp != [] && Ascending(comp) && Elems(comp) == Above(b, |a.stack|)
  }

  lemma NoneEscapes(edges: set<Edge>, num: map<TxID, nat>, popped: set<TxID>, below: set<TxID>, gray: set<TxID>,
                    low: nat, e: Edge)
    requires Followed(edges, num.Keys, gray) && Escapes(edges, num, popped, below, low)
    requires gray <= below && popped !! below && popped <= num.Keys
    requires forall u :: u in below ==> u in num && num[u] < low
    requires e in edges && e.src in popped
    ensures e.dst in num && e.dst !in below
  {
  }

  /** No edge leaves the popped vertices but into what is already emitted. */
  lemma PoppedStays(edges: set<Edge>, a: Pass, b: Pass, gray: set<TxID>, v: TxID, done: set<TxID>, comp: seq<TxID>,
                    e: Edge)
    requires Scan(edges, a, b, gray, v, done, a.next) && Successors(edges, v, done) && Member(a, b, comp)
    requires Shape(a) && gray <= Elems(a.stack)
    requires e in edges && e.src in comp
    ensures e.dst in comp || e.dst in Emitted(b.comps)
  {
    hide *;
    ScanParts(edges, a, b, gray, v, done, a.next);
    FollowedAfter(edges, a, b, gray, v, done, a.next);
    ScanEscapes(edges, a, b, gray, v, done, a.next);
    StackSplits(a, b, v);
    DiscoveredBefore(a, b, v);
    PoppedNotBelow(a, b, v);
    ShapeParts(b);
    MemberIs(a, b, comp);
    NoneEscapes(edges, b.num, Elems(comp), Elems(a.stack), gray, a.next, e);
  }

  lemma DiscoveredBefore(a: Pass, b: Pass, v: TxID)
    requires Extends(Push(a, v), b) && Shape(a) && v !in a.num
    ensures forall u :: u in Elems(a.stack) ==> u in b.num && b.num[u] < a.next
  {
    forall u | u in Elems(a.stack) ensures u in b.num && b.num[u] < a.next {
      assert u in a.num && u in Push(a, v).num;
    }
  }

  lemma RisingDistinct(num: map<TxID, nat>, stack: seq<TxID>)
    requires Rising(num, stack)
    ensures Distinct(stack)
  {
    forall i, j | 0 <= i < j < |stack| ensures stack[i] != stack[j] {
      assert num[stack[i]] < num[stack[j]];
    }
    DistinctIf(stack);
  }

  lemma AboveIs(a: Pass, height: nat)
    requires height <= |a.stack|
    ensures Above(a, height) == Elems(a.stack[height..])
  {
  }

  lemma PoppedNotBelow(a: Pass, b: Pass, v: TxID)
    requires Extends(Push(a, v), b) && Shape(b)
    ensures Above(b, |a.stack|) !! Elems(a.stack)
  {
    hide *;
    StackSplits(a, b, v);
    ShapeParts(b);
    RisingDistinct(b.num, b.stack);
    DistinctSuffix(b.stack, |a.stack|);
    AboveIs(b, |a.stack|);
    assert b.stack[..|a.stack|] == a.stack;
  }

  lemma EmittedSnoc(comps: seq<seq<TxID>>, comp: seq<TxID>)
    ensures Emitted(comps + [comp]) == Emitted(comps) + Elems(comp)
    ensures forall i :: 0 <= i <= |comps| ==> Upto(comps + [comp], i) == Upto(comps, i)
  {
    var all := comps + [comp];
    forall i | 0 <= i <= |comps| ensures Upto(all, i) == Upto(comps, i) {
      UptoSame(all, comps, i);
    }
    forall u | u in Elems(comp) ensures u in Emitted(all) {
      assert u in all[|comps|];
    }
    forall u | u in Emitted(comps) ensures u in Emitted(all) {
      var i :| 0 <= i < |comps| && u in comps[i];
      assert u in all[i];
    }
  }

  lemma UptoSame(a: seq<seq<TxID>>, b: seq<seq<TxID>>, i: nat)
    requires i <= |a| && i <= |b| && forall j :: 0 <= j < i ==> a[j] == b[j]
    ensures Upto(a, i) == Upto(b, i)
  {
  }

  lemma BackwardSnoc(edges: set<Edge>, comps: seq<seq<TxID>>, comp: seq<TxID>)
    requires Backward(edges, comps)
    requires forall e :: e in edges && e.src in comp ==> e.dst in comp || e.dst in Emitted(comps)
    ensures Backward(edges, comps + [comp])
  {
    hide Emitted, Upto;
    var all := comps + [comp];
    EmittedSnoc(comps, comp);
    UptoWhole(all);
    forall i, e | 0 <= i < |all| && e in edges && e.src in all[i] ensures e.dst in Upto(all, i + 1) {
      if i < |comps| {
        assert e.src in comps[i];
      } else {
        assert e.dst in Emitted(comps) + Elems(comp);
      }
    }
  }

  lemma UptoWhole(comps: seq<seq<TxID>>)
    ensures Upto(comps, |comps|) == Emitted(comps)
  {
  }

  lemma EmittedClosed(edges: set<Edge>, comps: seq<seq<TxID>>)
    requires Backward(edges, comps)
    ensures SuccClosed(edges, Emitted(comps))
  {
    forall e | e in edges && e.src in Emitted(comps) ensures e.dst in Emitted(comps) {
      var i :| 0 <= i < |comps| && e.src in comps[i];
      var j :| 0 <= j < i + 1 && e.dst in comps[j];
    }
  }

  /** The popped vertices are one whole class. */
  lemma PoppedClass(edges: set<Edge>, a: Pass, b: Pass, gray: set<TxID>, v: TxID, comp: seq<TxID>, u: TxID, z: TxID)
    requires Going(edges, b, gray + {v}) && Extends(Push(a, v), b) && Member(a, b, comp)
    requires Shape(a) && v !in a.num && gray <= Elems(a.stack) && u in comp
    requires forall e :: e in edges && e.src in comp ==> e.dst in comp || e.dst in Emitted(b.comps)
    ensures z in comp <==> Mutual(edges, u, z)
  {
    EmittedClosed(edges, b.comps);
    var region := Elems(comp) + Emitted(b.comps);
    assert SuccClosed(edges, region);
    if z in comp {
      PoppedReaches(edges, a, b, gray, v, comp, u);
      PoppedReaches(edges, a, b, gray, v, comp, z);
      MutualTrans(edges, u, v, z);
    }
    if Mutual(edges, u, z) {
      ReachStaysIn(edges, region, u, z);
      assert u in Elems(comp);
      PoppedNotEmitted(a, b, v, comp, u);
      if z in Emitted(b.comps) {
        ReachStaysIn(edges, Emitted(b.comps), z, u);
      }
    }
  }

  lemma PoppedNotEmitted(a: Pass, b: Pass, v: TxID, comp: seq<TxID>, u: TxID)
    requires Shape(b) && Extends(Push(a, v), b) && Member(a, b, comp) && u in comp
    ensures u !in Emitted(b.comps) && u in Elems(b.stack)
  {
    hide Emitted;
    StackSplits(a, b, v);
    assert u in Elems(comp);
  }

  lemma GoingParts(edges: set<Edge>, b: Pass, gray: set<TxID>)
    requires Going(edges, b, gray)
    ensures gray <= Elems(b.stack)
    ensures Shape(b) && Grounded(edges, b, gray) && Tied(edges, b.num, Elems(b.stack), gray)
  {
  }

  lemma MemberIs(a: Pass, b: Pass, comp: seq<TxID>)
    requires Member(a, b, comp)
    ensures Elems(comp) == Above(b, |a.stack|) && forall u :: u in comp <==> u in Elems(comp)
  {
  }

  lemma AnchorOf(edges: set<Edge>, b: Pass, gray: set<TxID>, u: TxID) returns (x: TxID)
    requires Grounded(edges, b, gray) && u in Elems(b.stack)
    ensures x in gray && x in Elems(b.stack) && x in b.num && u in b.num && b.num[x] <= b.num[u] && Reach(edges, u, x)
  {
    hide Reach;
    assert Anchored(edges, b.num, gray, u);
    x :| x in gray && x in b.num && u in b.num && b.num[x] <= b.num[u] && Reach(edges, u, x);
  }

  lemma ShapeApart(b: Pass)
    requires Shape(b)
    ensures Elems(b.stack) !! Emitted(b.comps)
  {
  }

  lemma TiedAt(edges: set<Edge>, num: map<TxID, nat>, stack: set<TxID>, gray: set<TxID>, x: TxID, y: TxID)
    requires Tied(edges, num, stack, gray) && x in gray && y in stack && x in num && y in num && num[x] <= num[y]
    ensures Reach(edges, x, y)
  {
  }

  lemma MutualIf(edges: set<Edge>, u: TxID, v: TxID)
    requires Reach(edges, u, v) && Reach(edges, v, u)
    ensures Mutual(edges, u, v)
  {
  }

  lemma PoppedReaches(edges: set<Edge>, a: Pass, b: Pass, gray: set<TxID>, v: TxID, comp: seq<TxID>, u: TxID)
    requires Going(edges, b, gray + {v}) && Extends(Push(a, v), b) && Member(a, b, comp)
    requires Shape(a) && v !in a.num && gray <= Elems(a.stack) && u in comp
    requires SuccClosed(edges, Elems(comp) + Emitted(b.comps))
    ensures Mutual(edges, u, v)
  {
    hide *;
    GoingParts(edges, b, gray + {v});
    PoppedNotEmitted(a, b, v, comp, u);
    PoppedNotBelow(a, b, v);
    MemberIs(a, b, comp);
    NumberAbove(a, b, v, u);
    var x := AnchorOf(edges, b, gray + {v}, u);
    ReachStaysIn(edges, Elems(comp) + Emitted(b.comps), u, x);
    ShapeApart(b);
    assert x == v;
    TiedAt(edges, b.num, Elems(b.stack), gray + {v}, v, u);
    MutualIf(edges, u, v);
  }

  lemma NumberAbove(a: Pass, b: Pass, v: TxID, u: TxID)
    requires Shape(b) && Extends(Push(a, v), b) && u in Above(b, |a.stack|)
    ensures u in b.num && v in b.num && b.num[v] <= b.num[u]
  {
    StackSplits(a, b, v);
    var j :| 0 <= j < |b.stack[|a.stack|..]| && b.stack[|a.stack|..][j] == u;
    assert u == b.stack[|a.stack| + j];
  }

  lemma ComponentsSnoc(edges: set<Edge>, comps: seq<seq<TxID>>, comp: seq<TxID>)
    requires AreComponents(edges, comps) && comp != [] && Ascending(comp) && Elems(comp) !! Emitted(comps)
    requires forall u, z :: u in comp ==> (z in comp <==> Mutual(edges, u, z))
    ensures AreComponents(edges, comps + [comp])
  {
    hide Mutual;
    var all := comps + [comp];
    forall i, j, x | 0 <= i < j < |all| && x in all[i] ensures x !in all[j] {
      if j == |comps| {
        assert x in comps[i];
        assert x in Emitted(comps);
        assert x !in Elems(comp);
      }
    }
  }

  lemma RisingKept(a: Pass, b: Pass)
    requires Rising(a.num, a.stack) && Extends(a, b)
    ensures Rising(b.num, a.stack)
  {
  }

  lemma PoppedIs(a: Pass, b: Pass, comp: seq<TxID>)
    ensures Popped(a, b, comp) == Pass(b.num, b.next, a.stack, b.comps + [comp])
  {
  }

  lemma PoppedExtends(a: Pass, b: Pass, comp: seq<TxID>)
    requires Extends(a, b)
    ensures Extends(a, Popped(a, b, comp))
  {
  }

  lemma ShapeParts(a: Pass)
    requires Shape(a)
    ensures a.num.Keys == Elems(a.stack) + Emitted(a.comps) && Elems(a.stack) !! Emitted(a.comps)
    ensures (forall u :: u in a.num ==> a.num[u] < a.next) && Rising(a.num, a.stack)
  {
  }

  lemma ShapeIf(a: Pass)
    requires a.num.Keys == Elems(a.stack) + Emitted(a.comps) && Elems(a.stack) !! Emitted(a.comps)
    requires (forall u :: u in a.num ==> a.num[u] < a.next) && Rising(a.num, a.stack)
    ensures Shape(a)
  {
  }

  lemma PoppedShape(a: Pass, b: Pass, v: TxID, comp: seq<TxID>)
    requires Shape(a) && Shape(b) && Extends(Push(a, v), b) && v !in a.num && Member(a, b, comp)
    ensures Shape(Popped(a, b, comp)) && Extends(a, Popped(a, b, comp))
    ensures Elems(comp) !! Emitted(b.comps)
  {
    hide *;
    EmittedSnoc(b.comps, comp);
    StackSplits(a, b, v);
    MemberIs(a, b, comp);
    PoppedNotBelow(a, b, v);
    PushShape(a, v);
    ExtendsTrans(a, Push(a, v), b);
    ShapeParts(a);
    ShapeParts(b);
    RisingKept(a, b);
    ShapeIf(Popped(a, b, comp)) by {
      assert Popped(a, b, comp) == Pass(b.num, b.next, a.stack, b.comps + [comp]) by { PoppedIs(a, b, comp); }
    }
    PoppedExtends(a, b, comp);
  }

  lemma PoppedGrounded(edges: set<Edge>, a: Pass, b: Pass, gray: set<TxID>, v: TxID, comp: seq<TxID>)
    requires Grounded(edges, b, gray + {v}) && gray <= Elems(a.stack) && v in b.num
    requires Elems(a.stack) <= Elems(b.stack)
    requires forall u :: u in Elems(a.stack) ==> u in b.num && b.num[u] < b.num[v]
    ensures Grounded(edges, Popped(a, b, comp), gray)
  {
    hide Reach, Elems;
    forall y | y in Elems(a.stack) ensures Anchored(edges, b.num, gray, y) {
      assert Anchored(edges, b.num, gray + {v}, y);
    }
  }

  /** A root: the popped component is emitted and the search goes on without `v`. */
  lemma Pops(edges: set<Edge>, a: Pass, b: Pass, gray: set<TxID>, v: TxID, done: set<TxID>, comp: seq<TxID>)
    requires Scan(edges, a, b, gray, v, done, a.next) && Successors(edges, v, done) && Member(a, b, comp)
    requires Shape(a) && gray <= Elems(a.stack)
    ensures Going(edges, Popped(a, b, comp), gray) && Returned(edges, a, Popped(a, b, comp), v, a.next)
  {
    hide Reach, Mutual, Anchored, AreComponents, Backward, Rising, Upto, Emitted, Above, Escapes, LowAt, Tied;
    var c := Popped(a, b, comp);
    PoppedShape(a, b, v, comp);
    NumberOf(a, b, v);
    DiscoveredBefore(a, b, v);
    StackedBefore(a, b, v);
    PoppedGrounded(edges, a, b, gray, v, comp);
    FewerTies(edges, b.num, Elems(a.stack), Elems(b.stack), gray, v);
    FollowedAfter(edges, a, b, gray, v, done, a.next);
    forall e | e in edges && e.src in comp ensures e.dst in comp || e.dst in Emitted(b.comps) {
      PoppedStays(edges, a, b, gray, v, done, comp, e);
    }
    BackwardSnoc(edges, b.comps, comp);
    forall u, z | u in comp ensures z in comp <==> Mutual(edges, u, z) {
      PoppedClass(edges, a, b, gray, v, comp, u, z);
    }
    ComponentsSnoc(edges, b.comps, comp);
    NothingAbove(edges, a, c);
  }

  lemma NothingAbove(edges: set<Edge>, a: Pass, c: Pass)
    requires c.stack == a.stack
    ensures Escapes(edges, c.num, Above(c, |a.stack|), Elems(a.stack), a.next)
  {
  }

  lemma SeenBefore(a: Pass, b: Pass, v: TxID)
    requires Extends(Push(a, v), b)
    ensures a.num.Keys + {v} <= b.num.Keys && b.stack[..|a.stack|] == a.stack
  {
    assert forall u :: u in a.num ==> u in Push(a, v).num;
    assert Push(a, v).stack[..|a.stack|] == a.stack;
  }

  lemma ReturnedSeen(edges: set<Edge>, a: Pass, b: Pass, v: TxID, low: nat)
    requires Returned(edges, a, b, v, low)
    ensures a.num.Keys <= b.num.Keys
  {
  }

  lemma MemberIf(a: Pass, b: Pass, comp: seq<TxID>, v: TxID)
    requires Ascending(comp) && Elems(comp) == Above(b, |a.stack|) && v in Above(b, |a.stack|)
    ensures Member(a, b, comp)
  {
  }

  /** What the search reads off its own maps while it scans `v`. */
  lemma ScanNumbers(edges: set<Edge>, a: Pass, b: Pass, gray: set<TxID>, v: TxID, done: set<TxID>, low: nat)
    requires Scan(edges, a, b, gray, v, done, low)
    ensures v !in a.num && v in b.num && b.num[v] == a.next && low <= a.next && a.num.Keys + {v} <= b.num.Keys
    ensures Going(edges, b, gray + {v}) && Extends(Push(a, v), b)
    ensures |a.stack| < |b.stack| && b.stack[|a.stack|] == v && Distinct(b.stack) && b.stack[..|a.stack|] == a.stack
    ensures Above(b, |a.stack|) == Elems(b.stack[|a.stack|..]) && v in Above(b, |a.stack|)
  {
    hide *;
    ScanParts(edges, a, b, gray, v, done, low);
    NumberOf(a, b, v);
    StackSplits(a, b, v);
    ShapeParts(b);
    GoingParts(edges, b, gray + {v});
    RisingDistinct(b.num, b.stack);
    SeenBefore(a, b, v);
    AboveIs(b, |a.stack|);
  }
}

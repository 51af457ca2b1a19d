/**
  The canonical byte encodings (pkg/types/type.go:148-318): what is hashed determines
  what was hashed. A writer takes what follows it, so that a buffer filled by successive
  writes is the nesting of its writers.
 */
module Encoding {
  import opened Types

  type Byte = x: int | 0 <= x < 256

  const U64_LIMIT: nat := 0x1_0000_0000_0000_0000

  // ----- Fixed width

  /** `v` in `width` bytes, most significant first. */
  function Big(v: nat, width: nat): (r: seq<Byte>)
    ensures |r| == width
  {
    if width == 0 then [] else Big(v / 256, width - 1) + [v % 256]
  }

  function Power(width: nat): nat {
    if width == 0 then 1 else 256 * Power(width - 1)
  }

  lemma {:induction false} BigUnique(a: nat, b: nat, width: nat)
    requires a < Power(width) && b < Power(width) && Big(a, width) == Big(b, width)
    ensures a == b
  {
    if width > 0 {
      var x, y := Big(a, width), Big(b, width);
      assert Big(a / 256, width - 1) == x[..width - 1] && Big(b / 256, width - 1) == y[..width - 1];
      assert a % 256 == x[width - 1] && b % 256 == y[width - 1];
      BigUnique(a / 256, b / 256, width - 1);
    }
  }

  lemma WidePowers()
    ensures Power(8) == U64_LIMIT && Power(32) == ID_LIMIT
  {
    assert Power(4) == 0x1_0000_0000;
    assert Power(8) == U64_LIMIT;
    assert Power(12) == 0x1_0000_0000 * U64_LIMIT;
    assert Power(16) == U64_LIMIT * U64_LIMIT;
    assert Power(20) == U64_LIMIT * U64_LIMIT * 0x1_0000_0000;
    assert Power(24) == U64_LIMIT * U64_LIMIT * U64_LIMIT;
    assert Power(28) == U64_LIMIT * U64_LIMIT * U64_LIMIT * 0x1_0000_0000;
    assert Power(32) == U64_LIMIT * U64_LIMIT * U64_LIMIT * U64_LIMIT;
  }

  /** `bytes.Compare(a, b) < 0` on slices of one length. */
  predicate LexLess(a: seq<Byte>, b: seq<Byte>)
    requires |a| == |b|
  {
    a != [] && (a[0] < b[0] || (a[0] == b[0] && LexLess(a[1..], b[1..])))
  }

  lemma {:induction false} LexSnoc(a: seq<Byte>, b: seq<Byte>, x: Byte, y: Byte)
    requires |a| == |b|
    ensures LexLess(a + [x], b + [y]) <==> LexLess(a, b) || (a == b && x < y)
  {
    if a != [] {
      LexSnoc(a[1..], b[1..], x, y);
      assert (a + [x])[1..] == a[1..] + [x] && (b + [y])[1..] == b[1..] + [y];
      assert a == [a[0]] + a[1..] && b == [b[0]] + b[1..];
    }
  }

  /** The public order of identifiers is the numeric one. */
  lemma {:induction false} CompareAgrees(a: nat, b: nat, width: nat)
    requires a < Power(width) && b < Power(width)
    ensures LexLess(Big(a, width), Big(b, width)) <==> a < b
  {
    if width > 0 {
      CompareAgrees(a / 256, b / 256, width - 1);
      LexSnoc(Big(a / 256, width - 1), Big(b / 256, width - 1), a % 256, b % 256);
      if Big(a / 256, width - 1) == Big(b / 256, width - 1) {
        BigUnique(a / 256, b / 256, width - 1);
      }
    }
  }

  lemma IdentifierOrder(a: TxID, b: TxID)
    ensures LexLess(Big(a, 32), Big(b, 32)) <==> LessTxID(a, b)
  {
    WidePowers();
    CompareAgrees(a, b, 32);
  }

  // ----- Writers

  /** Hashes are 32 bytes; signatures are byte strings. */
  datatype Codec = Codec(hash: Digest -> seq<Byte>, sig: Signature -> seq<Byte>)

  /** SHA-256 is assumed not to collide on the digests at hand; a signature is its bytes. */
  ghost predicate Sane(k: Codec, used: set<Digest>) {
    && (forall d :: d in used ==> |k.hash(d)| == 32)
    && (forall d, e :: d in used && e in used && k.hash(d) == k.hash(e) ==> d == e)
    && (forall a, b :: k.sig(a) == k.sig(b) ==> a == b)
  }

  function WriteU64(v: nat, tail: seq<Byte>): seq<Byte> {
    Big(v, 8) + tail
  }

  function WriteId(id: TxID, tail: seq<Byte>): seq<Byte> {
    Big(id, 32) + tail
  }

  lemma SplitTail(a: seq<Byte>, b: seq<Byte>, s: seq<Byte>, t: seq<Byte>)
    requires |a| == |b| && a + s == b + t
    ensures a == b && s == t
  {
    assert (a + s)[..|a|] == a && (b + t)[..|b|] == b;
    assert (a + s)[|a|..] == s && (b + t)[|b|..] == t;
  }

  lemma U64Unique(a: nat, b: nat, s: seq<Byte>, t: seq<Byte>)
    requires a < U64_LIMIT && b < U64_LIMIT && WriteU64(a, s) == WriteU64(b, t)
    ensures a == b && s == t
  {
    SplitTail(Big(a, 8), Big(b, 8), s, t);
    WidePowers();
    BigUnique(a, b, 8);
  }

  lemma IdUnique(a: TxID, b: TxID, s: seq<Byte>, t: seq<Byte>)
    requires WriteId(a, s) == WriteId(b, t)
    ensures a == b && s == t
  {
    SplitTail(Big(a, 32), Big(b, 32), s, t);
    WidePowers();
    BigUnique(a, b, 32);
  }

  function WriteHash(k: Codec, d: Digest, tail: seq<Byte>): seq<Byte> {
    k.hash(d) + tail
  }

  lemma HashUnique(k: Codec, used: set<Digest>, a: Digest, b: Digest, s: seq<Byte>, t: seq<Byte>)
    requires Sane(k, used) && a in used && b in used && WriteHash(k, a, s) == WriteHash(k, b, t)
    ensures a == b && s == t
  {
    SplitTail(k.hash(a), k.hash(b), s, t);
  }

  function WriteAll<T>(w: (T, seq<Byte>) -> seq<Byte>, xs: seq<T>, tail: seq<Byte>): seq<Byte> {
    if xs == [] then tail else w(xs[0], WriteAll(w, xs[1..], tail))
  }

  /** A length, then the elements. */
  function WriteList<T>(w: (T, seq<Byte>) -> seq<Byte>, xs: seq<T>, tail: seq<Byte>): seq<Byte> {
    WriteU64(|xs|, WriteAll(w, xs, tail))
  }

  /** What is written, up to `same`, can be read back off the front. */
  ghost predicate Unique<T(!new)>(w: (T, seq<Byte>) -> seq<Byte>, fits: T -> bool, same: (T, T) -> bool) {
    forall a, b, s, t :: fits(a) && fits(b) && w(a, s) == w(b, t) ==> same(a, b) && s == t
  }

  ghost predicate AllFit<T>(fits: T -> bool, xs: seq<T>) {
    |xs| < U64_LIMIT && forall i :: 0 <= i < |xs| ==> fits(xs[i])
  }

  ghost predicate AllSame<T>(same: (T, T) -> bool, xs: seq<T>, ys: seq<T>) {
    |xs| == |ys| && forall i :: 0 <= i < |xs| ==> same(xs[i], ys[i])
  }

  lemma {:induction false} AllUnique<T(!new)>(w: (T, seq<Byte>) -> seq<Byte>, fits: T -> bool, same: (T, T) -> bool,
                                              xs: seq<T>, ys: seq<T>, s: seq<Byte>, t: seq<Byte>)
    requires Unique(w, fits, same) && AllFit(fits, xs) && AllFit(fits, ys) && |xs| == |ys|
    requires WriteAll(w, xs, s) == WriteAll(w, ys, t)
    ensures AllSame(same, xs, ys) && s == t
  {
    if xs != [] {
      assert fits(xs[0]) && fits(ys[0]);
      assert w(xs[0], WriteAll(w, xs[1..], s)) == w(ys[0], WriteAll(w, ys[1..], t));
      AllUnique(w, fits, same, xs[1..], ys[1..], s, t);
      forall i | 0 <= i < |xs| ensures same(xs[i], ys[i]) {
        assert i > 0 ==> same(xs[1..][i - 1], ys[1..][i - 1]);
      }
    }
  }

  lemma ListUnique<T(!new)>(w: (T, seq<Byte>) -> seq<Byte>, fits: T -> bool, same: (T, T) -> bool,
                            xs: seq<T>, ys: seq<T>, s: seq<Byte>, t: seq<Byte>)
    requires Unique(w, fits, same) && AllFit(fits, xs) && AllFit(fits, ys)
    requires WriteList(w, xs, s) == WriteList(w, ys, t)
    ensures AllSame(same, xs, ys) && s == t
  {
    U64Unique(|xs|, |ys|, WriteAll(w, xs, s), WriteAll(w, ys, t));
    AllUnique(w, fits, same, xs, ys, s, t);
  }
}

/** Bytes and the big-endian integers the wire formats are made of. */
module Bytes {
  type Byte = b: int | 0 <= b < 256

  /** 256 to the power `width`. */
  function Span(width: nat): (n: nat)
    ensures n >= 1
  {
    if width == 0 then 1 else 256 * Span(width - 1)
  }

  /** The unsigned integer a big-endian byte string denotes. */
  function FromBe(s: seq<Byte>): (n: nat)
    ensures n < Span(|s|)
  {
    if s == [] then 0 else
      var high := FromBe(s[..|s| - 1]);
      assert high + 1 <= Span(|s| - 1);
      256 * high + s[|s| - 1]
  }

  /** The `width` low-order bytes of `n`, most significant first. */
  function ToBe(n: nat, width: nat): (s: seq<Byte>)
    ensures |s| == width
  {
    if width == 0 then [] else ToBe(n / 256, width - 1) + [n % 256]
  }

  lemma {:induction false} FromToBe(n: nat, width: nat)
    requires n < Span(width)
    ensures FromBe(ToBe(n, width)) == n
  {
    if width > 0 {
      FromToBe(n / 256, width - 1);
      assert ToBe(n, width)[..width - 1] == ToBe(n / 256, width - 1);
    }
  }

  lemma {:induction false} ToFromBe(s: seq<Byte>)
    ensures ToBe(FromBe(s), |s|) == s
  {
    if s != [] {
      var high := FromBe(s[..|s| - 1]);
      assert FromBe(s) / 256 == high && FromBe(s) % 256 == s[|s| - 1];
      ToFromBe(s[..|s| - 1]);
    }
  }

  /** The two's-complement integer a big-endian byte string denotes. */
  function SignedFromBe(s: seq<Byte>): int {
    var n := FromBe(s);
    if 2 * n < Span(|s|) then n else n - Span(|s|)
  }

  predicate FitsSigned(i: int, width: nat) {
    0 <= 2 * i + Span(width) && 2 * i < Span(width)
  }

  function SignedToBe(i: int, width: nat): (s: seq<Byte>)
    requires FitsSigned(i, width)
    ensures |s| == width
  {
    ToBe(if i < 0 then i + Span(width) else i, width)
  }

  lemma SignedRoundTrip(i: int, width: nat)
    requires FitsSigned(i, width)
    ensures SignedFromBe(SignedToBe(i, width)) == i
  {
    FromToBe(if i < 0 then i + Span(width) else i, width);
  }

  lemma SignedUnique(s: seq<Byte>)
    ensures FitsSigned(SignedFromBe(s), |s|)
    ensures SignedToBe(SignedFromBe(s), |s|) == s
  {
    ToFromBe(s);
  }
}

/** What the words, functions and bytes of the digest are, by the formulas of FIPS 180-4. */
module Sha256Standard {
  import opened Bytes
  import opened Sha256

  // ---------------------------------------------------------------------- constants

  const PRIMES: seq<nat> :=
    [2, 3, 5, 7, 11, 13, 17, 19, 23, 29, 31, 37, 41, 43, 47, 53] +
    [59, 61, 67, 71, 73, 79, 83, 89, 97, 101, 103, 107, 109, 113, 127, 131] +
    [137, 139, 149, 151, 157, 163, 167, 173, 179, 181, 191, 193, 197, 199, 211, 223] +
    [227, 229, 233, 239, 241, 251, 257, 263, 269, 271, 277, 281, 283, 293, 307, 311]

  predicate CubeRootNear(whole: nat, fraction: Word, n: nat) {
    var root := whole * SPAN + fraction;
    root * root * root <= n * SPAN * SPAN * SPAN < (root + 1) * (root + 1) * (root + 1)
  }

  predicate SquareRootNear(whole: nat, fraction: Word, n: nat) {
    var root := whole * SPAN + fraction;
    root * root <= n * SPAN * SPAN < (root + 1) * (root + 1)
  }

  /** The first 32 bits after the point of the cube root of `n`. */
  ghost predicate CubeRootFraction(fraction: Word, n: nat) {
    exists whole: nat :: CubeRootNear(whole, fraction, n)
  }

  /** The first 32 bits after the point of the square root of `n`. */
  ghost predicate SquareRootFraction(fraction: Word, n: nat) {
    exists whole: nat :: SquareRootNear(whole, fraction, n)
  }

  lemma CubeRoot(whole: nat, fraction: Word, n: nat)
    requires CubeRootNear(whole, fraction, n)
    ensures CubeRootFraction(fraction, n)
  {
  }

  lemma SquareRoot(whole: nat, fraction: Word, n: nat)
    requires SquareRootNear(whole, fraction, n)
    ensures SquareRootFraction(fraction, n)
  {
  }

  lemma CubeRoots0()
    ensures forall t :: 0 <= t < 8 ==> CubeRootFraction(ROUND[t], PRIMES[t])
  {
    hide CubeRootFraction;
    forall t | 0 <= t < 8 ensures CubeRootFraction(ROUND[t], PRIMES[t]) {
      if t == 0 { CubeRoot(1, 0x428a2f98, 2); }
      if t == 1 { CubeRoot(1, 0x71374491, 3); }
      if t == 2 { CubeRoot(1, 0xb5c0fbcf, 5); }
      if t == 3 { CubeRoot(1, 0xe9b5dba5, 7); }
      if t == 4 { CubeRoot(2, 0x3956c25b, 11); }
      if t == 5 { CubeRoot(2, 0x59f111f1, 13); }
      if t == 6 { CubeRoot(2, 0x923f82a4, 17); }
      if t == 7 { CubeRoot(2, 0xab1c5ed5, 19); }
    }
  }

  lemma CubeRoots8()
    ensures forall t :: 8 <= t < 16 ==> CubeRootFraction(ROUND[t], PRIMES[t])
  {
    hide CubeRootFraction;
    forall t | 8 <= t < 16 ensures CubeRootFraction(ROUND[t], PRIMES[t]) {
      if t == 8 { CubeRoot(2, 0xd807aa98, 23); }
      if t == 9 { CubeRoot(3, 0x12835b01, 29); }
      if t == 10 { CubeRoot(3, 0x243185be, 31); }
      if t == 11 { CubeRoot(3, 0x550c7dc3, 37); }
      if t == 12 { CubeRoot(3, 0x72be5d74, 41); }
      if t == 13 { CubeRoot(3, 0x80deb1fe, 43); }
      if t == 14 { CubeRoot(3, 0x9bdc06a7, 47); }
      if t == 15 { CubeRoot(3, 0xc19bf174, 53); }
    }
  }

  lemma CubeRoots16()
    ensures forall t :: 16 <= t < 24 ==> CubeRootFraction(ROUND[t], PRIMES[t])
  {
    hide CubeRootFraction;
    forall t | 16 <= t < 24 ensures CubeRootFraction(ROUND[t], PRIMES[t]) {
      if t == 16 { CubeRoot(3, 0xe49b69c1, 59); }
      if t == 17 { CubeRoot(3, 0xefbe4786, 61); }
      if t == 18 { CubeRoot(4, 0x0fc19dc6, 67); }
      if t == 19 { CubeRoot(4, 0x240ca1cc, 71); }
      if t == 20 { CubeRoot(4, 0x2de92c6f, 73); }
      if t == 21 { CubeRoot(4, 0x4a7484aa, 79); }
      if t == 22 { CubeRoot(4, 0x5cb0a9dc, 83); }
      if t == 23 { CubeRoot(4, 0x76f988da, 89); }
    }
  }

  lemma CubeRoots24()
    ensures forall t :: 24 <= t < 32 ==> CubeRootFraction(ROUND[t], PRIMES[t])
  {
    hide CubeRootFraction;
    forall t | 24 <= t < 32 ensures CubeRootFraction(ROUND[t], PRIMES[t]) {
      if t == 24 { CubeRoot(4, 0x983e5152, 97); }
      if t == 25 { CubeRoot(4, 0xa831c66d, 101); }
      if t == 26 { CubeRoot(4, 0xb00327c8, 103); }
      if t == 27 { CubeRoot(4, 0xbf597fc7, 107); }
      if t == 28 { CubeRoot(4, 0xc6e00bf3, 109); }
      if t == 29 { CubeRoot(4, 0xd5a79147, 113); }
      if t == 30 { CubeRoot(5, 0x06ca6351, 127); }
      if t == 31 { CubeRoot(5, 0x14292967, 131); }
    }
  }

  lemma CubeRoots32()
    ensures forall t :: 32 <= t < 40 ==> CubeRootFraction(ROUND[t], PRIMES[t])
  {
    hide CubeRootFraction;
    forall t | 32 <= t < 40 ensures CubeRootFraction(ROUND[t], PRIMES[t]) {
      if t == 32 { CubeRoot(5, 0x27b70a85, 137); }
      if t == 33 { CubeRoot(5, 0x2e1b2138, 139); }
      if t == 34 { CubeRoot(5, 0x4d2c6dfc, 149); }
      if t == 35 { CubeRoot(5, 0x53380d13, 151); }
      if t == 36 { CubeRoot(5, 0x650a7354, 157); }
      if t == 37 { CubeRoot(5, 0x766a0abb, 163); }
      if t == 38 { CubeRoot(5, 0x81c2c92e, 167); }
      if t == 39 { CubeRoot(5, 0x92722c85, 173); }
    }
  }

  lemma CubeRoots40()
    ensures forall t :: 40 <= t < 48 ==> CubeRootFraction(ROUND[t], PRIMES[t])
  {
    hide CubeRootFraction;
    forall t | 40 <= t < 48 ensures CubeRootFraction(ROUND[t], PRIMES[t]) {
      if t == 40 { CubeRoot(5, 0xa2bfe8a1, 179); }
      if t == 41 { CubeRoot(5, 0xa81a664b, 181); }
      if t == 42 { CubeRoot(5, 0xc24b8b70, 191); }
      if t == 43 { CubeRoot(5, 0xc76c51a3, 193); }
      if t == 44 { CubeRoot(5, 0xd192e819, 197); }
      if t == 45 { CubeRoot(5, 0xd6990624, 199); }
      if t == 46 { CubeRoot(5, 0xf40e3585, 211); }
      if t == 47 { CubeRoot(6, 0x106aa070, 223); }
    }
  }

  lemma CubeRoots48()
    ensures forall t :: 48 <= t < 56 ==> CubeRootFraction(ROUND[t], PRIMES[t])
  {
    hide CubeRootFraction;
    forall t | 48 <= t < 56 ensures CubeRootFraction(ROUND[t], PRIMES[t]) {
      if t == 48 { CubeRoot(6, 0x19a4c116, 227); }
      if t == 49 { CubeRoot(6, 0x1e376c08, 229); }
      if t == 50 { CubeRoot(6, 0x2748774c, 233); }
      if t == 51 { CubeRoot(6, 0x34b0bcb5, 239); }
      if t == 52 { CubeRoot(6, 0x391c0cb3, 241); }
      if t == 53 { CubeRoot(6, 0x4ed8aa4a, 251); }
      if t == 54 { CubeRoot(6, 0x5b9cca4f, 257); }
      if t == 55 { CubeRoot(6, 0x682e6ff3, 263); }
    }
  }

  lemma CubeRoots56()
    ensures forall t :: 56 <= t < 64 ==> CubeRootFraction(ROUND[t], PRIMES[t])
  {
    hide CubeRootFraction;
    forall t | 56 <= t < 64 ensures CubeRootFraction(ROUND[t], PRIMES[t]) {
      if t == 56 { CubeRoot(6, 0x748f82ee, 269); }
      if t == 57 { CubeRoot(6, 0x78a5636f, 271); }
      if t == 58 { CubeRoot(6, 0x84c87814, 277); }
      if t == 59 { CubeRoot(6, 0x8cc70208, 281); }
      if t == 60 { CubeRoot(6, 0x90befffa, 283); }
      if t == 61 { CubeRoot(6, 0xa4506ceb, 293); }
      if t == 62 { CubeRoot(6, 0xbef9a3f7, 307); }
      if t == 63 { CubeRoot(6, 0xc67178f2, 311); }
    }
  }

  lemma SquareRoots()
    ensures
      var start := [INITIAL.a, INITIAL.b, INITIAL.c, INITIAL.d, INITIAL.e, INITIAL.f, INITIAL.g, INITIAL.h];
      forall t :: 0 <= t < 8 ==> SquareRootFraction(start[t], PRIMES[t])
  {
    hide SquareRootFraction;
    var start := [INITIAL.a, INITIAL.b, INITIAL.c, INITIAL.d, INITIAL.e, INITIAL.f, INITIAL.g, INITIAL.h];
    forall t | 0 <= t < 8 ensures SquareRootFraction(start[t], PRIMES[t]) {
      if t == 0 { SquareRoot(1, 0x6a09e667, 2); }
      if t == 1 { SquareRoot(1, 0xbb67ae85, 3); }
      if t == 2 { SquareRoot(2, 0x3c6ef372, 5); }
      if t == 3 { SquareRoot(2, 0xa54ff53a, 7); }
      if t == 4 { SquareRoot(3, 0x510e527f, 11); }
      if t == 5 { SquareRoot(3, 0x9b05688c, 13); }
      if t == 6 { SquareRoot(4, 0x1f83d9ab, 17); }
      if t == 7 { SquareRoot(4, 0x5be0cd19, 19); }
    }
  }

  /**
   Sections 4.2.2 and 5.3.3: the first 32 bits of the fractional parts of the cube roots of the first 64
   primes, and of the square roots of the first eight.
   */
  lemma ConstantsAreRoots()
    ensures |ROUND| == 64 && forall t :: 0 <= t < 64 ==> CubeRootFraction(ROUND[t], PRIMES[t])
    ensures
      var start := [INITIAL.a, INITIAL.b, INITIAL.c, INITIAL.d, INITIAL.e, INITIAL.f, INITIAL.g, INITIAL.h];
      forall t :: 0 <= t < 8 ==> SquareRootFraction(start[t], PRIMES[t])
  {
    hide CubeRootFraction, SquareRootFraction;
    CubeRoots0();
    CubeRoots8();
    CubeRoots16();
    CubeRoots24();
    CubeRoots32();
    CubeRoots40();
    CubeRoots48();
    CubeRoots56();
    SquareRoots();
  }

  // ---------------------------------------------------------------------- functions

  // The functions of section 4.1.2 by the shifts of section 3.2.

  function ShiftedBigSigma0(b: bv32): bv32 {
    ((b >> 2) | (b << 30)) ^ ((b >> 13) | (b << 19)) ^ ((b >> 22) | (b << 10))
  }

  lemma BigSigma0Shifts(b: bv32)
    ensures BigSigma0Bits(b) == ShiftedBigSigma0(b)
  {
  }

  lemma BigSigma0OfBits(x: Word)
    ensures BigSigma0(x) == ShiftedBigSigma0(Bits(x)) as int
  {
    BigSigma0Shifts(Bits(x));
    hide Bits, BigSigma0Bits, ShiftedBigSigma0;
  }

  lemma BigSigma0IsShifts(x: Word)
    ensures
      var b := Bits(x);
      BigSigma0(x) == (((b >> 2) | (b << 30)) ^ ((b >> 13) | (b << 19)) ^ ((b >> 22) | (b << 10))) as int
  {
    BigSigma0OfBits(x);
    hide Bits, BigSigma0Bits, BigSigma0;
  }

  function ShiftedBigSigma1(b: bv32): bv32 {
    ((b >> 6) | (b << 26)) ^ ((b >> 11) | (b << 21)) ^ ((b >> 25) | (b << 7))
  }

  lemma BigSigma1Shifts(b: bv32)
    ensures BigSigma1Bits(b) == ShiftedBigSigma1(b)
  {
  }

  lemma BigSigma1OfBits(x: Word)
    ensures BigSigma1(x) == ShiftedBigSigma1(Bits(x)) as int
  {
    BigSigma1Shifts(Bits(x));
    hide Bits, BigSigma1Bits, ShiftedBigSigma1;
  }

  lemma BigSigma1IsShifts(x: Word)
    ensures
      var b := Bits(x);
      BigSigma1(x) == (((b >> 6) | (b << 26)) ^ ((b >> 11) | (b << 21)) ^ ((b >> 25) | (b << 7))) as int
  {
    BigSigma1OfBits(x);
    hide Bits, BigSigma1Bits, BigSigma1;
  }

  function ShiftedSmallSigma0(b: bv32): bv32 {
    ((b >> 7) | (b << 25)) ^ ((b >> 18) | (b << 14)) ^ (b >> 3)
  }

  lemma SmallSigma0Shifts(b: bv32)
    ensures SmallSigma0Bits(b) == ShiftedSmallSigma0(b)
  {
  }

  lemma SmallSigma0OfBits(x: Word)
    ensures SmallSigma0(x) == ShiftedSmallSigma0(Bits(x)) as int
  {
    SmallSigma0Shifts(Bits(x));
    hide Bits, SmallSigma0Bits, ShiftedSmallSigma0;
  }

  lemma SmallSigma0IsShifts(x: Word)
    ensures
      var b := Bits(x);
      SmallSigma0(x) == (((b >> 7) | (b << 25)) ^ ((b >> 18) | (b << 14)) ^ (b >> 3)) as int
  {
    SmallSigma0OfBits(x);
    hide Bits, SmallSigma0Bits, SmallSigma0;
  }

  function ShiftedSmallSigma1(b: bv32): bv32 {
    ((b >> 17) | (b << 15)) ^ ((b >> 19) | (b << 13)) ^ (b >> 10)
  }

  lemma SmallSigma1Shifts(b: bv32)
    ensures SmallSigma1Bits(b) == ShiftedSmallSigma1(b)
  {
  }

  lemma SmallSigma1OfBits(x: Word)
    ensures SmallSigma1(x) == ShiftedSmallSigma1(Bits(x)) as int
  {
    SmallSigma1Shifts(Bits(x));
    hide Bits, SmallSigma1Bits, ShiftedSmallSigma1;
  }

  lemma SmallSigma1IsShifts(x: Word)
    ensures
      var b := Bits(x);
      SmallSigma1(x) == (((b >> 17) | (b << 15)) ^ ((b >> 19) | (b << 13)) ^ (b >> 10)) as int
  {
    SmallSigma1OfBits(x);
    hide Bits, SmallSigma1Bits, SmallSigma1;
  }

  lemma Chosen(b: bv32, c: bv32, d: bv32)
    ensures (b & c) ^ (!b & d) == (b & c) | (!b & d)
    ensures (b & c) ^ (b & d) ^ (c & d) == (b & c) | (b & d) | (c & d)
  {
  }

  /** Bit by bit, one word chooses between the other two, and the majority of three is taken. */
  lemma WordsChoose(x: Word, y: Word, z: Word)
    ensures
      var b, c, d := Bits(x), Bits(y), Bits(z);
      && Ch(x, y, z) == ((b & c) | (!b & d)) as int
      && Maj(x, y, z) == ((b & c) | (b & d) | (c & d)) as int
  {
    Chosen(Bits(x), Bits(y), Bits(z));
  }

  // ------------------------------------------------------------------------- bytes

  /** The digest is read back as the words of the hash, in their order. */
  lemma DigestIsRead(v: Hash)
    ensures |DigestBytes(v)| == 32
    ensures
      var words := [v.a, v.b, v.c, v.d, v.e, v.f, v.g, v.h];
      forall i :: 0 <= i < 8 ==> WordAt(DigestBytes(v), 4 * i) == words[i]
  {
    hide ToBe, FromBe;
    assert Span(4) == SPAN;
    var words := [v.a, v.b, v.c, v.d, v.e, v.f, v.g, v.h];
    forall i | 0 <= i < 8 ensures WordAt(DigestBytes(v), 4 * i) == words[i] {
      FromToBe(words[i], 4);
      assert DigestBytes(v)[4 * i..4 * i + 4] == ToBe(words[i], 4);
    }
  }

  /** The padding is read back: the message, a one bit, zeros, and the length in bits. */
  lemma PaddingIsRead(message: seq<Byte>)
    requires 8 * |message| < 0x1_0000_0000_0000_0000
    ensures
      var padded := Padded(message);
      var end := |padded| - 8;
      && |message| < end
      && padded[..|message|] == message && padded[|message|] == 0x80
      && (forall i :: |message| < i < end ==> padded[i] == 0)
      && FromBe(padded[end..]) == 8 * |message|
  {
    EightBytes();
    hide ToBe, FromBe, Span;
    var zeros, tail := Zeros(ZeroCount(|message|)), ToBe(8 * |message| % Span(8), 8);
    Assembled(message, zeros, tail);
    assert forall i :: 0 <= i < |zeros| ==> zeros[i] == 0;
    hide ZeroCount, Zeros;
    FromToBe(8 * |message|, 8);
  }

  lemma EightBytes()
    ensures Span(8) == 0x1_0000_0000_0000_0000
  {
  }

  lemma Assembled(message: seq<Byte>, zeros: seq<Byte>, tail: seq<Byte>)
    requires |tail| == 8
    ensures
      var padded := message + [0x80] + zeros + tail;
      var end := |padded| - 8;
      && |message| < end && end == |message| + 1 + |zeros|
      && padded[..|message|] == message && padded[|message|] == 0x80
      && (forall i :: |message| < i < end ==> padded[i] == zeros[i - |message| - 1])
      && padded[end..] == tail
  {
  }
}

/**
 The SHA-256 of the Vertex scope fingerprint: its padding against section 5.1.1 of FIPS 180-4 and
 its loops against section 6.2.2.
 */
module Sha256 {
  import opened Wrappers
  import opened Bytes

  const SPAN := 0x1_0000_0000

  type Word = n: nat | n < SPAN

  /** Addition that wraps around. */
  function Add(x: Word, y: Word): Word {
    if x + y >= SPAN then x + y - SPAN else x + y
  }

  // ------------------------------------------------------------------- the standard

  /** The constants of section 4.2.2. */
  const ROUND: seq<Word> :=
    [0x428a2f98, 0x71374491, 0xb5c0fbcf, 0xe9b5dba5, 0x3956c25b, 0x59f111f1, 0x923f82a4, 0xab1c5ed5,
     0xd807aa98, 0x12835b01, 0x243185be, 0x550c7dc3, 0x72be5d74, 0x80deb1fe, 0x9bdc06a7, 0xc19bf174] +
    [0xe49b69c1, 0xefbe4786, 0x0fc19dc6, 0x240ca1cc, 0x2de92c6f, 0x4a7484aa, 0x5cb0a9dc, 0x76f988da,
     0x983e5152, 0xa831c66d, 0xb00327c8, 0xbf597fc7, 0xc6e00bf3, 0xd5a79147, 0x06ca6351, 0x14292967] +
    [0x27b70a85, 0x2e1b2138, 0x4d2c6dfc, 0x53380d13, 0x650a7354, 0x766a0abb, 0x81c2c92e, 0x92722c85,
     0xa2bfe8a1, 0xa81a664b, 0xc24b8b70, 0xc76c51a3, 0xd192e819, 0xd6990624, 0xf40e3585, 0x106aa070] +
    [0x19a4c116, 0x1e376c08, 0x2748774c, 0x34b0bcb5, 0x391c0cb3, 0x4ed8aa4a, 0x5b9cca4f, 0x682e6ff3,
     0x748f82ee, 0x78a5636f, 0x84c87814, 0x8cc70208, 0x90befffa, 0xa4506ceb, 0xbef9a3f7, 0xc67178f2]

  function K(t: nat): Word
    requires t < 64
  {
    ROUND[t]
  }

  datatype Hash = Hash(a: Word, b: Word, c: Word, d: Word, e: Word, f: Word, g: Word, h: Word)

  /** The initial value of section 5.3.3. */
  const INITIAL := Hash(
    0x6a09e667, 0xbb67ae85, 0x3c6ef372, 0xa54ff53a, 0x510e527f, 0x9b05688c, 0x1f83d9ab, 0x5be0cd19)

  // The functions of section 4.1.2.

  function Bits(x: Word): bv32 {
    x as bv32
  }

  function Ch(x: Word, y: Word, z: Word): Word {
    ((Bits(x) & Bits(y)) ^ (!Bits(x) & Bits(z))) as int
  }

  function Maj(x: Word, y: Word, z: Word): Word {
    ((Bits(x) & Bits(y)) ^ (Bits(x) & Bits(z)) ^ (Bits(y) & Bits(z))) as int
  }

  function BigSigma0(x: Word): Word {
    BigSigma0Bits(Bits(x)) as int
  }

  function BigSigma0Bits(b: bv32): bv32 {
    b.RotateRight(2) ^ b.RotateRight(13) ^ b.RotateRight(22)
  }

  function BigSigma1(x: Word): Word {
    BigSigma1Bits(Bits(x)) as int
  }

  function BigSigma1Bits(b: bv32): bv32 {
    b.RotateRight(6) ^ b.RotateRight(11) ^ b.RotateRight(25)
  }

  function SmallSigma0(x: Word): Word {
    SmallSigma0Bits(Bits(x)) as int
  }

  function SmallSigma0Bits(b: bv32): bv32 {
    b.RotateRight(7) ^ b.RotateRight(18) ^ (b >> 3)
  }

  function SmallSigma1(x: Word): Word {
    SmallSigma1Bits(Bits(x)) as int
  }

  function SmallSigma1Bits(b: bv32): bv32 {
    b.RotateRight(17) ^ b.RotateRight(19) ^ (b >> 10)
  }

  /** Step 1 of section 6.2.2: the message schedule of a block. */
  function Schedule(block: seq<Word>, t: nat): Word
    requires |block| == 16 && t < 64
  {
    if t < 16 then block[t]
    else
      Add(Add(Add(SmallSigma1(Schedule(block, t - 2)), Schedule(block, t - 7)),
              SmallSigma0(Schedule(block, t - 15))), Schedule(block, t - 16))
  }

  /** Step 3: one round. */
  function Round(v: Hash, k: Word, w: Word): Hash {
    var t1 := Add(Add(Add(Add(v.h, BigSigma1(v.e)), Ch(v.e, v.f, v.g)), k), w);
    var t2 := Add(BigSigma0(v.a), Maj(v.a, v.b, v.c));
    Hash(Add(t1, t2), v.a, v.b, v.c, Add(v.d, t1), v.e, v.f, v.g)
  }

  function Rounds(block: seq<Word>, v: Hash, count: nat): Hash
    requires |block| == 16 && count <= 64
  {
    if count == 0 then v else Round(Rounds(block, v, count - 1), K(count - 1), Schedule(block, count - 1))
  }

  /** Step 4: the intermediate hash. */
  function Added(v: Hash, w: Hash): Hash {
    Hash(Add(v.a, w.a), Add(v.b, w.b), Add(v.c, w.c), Add(v.d, w.d),
         Add(v.e, w.e), Add(v.f, w.f), Add(v.g, w.g), Add(v.h, w.h))
  }

  function Compress(v: Hash, block: seq<Word>): Hash
    requires |block| == 16
  {
    Added(Rounds(block, v, 64), v)
  }

  function Zeros(count: nat): (zeros: seq<Byte>)
    ensures |zeros| == count
  {
    seq(count, _ => 0)
  }

  /** The zero bytes that fill the last block up to the length. */
  function ZeroCount(length: nat): (zeros: nat)
    ensures (length + 1 + zeros + 8) % 64 == 0 && zeros < 64
  {
    (119 - length % 64) % 64
  }

  /** Fewer zeros would not fill the last block. */
  lemma PaddingIsLeast(length: nat, fewer: nat)
    requires fewer < ZeroCount(length)
    ensures (length + 1 + fewer + 8) % 64 != 0
  {
    var gap := ZeroCount(length) - fewer;
    assert 0 < gap < 64 && length + 1 + ZeroCount(length) + 8 - gap == length + 1 + fewer + 8;
  }

  /** Padding of section 5.1.1 in bytes: a one bit, the fewest zeros, and the length in bits. */
  function Padded(message: seq<Byte>): (padded: seq<Byte>)
    ensures |padded| % 64 == 0
  {
    message + [0x80] + Zeros(ZeroCount(|message|)) + ToBe(8 * |message| % Span(8), 8)
  }

  // ------------------------------------------------------------------------- words

  function WordAt(bytes: seq<Byte>, at: nat): Word
    requires at + 4 <= |bytes|
  {
    assert Span(4) == SPAN;
    FromBe(bytes[at..at + 4])
  }

  function BlockAt(padded: seq<Byte>, at: nat): (block: seq<Word>)
    requires at + 64 <= |padded|
    ensures |block| == 16
  {
    seq(16, i requires 0 <= i < 16 => WordAt(padded, at + 4 * i))
  }

  function HashBlocks(padded: seq<Byte>, count: nat): Hash
    requires 64 * count <= |padded|
  {
    if count == 0 then INITIAL
    else Compress(HashBlocks(padded, count - 1), BlockAt(padded, 64 * (count - 1)))
  }

  // --------------------------------------------------------------------- the program

  method Pad(input: seq<Byte>) returns (padded: seq<Byte>)
    ensures padded == Padded(input)
  {
    var bitLength := 8 * |input| % Span(8);
    var length := (|input| + 9 + 63) / 64 * 64;
    padded := input + [0x80];
    assert length - 8 - |padded| == ZeroCount(|input|);
    padded := padded + Zeros(length - 8 - |padded|);
    padded := padded + ToBe(bitLength, 8);
  }

  lemma FirstWords(block: seq<Word>, t: nat)
    requires |block| == 16 && t < 16
    ensures Schedule(block, t) == block[t]
  {
  }

  /** The program adds the terms of step 1 in another order. */
  lemma LaterWords(block: seq<Word>, t: nat)
    requires |block| == 16 && 16 <= t < 64
    ensures Schedule(block, t) ==
      Add(Add(Add(Schedule(block, t - 16), SmallSigma0(Schedule(block, t - 15))), Schedule(block, t - 7)),
          SmallSigma1(Schedule(block, t - 2)))
  {
    hide SmallSigma0, SmallSigma1;
    Reordered(Schedule(block, t - 16), SmallSigma0(Schedule(block, t - 15)), Schedule(block, t - 7),
              SmallSigma1(Schedule(block, t - 2)));
  }

  lemma Reordered(w: Word, x: Word, y: Word, z: Word)
    ensures Add(Add(Add(w, x), y), z) == Add(Add(Add(z, y), x), w)
  {
  }

  /** Fills the schedule in place. */
  method FillSchedule(schedule: array<Word>, padded: seq<Byte>, at: nat)
    requires schedule.Length == 64 && at + 64 <= |padded|
    modifies schedule
    ensures forall t :: 0 <= t < 64 ==> schedule[t] == Schedule(BlockAt(padded, at), t)
  {
    hide SmallSigma0, SmallSigma1, WordAt, Schedule, Add;
    ghost var block := BlockAt(padded, at);
    for t := 0 to 16
      invariant forall k :: 0 <= k < t ==> schedule[k] == Schedule(block, k)
    {
      FirstWords(block, t);
      schedule[t] := WordAt(padded, at + 4 * t);
    }
    for t := 16 to 64
      invariant forall k :: 0 <= k < t ==> schedule[k] == Schedule(block, k)
    {
      LaterWords(block, t);
      var s0 := SmallSigma0(schedule[t - 15]);
      var s1 := SmallSigma1(schedule[t - 2]);
      schedule[t] := Add(Add(Add(schedule[t - 16], s0), schedule[t - 7]), s1);
    }
  }

  method RunRounds(schedule: array<Word>, ghost block: seq<Word>, state: Hash) returns (v: Hash)
    requires schedule.Length == 64 && |block| == 16
    requires forall t :: 0 <= t < 64 ==> schedule[t] == Schedule(block, t)
    ensures v == Rounds(block, state, 64)
  {
    hide BigSigma0, BigSigma1, Ch, Maj, Schedule, Round, Rounds, K, Add;
    var a, b, c, d := state.a, state.b, state.c, state.d;
    var e, f, g, h := state.e, state.f, state.g, state.h;
    NoRounds(block, state);
    for t := 0 to 64
      invariant Hash(a, b, c, d, e, f, g, h) == Rounds(block, state, t)
    {
      var first := Add(Add(Add(Add(h, BigSigma1(e)), Ch(e, f, g)), K(t)), schedule[t]);
      var second := Add(BigSigma0(a), Maj(a, b, c));
      OneRound(block, state, t, Hash(a, b, c, d, e, f, g, h), first, second);
      h := g;
      g := f;
      f := e;
      e := Add(d, first);
      d := c;
      c := b;
      b := a;
      a := Add(first, second);
    }
    v := Hash(a, b, c, d, e, f, g, h);
  }

  lemma NoRounds(block: seq<Word>, state: Hash)
    requires |block| == 16
    ensures Rounds(block, state, 0) == state
  {
  }

  lemma OneRound(block: seq<Word>, state: Hash, t: nat, v: Hash, first: Word, second: Word)
    requires |block| == 16 && t < 64 && v == Rounds(block, state, t)
    requires first == Add(Add(Add(Add(v.h, BigSigma1(v.e)), Ch(v.e, v.f, v.g)), K(t)), Schedule(block, t))
    requires second == Add(BigSigma0(v.a), Maj(v.a, v.b, v.c))
    ensures Rounds(block, state, t + 1) == Hash(Add(first, second), v.a, v.b, v.c, Add(v.d, first), v.e, v.f, v.g)
  {
    hide BigSigma0, BigSigma1, Ch, Maj, Schedule, K, Add;
  }

  /** The digest is the final hash, word by word, most significant byte first. */
  function DigestBytes(v: Hash): seq<Byte> {
    ToBe(v.a, 4) + ToBe(v.b, 4) + ToBe(v.c, 4) + ToBe(v.d, 4)
    + ToBe(v.e, 4) + ToBe(v.f, 4) + ToBe(v.g, 4) + ToBe(v.h, 4)
  }

  method Digest(input: seq<Byte>) returns (digest: seq<Byte>)
    ensures digest == DigestBytes(HashBlocks(Padded(input), |Padded(input)| / 64))
  {
    hide Rounds, Schedule, BlockAt, DigestBytes, Padded;
    var message := Pad(input);
    var state := INITIAL;
    var schedule := new Word[64];
    for i := 0 to |message| / 64
      invariant state == HashBlocks(message, i)
    {
      FillSchedule(schedule, message, 64 * i);
      var v := RunRounds(schedule, BlockAt(message, 64 * i), state);
      state := Added(v, state);
    }
    digest := DigestBytes(state);
  }
}

/**
  MT19937, the 32-bit Mersenne Twister of Matsumoto and Nishimura (1998), as
  `mersenne_twister_engine` of the C++ standard ([rand.eng.mers]) defines it:
  word size w = 32, degree n = 624, middle word m = 397, separation r = 31,
  twist matrix a = 0x9908B0DF, tempering (u, d) = (11, 0xFFFFFFFF),
  (s, b) = (7, 0x9D2C5680), (t, c) = (15, 0xEFC60000), l = 18 and
  initialisation multiplier f = 1812433253.

  This module is the reference the generator in module Random is proved
  against. It defines the generator's sequence x_0, x_1, ... once (function X),
  the single in-place loop of the reference implementation (StandardTwist), and
  proves that the loop leaves x_n .. x_{2n-1} in the array.
*/
module Mt19937 {

  type Word = bv32

  const N: nat := 624
  const M: nat := 397
  const MatrixA: Word := 0x9908_B0DF
  const UpperMask: Word := 0x8000_0000
  const LowerMask: Word := 0x7FFF_FFFF
  const InitMultiplier: Word := 0x6C07_8965

  /** x_i = (f * (x_{i-1} xor (x_{i-1} >> 30)) + i) mod 2^32, for 0 < i < n. */
  function InitWord(prev: Word, i: nat): Word
    requires i < N
  {
    InitMultiplier * (prev ^ (prev >> 30)) + i as Word
  }

  /**
    The twist recurrence: the word that replaces x_k, computed from x_k (its
    upper bit), x_{k+1} (its lower 31 bits) and x_{k+m}.
  */
  function TwistWord(cur: Word, next: Word, far: Word): Word
  {
    var y := (cur & UpperMask) | (next & LowerMask);
    far ^ (y >> 1) ^ (if y & 1 == 1 then MatrixA else 0)
  }

  /** x_k for k < n: the k-th word of the state seeded with `seed`. */
  function Seeded(seed: Word, k: nat): Word
    requires k < N
  {
    if k == 0 then seed else InitWord(Seeded(seed, k - 1), k)
  }

  /** The state after seeding: x_0 .. x_{n-1}. */
  function InitState(seed: Word): (r: seq<Word>)
    ensures |r| == N
  {
    seq(N, k requires 0 <= k < N => Seeded(seed, k))
  }

  /**
    The word sequence that continues from the state `s` = x_0 .. x_{n-1}:
    x_{k+n} comes from x_k, x_{k+1} and x_{k+m}.
  */
  function Stream(s: seq<Word>, k: nat): Word
    requires |s| == N
  {
    if k < N then s[k]
    else TwistWord(Stream(s, k - N), Stream(s, k - N + 1), Stream(s, k - N + M))
  }

  /** x_k of the generator seeded with `seed`. */
  function X(seed: Word, k: nat): Word
  {
    Stream(InitState(seed), k)
  }

  /** The tempering transform applied to a state word on output. */
  function Temper(y: Word): Word
  {
    var z1 := y ^ (y >> 11);
    var z2 := z1 ^ ((z1 << 7) & 0x9D2C_5680);
    var z3 := z2 ^ ((z2 << 15) & 0xEFC6_0000);
    z3 ^ (z3 >> 18)
  }

  /** The state after one twist of `s`: slot k holds x_{n+k}. */
  function Next(s: seq<Word>): (r: seq<Word>)
    requires |s| == N
    ensures |r| == N
  {
    seq(N, k requires 0 <= k < N => Stream(s, N + k))
  }

  /** The state after seeding with `seed` and twisting once. */
  function Twisted(seed: Word): (r: seq<Word>)
    ensures |r| == N
  {
    Next(InitState(seed))
  }

  /**
    Which x slot k holds once the first `done` slots have been twisted: x_{n+k}
    for a slot already replaced, x_k for one still to do.
  */
  function Source(done: nat, k: nat): nat
  {
    if k < done then N + k else k
  }

  /** The state `s` part-way through its twist. */
  function Mixed(s: seq<Word>, done: nat): (r: seq<Word>)
    requires |s| == N
    ensures |r| == N
  {
    seq(N, k requires 0 <= k < N => Stream(s, Source(done, k)))
  }

  /**
    The reference implementation's twist, one in-place loop over the whole
    array with the neighbours taken modulo n: slots `i` .. n-1 are still to do.
  */
  function TwistFrom(s: seq<Word>, i: nat): (r: seq<Word>)
    requires |s| == N && i <= N
    ensures |r| == N
    decreases N - i
  {
    if i == N then s
    else TwistFrom(s[i := TwistWord(s[i], s[(i + 1) % N], s[(i + M) % N])], i + 1)
  }

  function StandardTwist(s: seq<Word>): (r: seq<Word>)
    requires |s| == N
    ensures |r| == N
  {
    TwistFrom(s, 0)
  }

  /** Slot i+1, read modulo n as the loop does, holds x_{i+1} when slot i is next. */
  lemma NextSource(i: nat)
    requires i < N
    ensures Source(i, (i + 1) % N) == i + 1
  {
  }

  /** Slot i+m, read modulo n as the loop does, holds x_{i+m} when slot i is next. */
  lemma FarSource(i: nat)
    requires i < N
    ensures Source(i, (i + M) % N) == i + M
  {
  }

  /** Nothing is twisted yet: the part-done state is the state itself. */
  lemma MixedStart(s: seq<Word>)
    requires |s| == N
    ensures Mixed(s, 0) == s
  {
  }

  /** Every slot is twisted: the part-done state is the next state. */
  lemma MixedEnd(s: seq<Word>)
    requires |s| == N
    ensures Mixed(s, N) == Next(s)
  {
  }

  /** Replacing slot i of a part-done state by the next twisted word. */
  lemma MixedStep(s: seq<Word>, i: nat)
    requires |s| == N && i < N
    ensures Mixed(s, i)[i := Stream(s, N + i)] == Mixed(s, i + 1)
  {
  }

  /**
    Each step of the reference loop replaces the next slot by the next word of
    the sequence, whatever the slots already done.
  */
  lemma {:induction false} TwistFromMixed(s: seq<Word>, i: nat)
    requires |s| == N && i <= N
    ensures TwistFrom(Mixed(s, i), i) == Next(s)
    decreases N - i
  {
    var t := Mixed(s, i);
    if i == N {
      MixedEnd(s);
    } else {
      NextSource(i);
      FarSource(i);
      assert TwistWord(t[i], t[(i + 1) % N], t[(i + M) % N]) == Stream(s, N + i);
      MixedStep(s, i);
      TwistFromMixed(s, i + 1);
    }
  }

  /**
    The reference loop applied to any state yields the next n words of the
    sequence continuing from it.
  */
  lemma StandardTwistIsNext(s: seq<Word>)
    requires |s| == N
    ensures StandardTwist(s) == Next(s)
  {
    MixedStart(s);
    TwistFromMixed(s, 0);
  }

  // The same computations at the width of a PHP integer on a 64-bit build,
  // where PHP keeps every bit that a shift or a product produces.

  const PhpIntMax: int := 0x7FFF_FFFF_FFFF_FFFF

  /**
    `0x6C078965 * v + i` for a 32-bit `v` and an index below n never exceeds
    PHP_INT_MAX, so PHP computes the exact product and never turns it into a
    float; masking it with 0xFFFFFFFF then takes it modulo 2^32.
  */
  function PhpInitProduct(v: int, i: int): (p: int)
    requires 0 <= v <= 0xFFFF_FFFF && 0 <= i < N
    ensures v <= p <= PhpIntMax
  {
    0x6C07_8965 * v + i
  }

  /**
    One twist step on 64-bit integers holding 32-bit words: the result is
    again a 32-bit word.
  */
  function PhpTwistWord(cur: bv64, next: bv64, far: bv64): (r: bv64)
    requires cur <= 0xFFFF_FFFF && next <= 0xFFFF_FFFF && far <= 0xFFFF_FFFF
    ensures r <= 0xFFFF_FFFF
  {
    var y := (cur & 0x8000_0000) | (next & 0x7FFF_FFFF);
    far ^ (y >> 1) ^ (if y & 1 == 1 then 0x9908_B0DF else 0)
  }

  /**
    Tempering on a 64-bit integer: the left shifts carry bits above bit 31,
    and the masks remove them again, so the result is a 32-bit word.
  */
  function PhpTemper(y: bv64): (r: bv64)
    requires y <= 0xFFFF_FFFF
    ensures r <= 0xFFFF_FFFF
  {
    var z1 := y ^ (y >> 11);
    var z2 := z1 ^ ((z1 << 7) & 0x9D2C_5680);
    var z3 := z2 ^ ((z2 << 15) & 0xEFC6_0000);
    z3 ^ (z3 >> 18)
  }
}

/**
  ReverseRegex's seeded Mersenne Twister (class MersenneRandom). The 624-word
  MT19937 state is rebuilt from the seed whenever the seed differs from the
  one it was last built from, and twisted once; every draw then reads the next
  slot of that state through a cursor that wraps modulo 624, tempers the word
  and reduces it into the requested range. The state is never twisted again,
  so the draws repeat every 624 calls.
*/
module Random {
  import opened Wrappers
  import opened Mt19937
  import Mt19937Vector

  /** What `max()` reports while no bound is stored: 2^31 - 1. */
  const DefaultMax: int := 2147483647

  /**
    The outcome of one draw: a number, or the DivisionByZeroError that PHP
    raises for `% 0` when the range is `max == min - 1`.
  */
  datatype Draw = Drawn(value: int) | ModuloByZero

  /**
    `seed & 0xFFFFFFFF` on a two's complement integer: the one value below
    2^32 that is congruent to the seed modulo 2^32.
  */
  function Mask32(seed: int): (r: nat)
    ensures r < 0x1_0000_0000 && (r - seed) % 0x1_0000_0000 == 0
    ensures 0 <= seed < 0x1_0000_0000 ==> r == seed
  {
    seed % 0x1_0000_0000
  }

  /** The masked seed as a state word. */
  function Low32(seed: int): Word
  {
    Mask32(seed) as Word
  }

  function Abs(x: int): (r: int)
    ensures r >= 0 && (r == x || r == -x)
  {
    if x < 0 then -x else x
  }

  /** PHP's `%`: the remainder of the division truncated toward zero. */
  function PhpMod(a: int, b: int): (r: int)
    requires b != 0
    ensures a >= 0 ==> 0 <= r < Abs(b)
    ensures a < 0 ==> -Abs(b) < r <= 0
    ensures exists q :: a == q * b + r
  {
    var d := Abs(b);
    var r := if a >= 0 then a % d else -((-a) % d);
    var q := if a >= 0 then a / d else -((-a) / d);
    assert a == q * d + r;
    var q' := if b > 0 then q else -q;
    assert a == q' * b + r;
    r
  }

  /** The PHP array's slot 624 is a reference to slot 0. */
  function Alias(k: int): int
  {
    if k == N then 0 else k
  }

  /** What `mt` returns for the tempered word y: `y % (max - min + 1) + min`. */
  function Reduce(y: nat, min: int, max: int): (r: Draw)
    ensures r.ModuloByZero? <==> max - min + 1 == 0
    ensures r.Drawn? ==> min <= r.value < min + Abs(max - min + 1)
  {
    var d := max - min + 1;
    if d == 0 then ModuloByZero else Drawn(PhpMod(y, d) + min)
  }

  /** What `generate` returns for the tempered word y: `abs` of what `mt` returns. */
  function Scale(y: nat, min: int, max: int): (r: Draw)
    ensures r.ModuloByZero? <==> max - min + 1 == 0
    ensures r.Drawn? ==> r.value >= 0
    ensures 0 <= min <= max ==> r == Reduce(y, min, max) && min <= r.value <= max
  {
    match Reduce(y, min, max)
    case Drawn(v) => Drawn(Abs(v))
    case ModuloByZero => ModuloByZero
  }

  /**
    The bound `generate` uses: the argument, else the stored field, else PHP's
    null, which the arithmetic of `mt` turns into 0.
  */
  function Bound(arg: Option<int>, field: Option<int>): (r: int)
    ensures arg.Some? || field.Some? ==> r == IntendedMax(arg, field)
    ensures arg.None? && field.None? ==> r == 0 != IntendedMax(arg, field)
  {
    if arg.Some? then arg.value else if field.Some? then field.value else 0
  }

  /**
    The upper bound `generate` evidently means when none is passed: the one
    `max()` reports, 2^31 - 1 while none is stored.
  */
  function IntendedMax(arg: Option<int>, field: Option<int>): int
  {
    if arg.Some? then arg.value else if field.Some? then field.value else DefaultMax
  }

  /**
    The (k+1)-th draw of `generate(min, max)` from a generator constructed
    with `seed` and not reseeded: slot k mod 624 of the twisted state.
  */
  function NthDraw(seed: int, k: nat, min: int, max: int): Draw
  {
    Scale(Temper(X(Low32(seed), N + k % N)) as int, min, max)
  }

  /** A range of one value, min = max >= 0, always yields that value. */
  lemma SingletonRange(y: nat, v: int)
    requires v >= 0
    ensures Scale(y, v, v) == Drawn(v)
  {
  }

  /** The draws repeat with period 624: the state is never twisted again. */
  lemma NthDrawPeriod(seed: int, k: nat, min: int, max: int)
    ensures NthDraw(seed, k + N, min, max) == NthDraw(seed, k, min, max)
  {
    assert (k + N) % N == k % N;
  }

  /** Reading slot i+1 through the alias gives x_{i+1} while slot i is being twisted. */
  lemma AliasNextSource(i: nat)
    requires i < N
    ensures 0 <= Alias(i + 1) < N && Source(i, Alias(i + 1)) == i + 1
  {
  }

  /**
    The segment offsets: +397 over slots 0..226 reads a slot not yet twisted,
    -227 over slots 227..623 reads one already twisted; both hold x_{i+m}.
  */
  lemma SegmentFarSource(i: nat, m: int)
    requires (0 <= i < 227 && m == 397) || (227 <= i < N && m == -227)
    ensures 0 <= Alias(i + m) < N && Source(i, Alias(i + m)) == i + M
  {
  }

  /** One step of the cursor: -1 or (k - 1) mod 624 becomes k mod 624. */
  lemma CursorStep(k: nat, index: int)
    requires if k == 0 then index == -1 else index == (k - 1) % N
    ensures (index + 1) % N == k % N
  {
  }

  class MersenneRandom {
    /** The cursor: -1 until the first draw, then the slot the last draw read. */
    var index: int
    var seed: int
    /** The seed the state was last built from; None until the first draw. */
    var ps: Option<int>
    var max: Option<int>
    var min: Option<int>
    /**
      The 624 state words. Every access goes through Alias, which stands for
      the PHP array's 625th slot, a reference to slot 0.
    */
    var mt: array<Word>

    /** Once built, the state is the twisted state of the seed it was built from. */
    ghost predicate Built()
      reads this, mt
    {
      mt.Length == N && (ps.Some? ==> mt[..] == Twisted(Low32(ps.value)))
    }

    ghost predicate Valid()
      reads this, mt
    {
      Built() && -1 <= index < N
    }

    constructor (seed: int)
      ensures Valid() && fresh(mt)
      ensures this.seed == seed && index == -1 && ps == None
      ensures max == None && min == None
    {
      this.seed := seed;
      index := -1;
      ps := None;
      max := None;
      min := None;
      mt := new Word[N];
    }

    /** `max()` reports the stored upper bound or 2^31 - 1; `max(v)` stores v. */
    method Max(value: Option<int>) returns (r: int)
      modifies this`max
      ensures value.Some? ==> max == value && r == value.value
      ensures value.None? ==> max == old(max)
      ensures value.None? && max.None? ==> r == DefaultMax
      ensures value.None? && max.Some? ==> r == max.value
    {
      if value.None? && max.None? {
        r := DefaultMax;
      } else if value.None? {
        r := max.value;
      } else {
        max := value;
        r := value.value;
      }
    }

    /**
      `min()` as written: the guard tests the stored upper bound, so it reports
      0 while no upper bound is stored, whatever lower bound is stored, and the
      stored lower bound (possibly null) once an upper bound is.
    */
    method Min(value: Option<int>) returns (r: Option<int>)
      modifies this`min
      ensures value.Some? ==> min == value && r == value
      ensures value.None? ==> min == old(min)
      ensures value.None? && max.None? ==> r == Some(0)
      ensures value.None? && max.Some? ==> r == min
    {
      if value.None? && max.None? {
        r := Some(0);
      } else if value.None? {
        r := min;
      } else {
        min := value;
        r := value;
      }
    }

    /** `min()` with the guard on the stored lower bound. */
    method MinIntended(value: Option<int>) returns (r: Option<int>)
      modifies this`min
      ensures value.Some? ==> min == value && r == value
      ensures value.None? ==> min == old(min)
      ensures value.None? && min.None? ==> r == Some(0)
      ensures value.None? && min.Some? ==> r == min
    {
      if value.None? && min.None? {
        r := Some(0);
      } else if value.None? {
        r := min;
      } else {
        min := value;
        r := value;
      }
    }

    /**
      `seed(v)` with an explicit seed: only the seed changes, so the state is
      rebuilt at the next draw and the cursor carries on where it was.
    */
    method Seed(value: int)
      modifies this`seed
      ensures seed == value
    {
      seed := value;
    }

    /**
      Lines 125-131 of `mt`: slot 0 (and its alias) takes the low 32 bits of
      the seed, and slots 1..623 the initialisation recurrence.
    */
    method Seed32(s: Word)
      requires mt.Length == N
      modifies mt
      ensures mt[..] == InitState(s)
    {
      mt[0] := s;
      var i := 1;
      while i < N
        invariant 1 <= i <= N
        invariant forall k :: 0 <= k < i ==> mt[k] == Seeded(s, k)
      {
        assert mt[i - 1] == Seeded(s, i - 1);
        mt[i] := InitWord(mt[i - 1], i);
        i := i + 1;
      }
    }

    /**
      The body of the segment loop (lines 141-144 of `mt`): slot i takes the
      twist of itself, its successor and the word m slots away.
    */
    method TwistSlot(i: nat, m: int, ghost s: seq<Word>)
      requires (0 <= i < 227 && m == 397) || (227 <= i < N && m == -227)
      requires mt.Length == N && |s| == N && mt[..] == Mixed(s, i)
      modifies mt
      ensures mt[..] == Mixed(s, i + 1)
    {
      AliasNextSource(i);
      SegmentFarSource(i, m);
      ghost var before := mt[..];
      // y = (mt[i] & 0x80000000) | (mt[i+1] & 0x7FFFFFFF), and the constant
      // 0x9908B0DF is looked up in the table [0x0, 0x9908B0DF] by y & 1.
      assert before[i] == Stream(s, i);
      assert before[Alias(i + 1)] == Stream(s, i + 1);
      assert before[Alias(i + m)] == Stream(s, i + M);
      mt[i] := TwistWord(mt[i], mt[Alias(i + 1)], mt[Alias(i + m)]);
      assert mt[..] == before[i := Stream(s, N + i)];
      MixedStep(s, i);
    }

    /**
      Lines 140-145 of `mt`: the twist in two segments. Segment j runs i from
      sp[j-1] up to sp[j] + sp[j-1] and reads the word m slots away: m = 397
      ahead over slots 0..226, m = 227 behind (397 ahead modulo 624) over
      slots 227..623, where slot 624 is slot 0.
    */
    method TwistSegments(ghost s: seq<Word>)
      requires mt.Length == N && mt[..] == s
      modifies mt
      ensures mt[..] == Next(s)
    {
      MixedStart(s);
      var sp := [0, 227, 397];
      var j := 1;
      while j < |sp|
        invariant 1 <= j <= |sp|
        invariant mt[..] == Mixed(s, if j == 1 then 0 else if j == 2 then 227 else N)
      {
        var p := j - 1;
        var i := sp[p];
        var m := (N - sp[j]) * (if p != 0 then -1 else 1);
        var n := sp[j] + sp[p];
        while i < n
          invariant sp[p] <= i <= n
          invariant mt[..] == Mixed(s, i)
        {
          TwistSlot(i, m, s);
          i := i + 1;
        }
        j := j + 1;
      }
      MixedEnd(s);
    }

    /**
      Lines 124-146 of `mt`: build the state from the current seed and twist
      it once, recording the seed it was built from.
    */
    method Rebuild()
      requires mt.Length == N
      modifies this`ps, mt
      ensures ps == Some(seed)
      ensures mt[..] == Twisted(Low32(seed))
    {
      var s := Low32(seed);
      Seed32(s);
      ps := Some(seed);
      TwistSegments(mt[..]);
    }

    /**
      `mt`: rebuild the state if the seed changed since it was last built,
      reduce the cursor modulo 624 and return the tempered word of that slot
      reduced into the range. Called directly before any draw, the cursor is
      still -1, PHP's `-1 % 624` is -1, and the missing slot -1 reads as null,
      that is as the word 0. (The `$index` argument is ignored by PHP.)
    */
    method Mt(min: int := 0, max: int := 1000) returns (r: Draw)
      requires Built() && -1 <= index <= N
      modifies this`index, this`ps, mt
      ensures Valid()
      ensures ps == Some(seed)
      ensures index == PhpMod(old(index), N)
      ensures old(ps) == Some(seed) ==> mt[..] == old(mt[..])
      ensures mt[..] == Twisted(Low32(seed))
      ensures index >= 0 ==> r == Reduce(Temper(mt[index]) as int, min, max)
      ensures index < 0 ==> r == Reduce(0, min, max)
    {
      if ps != Some(seed) {
        Rebuild();
      }
      index := PhpMod(index, N);
      var x := if index >= 0 then mt[index] else 0;
      // The four shift-and-mask steps of lines 149-153.
      var y := Temper(x);
      r := Reduce(y as int, min, max);
    }

    /**
      `generate(min, max)`: an omitted bound falls back to the stored field,
      and an unset field to PHP's null (0); the cursor advances by one modulo
      624 and the draw is the absolute value of what `mt` returns.
    */
    method Generate(min: Option<int> := Some(0), max: Option<int> := None) returns (r: Draw)
      requires Valid()
      modifies this`index, this`ps, mt
      ensures Valid()
      ensures ps == Some(seed)
      ensures index == (old(index) + 1) % N
      ensures old(ps) == Some(seed) ==> mt[..] == old(mt[..])
      ensures mt[..] == Twisted(Low32(seed))
      ensures r == Scale(Temper(X(Low32(seed), N + index)) as int, Bound(min, this.min), Bound(max, this.max))
    {
      var hi := Bound(max, this.max);
      var lo := Bound(min, this.min);
      index := index + 1;
      var raw := Mt(lo, hi);
      r := if raw.Drawn? then Drawn(Abs(raw.value)) else raw;
    }

    /** `generate` with an omitted upper bound falling back to what `max()` reports. */
    method GenerateIntended(min: Option<int> := Some(0), max: Option<int> := None) returns (r: Draw)
      requires Valid()
      modifies this`index, this`ps, mt
      ensures Valid()
      ensures ps == Some(seed)
      ensures index == (old(index) + 1) % N
      ensures old(ps) == Some(seed) ==> mt[..] == old(mt[..])
      ensures mt[..] == Twisted(Low32(seed))
      ensures r == Scale(Temper(X(Low32(seed), N + index)) as int, Bound(min, this.min), IntendedMax(max, this.max))
    {
      var hi := IntendedMax(max, this.max);
      var lo := Bound(min, this.min);
      index := index + 1;
      var raw := Mt(lo, hi);
      r := if raw.Drawn? then Drawn(Abs(raw.value)) else raw;
    }
  }

  /**
    A generator constructed with `seed` and drawn `count` times with the same
    bounds returns NthDraw(seed, 0..count-1): the draws depend on the seed,
    the bounds and the number of draws only, and repeat every 624 draws.
  */
  method DrawMany(seed: int, count: nat, min: int, max: int) returns (out: seq<Draw>)
    ensures |out| == count
    ensures forall k :: 0 <= k < count ==> out[k] == NthDraw(seed, k, min, max)
    ensures forall k :: 0 <= k && k + N < count ==> out[k + N] == out[k]
  {
    var g := new MersenneRandom(seed);
    out := [];
    while |out| < count
      invariant fresh(g) && fresh(g.mt) && g.Valid()
      invariant g.seed == seed
      invariant |out| <= count
      invariant if |out| == 0 then g.index == -1 else g.index == (|out| - 1) % N
      invariant forall k :: 0 <= k < |out| ==> out[k] == NthDraw(seed, k, min, max)
    {
      CursorStep(|out|, g.index);
      var d := g.Generate(Some(min), Some(max));
      assert d == NthDraw(seed, |out|, min, max);
      out := out + [d];
    }
    forall k | 0 <= k && k + N < count
      ensures out[k + N] == out[k]
    {
      NthDrawPeriod(seed, k, min, max);
    }
  }

  /** The first draw over the full 32-bit range under seed 5489 is MT19937's first output. */
  method FirstDrawOfDefaultSeed() returns (r: Draw)
    ensures r == Drawn(3499211612)
  {
    var g := new MersenneRandom(5489);
    r := g.Generate(Some(0), Some(4294967295));
    assert Low32(5489) == 5489;
    Mt19937Vector.FirstOutput(Low32(5489));
  }

  /**
    `seed(v)` between draws rebuilds the state from v at the next draw but
    keeps the cursor: the second draw reads slot 1 of the new state.
  */
  method ReseedKeepsCursor(seed1: int, seed2: int, min: int, max: int) returns (first: Draw, second: Draw)
    ensures first == NthDraw(seed1, 0, min, max)
    ensures second == NthDraw(seed2, 1, min, max)
  {
    var g := new MersenneRandom(seed1);
    first := g.Generate(Some(min), Some(max));
    g.Seed(seed2);
    second := g.Generate(Some(min), Some(max));
  }

  /** As written, `generate()` with no upper bound stored always returns 0. */
  method OmittedMaxAsWritten(seed: int) returns (r: Draw)
    ensures r == Drawn(0)
  {
    var g := new MersenneRandom(seed);
    r := g.Generate();
    SingletonRange(Temper(X(Low32(seed), N + g.index)) as int, 0);
  }

  /**
    The intended fallback is what `max()` reports: `generate` with the upper
    bound omitted uses the same bound that a call of `max()` returns.
  */
  method IntendedMaxIsReported(g: MersenneRandom) returns (reported: int)
    modifies g`max
    ensures reported == IntendedMax(None, old(g.max))
    ensures g.max == old(g.max)
  {
    reported := g.Max(None);
  }

  /** With the intended fallback, `generate()` draws from 0 .. 2^31 - 1. */
  method OmittedMaxIntended(seed: int) returns (r: Draw)
    ensures r.Drawn? && 0 <= r.value <= DefaultMax
  {
    var g := new MersenneRandom(seed);
    r := g.GenerateIntended();
  }

  /** As written, a stored lower bound is reported as 0 while no upper bound is stored. */
  method StoredMinAsWritten() returns (r: Option<int>)
    ensures r == Some(0)
  {
    var g := new MersenneRandom(0);
    var stored := g.Min(Some(5));
    r := g.Min(None);
  }

  /** With the guard on the lower bound, the stored lower bound is reported. */
  method StoredMinIntended() returns (r: Option<int>)
    ensures r == Some(5)
  {
    var g := new MersenneRandom(0);
    var stored := g.MinIntended(Some(5));
    r := g.MinIntended(None);
  }
}

/**
 * The value-noise generator: a seeded Fisher–Yates shuffle of 0..255 into a
 * doubled permutation table, the fade/lerp/grad kernel, the 1-D and 2-D
 * lookups, a process-wide generator that can be re-seeded, and the octave sum.
 *
 * JavaScript numbers are reals here. `%` is only ever applied to non-negative
 * operands, where JavaScript's truncating remainder and the floor-based one
 * agree; `n & 255` and `n & 15` on a non-negative integer are `n % 256` and
 * `n % 16`, and on `Math.floor(x)` (of either sign) `& 255` is Euclidean
 * `% 256`, because the 32-bit wrap-around of the bitwise operators is a
 * multiple of 256.
 */
module Noise {
  import opened Wrappers
  import opened RealArith

  const TABLE_SIZE: nat := 256
  const LCG_MULTIPLIER: real := 1103515245.0
  const LCG_INCREMENT: real := 12345.0
  const LCG_MODULUS: real := 2147483648.0

  /** A real with no fractional part. */
  predicate IsWhole(x: real) {
    x == x.Floor as real
  }

  /** JavaScript's `a % m` for a non-negative `a` and a positive `m`; an exact multiple leaves 0. */
  function JsMod(a: real, m: real): (r: real)
    requires a >= 0.0 && m > 0.0
    ensures 0.0 <= r < m
    ensures a < m ==> r == a
    ensures IsWhole(a / m) ==> r == 0.0
  {
    ModRange(a, m);
    a - m * ((a / m).Floor as real)
  }

  lemma FloorRemainder(a: real, m: real, f: real)
    requires m > 0.0 && f <= a / m < f + 1.0
    ensures 0.0 <= a - m * f < m
  {
    var d := a / m - f;
    FracScale(d, m);
    assert d * m == a - m * f;
  }

  lemma ModRange(a: real, m: real)
    requires a >= 0.0 && m > 0.0
    ensures 0.0 <= a - m * ((a / m).Floor as real) < m
    ensures a < m ==> (a / m).Floor == 0
  {
    FloorRemainder(a, m, (a / m).Floor as real);
    if a < m {
      assert 0.0 <= a / m < 1.0;
    }
  }

  /**
   * The swap partner of cell `i` in the shuffle: `Math.floor((seed*(i+1)) % (i+1))`.
   * A whole seed makes the remainder 0, so cell `i` is swapped with cell 0.
   */
  function ShuffleIndex(seed: real, i: nat): (j: nat)
    requires seed >= 0.0
    ensures j <= i
    ensures IsWhole(seed) ==> j == 0
  {
    var m := (i + 1) as real;
    MulNonNeg(seed, m);
    assert (seed * m) / m == seed;
    JsMod(seed * m, m).Floor
  }

  /** The linear-congruential seed update after each swap. */
  function NextSeed(seed: real): (s: real)
    requires seed >= 0.0
    ensures 0.0 <= s < LCG_MODULUS
  {
    MulNonNeg(seed, LCG_MULTIPLIER);
    JsMod(seed * LCG_MULTIPLIER + LCG_INCREMENT, LCG_MODULUS)
  }

  /** `[p[i], p[j]] = [p[j], p[i]]`. */
  function Swap(p: seq<int>, i: nat, j: nat): (r: seq<int>)
    requires i < |p| && j < |p|
    ensures |r| == |p| && r[i] == p[j] && r[j] == p[i]
    ensures forall k :: 0 <= k < |p| && k != i && k != j ==> r[k] == p[k]
  {
    p[i := p[j]][j := p[i]]
  }

  lemma SwapPermutes(p: seq<int>, i: nat, j: nat)
    requires i < |p| && j < |p|
    ensures multiset(Swap(p, i, j)) == multiset(p)
  {
    var q := p[i := p[j]];
    assert multiset(q) == multiset(p) - multiset{p[i]} + multiset{p[j]};
    assert multiset(q[j := p[i]]) == multiset(q) - multiset{q[j]} + multiset{p[i]};
  }

  /** The identity table `p[i] = i`. */
  function Iota(): (r: seq<int>)
    ensures |r| == TABLE_SIZE
    ensures forall k :: 0 <= k < |r| ==> r[k] == k
  {
    seq(TABLE_SIZE, k => k)
  }

  /**
   * The shuffle loop from cell `i` down to cell 1: the table and the seed it
   * leaves behind.
   */
  function ShuffleFrom(p: seq<int>, seed: real, i: nat): (r: (seq<int>, real))
    requires |p| == TABLE_SIZE && i < TABLE_SIZE && seed >= 0.0
    ensures |r.0| == TABLE_SIZE && r.1 >= 0.0
    decreases i
  {
    if i == 0 then (p, seed)
    else ShuffleFrom(Swap(p, i, ShuffleIndex(seed, i)), NextSeed(seed), i - 1)
  }

  /** Shuffling only ever swaps cells, so it rearranges the table and no more. */
  lemma {:induction false} ShufflePermutes(p: seq<int>, seed: real, i: nat)
    requires |p| == TABLE_SIZE && i < TABLE_SIZE && seed >= 0.0
    ensures multiset(ShuffleFrom(p, seed, i).0) == multiset(p)
    decreases i
  {
    if i > 0 {
      var j := ShuffleIndex(seed, i);
      SwapPermutes(p, i, j);
      ShufflePermutes(Swap(p, i, j), NextSeed(seed), i - 1);
    }
  }

  function Shuffled(seed: real): seq<int>
    requires seed >= 0.0
  {
    ShuffleFrom(Iota(), seed, TABLE_SIZE - 1).0
  }

  /** The seed the generator holds once its table is built. */
  function FinalSeed(seed: real): real
    requires seed >= 0.0
  {
    ShuffleFrom(Iota(), seed, TABLE_SIZE - 1).1
  }

  /** `[...p, ...p]`: the shuffled table written twice. */
  function PermutationTable(seed: real): seq<int>
    requires seed >= 0.0
  {
    Shuffled(seed) + Shuffled(seed)
  }

  /** A table every lookup of `noise1D`/`noise2D` can index: 512 cells in 0..255, the upper half repeating the lower. */
  ghost predicate IsTable(t: seq<int>) {
    && |t| == 2 * TABLE_SIZE
    && (forall k :: 0 <= k < |t| ==> 0 <= t[k] < TABLE_SIZE)
    && t[TABLE_SIZE..] == t[..TABLE_SIZE]
  }

  /**
   * The built table: its first half is a permutation of 0..255, and the whole
   * is a valid lookup table.
   */
  lemma PermutationTableShape(seed: real)
    requires seed >= 0.0
    ensures multiset(PermutationTable(seed)[..TABLE_SIZE]) == multiset(Iota())
    ensures forall v :: 0 <= v < TABLE_SIZE ==> v in PermutationTable(seed)[..TABLE_SIZE]
    ensures IsTable(PermutationTable(seed))
    ensures FinalSeed(seed) >= 0.0
  {
    var s := Shuffled(seed);
    var t := PermutationTable(seed);
    ShufflePermutes(Iota(), seed, TABLE_SIZE - 1);
    assert t[..TABLE_SIZE] == s;
    forall v | 0 <= v < TABLE_SIZE
      ensures v in s
    {
      assert Iota()[v] == v;
      assert v in multiset(Iota());
    }
    forall k | 0 <= k < |t|
      ensures 0 <= t[k] < TABLE_SIZE
    {
      var x := if k < TABLE_SIZE then s[k] else s[k - TABLE_SIZE];
      assert t[k] == x;
      assert x in multiset(s);
      assert x in multiset(Iota());
      var w :| 0 <= w < TABLE_SIZE && Iota()[w] == x;
    }
  }

  /** The LCG step keeps a whole seed whole. */
  lemma NextSeedKeepsWhole(seed: real)
    requires seed >= 0.0 && IsWhole(seed)
    ensures IsWhole(NextSeed(seed))
  {
    var a := seed.Floor * 1103515245 + 12345;
    assert seed * LCG_MULTIPLIER + LCG_INCREMENT == a as real;
    var f := ((a as real) / LCG_MODULUS).Floor;
    assert NextSeed(seed) == (a - 2147483648 * f) as real;
  }

  /**
   * The table after the shuffle has swapped cells 255 down to i + 1 with cell 0
   * (see `ShuffleIndex`): cells 1..i are untouched, the cells above
   * hold their successor, and cell 0 holds i + 1.
   */
  ghost predicate RotatedDownTo(p: seq<int>, i: nat)
    requires |p| == TABLE_SIZE && i < TABLE_SIZE
  {
    && p[0] == (i + 1) % TABLE_SIZE
    && (forall k :: 1 <= k <= i ==> p[k] == k)
    && (forall k :: i < k < TABLE_SIZE ==> p[k] == (k + 1) % TABLE_SIZE)
  }

  lemma {:induction false} WholeSeedShuffleFrom(p: seq<int>, seed: real, i: nat)
    requires |p| == TABLE_SIZE && 0 < i < TABLE_SIZE && seed >= 0.0 && IsWhole(seed)
    requires RotatedDownTo(p, i)
    ensures RotatedDownTo(ShuffleFrom(p, seed, i).0, 0)
    decreases i
  {
    NextSeedKeepsWhole(seed);
    var q := Swap(p, i, 0);
    assert RotatedDownTo(q, i - 1);
    if i > 1 {
      WholeSeedShuffleFrom(q, NextSeed(seed), i - 1);
    }
  }

  /**
   * From a whole seed every swap partner is cell 0, and the "shuffle" is the
   * rotation `p[k] = (k + 1) % 256`. Doubles are whole from the LCG's second
   * step on for almost any seed, and always after a whole `setNoiseSeed`.
   */
  lemma WholeSeedRotates(seed: real)
    requires seed >= 0.0 && IsWhole(seed)
    ensures forall k :: 0 <= k < TABLE_SIZE ==> Shuffled(seed)[k] == (k + 1) % TABLE_SIZE
  {
    WholeSeedShuffleFrom(Iota(), seed, TABLE_SIZE - 1);
  }

  // ---------------------------------------------------------------------------
  // The interpolation kernel.

  /** `fade`: the quintic easing curve 6t^5 - 15t^4 + 10t^3; it pins both ends. */
  function Fade(t: real): (r: real)
    ensures t == 0.0 ==> r == 0.0
    ensures t == 1.0 ==> r == 1.0
  {
    t * t * t * (t * (t * 6.0 - 15.0) + 10.0)
  }

  /** The curve is point-symmetric about (1/2, 1/2). */
  lemma FadeSymmetric(t: real)
    ensures Fade(1.0 - t) == 1.0 - Fade(t)
  {
    var s := 1.0 - t;
    calc {
      Fade(s);
      s * s * s * (s * (s * 6.0 - 15.0) + 10.0);
      { assert s * s * s == 1.0 - 3.0 * t + 3.0 * (t * t) - t * t * t; }
      (1.0 - 3.0 * t + 3.0 * (t * t) - t * t * t) * (6.0 * (t * t) + 3.0 * t + 1.0);
      1.0 - t * t * t * (t * (t * 6.0 - 15.0) + 10.0);
    }
  }

  /** On [0,1] the curve stays in [0,1]. */
  lemma FadeRange(t: real)
    requires 0.0 <= t <= 1.0
    ensures 0.0 <= Fade(t) <= 1.0
  {
    FadeNonNeg(t);
    FadeNonNeg(1.0 - t);
    FadeSymmetric(t);
  }

  lemma FadeNonNeg(t: real)
    requires 0.0 <= t <= 1.0
    ensures Fade(t) >= 0.0
  {
    MulNonNeg(t, t);
    MulNonNeg(t * t, t);
    MulNonNeg(3.0 - 2.0 * t, 1.0 - t);
    assert t * (t * 6.0 - 15.0) + 10.0 == 3.0 * ((3.0 - 2.0 * t) * (1.0 - t)) + 1.0;
    MulNonNeg(t * t * t, t * (t * 6.0 - 15.0) + 10.0);
  }

  /** The generator's private `lerp`: `a + t*(b - a)`, hitting `a` at 0 and `b` at 1. */
  function Lerp(a: real, b: real, t: real): (r: real)
    ensures t == 0.0 ==> r == a
    ensures t == 1.0 ==> r == b
  {
    a + t * (b - a)
  }

  lemma LerpUp(a: real, b: real, t: real)
    requires 0.0 <= t <= 1.0 && a <= b
    ensures a <= Lerp(a, b, t) <= b
  {
    assert t * (b - a) == (b - a) - (1.0 - t) * (b - a);
    MulNonNeg(t, b - a);
    MulNonNeg(1.0 - t, b - a);
  }

  lemma LerpDown(a: real, b: real, t: real)
    requires 0.0 <= t <= 1.0 && b < a
    ensures b <= Lerp(a, b, t) <= a
  {
    assert t * (b - a) == -(t * (a - b));
    assert t * (a - b) == (a - b) - (1.0 - t) * (a - b);
    MulNonNeg(t, a - b);
    MulNonNeg(1.0 - t, a - b);
  }

  /** For t in [0,1] the interpolation stays between its two ends. */
  lemma LerpBetween(a: real, b: real, t: real)
    requires 0.0 <= t <= 1.0
    ensures a <= b ==> a <= Lerp(a, b, t) <= b
    ensures b < a ==> b <= Lerp(a, b, t) <= a
  {
    if a <= b {
      LerpUp(a, b, t);
    } else {
      LerpDown(a, b, t);
    }
  }

  /**
   * The gradient slope chosen by a hash: `1 + (h & 7)` with `h = hash & 15`,
   * negated when bit 3 of `h` is set.
   */
  function GradCoefficient(hash: int): (c: int)
    requires hash >= 0
    ensures 1 <= c <= 8 || -8 <= c <= -1
    ensures c < 0 <==> hash % 16 >= 8
  {
    var h := hash % 16;
    var magnitude := 1 + h % 8;
    if h >= 8 then -magnitude else magnitude
  }

  /** `grad`: the slope times the offset; on an offset in [-1,1] at most 8 in size. */
  function Grad(hash: int, x: real): (r: real)
    requires hash >= 0
    ensures -1.0 <= x <= 1.0 ==> -8.0 <= r <= 8.0
    ensures x == 0.0 ==> r == 0.0
  {
    var c := GradCoefficient(hash) as real;
    ProductBound(c, x);
    c * x
  }

  lemma ProductBound(c: real, x: real)
    requires -8.0 <= c <= 8.0
    ensures -1.0 <= x <= 1.0 ==> -8.0 <= c * x <= 8.0
    ensures x == 0.0 ==> c * x == 0.0
  {
    if 0.0 <= x <= 1.0 {
      UnitUpper(c, x);
      UnitLower(c, x);
    } else if -1.0 <= x < 0.0 {
      UnitUpper(-c, -x);
      UnitLower(-c, -x);
      assert (-c) * (-x) == c * x;
    }
  }

  lemma UnitUpper(c: real, x: real)
    requires c <= 8.0 && 0.0 <= x <= 1.0
    ensures c * x <= 8.0
  {
    MulNonNeg(8.0 - c, x);
    assert (8.0 - c) * x == 8.0 * x - c * x;
  }

  lemma UnitLower(c: real, x: real)
    requires -8.0 <= c && 0.0 <= x <= 1.0
    ensures -8.0 <= c * x
  {
    MulNonNeg(c + 8.0, x);
    assert (c + 8.0) * x == c * x + 8.0 * x;
  }

  /** `Math.floor(n) & 255`. */
  function Cell(x: real): (X: int)
    ensures 0 <= X < TABLE_SIZE
  {
    x.Floor % TABLE_SIZE
  }

  /** `x - Math.floor(x)`, the position inside the cell. */
  function Frac(x: real): (f: real)
    ensures 0.0 <= f < 1.0
    ensures Cell(x) as real + f == x - 256.0 * ((x.Floor / TABLE_SIZE) as real)
  {
    x - x.Floor as real
  }

  // ---------------------------------------------------------------------------
  // The generator object.

  class SimplexNoise {
    var seed: real
    var perm: seq<int>

    /** A generator whose table every lookup can index. */
    ghost predicate Valid()
      reads this
    {
      seed >= 0.0 && IsTable(perm)
    }

    /** The seed is a parameter: the default `Math.random()` draw is in [0,1). */
    constructor(seed0: real)
      requires seed0 >= 0.0
      ensures perm == PermutationTable(seed0)
      ensures seed == FinalSeed(seed0)
      ensures Valid()
    {
      seed := seed0;
      perm := [];
      new;
      var table := BuildPermutationTable();
      perm := table;
      PermutationTableShape(seed0);
    }

    /**
     * `buildPermutationTable`: fill 0..255, shuffle it in place from the top
     * cell down, advancing the seed after every swap, and return it doubled.
     */
    method BuildPermutationTable() returns (table: seq<int>)
      requires seed >= 0.0
      modifies this
      ensures table == PermutationTable(old(seed))
      ensures seed == FinalSeed(old(seed))
      ensures perm == old(perm)
    {
      var p := new int[TABLE_SIZE];
      for i := 0 to TABLE_SIZE
        invariant forall k :: 0 <= k < i ==> p[k] == k
        invariant seed == old(seed) && perm == old(perm)
      {
        p[i] := i;
      }
      assert p[..] == Iota();
      var i := TABLE_SIZE - 1;
      while i > 0
        invariant 0 <= i < TABLE_SIZE
        invariant seed >= 0.0
        invariant perm == old(perm)
        invariant ShuffleFrom(p[..], seed, i) == ShuffleFrom(Iota(), old(seed), TABLE_SIZE - 1)
        decreases i
      {
        var j := ShuffleIndex(seed, i);
        ghost var before := p[..];
        p[i], p[j] := p[j], p[i];
        assert p[..] == Swap(before, i, j);
        seed := NextSeed(seed);
        i := i - 1;
      }
      table := p[..] + p[..];
    }

    /** `noise1D` on this generator's table. */
    function Noise1D(x: real): (r: real)
      reads this
      requires Valid()
      ensures -8.0 <= r <= 8.0
    {
      Noise1DOf(perm, x)
    }

    /** `noise2D` on this generator's table. */
    function Noise2D(x: real, y: real): (r: real)
      reads this
      requires Valid()
      ensures -8.0 <= r <= 8.0
    {
      Noise2DOf(perm, x, y)
    }
  }

  /**
   * `noise1D` over a table: every read is in bounds (`X + 1` at most 256,
   * the hashed cells at most 255), and the value lies in [-8,8].
   */
  function Noise1DOf(perm: seq<int>, x: real): (r: real)
    requires IsTable(perm)
    ensures -8.0 <= r <= 8.0
  {
    var X := Cell(x);
    var fx := Frac(x);
    var u := Fade(fx);
    var a := perm[X];
    var b := perm[X + 1];
    FadeRange(fx);
    LerpBetween(Grad(perm[a], fx), Grad(perm[b], fx - 1.0), u);
    Lerp(Grad(perm[a], fx), Grad(perm[b], fx - 1.0), u)
  }

  /**
   * `noise2D` over a table: every read is in bounds (`a`, `b` at most 510,
   * `a + 1`, `b + 1` at most 511), and the value lies in [-8,8].
   */
  function Noise2DOf(perm: seq<int>, x: real, y: real): (r: real)
    requires IsTable(perm)
    ensures -8.0 <= r <= 8.0
  {
    var X := Cell(x);
    var Y := Cell(y);
    var fx := Frac(x);
    var fy := Frac(y);
    var u := Fade(fx);
    var v := Fade(fy);
    var a := perm[X] + Y;
    var b := perm[X + 1] + Y;
    var lower := Lerp(Grad(perm[a], fx), Grad(perm[b], fx - 1.0), u);
    var upper := Lerp(Grad(perm[a + 1], fx), Grad(perm[b + 1], fx - 1.0), u);
    FadeRange(fx);
    FadeRange(fy);
    LerpBetween(Grad(perm[a], fx), Grad(perm[b], fx - 1.0), u);
    LerpBetween(Grad(perm[a + 1], fx), Grad(perm[b + 1], fx - 1.0), u);
    LerpBetween(lower, upper, v);
    Lerp(lower, upper, v)
  }

  // ---------------------------------------------------------------------------
  // The octave sum, specified against the generator.

  function Pow(base: real, n: nat): real {
    if n == 0 then 1.0 else Pow(base, n - 1) * base
  }

  /** `maxValue` after `n` octaves: the sum of `persistence^i` for i < n. */
  function AmplitudeSum(persistence: real, n: nat): real {
    if n == 0 then 0.0 else AmplitudeSum(persistence, n - 1) + Pow(persistence, n - 1)
  }

  /** The generator's `noise2D` as a sampling function. */
  function Sampler(perm: seq<int>): (real, real) -> real
    requires IsTable(perm)
  {
    (a: real, b: real) => Noise2DOf(perm, a, b)
  }

  /** Every sample of `sample` has magnitude at most `bound`. */
  ghost predicate Bounded(sample: (real, real) -> real, bound: real) {
    forall a: real, b: real :: -bound <= sample(a, b) <= bound
  }

  lemma NoiseIsBounded(perm: seq<int>)
    requires IsTable(perm)
    ensures Bounded(Sampler(perm), 8.0)
  {
    forall a: real, b: real
      ensures -8.0 <= Sampler(perm)(a, b) <= 8.0
    {
      assert Sampler(perm)(a, b) == Noise2DOf(perm, a, b);
    }
  }

  /** A coordinate at octave `i`, where the frequency is 2^i. */
  function AtOctave(coordinate: real, i: nat): real {
    coordinate * Pow(2.0, i)
  }

  /** `total` after `n` octaves: octave i samples at frequency 2^i with weight persistence^i. */
  function OctaveTotal(sample: (real, real) -> real, x: real, y: real, persistence: real, n: nat): real {
    if n == 0 then 0.0
    else
      OctaveTotal(sample, x, y, persistence, n - 1)
        + sample(AtOctave(x, n - 1), AtOctave(y, n - 1)) * Pow(persistence, n - 1)
  }

  /**
   * `total / maxValue`; `None` where `maxValue` is 0 and JavaScript would
   * produce `NaN` or an infinity (no octaves, or amplitudes that cancel).
   */
  function OctaveValue(sample: (real, real) -> real, x: real, y: real, octaves: int, persistence: real): Option<real> {
    var n := if octaves < 0 then 0 else octaves;
    if AmplitudeSum(persistence, n) == 0.0 then None
    else Some(OctaveTotal(sample, x, y, persistence, n) / AmplitudeSum(persistence, n))
  }

  lemma {:induction false} PowPositive(base: real, n: nat)
    requires base > 0.0
    ensures Pow(base, n) > 0.0
  {
    if n > 0 {
      PowPositive(base, n - 1);
      MulPos(Pow(base, n - 1), base);
    }
  }

  lemma {:induction false} AmplitudeSumAtLeastOne(persistence: real, n: nat)
    requires persistence > 0.0 && n >= 1
    ensures AmplitudeSum(persistence, n) >= 1.0
  {
    if n > 1 {
      AmplitudeSumAtLeastOne(persistence, n - 1);
      PowPositive(persistence, n - 1);
    }
  }

  /** One more octave adds its sample times its weight (the product written as `Mul`). */
  lemma Contribution(sample: (real, real) -> real, x: real, y: real, persistence: real, n: nat)
    requires n > 0
    ensures OctaveTotal(sample, x, y, persistence, n)
         == OctaveTotal(sample, x, y, persistence, n - 1)
            + Mul(sample(AtOctave(x, n - 1), AtOctave(y, n - 1)), Pow(persistence, n - 1))
  {
  }

  /** Each octave contributes at most `bound` times its weight. */
  lemma {:induction false} OctaveTotalBounded(sample: (real, real) -> real, bound: real,
                                              x: real, y: real, persistence: real, n: nat)
    requires Bounded(sample, bound) && persistence > 0.0
    ensures -Mul(bound, AmplitudeSum(persistence, n)) <= OctaveTotal(sample, x, y, persistence, n)
              <= Mul(bound, AmplitudeSum(persistence, n))
  {
    if n > 0 {
      OctaveTotalBounded(sample, bound, x, y, persistence, n - 1);
      PowPositive(persistence, n - 1);
      Contribution(sample, x, y, persistence, n);
      WeightedSample(sample(AtOctave(x, n - 1), AtOctave(y, n - 1)), bound, Pow(persistence, n - 1));
      Distribute(bound, AmplitudeSum(persistence, n - 1), Pow(persistence, n - 1));
    } else {
      assert Mul(bound, 0.0) == 0.0;
    }
  }

  lemma WeightedSample(s: real, bound: real, w: real)
    requires -bound <= s <= bound && w >= 0.0
    ensures -Mul(bound, w) <= Mul(s, w) <= Mul(bound, w)
  {
    MulNonNeg(bound - s, w);
    assert (bound - s) * w == bound * w - s * w;
    MulNonNeg(s + bound, w);
    assert (s + bound) * w == s * w + bound * w;
  }

  /**
   * If every sample has magnitude at most `bound`, then with a positive
   * persistence and at least one octave the normalised sum is defined and
   * has magnitude at most `bound` too.
   */
  lemma OctaveBound(sample: (real, real) -> real, bound: real,
                    x: real, y: real, octaves: int, persistence: real)
    requires Bounded(sample, bound)
    requires persistence > 0.0 && octaves >= 1
    ensures OctaveValue(sample, x, y, octaves, persistence).Some?
    ensures -bound <= OctaveValue(sample, x, y, octaves, persistence).value <= bound
  {
    var total := OctaveTotal(sample, x, y, persistence, octaves);
    var maxValue := AmplitudeSum(persistence, octaves);
    AmplitudeSumAtLeastOne(persistence, octaves);
    OctaveTotalBounded(sample, bound, x, y, persistence, octaves);
    QuotientBound(total, maxValue, bound);
  }

  /** Since `grad` slopes reach 8, the octave noise lies in [-8,8], not [-1,1]. */
  lemma OctaveNoiseBound(perm: seq<int>, x: real, y: real, octaves: int, persistence: real)
    requires IsTable(perm)
    requires persistence > 0.0 && octaves >= 1
    ensures OctaveValue(Sampler(perm), x, y, octaves, persistence).Some?
    ensures -8.0 <= OctaveValue(Sampler(perm), x, y, octaves, persistence).value <= 8.0
  {
    NoiseIsBounded(perm);
    OctaveBound(Sampler(perm), 8.0, x, y, octaves, persistence);
  }

  lemma QuotientBound(total: real, maxValue: real, bound: real)
    requires maxValue > 0.0
    requires -Mul(bound, maxValue) <= total <= Mul(bound, maxValue)
    ensures -bound <= total / maxValue <= bound
  {
    assert Mul(bound, maxValue) == bound * maxValue;
    var q := total / maxValue;
    assert q * maxValue == total;
    if q > bound {
      MulStrictMonotone(bound, q, maxValue);
      assert false;
    }
    if q < -bound {
      MulStrictMonotone(q, -bound, maxValue);
      assert false;
    }
  }

  /** With the default persistence 0.5, four octaves weigh 1 + 1/2 + 1/4 + 1/8. */
  lemma DefaultAmplitudeSum()
    ensures AmplitudeSum(0.5, 4) == 1.875
  {
    assert Pow(0.5, 1) == 0.5;
    assert Pow(0.5, 2) == 0.25;
    assert Pow(0.5, 3) == 0.125;
  }

  /** One turn of the octave loop keeps its accumulators equal to their specifications. */
  lemma OctaveStep(sample: (real, real) -> real, x: real, y: real, persistence: real, i: nat,
                   frequency: real, amplitude: real, total: real)
    requires frequency == Pow(2.0, i) && amplitude == Pow(persistence, i)
    requires total == OctaveTotal(sample, x, y, persistence, i)
    ensures total + sample(x * frequency, y * frequency) * amplitude == OctaveTotal(sample, x, y, persistence, i + 1)
    ensures amplitude * persistence == Pow(persistence, i + 1)
    ensures frequency * 2.0 == Pow(2.0, i + 1)
  {
    assert x * frequency == AtOctave(x, i) && y * frequency == AtOctave(y, i);
    Contribution(sample, x, y, persistence, i + 1);
  }

  /**
   * The loop of `octaveNoise2D` over a sampler: the frequency doubles and the
   * amplitude is scaled by `persistence` at each octave, then the total is
   * normalised by the summed amplitudes.
   */
  method OctaveSum(sample: (real, real) -> real, x: real, y: real, octaves: int, persistence: real)
    returns (r: Option<real>)
    ensures r == OctaveValue(sample, x, y, octaves, persistence)
  {
    var n: nat := if octaves < 0 then 0 else octaves;
    var total := 0.0;
    var frequency := 1.0;
    var amplitude := 1.0;
    var maxValue := 0.0;
    for i := 0 to n
      invariant frequency == Pow(2.0, i)
      invariant amplitude == Pow(persistence, i)
      invariant maxValue == AmplitudeSum(persistence, i)
      invariant total == OctaveTotal(sample, x, y, persistence, i)
    {
      var px, py := x * frequency, y * frequency;
      var s := sample(px, py);
      OctaveStep(sample, x, y, persistence, i, frequency, amplitude, total);
      total := total + s * amplitude;
      maxValue := maxValue + amplitude;
      amplitude := amplitude * persistence;
      frequency := frequency * 2.0;
    }
    r := if maxValue == 0.0 then None else Some(total / maxValue);
  }

  // ---------------------------------------------------------------------------
  // The process-wide generator.

  class GlobalNoise {
    var noiseGenerator: SimplexNoise

    ghost predicate Valid()
      reads this, noiseGenerator
    {
      noiseGenerator.Valid()
    }

    /** The module-level `new SimplexNoise()`, given its `Math.random()` seed in [0,1). */
    constructor(randomSeed: real)
      requires 0.0 <= randomSeed < 1.0
      ensures noiseGenerator.perm == PermutationTable(randomSeed)
      ensures Valid()
    {
      noiseGenerator := new SimplexNoise(randomSeed);
    }

    /** `setNoiseSeed`: replace the generator by a fresh one built from `seed`. */
    method SetNoiseSeed(seed: real)
      requires seed >= 0.0
      modifies this
      ensures fresh(noiseGenerator)
      ensures noiseGenerator.perm == PermutationTable(seed)
      ensures noiseGenerator.seed == FinalSeed(seed)
      ensures Valid()
    {
      noiseGenerator := new SimplexNoise(seed);
    }

    /** The exported `noise1D`, read from the current generator. */
    function Noise1D(x: real): (r: real)
      reads this, noiseGenerator
      requires Valid()
      ensures -8.0 <= r <= 8.0
    {
      noiseGenerator.Noise1D(x)
    }

    /** The exported `noise2D`, read from the current generator. */
    function Noise2D(x: real, y: real): (r: real)
      reads this, noiseGenerator
      requires Valid()
      ensures -8.0 <= r <= 8.0
    {
      noiseGenerator.Noise2D(x, y)
    }

    /** `octaveNoise2D`, sampling the current generator's `noise2D`. */
    method OctaveNoise2D(x: real, y: real, octaves: int, persistence: real) returns (r: Option<real>)
      requires Valid()
      ensures r == OctaveValue(Sampler(noiseGenerator.perm), x, y, octaves, persistence)
      ensures octaves >= 1 && persistence > 0.0 ==> r.Some? && -8.0 <= r.value <= 8.0
    {
      r := OctaveSum(Sampler(noiseGenerator.perm), x, y, octaves, persistence);
      if octaves >= 1 && persistence > 0.0 {
        OctaveNoiseBound(noiseGenerator.perm, x, y, octaves, persistence);
      }
    }
  }
}

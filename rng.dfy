/**
 * The seedable linear congruential generator of src/game/rng.ts.
 *
 * The state `s` is advanced by s := (s * 1664525 + 1013904223) % 2^32 with
 * JavaScript's `%`, and each float is `(s & 0xffffffff) / 2^32`. The `&`
 * converts its operand with ToInt32 (section 7.1.6 of ECMA-262), a SIGNED
 * 32-bit reinterpretation, so floats lie in [-1/2, 1/2), not in [0, 1), and
 * `nextInt(min, max)` ranges over about half an interval on each side of
 * `min`. The model keeps that behaviour.
 *
 * The step is computed on doubles. With a clock-sized state (`Date.now()` is
 * about 1.76e12) the product exceeds 2^53 and is rounded, and the sum is
 * rounded again; the model applies that rounding (JsNumber.ToDouble). From a
 * state below 2^32 in magnitude, every later state, the arithmetic is exact.
 */
module Rng {
  import opened Wrappers
  import opened JsNumber

  const Multiplier: int := 1664525
  const Increment: int := 1013904223
  const TwoPow31: int := 0x8000_0000
  const TwoPow32: int := 0x1_0000_0000

  /** One state step (rng.ts:11), each operation rounded to a double. */
  function Step(s: int): (r: int)
    ensures -TwoPow32 < r < TwoPow32
  {
    JsRem(ToDouble(ToDouble(s * Multiplier) + Increment), TwoPow32)
  }

  /** ToInt32 of an integral number: what `x & 0xffffffff` yields. */
  function ToInt32(x: int): (r: int)
    ensures -TwoPow31 <= r < TwoPow31
    ensures (x - r) % TwoPow32 == 0
  {
    var m := x % TwoPow32;
    if m >= TwoPow31 then m - TwoPow32 else m
  }

  /** The float `nextFloat` returns once the state has become `state` (rng.ts:12). */
  function FloatOf(state: int): real {
    ToInt32(state) as real / TwoPow32 as real
  }

  /** `Math.floor(min + r * (max - min + 1))` (rng.ts:17). */
  function IntOf(r: real, min: int, max: int): int {
    (min as real + Times(r, max - min + 1)).Floor
  }

  /**
   * `r * n`, written as `n` additions of `r`. Callers that only pass draws
   * around then see no product of two unknowns; TimesIsProduct gives the
   * product back where a proof needs it.
   */
  function Times(r: real, n: int): real
    decreases if n < 0 then -n else n
  {
    if n == 0 then 0.0 else if n < 0 then Times(r, n + 1) - r else Times(r, n - 1) + r
  }

  /** IntOf is the floor of `min + r * (max - min + 1)` computed with a product. */
  lemma IntOfIsFloor(r: real, min: int, max: int)
    ensures IntOf(r, min, max) == (min as real + r * (max - min + 1) as real).Floor
  {
    var n := max - min + 1;
    TimesIsProduct(r, n);
    var x := min as real + Times(r, n);
    assert x == min as real + r * n as real;
    assert IntOf(r, min, max) == x.Floor;
  }

  lemma {:induction false} TimesIsProduct(r: real, n: int)
    ensures Times(r, n) == r * n as real
    decreases if n < 0 then -n else n
  {
    if n < 0 {
      TimesIsProduct(r, n + 1);
      assert r * n as real == r * (n + 1) as real - r;
    } else if n > 0 {
      TimesIsProduct(r, n - 1);
      assert r * n as real == r * (n - 1) as real + r;
    }
  }

  /** `typeof seed === 'number' ? seed : Date.now()` (rng.ts:8). */
  function InitialState(seed: Option<int>, now: int): int {
    if seed.Some? then seed.value else now
  }

  /** The state after `k` draws from `s`. */
  function StateAfter(s: int, k: nat): int {
    if k == 0 then s else Step(StateAfter(s, k - 1))
  }

  /** The floats of the first `k` draws from a generator in state `s`. */
  function Floats(s: int, k: nat): (r: seq<real>)
    ensures |r| == k
  {
    if k == 0 then [] else Floats(s, k - 1) + [FloatOf(StateAfter(s, k))]
  }

  /** The generator returned by `createRng`; its closure variable is the field `s`. */
  class Lcg {
    var s: int

    constructor (seed: Option<int>, now: int)
      ensures s == InitialState(seed, now)
    {
      s := if seed.Some? then seed.value else now;
    }

    method NextFloat() returns (r: real)
      modifies this
      ensures s == Step(old(s))
      ensures r == FloatOf(s)
      ensures -0.5 <= r < 0.5
    {
      s := JsRem(ToDouble(ToDouble(s * Multiplier) + Increment), TwoPow32);
      r := ToInt32(s) as real / TwoPow32 as real;
      FloatRange(s);
    }

    method NextInt(min: int, max: int) returns (r: int)
      modifies this
      ensures s == Step(old(s))
      ensures r == IntOf(FloatOf(s), min, max)
    {
      var f := NextFloat();
      r := (min as real + f * (max - min + 1) as real).Floor;
      IntOfIsFloor(f, min, max);
    }

    method Chance(probability: real) returns (b: bool)
      modifies this
      ensures s == Step(old(s))
      ensures b <==> FloatOf(s) < probability
    {
      var f := NextFloat();
      b := f < probability;
    }
  }

  /**
   * From a state in [0, 2^32) the recurrence is exact in double precision
   * (the product stays below 2^53) and the JavaScript `%` is the ordinary
   * remainder, so the state stays in [0, 2^32).
   */
  lemma StepExact(s: int)
    requires 0 <= s < TwoPow32
    ensures 0 <= s * Multiplier + Increment < TwoPow53
    ensures Step(s) == (s * Multiplier + Increment) % TwoPow32
    ensures 0 <= Step(s) < TwoPow32
  {
    assert s * Multiplier < TwoPow53 - Increment;
  }

  /**
   * A clock-sized seed: 1760000000123 * 1664525 exceeds 2^53, the double
   * product drops its low bits, and the first state differs from the exact
   * recurrence (124304384, not 124304286).
   */
  lemma ClockSeedRounds()
    ensures Step(1760000000123) == 124304384
    ensures (1760000000123 * Multiplier + Increment) % TwoPow32 == 124304286
  {
    var p := 1760000000123 * Multiplier;
    SpacingOfBinade(p, 9);
    assert ToDouble(p) == 2929564000204736512;
    var q := ToDouble(p) + Increment;
    SpacingOfBinade(q, 9);
    assert ToDouble(q) == 2929564001218640896;
  }

  /** `nextFloat` lies in [-1/2, 1/2) and is negative exactly when the new state's low 32 bits have bit 31 set. */
  lemma FloatRange(state: int)
    ensures -0.5 <= FloatOf(state) < 0.5
    ensures FloatOf(state) < 0.0 <==> state % TwoPow32 >= TwoPow31
  {
    var t := ToInt32(state);
    assert t as real / TwoPow32 as real == t as real / 4294967296.0;
    assert FloatOf(state) < 0.0 <==> t < 0;
  }

  /** With n = max - min + 1 >= 1, `nextInt` lies in [min - ceil(n/2), min + ceil(n/2) - 1]. */
  lemma IntOfRange(r: real, min: int, max: int)
    requires -0.5 <= r < 0.5
    requires min <= max
    ensures var half := (max - min + 2) / 2;
      min - half <= IntOf(r, min, max) <= min + half - 1
  {
    var n := max - min + 1;
    var half := (max - min + 2) / 2;
    TimesBounds(r, n);
    assert half as real >= n as real / 2.0;
    var x := min as real + Times(r, n);
    assert (min - half) as real <= min as real - n as real / 2.0 <= x;
    assert x < min as real + n as real / 2.0 <= (min + half) as real;
  }

  /** `n` draws from [-1/2, 1/2) add up to at least -n/2 and, for n > 0, to less than n/2. */
  lemma {:induction false} TimesBounds(r: real, n: nat)
    requires -0.5 <= r < 0.5
    ensures -(n as real) / 2.0 <= Times(r, n)
    ensures n > 0 ==> Times(r, n) < n as real / 2.0
  {
    if n > 0 {
      TimesBounds(r, n - 1);
    }
  }

  /** Any draw of `nextInt(min, max)` lies in the range of IntOfRange. */
  lemma NextIntRange(state: int, min: int, max: int)
    requires min <= max
    ensures var half := (max - min + 2) / 2;
      min - half <= IntOf(FloatOf(state), min, max) <= min + half - 1
  {
    FloatRange(state);
    IntOfRange(FloatOf(state), min, max);
  }

  /** Seed 700: the first draw of `nextInt(0, 3)` is -2, below `min`. */
  lemma NextIntBelowMin()
    ensures Step(700) == 2179071723
    ensures FloatOf(Step(700)) < 0.0
    ensures IntOf(FloatOf(Step(700)), 0, 3) == -2
  {
    assert Step(700) == 2179071723;
    assert ToInt32(2179071723) == -2115895573;
    var r := FloatOf(2179071723);
    assert r == -2115895573.0 / 4294967296.0;
    TimesIsProduct(r, 4);
    assert -2.0 <= r * 4.0 < -1.0;
  }

  /**
   * Two generators built from the same seed yield the same sequence of
   * floats: the first `k` draws are `Floats(seed, k)` for both.
   */
  method SameSeedSameDraws(seed: int, k: nat) returns (xs: seq<real>, ys: seq<real>)
    ensures xs == ys
    ensures xs == Floats(seed, k)
  {
    var a := new Lcg(Some(seed), 0);
    var b := new Lcg(Some(seed), 1);
    xs, ys := [], [];
    var i := 0;
    while i < k
      invariant 0 <= i <= k
      invariant a.s == b.s == StateAfter(seed, i)
      invariant xs == ys == Floats(seed, i)
    {
      var x := a.NextFloat();
      var y := b.NextFloat();
      xs, ys := xs + [x], ys + [y];
      i := i + 1;
    }
  }
}

/**
 * The few pieces of JavaScript number semantics the game logic relies on,
 * stated over exact integers and rationals.
 */
module JsNumber {

  function Max(a: int, b: int): int { if a >= b then a else b }
  function Min(a: int, b: int): int { if a <= b then a else b }

  /** `Math.round`: rounds half-way cases toward +infinity. */
  function Round(x: real): (r: int)
    ensures x - 0.5 < r as real <= x + 0.5
  {
    (x + 0.5).Floor
  }

  /** `a % b` for b > 0: the remainder takes the sign of the dividend. */
  function JsRem(a: int, b: int): (r: int)
    requires b > 0
    ensures -b < r < b
    ensures a >= 0 ==> r == a % b
    ensures a <= 0 ==> r <= 0
  {
    if a >= 0 then a % b else -((-a) % b)
  }

  const TwoPow53: int := 0x20_0000_0000_0000

  /**
   * The distance between neighbouring doubles around the natural number `x`:
   * 1 below 2^53, where every integer is a double, and twice as wide in each
   * binade above.
   */
  function Spacing(x: nat): (u: nat)
    ensures u >= 1
    ensures x < TwoPow53 ==> u == 1
    decreases x
  {
    if x < TwoPow53 then 1 else 2 * Spacing(x / 2)
  }

  function Pow2(n: nat): (p: nat)
    ensures p >= 1
  {
    if n == 0 then 1 else 2 * Pow2(n - 1)
  }

  /** In the binade [2^(52+e), 2^(53+e)) the doubles lie 2^e apart. */
  lemma {:induction false} SpacingOfBinade(x: nat, e: nat)
    requires x < TwoPow53 * Pow2(e)
    requires e > 0 ==> TwoPow53 * Pow2(e - 1) <= x
    ensures Spacing(x) == Pow2(e)
    decreases e
  {
    if e > 0 {
      if e > 1 {
        assert Pow2(e - 1) == 2 * Pow2(e - 2);
      }
      SpacingOfBinade(x / 2, e - 1);
    }
  }

  /** `x` rounded to the nearest multiple of `u`, a tie to the even multiple. */
  function RoundTo(x: nat, u: nat): (r: nat)
    requires u >= 1
    ensures u == 1 ==> r == x
  {
    var q, rem := x / u, x % u;
    var down := x - rem;
    if 2 * rem < u || (2 * rem == u && q % 2 == 0) then down else down + u
  }

  /** `x` rounded to the doubles around it. */
  function RoundToSpacing(x: nat): (r: nat)
    ensures x < TwoPow53 ==> r == x
  {
    RoundTo(x, Spacing(x))
  }

  /**
   * The double nearest to the integer `x`, ties to even (roundTiesToEven of
   * IEEE 754): what a JavaScript `*` or `+` of two integral numbers yields
   * when the exact result is `x`. Below 2^53 in magnitude nothing is lost.
   */
  function ToDouble(x: int): (r: int)
    ensures -TwoPow53 < x < TwoPow53 ==> r == x
  {
    if x < 0 then -(RoundToSpacing(-x) as int) else RoundToSpacing(x)
  }

  /**
   * The rounded value is a multiple of `u` and lies within half of `u` of
   * `x`; for `u = Spacing(x)`, these are the doubles' grid and IEEE 754's
   * round-to-nearest.
   */
  lemma RoundToNearest(x: nat, u: nat)
    requires u >= 1
    ensures RoundTo(x, u) % u == 0
    ensures 2 * (RoundTo(x, u) - x) <= u && 2 * (x - RoundTo(x, u)) <= u
  {
    var q := x / u;
    assert x == u * q + x % u;
    MultipleMod(u, q);
    MultipleMod(u, q + 1);
    assert u * (q + 1) == u * q + u;
  }

  /** A multiple of `u` leaves no remainder. */
  lemma MultipleMod(u: int, k: int)
    requires u >= 1
    ensures (u * k) % u == 0
  {
    var m := u * k;
    var d := k - m / u;
    assert m == u * (m / u) + m % u;
    assert u * d == m % u by {
      assert u * d == u * k - u * (m / u);
    }
  }

  lemma RoundMonotone(x: real, y: real)
    requires x <= y
    ensures Round(x) <= Round(y)
  {
  }

  lemma RoundOfInt(n: int)
    ensures Round(n as real) == n
  {
  }

  /** The decimal digits of a natural number, as `${n}` prints them. */
  function NatString(n: nat): (s: string)
    ensures |s| > 0
    ensures forall i :: 0 <= i < |s| ==> '0' <= s[i] <= '9'
    decreases n
  {
    var d := ['0' + (n % 10) as char];
    if n < 10 then d else NatString(n / 10) + d
  }

  /** `${n}` for an integer: a minus sign before the digits of a negative one. */
  function IntString(n: int): (s: string)
    ensures |s| > 0
  {
    if n < 0 then "-" + NatString(-n) else NatString(n)
  }
}

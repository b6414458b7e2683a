/** JavaScript number operations the components use, written out on exact integers. */
module JsMath {

  /** JavaScript's `a % b` for `b > 0`: the remainder takes the sign of `a` (it truncates),
      unlike Dafny's `%`, whose remainder is never negative. */
  function JsRem(a: int, b: int): (r: int)
    requires b > 0
    ensures a >= 0 ==> 0 <= r < b && r == a % b
    ensures a < 0 ==> -b < r <= 0
  {
    if a >= 0 then a % b else -((-a) % b)
  }

  /** `Math.round(num / den)` computed exactly on the rational `num / den`: the nearest
      integer, halves rounded up (towards positive infinity), as `Math.round` does. */
  function RoundRatio(num: int, den: int): (r: int)
    requires den != 0
    ensures den > 0 ==> (2 * r - 1) * den <= 2 * num < (2 * r + 1) * den
    ensures den < 0 ==> (2 * r - 1) * -den <= 2 * -num < (2 * r + 1) * -den
  {
    var n, d := if den > 0 then num else -num, if den > 0 then den else -den;
    HalfUp(n, d)
  }

  /** floor(n / d + 1/2) for a positive denominator. */
  function HalfUp(n: int, d: int): (r: int)
    requires d > 0
    ensures (2 * r - 1) * d <= 2 * n < (2 * r + 1) * d
  {
    var q := (2 * n + d) / (2 * d);
    assert 2 * d * q <= 2 * n + d < 2 * d * q + 2 * d by {
      DivBounds(2 * n + d, 2 * d);
    }
    q
  }

  lemma DivBounds(a: int, b: int)
    requires b > 0
    ensures b * (a / b) <= a < b * (a / b) + b
  {
  }

  /** The half-up rounding of a ratio is the only integer within half a unit of it, so the
      characterisation fixes the result. */
  lemma HalfUpUnique(n: int, d: int, r: int, s: int)
    requires d > 0
    requires (2 * r - 1) * d <= 2 * n < (2 * r + 1) * d
    requires (2 * s - 1) * d <= 2 * n < (2 * s + 1) * d
    ensures r == s
  {
    if r < s {
      assert (2 * r + 1) * d <= (2 * s - 1) * d by {
        MulMono(2 * r + 1, 2 * s - 1, d);
      }
    } else if s < r {
      assert (2 * s + 1) * d <= (2 * r - 1) * d by {
        MulMono(2 * s + 1, 2 * r - 1, d);
      }
    }
  }

  /** A half-up rounded percentage of a part of a positive whole lies between 0 and 100. */
  lemma PercentBounds(part: int, whole: int, r: int)
    requires 0 <= part <= whole && whole > 0
    requires (2 * r - 1) * whole <= 200 * part < (2 * r + 1) * whole
    ensures 0 <= r <= 100
  {
    if r < 0 {
      MulMono(2 * r + 1, 0, whole);
    }
    if r > 100 {
      MulMono(201, 2 * r - 1, whole);
    }
  }

  lemma MulMono(a: int, b: int, d: int)
    requires a <= b && d > 0
    ensures a * d <= b * d
  {
  }
}

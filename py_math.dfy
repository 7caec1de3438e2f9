/**
 * The Python numeric built-ins the integration applies to device values, on
 * exact reals: round() (nearest integer, ties to even), math.ceil(), and the
 * min/max clamps used by the setters.
 */
module PyMath {

  /** Python 3 `round(x)`: the nearest integer, and on a tie the even one. */
  function Round(x: real): (n: int)
    ensures x - 0.5 <= n as real <= x + 0.5
    ensures (n as real - x == 0.5 || x - n as real == 0.5) ==> n % 2 == 0
  {
    var f := x.Floor;
    var frac := x - f as real;
    if frac < 0.5 then f
    else if frac > 0.5 then f + 1
    else if f % 2 == 0 then f
    else f + 1
  }

  /** Rounding an integral value gives that value back. */
  lemma RoundOfInteger(k: int)
    ensures Round(k as real) == k
  {
  }

  /** Rounding is monotone: the tie rule never reverses two ordered inputs. */
  lemma RoundMonotone(x: real, y: real)
    requires x <= y
    ensures Round(x) <= Round(y)
  {
  }

  /** A value between two integers rounds to an integer between them. */
  lemma RoundWithin(x: real, lo: int, hi: int)
    ensures lo as real <= x <= hi as real ==> lo <= Round(x) <= hi
  {
    if lo as real <= x <= hi as real {
      RoundOfInteger(lo);
      RoundOfInteger(hi);
      RoundMonotone(lo as real, x);
      RoundMonotone(x, hi as real);
    }
  }

  /** Python `math.ceil(x)`: the least integer not below x. */
  function Ceil(x: real): (n: int)
    ensures x <= n as real < x + 1.0
  {
    -((-x).Floor)
  }

  /** `min(100, max(0, p))` on a float percentage. */
  function ClampPercent(p: real): (r: real)
    ensures 0.0 <= r <= 100.0
    ensures 0.0 <= p <= 100.0 ==> r == p
    ensures p < 0.0 ==> r == 0.0
    ensures p > 100.0 ==> r == 100.0
  {
    var low := if 0.0 >= p then 0.0 else p;
    if 100.0 <= low then 100.0 else low
  }

  /** Clamping twice is clamping once. */
  lemma ClampPercentIdempotent(p: real)
    ensures ClampPercent(ClampPercent(p)) == ClampPercent(p)
  {
  }

  /** `min(100, max(0, k))` on an integer percentage. */
  function ClampPercentInt(k: int): (r: int)
    ensures 0 <= r <= 100
    ensures 0 <= k <= 100 ==> r == k
    ensures k < 0 ==> r == 0
    ensures k > 100 ==> r == 100
  {
    var low := if 0 >= k then 0 else k;
    if 100 <= low then 100 else low
  }
}

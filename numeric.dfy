/**
 * Exact integer versions of the two roundings the tracker applies to
 * fractions: `Math.round(100 * wins / count)` and `Math.ceil(p / q)`.
 */
module Numeric {

  /**
   * The winrate percentage `Math.round(100 * wins / count)` computed exactly
   * (round half up), and 0 for an empty count.
   */
  function Winrate(wins: int, count: int): (r: int)
    ensures count <= 0 ==> r == 0
    ensures count > 0 ==> 2 * count * r - count <= 200 * wins < 2 * count * r + count
    ensures 0 <= wins <= count ==> 0 <= r <= 100
  {
    if count > 0 then
      var q := (200 * wins + count) / (2 * count);
      DivBounds(200 * wins + count, 2 * count);
      if 0 <= wins <= count then
        WinrateRange(wins, count, q);
        q
      else q
    else 0
  }

  lemma DivBounds(a: int, b: int)
    requires b > 0
    ensures b * (a / b) <= a < b * (a / b) + b
  {
  }

  lemma WinrateRange(wins: int, count: int, q: int)
    requires 0 <= wins <= count && count > 0
    requires 2 * count * q <= 200 * wins + count < 2 * count * q + 2 * count
    ensures 0 <= q <= 100
  {
    var c := 2 * count;
    assert c * q <= 200 * wins + count < c * q + c;
    MulCancel(c, q, 101);
    MulCancel(c, -1, q);
  }

  lemma MulCancel(c: int, x: int, y: int)
    requires c > 0 && c * x < c * y
    ensures x < y
  {
  }

  /** `Math.ceil(p / q)` for a positive denominator: the least r with p <= r * q. */
  function CeilDiv(p: int, q: int): (r: int)
    requires q > 0
    ensures (r - 1) * q < p <= r * q
  {
    DivBounds(-p, q);
    -((-p) / q)
  }

  /** A non-positive numerator never needs a positive number of steps. */
  lemma CeilDivNonPositive(p: int, q: int)
    requires q > 0 && p <= 0
    ensures CeilDiv(p, q) <= 0
  {
  }
}

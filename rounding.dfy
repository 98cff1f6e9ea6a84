/**
 * Display rounding as the page applies it before a value is reused.
 * JavaScript's `Math.round(v)` is the integer nearest to `v`, halves going up,
 * that is `floor(v + 1/2)`; so `Math.round(x * 100) / 100` is `Round2(x)` and
 * `Math.round(x * 10000) / 10000` is `Round4(x)`, over exact reals.
 */
module Rounding {

  /** `x` is a whole number of hundredths. */
  predicate HasTwoDecimals(x: real)
  {
    (x * 100.0).Floor as real == x * 100.0
  }

  /** `x` is a whole number of ten-thousandths. */
  predicate HasFourDecimals(x: real)
  {
    (x * 10000.0).Floor as real == x * 10000.0
  }

  /** `Math.round(x * 100) / 100`: `x` to two decimals. */
  function Round2(x: real): (r: real)
    ensures x - 0.005 < r <= x + 0.005
    ensures HasTwoDecimals(r)
    ensures x >= 0.0 ==> r >= 0.0
  {
    ((x * 100.0 + 0.5).Floor as real) / 100.0
  }

  /** `Math.round(x * 10000) / 10000`: `x` to four decimals. */
  function Round4(x: real): (r: real)
    ensures x - 0.00005 < r <= x + 0.00005
    ensures HasFourDecimals(r)
    ensures x >= 0.0 ==> r >= 0.0
  {
    ((x * 10000.0 + 0.5).Floor as real) / 10000.0
  }

  /** A value that already has at most two decimals is left unchanged. */
  lemma Round2Exact(x: real)
    requires HasTwoDecimals(x)
    ensures Round2(x) == x
  {
    var k := (x * 100.0).Floor;
    assert (x * 100.0 + 0.5).Floor == k;
  }

  /** A value that already has at most four decimals is left unchanged. */
  lemma Round4Exact(x: real)
    requires HasFourDecimals(x)
    ensures Round4(x) == x
  {
    var k := (x * 10000.0).Floor;
    assert (x * 10000.0 + 0.5).Floor == k;
  }

  function Abs(x: real): (r: real)
    ensures r >= 0.0 && (r == x || r == -x)
  {
    if x < 0.0 then -x else x
  }

  /** `r * y` lands within `d * |y|` of `x`. */
  predicate MultipliesBackTo(r: real, y: real, x: real, d: real)
  {
    -d * Abs(y) <= r * y - x <= d * Abs(y)
  }

  /**
   * A value `r` rounded from the quotient `x / y` to within `d`, multiplied
   * back by `y`, is within `d * |y|` of `x`.
   */
  lemma ScaledBound(x: real, y: real, d: real, r: real)
    requires y != 0.0 && x / y - d < r <= x / y + d
    ensures MultipliesBackTo(r, y, x, d)
  {
    var e := r - x / y;
    assert r * y - x == e * y;
    if y > 0.0 {
      assert -d * y <= e * y <= d * y;
    } else {
      assert d * y <= e * y <= -d * y;
    }
  }
}

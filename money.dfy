/**
 * Money is an integer number of cents (a `BigDecimal` of scale 2).
 * `a.divide(b, 2, RoundingMode.HALF_UP)` on two amounts of scale 2 or on an
 * amount and an integer becomes `HalfUpDiv` on cents.
 */
module Money {

  /**
   * The quotient a / b rounded to the nearest integer, ties away from zero
   * (`RoundingMode.HALF_UP`).
   */
  function HalfUpDiv(a: int, b: int): (r: int)
    requires b > 0
    ensures a >= 0 ==> r >= 0 && -b <= 2 * (a - b * r) < b
    ensures a < 0 ==> r <= 0 && -b < 2 * (a - b * r) <= b
  {
    if a >= 0 then
      var q := (2 * a + b) / (2 * b);
      assert 2 * b * q <= 2 * a + b < 2 * b * q + 2 * b;
      q
    else
      var q := (2 * -a + b) / (2 * b);
      assert 2 * b * q <= 2 * -a + b < 2 * b * q + 2 * b;
      -q
  }

  /** A positive factor keeps the sign of the other factor, and at least its own size. */
  lemma ProductBound(n: int, d: int)
    requires n > 0
    ensures d >= 1 ==> n * d >= n
    ensures d <= -1 ==> n * d <= -n
  {
  }

  /** One more factor adds one more `v`. */
  lemma MulSucc(n: int, v: int)
    ensures (n + 1) * v == n * v + v
  {
  }

  /** An exact quotient needs no rounding. */
  lemma {:induction false} HalfUpDivExact(a: int, b: int, k: int)
    requires b > 0 && a == k * b
    ensures HalfUpDiv(a, b) == k
  {
    var r := HalfUpDiv(a, b);
    assert a - b * r == b * (k - r);
    ProductBound(b, k - r);
  }
}

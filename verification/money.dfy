/**
 * Money amounts are exact reals. The report rounds them with JavaScript's
 * `toFixed(2)`, which picks the nearest multiple of 0.01 and, on a tie, the
 * one farther from zero. `Round2` is that rounding on exact values.
 */
module Money {

  /** True when `x` is a whole number of cents. */
  predicate IsCents(x: real) {
    (x * 100.0).Floor as real == x * 100.0
  }

  /** Rounds to two decimals, ties away from zero. */
  function Round2(x: real): (r: real)
    ensures IsCents(r)
    ensures x >= 0.0 ==> x - 0.005 < r <= x + 0.005
    ensures x < 0.0 ==> x - 0.005 <= r < x + 0.005
  {
    if x >= 0.0 then
      var n := (x * 100.0 + 0.5).Floor;
      assert (n as real / 100.0) * 100.0 == n as real;
      n as real / 100.0
    else
      var n := (-x * 100.0 + 0.5).Floor;
      assert (-(n as real / 100.0)) * 100.0 == (-n) as real;
      -(n as real / 100.0)
  }

  /** Two whole-cent amounts closer than one cent are equal. */
  lemma CentsWithinACentAreEqual(a: real, b: real)
    requires IsCents(a) && IsCents(b)
    requires -0.01 < a - b < 0.01
    ensures a == b
  {
    var na := (a * 100.0).Floor;
    var nb := (b * 100.0).Floor;
    assert -1.0 < (na - nb) as real < 1.0;
  }

  /** Rounding an amount that is already whole cents leaves it alone. */
  lemma Round2OfCents(x: real)
    requires IsCents(x)
    ensures Round2(x) == x
  {
    CentsWithinACentAreEqual(Round2(x), x);
  }

  /** Rounding twice is rounding once: the report re-rounds the bonus the strategy already rounded. */
  lemma Round2Idempotent(x: real)
    ensures Round2(Round2(x)) == Round2(x)
  {
    Round2OfCents(Round2(x));
  }

  lemma FloorMonotone(a: real, b: real)
    requires a <= b
    ensures a.Floor <= b.Floor
  {
  }

  /** Rounding never reverses an order, so a list sorted by profit stays sorted after rounding. */
  lemma Round2Monotone(x: real, y: real)
    requires x <= y
    ensures Round2(x) <= Round2(y)
  {
    if x >= 0.0 {
      FloorMonotone(x * 100.0 + 0.5, y * 100.0 + 0.5);
    } else if y < 0.0 {
      FloorMonotone(-y * 100.0 + 0.5, -x * 100.0 + 0.5);
    }
  }

  /**
   * 5% of 33.335 is 1.66675, which shows as 1.67; a half cent goes away
   * from zero on either side.
   */
  lemma Round2Examples()
    ensures Round2(33.335 * 0.05) == 1.67
    ensures Round2(0.125) == 0.13
    ensures Round2(-0.125) == -0.13
  {
    CentsWithinACentAreEqual(Round2(33.335 * 0.05), 1.67);
    CentsWithinACentAreEqual(Round2(0.125), 0.13);
    CentsWithinACentAreEqual(Round2(-0.125), -0.13);
  }
}

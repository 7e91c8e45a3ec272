/**
 * Angle arithmetic of the bicycle simulator: absolute value, the
 * degree/radian conversions and the reduction of an angle into one full
 * turn, which the simulator performs by repeated subtraction and addition
 * of the period.
 *
 * `GLfloat` values are modelled as exact reals; `PI` is the literal the
 * program defines.
 */
module Angles {

  const PI: real := 3.141592653589793
  const TWO_PI: real := 2.0 * PI
  /** One full turn in degrees: the range of the camera and pose angles. */
  const FULL_TURN: real := 360.0

  function Abs(a: real): (r: real)
    ensures r >= 0.0
    ensures r == a || r == -a
    ensures a >= 0.0 ==> r == a
  {
    if a < 0.0 then -a else a
  }

  function Degrees(a: real): (r: real)
    ensures 0.0 <= a < TWO_PI ==> 0.0 <= r < FULL_TURN
    ensures a < 0.0 <==> r < 0.0
  {
    a * 180.0 / PI
  }

  function Radians(a: real): (r: real)
    ensures 0.0 <= a < FULL_TURN ==> 0.0 <= r < TWO_PI
    ensures a < 0.0 <==> r < 0.0
  {
    a * PI / 180.0
  }

  /** The two conversions are inverse to each other. */
  lemma DegreesRadiansInverse(x: real)
    ensures Degrees(Radians(x)) == x
    ensures Radians(Degrees(x)) == x
  {
  }

  /** The two periods the simulator reduces angles by: a turn in radians and in degrees. */
  predicate IsPeriod(period: real) {
    period == TWO_PI || period == FULL_TURN
  }

  /** `k` whole periods. */
  function Turns(k: int, period: real): real {
    k as real * period
  }

  /** `x` and `y` name the same angle: they differ by whole periods. */
  ghost predicate SameAngle(x: real, y: real, period: real) {
    exists k: int :: x == y + Turns(k, period)
  }

  /** The representative of `x` modulo `period`, in [0, period). */
  function Normalize(x: real, period: real): (r: real)
    requires IsPeriod(period)
    ensures 0.0 <= r < period
  {
    x - (x / period).Floor as real * period
  }

  /**
   * Normalize is the only value in [0, period) that differs from `x` by
   * an integer number of periods.
   */
  lemma NormalizeUnique(x: real, period: real, k: int, y: real)
    requires IsPeriod(period)
    requires 0.0 <= y < period
    requires y == x + k as real * period
    ensures y == Normalize(x, period)
  {
    var m := k + (x / period).Floor;
    assert y - Normalize(x, period) == m as real * period;
    assert -period < m as real * period < period;
  }

  /** Normalize differs from its argument by a whole number of periods. */
  lemma NormalizeOffset(x: real, period: real) returns (k: int)
    requires IsPeriod(period)
    ensures Normalize(x, period) == x + k as real * period
  {
    k := -(x / period).Floor;
  }

  /**
   * Whole turns added to an angle do not change its normal form. A
   * stand-alone property of the reduction: an orbit angle dragged a full
   * turn, or an angle reduced once more, lands where it started.
   */
  lemma NormalizeShift(x: real, period: real, k: int)
    requires IsPeriod(period)
    ensures Normalize(x + Turns(k, period), period) == Normalize(x, period)
  {
    var y := x + Turns(k, period);
    var j := NormalizeOffset(y, period);
    NormalizeUnique(x, period, j + k, Normalize(y, period));
  }

  /** An angle already in [0, period) is its own normal form. */
  lemma NormalizeInRange(x: real, period: real)
    requires IsPeriod(period)
    requires 0.0 <= x < period
    ensures Normalize(x, period) == x
  {
    NormalizeUnique(x, period, 0, x);
  }

  /**
   * The pair of loops that brings an angle into [0, period): subtract the
   * period while the angle is at least one period, then add it while the
   * angle is negative.
   */
  method Wrap(x: real, period: real) returns (r: real)
    requires IsPeriod(period)
    ensures r == Normalize(x, period)
  {
    r := x;
    ghost var k: int := 0;
    while r >= period
      invariant r == x + k as real * period
      decreases (r / period).Floor
    {
      r := r - period;
      k := k - 1;
    }
    while r < 0.0
      invariant r < period
      invariant r == x + k as real * period
      decreases (-r / period).Floor
    {
      r := r + period;
      k := k + 1;
    }
    NormalizeUnique(x, period, k, r);
  }

  /** The sum of two angles in radians, reduced into [0, 2*PI). */
  method AngleSum(a: real, b: real) returns (r: real)
    ensures 0.0 <= r < TWO_PI
    ensures r == Normalize(a + b, TWO_PI)
    ensures SameAngle(r, a + b, TWO_PI)
  {
    var s := a + b;
    r := Wrap(s, TWO_PI);
    var k := NormalizeOffset(s, TWO_PI);
    assert r == s + Turns(k, TWO_PI);
  }
}

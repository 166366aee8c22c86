/** The distance test shared by the hold and combo trackers. */
module Distance {

  function SquaredDistance(x0: int, y0: int, x: int, y: int): (r: nat)
  {
    var dx, dy := x - x0, y - y0;
    assert dx * dx >= 0 && dy * dy >= 0;
    dx * dx + dy * dy
  }

  /** `check_distance`: false for a negative tolerance, otherwise whether
      (x, y) lies strictly farther than `d` from (x0, y0). The source
      compares the square root of the squared distance with `d`; on integers
      comparing the squares is the same test (lemma CheckDistanceIsEuclidean). */
  function CheckDistance(x0: int, y0: int, x: int, y: int, d: int): (r: bool)
    ensures d < 0 ==> !r
    ensures x == x0 && y == y0 ==> !r
    ensures r ==> x != x0 || y != y0
  {
    d >= 0 && SquaredDistance(x0, y0, x, y) > d * d
  }

  /** Stated apart so that the solver proves it without the surrounding
      nonlinear facts in scope. */
  lemma PositiveProduct(u: real, v: real)
    requires u > 0.0 && v > 0.0
    ensures u * v > 0.0
  {
  }

  /** For non-negative reals, `a > b` exactly when `a * a > b * b`. */
  lemma SquareMonotone(a: real, b: real)
    requires a >= 0.0 && b >= 0.0
    ensures a > b <==> a * a > b * b
  {
    assert a * a - b * b == (a - b) * (a + b);
    if a > b {
      PositiveProduct(a - b, a + b);
    } else if a < b {
      PositiveProduct(b - a, a + b);
    }
  }

  /** `Math.sqrt(dx*dx+dy*dy) > d` with `dist` the exact Euclidean distance:
      the integer test agrees with the source's test for every input. */
  lemma CheckDistanceIsEuclidean(x0: int, y0: int, x: int, y: int, d: int, dist: real)
    requires dist >= 0.0
    requires dist * dist == SquaredDistance(x0, y0, x, y) as real
    ensures CheckDistance(x0, y0, x, y, d) <==> d >= 0 && dist > d as real
  {
    if d >= 0 {
      SquareMonotone(dist, d as real);
      assert (d * d) as real == (d as real) * (d as real);
    }
  }

  /** The test does not depend on which point is the anchor, and a point
      farther than a tolerance is farther than every smaller one. */
  lemma CheckDistanceSymmetricMonotone(x0: int, y0: int, x: int, y: int, d: int, e: int)
    requires 0 <= d <= e
    ensures CheckDistance(x0, y0, x, y, d) == CheckDistance(x, y, x0, y0, d)
    ensures CheckDistance(x0, y0, x, y, e) ==> CheckDistance(x0, y0, x, y, d)
  {
    assert (x - x0) * (x - x0) == (x0 - x) * (x0 - x);
    assert (y - y0) * (y - y0) == (y0 - y) * (y0 - y);
    assert d * d <= e * e by { assert d * d <= d * e <= e * e; }
  }
}

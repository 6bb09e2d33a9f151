/** Lens undistortion with the single-coefficient radial division model (js/undistort.js).
    The source takes r = sqrt(dx^2 + dy^2) and squares it again; the model uses r^2 directly. */
module Undistort {
  import opened Utils

  /** The divisor 1 + k1 * r^2, where r is the distance from the optical centre. */
  function Factor(p: Point, centre: Point, k1: real): real
  {
    1.0 + k1 * SquaredDistance(p, centre)
  }

  /** Both offsets from the centre are divided by the same factor. A zero factor divides by
      zero, so it is excluded. */
  function UndistortPoint(p: Point, centre: Point, k1: real): (r: Point)
    requires Factor(p, centre, k1) != 0.0
    ensures (r.x - centre.x) * Factor(p, centre, k1) == p.x - centre.x
    ensures (r.y - centre.y) * Factor(p, centre, k1) == p.y - centre.y
  {
    var f := Factor(p, centre, k1);
    Point(centre.x + ((p.x - centre.x) / f), centre.y + ((p.y - centre.y) / f))
  }

  /** Without distortion the point is left where it is. */
  lemma NoDistortionIsIdentity(p: Point, centre: Point)
    ensures Factor(p, centre, 0.0) == 1.0
    ensures UndistortPoint(p, centre, 0.0) == p
  {
  }

  /** The optical centre is a fixed point for every coefficient. */
  lemma CentreIsFixed(centre: Point, k1: real)
    ensures Factor(centre, centre, k1) == 1.0
    ensures UndistortPoint(centre, centre, k1) == centre
  {
  }

  /** With a positive factor the output lies on the ray from the centre through the input. */
  lemma OutputOnRay(p: Point, centre: Point, k1: real)
    requires Factor(p, centre, k1) > 0.0
    ensures var r := UndistortPoint(p, centre, k1);
      var t := 1.0 / Factor(p, centre, k1);
      t > 0.0 && r.x - centre.x == t * (p.x - centre.x) && r.y - centre.y == t * (p.y - centre.y)
  {
  }

  /** The squared distance from the centre shrinks by the square of the factor. */
  lemma ScaledDistance(p: Point, centre: Point, k1: real)
    requires Factor(p, centre, k1) != 0.0
    ensures var f := Factor(p, centre, k1);
      SquaredDistance(UndistortPoint(p, centre, k1), centre) * (f * f) == SquaredDistance(p, centre)
  {
    var f := Factor(p, centre, k1);
    var r := UndistortPoint(p, centre, k1);
    var ax, ay := r.x - centre.x, r.y - centre.y;
    assert ax * f == p.x - centre.x && ay * f == p.y - centre.y;
    calc {
      (ax * ax + ay * ay) * (f * f);
      (ax * f) * (ax * f) + (ay * f) * (ay * f);
      (p.x - centre.x) * (p.x - centre.x) + (p.y - centre.y) * (p.y - centre.y);
    }
  }

  /** Positive k1 (pincushion) never moves a point away from the centre. */
  lemma PincushionPullsIn(p: Point, centre: Point, k1: real)
    requires k1 >= 0.0
    ensures Factor(p, centre, k1) >= 1.0
    ensures SquaredDistance(UndistortPoint(p, centre, k1), centre) <= SquaredDistance(p, centre)
  {
    var f := Factor(p, centre, k1);
    assert k1 * SquaredDistance(p, centre) >= 0.0;
    ScaledDistance(p, centre, k1);
    var s' := SquaredDistance(UndistortPoint(p, centre, k1), centre);
    assert f * f >= 1.0 by { assert f * f - 1.0 == (f - 1.0) * (f + 1.0); }
    assert s' * (f * f) - s' == s' * (f * f - 1.0) >= 0.0;
  }

  /** Negative k1 (barrel) with a positive factor never moves a point towards the centre. */
  lemma BarrelPushesOut(p: Point, centre: Point, k1: real)
    requires k1 < 0.0 && Factor(p, centre, k1) > 0.0
    ensures Factor(p, centre, k1) <= 1.0
    ensures SquaredDistance(UndistortPoint(p, centre, k1), centre) >= SquaredDistance(p, centre)
  {
    var f := Factor(p, centre, k1);
    assert k1 * SquaredDistance(p, centre) <= 0.0;
    ScaledDistance(p, centre, k1);
    var s' := SquaredDistance(UndistortPoint(p, centre, k1), centre);
    assert f * f <= 1.0 by {
      assert 1.0 - f * f == (1.0 - f) * (1.0 + f);
      MulNonNegative(1.0 - f, 1.0 + f);
    }
    assert s' - s' * (f * f) == s' * (1.0 - f * f) >= 0.0;
  }
}

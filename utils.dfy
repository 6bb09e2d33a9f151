/** Helpers shared by the detector, the decoder and the circle fit (js/utils.js). */
module Utils {

  datatype Option<T> = None | Some(value: T)

  /** The JavaScript Math functions the model cannot compute exactly over reals; each use
      site states what it needs of them. */
  datatype Maths = Maths(sqrt: real -> real, sin: real -> real, cos: real -> real, atan: real -> real)

  /** A point {x, y}: pixel coordinates, or angles in radians once projected. */
  datatype Point = Point(x: real, y: real)

  /** A decoded pen position {x, y, z}. */
  datatype Point3 = Point3(x: real, y: real, z: real)

  /** The {x, y} part of a position; functions taking a Point never see z. */
  function Flat(p: Point3): Point
  {
    Point(p.x, p.y)
  }

  /** Math.round: the nearest integer, with halves rounded towards +infinity. */
  function Round(v: real): (r: int)
    ensures r as real - 0.5 <= v < r as real + 0.5
  {
    (v + 0.5).Floor
  }

  function Abs(v: real): (r: real)
    ensures r >= 0.0 && (r == v || r == -v)
  {
    if v < 0.0 then -v else v
  }

  // ---------------------------------------------------------------------------
  // map: linear interpolation from [fromMin, fromMax] onto [toMin, toMax]

  /** A zero-width source range divides by zero, so it is excluded. */
  function Map(val: real, fromMin: real, fromMax: real, toMin: real, toMax: real): (r: real)
    requires fromMax != fromMin
    ensures (r - toMin) * (fromMax - fromMin) == (toMax - toMin) * (val - fromMin)
  {
    toMin + ((toMax - toMin) * (val - fromMin) / (fromMax - fromMin))
  }

  /** The ends of the source range land on the ends of the target range. */
  lemma MapEndpoints(fromMin: real, fromMax: real, toMin: real, toMax: real)
    requires fromMax != fromMin
    ensures Map(fromMin, fromMin, fromMax, toMin, toMax) == toMin
    ensures Map(fromMax, fromMin, fromMax, toMin, toMax) == toMax
  {
    var d := fromMax - fromMin;
    assert (toMax - toMin) * d / d == toMax - toMin;
  }

  /** map is affine in its value: it preserves every weighted mean of two values. */
  lemma MapAffine(v1: real, v2: real, t: real, fromMin: real, fromMax: real, toMin: real, toMax: real)
    requires fromMax != fromMin
    ensures Map(t * v1 + (1.0 - t) * v2, fromMin, fromMax, toMin, toMax)
         == t * Map(v1, fromMin, fromMax, toMin, toMax) + (1.0 - t) * Map(v2, fromMin, fromMax, toMin, toMax)
  {
    var d := fromMax - fromMin;
    var g := toMax - toMin;
    var m := t * v1 + (1.0 - t) * v2;
    assert m - fromMin == t * (v1 - fromMin) + (1.0 - t) * (v2 - fromMin);
    calc {
      g * (m - fromMin) / d;
      g * (t * (v1 - fromMin) + (1.0 - t) * (v2 - fromMin)) / d;
      t * (g * (v1 - fromMin) / d) + (1.0 - t) * (g * (v2 - fromMin) / d);
    }
  }

  // ---------------------------------------------------------------------------
  // truncate: cut a text at a line boundary

  /** The last index at or below i holding c, or -1. */
  function LastIndexAtOrBelow(s: string, c: char, i: int): (k: int)
    requires -1 <= i < |s|
    ensures -1 <= k <= i
    ensures k >= 0 ==> s[k] == c
    ensures forall j :: k < j <= i ==> s[j] != c
    decreases i + 1
  {
    if i < 0 then -1
    else if s[i] == c then i
    else LastIndexAtOrBelow(s, c, i - 1)
  }

  /** String.prototype.lastIndexOf(c, from): the search start is clamped into [0, |s| - 1]. */
  function LastIndexOf(s: string, c: char, from: int): (k: int)
    ensures -1 <= k < |s|
    ensures k >= 0 ==> s[k] == c && k <= (if from < 0 then 0 else from)
    ensures forall j :: k < j < |s| && j <= (if from < 0 then 0 else from) ==> s[j] != c
  {
    if |s| == 0 then -1
    else
      var start := if from < 0 then 0 else if from >= |s| then |s| - 1 else from;
      LastIndexAtOrBelow(s, c, start)
  }

  /** A text no longer than the limit is returned whole; a longer one keeps the lines that
      end at or before index limit, followed by "\n...". substring clamps -1 to 0, so a text
      with no newline in range keeps nothing. */
  function Truncate(text: string, limit: int): (r: string)
    ensures |text| <= limit ==> r == text
    ensures |text| > limit ==>
      exists k :: 0 <= k <= |text| && r == text[..k] + "\n..."
        && (k == 0 || (k < |text| && text[k] == '\n'))
        && k <= (if limit < 0 then 0 else limit)
        && (forall j :: k < j < |text| && j <= limit ==> text[j] != '\n')
  {
    if |text| <= limit then text
    else
      var lastLine := LastIndexOf(text, '\n', limit);
      var k := if lastLine < 0 then 0 else lastLine;
      text[..k] + "\n..."
  }

  // ---------------------------------------------------------------------------
  // pointsArrayToTextLines: one "x y" line per point

  function PointLine(p: Point, show: real -> string): string
  {
    show(p.x) + " " + show(p.y)
  }

  /** The points' lines joined by "\n"; show is JavaScript's number-to-string conversion. */
  function PointsArrayToTextLines(points: seq<Point>, show: real -> string): (r: string)
    ensures (r == "") <==> (points == [])
  {
    if |points| == 0 then ""
    else if |points| == 1 then PointLine(points[0], show)
    else PointsArrayToTextLines(points[..|points| - 1], show) + "\n" + PointLine(points[|points| - 1], show)
  }

  /** String.prototype.split("\n"): the pieces between newlines ("" gives [""]). */
  function Lines(s: string): (r: seq<string>)
    ensures |r| > 0
  {
    if |s| == 0 then [""]
    else
      var init := Lines(s[..|s| - 1]);
      if s[|s| - 1] == '\n' then init + [""]
      else init[..|init| - 1] + [init[|init| - 1] + [s[|s| - 1]]]
  }

  function NewlineCount(s: string): nat
  {
    if |s| == 0 then 0 else NewlineCount(s[..|s| - 1]) + (if s[|s| - 1] == '\n' then 1 else 0)
  }

  lemma {:induction false} LinesOfPlain(s: string)
    requires '\n' !in s
    ensures Lines(s) == [s]
    ensures NewlineCount(s) == 0
  {
    if |s| > 0 {
      LinesOfPlain(s[..|s| - 1]);
      assert s[..|s| - 1] + [s[|s| - 1]] == s;
    }
  }

  /** Appending "\n" + b to a splits exactly at that newline. */
  lemma {:induction false} LinesOfJoin(a: string, b: string)
    requires '\n' !in b
    ensures Lines(a + "\n" + b) == Lines(a) + [b]
    ensures NewlineCount(a + "\n" + b) == NewlineCount(a) + 1
  {
    if |b| == 0 {
      assert (a + "\n" + b)[..|a + "\n" + b| - 1] == a;
    } else {
      var b' := b[..|b| - 1];
      LinesOfJoin(a, b');
      assert (a + "\n" + b)[..|a + "\n" + b| - 1] == a + "\n" + b';
      assert b' + [b[|b| - 1]] == b;
    }
  }

  /** The "x y" line of each point, in order. */
  function PointLines(points: seq<Point>, show: real -> string): (r: seq<string>)
    ensures |r| == |points| && forall i :: 0 <= i < |points| ==> r[i] == PointLine(points[i], show)
  {
    if points == [] then [] else PointLines(points[..|points| - 1], show) + [PointLine(points[|points| - 1], show)]
  }

  /** Splitting the text at its newlines gives back one "x y" line per point, in order:
      n points are joined by exactly n - 1 newlines. */
  lemma {:induction false} TextLinesRoundTrip(points: seq<Point>, show: real -> string)
    requires |points| > 0
    requires forall i :: 0 <= i < |points| ==> '\n' !in PointLine(points[i], show)
    ensures Lines(PointsArrayToTextLines(points, show)) == PointLines(points, show)
    ensures NewlineCount(PointsArrayToTextLines(points, show)) == |points| - 1
  {
    var last := PointLine(points[|points| - 1], show);
    if |points| == 1 {
      LinesOfPlain(last);
    } else {
      var init := points[..|points| - 1];
      var text := PointsArrayToTextLines(init, show);
      assert PointsArrayToTextLines(points, show) == text + "\n" + last;
      TextLinesRoundTrip(init, show);
      LinesOfJoin(text, last);
      assert PointLines(points, show) == PointLines(init, show) + [last];
    }
  }

  // ---------------------------------------------------------------------------
  // averagePoint: componentwise mean, accumulated in a loop

  function SumX(ps: seq<Point>): real
  {
    if ps == [] then 0.0 else SumX(ps[..|ps| - 1]) + ps[|ps| - 1].x
  }

  function SumY(ps: seq<Point>): real
  {
    if ps == [] then 0.0 else SumY(ps[..|ps| - 1]) + ps[|ps| - 1].y
  }

  /** The mean point; the empty sequence would divide by zero and is excluded. */
  function Mean(ps: seq<Point>): (r: Point)
    requires |ps| > 0
    ensures r.x * |ps| as real == SumX(ps) && r.y * |ps| as real == SumY(ps)
  {
    Point(SumX(ps) / |ps| as real, SumY(ps) / |ps| as real)
  }

  method AveragePoint(points: seq<Point>) returns (centre: Point)
    requires |points| > 0
    ensures centre == Mean(points)
  {
    var cx, cy := 0.0, 0.0;
    for i := 0 to |points|
      invariant cx == SumX(points[..i]) && cy == SumY(points[..i])
    {
      assert points[..i + 1][..i] == points[..i];
      cx := cx + points[i].x;
      cy := cy + points[i].y;
    }
    assert points[..|points|] == points;
    centre := Point(cx / |points| as real, cy / |points| as real);
  }

  lemma MeanOfOne(p: Point)
    ensures Mean([p]) == p
  {
    assert [p][..0] == [];
    assert SumX([p]) == SumX([]) + p.x;
    assert SumY([p]) == SumY([]) + p.y;
    assert SumX([p]) == p.x && SumY([p]) == p.y;
  }

  lemma {:induction false} SumXBounded(ps: seq<Point>, lo: real, hi: real)
    requires forall i :: 0 <= i < |ps| ==> lo <= ps[i].x <= hi
    ensures |ps| as real * lo <= SumX(ps) <= |ps| as real * hi
  {
    if ps != [] {
      SumXBounded(ps[..|ps| - 1], lo, hi);
    }
  }

  lemma {:induction false} SumYBounded(ps: seq<Point>, lo: real, hi: real)
    requires forall i :: 0 <= i < |ps| ==> lo <= ps[i].y <= hi
    ensures |ps| as real * lo <= SumY(ps) <= |ps| as real * hi
  {
    if ps != [] {
      SumYBounded(ps[..|ps| - 1], lo, hi);
    }
  }

  /** The mean lies inside every box that holds all the points. */
  lemma MeanInsideBox(ps: seq<Point>, x0: real, x1: real, y0: real, y1: real)
    requires |ps| > 0
    requires forall i :: 0 <= i < |ps| ==> x0 <= ps[i].x <= x1 && y0 <= ps[i].y <= y1
    ensures x0 <= Mean(ps).x <= x1 && y0 <= Mean(ps).y <= y1
  {
    MeanXBetween(ps, x0, x1);
    MeanYBetween(ps, y0, y1);
  }

  lemma MeanXBetween(ps: seq<Point>, lo: real, hi: real)
    requires |ps| > 0
    requires forall i :: 0 <= i < |ps| ==> lo <= ps[i].x <= hi
    ensures lo <= Mean(ps).x <= hi
  {
    SumXBounded(ps, lo, hi);
    DivideBetween(SumX(ps), |ps| as real, lo, hi);
  }

  lemma MeanYBetween(ps: seq<Point>, lo: real, hi: real)
    requires |ps| > 0
    requires forall i :: 0 <= i < |ps| ==> lo <= ps[i].y <= hi
    ensures lo <= Mean(ps).y <= hi
  {
    SumYBounded(ps, lo, hi);
    DivideBetween(SumY(ps), |ps| as real, lo, hi);
  }

  lemma DivideBetween(a: real, n: real, lo: real, hi: real)
    requires n > 0.0 && n * lo <= a <= n * hi
    ensures lo <= a / n <= hi
  {
    var q := a / n;
    assert (q - lo) * n == a - n * lo >= 0.0;
    assert (hi - q) * n == n * hi - a >= 0.0;
  }

  // ---------------------------------------------------------------------------
  // distance: Euclidean distance in x and y (sqrt is JavaScript's Math.sqrt)

  lemma MulNonNegative(a: real, b: real)
    requires a >= 0.0 && b >= 0.0
    ensures a * b >= 0.0
  {
  }

  function SquaredDistance(p1: Point, p2: Point): (r: real)
    ensures r >= 0.0
  {
    (p1.x - p2.x) * (p1.x - p2.x) + (p1.y - p2.y) * (p1.y - p2.y)
  }

  /** Never negative when the square root is not. */
  function Distance(p1: Point, p2: Point, sqrt: real -> real): (r: real)
    ensures (forall v: real :: v >= 0.0 ==> sqrt(v) >= 0.0) ==> r >= 0.0
  {
    sqrt(SquaredDistance(p1, p2))
  }

  lemma DistanceSymmetric(p1: Point, p2: Point, sqrt: real -> real)
    ensures Distance(p1, p2, sqrt) == Distance(p2, p1, sqrt)
  {
    assert SquaredDistance(p1, p2) == SquaredDistance(p2, p1);
  }

  /** A point is at distance zero from itself (any z ignored), given sqrt(0) == 0. */
  lemma DistanceToSelf(p1: Point, p2: Point, sqrt: real -> real)
    requires sqrt(0.0) == 0.0
    requires p1.x == p2.x && p1.y == p2.y
    ensures Distance(p1, p2, sqrt) == 0.0
  {
    assert p1.x - p2.x == 0.0 && p1.y - p2.y == 0.0;
    assert SquaredDistance(p1, p2) == 0.0;
  }

  // ---------------------------------------------------------------------------
  // cartesianToAngular: the angle from the optical axis, per axis, as atan(offset / focal)

  /** A zero focal length divides by zero, so it is excluded. */
  /** A point level with the optical centre on one axis has angle atan(0), that is 0, on that axis. */
  function CartesianToAngular(p: Point, focalLength: Point, opticalCentre: Point, atan: real -> real): (r: Point)
    requires focalLength.x != 0.0 && focalLength.y != 0.0
    ensures atan(0.0) == 0.0 ==> (p.x == opticalCentre.x ==> r.x == 0.0) && (p.y == opticalCentre.y ==> r.y == 0.0)
  {
    Point(atan((p.x - opticalCentre.x) / focalLength.x), atan((p.y - opticalCentre.y) / focalLength.y))
  }

  /** Each angle depends only on its own axis: points on one column share their x angle. */
  lemma AnglesPerAxis(p: Point, q: Point, focalLength: Point, opticalCentre: Point, atan: real -> real)
    requires focalLength.x != 0.0 && focalLength.y != 0.0
    ensures p.x == q.x ==>
      CartesianToAngular(p, focalLength, opticalCentre, atan).x == CartesianToAngular(q, focalLength, opticalCentre, atan).x
    ensures p.y == q.y ==>
      CartesianToAngular(p, focalLength, opticalCentre, atan).y == CartesianToAngular(q, focalLength, opticalCentre, atan).y
  {
  }

  /** The optical centre lies on the axis: both its angles are atan(0), which is 0. */
  lemma CentreOnAxis(focalLength: Point, opticalCentre: Point, atan: real -> real)
    requires focalLength.x != 0.0 && focalLength.y != 0.0
    requires atan(0.0) == 0.0
    ensures CartesianToAngular(opticalCentre, focalLength, opticalCentre, atan) == Point(0.0, 0.0)
  {
  }

  // ---------------------------------------------------------------------------
  // Math.floor(Math.random() * n): a random index below n

  /** A draw in [0, 1) scaled by a positive n and floored is an index in [0, n); scaled by
      zero it is 0. */
  lemma DrawIndexInRange(d: real, n: nat)
    requires 0.0 <= d < 1.0
    ensures n > 0 ==> 0 <= (d * n as real).Floor < n
    ensures n == 0 ==> (d * n as real).Floor == 0
  {
    var r := n as real;
    if n > 0 {
      assert 0.0 <= d * r;
      assert (d * r).Floor as real <= d * r;
      assert d * r < r by {
        assert r - d * r == (1.0 - d) * r;
        MulPositive(1.0 - d, r);
      }
    } else {
      assert d * r == 0.0;
    }
  }

  lemma MulPositive(a: real, b: real)
    requires a > 0.0 && b > 0.0
    ensures a * b > 0.0
  {
  }
}

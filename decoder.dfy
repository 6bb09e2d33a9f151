/** The version 5 drawing decoder (js/drawingDecoderV5.js): ball contours become a centroid
    and radius per ball, smoothed over time, and each frame's pen position is either seeded,
    accepted into the trajectory or rejected as a pen lift. */
module DrawingDecoding {
  import opened Utils
  import opened Undistort

  datatype Colour = Red | Green | Blue

  /** The order the balls are visited in: red, green, blue. */
  const Colours: seq<Colour> := [Red, Green, Blue]

  function Index(c: Colour): (k: nat)
    ensures k < 3 && Colours[k] == c
  {
    match c
    case Red => 0
    case Green => 1
    case Blue => 2
  }

  /** The outline of each ball in one frame, in image pixels. */
  datatype BallContours = BallContours(red: seq<Point>, green: seq<Point>, blue: seq<Point>)

  function ContourOf(contours: BallContours, c: Colour): seq<Point>
  {
    match c
    case Red => contours.red
    case Green => contours.green
    case Blue => contours.blue
  }

  /** A ball seen by the camera: centre and radius, both as angles from the optical axis. */
  datatype Ball = Ball(centroid: Point, radius: real)

  datatype Balls = Balls(red: Ball, green: Ball, blue: Ball)

  function BallOf(balls: Balls, c: Colour): Ball
  {
    match c
    case Red => balls.red
    case Green => balls.green
    case Blue => balls.blue
  }

  /** The decoder's settings. */
  datatype Options = Options(
    smooth: real,
    zThreshold: real,
    checkZ: bool,
    focalLength: Point,
    opticalCentre: Point,
    k1: real,
    tiltFactor: Point,
    ballRadius: real)

  /** The setting each option takes when the caller leaves it out. */
  const DefaultOptions: Options :=
    Options(0.0, 0.0, false, Point(615.0, 615.0), Point(640.0, 360.0), 0.0, Point(0.0, 0.0), 3.0)

  // ---------------------------------------------------------------------------
  // From contour to ball

  /** A contour the decoder can measure: at least one point, a non-zero focal length on both
      axes, and no point where the distortion factor is zero (each would divide by zero). */
  predicate Projectable(contour: seq<Point>, o: Options)
  {
    |contour| > 0 && o.focalLength.x != 0.0 && o.focalLength.y != 0.0 &&
    forall i :: 0 <= i < |contour| ==> Factor(contour[i], o.opticalCentre, o.k1) != 0.0
  }

  predicate Measurable(contours: BallContours, o: Options)
  {
    forall c: Colour :: Projectable(ContourOf(contours, c), o)
  }

  /** Every contour point, undistorted and then turned into angles from the optical axis. */
  function Projected(contour: seq<Point>, o: Options, m: Maths): (r: seq<Point>)
    requires Projectable(contour, o)
    ensures |r| == |contour|
    ensures forall i :: 0 <= i < |contour| ==>
      r[i] == CartesianToAngular(UndistortPoint(contour[i], o.opticalCentre, o.k1), o.focalLength, o.opticalCentre, m.atan)
  {
    seq(|contour|, i requires 0 <= i < |contour| =>
      CartesianToAngular(UndistortPoint(contour[i], o.opticalCentre, o.k1), o.focalLength, o.opticalCentre, m.atan))
  }

  /** The running sum of distances from the centre, accumulated front to back. */
  function SumDistances(points: seq<Point>, centre: Point, sqrt: real -> real): real
  {
    if points == [] then 0.0
    else SumDistances(points[..|points| - 1], centre, sqrt) + Distance(points[|points| - 1], centre, sqrt)
  }

  /** The ball measured in this frame alone: the mean of the projected contour, and the mean
      distance of the projected contour from it. */
  function RawBall(contour: seq<Point>, o: Options, m: Maths): (r: Ball)
    requires Projectable(contour, o)
    ensures r.centroid == Mean(Projected(contour, o, m))
    ensures r.radius * |contour| as real == SumDistances(Projected(contour, o, m), r.centroid, m.sqrt)
  {
    var points := Projected(contour, o, m);
    var centroid := Mean(points);
    Ball(centroid, SumDistances(points, centroid, m.sqrt) / |points| as real)
  }

  /** The weighted average of this frame's value and the previous frame's. */
  function Blend(now: real, last: real, smooth: real): real
  {
    now * (1.0 - smooth) + last * smooth
  }

  /** Temporal smoothing: a ball seen before is blended with where it was last seen. */
  function Smoothed(raw: Ball, last: Option<Ball>, smooth: real): Ball
  {
    match last
    case None => raw
    case Some(prev) =>
      Ball(Point(Blend(raw.centroid.x, prev.centroid.x, smooth), Blend(raw.centroid.y, prev.centroid.y, smooth)),
           Blend(raw.radius, prev.radius, smooth))
  }

  function Lookup(last: map<Colour, Ball>, c: Colour): Option<Ball>
  {
    if c in last then Some(last[c]) else None
  }

  /** Whether v lies between a and b, in either order. */
  predicate Between(v: real, a: real, b: real)
  {
    (a <= b ==> a <= v <= b) && (b <= a ==> b <= v <= a)
  }

  /** The ball of one colour, given the balls remembered from earlier frames: its raw
      measurement when it was not seen before, and otherwise, for smooth in [0, 1], a centroid
      and radius between the measurement and the remembered ball. */
  function SmoothedBall(contours: BallContours, last: map<Colour, Ball>, c: Colour, o: Options, m: Maths): (r: Ball)
    requires Projectable(ContourOf(contours, c), o)
    ensures var raw := RawBall(ContourOf(contours, c), o, m);
      (c !in last ==> r == raw)
      && (c in last && 0.0 <= o.smooth <= 1.0 ==>
            Between(r.centroid.x, raw.centroid.x, last[c].centroid.x)
            && Between(r.centroid.y, raw.centroid.y, last[c].centroid.y)
            && Between(r.radius, raw.radius, last[c].radius))
  {
    var raw := RawBall(ContourOf(contours, c), o, m);
    if c in last && 0.0 <= o.smooth <= 1.0 then
      BlendBetween(raw.centroid.x, last[c].centroid.x, o.smooth);
      BlendBetween(raw.centroid.y, last[c].centroid.y, o.smooth);
      BlendBetween(raw.radius, last[c].radius, o.smooth);
      Smoothed(raw, Lookup(last, c), o.smooth)
    else
      Smoothed(raw, Lookup(last, c), o.smooth)
  }

  function BallsOf(contours: BallContours, last: map<Colour, Ball>, o: Options, m: Maths): Balls
    requires Measurable(contours, o)
  {
    Balls(SmoothedBall(contours, last, Red, o, m), SmoothedBall(contours, last, Green, o, m),
          SmoothedBall(contours, last, Blue, o, m))
  }

  /** A ball seen for the first time is exactly its measurement. */
  lemma FirstSightingUnsmoothed(contours: BallContours, c: Colour, o: Options, m: Maths)
    requires Projectable(ContourOf(contours, c), o)
    ensures SmoothedBall(contours, map[], c, o, m) == RawBall(ContourOf(contours, c), o, m)
  {
  }

  /** With smooth 0 (the default) a frame's ball is its own measurement, whatever came before. */
  lemma NoSmoothingKeepsRaw(raw: Ball, last: Option<Ball>)
    ensures Smoothed(raw, last, 0.0) == raw
  {
  }

  /** With smooth 1 a ball seen before never moves from where it was first seen. */
  lemma FullSmoothingFreezes(raw: Ball, prev: Ball)
    ensures Smoothed(raw, Some(prev), 1.0) == prev
  {
  }

  /** For smooth in [0, 1] the blend lies between this frame's value and the last one. */
  lemma BlendBetween(now: real, last: real, smooth: real)
    requires 0.0 <= smooth <= 1.0
    ensures now <= last ==> now <= Blend(now, last, smooth) <= last
    ensures last <= now ==> last <= Blend(now, last, smooth) <= now
  {
    assert Blend(now, last, smooth) == now + smooth * (last - now);
    if now <= last {
      MulNonNegative(smooth, last - now);
      MulNonNegative(1.0 - smooth, last - now);
      assert smooth * (last - now) <= last - now by {
        assert last - now - smooth * (last - now) == (1.0 - smooth) * (last - now);
      }
    } else {
      MulNonNegative(smooth, now - last);
      MulNonNegative(1.0 - smooth, now - last);
      assert smooth * (now - last) <= now - last by {
        assert now - last - smooth * (now - last) == (1.0 - smooth) * (now - last);
      }
    }
  }

  lemma {:induction false} SumDistancesNonNegative(points: seq<Point>, centre: Point, sqrt: real -> real)
    requires forall v: real :: v >= 0.0 ==> sqrt(v) >= 0.0
    ensures SumDistances(points, centre, sqrt) >= 0.0
  {
    if points != [] {
      SumDistancesNonNegative(points[..|points| - 1], centre, sqrt);
      assert sqrt(SquaredDistance(points[|points| - 1], centre)) >= 0.0;
    }
  }

  /** A measured radius is a mean of distances, so it is never negative. */
  lemma RadiusNonNegative(contour: seq<Point>, o: Options, m: Maths)
    requires Projectable(contour, o)
    requires forall v: real :: v >= 0.0 ==> m.sqrt(v) >= 0.0
    ensures RawBall(contour, o, m).radius >= 0.0
  {
    var points := Projected(contour, o, m);
    SumDistancesNonNegative(points, Mean(points), m.sqrt);
  }

  // ---------------------------------------------------------------------------
  // The accept / reject state machine over decoded positions

  /** The part of the decoder a frame's position updates. */
  datatype Trace = Trace(collector: seq<Point3>, rejected: seq<Point3>, lastPosition: Option<Point3>)

  /** The pen moved: there is a last position and x or y differs from it. */
  predicate Moved(t: Trace, p: Point3)
  {
    t.lastPosition.Some? && (p.x != t.lastPosition.value.x || p.y != t.lastPosition.value.y)
  }

  /** The height changed too fast for the distance moved in the plane: |dz / d| > 0.4. A zero
      d makes the quotient infinite when dz is not zero and undefined (never above 0.4) when
      it is. */
  predicate Steep(p: Point3, last: Point3, sqrt: real -> real)
  {
    var d := Distance(Flat(p), Flat(last), sqrt);
    var dz := p.z - last.z;
    if d == 0.0 then dz != 0.0 else Abs(dz / d) > 0.4
  }

  predicate Rejects(t: Trace, p: Point3, o: Options, sqrt: real -> real)
  {
    Moved(t, p) && o.checkZ && (p.z > o.zThreshold || Steep(p, t.lastPosition.value, sqrt))
  }

  /** A stored position: x and y rounded to whole canvas pixels, z kept. */
  function Rounded(p: Point3): (r: Point3)
    ensures Abs(r.x - p.x) <= 0.5 && Abs(r.y - p.y) <= 0.5 && r.z == p.z
  {
    Point3(Round(p.x) as real, Round(p.y) as real, p.z)
  }

  /** One frame's effect on the trace: reject (and forget the last position), accept, or
      only seed the last position. */
  function Step(t: Trace, p: Point3, o: Options, sqrt: real -> real): (r: Trace)
    ensures t.collector <= r.collector && t.rejected <= r.rejected
    ensures r.lastPosition == (if Rejects(t, p, o, sqrt) then None else Some(p))
  {
    if Rejects(t, p, o, sqrt) then Trace(t.collector, t.rejected + [Rounded(p)], None)
    else if Moved(t, p) then Trace(t.collector + [Rounded(p)], t.rejected, Some(p))
    else Trace(t.collector, t.rejected, Some(p))
  }

  /** Without a last position, or without movement in x and y, a frame stores nothing and
      only becomes the new last position. */
  lemma StillFrameOnlySeeds(t: Trace, p: Point3, o: Options, sqrt: real -> real)
    requires t.lastPosition.None? || (p.x == t.lastPosition.value.x && p.y == t.lastPosition.value.y)
    ensures Step(t, p, o, sqrt) == Trace(t.collector, t.rejected, Some(p))
  {
  }

  /** A move is rejected exactly when z is checked and either rises above the threshold or
      changes steeply; a rejected frame also clears the last position. */
  lemma MoveRejectedIff(t: Trace, p: Point3, o: Options, sqrt: real -> real)
    requires Moved(t, p)
    ensures Step(t, p, o, sqrt).rejected == t.rejected + [Rounded(p)] <==>
      o.checkZ && (p.z > o.zThreshold || Steep(p, t.lastPosition.value, sqrt))
    ensures Step(t, p, o, sqrt).collector == t.collector + [Rounded(p)] <==>
      !(o.checkZ && (p.z > o.zThreshold || Steep(p, t.lastPosition.value, sqrt)))
    ensures Step(t, p, o, sqrt).lastPosition.None? <==>
      o.checkZ && (p.z > o.zThreshold || Steep(p, t.lastPosition.value, sqrt))
  {
    assert |t.rejected + [Rounded(p)]| != |t.rejected|;
    assert |t.collector + [Rounded(p)]| != |t.collector|;
  }

  /** With checkZ off every move is accepted. */
  lemma UncheckedMovesAccepted(t: Trace, p: Point3, o: Options, sqrt: real -> real)
    requires !o.checkZ && Moved(t, p)
    ensures Step(t, p, o, sqrt) == Trace(t.collector + [Rounded(p)], t.rejected, Some(p))
  {
  }

  /** Both lists only grow, at the end, and by at most one position between them. */
  lemma StepAppendsAtMostOne(t: Trace, p: Point3, o: Options, sqrt: real -> real)
    ensures var u := Step(t, p, o, sqrt);
      t.collector <= u.collector && t.rejected <= u.rejected &&
      |u.collector| + |u.rejected| <= |t.collector| + |t.rejected| + 1
    ensures var u := Step(t, p, o, sqrt);
      |u.collector| + |u.rejected| == |t.collector| + |t.rejected| + 1 <==> Moved(t, p)
  {
  }

  /** After a rejection the next frame can only reseed: nothing is stored until the pen is
      seen at a second position. */
  lemma RejectionThenReseed(t: Trace, p: Point3, q: Point3, o: Options, sqrt: real -> real)
    requires Rejects(t, p, o, sqrt)
    ensures Step(Step(t, p, o, sqrt), q, o, sqrt) == Trace(t.collector, t.rejected + [Rounded(p)], Some(q))
  {
  }

  /** The trace after a run of frames. */
  function Run(t: Trace, ps: seq<Point3>, o: Options, sqrt: real -> real): (r: Trace)
    ensures t.collector <= r.collector && t.rejected <= r.rejected
  {
    if ps == [] then t else Step(Run(t, ps[..|ps| - 1], o, sqrt), ps[|ps| - 1], o, sqrt)
  }

  /** Over any run the stored lists only grow at the end, by at most one position per frame,
      and the last position is always the last frame's unless that frame was rejected. */
  lemma {:induction false} RunAppendOnly(t: Trace, ps: seq<Point3>, o: Options, sqrt: real -> real)
    ensures var u := Run(t, ps, o, sqrt);
      t.collector <= u.collector && t.rejected <= u.rejected &&
      |u.collector| + |u.rejected| <= |t.collector| + |t.rejected| + |ps|
    ensures ps != [] ==>
      var u := Run(t, ps, o, sqrt);
      u.lastPosition == Some(ps[|ps| - 1]) || (u.lastPosition.None? && u.rejected[|u.rejected| - 1] == Rounded(ps[|ps| - 1]))
  {
    if ps != [] {
      var init := ps[..|ps| - 1];
      RunAppendOnly(t, init, o, sqrt);
      StepAppendsAtMostOne(Run(t, init, o, sqrt), ps[|ps| - 1], o, sqrt);
    }
  }

  /** With checkZ off nothing is ever rejected. */
  lemma {:induction false} UncheckedRunRejectsNothing(t: Trace, ps: seq<Point3>, o: Options, sqrt: real -> real)
    requires !o.checkZ
    ensures Run(t, ps, o, sqrt).rejected == t.rejected
  {
    if ps != [] {
      UncheckedRunRejectsNothing(t, ps[..|ps| - 1], o, sqrt);
    }
  }

  // ---------------------------------------------------------------------------
  // Trilateration and the trajectory text

  /** The position where sides B and C of a triangle meet, with side A on the x axis running
      from the origin (where A meets C) to (-A, 0). A zero A divides by zero, so it is
      excluded. */
  function Trilaterate(a: real, b: real, c: real, sqrt: real -> real): (r: Point)
    requires a != 0.0
    ensures (r.x + a) * (r.x + a) - r.x * r.x == b * b - c * c
  {
    var x := AlongBase(a, b, c);
    assert (x + a) * (x + a) - x * x == 2.0 * a * x + a * a;
    Point(x, sqrt(c * c - x * x))
  }

  /** The coordinate along side A, from the difference of the two Pythagorean equations. */
  function AlongBase(a: real, b: real, c: real): (x: real)
    requires a != 0.0
    ensures 2.0 * a * x == b * b - a * a - c * c
  {
    (b * b - a * a - c * c) / (2.0 * a)
  }

  /** With an exact square root the result is at distance c from the origin and at distance b
      from (-a, 0), on the non-negative side of the axis. */
  lemma TrilaterateMeetsBothSides(a: real, b: real, c: real, sqrt: real -> real)
    requires a != 0.0
    requires var x := AlongBase(a, b, c);
      sqrt(c * c - x * x) >= 0.0 && sqrt(c * c - x * x) * sqrt(c * c - x * x) == c * c - x * x
    ensures var r := Trilaterate(a, b, c, sqrt);
      r.y >= 0.0 && r.x * r.x + r.y * r.y == c * c
    ensures var r := Trilaterate(a, b, c, sqrt);
      (r.x + a) * (r.x + a) + r.y * r.y == b * b
  {
    var x := AlongBase(a, b, c);
    var y := sqrt(c * c - x * x);
    assert 2.0 * a * x == b * b - a * a - c * c;
    assert (x + a) * (x + a) + y * y == x * x + 2.0 * a * x + a * a + y * y;
  }

  /** A camera at (px, py) on the non-negative side is recovered from its distances b and c. */
  lemma TrilaterateRecoversPosition(a: real, b: real, c: real, px: real, py: real, sqrt: real -> real)
    requires a != 0.0 && py >= 0.0
    requires b * b == (px + a) * (px + a) + py * py && c * c == px * px + py * py
    requires sqrt(py * py) == py
    ensures Trilaterate(a, b, c, sqrt) == Point(px, py)
  {
    assert b * b - a * a - c * c == 2.0 * a * px;
    assert AlongBase(a, b, c) == px by {
      assert (2.0 * a * px) / (2.0 * a) == px;
    }
    assert c * c - AlongBase(a, b, c) * AlongBase(a, b, c) == py * py;
  }

  /** The trajectory as text: one "x y" line per stored position; z is not written. */
  function TrajectoryText(collector: seq<Point3>, show: real -> string): string
  {
    PointsArrayToTextLines(Flats(collector), show)
  }

  function Flats(ps: seq<Point3>): (r: seq<Point>)
    ensures |r| == |ps| && forall i :: 0 <= i < |ps| ==> r[i] == Flat(ps[i])
  {
    seq(|ps|, i requires 0 <= i < |ps| => Flat(ps[i]))
  }

  /** Reading the text back line by line gives every stored position's x and y, in order. */
  lemma TrajectoryTextLines(collector: seq<Point3>, show: real -> string)
    requires |collector| > 0
    requires forall i :: 0 <= i < |collector| ==> '\n' !in PointLine(Flat(collector[i]), show)
    ensures |Lines(TrajectoryText(collector, show))| == |collector|
    ensures forall i :: 0 <= i < |collector| ==>
      Lines(TrajectoryText(collector, show))[i] == PointLine(Flat(collector[i]), show)
  {
    var flats := Flats(collector);
    assert forall i :: 0 <= i < |flats| ==> '\n' !in PointLine(flats[i], show);
    TextLinesRoundTrip(flats, show);
  }

  // ---------------------------------------------------------------------------
  // Visiting the balls in turn

  /** How one colour's ball is measured, given its last sighting. */
  function Measurer(contours: BallContours, o: Options, m: Maths): (measure: (Colour, Option<Ball>) -> Ball)
    requires Measurable(contours, o)
    ensures forall c, prev :: measure(c, prev) == Smoothed(RawBall(ContourOf(contours, c), o, m), prev, o.smooth)
  {
    (c: Colour, prev: Option<Ball>) => Smoothed(RawBall(ContourOf(contours, c), o, m), prev, o.smooth)
  }

  /** Every colour measured against its own entry in `last`. */
  function Gathered(measure: (Colour, Option<Ball>) -> Ball, last: map<Colour, Ball>): Balls
  {
    Balls(measure(Red, Lookup(last, Red)), measure(Green, Lookup(last, Green)), measure(Blue, Lookup(last, Blue)))
  }

  lemma GatheredIsBallsOf(contours: BallContours, last: map<Colour, Ball>, o: Options, m: Maths)
    requires Measurable(contours, o)
    ensures Gathered(Measurer(contours, o, m), last) == BallsOf(contours, last, o, m)
  {
  }

  /** The loop over the three colours: each ball is measured, stored in the result and
      remembered for the next frame. */
  method GatherBalls(measure: (Colour, Option<Ball>) -> Ball, last: map<Colour, Ball>)
    returns (balls: Balls, remembered: map<Colour, Ball>)
    ensures balls == Gathered(measure, last)
    ensures forall c: Colour :: c in remembered && remembered[c] == BallOf(balls, c)
  {
    remembered := last;
    var found: map<Colour, Ball> := map[];
    for k := 0 to 3
      invariant forall c: Colour :: Index(c) < k ==> c in found && c in remembered
      invariant forall c: Colour :: Index(c) < k ==> found[c] == measure(c, Lookup(last, c)) == remembered[c]
      invariant forall c: Colour :: k <= Index(c) ==> Lookup(remembered, c) == Lookup(last, c)
    {
      var colour := Colours[k];
      assert Index(colour) == k;
      var ball := measure(colour, Lookup(remembered, colour));
      remembered := remembered[colour := ball];
      found := found[colour := ball];
    }
    balls := Balls(found[Red], found[Green], found[Blue]);
  }

  // ---------------------------------------------------------------------------
  // The decoder object

  class DrawingDecoder {
    const options: Options
    /** The accepted positions, rounded, in frame order. */
    var collector: seq<Point3>
    /** The positions dropped as pen lifts, rounded, in frame order. */
    var rejected: seq<Point3>
    /** The last frame's unrounded position; absent at the start and after a rejection. */
    var lastPosition: Option<Point3>
    /** Each ball as it was reported in the last frame that measured it. */
    var lastBallsDetected: map<Colour, Ball>

    function State(): Trace
      reads this
    {
      Trace(collector, rejected, lastPosition)
    }

    constructor (options: Options)
      ensures this.options == options
      ensures collector == [] && rejected == [] && lastPosition == None && lastBallsDetected == map[]
    {
      this.options := options;
      collector := [];
      rejected := [];
      lastPosition := None;
      lastBallsDetected := map[];
    }

    /** Measures every ball and remembers each for the next frame. */
    method GetBallsFromContours(contours: BallContours, m: Maths) returns (balls: Balls)
      requires Measurable(contours, options)
      modifies this
      ensures balls == BallsOf(contours, old(lastBallsDetected), options, m)
      ensures forall c: Colour :: c in lastBallsDetected && lastBallsDetected[c] == BallOf(balls, c)
      ensures collector == old(collector) && rejected == old(rejected) && lastPosition == old(lastPosition)
    {
      var measure := Measurer(contours, options, m);
      balls, lastBallsDetected := GatherBalls(measure, lastBallsDetected);
      GatheredIsBallsOf(contours, old(lastBallsDetected), options, m);
    }

    /** Decodes one frame: measures the balls, derives the pen position with `pose`, and
        seeds, accepts or rejects it. */
    method Decode(contours: BallContours, m: Maths, pose: Balls -> Point3)
      requires Measurable(contours, options)
      modifies this
      ensures var balls := BallsOf(contours, old(lastBallsDetected), options, m);
        State() == Step(old(State()), pose(balls), options, m.sqrt) &&
        forall c: Colour :: c in lastBallsDetected && lastBallsDetected[c] == BallOf(balls, c)
    {
      var balls := GetBallsFromContours(contours, m);
      var p := pose(balls);
      if lastPosition.Some? && (p.x != lastPosition.value.x || p.y != lastPosition.value.y) {
        if options.checkZ && (p.z > options.zThreshold || Steep(p, lastPosition.value, m.sqrt)) {
          lastPosition := None;
          rejected := rejected + [Rounded(p)];
          return;
        }
        collector := collector + [Rounded(p)];
      }
      lastPosition := Some(p);
    }

    /** The accepted trajectory as text. */
    function ToString(show: real -> string): (r: string)
      reads this
      ensures r == "" <==> collector == []
    {
      TrajectoryText(collector, show)
    }
  }
}

/** detect of BallContourDetector: one scan of the frame, then a seeded and refined contour per
    colour channel. */
module BallContourDetection {
  import opened Utils
  import opened ContourDetection

  /** The seeding radius detect derives from a channel's pixel count: sqrt(count) / 1.8, never
      negative when the square root is not. */
  function SeedRadius(count: nat, m: Maths): (r: real)
    ensures r * 1.8 == m.sqrt(count as real)
    ensures m.sqrt(count as real) >= 0.0 ==> r >= 0.0
  {
    m.sqrt(count as real) / 1.8
  }

  /** The circle #initPoints seeds from the pixels: centred on their mean, with radius sqrt(count) / 1.8. */
  function Seed(pixels: seq<Pixel>, activePoints: nat, m: Maths): (ps: seq<Point>)
    requires |pixels| > 0
    ensures |ps| == activePoints
  {
    CirclePoints(Mean(ToPoints(pixels)), SeedRadius(|pixels|, m), activePoints, m)
  }

  /** A channel's contour from its qualifying pixels: None when there are none (the mean of
      nothing is NaN in the source) or when refinement makes the contour non-finite; otherwise
      exactly activePoints points. */
  function ContourFrom(img: ImageData, c: nat, threshold: int, pixels: seq<Pixel>, activePoints: nat, m: Maths): (r: Option<seq<Point>>)
    requires c < 3
    ensures r.Some? ==> |pixels| > 0 && |r.value| == activePoints
  {
    if |pixels| == 0 then None else RefinedContour(img, c, threshold, Seed(pixels, activePoints, m), m.sqrt)
  }

  /** The contour detect reports for channel c: built from the pixels that beat the threshold. */
  function ChannelContour(img: ImageData, c: nat, threshold: int, activePoints: nat, m: Maths): (r: Option<seq<Point>>)
    requires c < 3 && img.width > 0
    ensures r.Some? ==>
      |r.value| == activePoints && exists n :: 0 <= n < NumPixels(img) && Over(ColourStrength(img.data, 4 * n, c), threshold)
  {
    var pixels := Qualifying(img, threshold, c, NumPixels(img));
    if |pixels| > 0 then
      QualifyingSound(img, threshold, c, NumPixels(img));
      var p := pixels[0];
      assert 0 <= PixelIndex(p, img.width) < NumPixels(img)
        && Over(ColourStrength(img.data, 4 * PixelIndex(p, img.width), c), threshold);
      ContourFrom(img, c, threshold, pixels, activePoints, m)
    else
      ContourFrom(img, c, threshold, pixels, activePoints, m)
  }

  /** One contour per ball; the output keys red, green and blue come from channels 0, 1, 2. */
  datatype Contours = Contours(red: Option<seq<Point>>, green: Option<seq<Point>>, blue: Option<seq<Point>>)

  class BallContourDetector {
    const activePoints: nat
    const colorThresholds: seq<int>

    predicate Valid()
    {
      |colorThresholds| == 3
    }

    constructor (activePoints: nat, colorThresholds: seq<int>)
      requires |colorThresholds| == 3
      ensures Valid()
      ensures this.activePoints == activePoints && this.colorThresholds == colorThresholds
    {
      this.activePoints := activePoints;
      this.colorThresholds := colorThresholds;
    }

    /** The defaults: 15 contour points and a threshold of 40 on every channel. */
    constructor Default()
      ensures Valid()
      ensures activePoints == 15 && colorThresholds == [40, 40, 40]
    {
      activePoints := 15;
      colorThresholds := [40, 40, 40];
    }

    method ContourOf(img: ImageData, c: nat, pixels: seq<Pixel>, m: Maths) returns (contour: Option<seq<Point>>)
      requires Valid() && c < 3
      ensures contour == ContourFrom(img, c, colorThresholds[c], pixels, activePoints, m)
    {
      if |pixels| == 0 {
        return None;
      }
      var centroid := AveragePoint(ToPoints(pixels));
      var radius := SeedRadius(|pixels|, m);
      var seeded := InitPoints(centroid, radius, activePoints, m);
      contour := RefinePoints(seeded, img, c, colorThresholds[c], Iterations, SearchSize, m.sqrt);
      assert seeded == Seed(pixels, activePoints, m);
      assert contour == RefinedContour(img, c, colorThresholds[c], seeded, m.sqrt);
    }

    /** Scans the frame once, then seeds and refines one contour per channel. */
    method Detect(img: ImageData, m: Maths) returns (contours: Contours)
      requires Valid() && img.width > 0
      ensures contours.red == ChannelContour(img, 0, colorThresholds[0], activePoints, m)
      ensures contours.green == ChannelContour(img, 1, colorThresholds[1], activePoints, m)
      ensures contours.blue == ChannelContour(img, 2, colorThresholds[2], activePoints, m)
    {
      var rgbPoints := ScanPixels(img, colorThresholds);
      var red := ContourOf(img, 0, rgbPoints[0], m);
      var green := ContourOf(img, 1, rgbPoints[1], m);
      var blue := ContourOf(img, 2, rgbPoints[2], m);
      contours := Contours(red, green, blue);
    }
  }
}

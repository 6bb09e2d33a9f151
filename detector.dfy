/** The ball contour detector (js/ballContourDetector.js): a per-channel pixel scan, a circle
    seeded on each channel's qualifying pixels, and an iterative refinement of that circle. */
module ContourDetection {
  import opened Utils

  /** An RGBA frame: row-major samples, four per pixel, alpha ignored. Reads outside data are
      JavaScript's undefined, which the model writes as None. */
  datatype ImageData = ImageData(data: seq<int>, width: nat, height: nat)

  /** Integer pixel coordinates. */
  datatype Pixel = Pixel(x: int, y: int)

  function ToPoint(px: Pixel): Point
  {
    Point(px.x as real, px.y as real)
  }

  function ToPoints(pxs: seq<Pixel>): (ps: seq<Point>)
    ensures |ps| == |pxs|
    ensures forall i :: 0 <= i < |pxs| ==> ps[i] == ToPoint(pxs[i])
  {
    seq(|pxs|, i requires 0 <= i < |pxs| => ToPoint(pxs[i]))
  }

  function Sample(data: seq<int>, i: int): Option<int>
  {
    if 0 <= i < |data| then Some(data[i]) else None
  }

  function Max(a: int, b: int): int
  {
    if a < b then b else a
  }

  // ---------------------------------------------------------------------------
  // #getColourStrength

  /** How much channel c dominates the other two colour channels of the pixel starting at idx.
      An undefined sample makes the whole strength NaN (None). */
  function ColourStrength(data: seq<int>, idx: int, c: nat): (r: Option<int>)
    requires c < 3
    ensures r.Some? <==> 0 <= idx && idx + 2 < |data|
  {
    var here := Sample(data, idx + c);
    var other1 := Sample(data, idx + (c + 1) % 3);
    var other2 := Sample(data, idx + (c + 2) % 3);
    if here.Some? && other1.Some? && other2.Some? then
      Some(here.value - Max(other1.value, other2.value))
    else None
  }

  /** For 8-bit samples the strength lies in [-255, 255]. */
  lemma StrengthRange(data: seq<int>, idx: int, c: nat)
    requires c < 3 && 0 <= idx && idx + 2 < |data|
    requires forall k :: idx <= k <= idx + 2 ==> 0 <= data[k] <= 255
    ensures -255 <= ColourStrength(data, idx, c).value <= 255
  {
  }

  /** A pixel whose channel c is strictly above both others is positive for c and negative for
      the other two channels. */
  lemma DominantChannel(data: seq<int>, idx: int, c: nat, d: nat)
    requires c < 3 && d < 3 && c != d && 0 <= idx && idx + 2 < |data|
    requires forall k :: idx <= k <= idx + 2 && k != idx + c ==> data[k] < data[idx + c]
    ensures ColourStrength(data, idx, c).value > 0
    ensures ColourStrength(data, idx, d).value < 0
  {
    var k1, k2 := idx + (c + 1) % 3, idx + (c + 2) % 3;
    assert k1 != idx + c && k2 != idx + c;
    assert data[k1] < data[idx + c] && data[k2] < data[idx + c];
    assert (d + 1) % 3 == c || (d + 2) % 3 == c;
  }

  // ---------------------------------------------------------------------------
  // The pixel scan of detect

  predicate Over(strength: Option<int>, threshold: int)
  {
    strength.Some? && strength.value > threshold
  }

  /** Pixels visited by the scan: the byte index steps by 4 while it is below |data|. */
  function NumPixels(img: ImageData): nat
  {
    (|img.data| + 3) / 4
  }

  /** Pixel number p sits at x = p mod width, y = p div width. */
  function PixelAt(p: nat, width: nat): Pixel
    requires width > 0
  {
    Pixel(p % width, p / width)
  }

  function PixelIndex(px: Pixel, width: nat): int
  {
    px.x + px.y * width
  }

  /** The pixel of scan position p has its column inside the row and scan index p. */
  lemma PixelAtIndex(p: nat, width: nat)
    requires width > 0
    ensures 0 <= PixelAt(p, width).x < width && 0 <= PixelAt(p, width).y
    ensures PixelIndex(PixelAt(p, width), width) == p
  {
  }

  /** The pixels among the first n whose strength for channel c exceeds the threshold, in scan order. */
  function Qualifying(img: ImageData, threshold: int, c: nat, n: nat): (r: seq<Pixel>)
    requires c < 3 && img.width > 0
    ensures |r| <= n
  {
    if n == 0 then []
    else
      Qualifying(img, threshold, c, n - 1)
      + (if Over(ColourStrength(img.data, 4 * (n - 1), c), threshold) then [PixelAt(n - 1, img.width)] else [])
  }

  /** The scan loop of detect: one list per channel. */
  method ScanPixels(img: ImageData, thresholds: seq<int>) returns (rgbPoints: seq<seq<Pixel>>)
    requires img.width > 0 && |thresholds| == 3
    ensures |rgbPoints| == 3
    ensures forall c :: 0 <= c < 3 ==> rgbPoints[c] == Qualifying(img, thresholds[c], c, NumPixels(img))
  {
    rgbPoints := [[], [], []];
    var i, p := 0, 0;
    while i < |img.data|
      invariant i == 4 * p && p <= NumPixels(img)
      invariant |rgbPoints| == 3
      invariant forall c :: 0 <= c < 3 ==> rgbPoints[c] == Qualifying(img, thresholds[c], c, p)
    {
      var y := p / img.width;
      var x := p % img.width;
      assert Pixel(x, y) == PixelAt(p, img.width);
      for channel := 0 to 3
        invariant |rgbPoints| == 3
        invariant forall c :: 0 <= c < channel ==> rgbPoints[c] == Qualifying(img, thresholds[c], c, p + 1)
        invariant forall c :: channel <= c < 3 ==> rgbPoints[c] == Qualifying(img, thresholds[c], c, p)
      {
        var colorStrength := ColourStrength(img.data, i, channel);
        if colorStrength.Some? && colorStrength.value > thresholds[channel] {
          rgbPoints := rgbPoints[channel := rgbPoints[channel] + [Pixel(x, y)]];
        }
      }
      i, p := i + 4, p + 1;
    }
    ScanEnds(p, |img.data|);
  }

  /** The scan stops at the first multiple of 4 that reaches the buffer's length. */
  lemma ScanEnds(p: nat, length: nat)
    requires 4 * p >= length && p <= (length + 3) / 4
    ensures p == (length + 3) / 4
  {
  }

  /** Every collected pixel lies in a column of the image and comes from a scanned pixel
      whose strength exceeds the threshold. */
  lemma {:induction false} QualifyingSound(img: ImageData, threshold: int, c: nat, n: nat)
    requires c < 3 && img.width > 0
    ensures forall k :: 0 <= k < |Qualifying(img, threshold, c, n)| ==>
      var px := Qualifying(img, threshold, c, n)[k];
      0 <= px.x < img.width && 0 <= px.y && 0 <= PixelIndex(px, img.width) < n
      && Over(ColourStrength(img.data, 4 * PixelIndex(px, img.width), c), threshold)
  {
    if n > 0 {
      var w := img.width;
      var p := n - 1;
      QualifyingSound(img, threshold, c, p);
      var prev := Qualifying(img, threshold, c, p);
      var last := if Over(ColourStrength(img.data, 4 * p, c), threshold) then [PixelAt(p, w)] else [];
      var all := Qualifying(img, threshold, c, n);
      assert all == prev + last;
      PixelAtIndex(p, w);
      forall k | 0 <= k < |all|
        ensures 0 <= all[k].x < w && 0 <= all[k].y && 0 <= PixelIndex(all[k], w) < n
          && Over(ColourStrength(img.data, 4 * PixelIndex(all[k], w), c), threshold)
      {
        if k < |prev| {
          assert all[k] == prev[k];
        } else {
          assert all[k] == PixelAt(p, w);
        }
      }
    }
  }

  /** The collected pixels are in strictly increasing row-major order. */
  lemma {:induction false} QualifyingOrdered(img: ImageData, threshold: int, c: nat, n: nat)
    requires c < 3 && img.width > 0
    ensures forall k, l :: 0 <= k < l < |Qualifying(img, threshold, c, n)| ==>
      PixelIndex(Qualifying(img, threshold, c, n)[k], img.width) < PixelIndex(Qualifying(img, threshold, c, n)[l], img.width)
  {
    if n > 0 {
      var w := img.width;
      var p := n - 1;
      QualifyingSound(img, threshold, c, p);
      QualifyingOrdered(img, threshold, c, p);
      var prev := Qualifying(img, threshold, c, p);
      var last := if Over(ColourStrength(img.data, 4 * p, c), threshold) then [PixelAt(p, w)] else [];
      var all := Qualifying(img, threshold, c, n);
      assert all == prev + last;
      PixelAtIndex(p, w);
      forall k, l | 0 <= k < l < |all|
        ensures PixelIndex(all[k], w) < PixelIndex(all[l], w)
      {
        assert all[k] == prev[k];
        if l >= |prev| {
          assert all[l] == PixelAt(p, w);
        } else {
          assert all[l] == prev[l];
        }
      }
    }
  }

  /** Every scanned pixel whose strength exceeds the threshold is collected. */
  lemma {:induction false} QualifyingComplete(img: ImageData, threshold: int, c: nat, n: nat, p: nat)
    requires c < 3 && img.width > 0 && p < n
    requires Over(ColourStrength(img.data, 4 * p, c), threshold)
    ensures PixelAt(p, img.width) in Qualifying(img, threshold, c, n)
  {
    var prefix := Qualifying(img, threshold, c, n - 1);
    var last := if Over(ColourStrength(img.data, 4 * (n - 1), c), threshold) then [PixelAt(n - 1, img.width)] else [];
    assert Qualifying(img, threshold, c, n) == prefix + last;
    if p < n - 1 {
      QualifyingComplete(img, threshold, c, n - 1, p);
    } else {
      assert last == [PixelAt(p, img.width)];
    }
  }

  lemma RowBelowHeight(y: int, h: int, w: int)
    requires w > 0 && y * w < h * w
    ensures y < h
  {
  }

  /** When the buffer holds exactly width * height pixels, every collected pixel is inside the image. */
  lemma CollectedInsideImage(img: ImageData, threshold: int, c: nat)
    requires c < 3 && img.width > 0 && |img.data| == 4 * (img.width * img.height)
    ensures forall px :: px in Qualifying(img, threshold, c, NumPixels(img)) ==>
      0 <= px.x < img.width && 0 <= px.y < img.height
  {
    QualifyingSound(img, threshold, c, NumPixels(img));
    assert NumPixels(img) == img.width * img.height;
    forall px | px in Qualifying(img, threshold, c, NumPixels(img))
      ensures 0 <= px.x < img.width && 0 <= px.y < img.height
    {
      RowBelowHeight(px.y, img.height, img.width);
    }
  }

  // ---------------------------------------------------------------------------
  // The neighbourhood sampled around a contour point by #refinePoints

  /** The bounds check of the neighbourhood loops. Its upper bounds use <=, so column
      x == width and row y == height, one past the image, are admitted. */
  predicate InSearchBounds(x: int, y: int, img: ImageData)
  {
    x >= 0 && y >= 0 && x <= img.width && y <= img.height
  }

  function SampleIndex(px: Pixel, width: nat): int
  {
    4 * (px.x + (px.y * width))
  }

  /** Cells (x, y0) .. (x, y0 + k - 1) that pass the bounds check, in loop order. */
  function ColumnCells(img: ImageData, x: int, y0: int, k: nat): seq<Pixel>
  {
    if k == 0 then []
    else ColumnCells(img, x, y0, k - 1) + (if InSearchBounds(x, y0 + k - 1, img) then [Pixel(x, y0 + k - 1)] else [])
  }

  /** Columns x0 .. x0 + kx - 1 of a kx-by-ky window, each scanned top to bottom. */
  function WindowCells(img: ImageData, x0: int, y0: int, kx: nat, ky: nat): seq<Pixel>
  {
    if kx == 0 then []
    else WindowCells(img, x0, y0, kx - 1, ky) + ColumnCells(img, x0 + kx - 1, y0, ky)
  }

  /** The square of side 2 * searchSize + 1 centred on a rounded contour point. */
  function NeighbourCells(img: ImageData, centre: Pixel, searchSize: nat): seq<Pixel>
  {
    WindowCells(img, centre.x - searchSize, centre.y - searchSize, 2 * searchSize + 1, 2 * searchSize + 1)
  }

  function Strengths(img: ImageData, c: nat, cells: seq<Pixel>): (r: seq<Option<int>>)
    requires c < 3
    ensures |r| == |cells|
    ensures forall i :: 0 <= i < |cells| ==> r[i] == ColourStrength(img.data, SampleIndex(cells[i], img.width), c)
  {
    seq(|cells|, i requires 0 <= i < |cells| => ColourStrength(img.data, SampleIndex(cells[i], img.width), c))
  }

  lemma {:induction false} ColumnCellsBounds(img: ImageData, x: int, y0: int, k: nat)
    ensures |ColumnCells(img, x, y0, k)| <= k
    ensures forall px :: px in ColumnCells(img, x, y0, k) ==>
      px.x == x && y0 <= px.y < y0 + k && InSearchBounds(px.x, px.y, img)
  {
    if k > 0 {
      ColumnCellsBounds(img, x, y0, k - 1);
    }
  }

  lemma {:induction false} WindowCellsCount(img: ImageData, x0: int, y0: int, kx: nat, ky: nat)
    ensures |WindowCells(img, x0, y0, kx, ky)| <= kx * ky
  {
    if kx > 0 {
      WindowCellsCount(img, x0, y0, kx - 1, ky);
      ColumnCellsBounds(img, x0 + kx - 1, y0, ky);
      assert (kx - 1) * ky + ky == kx * ky;
    }
  }

  lemma {:induction false} WindowCellsInside(img: ImageData, x0: int, y0: int, kx: nat, ky: nat)
    ensures forall px :: px in WindowCells(img, x0, y0, kx, ky) ==>
      x0 <= px.x < x0 + kx && y0 <= px.y < y0 + ky && InSearchBounds(px.x, px.y, img)
  {
    if kx > 0 {
      var prev, column := WindowCells(img, x0, y0, kx - 1, ky), ColumnCells(img, x0 + kx - 1, y0, ky);
      WindowCellsInside(img, x0, y0, kx - 1, ky);
      ColumnCellsBounds(img, x0 + kx - 1, y0, ky);
      assert WindowCells(img, x0, y0, kx, ky) == prev + column;
      forall px: Pixel | px in prev + column
        ensures x0 <= px.x < x0 + kx && y0 <= px.y < y0 + ky && InSearchBounds(px.x, px.y, img)
      {
        if px in prev {
          assert x0 <= px.x < x0 + kx - 1;
        } else {
          assert px in column;
        }
      }
    }
  }

  /** A neighbourhood holds at most (2 * searchSize + 1)^2 cells, each within searchSize of the
      centre in both directions and each with 0 <= x <= width and 0 <= y <= height. */
  lemma NeighbourhoodBounds(img: ImageData, centre: Pixel, searchSize: nat)
    ensures |NeighbourCells(img, centre, searchSize)| <= (2 * searchSize + 1) * (2 * searchSize + 1)
    ensures forall px :: px in NeighbourCells(img, centre, searchSize) ==>
      centre.x - searchSize <= px.x <= centre.x + searchSize
      && centre.y - searchSize <= px.y <= centre.y + searchSize
      && 0 <= px.x <= img.width && 0 <= px.y <= img.height
  {
    NeighbourhoodSize(img, centre, searchSize);
    NeighbourhoodInside(img, centre, searchSize);
  }

  lemma NeighbourhoodSize(img: ImageData, centre: Pixel, searchSize: nat)
    ensures |NeighbourCells(img, centre, searchSize)| <= (2 * searchSize + 1) * (2 * searchSize + 1)
  {
    var k := 2 * searchSize + 1;
    WindowCellsCount(img, centre.x - searchSize, centre.y - searchSize, k, k);
  }

  lemma NeighbourhoodInside(img: ImageData, centre: Pixel, searchSize: nat)
    ensures forall px :: px in NeighbourCells(img, centre, searchSize) ==>
      centre.x - searchSize <= px.x <= centre.x + searchSize
      && centre.y - searchSize <= px.y <= centre.y + searchSize
      && 0 <= px.x <= img.width && 0 <= px.y <= img.height
  {
    var k, x0, y0 := 2 * searchSize + 1, centre.x - searchSize, centre.y - searchSize;
    WindowCellsInside(img, x0, y0, k, k);
    assert x0 + k == centre.x + searchSize + 1 && y0 + k == centre.y + searchSize + 1;
  }

  /** A cell on row y == height, which the inclusive check admits, starts at or past the end of
      a buffer of exactly width * height pixels: its strength is undefined. */
  lemma LastRowReadsPastEnd(img: ImageData, px: Pixel, c: nat)
    requires c < 3 && |img.data| == 4 * (img.width * img.height)
    requires InSearchBounds(px.x, px.y, img) && px.y == img.height
    ensures SampleIndex(px, img.width) >= |img.data|
    ensures ColourStrength(img.data, SampleIndex(px, img.width), c) == None
  {
  }

  /** In a one-pixel image, the window of size 0 around (1, 1) keeps the cell (1, 1), whose
      samples start at byte 8 of a 4-byte buffer. */
  lemma InclusiveBoundAdmitsOutsideCell()
    ensures var img := ImageData([10, 20, 30, 255], 1, 1);
      NeighbourCells(img, Pixel(1, 1), 0) == [Pixel(1, 1)]
      && SampleIndex(Pixel(1, 1), 1) == 8
      && Strengths(img, 0, [Pixel(1, 1)]) == [None]
  {
    var img := ImageData([10, 20, 30, 255], 1, 1);
    assert ColumnCells(img, 1, 1, 1) == [Pixel(1, 1)] by {
      assert ColumnCells(img, 1, 1, 0) == [];
    }
    assert WindowCells(img, 1, 1, 0, 1) == [];
  }

  /** The nested sampling loops of #refinePoints for one contour point. */
  method SampleNeighbours(img: ImageData, c: nat, centre: Pixel, searchSize: nat) returns (neighbours: seq<Option<int>>)
    requires c < 3
    ensures neighbours == Strengths(img, c, NeighbourCells(img, centre, searchSize))
  {
    var x0, y0, side := centre.x - searchSize, centre.y - searchSize, 2 * searchSize + 1;
    neighbours := [];
    ghost var cells: seq<Pixel> := [];
    var x := centre.x - searchSize;
    while x <= centre.x + searchSize
      invariant x0 <= x <= centre.x + searchSize + 1
      invariant cells == WindowCells(img, x0, y0, x - x0, side)
      invariant neighbours == Strengths(img, c, cells)
    {
      var y := centre.y - searchSize;
      while y <= centre.y + searchSize
        invariant y0 <= y <= centre.y + searchSize + 1
        invariant cells == WindowCells(img, x0, y0, x - x0, side) + ColumnCells(img, x, y0, y - y0)
        invariant neighbours == Strengths(img, c, cells)
      {
        if x >= 0 && y >= 0 && x <= img.width && y <= img.height {
          var index := 4 * (x + (y * img.width));
          neighbours := neighbours + [ColourStrength(img.data, index, c)];
          cells := cells + [Pixel(x, y)];
        }
        y := y + 1;
      }
      x := x + 1;
    }
  }

  /** How many samples exceed the threshold; undefined samples never do. */
  function CountOver(samples: seq<Option<int>>, threshold: int): (n: nat)
    ensures n <= |samples|
  {
    if samples == [] then 0
    else CountOver(samples[..|samples| - 1], threshold) + (if Over(samples[|samples| - 1], threshold) then 1 else 0)
  }

  /** The proportion of samples over the threshold, minus one half. An empty neighbourhood
      gives 0 / 0, NaN in the source, written None. */
  function NetEffect(samples: seq<Option<int>>, threshold: int): (r: Option<real>)
    ensures r.Some? <==> |samples| > 0
    ensures r.Some? ==> -0.5 <= r.value <= 0.5
  {
    if |samples| == 0 then None
    else
      var proportion := CountOver(samples, threshold) as real / |samples| as real;
      DivideBetween(CountOver(samples, threshold) as real, |samples| as real, 0.0, 1.0);
      Some(proportion - 0.5)
  }

  // ---------------------------------------------------------------------------
  // #refinePoints

  /** Moves p by net along the unit vector from the mean through p. A zero distance divides by
      zero in the source (a non-finite point), written None. */
  function MovePoint(p: Point, mean: Point, net: real, sqrt: real -> real): (r: Option<Point>)
    ensures r.Some? <==> Distance(p, mean, sqrt) != 0.0
    ensures r.Some? ==> var d := Distance(p, mean, sqrt);
      (r.value.x - p.x) * d == net * (p.x - mean.x) && (r.value.y - p.y) * d == net * (p.y - mean.y)
  {
    var distance := Distance(p, mean, sqrt);
    if distance == 0.0 then None
    else
      StepAlongRay(p.x - mean.x, distance, net);
      StepAlongRay(p.y - mean.y, distance, net);
      Some(Point(p.x + net * ((p.x - mean.x) / distance), p.y + net * ((p.y - mean.y) / distance)))
  }

  /** With an exact square root, a move changes the point's distance from the mean by exactly
      net: outwards when net is positive, inwards when it is negative. */
  lemma MoveShiftsDistance(p: Point, mean: Point, net: real, sqrt: real -> real)
    requires Distance(p, mean, sqrt) > 0.0
    requires Distance(p, mean, sqrt) * Distance(p, mean, sqrt) == SquaredDistance(p, mean)
    ensures MovePoint(p, mean, net, sqrt).Some?
    ensures var d := Distance(p, mean, sqrt);
      SquaredDistance(MovePoint(p, mean, net, sqrt).value, mean) == (d + net) * (d + net)
  {
    var d := Distance(p, mean, sqrt);
    MoveArithmetic(p.x - mean.x, p.y - mean.y, d, net);
  }

  /** The arithmetic of a move: a difference vector of length d, moved by net along itself,
      has length |d + net|. */
  lemma MoveArithmetic(dx: real, dy: real, d: real, net: real)
    requires d != 0.0 && d * d == dx * dx + dy * dy
    ensures (dx + net * (dx / d)) * (dx + net * (dx / d)) + (dy + net * (dy / d)) * (dy + net * (dy / d))
      == (d + net) * (d + net)
  {
    var t := 1.0 + net / d;
    StepAlongRay(dx, d, net);
    StepAlongRay(dy, d, net);
    ScaledSquares(dx, dy, t);
    SquareOfProduct(t, d);
    assert t * d == d + net;
  }

  /** Moving a coordinate difference a by net along the unit direction a / d scales it by 1 + net / d. */
  lemma StepAlongRay(a: real, d: real, net: real)
    requires d != 0.0
    ensures a + net * (a / d) == (1.0 + net / d) * a
  {
  }

  lemma SquareOfProduct(t: real, d: real)
    ensures (t * t) * (d * d) == (t * d) * (t * d)
  {
  }

  lemma ScaledSquares(u: real, v: real, t: real)
    ensures (t * u) * (t * u) + (t * v) * (t * v) == (t * t) * (u * u + v * v)
  {
  }

  /** One contour point's move: the rounded position, its neighbourhood's net effect, and
      whether that effect is within the convergence criterion 0.1. */
  datatype Moved = Moved(point: Point, settled: bool)

  /** The move is defined exactly when the rounded point has neighbours and is away from the
      mean; the point settles exactly when between 40% and 60% of its neighbours are over the
      threshold. */
  function RefineStep(img: ImageData, c: nat, threshold: int, p: Point, mean: Point, searchSize: nat, sqrt: real -> real): (r: Option<Moved>)
    requires c < 3
    ensures var samples := Strengths(img, c, NeighbourCells(img, Pixel(Round(p.x), Round(p.y)), searchSize));
      (r.Some? <==> |samples| > 0 && Distance(p, mean, sqrt) != 0.0)
      && (r.Some? ==>
            Some(r.value.point) == MovePoint(p, mean, NetEffect(samples, threshold).value, sqrt)
            && (r.value.settled <==> 4 * |samples| <= 10 * CountOver(samples, threshold) <= 6 * |samples|))
  {
    var centre := Pixel(Round(p.x), Round(p.y));
    var samples := Strengths(img, c, NeighbourCells(img, centre, searchSize));
    var net := NetEffect(samples, threshold);
    if net.None? then None
    else
      var moved := MovePoint(p, mean, net.value, sqrt);
      if moved.None? then None
      else
        SettledShare(CountOver(samples, threshold), |samples|);
        Some(Moved(moved.value, Abs(net.value) <= 0.1))
  }

  /** The convergence test |count / n - 0.5| <= 0.1 says the share over the threshold lies
      between 0.4 and 0.6. */
  lemma SettledShare(count: nat, n: nat)
    requires n > 0
    ensures Abs(count as real / n as real - 0.5) <= 0.1 <==> 4 * n <= 10 * count <= 6 * n
  {
    var q := count as real / n as real;
    var r := n as real;
    assert Abs(q - 0.5) <= 0.1 <==> 0.4 <= q <= 0.6;
    QuotientBounds(count as real, r, 0.4, 0.6);
    assert 0.4 * r <= count as real <==> 4 * n <= 10 * count;
    assert count as real <= 0.6 * r <==> 10 * count <= 6 * n;
  }

  /** A quotient lies between two bounds exactly when the dividend lies between the bounds
      scaled by the positive divisor. */
  lemma QuotientBounds(a: real, r: real, lo: real, hi: real)
    requires r > 0.0
    ensures lo <= a / r <==> lo * r <= a
    ensures a / r <= hi <==> a <= hi * r
  {
    var q := a / r;
    assert q * r == a;
    ScaleBy(lo, q, r);
    ScaleBy(q, hi, r);
  }

  lemma ScaleBy(a: real, b: real, r: real)
    requires r > 0.0
    ensures a <= b <==> a * r <= b * r
  {
    assert b * r - a * r == (b - a) * r;
    if a <= b {
      MulNonNegative(b - a, r);
    } else {
      MulPositive(a - b, r);
    }
  }

  /** The move of #refinePoints as a function of the pass's mean and the point. */
  function RefineMove(img: ImageData, c: nat, threshold: int, searchSize: nat, sqrt: real -> real): (step: (Point, Point) -> Option<Moved>)
    requires c < 3
    ensures forall mean, p :: step(mean, p) == RefineStep(img, c, threshold, p, mean, searchSize, sqrt)
  {
    (mean: Point, p: Point) => RefineStep(img, c, threshold, p, mean, searchSize, sqrt)
  }

  /** One pass over the contour: every point moves against the same mean; the pass has
      converged when every point settled. */
  datatype PassResult = PassResult(points: seq<Point>, converged: bool)

  /** Each point's move in a pass, in contour order. */
  function Steps(step: (Point, Point) -> Option<Moved>, pts: seq<Point>, mean: Point): (r: seq<Option<Moved>>)
    ensures |r| == |pts| && forall i :: 0 <= i < |pts| ==> r[i] == step(mean, pts[i])
  {
    seq(|pts|, i requires 0 <= i < |pts| => step(mean, pts[i]))
  }

  /** Gathers the moves of a pass; one undefined move makes the pass undefined. */
  function Combine(steps: seq<Option<Moved>>): (r: Option<PassResult>)
    ensures r.Some? ==> |r.value.points| == |steps|
  {
    if steps == [] then Some(PassResult([], true))
    else
      match Combine(steps[..|steps| - 1])
      case None => None
      case Some(prev) =>
        match steps[|steps| - 1]
        case None => None
        case Some(m) => Some(PassResult(prev.points + [m.point], prev.converged && m.settled))
  }

  function Pass(step: (Point, Point) -> Option<Moved>, pts: seq<Point>, mean: Point): (r: Option<PassResult>)
    ensures r.Some? ==> |r.value.points| == |pts|
  {
    Combine(Steps(step, pts, mean))
  }

  /** The moves gather exactly when every one is defined. */
  lemma {:induction false} CombineDefined(steps: seq<Option<Moved>>)
    ensures Combine(steps).Some? <==> forall i :: 0 <= i < |steps| ==> steps[i].Some?
  {
    if steps != [] {
      CombineDefined(steps[..|steps| - 1]);
    }
  }

  /** Extending the moves by one: the prefix result grows by that move, or fails with it. */
  lemma CombineSnoc(steps: seq<Option<Moved>>, i: nat, prev: PassResult)
    requires i < |steps| && Combine(steps[..i]) == Some(prev)
    ensures steps[i].None? ==> Combine(steps[..i + 1]).None?
    ensures steps[i].Some? ==>
      Combine(steps[..i + 1]) == Some(PassResult(prev.points + [steps[i].value.point], prev.converged && steps[i].value.settled))
  {
    assert steps[..i + 1][..i] == steps[..i];
  }

  /** The gathered points are the moves' points in order, and the pass converged exactly when
      every move settled. */
  lemma {:induction false} CombinePointwise(steps: seq<Option<Moved>>)
    requires Combine(steps).Some?
    ensures forall i :: 0 <= i < |steps| ==> steps[i].Some? && Combine(steps).value.points[i] == steps[i].value.point
    ensures Combine(steps).value.converged <==> forall i :: 0 <= i < |steps| ==> steps[i].value.settled
  {
    if steps != [] {
      CombinePointwise(steps[..|steps| - 1]);
    }
  }

  /** A pass is defined exactly when every point's move is; each output point is that point's
      own move, and the pass converged exactly when every point settled (for the refinement
      move, |net effect| <= 0.1). */
  lemma PassPointwise(step: (Point, Point) -> Option<Moved>, pts: seq<Point>, mean: Point)
    ensures Pass(step, pts, mean).Some? <==> forall i :: 0 <= i < |pts| ==> step(mean, pts[i]).Some?
    ensures Pass(step, pts, mean).Some? ==>
      (forall i :: 0 <= i < |pts| ==> Pass(step, pts, mean).value.points[i] == step(mean, pts[i]).value.point)
      && (Pass(step, pts, mean).value.converged <==> forall i :: 0 <= i < |pts| ==> step(mean, pts[i]).value.settled)
  {
    var steps := Steps(step, pts, mean);
    CombineDefined(steps);
    if Combine(steps).Some? {
      CombinePointwise(steps);
    }
  }

  /** What the refinement loop ends with: the points, how many passes ran, and whether it
      stopped because a pass converged. */
  datatype Refinement = Refinement(points: seq<Point>, passes: nat, converged: bool)

  /** The while loop of #refinePoints from pass number done: each pass moves every point
      against the mean of the points at the start of the pass, and the loop stops after
      `iterations` passes or after a pass in which every point settled. The mean of no points
      is never used, since a pass over no points moves nothing. */
  function Refine(step: (Point, Point) -> Option<Moved>, pts: seq<Point>, iterations: nat, done: nat): (r: Option<Refinement>)
    ensures r.Some? ==> |r.value.points| == |pts|
    decreases iterations - done
  {
    if done >= iterations then Some(Refinement(pts, done, false))
    else
      var mean := if |pts| > 0 then Mean(pts) else Point(0.0, 0.0);
      match Pass(step, pts, mean)
      case None => None
      case Some(next) =>
        if next.converged then Some(Refinement(next.points, done + 1, true))
        else Refine(step, next.points, iterations, done + 1)
  }

  /** The refinement keeps the number of points, runs at most `iterations` passes, and stops
      before the cap only because a pass converged. */
  lemma {:induction false} RefineFacts(step: (Point, Point) -> Option<Moved>, pts: seq<Point>, iterations: nat, done: nat)
    requires done <= iterations
    ensures var r := Refine(step, pts, iterations, done);
      r.Some? ==>
        |r.value.points| == |pts|
        && done <= r.value.passes <= iterations
        && (!r.value.converged ==> r.value.passes == iterations)
        && (r.value.converged ==> r.value.passes > done)
    decreases iterations - done
  {
    if done < iterations {
      var mean := if |pts| > 0 then Mean(pts) else Point(0.0, 0.0);
      var p := Pass(step, pts, mean);
      var r := Refine(step, pts, iterations, done);
      if p.Some? {
        var next := p.value;
        if next.converged {
          assert r == Some(Refinement(next.points, done + 1, true));
        } else {
          assert r == Refine(step, next.points, iterations, done + 1);
          RefineFacts(step, next.points, iterations, done + 1);
        }
      }
    }
  }

  function RefinedPoints(r: Option<Refinement>): Option<seq<Point>>
  {
    if r.None? then None else Some(r.value.points)
  }

  /** One pass of the loop of #refinePoints, moving the points in place against one mean.
      It stops early, returning ok == false, at the first point whose move is undefined. */
  method RefinePass(refinedPoints: array<Point>, step: (Point, Point) -> Option<Moved>, meanPoint: Point)
    returns (ok: bool, converged: bool)
    modifies refinedPoints
    ensures var p := Pass(step, old(refinedPoints[..]), meanPoint);
      ok == p.Some? && (ok ==> refinedPoints[..] == p.value.points && converged == p.value.converged)
  {
    ghost var current := refinedPoints[..];
    ghost var steps := Steps(step, current, meanPoint);
    converged := true;
    for i := 0 to refinedPoints.Length
      invariant refinedPoints[i..] == current[i..]
      invariant Combine(steps[..i]) == Some(PassResult(refinedPoints[..i], converged))
    {
      assert refinedPoints[i] == current[i];
      var moved := step(meanPoint, refinedPoints[i]);
      ghost var before := refinedPoints[..i];
      CombineSnoc(steps, i, PassResult(before, converged));
      if moved.None? {
        CombineDefined(steps);
        return false, converged;
      }
      refinedPoints[i] := moved.value.point;
      if !moved.value.settled {
        converged := false;
      }
      assert refinedPoints[..i + 1] == before + [moved.value.point];
    }
    assert steps[..refinedPoints.Length] == steps;
    assert refinedPoints[..refinedPoints.Length] == refinedPoints[..];
    ok := true;
  }

  /** The loop of #refinePoints over a fresh copy of the points, updated in place. */
  method RefinePoints(points: seq<Point>, img: ImageData, c: nat, threshold: int, iterations: nat, searchSize: nat, sqrt: real -> real)
    returns (result: Option<seq<Point>>)
    requires c < 3
    ensures result == RefinedPoints(Refine(RefineMove(img, c, threshold, searchSize, sqrt), points, iterations, 0))
  {
    var step := RefineMove(img, c, threshold, searchSize, sqrt);
    var refinedPoints := new Point[|points|](i requires 0 <= i < |points| => points[i]);
    assert refinedPoints[..] == points;
    var iteration := 0;
    var converged := false;
    while iteration < iterations && !converged
      invariant iteration <= iterations
      invariant Refine(step, points, iterations, 0)
        == if converged then Some(Refinement(refinedPoints[..], iteration, true))
           else Refine(step, refinedPoints[..], iterations, iteration)
      decreases iterations - iteration
    {
      var meanPoint := Point(0.0, 0.0);
      if refinedPoints.Length > 0 {
        meanPoint := AveragePoint(refinedPoints[..]);
      }
      var ok;
      ok, converged := RefinePass(refinedPoints, step, meanPoint);
      if !ok {
        return None;
      }
      iteration := iteration + 1;
    }
    result := Some(refinedPoints[..]);
  }

  // ---------------------------------------------------------------------------
  // #initPoints

  /** JavaScript's Math.PI. */
  const PI: real := 3.141592653589793

  /** The angle of contour point i of n, evenly spaced around the circle. */
  function Angle(i: nat, n: nat): real
    requires n > 0
  {
    PI * 2.0 * i as real / n as real
  }

  function CirclePoint(centre: Point, radius: real, i: nat, n: nat, m: Maths): Point
    requires i < n
  {
    Point(centre.x + m.cos(Angle(i, n)) * radius, centre.y + m.sin(Angle(i, n)) * radius)
  }

  /** With cos^2 + sin^2 == 1 at its angle, a seeded point lies exactly `radius` from the centre. */
  lemma CirclePointOnCircle(centre: Point, radius: real, i: nat, n: nat, m: Maths)
    requires i < n
    requires m.cos(Angle(i, n)) * m.cos(Angle(i, n)) + m.sin(Angle(i, n)) * m.sin(Angle(i, n)) == 1.0
    ensures SquaredDistance(CirclePoint(centre, radius, i, n, m), centre) == radius * radius
  {
    var co, si := m.cos(Angle(i, n)), m.sin(Angle(i, n));
    calc {
      SquaredDistance(CirclePoint(centre, radius, i, n, m), centre);
      (co * radius) * (co * radius) + (si * radius) * (si * radius);
      (co * co + si * si) * (radius * radius);
      radius * radius;
    }
  }

  function CirclePoints(centre: Point, radius: real, n: nat, m: Maths): (ps: seq<Point>)
    ensures |ps| == n
  {
    seq(n, i requires 0 <= i < n => CirclePoint(centre, radius, i, n, m))
  }

  /** Seeds exactly activePoints points, point i at angle 2 * PI * i / activePoints. */
  method InitPoints(centre: Point, radius: real, activePoints: nat, m: Maths) returns (points: seq<Point>)
    ensures |points| == activePoints
    ensures forall i :: 0 <= i < activePoints ==> points[i] == CirclePoint(centre, radius, i, activePoints, m)
    ensures points == CirclePoints(centre, radius, activePoints, m)
  {
    points := [];
    for i := 0 to activePoints
      invariant |points| == i
      invariant forall k :: 0 <= k < i ==> points[k] == CirclePoint(centre, radius, k, activePoints, m)
    {
      points := points + [CirclePoint(centre, radius, i, activePoints, m)];
    }
  }

  /** The refinement settings detect uses: at most 50 passes over a 7-by-7 neighbourhood. */
  const Iterations: nat := 50
  const SearchSize: nat := 3

  /** #refinePoints with its default settings; refinement keeps the number of points. */
  function RefinedContour(img: ImageData, c: nat, threshold: int, points: seq<Point>, sqrt: real -> real): (r: Option<seq<Point>>)
    requires c < 3
    ensures r.Some? ==> |r.value| == |points|
  {
    RefineFacts(RefineMove(img, c, threshold, SearchSize, sqrt), points, Iterations, 0);
    RefinedPoints(Refine(RefineMove(img, c, threshold, SearchSize, sqrt), points, Iterations, 0))
  }
}

/** How circular a set of points is (js/circleFit.js): candidate circles through three random
    points are scored and the best plausible one is kept. The candidate circle through three
    points and its error are given as functions; Math.random is a stream of draws `draws(i)`. */
module CircleFit {
  import opened Utils

  /** Number.MAX_VALUE, (2 - 2^-52) * 2^1023. */
  const MaxValue: real := 179769313486231570814527423731704356798070567525844996598917476803157260780028538760589558632766878171540458953514382464234321326889464182768467546703537516986049910576551282076245490090389328944075868508455133942304583236903222948165808559332123348274797826204144723168738177180919299881250404026184124858368.0

  /** A coordinate a double can hold without being infinite. */
  predicate Finite(p: Point)
  {
    -MaxValue <= p.x <= MaxValue && -MaxValue <= p.y <= MaxValue
  }

  // ---------------------------------------------------------------------------
  // getMaxBound: the larger side of the bounding box

  /** The running extremes, starting from -MAX_VALUE for a maximum and MAX_VALUE for a
      minimum, updated only by a strictly larger or smaller coordinate. */
  function MaxX(ps: seq<Point>): real
  {
    if ps == [] then -MaxValue else
    var m := MaxX(ps[..|ps| - 1]);
    if ps[|ps| - 1].x > m then ps[|ps| - 1].x else m
  }

  function MaxY(ps: seq<Point>): real
  {
    if ps == [] then -MaxValue else
    var m := MaxY(ps[..|ps| - 1]);
    if ps[|ps| - 1].y > m then ps[|ps| - 1].y else m
  }

  function MinX(ps: seq<Point>): real
  {
    if ps == [] then MaxValue else
    var m := MinX(ps[..|ps| - 1]);
    if ps[|ps| - 1].x < m then ps[|ps| - 1].x else m
  }

  function MinY(ps: seq<Point>): real
  {
    if ps == [] then MaxValue else
    var m := MinY(ps[..|ps| - 1]);
    if ps[|ps| - 1].y < m then ps[|ps| - 1].y else m
  }

  /** Math.max of the box's width and height. */
  function MaxBound(ps: seq<Point>): (r: real)
    ensures r >= MaxX(ps) - MinX(ps) && r >= MaxY(ps) - MinY(ps)
    ensures r == MaxX(ps) - MinX(ps) || r == MaxY(ps) - MinY(ps)
  {
    var w := MaxX(ps) - MinX(ps);
    var h := MaxY(ps) - MinY(ps);
    if w >= h then w else h
  }

  method GetMaxBound(points: seq<Point>) returns (bound: real)
    ensures bound == MaxBound(points)
  {
    var maxX, maxY, minX, minY := -MaxValue, -MaxValue, MaxValue, MaxValue;
    for i := 0 to |points|
      invariant maxX == MaxX(points[..i]) && maxY == MaxY(points[..i])
      invariant minX == MinX(points[..i]) && minY == MinY(points[..i])
    {
      assert points[..i + 1][..i] == points[..i];
      var point := points[i];
      if point.x > maxX { maxX := point.x; }
      if point.y > maxY { maxY := point.y; }
      if point.x < minX { minX := point.x; }
      if point.y < minY { minY := point.y; }
    }
    assert points[..|points|] == points;
    bound := if maxX - minX >= maxY - minY then maxX - minX else maxY - minY;
  }

  /** Every finite point lies inside the box. */
  lemma {:induction false} BoxContainsPoints(ps: seq<Point>)
    requires forall i :: 0 <= i < |ps| ==> Finite(ps[i])
    ensures forall i :: 0 <= i < |ps| ==> MinX(ps) <= ps[i].x <= MaxX(ps) && MinY(ps) <= ps[i].y <= MaxY(ps)
  {
    if ps != [] {
      BoxContainsPoints(ps[..|ps| - 1]);
      forall i | 0 <= i < |ps|
        ensures MinX(ps) <= ps[i].x <= MaxX(ps) && MinY(ps) <= ps[i].y <= MaxY(ps)
      {
        if i < |ps| - 1 {
          assert ps[i] == ps[..|ps| - 1][i];
        }
      }
    }
  }

  /** For a non-empty set of finite points the bound is a real extent: never negative. */
  lemma MaxBoundNonNegative(ps: seq<Point>)
    requires |ps| > 0 && forall i :: 0 <= i < |ps| ==> Finite(ps[i])
    ensures MaxBound(ps) >= 0.0
  {
    BoxContainsPoints(ps);
    assert MinX(ps) <= ps[0].x <= MaxX(ps);
  }

  // ---------------------------------------------------------------------------
  // choose3Points: three distinct random indices

  datatype Triple = Triple(p1: Point, p2: Point, p3: Point)

  /** Math.floor(Math.random() * n) for the draw d. */
  function DrawIndex(d: real, n: nat): int
  {
    (d * n as real).Floor
  }

  /** A drawn index lies in [0, n) when there is anything to index. */
  lemma IndexInRange(d: real, n: nat)
    requires 0.0 <= d < 1.0
    ensures n > 0 ==> 0 <= DrawIndex(d, n) < n
  {
    DrawIndexInRange(d, n);
  }

  /** Three pairwise different indices. */
  predicate Distinct(i1: int, i2: int, i3: int)
  {
    i1 != i2 && i2 != i3 && i3 != i1
  }

  /** The retry loop of choose3Points from draw k with `left` retries to go: each retry draws
      a second and a third index, and the first retry giving three different indices ends
      it. The result is those two indices and the index of the next unused draw. */
  function Pick(n: nat, draws: nat -> real, idx1: int, k: nat, left: nat): (r: Option<(int, int, nat)>)
    requires forall i: nat :: 0.0 <= draws(i) < 1.0
    ensures r.Some? ==>
      0 <= r.value.0 < n && 0 <= r.value.1 < n && Distinct(idx1, r.value.0, r.value.1)
      && k + 2 <= r.value.2 <= k + 2 * left
    decreases left
  {
    if left == 0 then None
    else
      var i2 := DrawIndex(draws(k), n);
      var i3 := DrawIndex(draws(k + 1), n);
      IndexInRange(draws(k), n);
      IndexInRange(draws(k + 1), n);
      if Distinct(idx1, i2, i3) then Some((i2, i3, k + 2))
      else Pick(n, draws, idx1, k + 2, left - 1)
  }

  /** A triple of points at three different indices of `points`. */
  predicate FromDistinct(points: seq<Point>, t: Triple)
  {
    exists a, b, c | 0 <= a < |points| && 0 <= b < |points| && 0 <= c < |points| && Distinct(a, b, c) ::
      t == Triple(points[a], points[b], points[c])
  }

  /** The witness for FromDistinct. */
  lemma FromDistinctAt(points: seq<Point>, a: int, b: int, c: int)
    requires 0 <= a < |points| && 0 <= b < |points| && 0 <= c < |points| && Distinct(a, b, c)
    ensures FromDistinct(points, Triple(points[a], points[b], points[c]))
  {
  }

  /** The two indices Pick returns come from the last two draws it used. */
  lemma {:induction false} PickDraws(n: nat, draws: nat -> real, idx1: int, k: nat, left: nat)
    requires forall i: nat :: 0.0 <= draws(i) < 1.0
    ensures var r := Pick(n, draws, idx1, k, left);
      r.Some? ==> r.value.0 == DrawIndex(draws(r.value.2 - 2), n) && r.value.1 == DrawIndex(draws(r.value.2 - 1), n)
    decreases left
  {
    if left > 0 {
      var i2, i3 := DrawIndex(draws(k), n), DrawIndex(draws(k + 1), n);
      if Distinct(idx1, i2, i3) {
        var after: nat := k + 2;
        assert Pick(n, draws, idx1, k, left) == Some((i2, i3, after));
      } else {
        assert Pick(n, draws, idx1, k, left) == Pick(n, draws, idx1, k + 2, left - 1);
        PickDraws(n, draws, idx1, k + 2, left - 1);
      }
    }
  }

  /** What a successful Pick after the first index says about the three indices. */
  lemma PickChooses(points: seq<Point>, draws: nat -> real, next: nat, budget: nat, idx2: int, idx3: int, after: nat)
    requires forall i: nat :: 0.0 <= draws(i) < 1.0
    requires Pick(|points|, draws, DrawIndex(draws(next), |points|), next + 1, budget) == Some((idx2, idx3, after))
    ensures var n := |points|; var idx1 := DrawIndex(draws(next), n);
      n >= 3 && 0 <= idx1 < n && 0 <= idx2 < n && 0 <= idx3 < n && Distinct(idx1, idx2, idx3) &&
      next + 3 <= after <= next + 1 + 2 * budget &&
      idx2 == DrawIndex(draws(after - 2), n) && idx3 == DrawIndex(draws(after - 1), n)
  {
    IndexInRange(draws(next), |points|);
    PickDraws(|points|, draws, DrawIndex(draws(next), |points|), next + 1, budget);
  }

  /** Draws a first index, then pairs of second and third indices until all three differ.
      The loop never ends when fewer than three points are given, so at most `budget` pairs
      are drawn and running out yields None. */
  method Choose3Points(points: seq<Point>, draws: nat -> real, next: nat, budget: nat)
    returns (chosen: Option<Triple>, idx1: int, idx2: int, idx3: int, after: nat, ghost pairs: nat)
    requires forall i: nat :: 0.0 <= draws(i) < 1.0
    ensures chosen.Some? ==>
      0 <= idx1 < |points| && 0 <= idx2 < |points| && 0 <= idx3 < |points| &&
      idx1 != idx2 && idx2 != idx3 && idx3 != idx1 &&
      chosen.value == Triple(points[idx1], points[idx2], points[idx3])
    ensures chosen.Some? ==> |points| >= 3
    ensures pairs <= budget && after == next + 1 + 2 * pairs
    ensures idx1 == DrawIndex(draws(next), |points|)
    ensures chosen.Some? ==>
      after >= next + 3 && idx2 == DrawIndex(draws(after - 2), |points|) && idx3 == DrawIndex(draws(after - 1), |points|)
    ensures chosen.None? <==> Pick(|points|, draws, idx1, next + 1, budget).None?
    ensures chosen.Some? ==> Pick(|points|, draws, idx1, next + 1, budget) == Some((idx2, idx3, after))
  {
    var n := |points|;
    idx1 := DrawIndex(draws(next), n);
    idx2, idx3 := idx1, idx1;
    after := next + 1;
    var tries := 0;
    ghost var goal := Pick(n, draws, idx1, next + 1, budget);
    while !Distinct(idx1, idx2, idx3)
      invariant 0 <= tries <= budget && after == next + 1 + 2 * tries
      invariant !Distinct(idx1, idx2, idx3) ==> goal == Pick(n, draws, idx1, after, budget - tries)
      invariant Distinct(idx1, idx2, idx3) ==> goal == Some((idx2, idx3, after))
      decreases budget - tries
    {
      if tries == budget {
        pairs := tries;
        chosen := None;
        return;
      }
      var i2, i3 := DrawIndex(draws(after), n), DrawIndex(draws(after + 1), n);
      assert Pick(n, draws, idx1, after, budget - tries) ==
        if Distinct(idx1, i2, i3) then Some((i2, i3, after + 2)) else Pick(n, draws, idx1, after + 2, budget - tries - 1);
      idx2, idx3 := i2, i3;
      after := after + 2;
      tries := tries + 1;
    }
    pairs := tries;
    assert goal == Some((idx2, idx3, after));
    PickChooses(points, draws, next, budget, idx2, idx3, after);
    chosen := Some(Triple(points[idx1], points[idx2], points[idx3]));
  }

  // ---------------------------------------------------------------------------
  // checkCircle: keep the best plausible candidate

  datatype Circle = Circle(centre: Point, radius: real)

  /** The best candidate: its circle and copies of the three points it was built from. */
  datatype Best = Best(centre: Point, radius: real, points: seq<Point>)

  /** The result: the best error (MAX_VALUE when no candidate was plausible) and the best
      candidate, if any. */
  datatype Fit = Fit(error: real, best: Option<Best>)

  /** The candidate circles after `sofar`: `count` more, drawn from draw `next` on, each
      through the three points choose3Points picks, the next choice starting where the
      previous one stopped; None when a choice runs out of its budget. */
  function Candidates(points: seq<Point>, draws: nat -> real, next: nat, budget: nat,
                      circleFrom: (Point, Point, Point) -> Circle, count: nat, sofar: seq<Circle>): (r: Option<seq<Circle>>)
    requires forall i: nat :: 0.0 <= draws(i) < 1.0
    ensures r.Some? ==> |r.value| == |sofar| + count && (count > 0 ==> |points| >= 3)
    decreases count
  {
    if count == 0 then Some(sofar)
    else
      var n := |points|;
      var i1 := DrawIndex(draws(next), n);
      match Pick(n, draws, i1, next + 1, budget)
      case None => None
      case Some((i2, i3, after)) =>
        IndexInRange(draws(next), n);
        Candidates(points, draws, after, budget, circleFrom, count - 1,
                   sofar + [circleFrom(points[i1], points[i2], points[i3])])
  }

  /** One more candidate: the circle through the next three points chosen... */
  lemma CandidatesStep(points: seq<Point>, draws: nat -> real, next: nat, budget: nat,
                       circleFrom: (Point, Point, Point) -> Circle, count: nat, sofar: seq<Circle>,
                       idx1: int, idx2: int, idx3: int, after: nat)
    requires forall i: nat :: 0.0 <= draws(i) < 1.0
    requires count > 0 && idx1 == DrawIndex(draws(next), |points|)
    requires Pick(|points|, draws, idx1, next + 1, budget) == Some((idx2, idx3, after))
    requires 0 <= idx1 < |points|
    ensures Candidates(points, draws, next, budget, circleFrom, count, sofar) ==
      Candidates(points, draws, after, budget, circleFrom, count - 1,
                 sofar + [circleFrom(points[idx1], points[idx2], points[idx3])])
  {
  }

  /** ... or nothing when that choice runs out of its budget. */
  lemma CandidatesStop(points: seq<Point>, draws: nat -> real, next: nat, budget: nat,
                       circleFrom: (Point, Point, Point) -> Circle, count: nat, sofar: seq<Circle>)
    requires forall i: nat :: 0.0 <= draws(i) < 1.0
    requires count > 0 && Pick(|points|, draws, DrawIndex(draws(next), |points|), next + 1, budget).None?
    ensures Candidates(points, draws, next, budget, circleFrom, count, sofar).None?
  {
  }

  /** Every circle is the one through three points at different indices. */
  ghost predicate Through(points: seq<Point>, circleFrom: (Point, Point, Point) -> Circle, cs: seq<Circle>)
  {
    forall i :: 0 <= i < |cs| ==> exists t :: FromDistinct(points, t) && cs[i] == circleFrom(t.p1, t.p2, t.p3)
  }

  /** Appending the circle through three points at different indices keeps Through. */
  lemma ThroughSnoc(points: seq<Point>, circleFrom: (Point, Point, Point) -> Circle, cs: seq<Circle>, a: int, b: int, c: int)
    requires 0 <= a < |points| && 0 <= b < |points| && 0 <= c < |points| && Distinct(a, b, c)
    requires Through(points, circleFrom, cs)
    ensures Through(points, circleFrom, cs + [circleFrom(points[a], points[b], points[c])])
  {
    var t := Triple(points[a], points[b], points[c]);
    FromDistinctAt(points, a, b, c);
    var more := cs + [circleFrom(t.p1, t.p2, t.p3)];
    forall i | 0 <= i < |more|
      ensures exists u :: FromDistinct(points, u) && more[i] == circleFrom(u.p1, u.p2, u.p3)
    {
      if i == |cs| {
        assert FromDistinct(points, t) && more[i] == circleFrom(t.p1, t.p2, t.p3);
      } else {
        assert more[i] == cs[i];
      }
    }
  }

  /** Candidates adds only circles through three points at different indices. */
  lemma {:induction false} CandidatesThrough(points: seq<Point>, draws: nat -> real, next: nat, budget: nat,
                                              circleFrom: (Point, Point, Point) -> Circle, count: nat, sofar: seq<Circle>)
    requires forall i: nat :: 0.0 <= draws(i) < 1.0
    requires Through(points, circleFrom, sofar)
    ensures var r := Candidates(points, draws, next, budget, circleFrom, count, sofar);
      r.Some? ==> Through(points, circleFrom, r.value)
    decreases count
  {
    var n := |points|;
    var i1 := DrawIndex(draws(next), n);
    var p := Pick(n, draws, i1, next + 1, budget);
    if count > 0 && p.Some? {
      var (i2, i3, after) := p.value;
      IndexInRange(draws(next), n);
      var more := sofar + [circleFrom(points[i1], points[i2], points[i3])];
      ThroughSnoc(points, circleFrom, sofar, i1, i2, i3);
      CandidatesStep(points, draws, next, budget, circleFrom, count, sofar, i1, i2, i3, after);
      CandidatesThrough(points, draws, after, budget, circleFrom, count - 1, more);
    }
  }

  /** The best error after one more candidate: its error when the candidate is plausible
      and beats the best so far, the best so far otherwise. */
  function Improved(points: seq<Point>, circleError: (seq<Point>, Point, real) -> real, c: Circle, best: real): real
  {
    if c.radius < MaxBound(points) && circleError(points, c.centre, c.radius) < best
    then circleError(points, c.centre, c.radius) else best
  }

  /** A sequence that never goes up from one element to the next never goes up at all. */
  lemma {:induction false} StepwiseDescending(s: seq<real>)
    requires forall a :: 0 <= a < |s| - 1 ==> s[a + 1] <= s[a]
    ensures forall i, j :: 0 <= i <= j < |s| ==> s[j] <= s[i]
  {
    if |s| > 1 {
      var init := s[..|s| - 1];
      StepwiseDescending(init);
      forall i, j | 0 <= i <= j < |s|
        ensures s[j] <= s[i]
      {
        if j < |s| - 1 {
          assert s[j] == init[j] && s[i] == init[i];
        } else if i < j {
          assert s[j - 1] == init[j - 1] && s[i] == init[i];
        }
      }
    }
  }

  /** A best-error history built by Improved never goes up. */
  lemma Descends(points: seq<Point>, circleError: (seq<Point>, Point, real) -> real, tried: seq<Circle>, errors: seq<real>)
    requires |errors| == |tried| + 1
    requires forall a :: 0 <= a < |tried| ==> errors[a + 1] == Improved(points, circleError, tried[a], errors[a])
    ensures forall i, j :: 0 <= i <= j < |errors| ==> errors[j] <= errors[i]
  {
    forall a | 0 <= a < |errors| - 1
      ensures errors[a + 1] <= errors[a]
    {
      assert errors[a + 1] == Improved(points, circleError, tried[a], errors[a]);
    }
    StepwiseDescending(errors);
  }

  /** Tries `iterations` candidates; one is plausible when its radius is below the larger
      side of the bounding box, and the plausible one with the smallest error wins (the first
      of equals). None when a choice of three points runs out of its budget. */
  method CheckCircle(points: seq<Point>, iterations: nat, draws: nat -> real, next: nat, budget: nat,
                     circleFrom: (Point, Point, Point) -> Circle, circleError: (seq<Point>, Point, real) -> real)
    returns (fit: Option<Fit>, ghost tried: seq<Circle>, ghost errors: seq<real>)
    requires forall i: nat :: 0.0 <= draws(i) < 1.0
    ensures fit.None? <==> Candidates(points, draws, next, budget, circleFrom, iterations, []).None?
    ensures fit.Some? ==> Candidates(points, draws, next, budget, circleFrom, iterations, []) == Some(tried)
    ensures fit.Some? ==> |tried| == iterations
    ensures fit.Some? ==> |errors| == iterations + 1 && errors[0] == MaxValue && errors[iterations] == fit.value.error
    ensures fit.Some? ==> forall i :: 0 <= i < iterations ==> errors[i + 1] == Improved(points, circleError, tried[i], errors[i])
    ensures forall i, j :: 0 <= i <= j < |errors| ==> errors[j] <= errors[i]
    ensures fit.Some? ==> fit.value.error <= MaxValue && (fit.value.best.None? <==> fit.value.error == MaxValue)
    ensures fit.Some? ==> forall c :: c in tried && c.radius < MaxBound(points) ==>
      fit.value.error <= circleError(points, c.centre, c.radius)
    ensures fit.Some? && fit.value.best.Some? ==>
      var b := fit.value.best.value;
      Circle(b.centre, b.radius) in tried && b.radius < MaxBound(points) &&
      fit.value.error == circleError(points, b.centre, b.radius) &&
      |b.points| == 3 && circleFrom(b.points[0], b.points[1], b.points[2]) == Circle(b.centre, b.radius) &&
      b.points[0] in points && b.points[1] in points && b.points[2] in points
  {
    var sanityCheck := GetMaxBound(points);
    var bestError := MaxValue;
    var best: Option<Best> := None;
    var k := next;
    tried := [];
    errors := [bestError];
    ghost var rest := Candidates(points, draws, next, budget, circleFrom, iterations, []);
    for i := 0 to iterations
      invariant |tried| == i
      invariant rest == Candidates(points, draws, next, budget, circleFrom, iterations, [])
      invariant rest == Candidates(points, draws, k, budget, circleFrom, iterations - i, tried)
      invariant |errors| == i + 1 && errors[0] == MaxValue && errors[i] == bestError
      invariant forall a :: 0 <= a < i ==> errors[a + 1] == Improved(points, circleError, tried[a], errors[a])
      invariant bestError <= MaxValue && (best.None? <==> bestError == MaxValue)
      invariant forall c :: c in tried && c.radius < sanityCheck ==> bestError <= circleError(points, c.centre, c.radius)
      invariant best.Some? ==>
        Circle(best.value.centre, best.value.radius) in tried && best.value.radius < sanityCheck &&
        bestError == circleError(points, best.value.centre, best.value.radius)
      invariant best.Some? ==>
        |best.value.points| == 3 &&
        circleFrom(best.value.points[0], best.value.points[1], best.value.points[2]) == Circle(best.value.centre, best.value.radius)
      invariant best.Some? ==> best.value.points[0] in points && best.value.points[1] in points && best.value.points[2] in points
    {
      var chosen, i1, i2, i3, after, pairs := Choose3Points(points, draws, k, budget);
      if chosen.None? {
        assert rest.None? by {
          CandidatesStop(points, draws, k, budget, circleFrom, iterations - i, tried);
        }
        Descends(points, circleError, tried, errors);
        fit := None;
        return;
      }
      var t := chosen.value;
      var candidate := circleFrom(t.p1, t.p2, t.p3);
      assert rest == Candidates(points, draws, after, budget, circleFrom, iterations - i - 1, tried + [candidate]) by {
        CandidatesStep(points, draws, k, budget, circleFrom, iterations - i, tried, i1, i2, i3, after);
      }
      k := after;
      tried := tried + [candidate];
      if candidate.radius < sanityCheck {
        var error := circleError(points, candidate.centre, candidate.radius);
        if error < bestError {
          bestError := error;
          best := Some(Best(candidate.centre, candidate.radius, [t.p1, t.p2, t.p3]));
        }
      }
      errors := errors + [bestError];
    }
    Descends(points, circleError, tried, errors);
    fit := Some(Fit(bestError, best));
  }
}

/** The arc-length-weighted circle scorer of `evaluate`.

    Every vertex after the first is weighted by the length of the segment
    that ends at it.  The center is the weighted mean of those vertices, the
    radius the weighted mean of their distances to the center, and the
    radius accuracy the weighted mean of a per-vertex accuracy.  A second
    accuracy compares how far the first and the last vertex lie from the
    center, and the two are blended 80/20.

    The functions below are the specification; the method `Evaluate` runs the
    three accumulation loops of `evaluate` and is proved to compute them. */
module Scoring {
  import opened Points
  import opened Tiers
  import opened RealArith

  /** Relative radius deviation at which a vertex scores zero. */
  const RadiusTolerance: real := 0.15
  /** Relative start/end distance gap at which the closure score is zero. */
  const StartEndTolerance: real := 0.1
  const RadiusWeight: real := 0.8
  const StartEndWeight: real := 0.2

  datatype Option<T> = None | Some(value: T)

  function Max(a: real, b: real): (r: real)
    ensures a <= r && b <= r && (r == a || r == b)
  {
    if a < b then b else a
  }

  // ---------------------------------------------------------------------
  // Arc-length weighting

  /** The length of the segment of the stroke that ends at vertex `i`. */
  function SegmentLength(h: Hypot, s: seq<Point>, i: nat): (r: real)
    requires 1 <= i < |s|
    ensures 0.0 <= r
    ensures r == 0.0 <==> s[i] == s[i - 1]
  {
    Dist(h, s[i], s[i - 1])
  }

  /** The length of the polyline through `s[0], ..., s[k - 1]`. */
  function ArcLength(h: Hypot, s: seq<Point>, k: nat): (r: real)
    requires k <= |s|
    ensures 0.0 <= r
  {
    if k <= 1 then 0.0 else ArcLength(h, s, k - 1) + SegmentLength(h, s, k - 1)
  }

  /** The sum of `f(s[i]) * SegmentLength(h, s, i)` over `1 <= i < k`. */
  function WeightedSum(h: Hypot, s: seq<Point>, f: Point -> real, k: nat): real
    requires k <= |s|
  {
    if k <= 1 then 0.0 else WeightedSum(h, s, f, k - 1) + f(s[k - 1]) * SegmentLength(h, s, k - 1)
  }

  /** The arc-length-weighted mean of `f` over `s[1..]`; undefined (`evaluate`
      divides by zero) when the stroke has no length. */
  function WeightedMean(h: Hypot, s: seq<Point>, f: Point -> real): real
    requires 0.0 < ArcLength(h, s, |s|)
  {
    WeightedSum(h, s, f, |s|) / ArcLength(h, s, |s|)
  }

  function CoordX(p: Point): real { p.x }

  function CoordY(p: Point): real { p.y }

  /** The distance of a vertex to the point `c`. */
  function DistanceTo(h: Hypot, c: Point): Point -> real {
    p => Dist(h, p, c)
  }

  /** The accuracy of a vertex against the circle of center `c` and radius `radius`. */
  function AccuracyAt(h: Hypot, c: Point, radius: real): Point -> real
    requires 0.0 < radius
  {
    p => PointAccuracy(Dist(h, p, c), radius)
  }

  // ---------------------------------------------------------------------
  // The fitted circle and the accuracies

  /** The weighted center; `CenterInBox` shows that it lies in the bounding
      box of the weighted vertices. */
  function Center(h: Hypot, s: seq<Point>): (c: Point)
    requires 0.0 < ArcLength(h, s, |s|)
  {
    Point(WeightedMean(h, s, CoordX), WeightedMean(h, s, CoordY))
  }

  /** The weighted mean distance to the center; distances are never
      negative, so neither is the radius. */
  function Radius(h: Hypot, s: seq<Point>): (r: real)
    requires 0.0 < ArcLength(h, s, |s|)
    ensures 0.0 <= r
  {
    var f := DistanceTo(h, Center(h, s));
    WeightedSumAtLeast(h, s, f, |s|, 0.0);
    DivBounds(0.0, 0.0, WeightedSum(h, s, f, |s|), ArcLength(h, s, |s|));
    WeightedMean(h, s, f)
  }

  /** A stroke `evaluate` can score without dividing by zero: it has
      positive length and a positive fitted radius. */
  ghost predicate Scorable(h: Hypot, s: seq<Point>) {
    0.0 < ArcLength(h, s, |s|) && 0.0 < Radius(h, s)
  }

  /** The accuracy of one vertex at distance `distToCenter` from the center:
      full marks on the circle, falling linearly to zero at a relative
      deviation of `RadiusTolerance`. */
  function PointAccuracy(distToCenter: real, radius: real): (a: real)
    requires 0.0 < radius
    ensures 0.0 <= a <= 1.0
    ensures a == 1.0 <==> distToCenter == radius
    ensures a == 0.0 <==> RadiusTolerance <= Abs(distToCenter / radius - 1.0)
  {
    Max(1.0 - Abs(distToCenter / radius - 1.0) / RadiusTolerance, 0.0)
  }

  /** The weighted mean of the vertex accuracies; each lies in `[0, 1]`,
      so the mean does too. */
  function RadiusAccuracy(h: Hypot, s: seq<Point>): (a: real)
    requires Scorable(h, s)
    ensures 0.0 <= a <= 1.0
  {
    var f := AccuracyAt(h, Center(h, s), Radius(h, s));
    WeightedMeanBounds(h, s, f, 0.0, 1.0);
    WeightedMean(h, s, f)
  }

  /** The closure score: one when the first and last vertex are equally far
      from the center `c`, falling quadratically to zero at a gap of
      `StartEndTolerance` radii. */
  function StartEndAccuracy(h: Hypot, s: seq<Point>, c: Point, radius: real): (a: real)
    requires 0 < |s| && 0.0 < radius
    ensures 0.0 <= a <= 1.0
    ensures a == 1.0 <==> Dist(h, s[|s| - 1], c) == Dist(h, s[0], c)
    ensures a == 0.0 <==> StartEndTolerance <= Abs((Dist(h, s[|s| - 1], c) - Dist(h, s[0], c)) / radius)
  {
    var startEndDiff := Dist(h, s[|s| - 1], c) - Dist(h, s[0], c);
    var q := Abs(startEndDiff / radius) / StartEndTolerance;
    SquareFacts(q);
    Max(1.0 - q * q, 0.0)
  }

  /** The blended accuracy. */
  function Combine(radiusAccuracy: real, startEndAccuracy: real): (a: real)
    requires 0.0 <= radiusAccuracy <= 1.0 && 0.0 <= startEndAccuracy <= 1.0
    ensures 0.0 <= a <= 1.0
    ensures a == 1.0 <==> radiusAccuracy == 1.0 && startEndAccuracy == 1.0
    ensures radiusAccuracy <= a <= startEndAccuracy || startEndAccuracy <= a <= radiusAccuracy
  {
    radiusAccuracy * RadiusWeight + startEndAccuracy * StartEndWeight
  }

  /** What `evaluate` computes for a stroke. */
  datatype Evaluation = Evaluation(
    center: Point,
    radius: real,
    radiusAccuracy: real,
    startEndAccuracy: real,
    accuracy: real,
    tier: Tier)

  /** The evaluation of a stroke: every accuracy lies in `[0, 1]`, the
      radius is positive, and the tier is the ladder's tier for the accuracy. */
  function Score(h: Hypot, s: seq<Point>): (e: Evaluation)
    requires Scorable(h, s)
    ensures ScoreInRange(e)
  {
    var c := Center(h, s);
    var r := Radius(h, s);
    var ra := RadiusAccuracy(h, s);
    var sea := StartEndAccuracy(h, s, c, r);
    var acc := Combine(ra, sea);
    Evaluation(c, r, ra, sea, acc, Classify(acc))
  }

  // ---------------------------------------------------------------------
  // The scoring loops

  /** `evaluate`: three weighted passes over the stroke, then the closure
      score, the blend and the choice of tier.  A stroke that cannot be
      scored, because it has no length or its fitted radius is zero, is
      reported as `None` where `evaluate` would divide zero by zero. */
  method Evaluate(h: Hypot, vertices: seq<Point>) returns (result: Option<Evaluation>)
    ensures result.Some? <==> Scorable(h, vertices)
    ensures result.Some? ==> result.value == Score(h, vertices) && ScoreInRange(result.value)
  {
    var moment, totalLength := AccumulateMoment(h, vertices);
    if totalLength == 0.0 {
      return None;
    }
    CenterFromMoment(h, vertices, moment, totalLength);
    var center := Point(moment.x / totalLength, moment.y / totalLength);
    var radius := FitRadius(h, vertices, center, totalLength);
    if radius == 0.0 {
      return None;
    }
    var e := EvaluateFitted(h, vertices, center, radius, totalLength);
    return Some(e);
  }

  /** The rest of `evaluate` once the circle is fitted. */
  method EvaluateFitted(h: Hypot, vertices: seq<Point>, center: Point, radius: real, totalLength: real)
    returns (e: Evaluation)
    requires Scorable(h, vertices)
    requires totalLength == ArcLength(h, vertices, |vertices|)
    requires center == Center(h, vertices) && radius == Radius(h, vertices)
    ensures e == Score(h, vertices)
    ensures ScoreInRange(e)
  {
    var radiusAccuracy := FitRadiusAccuracy(h, vertices, center, radius, totalLength);
    assert radiusAccuracy == RadiusAccuracy(h, vertices);
    var startEndAccuracy := StartEndAccuracy(h, vertices, center, radius);
    var accuracy := Combine(radiusAccuracy, startEndAccuracy);
    e := Evaluation(center, radius, radiusAccuracy, startEndAccuracy, accuracy, Classify(accuracy));
  }

  /** The first pass: the arc length and the weighted sum of the vertices. */
  method AccumulateMoment(h: Hypot, vertices: seq<Point>) returns (moment: Point, totalLength: real)
    ensures totalLength == ArcLength(h, vertices, |vertices|)
    ensures moment == Moment(h, vertices, |vertices|)
  {
    totalLength := 0.0;
    moment := Origin;
    if vertices == [] {
      // the first loop of `evaluate` visits no vertex
      return;
    }
    for i := 1 to |vertices|
      invariant totalLength == ArcLength(h, vertices, i)
      invariant moment == Moment(h, vertices, i)
    {
      var length := Dist(h, vertices[i], vertices[i - 1]);
      totalLength := totalLength + length;
      moment := Add(moment, Multiply(vertices[i], length));
    }
  }

  /** The division that ends the first pass yields the center. */
  lemma CenterFromMoment(h: Hypot, s: seq<Point>, moment: Point, total: real)
    requires 0.0 < ArcLength(h, s, |s|) == total && moment == Moment(h, s, |s|)
    ensures Point(moment.x / total, moment.y / total) == Center(h, s)
  {
    MomentCoordinates(h, s, |s|);
    MeanStep(h, s, CoordX, moment.x, total);
    MeanStep(h, s, CoordY, moment.y, total);
  }

  /** The weighted sum of the vertices `s[1..k]` as a vector. */
  function Moment(h: Hypot, s: seq<Point>, k: nat): Point
    requires k <= |s|
  {
    if k <= 1 then Origin else Add(Moment(h, s, k - 1), Multiply(s[k - 1], SegmentLength(h, s, k - 1)))
  }

  lemma {:induction false} MomentCoordinates(h: Hypot, s: seq<Point>, k: nat)
    requires k <= |s|
    ensures Moment(h, s, k) == Point(WeightedSum(h, s, CoordX, k), WeightedSum(h, s, CoordY, k))
  {
    if 1 < k {
      MomentCoordinates(h, s, k - 1);
    }
  }

  /** The second pass: the weighted mean distance to the center. */
  method FitRadius(h: Hypot, vertices: seq<Point>, center: Point, totalLength: real) returns (radius: real)
    requires 0.0 < ArcLength(h, vertices, |vertices|) == totalLength
    ensures radius == WeightedMean(h, vertices, DistanceTo(h, center))
  {
    radius := 0.0;
    for i := 1 to |vertices|
      invariant radius == WeightedSum(h, vertices, DistanceTo(h, center), i)
    {
      var length := Dist(h, vertices[i], vertices[i - 1]);
      var distToCenter := Dist(h, vertices[i], center);
      AccumulateStep(h, vertices, DistanceTo(h, center), i, radius, distToCenter, length);
      radius := radius + distToCenter * length;
    }
    MeanStep(h, vertices, DistanceTo(h, center), radius, totalLength);
    radius := radius / totalLength;
  }

  /** The third pass: the weighted mean of the per-vertex accuracies. */
  method FitRadiusAccuracy(h: Hypot, vertices: seq<Point>, center: Point, radius: real, totalLength: real)
    returns (radiusAccuracy: real)
    requires 0.0 < ArcLength(h, vertices, |vertices|) == totalLength && 0.0 < radius
    ensures radiusAccuracy == WeightedMean(h, vertices, AccuracyAt(h, center, radius))
  {
    radiusAccuracy := 0.0;
    for i := 1 to |vertices|
      invariant radiusAccuracy == WeightedSum(h, vertices, AccuracyAt(h, center, radius), i)
    {
      var length := Dist(h, vertices[i], vertices[i - 1]);
      var distToCenter := Dist(h, vertices[i], center);
      var radiusAccuracyThis := PointAccuracy(distToCenter, radius);
      AccumulateStep(h, vertices, AccuracyAt(h, center, radius), i, radiusAccuracy, radiusAccuracyThis, length);
      radiusAccuracy := radiusAccuracy + radiusAccuracyThis * length;
    }
    MeanStep(h, vertices, AccuracyAt(h, center, radius), radiusAccuracy, totalLength);
    radiusAccuracy := radiusAccuracy / totalLength;
  }

  /** The division that ends every accumulation loop. */
  lemma MeanStep(h: Hypot, s: seq<Point>, f: Point -> real, sum: real, total: real)
    requires 0.0 < ArcLength(h, s, |s|) == total && sum == WeightedSum(h, s, f, |s|)
    ensures sum / total == WeightedMean(h, s, f)
  {
  }

  /** The step of every accumulation loop: adding the weighted value of
      vertex `i` to the sum over the vertices before it. */
  lemma AccumulateStep(h: Hypot, s: seq<Point>, f: Point -> real, i: nat, sum: real, v: real, l: real)
    requires 1 <= i < |s|
    requires sum == WeightedSum(h, s, f, i) && v == f(s[i]) && l == Dist(h, s[i], s[i - 1])
    ensures sum + v * l == WeightedSum(h, s, f, i + 1)
    ensures ArcLength(h, s, i) + l == ArcLength(h, s, i + 1)
  {
  }

  // ---------------------------------------------------------------------
  // Properties

  /** Every vertex after the first lies in the box with corners `lo` and `hi`. */
  ghost predicate InBox(s: seq<Point>, lo: Point, hi: Point) {
    forall i :: 1 <= i < |s| ==> lo.x <= s[i].x <= hi.x && lo.y <= s[i].y <= hi.y
  }

  /** The bounds an evaluation promises. */
  ghost predicate ScoreInRange(e: Evaluation) {
    0.0 < e.radius
    && 0.0 <= e.radiusAccuracy <= 1.0
    && 0.0 <= e.startEndAccuracy <= 1.0
    && 0.0 <= e.accuracy <= 1.0
    && e.tier == Classify(e.accuracy)
  }

  /** A weighted sum of values at least `lo` is at least `lo` times the arc length. */
  lemma {:induction false} WeightedSumAtLeast(h: Hypot, s: seq<Point>, f: Point -> real, k: nat, lo: real)
    requires k <= |s|
    requires forall i :: 1 <= i < k && s[i] != s[i - 1] ==> lo <= f(s[i])
    ensures lo * ArcLength(h, s, k) <= WeightedSum(h, s, f, k)
  {
    if 1 < k {
      WeightedSumAtLeast(h, s, f, k - 1, lo);
      StepAtLeast(ArcLength(h, s, k - 1), WeightedSum(h, s, f, k - 1), SegmentLength(h, s, k - 1), f(s[k - 1]), lo,
        ArcLength(h, s, k), WeightedSum(h, s, f, k));
    } else {
      assert lo * 0.0 == 0.0;
    }
  }

  /** A weighted sum of values at most `hi` is at most `hi` times the arc length. */
  lemma {:induction false} WeightedSumAtMost(h: Hypot, s: seq<Point>, f: Point -> real, k: nat, hi: real)
    requires k <= |s|
    requires forall i :: 1 <= i < k && s[i] != s[i - 1] ==> f(s[i]) <= hi
    ensures WeightedSum(h, s, f, k) <= hi * ArcLength(h, s, k)
  {
    if 1 < k {
      WeightedSumAtMost(h, s, f, k - 1, hi);
      StepAtMost(ArcLength(h, s, k - 1), WeightedSum(h, s, f, k - 1), SegmentLength(h, s, k - 1), f(s[k - 1]), hi,
        ArcLength(h, s, k), WeightedSum(h, s, f, k));
    } else {
      assert hi * 0.0 == 0.0;
    }
  }

  /** A weighted mean of values in `[lo, hi]` lies in `[lo, hi]`: the weights
      `SegmentLength(h, s, i) / ArcLength(h, s, |s|)` form a convex combination. */
  lemma WeightedMeanBounds(h: Hypot, s: seq<Point>, f: Point -> real, lo: real, hi: real)
    requires 0.0 < ArcLength(h, s, |s|)
    requires forall i :: 1 <= i < |s| && s[i] != s[i - 1] ==> lo <= f(s[i]) <= hi
    ensures lo <= WeightedMean(h, s, f) <= hi
  {
    WeightedSumAtLeast(h, s, f, |s|, lo);
    WeightedSumAtMost(h, s, f, |s|, hi);
    DivBounds(lo, hi, WeightedSum(h, s, f, |s|), ArcLength(h, s, |s|));
  }

  /** The center lies in every box that holds the weighted vertices
      `s[1..]`, in particular in their bounding box. */
  lemma CenterInBox(h: Hypot, s: seq<Point>, lo: Point, hi: Point)
    requires 0.0 < ArcLength(h, s, |s|)
    requires InBox(s, lo, hi)
    ensures lo.x <= Center(h, s).x <= hi.x
    ensures lo.y <= Center(h, s).y <= hi.y
  {
    WeightedMeanBounds(h, s, CoordX, lo.x, hi.x);
    WeightedMeanBounds(h, s, CoordY, lo.y, hi.y);
  }

  /** The radius is a weighted mean of the distances from `s[1..]` to the
      center, so it lies within any bounds that those distances keep. */
  lemma RadiusBounds(h: Hypot, s: seq<Point>, lo: real, hi: real)
    requires 0.0 < ArcLength(h, s, |s|)
    requires forall i :: 1 <= i < |s| && s[i] != s[i - 1] ==> lo <= Dist(h, s[i], Center(h, s)) <= hi
    ensures lo <= Radius(h, s) <= hi
  {
    WeightedMeanBounds(h, s, DistanceTo(h, Center(h, s)), lo, hi);
  }
}

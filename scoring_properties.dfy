/** Further properties of the scorer: which strokes have no length, which
    strokes earn full marks, and that a score does not depend on where on the
    canvas the stroke is drawn. */
module ScoringProperties {
  import opened Points
  import opened Tiers
  import opened RealArith
  import opened Scoring

  // ---------------------------------------------------------------------
  // Strokes without length

  /** The polyline through `s[0..k]` has length zero exactly when all of
      those vertices coincide. */
  lemma {:induction false} ArcLengthZeroIff(h: Hypot, s: seq<Point>, k: nat)
    requires 1 <= k <= |s|
    ensures ArcLength(h, s, k) == 0.0 <==> forall i :: 0 <= i < k ==> s[i] == s[0]
  {
    if 1 < k {
      ArcLengthZeroIff(h, s, k - 1);
      var l := SegmentLength(h, s, k - 1);
      assert ArcLength(h, s, k) == ArcLength(h, s, k - 1) + l;
      if ArcLength(h, s, k) == 0.0 {
        assert ArcLength(h, s, k - 1) == 0.0 && l == 0.0;
        assert s[k - 1] == s[k - 2] == s[0];
      }
      if forall i :: 0 <= i < k ==> s[i] == s[0] {
        assert s[k - 1] == s[k - 2];
      }
    }
  }

  /** A stroke can be weighted (`evaluate` divides by its length) exactly
      when not all of its vertices coincide. */
  lemma StrokeHasLengthIff(h: Hypot, s: seq<Point>)
    ensures 0.0 < ArcLength(h, s, |s|) <==> exists i :: 0 <= i < |s| && s[i] != s[0]
  {
    if 0 < |s| {
      ArcLengthZeroIff(h, s, |s|);
    }
  }

  /** Six samples at one point: the stroke has no length, so `evaluate`
      divides zero by zero when it places the center. */
  lemma StillStroke(h: Hypot, a: Point)
    ensures !Scorable(h, [a, a, a, a, a, a])
  {
    StrokeHasLengthIff(h, [a, a, a, a, a, a]);
  }

  /** Five samples at `a` and a sixth at `b`: the only weighted vertex is
      `b`, so on exact reals the center is `b`, the radius is zero, and `evaluate` divides
      zero by zero in the per-vertex accuracy. */
  lemma SingleSegmentStroke(h: Hypot, a: Point, b: Point)
    requires a != b
    ensures 0.0 < ArcLength(h, [a, a, a, a, a, b], 6)
    ensures Center(h, [a, a, a, a, a, b]) == b
    ensures Radius(h, [a, a, a, a, a, b]) == 0.0
    ensures !Scorable(h, [a, a, a, a, a, b])
  {
    var s := [a, a, a, a, a, b];
    var l := Dist(h, b, a);
    SingleSegmentSum(h, a, b, CoordX);
    SingleSegmentSum(h, a, b, CoordY);
    assert Center(h, s) == b;
    SingleSegmentSum(h, a, b, DistanceTo(h, b));
  }

  /** On the stroke of `SingleSegmentStroke` the weighted mean of any `f` is `f(b)`. */
  lemma SingleSegmentSum(h: Hypot, a: Point, b: Point, f: Point -> real)
    requires a != b
    ensures ArcLength(h, [a, a, a, a, a, b], 6) == Dist(h, b, a)
    ensures 0.0 < Dist(h, b, a)
    ensures WeightedMean(h, [a, a, a, a, a, b], f) == f(b)
  {
    var s := [a, a, a, a, a, b];
    var l := Dist(h, b, a);
    assert f(a) * 0.0 == 0.0;
    assert WeightedSum(h, s, f, 2) == 0.0 && ArcLength(h, s, 2) == 0.0;
    assert WeightedSum(h, s, f, 3) == 0.0 && ArcLength(h, s, 3) == 0.0;
    assert WeightedSum(h, s, f, 4) == 0.0 && ArcLength(h, s, 4) == 0.0;
    assert WeightedSum(h, s, f, 5) == 0.0 && ArcLength(h, s, 5) == 0.0;
    assert WeightedSum(h, s, f, 6) == f(b) * l;
    assert f(b) * l / l == f(b);
  }

  // ---------------------------------------------------------------------
  // Full marks

  /** A positively weighted value below `hi` pulls a weighted sum strictly
      below `hi` times the arc length. */
  lemma WeightedSumBelow(h: Hypot, s: seq<Point>, f: Point -> real, k: nat, hi: real, j: nat)
    requires k <= |s|
    requires forall i :: 1 <= i < k && s[i] != s[i - 1] ==> f(s[i]) <= hi
    requires 1 <= j < k && s[j] != s[j - 1] && f(s[j]) < hi
    ensures WeightedSum(h, s, f, k) < hi * ArcLength(h, s, k)
  {
    var g := p => f(p) - hi;
    WeightedSumAtMost(h, s, g, j, 0.0);
    NegativeStep(h, s, g, j + 1);
    StaysNegative(h, s, g, j + 1, k);
    ShiftedSum(h, s, s, f, g, hi, k);
  }

  /** A weighted sum that is at most zero becomes negative when a
      negative value gets a positive weight. */
  lemma NegativeStep(h: Hypot, s: seq<Point>, g: Point -> real, k: nat)
    requires 2 <= k <= |s|
    requires WeightedSum(h, s, g, k - 1) <= 0.0 * ArcLength(h, s, k - 1)
    requires s[k - 1] != s[k - 2] && g(s[k - 1]) < 0.0
    ensures WeightedSum(h, s, g, k) < 0.0
  {
    MulStrict(g(s[k - 1]), 0.0, SegmentLength(h, s, k - 1));
  }

  /** A negative weighted sum stays negative when values at most zero are added. */
  lemma {:induction false} StaysNegative(h: Hypot, s: seq<Point>, g: Point -> real, m: nat, k: nat)
    requires 1 <= m <= k <= |s|
    requires forall i :: m <= i < k && s[i] != s[i - 1] ==> g(s[i]) <= 0.0
    requires WeightedSum(h, s, g, m) < 0.0
    ensures WeightedSum(h, s, g, k) < 0.0
  {
    if m < k {
      StaysNegative(h, s, g, m, k - 1);
      var v, l := g(s[k - 1]), SegmentLength(h, s, k - 1);
      if l == 0.0 {
        assert v * l == 0.0;
      } else {
        MulMono(v, 0.0, l);
      }
    }
  }

  /** A weighted mean of values at most `hi` reaches `hi` exactly when
      every positively weighted value is `hi`. */
  lemma WeightedMeanAtBoundIff(h: Hypot, s: seq<Point>, f: Point -> real, hi: real)
    requires 0.0 < ArcLength(h, s, |s|)
    requires forall i :: 1 <= i < |s| && s[i] != s[i - 1] ==> f(s[i]) <= hi
    ensures WeightedMean(h, s, f) == hi <==> forall i :: 1 <= i < |s| && s[i] != s[i - 1] ==> f(s[i]) == hi
  {
    if forall i :: 1 <= i < |s| && s[i] != s[i - 1] ==> f(s[i]) == hi {
      WeightedMeanBounds(h, s, f, hi, hi);
    } else {
      var j :| 1 <= j < |s| && s[j] != s[j - 1] && f(s[j]) != hi;
      WeightedSumBelow(h, s, f, |s|, hi, j);
      DivBelow(hi, WeightedSum(h, s, f, |s|), ArcLength(h, s, |s|));
    }
  }

  /** The radius accuracy is one exactly when every vertex that ends a
      segment of positive length lies on the fitted circle. */
  lemma RadiusAccuracyOneIff(h: Hypot, s: seq<Point>)
    requires Scorable(h, s)
    ensures RadiusAccuracy(h, s) == 1.0 <==>
      forall i :: 1 <= i < |s| && s[i] != s[i - 1] ==> Dist(h, s[i], Center(h, s)) == Radius(h, s)
  {
    var c, r := Center(h, s), Radius(h, s);
    WeightedMeanAtBoundIff(h, s, AccuracyAt(h, c, r), 1.0);
  }

  /** A stroke scores full marks exactly when every moving vertex lies on
      the fitted circle and the stroke ends as far from the center as it began. */
  lemma AccuracyOneIff(h: Hypot, s: seq<Point>)
    requires Scorable(h, s)
    ensures Score(h, s).accuracy == 1.0 <==>
      (forall i :: 1 <= i < |s| && s[i] != s[i - 1] ==> Dist(h, s[i], Center(h, s)) == Radius(h, s))
      && Dist(h, s[|s| - 1], Center(h, s)) == Dist(h, s[0], Center(h, s))
  {
    RadiusAccuracyOneIff(h, s);
  }

  /** A stroke of some length whose vertices all lie at one positive distance
      `rho` from its weighted center is scored with radius `rho`, full marks
      and the top tier. */
  lemma PerfectStroke(h: Hypot, s: seq<Point>, rho: real)
    requires 0.0 < ArcLength(h, s, |s|) && 0.0 < rho
    requires forall i :: 0 <= i < |s| ==> Dist(h, s[i], Center(h, s)) == rho
    ensures Scorable(h, s)
    ensures Score(h, s).radius == rho
    ensures Score(h, s).accuracy == 1.0
    ensures Score(h, s).tier == StrongPerfect
  {
    RadiusBounds(h, s, rho, rho);
    AccuracyOneIff(h, s);
  }

  // ---------------------------------------------------------------------
  // Translation

  /** The stroke `s` moved by the vector `d`. */
  function Translate(s: seq<Point>, d: Point): (t: seq<Point>)
    ensures |t| == |s|
    ensures forall i :: 0 <= i < |s| ==> t[i] == Add(s[i], d)
  {
    seq(|s|, i requires 0 <= i < |s| => Add(s[i], d))
  }

  lemma TranslateSegments(h: Hypot, s: seq<Point>, d: Point)
    ensures forall i :: 1 <= i < |s| ==> SegmentLength(h, Translate(s, d), i) == SegmentLength(h, s, i)
  {
    forall i | 1 <= i < |s|
      ensures SegmentLength(h, Translate(s, d), i) == SegmentLength(h, s, i)
    {
      DistTranslate(h, s[i], s[i - 1], d);
    }
  }

  /** Two strokes with the same segment lengths have the same arc length. */
  lemma {:induction false} SameSegmentsArcLength(h: Hypot, s: seq<Point>, t: seq<Point>, k: nat)
    requires |s| == |t| && k <= |s|
    requires forall i :: 1 <= i < |s| ==> SegmentLength(h, t, i) == SegmentLength(h, s, i)
    ensures ArcLength(h, t, k) == ArcLength(h, s, k)
  {
    if 1 < k {
      SameSegmentsArcLength(h, s, t, k - 1);
    }
  }

  /** Two strokes with the same segment lengths, and values that differ by
      `c` at every vertex, have weighted sums that differ by `c` times the
      arc length. */
  lemma {:induction false} ShiftedSum(h: Hypot, s: seq<Point>, t: seq<Point>, f: Point -> real, g: Point -> real, c: real, k: nat)
    requires |s| == |t| && k <= |s|
    requires forall i :: 1 <= i < |s| ==> SegmentLength(h, t, i) == SegmentLength(h, s, i)
    requires forall i :: 1 <= i < k ==> f(t[i]) == g(s[i]) + c
    ensures WeightedSum(h, t, f, k) == WeightedSum(h, s, g, k) + c * ArcLength(h, s, k)
  {
    if 1 < k {
      ShiftedSum(h, s, t, f, g, c, k - 1);
      ShiftedStep(h, s, t, f, g, c, k);
    } else {
      assert c * 0.0 == 0.0;
    }
  }

  lemma ShiftedStep(h: Hypot, s: seq<Point>, t: seq<Point>, f: Point -> real, g: Point -> real, c: real, k: nat)
    requires |s| == |t| && 2 <= k <= |s|
    requires SegmentLength(h, t, k - 1) == SegmentLength(h, s, k - 1) && f(t[k - 1]) == g(s[k - 1]) + c
    requires WeightedSum(h, t, f, k - 1) == WeightedSum(h, s, g, k - 1) + c * ArcLength(h, s, k - 1)
    ensures WeightedSum(h, t, f, k) == WeightedSum(h, s, g, k) + c * ArcLength(h, s, k)
  {
    StepShift(WeightedSum(h, t, f, k - 1), WeightedSum(h, s, g, k - 1), ArcLength(h, s, k - 1),
      f(t[k - 1]), g(s[k - 1]), SegmentLength(h, t, k - 1), SegmentLength(h, s, k - 1), c,
      WeightedSum(h, t, f, k), WeightedSum(h, s, g, k), ArcLength(h, s, k));
  }

  /** The weighted means of two such strokes differ by `c`. */
  lemma ShiftedMean(h: Hypot, s: seq<Point>, t: seq<Point>, f: Point -> real, g: Point -> real, c: real)
    requires |s| == |t| && 0.0 < ArcLength(h, s, |s|)
    requires forall i :: 1 <= i < |s| ==> SegmentLength(h, t, i) == SegmentLength(h, s, i)
    requires forall i :: 1 <= i < |s| ==> f(t[i]) == g(s[i]) + c
    ensures ArcLength(h, t, |t|) == ArcLength(h, s, |s|)
    ensures WeightedMean(h, t, f) == WeightedMean(h, s, g) + c
  {
    SameSegmentsArcLength(h, s, t, |s|);
    ShiftedSum(h, s, t, f, g, c, |s|);
    var total, sum := ArcLength(h, s, |s|), WeightedSum(h, s, g, |s|);
    var sumT, totalT := WeightedSum(h, t, f, |t|), ArcLength(h, t, |t|);
    assert totalT == total;
    assert sumT == sum + c * total;
    DivShift(sum, c, total);
    assert WeightedMean(h, t, f) == sumT / totalT;
  }

  /** Moving a stroke moves its center by the same vector. */
  lemma CenterTranslate(h: Hypot, s: seq<Point>, d: Point)
    requires 0.0 < ArcLength(h, s, |s|)
    ensures ArcLength(h, Translate(s, d), |s|) == ArcLength(h, s, |s|)
    ensures Center(h, Translate(s, d)) == Add(Center(h, s), d)
  {
    var t := Translate(s, d);
    TranslateSegments(h, s, d);
    ShiftedMean(h, s, t, CoordX, CoordX, d.x);
    ShiftedMean(h, s, t, CoordY, CoordY, d.y);
  }

  /** Moving a stroke leaves its radius alone. */
  lemma RadiusTranslate(h: Hypot, s: seq<Point>, d: Point)
    requires 0.0 < ArcLength(h, s, |s|)
    ensures 0.0 < ArcLength(h, Translate(s, d), |s|)
    ensures Radius(h, Translate(s, d)) == Radius(h, s)
  {
    var t := Translate(s, d);
    CenterTranslate(h, s, d);
    var c := Center(h, s);
    forall i | 1 <= i < |s|
      ensures DistanceTo(h, Center(h, t))(t[i]) == DistanceTo(h, c)(s[i]) + 0.0
    {
      DistTranslate(h, s[i], c, d);
    }
    TranslateSegments(h, s, d);
    ShiftedMean(h, s, t, DistanceTo(h, Center(h, t)), DistanceTo(h, c), 0.0);
  }

  /** Moving a stroke leaves its radius accuracy alone. */
  lemma RadiusAccuracyTranslate(h: Hypot, s: seq<Point>, d: Point)
    requires Scorable(h, s)
    ensures Scorable(h, Translate(s, d))
    ensures RadiusAccuracy(h, Translate(s, d)) == RadiusAccuracy(h, s)
  {
    var t := Translate(s, d);
    RadiusTranslate(h, s, d);
    CenterTranslate(h, s, d);
    var c, r := Center(h, s), Radius(h, s);
    forall i | 1 <= i < |s|
      ensures AccuracyAt(h, Center(h, t), r)(t[i]) == AccuracyAt(h, c, r)(s[i]) + 0.0
    {
      DistTranslate(h, s[i], c, d);
    }
    TranslateSegments(h, s, d);
    ShiftedMean(h, s, t, AccuracyAt(h, Center(h, t), r), AccuracyAt(h, c, r), 0.0);
  }

  /** The closure score sees only the two end distances. */
  lemma StartEndAccuracyOfDistances(h: Hypot, s: seq<Point>, c: Point, t: seq<Point>, c': Point, radius: real)
    requires 0 < |s| && 0 < |t| && 0.0 < radius
    requires Dist(h, s[|s| - 1], c) == Dist(h, t[|t| - 1], c')
    requires Dist(h, s[0], c) == Dist(h, t[0], c')
    ensures StartEndAccuracy(h, s, c, radius) == StartEndAccuracy(h, t, c', radius)
  {
  }

  /** Moving a stroke leaves its closure score alone. */
  lemma StartEndAccuracyTranslate(h: Hypot, s: seq<Point>, d: Point)
    requires Scorable(h, s)
    ensures Scorable(h, Translate(s, d))
    ensures StartEndAccuracy(h, Translate(s, d), Center(h, Translate(s, d)), Radius(h, Translate(s, d)))
         == StartEndAccuracy(h, s, Center(h, s), Radius(h, s))
  {
    var t := Translate(s, d);
    RadiusTranslate(h, s, d);
    CenterTranslate(h, s, d);
    var c := Center(h, s);
    DistTranslate(h, s[|s| - 1], c, d);
    DistTranslate(h, s[0], c, d);
    StartEndAccuracyOfDistances(h, s, c, t, Center(h, t), Radius(h, s));
  }

  /** Scoring does not depend on where the stroke is drawn: moving every
      vertex by `d` moves the fitted center by `d` and changes nothing else. */
  lemma ScoreTranslationInvariant(h: Hypot, s: seq<Point>, d: Point)
    requires Scorable(h, s)
    ensures Scorable(h, Translate(s, d))
    ensures Score(h, Translate(s, d)) == Score(h, s).(center := Add(Score(h, s).center, d))
  {
    RadiusAccuracyTranslate(h, s, d);
    RadiusTranslate(h, s, d);
    CenterTranslate(h, s, d);
    StartEndAccuracyTranslate(h, s, d);
  }
}

# Circle drawing game: stroke capture and circle scoring

The game asks the player to draw a circle with the mouse or a finger. While
the pointer is down, every move event appends the pointer position to a
buffer of vertices. On release, a stroke of more than five vertices is
scored:

- every vertex after the first is weighted by the length of the segment that
  ends at it;
- the center is the weighted mean of those vertices;
- the radius is the weighted mean of their distances to the center;
- each vertex earns an accuracy that falls linearly from one, on the circle,
  to zero at a relative radius deviation of 0.15;
- a closure score compares how far the first and last vertex lie from the
  center, falling quadratically to zero at a gap of 0.1 radii;
- the two accuracies are blended 80/20 and the blend is mapped to one of four
  tiers.

The project has six modules:

- `Points` (`points.dfy`): the `Point` helpers. `Math.hypot` is a parameter
  of type `Hypot`, an arbitrary function that is never negative and is zero
  exactly at the origin.
- `Tiers` (`tiers.dfy`): the tier ladder and its labels. It also holds the
  ladder as written on JavaScript numbers, including `NaN`.
- `RealArith` (`arith.dfy`): small facts of real arithmetic. The scoring
  proofs use them so that each proof sees only the products it needs.
- `Scoring` (`scoring.dfy`): the scorer. It is specified by prefix-recursive
  functions (`ArcLength`, `WeightedSum`, `WeightedMean`, `Center`, `Radius`,
  `RadiusAccuracy`, `StartEndAccuracy`, `Combine`, `Score`). The method
  `Evaluate` runs the three accumulation loops of `evaluate` and is proved to
  compute `Score`.
- `ScoringProperties` (`scoring_properties.dfy`): properties of the scorer
  that relate several calls. These cover which strokes have no length,
  exactly when a stroke earns full marks, and invariance under translation.
- `Game` (`game.dfy`): the stroke-capture state machine. It is a class
  `Session` holding the module-level `isDrawing` flag and `vertices` buffer,
  with one method per pointer handler.

Coordinates are exact reals, not IEEE doubles.

## Model

| member | source | states |
|---|---|---|
| Points.Length | main.js:22-24 | the length of a vector is never negative and is zero exactly for the zero vector |
| Points.Dist | main.js:42-44 | the distance between two points is never negative and is zero exactly when the points coincide |
| Points.Add | main.js:26-28 | the vector from `v` to `add(v, w)` is `w`; `AddDiff` shows that `add` and `diff` undo each other |
| Points.Diff | main.js:30-32 | `diff(v, w)` is the zero vector exactly when the points coincide |
| Points.Multiply | main.js:34-36 | scaling by one is the identity and scaling by zero gives the zero vector; `MultiplyAdd` shows it distributes over `add` |
| Points.Dot | main.js:38-40 | the dot product of a vector with itself is never negative and the product with the zero vector is zero; `DotScale` shows it is symmetric and scales with `multiply` |
| Points.AddDiff | main.js:26-32 | `add` undoes `diff`: walking from `v` along `diff(v, w)` reaches `w`, and `diff(v, add(v, w))` is `w` |
| Points.DistIsLengthOfDiff | main.js:42-44 | `dist(v, w)` is the length of the vector `diff(w, v)` |
| Points.DistTranslate | main.js:42-44 | moving both points by the same vector leaves their distance unchanged |
| Points.DotScale | main.js:34-40 | scaling one argument of `dot` scales the product, and `dot` is symmetric |
| Points.MultiplyAdd | main.js:26-36 | `multiply` distributes over `add` |
| Tiers.Rank | main.js:122-137 | each tier has a rank of at most 3; `RankCountsThresholds` fixes the order from 0 (GOOD) to 3 (bold PERFECT!) |
| Tiers.Classify | main.js:122-137 | each tier is chosen exactly on its interval: below 0.6, [0.6, 0.8), [0.8, 0.9), from 0.9 up |
| Tiers.Label | main.js:122-137 | every tier writes a non-empty label |
| Tiers.ClassifyMonotone | main.js:122-137 | a higher accuracy never earns a lower tier |
| Tiers.LabelInjective | main.js:122-137 | different tiers write different labels |
| Tiers.RankCountsThresholds | main.js:122-137 | the rank of the tier is the number of thresholds 0.6, 0.8, 0.9 the accuracy reaches |
| Tiers.ClassifyAsWritten | main.js:122-137 | on JavaScript numbers the ladder agrees with `Classify` for every finite accuracy and gives the top tier for `NaN` |
| Scoring.SegmentLength | main.js:76 | the weight of a vertex is never negative and is zero exactly when the vertex repeats its predecessor |
| Scoring.ArcLength | main.js:72-77 | the accumulated total length is never negative |
| Scoring.PointAccuracy | main.js:97 | a vertex accuracy lies in [0, 1], is one exactly on the circle, and is zero exactly at a relative deviation of at least 0.15 |
| Scoring.StartEndAccuracy | main.js:102-104 | the closure score lies in [0, 1], is one exactly when first and last vertex are equally far from the center, and is zero exactly at a gap of at least 0.1 radii |
| Scoring.Combine | main.js:106 | the blend lies in [0, 1] between its two inputs and is one exactly when both are one |
| Scoring.Evaluate | main.js:71-106 | returns a score exactly for a stroke of positive length and positive radius, and then returns `Score` with all accuracies in [0, 1] and the tier of the accuracy |
| Scoring.EvaluateFitted | main.js:92-137 | from the fitted center and radius, the third pass, closure score, blend and tier give `Score` |
| Scoring.AccumulateMoment | main.js:72-80 | the first loop computes the arc length and the length-weighted sum of the vertices |
| Scoring.CenterFromMoment | main.js:81-82 | dividing the weighted sum by the arc length gives the weighted center |
| Scoring.MomentCoordinates | main.js:74-80 | the vector accumulation of `center` is the pair of weighted coordinate sums |
| Scoring.FitRadius | main.js:84-90 | the second loop computes the weighted mean distance to the center |
| Scoring.FitRadiusAccuracy | main.js:92-100 | the third loop computes the weighted mean of the vertex accuracies |
| Scoring.WeightedSumAtLeast | main.js:75-100 | a weighted sum of values at least `lo` is at least `lo` times the arc length |
| Scoring.WeightedSumAtMost | main.js:75-100 | a weighted sum of values at most `hi` is at most `hi` times the arc length |
| Scoring.WeightedMeanBounds | main.js:75-100 | a weighted mean stays within any bounds its positively weighted values keep |
| Scoring.CenterInBox | main.js:74-82 | `Center`, the weighted center, lies in every axis-aligned box holding the vertices after the first |
| Scoring.RadiusBounds | main.js:84-90 | the radius stays within any bounds the distances of the moving vertices keep |
| Scoring.Radius | main.js:84-90 | the radius is never negative; `RadiusBounds` keeps it within any bounds the distances keep |
| Scoring.RadiusAccuracy | main.js:92-100 | the radius accuracy lies in [0, 1]; `RadiusAccuracyOneIff` says when it is one |
| Scoring.Score | main.js:71-137 | every accuracy of a score lies in [0, 1], the radius is positive, and the tier is the ladder's tier for the accuracy; `Evaluate` computes it and `AccuracyOneIff` says when it is perfect |
| ScoringProperties.ArcLengthZeroIff | main.js:72-77 | a prefix has length zero exactly when all of its vertices coincide |
| ScoringProperties.StrokeHasLengthIff | main.js:72-82 | a stroke has positive length exactly when some vertex differs from the first |
| ScoringProperties.StillStroke | main.js:81-82 | six samples at one point cannot be scored |
| ScoringProperties.SingleSegmentStroke | main.js:84-97 | on exact reals, five samples at `a` and one at `b` have positive length, center `b` and radius zero, so they cannot be scored |
| ScoringProperties.WeightedSumBelow | main.js:92-100 | one positively weighted value strictly below `hi` keeps the weighted sum strictly below `hi` times the arc length |
| ScoringProperties.WeightedMeanAtBoundIff | main.js:92-100 | a weighted mean of values at most `hi` equals `hi` exactly when every positively weighted value is `hi` |
| ScoringProperties.RadiusAccuracyOneIff | main.js:92-100 | the radius accuracy is one exactly when every moving vertex lies on the fitted circle |
| ScoringProperties.AccuracyOneIff | main.js:92-106 | the accuracy is one exactly when every moving vertex lies on the fitted circle and the stroke ends as far from the center as it began |
| ScoringProperties.PerfectStroke | main.js:71-137 | a stroke of positive length whose vertices all lie at distance `rho > 0` from its center scores radius `rho`, accuracy one and the top tier |
| ScoringProperties.CenterTranslate | main.js:74-82 | moving a stroke by `d` keeps its length and moves its center by `d` |
| ScoringProperties.RadiusTranslate | main.js:84-90 | moving a stroke leaves its radius unchanged |
| ScoringProperties.RadiusAccuracyTranslate | main.js:92-100 | moving a stroke leaves its radius accuracy unchanged |
| ScoringProperties.StartEndAccuracyOfDistances | main.js:102-104 | the closure score depends only on the two end distances |
| ScoringProperties.StartEndAccuracyTranslate | main.js:102-104 | moving a stroke leaves its closure score unchanged |
| ScoringProperties.ScoreTranslationInvariant | main.js:71-137 | moving a stroke by `d` keeps it scorable and changes its score only by moving the center by `d` |
| Game.Session.constructor | main.js:4-5 | the script starts idle with an empty buffer |
| Game.Session.OnMouseDown | main.js:148-154 | pressing starts a stroke with an empty buffer, unless a stroke is already in progress, in which case nothing changes |
| Game.Session.DrawVertex | main.js:47-56 | the point is appended to the buffer and nothing else changes |
| Game.Session.OnMouseMove | main.js:164-170 | while drawing the pointer position is appended; otherwise the buffer is unchanged; the drawing flag never changes |
| Game.Session.OnTouchMove | main.js:172-179 | while drawing, the first touch is appended; without a touch list the buffer is unchanged; the drawing flag never changes |
| Game.Session.OnMouseUp | main.js:156-162 | releasing ends a stroke and keeps the buffer; a score is returned exactly for a stroke of more than five scorable vertices, and equals `Score`; when idle nothing changes |

## Left out

- Canvas drawing is not modelled: stroke segments and line width, the red center mark and fitted circle, and `clearRect`. They are output only.
- The score text is not modelled: the percentage formatting with `toFixed`, the detail line, the colours and the restart of the CSS animation. Only the tier and its label are kept.
- Registering the handlers with `addEventListener` is not modelled. Each handler is a method that the environment calls.
- Coordinate offsets are not modelled. The event handlers receive the point already in canvas coordinates, so `clientX - offsetLeft` and `pageX - offsetLeft` are the caller's concern.
- Pen pressure and `touch.force` are not modelled. They only set the line width.
- Floating point is not modelled: coordinates and accuracies are exact reals, and `Math.hypot` is abstract. Rounding, overflow and the exact value of a Euclidean norm are outside the model.
- The design comments at main.js:58-69 are not modelled: the ellipse fit, time bonus and shake accuracy. They describe plans that the code does not implement.
- Points.Dot: no contract says that the dot product of a vector with itself is zero only for the zero vector. The scorer never calls `dot`.
- Tiers.ClassifyAsWritten: the step from a zero division to `NaN` is argued, not modelled. `ClassifyAsWritten` starts from an accuracy that is already `NaN`. The claim that `0 / 0` is `NaN` and that this `NaN` passes through `Math.max` and the blend into the accuracy follows from JavaScript's rules for numbers, which the model does not contain.
- Game.Session.OnTouchMove: a touch list that is present but empty leaves the state unchanged. In the script, reading the first touch yields `undefined`, and the handler throws before it records anything.
- Game.Session.OnMouseUp: a stroke that cannot be scored returns `None`. The script instead computes `NaN` and shows the top tier; see Findings.
- Scoring.Evaluate: `Point` is a value. The object `center`, which the script updates field by field, is accumulated as a local `Point` through `Add` and `Multiply`. The three loops are split over `AccumulateMoment`, `FitRadius` and `FitRadiusAccuracy`.

## Findings

| source | as written | input that shows it | evidently intended | confidence | as-written member | corrected member |
|---|---|---|---|---|---|---|
| main.js:81-137 | a stroke with no length, or with a zero fitted radius, divides 0 by 0; the accuracy is then `NaN`, which fails every `<` test of the ladder, so the stroke is shown as the bold "PERFECT!" | six pointer samples at (0, 0); or five at `a` = (0, 0) and a sixth at `b` = (3, 4), where the length is 5, the center is exactly `b` and the radius is exactly 0 in doubles too. For other pairs `a`, `b`, rounding in doubles can leave a tiny positive radius; the stroke can then score 0.8 and show the plain " PERFECT!" tier of [0.8, 0.9) instead | a stroke that cannot be fitted earns no tier | not executed; high for the ladder and the zero radius, which follow from the lines cited | Tiers.ClassifyAsWritten, ScoringProperties.StillStroke, ScoringProperties.SingleSegmentStroke | Scoring.Evaluate, Game.Session.OnMouseUp |

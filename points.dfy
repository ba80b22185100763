/** Two-dimensional points in canvas pixel space and the static helpers of the
    game's `Point` class.  Coordinates are exact reals; `Math.hypot` is not
    computed but taken as a parameter of type `Hypot`, which keeps only the
    facts of a Euclidean norm that the scoring relies on. */
module Points {

  /** An abstract `Math.hypot`: never negative and zero exactly at the origin. */
  type Hypot = h: (real, real) -> real
    | forall a: real, b: real :: 0.0 <= h(a, b) && (h(a, b) == 0.0 <==> a == 0.0 && b == 0.0)
    witness Manhattan

  function Abs(a: real): (r: real)
    ensures 0.0 <= r && (r == a || r == -a)
  {
    if a < 0.0 then -a else a
  }

  /** A norm that shows the type `Hypot` is inhabited. */
  function Manhattan(a: real, b: real): (r: real)
    ensures 0.0 <= r && (r == 0.0 <==> a == 0.0 && b == 0.0)
  {
    Abs(a) + Abs(b)
  }

  datatype Point = Point(x: real, y: real)

  const Origin := Point(0.0, 0.0)

  /** Component-wise sum `v + w`: the vector from `v` to it is `w`. */
  function Add(v: Point, w: Point): (r: Point)
    ensures Diff(v, r) == w
  {
    Point(v.x + w.x, v.y + w.y)
  }

  /** The vector from `v` to `w`, that is `w - v`; it is the zero vector
      exactly when the points coincide. */
  function Diff(v: Point, w: Point): (r: Point)
    ensures r == Origin <==> v == w
  {
    Point(w.x - v.x, w.y - v.y)
  }

  /** Scaling by `s`: by one it is the identity, by zero it gives the zero vector. */
  function Multiply(v: Point, s: real): (r: Point)
    ensures s == 1.0 ==> r == v
    ensures s == 0.0 ==> r == Origin
  {
    Point(v.x * s, v.y * s)
  }

  /** The dot product; that of a vector with itself is never negative, and
      that with the zero vector is zero. */
  function Dot(v: Point, w: Point): (r: real)
    ensures v == w ==> 0.0 <= r
    ensures v == Origin || w == Origin ==> r == 0.0
  {
    v.x * w.x + v.y * w.y
  }

  /** The Euclidean length of `v` (the instance method `length`). */
  function Length(h: Hypot, v: Point): (r: real)
    ensures 0.0 <= r
    ensures r == 0.0 <==> v == Origin
  {
    h(v.x, v.y)
  }

  /** The Euclidean distance between `v` and `w`. */
  function Dist(h: Hypot, v: Point, w: Point): (r: real)
    ensures 0.0 <= r
    ensures r == 0.0 <==> v == w
  {
    h(v.x - w.x, v.y - w.y)
  }

  /** `Diff` is undone by `Add`: walking from `v` along `Diff(v, w)` reaches `w`. */
  lemma AddDiff(v: Point, w: Point)
    ensures Add(v, Diff(v, w)) == w
    ensures Diff(v, Add(v, w)) == w
  {
  }

  /** The distance from `v` to `w` is the length of the vector from `w` to `v`. */
  lemma DistIsLengthOfDiff(h: Hypot, v: Point, w: Point)
    ensures Dist(h, v, w) == Length(h, Diff(w, v))
  {
  }

  /** Translating both points by the same vector leaves the distance alone. */
  lemma DistTranslate(h: Hypot, v: Point, w: Point, d: Point)
    ensures Dist(h, Add(v, d), Add(w, d)) == Dist(h, v, w)
  {
    assert (v.x + d.x) - (w.x + d.x) == v.x - w.x;
    assert (v.y + d.y) - (w.y + d.y) == v.y - w.y;
  }

  /** `Multiply` scales the dot product, which is symmetric. */
  lemma DotScale(v: Point, w: Point, s: real)
    ensures Dot(Multiply(v, s), w) == s * Dot(v, w)
    ensures Dot(v, w) == Dot(w, v)
  {
    assert Dot(Multiply(v, s), w) == (v.x * s) * w.x + (v.y * s) * w.y;
  }

  /** `Multiply` distributes over `Add`. */
  lemma MultiplyAdd(v: Point, w: Point, s: real)
    ensures Multiply(Add(v, w), s) == Add(Multiply(v, s), Multiply(w, s))
  {
    assert (v.x + w.x) * s == v.x * s + w.x * s;
    assert (v.y + w.y) * s == v.y * s + w.y * s;
  }
}

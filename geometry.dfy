/**
 * Integer plane geometry: Go's image.Point and image.Rectangle as far as the
 * simulation uses them, and the helpers of util/util.go.
 */
module Geometry {

  datatype Point = Point(x: int, y: int)

  /** A rectangle whose Min corner is inclusive and whose Max corner is exclusive. */
  datatype Rect = Rect(min: Point, max: Point)

  function Add(p: Point, q: Point): Point { Point(p.x + q.x, p.y + q.y) }

  function Sub(p: Point, q: Point): Point { Point(p.x - q.x, p.y - q.y) }

  function Dx(r: Rect): int { r.max.x - r.min.x }

  function Dy(r: Rect): int { r.max.y - r.min.y }

  /** image.Rectangle.Add: the same rectangle moved by p. */
  function Translate(r: Rect, p: Point): (t: Rect)
    ensures Dx(t) == Dx(r) && Dy(t) == Dy(r)
    ensures t.min == Add(r.min, p)
  {
    Rect(Add(r.min, p), Add(r.max, p))
  }

  /** image.Rect: the rectangle with these corners, swapped into canonical order. */
  function MakeRect(x0: int, y0: int, x1: int, y1: int): (r: Rect)
    ensures r.min.x <= r.max.x && r.min.y <= r.max.y
    ensures x0 <= x1 && y0 <= y1 ==> r == Rect(Point(x0, y0), Point(x1, y1))
    ensures Dx(r) == Abs(x1 - x0) && Dy(r) == Abs(y1 - y0)
  {
    Rect(Point(if x0 <= x1 then x0 else x1, if y0 <= y1 then y0 else y1),
         Point(if x0 <= x1 then x1 else x0, if y0 <= y1 then y1 else y0))
  }

  predicate Empty(r: Rect) { r.min.x >= r.max.x || r.min.y >= r.max.y }

  /** image.Rectangle.Overlaps: both non-empty and with a common point. */
  predicate Overlaps(r: Rect, s: Rect) {
    && !Empty(r) && !Empty(s)
    && r.min.x < s.max.x && s.min.x < r.max.x
    && r.min.y < s.max.y && s.min.y < r.max.y
  }

  /** image.Rectangle.In: r is empty or lies inside s. */
  predicate In(r: Rect, s: Rect) {
    Empty(r) || (s.min.x <= r.min.x && r.max.x <= s.max.x && s.min.y <= r.min.y && r.max.y <= s.max.y)
  }

  /** Go's integer division by a positive divisor, which truncates toward zero. */
  function Quo(a: int, d: int): (q: int)
    requires d > 0
    ensures a >= 0 ==> 0 <= a - q * d < d
    ensures a < 0 ==> -d < a - q * d <= 0
  {
    if a >= 0 then a / d else -((-a) / d)
  }

  /** MidpointRect: the halved corner sums, halved the Go way. */
  function MidpointRect(r: Rect): (p: Point)
    ensures r.min.x + r.max.x >= 0 ==> 2 * p.x <= r.min.x + r.max.x <= 2 * p.x + 1
    ensures r.min.x + r.max.x < 0 ==> 2 * p.x - 1 <= r.min.x + r.max.x <= 2 * p.x
    ensures r.min.y + r.max.y >= 0 ==> 2 * p.y <= r.min.y + r.max.y <= 2 * p.y + 1
    ensures r.min.y + r.max.y < 0 ==> 2 * p.y - 1 <= r.min.y + r.max.y <= 2 * p.y
  {
    Point(Quo(r.max.x + r.min.x, 2), Quo(r.max.y + r.min.y, 2))
  }

  function Abs(n: int): (r: int)
    ensures r >= 0
    ensures r == n || r == -n
  {
    if n < 0 then -n else n
  }

  lemma SquareNonNegative(n: int)
    ensures n * n >= 0
    ensures n * n == 0 <==> n == 0
  {
    if n < 0 {
      assert n * n == (-n) * (-n);
    }
  }

  /**
   * DistancePoints without the square root: the squared Euclidean distance.
   * Comparing squares orders distances the same way the square roots do.
   */
  function DistancePointsSq(p: Point, q: Point): (d: int)
    ensures d >= 0
    ensures d == 0 <==> p == q
  {
    var v := Sub(p, q);
    SquareNonNegative(v.x);
    SquareNonNegative(v.y);
    v.x * v.x + v.y * v.y
  }

  /** DistanceRects: the distance between the two midpoints, squared. */
  function DistanceRectsSq(r: Rect, s: Rect): (d: int)
    ensures d >= 0
    ensures d == 0 <==> MidpointRect(r) == MidpointRect(s)
  {
    DistancePointsSq(MidpointRect(r), MidpointRect(s))
  }

  /** For a rectangle in the non-negative quadrant the midpoint lies inside it. */
  lemma MidpointWithin(r: Rect)
    requires 0 <= r.min.x <= r.max.x && 0 <= r.min.y <= r.max.y
    ensures r.min.x <= MidpointRect(r).x <= r.max.x
    ensures r.min.y <= MidpointRect(r).y <= r.max.y
  {
  }

  lemma AbsIdempotent(n: int)
    ensures Abs(Abs(n)) == Abs(n)
    ensures n >= 0 ==> Abs(n) == n
  {
  }

  /** The distance depends only on the difference of the points, so it is symmetric. */
  lemma DistanceSymmetric(p: Point, q: Point)
    ensures DistancePointsSq(p, q) == DistancePointsSq(q, p)
  {
    var u, v := Sub(p, q), Sub(q, p);
    assert v.x * v.x == u.x * u.x by { assert v.x == -u.x; }
    assert v.y * v.y == u.y * u.y by { assert v.y == -u.y; }
  }

  lemma DistanceTranslationInvariant(p: Point, q: Point, t: Point)
    ensures DistancePointsSq(Add(p, t), Add(q, t)) == DistancePointsSq(p, q)
  {
    assert Sub(Add(p, t), Add(q, t)) == Sub(p, q);
  }

  lemma DistanceRectsSymmetric(r: Rect, s: Rect)
    ensures DistanceRectsSq(r, s) == DistanceRectsSq(s, r)
  {
    DistanceSymmetric(MidpointRect(r), MidpointRect(s));
  }

  lemma OverlapsSymmetric(r: Rect, s: Rect)
    ensures Overlaps(r, s) <==> Overlaps(s, r)
  {
  }
}

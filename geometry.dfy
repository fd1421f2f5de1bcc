/** Points, line segments and rectangles as the draw routines emit them, and the
    scalar helpers (`Math.min`, `Math.max`, `Math.abs`, a `Math.hypot` comparison)
    that the motion rules use. */
module Geometry {

  datatype Point = Point(x: real, y: real)

  /** A `moveTo(from)` / `lineTo(to)` pair. */
  datatype Segment = Segment(from: Point, to: Point)

  /** A path-building call: `moveTo(at)` or `lineTo(at)`. */
  datatype PathOp = MoveTo(at: Point) | LineTo(at: Point)

  /** The arguments of `rect(x, y, width, height)`. */
  datatype Rect = Rect(x: real, y: real, width: real, height: real)

  function Min(a: real, b: real): (m: real)
    ensures m <= a && m <= b && (m == a || m == b)
  {
    if a <= b then a else b
  }

  function Max(a: real, b: real): (m: real)
    ensures m >= a && m >= b && (m == a || m == b)
  {
    if a >= b then a else b
  }

  function Abs(a: real): (m: real)
    ensures m >= 0.0 && (m == a || m == -a)
  {
    if a < 0.0 then -a else a
  }

  /** `Math.hypot(dx, dy) < limit`, stated without the square root: a non-negative
      length is below `limit` exactly when `limit` is positive and the squared
      length is below `limit * limit`. */
  predicate Closer(dx: real, dy: real, limit: real)
  {
    0.0 < limit && Times(dx, dx) + Times(dy, dy) < Times(limit, limit)
  }

  /** `a * b`. The motion rules keep their products behind this function so that
      the solver only expands them where a proof needs the arithmetic. */
  function Times(a: real, b: real): real
  {
    a * b
  }

  /** A wider limit admits every point a narrower one does. */
  lemma CloserMonotone(dx: real, dy: real, limit: real, wider: real)
    requires Closer(dx, dy, limit) && limit <= wider
    ensures Closer(dx, dy, wider)
  {
    MulMonotone(limit, wider, limit);
    MulMonotone(limit, wider, wider);
  }

  lemma MulMonotone(a: real, b: real, c: real)
    requires 0.0 <= a <= b && c >= 0.0
    ensures a * c <= b * c
  {
  }

  /** Scaling a non-negative value by a factor in [0, 1] does not increase it. */
  lemma ScaleDown(a: real, k: real)
    requires a >= 0.0 && 0.0 <= k <= 1.0
    ensures a * k <= a
  {
    assert a - a * k == a * (1.0 - k);
  }

  /** Scaling by a non-negative factor scales the magnitude. */
  lemma AbsScale(a: real, k: real)
    requires 0.0 <= k
    ensures Abs(a * k) == Abs(a) * k
  {
  }

  /** The magnitude of a product is the product of the magnitudes. */
  lemma AbsProduct(a: real, k: real)
    ensures Abs(a * k) == Abs(a) * Abs(k)
  {
    if k >= 0.0 {
      AbsScale(a, k);
    } else {
      AbsScale(a, -k);
      assert a * k == -(a * -k);
    }
  }

  /** Rectangle `inner` lies strictly inside rectangle `outer`. */
  predicate StrictlyInside(inner: Rect, outer: Rect)
  {
    && outer.x < inner.x
    && outer.y < inner.y
    && inner.x + inner.width < outer.x + outer.width
    && inner.y + inner.height < outer.y + outer.height
  }

  /** Point `p` lies in the closed box [0, width] x [0, height]. */
  predicate InBox(p: Point, width: real, height: real)
  {
    0.0 <= p.x <= width && 0.0 <= p.y <= height
  }
}

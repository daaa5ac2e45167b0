/** Viewport geometry shared by the pointer- and scroll-driven components:
    bounding rectangles as the browser reports them, points, and the
    optional value used for an element reference that may be unset. */
module Geometry {

  /** A bounding client rectangle (left, top, width, height), in CSS pixels. */
  datatype Rect = Rect(left: real, top: real, width: real, height: real)

  datatype Point = Point(x: real, y: real)

  /** A rectangle the tilt formulas can divide by. */
  predicate Proper(r: Rect)
  {
    r.width > 0.0 && r.height > 0.0
  }

  /** The pointer lies on or inside the rectangle's border. */
  predicate Inside(r: Rect, clientX: real, clientY: real)
  {
    r.left <= clientX <= r.left + r.width && r.top <= clientY <= r.top + r.height
  }

  /** A quotient whose numerator lies in [-b, b] lies in [-1, 1]. */
  lemma SignedUnitQuotient(a: real, b: real)
    requires b > 0.0 && -b <= a <= b
    ensures -1.0 <= a / b <= 1.0
  {
  }

  /** Dividing by a positive number keeps the sign of the numerator. */
  lemma QuotientSign(a: real, b: real)
    requires b > 0.0
    ensures a / b > 0.0 <==> a > 0.0
    ensures a / b < 0.0 <==> a < 0.0
    ensures a / b == 0.0 <==> a == 0.0
  {
  }
}

/**
 * Axis-aligned rectangles and the strict overlap test that ends a round.
 */
module Geometry {

  /** A rectangle with its top-left corner at (x, y), w wide and h high (y grows downwards). */
  datatype Rect = Rect(x: real, y: real, w: real, h: real)

  /** Strict AABB overlap on all four half-planes: rectangles that only share an edge do not overlap. */
  predicate Overlaps(a: Rect, b: Rect)
  {
    && a.x < b.x + b.w
    && a.x + a.w > b.x
    && a.y < b.y + b.h
    && a.y + a.h > b.y
  }

  /** The point (px, py) lies strictly inside r. */
  ghost predicate Inside(r: Rect, px: real, py: real)
  {
    r.x < px < r.x + r.w && r.y < py < r.y + r.h
  }

  function Max(a: real, b: real): real { if a < b then b else a }

  function Min(a: real, b: real): real { if a < b then a else b }

  /**
   * The reference meaning of the test: two rectangles of positive size overlap
   * exactly when some point lies strictly inside both.
   */
  lemma OverlapsIffCommonInteriorPoint(a: Rect, b: Rect)
    requires a.w > 0.0 && a.h > 0.0 && b.w > 0.0 && b.h > 0.0
    ensures Overlaps(a, b) <==> exists px, py :: Inside(a, px, py) && Inside(b, px, py)
  {
    if Overlaps(a, b) {
      var px := (Max(a.x, b.x) + Min(a.x + a.w, b.x + b.w)) / 2.0;
      var py := (Max(a.y, b.y) + Min(a.y + a.h, b.y + b.h)) / 2.0;
      assert Inside(a, px, py) && Inside(b, px, py);
    }
  }

  /** The test does not depend on which rectangle is named first. */
  lemma OverlapsSymmetric(a: Rect, b: Rect)
    ensures Overlaps(a, b) <==> Overlaps(b, a)
  {
  }

  /** Rectangles that touch along an edge, or are further apart, do not overlap. */
  lemma TouchingIsNotOverlapping(a: Rect, b: Rect)
    requires a.x + a.w <= b.x || b.x + b.w <= a.x || a.y + a.h <= b.y || b.y + b.h <= a.y
    ensures !Overlaps(a, b)
  {
  }
}

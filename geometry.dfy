/** Axis-aligned rectangles: the approximate outline of a cloud and the overlap test. */
module Geometry {

  /** A rectangle given by its left, top, right and bottom edges (y grows downwards). */
  datatype Rect = Rect(l: real, t: real, r: real, b: real)

  predicate WellFormed(a: Rect) { a.l <= a.r && a.t <= a.b }

  /** The point (x, y) lies in the closed rectangle a. */
  predicate Contains(a: Rect, x: real, y: real)
  {
    a.l <= x <= a.r && a.t <= y <= a.b
  }

  /** Outline of a cloud drawn at (x, y) with the given scale. */
  function CloudBounds(x: real, y: real, scale: real): (box: Rect)
    ensures scale >= 0.0 ==> WellFormed(box) && Contains(box, x, y)
    ensures box.r - box.l == 68.0 * scale && box.b - box.t == 46.0 * scale
  {
    Rect(x + (-16.0) * scale, y + (-24.0) * scale, x + 52.0 * scale, y + 22.0 * scale)
  }

  /** The edges-touching-counts overlap test: false only when one rectangle lies
      strictly to one side of the other. */
  predicate RectsOverlap(a: Rect, b: Rect)
  {
    !(a.r < b.l || a.l > b.r || a.b < b.t || a.t > b.b)
  }

  lemma RectsOverlapSymmetric(a: Rect, b: Rect)
    ensures RectsOverlap(a, b) == RectsOverlap(b, a)
  {
  }

  /** For well-formed rectangles the test means exactly that the closed
      rectangles share a point. */
  lemma RectsOverlapIffCommonPoint(a: Rect, b: Rect)
    requires WellFormed(a) && WellFormed(b)
    ensures RectsOverlap(a, b) <==> exists x, y :: Contains(a, x, y) && Contains(b, x, y)
  {
    if RectsOverlap(a, b) {
      var x := if a.l >= b.l then a.l else b.l;
      var y := if a.t >= b.t then a.t else b.t;
      assert Contains(a, x, y) && Contains(b, x, y);
    }
  }
}

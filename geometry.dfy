/**
 * Rectangles and points in app units (Au), the integer length unit in which
 * layout geometry is expressed. Only the operations the layout coordinator
 * uses are modelled: the corner coordinates, the union of two rectangles,
 * the zero rectangle and the half-open point-containment test of hit testing.
 */
module Geometry {

  /** An app-unit length; unbounded here (servo's `Au` wraps an `i32`). */
  type Au = int

  datatype Point = Point(x: Au, y: Au)

  datatype Size = Size(width: Au, height: Au)

  datatype Rect = Rect(origin: Point, size: Size) {
    function MinX(): Au { origin.x }
    function MinY(): Au { origin.y }
    function MaxX(): Au { origin.x + size.width }
    function MaxY(): Au { origin.y + size.height }
  }

  /** `Au::zero_rect()`: origin (0, 0), size 0 x 0. */
  const ZeroRect: Rect := Rect(Point(0, 0), Size(0, 0))

  function Min(a: Au, b: Au): Au { if a <= b then a else b }

  function Max(a: Au, b: Au): Au { if a <= b then b else a }

  /** `outer` spans at least the corners of `inner` on both axes. */
  predicate Encloses(outer: Rect, inner: Rect)
  {
    && outer.MinX() <= inner.MinX() && inner.MaxX() <= outer.MaxX()
    && outer.MinY() <= inner.MinY() && inner.MaxY() <= outer.MaxY()
  }

  /**
   * `Rect::union`: the rectangle from the smaller of the two top-left corners
   * to the larger of the two bottom-right corners. It is the least rectangle
   * enclosing both arguments.
   */
  function Union(a: Rect, b: Rect): (r: Rect)
    ensures Encloses(r, a) && Encloses(r, b)
    ensures forall c :: Encloses(c, a) && Encloses(c, b) ==> Encloses(c, r)
  {
    var x0 := Min(a.MinX(), b.MinX());
    var y0 := Min(a.MinY(), b.MinY());
    var x1 := Max(a.MaxX(), b.MaxX());
    var y1 := Max(a.MaxY(), b.MaxY());
    Rect(Point(x0, y0), Size(x1 - x0, y1 - y0))
  }

  /**
   * The containment test of hit testing: half-open on both axes, so a point on
   * the left or top edge is inside and a point on the right or bottom edge is not.
   */
  predicate ContainsPoint(r: Rect, x: Au, y: Au)
  {
    x < r.origin.x + r.size.width && r.origin.x <= x &&
    y < r.origin.y + r.size.height && r.origin.y <= y
  }

  lemma ContainsPointHalfOpen(r: Rect)
    requires r.size.width > 0 && r.size.height > 0
    ensures forall y :: r.MinY() <= y < r.MaxY() ==> ContainsPoint(r, r.MinX(), y)
    ensures forall x :: r.MinX() <= x < r.MaxX() ==> ContainsPoint(r, x, r.MinY())
    ensures forall y :: !ContainsPoint(r, r.MaxX(), y)
    ensures forall x :: !ContainsPoint(r, x, r.MaxY())
  {
  }
}

/**
 The value types shared by the layer package: integer points, sizes and
 axis-aligned rectangles in min/max-corner form.
 */
module Geometry {

  /** An integer (x, y) pair. */
  datatype Point = Point(x: int, y: int)

  /** An integer (width, height) pair. */
  datatype Size = Size(width: int, height: int)

  /** Builds a point from its two coordinates. */
  function NewPoint(x: int, y: int): (p: Point)
    ensures p.x == x && p.y == y
  {
    Point(x, y)
  }

  /** Builds a size from its two extents. */
  function NewSize(width: int, height: int): (s: Size)
    ensures s.width == width && s.height == height
  {
    Size(width, height)
  }

  /** The constructors lose nothing: every value is built by exactly one call. */
  lemma ConstructorsAreBijective(p: Point, s: Size)
    ensures NewPoint(p.x, p.y) == p
    ensures NewSize(s.width, s.height) == s
    ensures forall x, y :: NewPoint(x, y) == p <==> x == p.x && y == p.y
    ensures forall w, h :: NewSize(w, h) == s <==> w == s.width && h == s.height
  {
  }

  /** A closed-open interval on one axis. */
  datatype Span = Span(lo: int, hi: int) {
    function Length(): int {
      hi - lo
    }
  }

  /**
   An axis-aligned rectangle given by its minimum and maximum corners. Width
   and height are `max - min`; nothing forces them to be non-negative.
   */
  datatype Rect = Rect(minX: int, minY: int, maxX: int, maxY: int) {

    function Width(): int {
      maxX - minX
    }

    function Height(): int {
      maxY - minY
    }

    /** The extent of the rectangle on the horizontal axis. */
    function XSpan(): Span {
      Span(minX, maxX)
    }

    /** The extent of the rectangle on the vertical axis. */
    function YSpan(): Span {
      Span(minY, maxY)
    }

    /** The same rectangle moved by (dx, dy). */
    function Translate(dx: int, dy: int): (r: Rect)
      ensures r.Width() == Width() && r.Height() == Height()
      ensures r.minX == minX + dx && r.minY == minY + dy
    {
      Rect(minX + dx, minY + dy, maxX + dx, maxY + dy)
    }
  }

  /** Glues a horizontal and a vertical extent into one rectangle. */
  function FromSpans(x: Span, y: Span): (r: Rect)
    ensures r.XSpan() == x && r.YSpan() == y
  {
    Rect(x.lo, y.lo, x.hi, y.hi)
  }
}

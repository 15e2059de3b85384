/** Points and rectangles of the canvas scene. The y axis grows downward, as
    in the scene coordinates the canvas uses. */
module Geometry {

  datatype Point = Point(x: real, y: real)

  /** An axis-aligned rectangle given by its top-left corner and its extent. */
  datatype Rect = Rect(left: real, top: real, width: real, height: real)
  {
    function Right(): real { left + width }

    function Bottom(): real { top + height }

    function Center(): Point { Point(left + width / 2.0, top + height / 2.0) }

    /** A point inside the rectangle or on its edge. */
    predicate Contains(p: Point)
    {
      left <= p.x <= Right() && top <= p.y <= Bottom()
    }
  }

  function Min(a: real, b: real): real { if a <= b then a else b }

  function Max(a: real, b: real): real { if a >= b then a else b }

  /** Two consecutive points of a polyline form a horizontal or a vertical segment. */
  predicate SharesAxis(a: Point, b: Point)
  {
    a.x == b.x || a.y == b.y
  }

  /** Segment `i` of the polyline, from point `i` to point `i + 1`, is
      horizontal or vertical. */
  predicate SegmentSharesAxis(s: seq<Point>, i: int)
    requires 0 <= i < |s| - 1
  {
    SharesAxis(s[i], s[i + 1])
  }

  /** Segment `i` changes exactly one coordinate: it is axis-aligned and of non-zero length. */
  predicate SegmentIsProper(s: seq<Point>, i: int)
    requires 0 <= i < |s| - 1
  {
    (s[i].x == s[i + 1].x) != (s[i].y == s[i + 1].y)
  }

  /** Every segment of the polyline is horizontal or vertical. */
  predicate Rectilinear(s: seq<Point>)
  {
    forall i :: 0 <= i < |s| - 1 ==> SegmentSharesAxis(s, i)
  }

  /** Every segment of the polyline is axis-aligned and of non-zero length. */
  predicate ProperlyRectilinear(s: seq<Point>)
  {
    forall i :: 0 <= i < |s| - 1 ==> SegmentIsProper(s, i)
  }

  /** The same points in the opposite order. */
  function Reverse(s: seq<Point>): seq<Point>
  {
    seq(|s|, i requires 0 <= i < |s| => s[|s| - 1 - i])
  }
}

/** The values the cropping code reads from the face detector and hands to
    the image library: float points grouped into typed contours, and the
    integer pixel points built from them. */
module Landmarks {
  import opened JavaNumerics

  /** A landmark point with `float` coordinates (`android.graphics.PointF`). */
  datatype PointF = PointF(x: real, y: real)

  /** A pixel vertex (`org.opencv.core.Point`) built from two `int` casts, so
      both coordinates are whole numbers in the range of `int`. */
  datatype Point = Point(x: int, y: int)

  /** One contour of a detected face: its integer type code and its points
      in the detector's order. */
  datatype FaceContour = FaceContour(contourType: int, points: seq<PointF>)

  /** A detected face, seen only through `getAllContours()`. */
  datatype Face = Face(allContours: seq<FaceContour>)

  /** `new Point((int) p.x, (int) p.y)`. */
  function TruncatePoint(p: PointF): (q: Point)
    ensures IntMin <= q.x <= IntMax && IntMin <= q.y <= IntMax
    ensures InIntRange(p.x) && 0.0 <= p.x ==> q.x as real <= p.x < q.x as real + 1.0
    ensures InIntRange(p.x) && p.x < 0.0 ==> q.x as real - 1.0 < p.x <= q.x as real
    ensures InIntRange(p.y) && 0.0 <= p.y ==> q.y as real <= p.y < q.y as real + 1.0
    ensures InIntRange(p.y) && p.y < 0.0 ==> q.y as real - 1.0 < p.y <= q.y as real
  {
    Point(NarrowToInt(p.x), NarrowToInt(p.y))
  }
}

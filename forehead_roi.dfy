/** Selection of the forehead polygon in `CropImage.convertToMatrix`: every
    contour of the face is walked with a running point index, and the point
    at each of four (contour type, index) pairs is appended, truncated to
    integers, to the list of vertices that is then filled as the region of
    interest. The zero-initialised `forehead_*` locals of the source are
    written but never read, so they are not part of the model: a missing
    anchor shortens the polygon, it never adds a (0, 0) vertex. */
module ForeheadRoi {
  import opened Landmarks
  import opened Sequences

  /** The (contour type, point index) pairs whose points become vertices:
      a point is appended when one of the loop's four tests holds. */
  predicate IsAnchorSlot(contourType: int, index: int) {
    || (contourType == 1 && index == 33)
    || (contourType == 1 && index == 2)
    || (contourType == 2 && index == 2)
    || (contourType == 4 && index == 2)
  }

  /** The vertices appended while the inner loop visits the first `n` points
      of `c`. The four tests of the loop exclude each other, so a point adds
      one vertex when its (type, index) pair is an anchor slot and none
      otherwise. */
  function ContourPrefixVertices(c: FaceContour, n: nat): (r: seq<Point>)
    requires n <= |c.points|
    ensures r == AnchorVerticesBelow(c, n)
  {
    if n == 0 then []
    else
      AnchorsBelowStep(c, n - 1);
      if IsAnchorSlot(c.contourType, n - 1) then ContourPrefixVertices(c, n - 1) + [TruncatePoint(c.points[n - 1])]
      else ContourPrefixVertices(c, n - 1)
  }

  /** The vertices the inner loop appends for one whole contour: its anchors
      by position (for type 1, index 2 before index 33), one per anchor
      position the contour has. */
  function ContourVertices(c: FaceContour): (r: seq<Point>)
    ensures r == AnchorVertices(c)
    ensures |r| == AnchorCount(c)
  {
    ContourPrefixVertices(c, |c.points|)
  }

  /** The vertex list after the outer loop has visited the contours `cs` in
      order: each contour's anchors by position, contour after contour. */
  function PolygonOf(cs: seq<FaceContour>): (r: seq<Point>)
    ensures r == AnchorPolygon(cs)
  {
    ConcatMapCongruent(cs, ContourVertices, AnchorVertices);
    ConcatMap(cs, ContourVertices)
  }

  /** The polygon `points` handed to the fill for `face`: one vertex per
      anchor position present, by position, contour after contour. */
  function ForeheadPolygon(face: Face): (r: seq<Point>)
    ensures r == AnchorPolygon(face.allContours)
    ensures |r| == AnchorCountOf(face.allContours)
  {
    PolygonLength(face.allContours);
    PolygonOf(face.allContours)
  }

  // ---------------------------------------------------------------------
  // An independent description of the same polygon, by anchor position.

  /** The anchors of `c` among its first `n` points, listed by position. */
  function AnchorVerticesBelow(c: FaceContour, n: nat): seq<Point>
    requires n <= |c.points|
  {
    if (c.contourType == 1 || c.contourType == 2 || c.contourType == 4) && n > 2 then
      if c.contourType == 1 && n > 33 then [TruncatePoint(c.points[2]), TruncatePoint(c.points[33])]
      else [TruncatePoint(c.points[2])]
    else []
  }

  /** The anchors of `c`: for type 1 the points at 2 and 33, in that order;
      for types 2 and 4 the point at 2; each only if the contour is long
      enough to have it. */
  function AnchorVertices(c: FaceContour): seq<Point> {
    AnchorVerticesBelow(c, |c.points|)
  }

  /** The anchors of every contour of `cs`, contour after contour. */
  function AnchorPolygon(cs: seq<FaceContour>): seq<Point> {
    ConcatMap(cs, AnchorVertices)
  }

  /** How many anchor positions contour `c` actually has. */
  function AnchorCount(c: FaceContour): nat {
    var has2 := if |c.points| > 2 then 1 else 0;
    var has33 := if |c.points| > 33 then 1 else 0;
    if c.contourType == 1 then has2 + has33
    else if c.contourType == 2 || c.contourType == 4 then has2
    else 0
  }

  /** How many anchor positions the contours `cs` have together. */
  function AnchorCountOf(cs: seq<FaceContour>): nat {
    if cs == [] then 0 else AnchorCountOf(cs[..|cs| - 1]) + AnchorCount(cs[|cs| - 1])
  }

  /** `v` is the truncated point at anchor position `i` of contour `c`. */
  predicate IsAnchorVertexOf(c: FaceContour, i: int, v: Point) {
    0 <= i < |c.points| && IsAnchorSlot(c.contourType, i) && v == TruncatePoint(c.points[i])
  }

  // ---------------------------------------------------------------------
  // Lemmas

  /** How many vertices the four tests of the inner loop append for the point
      at `index` of a contour of type `contourType`: one per test that holds,
      in the order the source runs them. */
  function TestsPassed(contourType: int, index: int): nat {
    (if contourType == 1 && index == 33 then 1 else 0)
    + (if contourType == 1 && index == 2 then 1 else 0)
    + (if contourType == 2 && index == 2 then 1 else 0)
    + (if contourType == 4 && index == 2 then 1 else 0)
  }

  /** The four tests exclude each other: a point passes at most one of them,
      and it passes one exactly at an anchor slot, so no point is appended
      twice. */
  lemma AnchorTestsExclusive(contourType: int, index: int)
    ensures TestsPassed(contourType, index) <= 1
    ensures TestsPassed(contourType, index) == 1 <==> IsAnchorSlot(contourType, index)
  {
  }

  /** Visiting point `m` adds its vertex exactly when it sits at an anchor slot. */
  lemma AnchorsBelowStep(c: FaceContour, m: nat)
    requires m < |c.points|
    ensures AnchorVerticesBelow(c, m + 1) ==
      if IsAnchorSlot(c.contourType, m) then AnchorVerticesBelow(c, m) + [TruncatePoint(c.points[m])]
      else AnchorVerticesBelow(c, m)
  {
    if m == 33 && c.contourType == 1 {
      assert AnchorVerticesBelow(c, m) == [TruncatePoint(c.points[2])];
    }
  }

  /** The outer loop distributes over a split of the contour list. */
  lemma PolygonOfAppend(a: seq<FaceContour>, b: seq<FaceContour>)
    ensures PolygonOf(a + b) == PolygonOf(a) + PolygonOf(b)
  {
    ConcatMapAppend(a, b, ContourVertices);
  }

  /** The polygon has exactly one vertex per anchor position present, so a
      missing or too-short contour makes it shorter and nothing else. */
  lemma {:induction false} PolygonLength(cs: seq<FaceContour>)
    ensures |PolygonOf(cs)| == AnchorCountOf(cs)
  {
    if cs != [] {
      PolygonLength(cs[..|cs| - 1]);
    }
  }

  lemma ContourVertexIff(c: FaceContour, v: Point)
    ensures v in ContourVertices(c) <==> exists i :: IsAnchorVertexOf(c, i, v)
  {
    if v in ContourVertices(c) {
      if |c.points| > 2 && v == TruncatePoint(c.points[2]) {
        assert IsAnchorVertexOf(c, 2, v);
      } else {
        assert IsAnchorVertexOf(c, 33, v);
      }
    }
  }

  lemma PolygonVertexSound(cs: seq<FaceContour>, v: Point)
    requires v in PolygonOf(cs)
    ensures exists j, i :: 0 <= j < |cs| && IsAnchorVertexOf(cs[j], i, v)
  {
    ConcatMapMember(cs, ContourVertices, v);
    var j :| 0 <= j < |cs| && v in ContourVertices(cs[j]);
    ContourVertexIff(cs[j], v);
    var i :| IsAnchorVertexOf(cs[j], i, v);
  }

  lemma PolygonVertexComplete(cs: seq<FaceContour>, j: int, i: int, v: Point)
    requires 0 <= j < |cs| && IsAnchorVertexOf(cs[j], i, v)
    ensures v in PolygonOf(cs)
  {
    ContourVertexIff(cs[j], v);
    ConcatMapMember(cs, ContourVertices, v);
  }

  /** A point is a vertex of the polygon exactly when it is the truncation of
      a point found at an anchor position of some contour. In particular
      the zero defaults of the source never reach the polygon. */
  lemma PolygonVertexIff(cs: seq<FaceContour>, v: Point)
    ensures v in PolygonOf(cs) <==>
      exists j, i :: 0 <= j < |cs| && IsAnchorVertexOf(cs[j], i, v)
  {
    if v in PolygonOf(cs) {
      PolygonVertexSound(cs, v);
    }
    if exists j, i :: 0 <= j < |cs| && IsAnchorVertexOf(cs[j], i, v) {
      var j, i :| 0 <= j < |cs| && IsAnchorVertexOf(cs[j], i, v);
      PolygonVertexComplete(cs, j, i, v);
    }
  }

  /** With no anchor point truncating to (0, 0), the origin is not a vertex. */
  lemma NoZeroDefaultVertex(cs: seq<FaceContour>)
    requires forall j, i | 0 <= j < |cs| && 0 <= i < |cs[j].points| && IsAnchorSlot(cs[j].contourType, i)
      :: TruncatePoint(cs[j].points[i]) != Point(0, 0)
    ensures Point(0, 0) !in PolygonOf(cs)
  {
    PolygonVertexIff(cs, Point(0, 0));
  }

  /** Contours of no anchor type contribute nothing. */
  lemma NonAnchorContoursAddNothing(cs: seq<FaceContour>)
    requires forall j | 0 <= j < |cs| :: cs[j].contourType !in {1, 2, 4}
    ensures PolygonOf(cs) == []
  {
    ConcatMapEmpty(cs, ContourVertices);
  }

  /** For a face whose contours come as type 1, type 2, others, type 4,
      others, with all anchors present, the polygon is the quadrilateral
      (type 1 at 2, type 1 at 33, type 2 at 2, type 4 at 2) in that order. */
  lemma FullForeheadQuad(face: Face, oval: FaceContour, top2: FaceContour, between: seq<FaceContour>,
                         top4: FaceContour, after: seq<FaceContour>)
    requires face.allContours == [oval, top2] + between + [top4] + after
    requires oval.contourType == 1 && |oval.points| > 33
    requires top2.contourType == 2 && |top2.points| > 2
    requires top4.contourType == 4 && |top4.points| > 2
    requires forall j | 0 <= j < |between| :: between[j].contourType !in {1, 2, 4}
    requires forall j | 0 <= j < |after| :: after[j].contourType !in {1, 2, 4}
    ensures ForeheadPolygon(face) == [TruncatePoint(oval.points[2]), TruncatePoint(oval.points[33]),
                                      TruncatePoint(top2.points[2]), TruncatePoint(top4.points[2])]
  {
    NonAnchorContoursAddNothing(between);
    NonAnchorContoursAddNothing(after);
    ConcatMapSkipsEmptyRuns(oval, top2, between, top4, after, ContourVertices);
  }

  // ---------------------------------------------------------------------
  // The loops of `convertToMatrix` that build `points`.

  /** The inner loop of `convertToMatrix`: walks the points of `contour`
      with a running index and appends the truncated point at each anchor
      position to `points`. */
  method AppendContourAnchors(points: seq<Point>, contour: FaceContour) returns (extended: seq<Point>)
    ensures extended == points + ContourVertices(contour)
  {
    extended := points;
    var count := 0;
    while count < |contour.points|
      invariant 0 <= count <= |contour.points|
      invariant extended == points + ContourPrefixVertices(contour, count)
    {
      var point := contour.points[count];
      if contour.contourType == 1 && count == 33 {
        extended := extended + [TruncatePoint(point)];
      }
      if contour.contourType == 1 && count == 2 {
        extended := extended + [TruncatePoint(point)];
      }
      if contour.contourType == 2 && count == 2 {
        extended := extended + [TruncatePoint(point)];
      }
      if contour.contourType == 4 && count == 2 {
        extended := extended + [TruncatePoint(point)];
      }
      count := count + 1;
    }
  }

  /** The outer loop of `convertToMatrix`: visits every contour of the face
      in order and appends its anchor points. */
  method CollectForeheadPoints(face: Face) returns (points: seq<Point>)
    ensures points == ForeheadPolygon(face)
    ensures |points| == AnchorCountOf(face.allContours)
  {
    var contours := face.allContours;
    points := [];
    var j := 0;
    while j < |contours|
      invariant 0 <= j <= |contours|
      invariant points == ConcatMap(contours[..j], ContourVertices)
    {
      points := AppendContourAnchors(points, contours[j]);
      assert points == ConcatMap(contours[..j + 1], ContourVertices) by {
        assert contours[..j + 1] == contours[..j] + [contours[j]];
        ConcatMapSnoc(contours[..j], contours[j], ContourVertices);
      }
      j := j + 1;
    }
    assert contours[..j] == contours;
  }
}

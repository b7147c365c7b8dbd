/** Arithmetic of the perspective calibrator: extending the two lateral edges
    of the clicked quadrilateral down to the row y = image height, and the
    destination rectangle of the preview transform.

    Clicked points are integer pixel positions; the extended coordinates are
    exact reals. numpy's float64 division yields inf or NaN on a horizontal
    edge, which the model keeps apart as `NonFinite`. */
module Geometry {

  /** A pixel position delivered by the mouse callback: column x, row y. */
  datatype Point = Point(x: int, y: int)

  /** One coordinate of the float64 source array: an exact value, or the
      inf/NaN that a division by a zero slope produces. */
  datatype Coord = Finite(value: real) | NonFinite

  /** One row of the source array. Its y is always a finite value. */
  datatype SourcePoint = SourcePoint(x: Coord, y: real)

  /** (x, y) lies on the line through a and b (their cross product is zero). */
  predicate OnLine(a: Point, b: Point, x: real, y: real)
  {
    (x - a.x as real) * (b.y - a.y) as real == (y - a.y as real) * (b.x - a.x) as real
  }

  /** The column where the line through `top` and `bottom` meets `row`,
      for an edge that is not horizontal. */
  function ExtendedX(top: Point, bottom: Point, row: int): (x: real)
    requires top.y != bottom.y
    ensures OnLine(top, bottom, x, row as real)
    ensures top.x == bottom.x ==> x == top.x as real
  {
    top.x as real + (row - top.y) as real * (bottom.x - top.x) as real / (bottom.y - top.y) as real
  }

  /** ExtendedX is the only point of the line on that row. */
  lemma ExtendedXUnique(top: Point, bottom: Point, row: int, x: real)
    requires top.y != bottom.y
    ensures OnLine(top, bottom, x, row as real) <==> x == ExtendedX(top, bottom, row)
  {
  }

  /** The formula as the calibrator writes it: x1 + (y - y1) / slope, with
      slope = dy / dx. It is defined only when the edge is neither vertical
      nor horizontal. */
  function SlopeX(top: Point, bottom: Point, row: int): real
    requires top.x != bottom.x && top.y != bottom.y
  {
    var slope := (bottom.y - top.y) as real / (bottom.x - top.x) as real;
    top.x as real + (row - top.y) as real / slope
  }

  /** Where the slope form is defined, it gives the same column as ExtendedX. */
  lemma SlopeXAgrees(top: Point, bottom: Point, row: int)
    requires top.x != bottom.x && top.y != bottom.y
    ensures SlopeX(top, bottom, row) == ExtendedX(top, bottom, row)
  {
  }

  /** The extended column of one lateral edge, as the source array holds it. */
  function ExtendEdge(top: Point, bottom: Point, row: int): (x: Coord)
    ensures x.Finite? <==> top.y != bottom.y
    ensures x.Finite? ==> OnLine(top, bottom, x.value, row as real)
    ensures x.Finite? && top.x == bottom.x ==> x.value == top.x as real
  {
    if top.y == bottom.y then NonFinite else Finite(ExtendedX(top, bottom, row))
  }

  /** A clicked point as a row of the float64 source array. */
  function Lift(p: Point): SourcePoint
  {
    SourcePoint(Finite(p.x as real), p.y as real)
  }

  /** The lateral edge from clicked point `top` through clicked point `bottom`
      is represented by `s`: s lies on the given row and, when finite, on the
      edge's line; it is non-finite exactly when the edge is horizontal. */
  ghost predicate ExtendsEdge(top: Point, bottom: Point, row: int, s: SourcePoint)
  {
    s.y == row as real &&
    (s.x.Finite? <==> top.y != bottom.y) &&
    (s.x.Finite? ==> OnLine(top, bottom, s.x.value, row as real))
  }

  /** What the source quadrilateral is, independently of how it is computed:
      the clicked top-left and top-right corners, then the right edge
      (clicked[1] to clicked[2]) and the left edge (clicked[0] to clicked[3])
      extended to the row `height`, in that order. */
  ghost predicate IsSourceQuad(clicked: seq<Point>, height: int, s: seq<SourcePoint>)
    requires |clicked| == 4
  {
    |s| == 4 &&
    s[0] == Lift(clicked[0]) && s[1] == Lift(clicked[1]) &&
    ExtendsEdge(clicked[1], clicked[2], height, s[2]) &&
    ExtendsEdge(clicked[0], clicked[3], height, s[3])
  }

  /** The source quadrilateral computed from the four clicked points
      (top-left, top-right, bottom-right, bottom-left) and the image height. */
  function SourcePoints(clicked: seq<Point>, height: int): (s: seq<SourcePoint>)
    requires |clicked| == 4
    ensures IsSourceQuad(clicked, height, s)
  {
    var rightX := ExtendEdge(clicked[1], clicked[2], height);
    var leftX := ExtendEdge(clicked[0], clicked[3], height);
    [Lift(clicked[0]), Lift(clicked[1]),
     SourcePoint(rightX, height as real), SourcePoint(leftX, height as real)]
  }

  /** The geometric description pins the source quadrilateral down: any
      quadrilateral that satisfies it is the computed one. */
  lemma SourcePointsUnique(clicked: seq<Point>, height: int, s: seq<SourcePoint>)
    requires |clicked| == 4
    ensures IsSourceQuad(clicked, height, s) <==> s == SourcePoints(clicked, height)
  {
    if IsSourceQuad(clicked, height, s) {
      var r := SourcePoints(clicked, height);
      if s[2].x.Finite? {
        ExtendedXUnique(clicked[1], clicked[2], height, s[2].x.value);
      }
      if s[3].x.Finite? {
        ExtendedXUnique(clicked[0], clicked[3], height, s[3].x.value);
      }
      assert s[2] == r[2] && s[3] == r[3];
      assert s == r;
    }
  }

  /** Every x coordinate of `s` is finite, so `int()` can convert each row. */
  predicate AllFinite(s: seq<SourcePoint>)
  {
    forall k :: 0 <= k < |s| ==> s[k].x.Finite?
  }

  /** The source quadrilateral is all finite exactly when neither lateral edge
      is horizontal. */
  lemma SourcePointsFinite(clicked: seq<Point>, height: int)
    requires |clicked| == 4
    ensures AllFinite(SourcePoints(clicked, height)) <==>
            clicked[1].y != clicked[2].y && clicked[0].y != clicked[3].y
  {
  }

  /** A horizontal right edge (clicks (10,0) and (20,0)) leaves the source
      quadrilateral with a non-finite coordinate. */
  lemma HorizontalEdgeExample()
    ensures !AllFinite(SourcePoints([Point(0, 0), Point(10, 0), Point(20, 0), Point(0, 50)], 100))
  {
  }

  /** Two worked examples: a vertical left edge
      stays on its column, a 45-degree edge reaches column 20 at row 20. */
  lemma ExtensionExamples()
    ensures ExtendEdge(Point(0, 0), Point(0, 10), 20) == Finite(0.0)
    ensures ExtendEdge(Point(0, 0), Point(10, 10), 20) == Finite(20.0)
  {
  }

  /** Width of the preview: height * 0.5 truncated to an integer. */
  function PreviewWidth(height: nat): (w: nat)
    ensures w as real <= height as real * 0.5 < w as real + 1.0
  {
    height / 2
  }

  /** The preview's destination corners, in the same order as the source
      quadrilateral: top-left, top-right, bottom-right, bottom-left. */
  function TargetRectangle(height: nat): (r: seq<Point>)
    ensures |r| == 4
    // top edge on row 0, bottom edge on the last row of the preview
    ensures r[0].y == r[1].y == 0 && r[2].y == r[3].y == height - 1
    // left edge on column 0, right edge on the last column of the preview
    ensures r[0].x == r[3].x == 0 && r[1].x == r[2].x == PreviewWidth(height) - 1
    // every corner is a pixel of the width x height preview image
    ensures height >= 2 ==> forall i :: 0 <= i < 4 ==>
      0 <= r[i].x < PreviewWidth(height) && 0 <= r[i].y < height
    // clockwise order: left before right, top above bottom
    ensures height >= 4 ==> r[0].x < r[1].x && r[3].x < r[2].x && r[0].y < r[3].y && r[1].y < r[2].y
  {
    var w := PreviewWidth(height);
    [Point(0, 0), Point(w - 1, 0), Point(w - 1, height - 1), Point(0, height - 1)]
  }
}

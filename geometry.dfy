/**
 * Page geometry shared by the pipelines: axis-aligned boxes in page points
 * (origin top left, y growing downward), their closed-interval overlap test,
 * the conversion of an OCR quadrilateral to a box, the centred estimate of
 * an embedded image's box and the doubling used when drawing on a page
 * rendered at twice its size.
 */
module Geometry {

  import opened Wrappers

  /** `[x1, y1, x2, y2]` */
  datatype BBox = BBox(x1: real, y1: real, x2: real, y2: real)

  datatype Point = Point(x: real, y: real)

  predicate WellFormed(b: BBox) {
    b.x1 <= b.x2 && b.y1 <= b.y2
  }

  predicate Inside(p: Point, b: BBox) {
    b.x1 <= p.x <= b.x2 && b.y1 <= p.y <= b.y2
  }

  function Max(a: real, b: real): real { if a < b then b else a }

  function Min(a: real, b: real): real { if a < b then a else b }

  /** A quotient lies between `lo` and `hi` when the dividend lies between
      `n * lo` and `n * hi`. */
  lemma DivideBetween(s: real, n: real, lo: real, hi: real)
    requires n > 0.0 && n * lo <= s <= n * hi
    ensures lo <= s / n <= hi
  {
    var q := s / n;
    assert s == q * n;
  }

  /** `_bbox_overlap`: the boxes are not separated along either axis, so the
      two closed x-intervals meet and the two closed y-intervals meet. */
  function Overlap(a: BBox, b: BBox): (r: bool)
    ensures r <==> a.x1 <= b.x2 && b.x1 <= a.x2 && a.y1 <= b.y2 && b.y1 <= a.y2
  {
    !(a.x2 < b.x1 || b.x2 < a.x1 || a.y2 < b.y1 || b.y2 < a.y1)
  }

  lemma OverlapSymmetric(a: BBox, b: BBox)
    ensures Overlap(a, b) == Overlap(b, a)
  {
  }

  /** Two well-formed boxes overlap exactly when some point lies in both,
      boundary included: boxes that only touch along an edge overlap. */
  lemma OverlapIffCommonPoint(a: BBox, b: BBox)
    requires WellFormed(a) && WellFormed(b)
    ensures Overlap(a, b) <==> exists p :: Inside(p, a) && Inside(p, b)
  {
    if Overlap(a, b) {
      var p := Point(Max(a.x1, b.x1), Max(a.y1, b.y1));
      assert Inside(p, a) && Inside(p, b);
    }
  }

  /** A well-formed box overlaps itself. */
  lemma OverlapReflexive(a: BBox)
    requires WellFormed(a)
    ensures Overlap(a, a)
  {
  }

  /** Smallest x among the corner points. */
  function MinX(ps: seq<Point>): real
    requires |ps| > 0
  {
    if |ps| == 1 then ps[0].x else Min(ps[0].x, MinX(ps[1..]))
  }

  function MaxX(ps: seq<Point>): real
    requires |ps| > 0
  {
    if |ps| == 1 then ps[0].x else Max(ps[0].x, MaxX(ps[1..]))
  }

  function MinY(ps: seq<Point>): real
    requires |ps| > 0
  {
    if |ps| == 1 then ps[0].y else Min(ps[0].y, MinY(ps[1..]))
  }

  function MaxY(ps: seq<Point>): real
    requires |ps| > 0
  {
    if |ps| == 1 then ps[0].y else Max(ps[0].y, MaxY(ps[1..]))
  }

  /** The four extremes are attained by corner points and bound them all. */
  lemma {:induction false} ExtremesSpec(ps: seq<Point>)
    requires |ps| > 0
    ensures forall i :: 0 <= i < |ps| ==> MinX(ps) <= ps[i].x <= MaxX(ps) && MinY(ps) <= ps[i].y <= MaxY(ps)
    ensures exists i :: 0 <= i < |ps| && MinX(ps) == ps[i].x
    ensures exists i :: 0 <= i < |ps| && MaxX(ps) == ps[i].x
    ensures exists i :: 0 <= i < |ps| && MinY(ps) == ps[i].y
    ensures exists i :: 0 <= i < |ps| && MaxY(ps) == ps[i].y
  {
    if |ps| > 1 {
      ExtremesSpec(ps[1..]);
      assert forall i :: 1 <= i < |ps| ==> ps[i] == ps[1..][i - 1];
    }
  }

  /** An OCR quadrilateral, found on the page rendered at twice its size,
      brought back to page points: the bounding box of the corners, halved.
      Python's `min`/`max` raise on an empty point list, hence the requires. */
  function QuadToBox(quad: seq<Point>): BBox
    requires |quad| > 0
  {
    BBox(MinX(quad) / 2.0, MinY(quad) / 2.0, MaxX(quad) / 2.0, MaxY(quad) / 2.0)
  }

  /** The box is well formed, holds every halved corner, and each of its
      sides passes through a halved corner. */
  lemma QuadToBoxSpec(quad: seq<Point>)
    requires |quad| > 0
    ensures var b := QuadToBox(quad);
      WellFormed(b)
      && (forall i :: 0 <= i < |quad| ==> Inside(Point(quad[i].x / 2.0, quad[i].y / 2.0), b))
      && (exists i :: 0 <= i < |quad| && b.x1 == quad[i].x / 2.0)
      && (exists i :: 0 <= i < |quad| && b.y1 == quad[i].y / 2.0)
      && (exists i :: 0 <= i < |quad| && b.x2 == quad[i].x / 2.0)
      && (exists i :: 0 <= i < |quad| && b.y2 == quad[i].y / 2.0)
  {
    ExtremesSpec(quad);
  }

  /** Page size, as PyMuPDF's `page.rect`. */
  datatype PageRect = PageRect(width: real, height: real)

  /** `_estimate_image_bbox`: an image of `pixWidth` x `pixHeight` pixels is
      placed centred horizontally, starting 30% down the page, and capped at
      80% of the page width and 60% of its height.  `None` stands for a page
      whose rectangle cannot be read; then the fixed box [100, 200, 400, 500]
      is used. */
  function EstimateImageBox(page: Option<PageRect>, pixWidth: real, pixHeight: real): (b: BBox)
    ensures page.None? ==> b == BBox(100.0, 200.0, 400.0, 500.0)
    ensures page.Some? ==> b.x1 + b.x2 == page.value.width
    ensures page.Some? ==> b.x2 - b.x1 <= 0.8 * page.value.width
    ensures page.Some? ==> b.y1 == 0.3 * page.value.height
    ensures page.Some? ==> b.y2 <= 0.9 * page.value.height
    ensures page.Some? ==> b.y2 - b.y1 <= 0.6 * page.value.height
    ensures page.Some? && pixWidth <= 0.8 * page.value.width ==> b.x2 - b.x1 == pixWidth
    ensures page.Some? && pixHeight <= 0.6 * page.value.height ==> b.y2 - b.y1 == pixHeight
  {
    match page
    case None => BBox(100.0, 200.0, 400.0, 500.0)
    case Some(rect) =>
      var w := Min(pixWidth, rect.width * 0.8);
      var h := Min(pixHeight, rect.height * 0.6);
      var x1 := (rect.width - w) / 2.0;
      var y1 := rect.height * 0.3;
      BBox(x1, y1, x1 + w, y1 + h)
  }

  /** A well-formed estimate on a page of non-negative size with an image
      of non-negative size also lies on the page. */
  lemma EstimateOnPage(rect: PageRect, pixWidth: real, pixHeight: real)
    requires rect.width >= 0.0 && rect.height >= 0.0
    requires pixWidth >= 0.0 && pixHeight >= 0.0
    ensures var b := EstimateImageBox(Some(rect), pixWidth, pixHeight);
      WellFormed(b) && 0.0 <= b.x1 && b.x2 <= rect.width && 0.0 <= b.y1 && b.y2 <= rect.height
  {
  }

  /** `[coord * 2 for coord in bbox]` */
  function Scale2(b: BBox): (r: BBox)
    ensures r.x2 - r.x1 == 2.0 * (b.x2 - b.x1) && r.y2 - r.y1 == 2.0 * (b.y2 - b.y1)
    ensures r.x1 == 2.0 * b.x1 && r.y1 == 2.0 * b.y1
    ensures WellFormed(b) <==> WellFormed(r)
  {
    BBox(2.0 * b.x1, 2.0 * b.y1, 2.0 * b.x2, 2.0 * b.y2)
  }

  /** Doubling the box of a point doubles the point's position in the box. */
  lemma Scale2Inside(p: Point, b: BBox)
    ensures Inside(p, b) <==> Inside(Point(2.0 * p.x, 2.0 * p.y), Scale2(b))
  {
  }
}

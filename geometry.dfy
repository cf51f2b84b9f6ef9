/** Plane geometry shared by the views and the segmentation engine:
    `CGPoint`, `CGSize` and the `fromSize`/`toSize` extension of
    SAM2-Demo/Views/ImageView.swift. Coordinates are exact reals. */
module Geometry {

  datatype Point2 = Point2(x: real, y: real)

  datatype Size = Size(width: real, height: real)

  const Zero: Point2 := Point2(0.0, 0.0)

  predicate NonDegenerate(s: Size) {
    s.width != 0.0 && s.height != 0.0
  }

  /** `CGPoint.fromSize`: divides each component by the matching extent. */
  function FromSize(p: Point2, s: Size): (r: Point2)
    requires NonDegenerate(s)
    ensures r.x * s.width == p.x && r.y * s.height == p.y
  {
    Point2(p.x / s.width, p.y / s.height)
  }

  /** `CGPoint.toSize`: multiplies each component by the matching extent. */
  function ToSize(p: Point2, s: Size): (r: Point2)
    ensures NonDegenerate(s) ==> FromSize(r, s) == p
  {
    Point2(p.x * s.width, p.y * s.height)
  }

  /** Scaling back a point that was normalised to a size gives the point back. */
  lemma ToSizeFromSize(p: Point2, s: Size)
    requires NonDegenerate(s)
    ensures ToSize(FromSize(p, s), s) == p
  {
  }
}

/** The geometry and style value types of the drawing model. */
module Graphics {

  datatype Point = Point(x: real, y: real)

  datatype Size = Size(width: real, height: real) {
    /** The larger of the two extents. */
    function Max(): (m: real)
      ensures m >= width && m >= height
      ensures m == width || m == height
    {
      if width >= height then width else height
    }
  }

  datatype Rect = Rect(position: Point, size: Size)

  /** `p + q` on points. */
  function Add(p: Point, q: Point): Point {
    Point(p.x + q.x, p.y + q.y)
  }

  /** `p * s`: a point scaled component-wise by a size. */
  function Scale(p: Point, s: Size): Point {
    Point(p.x * s.width, p.y * s.height)
  }

  /** A colour; its packed `Argb` integer is computed by code outside this model. */
  datatype Color = Color(a: int, r: int, g: int, b: int)

  datatype Pen = Pen(color: Color, width: real)

  datatype FillMode = NonZero | EvenOdd

  datatype GradientStop = GradientStop(offset: real, color: Color)

  /**
   * The brush variants.  OtherBrush stands for any other subclass of the
   * brush base class, which the Android backend does not recognise.
   */
  datatype Brush =
    | SolidBrush(color: Color, fillMode: FillMode)
    | LinearGradientBrush(stops: seq<GradientStop>, absolute: bool, start: Point, end: Point)
    | RadialGradientBrush(stops: seq<GradientStop>, absolute: bool, center: Point, radius: Size)
    | OtherBrush

  /**
   * The path operations.  OtherOp stands for an operation kind that a
   * backend walker does not recognise.
   */
  datatype PathOp =
    | MoveTo(start: Point, end: Point)
    | LineTo(start: Point, end: Point)
    | ArcTo(point: Point)
    | CurveTo(start: Point, firstControlPoint: Point, secondControlPoint: Point, end: Point)
    | ClosePath
    | OtherOp

  datatype TextAlignment = Left | Center | Right
}

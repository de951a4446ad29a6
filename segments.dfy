/** The cubic Bézier segment of an SVG path: four points, one CurveTo, and its path-data text. */
module Segments {
  import opened Graphics

  /** The calls a segment makes on the NGraphics path it is added to. */
  datatype PathCall = CurveToCall(start: Point, firstControlPoint: Point, secondControlPoint: Point, end: Point)

  /** The NGraphics path, as the calls made on it. */
  class PathRecorder {
    var calls: seq<PathCall>

    constructor ()
      ensures calls == []
    {
      calls := [];
    }

    /** Path.CurveTo(start, c1, c2, end). */
    method CurveTo(start: Point, c1: Point, c2: Point, end: Point)
      modifies this
      ensures calls == old(calls) + [CurveToCall(start, c1, c2, end)]
    {
      calls := calls + [CurveToCall(start, c1, c2, end)];
    }
  }

  class SvgCubicCurveSegment {
    var start: Point
    var end: Point
    var firstControlPoint: Point
    var secondControlPoint: Point

    /** Each argument goes to the property of the same role. */
    constructor (start: Point, firstControlPoint: Point, secondControlPoint: Point, end: Point)
      ensures this.start == start && this.end == end
      ensures this.firstControlPoint == firstControlPoint && this.secondControlPoint == secondControlPoint
    {
      this.start := start;
      this.end := end;
      this.firstControlPoint := firstControlPoint;
      this.secondControlPoint := secondControlPoint;
    }

    /** The FirstControlPoint setter. */
    method SetFirstControlPoint(p: Point)
      modifies this
      ensures firstControlPoint == p
      ensures start == old(start) && end == old(end) && secondControlPoint == old(secondControlPoint)
    {
      firstControlPoint := p;
    }

    /** The SecondControlPoint setter. */
    method SetSecondControlPoint(p: Point)
      modifies this
      ensures secondControlPoint == p
      ensures start == old(start) && end == old(end) && firstControlPoint == old(firstControlPoint)
    {
      secondControlPoint := p;
    }

    /** One CurveTo on the path, from the start through both control points to the end. */
    method AddToPath(path: PathRecorder)
      modifies path
      ensures path.calls == old(path.calls) + [CurveToCall(start, firstControlPoint, secondControlPoint, end)]
    {
      path.CurveTo(start, firstControlPoint, secondControlPoint, end);
    }

    /**
     * ToString: "C", then the two control points and the end, each in the
     * SVG encoding svg of Point.ToSvgString, separated by single spaces.
     */
    function ToString(svg: Point -> string): (s: string)
      reads this
      ensures |s| == 3 + |svg(firstControlPoint)| + |svg(secondControlPoint)| + |svg(end)|
      ensures s[0] == 'C'
    {
      "C" + svg(firstControlPoint) + " " + svg(secondControlPoint) + " " + svg(end)
    }
  }

  /**
   * The start point is never printed: segments that agree on the control
   * points and the end print alike.
   */
  lemma StartNotPrinted(a: SvgCubicCurveSegment, b: SvgCubicCurveSegment, svg: Point -> string)
    requires a.firstControlPoint == b.firstControlPoint && a.secondControlPoint == b.secondControlPoint
    requires a.end == b.end
    ensures a.ToString(svg) == b.ToString(svg)
  {
  }

  /** Where each encoded point sits in the text: after "C", and after each separating space. */
  lemma ToStringLayout(seg: SvgCubicCurveSegment, svg: Point -> string)
    ensures var s, c1, c2 := seg.ToString(svg), svg(seg.firstControlPoint), svg(seg.secondControlPoint);
      s[1..1 + |c1|] == c1 && s[1 + |c1|] == ' ' &&
      s[2 + |c1|..2 + |c1| + |c2|] == c2 && s[2 + |c1| + |c2|] == ' ' &&
      s[3 + |c1| + |c2|..] == svg(seg.end)
  {
    var c1, c2, e := svg(seg.firstControlPoint), svg(seg.secondControlPoint), svg(seg.end);
    var s := seg.ToString(svg);
    assert s == "C" + c1 + " " + c2 + " " + e;
    assert s[1..1 + |c1|] == c1;
    assert s[2 + |c1|..2 + |c1| + |c2|] == c2;
    assert s[3 + |c1| + |c2|..] == e;
  }
}

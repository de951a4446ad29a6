/**
 * The logic of the Android backend around the native drawing API: the walk
 * that turns path operations into native path commands and bounding-box
 * points, the paint set up for each brush and pen, the order of the fill
 * and stroke draws, and the pixel copy of CreateImage.  The native canvas is
 * the log of the draw calls made on it.
 */
module Android {
  import opened Wrappers
  import opened Graphics
  import opened Fonts

  /**
   * The native and NGraphics collaborators whose code is not part of this
   * model: Color.Argb, BoundingBoxBuilder.BoundingBox, the radial brush's
   * GetAbsoluteCenter and GetAbsoluteRadius, and the text measurements of a
   * paint (MeasureText, GetFontMetrics).
   */
  datatype Natives = Natives(
    argb: Color -> int,
    boundingBox: seq<Point> -> Rect,
    absoluteCenter: (Brush, Rect) -> Point,
    absoluteRadius: (Brush, Rect) -> Size,
    measureText: (PaintValue, string) -> real,
    ascent: PaintValue -> real,
    descent: PaintValue -> real)

  datatype PaintStyle = Fill | Stroke
  datatype Align = AlignLeft | AlignCenter | AlignRight
  datatype FillType = Winding | EvenOddFill
  datatype Typeface = Typeface(family: string, bold: bool)

  /** A gradient shader: its geometry, then the colours and their positions, in stop order. */
  datatype Shader =
    | LinearShader(p1: Point, p2: Point, colors: seq<int>, positions: seq<real>)
    | RadialShader(center: Point, radius: real, colors: seq<int>, positions: seq<real>)

  /** The state of a native paint; None is a setting this code never made. */
  datatype PaintValue = PaintValue(
    style: Option<PaintStyle>,
    color: Option<Color>,
    strokeWidth: Option<real>,
    shader: Option<Shader>,
    textAlign: Option<Align>,
    textSize: Option<real>,
    typeface: Option<Typeface>)

  /** A freshly made paint. */
  const Blank := PaintValue(None, None, None, None, None, None, None)

  /** The native paint object. */
  class Paint {
    var style: Option<PaintStyle>
    var color: Option<Color>
    var strokeWidth: Option<real>
    var shader: Option<Shader>
    var textAlign: Option<Align>
    var textSize: Option<real>
    var typeface: Option<Typeface>

    function Value(): PaintValue
      reads this
    {
      PaintValue(style, color, strokeWidth, shader, textAlign, textSize, typeface)
    }

    constructor ()
      ensures Value() == Blank
    {
      style, color, strokeWidth, shader := None, None, None, None;
      textAlign, textSize, typeface := None, None, None;
    }
  }

  // ----- GetPathFillType -----

  /** The native fill type of a fill mode: EvenOdd to EvenOdd, anything else to Winding. */
  function GetPathFillType(mode: FillMode): (t: FillType)
    ensures t == EvenOddFill <==> mode == EvenOdd
    ensures t == Winding <==> mode != EvenOdd
  {
    match mode
    case EvenOdd => EvenOddFill
    case _ => Winding
  }

  // ----- AddBrushPaint -----

  /** The stop offsets, in order. */
  function Offsets(stops: seq<GradientStop>): (r: seq<real>)
    ensures |r| == |stops| && forall i :: 0 <= i < |stops| ==> r[i] == stops[i].offset
  {
    seq(|stops|, i requires 0 <= i < |stops| => stops[i].offset)
  }

  /** The packed stop colours, in order. */
  function Colors(stops: seq<GradientStop>, argb: Color -> int): (r: seq<int>)
    ensures |r| == |stops| && forall i :: 0 <= i < |stops| ==> r[i] == argb(stops[i].color)
  {
    seq(|stops|, i requires 0 <= i < |stops| => argb(stops[i].color))
  }

  /** A linear gradient endpoint: as given when absolute, else relative to the frame. */
  function GradientPoint(p: Point, absolute: bool, frame: Rect): Point {
    if absolute then p else Add(frame.position, Scale(p, frame.size))
  }

  /**
   * The paint after AddBrushPaint, on values: the style is always set to
   * fill; a solid brush sets the colour; a gradient with at least two stops
   * sets a shader, with fewer nothing more; any other brush kind is a
   * NotSupportedException (None).
   */
  function ApplyBrush(p: PaintValue, brush: Brush, frame: Rect, n: Natives): Option<PaintValue> {
    var filled := p.(style := Some(Fill));
    match brush
    case SolidBrush(c, _) => Some(filled.(color := Some(c)))
    case LinearGradientBrush(stops, absolute, start, end) =>
      if |stops| >= 2 then
        Some(filled.(shader := Some(LinearShader(GradientPoint(start, absolute, frame), GradientPoint(end, absolute, frame),
                                                 Colors(stops, n.argb), Offsets(stops)))))
      else Some(filled)
    case RadialGradientBrush(stops, _, _, _) =>
      if |stops| >= 2 then
        Some(filled.(shader := Some(RadialShader(n.absoluteCenter(brush, frame), n.absoluteRadius(brush, frame).Max(),
                                                 Colors(stops, n.argb), Offsets(stops)))))
      else Some(filled)
    case OtherBrush => None
  }

  /** The two arrays the gradient branches fill, one entry per stop, in order. */
  method StopArrays(stops: seq<GradientStop>, argb: Color -> int) returns (locs: array<real>, comps: array<int>)
    ensures fresh(locs) && fresh(comps)
    ensures locs[..] == Offsets(stops) && comps[..] == Colors(stops, argb)
  {
    var n := |stops|;
    locs := new real[n];
    comps := new int[n];
    for i := 0 to n
      invariant forall k :: 0 <= k < i ==> locs[k] == stops[k].offset && comps[k] == argb(stops[k].color)
    {
      locs[i] := stops[i].offset;
      comps[i] := argb(stops[i].color);
    }
  }

  /** AddBrushPaint: sets up paint for brush over frame; ok is false when the brush kind is not supported. */
  method AddBrushPaint(paint: Paint, brush: Brush, frame: Rect, n: Natives) returns (ok: bool)
    modifies paint
    ensures ok == !brush.OtherBrush?
    ensures ok ==> paint.Value() == ApplyBrush(old(paint.Value()), brush, frame, n).value
    ensures !ok ==> paint.Value() == old(paint.Value()).(style := Some(Fill))
  {
    paint.style := Some(Fill);
    match brush {
      case SolidBrush(c, _) =>
        paint.color := Some(c);
        ok := true;
      case LinearGradientBrush(stops, absolute, start, end) =>
        if |stops| >= 2 {
          var locs, comps := StopArrays(stops, n.argb);
          var p1 := GradientPoint(start, absolute, frame);
          var p2 := GradientPoint(end, absolute, frame);
          paint.shader := Some(LinearShader(p1, p2, comps[..], locs[..]));
        }
        ok := true;
      case RadialGradientBrush(stops, _, _, _) =>
        if |stops| >= 2 {
          var locs, comps := StopArrays(stops, n.argb);
          var p1 := n.absoluteCenter(brush, frame);
          var r := n.absoluteRadius(brush, frame);
          paint.shader := Some(RadialShader(p1, r.Max(), comps[..], locs[..]));
        }
        ok := true;
      case OtherBrush =>
        ok := false;
    }
  }

  /** GetBrushPaint: a new paint with the brush added. */
  method GetBrushPaint(brush: Brush, frame: Rect, n: Natives) returns (ok: bool, paint: Paint)
    ensures fresh(paint)
    ensures ok == !brush.OtherBrush?
    ensures ok ==> paint.Value() == ApplyBrush(Blank, brush, frame, n).value
  {
    paint := new Paint();
    ok := AddBrushPaint(paint, brush, frame, n);
  }

  /** Only an unrecognised brush kind fails. */
  lemma ApplyBrushFails(p: PaintValue, brush: Brush, frame: Rect, n: Natives)
    ensures ApplyBrush(p, brush, frame, n).None? <==> brush.OtherBrush?
  {
  }

  /** A gradient with fewer than two stops sets no shader and leaves the colour alone. */
  lemma FewStopsNoShader(p: PaintValue, brush: Brush, frame: Rect, n: Natives)
    requires brush.LinearGradientBrush? || brush.RadialGradientBrush?
    requires |brush.stops| < 2
    ensures ApplyBrush(p, brush, frame, n) == Some(p.(style := Some(Fill)))
  {
  }

  /** With two stops or more, the shader lists every stop's colour and offset, in order. */
  lemma GradientStopsInOrder(p: PaintValue, brush: Brush, frame: Rect, n: Natives)
    requires brush.LinearGradientBrush? || brush.RadialGradientBrush?
    requires |brush.stops| >= 2
    ensures var q := ApplyBrush(p, brush, frame, n).value;
      q.shader.Some? && q.color == p.color &&
      |q.shader.value.colors| == |brush.stops| == |q.shader.value.positions| &&
      forall i :: 0 <= i < |brush.stops| ==>
        q.shader.value.colors[i] == n.argb(brush.stops[i].color) && q.shader.value.positions[i] == brush.stops[i].offset
  {
  }

  /** Linear endpoints: unchanged when absolute, else frame position plus the point scaled by the frame size. */
  lemma LinearEndpoints(p: PaintValue, brush: Brush, frame: Rect, n: Natives)
    requires brush.LinearGradientBrush? && |brush.stops| >= 2
    ensures var sh := ApplyBrush(p, brush, frame, n).value.shader.value;
      sh.LinearShader? &&
      (brush.absolute ==> sh.p1 == brush.start && sh.p2 == brush.end) &&
      (!brush.absolute ==>
        sh.p1 == Point(frame.position.x + brush.start.x * frame.size.width, frame.position.y + brush.start.y * frame.size.height) &&
        sh.p2 == Point(frame.position.x + brush.end.x * frame.size.width, frame.position.y + brush.end.y * frame.size.height))
  {
  }

  /** A radial gradient's radius is the larger extent of its absolute radius. */
  lemma RadialRadiusIsMax(p: PaintValue, brush: Brush, frame: Rect, n: Natives)
    requires brush.RadialGradientBrush? && |brush.stops| >= 2
    ensures var sh, r := ApplyBrush(p, brush, frame, n).value.shader.value, n.absoluteRadius(brush, frame);
      sh.RadialShader? && sh.center == n.absoluteCenter(brush, frame) &&
      sh.radius >= r.width && sh.radius >= r.height && (sh.radius == r.width || sh.radius == r.height)
  {
  }

  /** Only a solid brush sets the colour, and it sets no shader. */
  lemma OnlySolidSetsColor(p: PaintValue, brush: Brush, frame: Rect, n: Natives)
    requires !brush.OtherBrush?
    ensures var q := ApplyBrush(p, brush, frame, n).value;
      q.style == Some(Fill) &&
      (brush.SolidBrush? ==> q.color == Some(brush.color) && q.shader == p.shader) &&
      (!brush.SolidBrush? ==> q.color == p.color)
  {
  }

  // ----- GetPenPaint and GetFontPaint -----

  /** The paint of a pen: stroke style, the pen's colour and width. */
  function PenPaint(pen: Pen): PaintValue {
    Blank.(style := Some(Stroke), color := Some(pen.color), strokeWidth := Some(pen.width))
  }

  method GetPenPaint(pen: Pen) returns (paint: Paint)
    ensures fresh(paint)
    ensures paint.Value() == PenPaint(pen)
  {
    paint := new Paint();
    paint.style := Some(Stroke);
    paint.color := Some(pen.color);
    paint.strokeWidth := Some(pen.width);
  }

  /**
   * The text alignment as GetFontPaint writes it: Center is mapped to Left,
   * the same as the default it overwrites.
   */
  function PaintAlignAsWritten(alignment: TextAlignment): (a: Align)
    ensures a != AlignCenter
    ensures a == AlignRight <==> alignment == Right
    ensures a == AlignLeft <==> alignment != Right
  {
    if alignment == Center then AlignLeft
    else if alignment == Right then AlignRight
    else AlignLeft
  }

  /** As written, centred text is laid out exactly like left-aligned text. */
  lemma CenterDrawnLeft()
    ensures PaintAlignAsWritten(Center) == PaintAlignAsWritten(Left) == AlignLeft
  {
  }

  /** The text alignment GetFontPaint evidently intends: each alignment to its own native one. */
  function PaintAlign(alignment: TextAlignment): (a: Align)
    ensures a == AlignCenter <==> alignment == Center
    ensures a == AlignRight <==> alignment == Right
    ensures a == AlignLeft <==> alignment == Left
  {
    match alignment
    case Left => AlignLeft
    case Center => AlignCenter
    case Right => AlignRight
  }

  /** Distinct alignments give distinct native alignments. */
  lemma PaintAlignInjective(a: TextAlignment, b: TextAlignment)
    ensures PaintAlign(a) == PaintAlign(b) ==> a == b
  {
  }

  /**
   * The paint of a font: the alignment as GetFontPaint writes it (so centred
   * text is drawn left-aligned), the font's size, and a typeface of its
   * family, bold when it is bold.
   */
  function FontPaint(font: FontValue, alignment: TextAlignment): PaintValue {
    Blank.(textAlign := Some(PaintAlignAsWritten(alignment)), textSize := Some(font.size),
           typeface := Some(Typeface(font.family, font.bold)))
  }

  method GetFontPaint(font: Font, alignment: TextAlignment) returns (paint: Paint)
    ensures fresh(paint)
    ensures paint.Value() == FontPaint(font.Value(), alignment)
  {
    paint := new Paint();
    paint.textAlign := Some(AlignLeft);
    if alignment == Center {
      paint.textAlign := Some(AlignLeft);
    } else if alignment == Right {
      paint.textAlign := Some(AlignRight);
    }
    paint.textSize := Some(font.size);
    paint.typeface := Some(Typeface(font.Family(), font.isBold));
  }

  // ----- the DrawPath walk -----

  /** The native path commands. */
  datatype PathCmd = MoveToCmd(p: Point) | LineToCmd(p: Point) | CubicToCmd(c1: Point, c2: Point, end: Point) | CloseCmd

  predicate Supported(ops: seq<PathOp>) {
    forall i :: 0 <= i < |ops| ==> !ops[i].OtherOp?
  }

  /**
   * The native commands for one operation: a MoveTo moves to its start
   * only, a LineTo draws a line to its start and then to its end, an ArcTo
   * a line to its point, a CurveTo a cubic through its control points.
   */
  function OpCommands(op: PathOp): seq<PathCmd>
    requires !op.OtherOp?
  {
    match op
    case MoveTo(start, _) => [MoveToCmd(start)]
    case LineTo(start, end) => [LineToCmd(start), LineToCmd(end)]
    case ArcTo(p) => [LineToCmd(p)]
    case CurveTo(_, c1, c2, end) => [CubicToCmd(c1, c2, end)]
    case ClosePath => [CloseCmd]
  }

  /** The points one operation adds to the bounding box; a CurveTo's start is not among them. */
  function OpBounds(op: PathOp): seq<Point> {
    match op
    case MoveTo(start, end) => [start, end]
    case LineTo(start, end) => [start, end]
    case ArcTo(p) => [p]
    case CurveTo(_, c1, c2, end) => [c1, c2, end]
    case ClosePath => []
    case OtherOp => []
  }

  /** The native path of a sequence of operations. */
  function PathOf(ops: seq<PathOp>): seq<PathCmd>
    requires Supported(ops)
  {
    if ops == [] then [] else PathOf(ops[..|ops| - 1]) + OpCommands(ops[|ops| - 1])
  }

  /** The points given to the bounding box for a sequence of operations. */
  function BoundsOf(ops: seq<PathOp>): seq<Point> {
    if ops == [] then [] else BoundsOf(ops[..|ops| - 1]) + OpBounds(ops[|ops| - 1])
  }

  lemma {:induction false} PathOfAppend(a: seq<PathOp>, b: seq<PathOp>)
    requires Supported(a) && Supported(b)
    ensures Supported(a + b)
    ensures PathOf(a + b) == PathOf(a) + PathOf(b)
    decreases |b|
  {
    assert Supported(a + b) by {
      forall i | 0 <= i < |a + b| ensures !(a + b)[i].OtherOp? {
        if i < |a| { assert (a + b)[i] == a[i]; } else { assert (a + b)[i] == b[i - |a|]; }
      }
    }
    if b == [] {
      assert a + b == a;
    } else {
      var b' := b[..|b| - 1];
      assert (a + b)[..|a + b| - 1] == a + b';
      assert (a + b)[|a + b| - 1] == b[|b| - 1];
      PathOfAppend(a, b');
    }
  }

  lemma {:induction false} BoundsOfAppend(a: seq<PathOp>, b: seq<PathOp>)
    ensures BoundsOf(a + b) == BoundsOf(a) + BoundsOf(b)
    decreases |b|
  {
    if b == [] {
      assert a + b == a;
    } else {
      var b' := b[..|b| - 1];
      assert (a + b)[..|a + b| - 1] == a + b';
      assert (a + b)[|a + b| - 1] == b[|b| - 1];
      BoundsOfAppend(a, b');
    }
  }

  /** Every bounding-box point belongs to some operation, and is never the start of a CurveTo unless it is also one of its other points. */
  lemma {:induction false} BoundsFromOps(ops: seq<PathOp>, k: nat)
    requires k < |BoundsOf(ops)|
    ensures exists i :: 0 <= i < |ops| && BoundsOf(ops)[k] in OpBounds(ops[i])
    decreases |ops|
  {
    var init := ops[..|ops| - 1];
    if k < |BoundsOf(init)| {
      BoundsFromOps(init, k);
      var i :| 0 <= i < |init| && BoundsOf(init)[k] in OpBounds(init[i]);
      assert ops[i] == init[i];
    } else {
      assert BoundsOf(ops)[k] == OpBounds(ops[|ops| - 1])[k - |BoundsOf(init)|];
    }
  }

  /**
   * The foreach of DrawPath: the native commands and bounding-box points
   * of all operations, or NotSupportedException (ok false) at the first
   * unrecognised one.
   */
  method WalkOps(ops: seq<PathOp>) returns (ok: bool, cmds: seq<PathCmd>, points: seq<Point>)
    ensures ok <==> Supported(ops)
    ensures ok ==> cmds == PathOf(ops) && points == BoundsOf(ops)
  {
    cmds, points := [], [];
    for i := 0 to |ops|
      invariant Supported(ops[..i])
      invariant cmds == PathOf(ops[..i]) && points == BoundsOf(ops[..i])
    {
      var op := ops[i];
      assert ops[..i + 1][..i] == ops[..i];
      match op {
        case MoveTo(start, end) =>
          cmds := cmds + [MoveToCmd(start)];
          points := points + [start, end];
        case LineTo(start, end) =>
          cmds := cmds + [LineToCmd(start), LineToCmd(end)];
          points := points + [start, end];
        case ArcTo(p) =>
          cmds := cmds + [LineToCmd(p)];
          points := points + [p];
        case CurveTo(_, c1, c2, end) =>
          cmds := cmds + [CubicToCmd(c1, c2, end)];
          points := points + [c1, c2, end];
        case ClosePath =>
          cmds := cmds + [CloseCmd];
        case OtherOp =>
          return false, cmds, points;
      }
    }
    assert ops[..|ops|] == ops;
    ok := true;
  }

  // ----- the canvas -----

  /** What a draw call draws. */
  datatype Shape =
    | PathShape(cmds: seq<PathCmd>, fillType: Option<FillType>)
    | RectShape(left: real, top: real, right: real, bottom: real)
    | OvalShape(frame: Rect)
    | TextShape(text: string, at: Point)

  /** A draw call on the native canvas, with the paint as it was when drawn. */
  datatype CanvasCmd = Draw(shape: Shape, paint: PaintValue)

  /** The draws of one shape: the fill when there is a brush paint, then the stroke when there is a pen paint. */
  function FillThenStroke(shape: Shape, fill: Option<PaintValue>, stroke: Option<PaintValue>): (r: seq<CanvasCmd>)
    ensures |r| == (if fill.Some? then 1 else 0) + (if stroke.Some? then 1 else 0)
    ensures forall i :: 0 <= i < |r| ==> r[i].shape == shape
    ensures fill.Some? ==> r[0] == Draw(shape, fill.value)
    ensures stroke.Some? ==> r[|r| - 1] == Draw(shape, stroke.value)
  {
    (if fill.Some? then [Draw(shape, fill.value)] else []) + (if stroke.Some? then [Draw(shape, stroke.value)] else [])
  }

  /** The brush paint of an optional brush; None without a brush or for an unsupported one. */
  function FillPaint(brush: Option<Brush>, frame: Rect, n: Natives): Option<PaintValue> {
    if brush.None? then None else ApplyBrush(Blank, brush.value, frame, n)
  }

  function StrokePaint(pen: Option<Pen>): Option<PaintValue> {
    if pen.None? then None else Some(PenPaint(pen.value))
  }

  /** The fill type DrawPath sets: a solid brush's mode, mapped; no setting for any other brush. */
  function PathFillType(brush: Option<Brush>): Option<FillType> {
    if brush.Some? && brush.value.SolidBrush? then Some(GetPathFillType(brush.value.fillMode)) else None
  }

  /** The frame DrawText gives the brush: at the text's position, its measured width and ascent plus descent. */
  function TextFrame(frame: Rect, p: PaintValue, text: string, n: Natives): Rect {
    Rect(frame.position, Size(n.measureText(p, text), n.ascent(p) + n.descent(p)))
  }

  class CanvasCanvas {
    var log: seq<CanvasCmd>

    constructor ()
      ensures log == []
    {
      log := [];
    }

    /**
     * DrawPath: walks the operations, then fills (with a brush) and strokes
     * (with a pen) the native path over the points' bounding box.  An
     * unrecognised operation or brush kind throws before anything is drawn.
     */
    method DrawPath(ops: seq<PathOp>, pen: Option<Pen>, brush: Option<Brush>, n: Natives) returns (ok: bool)
      modifies this
      ensures ok <==> Supported(ops) && brush != Some(OtherBrush)
      ensures !ok ==> log == old(log)
      ensures ok ==> (log == old(log) +
        FillThenStroke(PathShape(PathOf(ops), PathFillType(brush)),
                       FillPaint(brush, n.boundingBox(BoundsOf(ops)), n), StrokePaint(pen)))
    {
      var walked, cmds, points := WalkOps(ops);
      if !walked {
        return false;
      }
      var frame := n.boundingBox(points);
      var fillType: Option<FillType> := None;
      var draws: seq<CanvasCmd> := [];
      if brush.Some? {
        if brush.value.SolidBrush? {
          fillType := Some(GetPathFillType(brush.value.fillMode));
        }
        var paintOk, brushPaint := GetBrushPaint(brush.value, frame, n);
        if !paintOk {
          return false;
        }
        draws := draws + [Draw(PathShape(cmds, fillType), brushPaint.Value())];
      }
      if pen.Some? {
        var penPaint := GetPenPaint(pen.value);
        draws := draws + [Draw(PathShape(cmds, fillType), penPaint.Value())];
      }
      log := log + draws;
      ok := true;
    }

    /** DrawRectangle: the fill, then the stroke, each over the frame's corners. */
    method DrawRectangle(frame: Rect, pen: Option<Pen>, brush: Option<Brush>, n: Natives) returns (ok: bool)
      modifies this
      ensures ok <==> brush != Some(OtherBrush)
      ensures !ok ==> log == old(log)
      ensures ok ==> (log == old(log) +
        FillThenStroke(RectShape(frame.position.x, frame.position.y,
                                 frame.position.x + frame.size.width, frame.position.y + frame.size.height),
                       FillPaint(brush, frame, n), StrokePaint(pen)))
    {
      var shape := RectShape(frame.position.x, frame.position.y,
                             frame.position.x + frame.size.width, frame.position.y + frame.size.height);
      if brush.Some? {
        var paintOk, paint := GetBrushPaint(brush.value, frame, n);
        if !paintOk {
          return false;
        }
        log := log + [Draw(shape, paint.Value())];
      }
      if pen.Some? {
        var paint := GetPenPaint(pen.value);
        log := log + [Draw(shape, paint.Value())];
      }
      ok := true;
    }

    /** DrawEllipse: the fill, then the stroke, each as the oval in the frame. */
    method DrawEllipse(frame: Rect, pen: Option<Pen>, brush: Option<Brush>, n: Natives) returns (ok: bool)
      modifies this
      ensures ok <==> brush != Some(OtherBrush)
      ensures !ok ==> log == old(log)
      ensures ok ==> log == old(log) + FillThenStroke(OvalShape(frame), FillPaint(brush, frame, n), StrokePaint(pen))
    {
      if brush.Some? {
        var paintOk, paint := GetBrushPaint(brush.value, frame, n);
        if !paintOk {
          return false;
        }
        log := log + [Draw(OvalShape(frame), paint.Value())];
      }
      if pen.Some? {
        var paint := GetPenPaint(pen.value);
        log := log + [Draw(OvalShape(frame), paint.Value())];
      }
      ok := true;
    }

    /**
     * DrawText: nothing without a brush; otherwise one draw at the frame's
     * position with the font paint and the brush added over the measured
     * text frame.  The pen is not used.  A null font is a
     * NullReferenceException (ok false).
     */
    method DrawText(text: string, frame: Rect, font: Font?, alignment: TextAlignment,
                    pen: Option<Pen>, brush: Option<Brush>, n: Natives) returns (ok: bool)
      modifies this
      ensures brush.None? ==> ok && log == old(log)
      ensures brush.Some? && font == null ==> !ok && log == old(log)
      ensures brush.Some? && font != null ==>
        var fp := FontPaint(font.Value(), alignment);
        var p := ApplyBrush(fp, brush.value, TextFrame(frame, fp, text, n), n);
        ok == p.Some? &&
        log == old(log) + (if ok then [Draw(TextShape(text, frame.position), p.value)] else [])
    {
      if brush.None? {
        return true;
      }
      if font == null {
        return false;
      }
      var paint := GetFontPaint(font, alignment);
      var fr := TextFrame(frame, paint.Value(), text, n);
      ok := AddBrushPaint(paint, brush.value, fr, n);
      if ok {
        log := log + [Draw(TextShape(text, frame.position), paint.Value())];
      }
    }
  }

  // ----- CreateImage -----

  /** C#'s integer division, which truncates toward zero. */
  function TruncDiv(a: int, b: int): int
    requires b != 0
  {
    if a >= 0 && b > 0 then a / b
    else if a >= 0 then -(a / -b)
    else if b > 0 then -((-a) / b)
    else (-a) / (-b)
  }

  /** The exceptions CreateImage can throw before the bitmap is made. */
  datatype ImageError = NullColors | DivideByZero | IndexOutOfRange

  /** The pixel buffer given to Bitmap.CreateBitmap. */
  /** The scale CreateImage is given is not kept: BitmapImage's constructor drops it. */
  datatype Image = Image(pixels: array<int>, width: int, height: int)

  /** Whether CreateImage's copy stays inside the pixel buffer. */
  predicate CopyFits(length: nat, width: int) {
    width != 0 && length % (if width > 0 then width else -width) == 0
  }

  /** With a positive divisor m, m * (length / m) is at most length, and equal to it exactly when m divides length. */
  lemma DivisorProduct(length: nat, m: int)
    requires m > 0
    ensures 0 <= m * (length / m) <= length
    ensures m * (length / m) == length <==> length % m == 0
  {
    var q, r := length / m, length % m;
    assert length == m * q + r && 0 <= r < m;
    assert q >= 0;
  }

  /** The buffer holds width * height pixels, which equals the number of colours exactly when the copy fits. */
  lemma BufferSize(length: nat, width: int)
    requires width != 0
    ensures 0 <= width * TruncDiv(length, width) <= length
    ensures width * TruncDiv(length, width) == length <==> CopyFits(length, width)
  {
    if width > 0 {
      DivisorProduct(length, width);
    } else {
      var m := -width;
      DivisorProduct(length, m);
      assert TruncDiv(length, width) == -(length / m);
      assert width * TruncDiv(length, width) == m * (length / m);
    }
  }

  /**
   * CreateImage: the height is the colour count divided by the width
   * (truncating), and every colour is copied, packed, into the buffer of
   * width * height pixels.  A null array, a zero width and a colour count
   * that the width does not divide end in the exception the code throws.
   */
  method CreateImage(colors: array?<Color>, width: int, scale: real, argb: Color -> int)
    returns (r: Result<Image, ImageError>)
    ensures colors == null ==> r == Failure(NullColors)
    ensures colors != null && width == 0 ==> r == Failure(DivideByZero)
    ensures colors != null && width != 0 && !CopyFits(colors.Length, width) ==> r == Failure(IndexOutOfRange)
    ensures colors != null && CopyFits(colors.Length, width) ==>
      r.Success? && fresh(r.value.pixels) &&
      r.value.width == width && r.value.height == TruncDiv(colors.Length, width) &&
      r.value.pixels.Length == colors.Length &&
      forall i :: 0 <= i < colors.Length ==> r.value.pixels[i] == argb(colors[i])
  {
    if colors == null {
      return Failure(NullColors);
    }
    if width == 0 {
      return Failure(DivideByZero);
    }
    var pixelWidth := width;
    var pixelHeight := TruncDiv(colors.Length, width);
    BufferSize(colors.Length, width);
    var acolors := new int[pixelWidth * pixelHeight];
    for i := 0 to colors.Length
      invariant i <= acolors.Length
      invariant forall k :: 0 <= k < i ==> acolors[k] == argb(colors[k])
    {
      if i >= acolors.Length {
        return Failure(IndexOutOfRange);
      }
      acolors[i] := argb(colors[i]);
    }
    return Success(Image(acolors, pixelWidth, pixelHeight));
  }
}

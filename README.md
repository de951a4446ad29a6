# NGraphics core, modelled in Dafny

This project models four parts of the NGraphics drawing library and proves properties of them.

- **The SVG text reader.** `TextParser` reads the inline `style` block: pieces split on `;`, each matched against `\s*([\w-]+)\s*:\s*(.*)`, with the last key winning. It looks up font attributes, first directly on an element and then in its style block. It reads the font size and the text anchor. Finally it walks the children of a `<text>` element into text spans, resolving each `tspan`'s font against its parent.
  - `Text` holds the span list, its `String`, the per-span `DrawText` dispatch and the whitespace `Trim`.
  - `Font` is a mutable object. `WithFamily` allocates a new font; `WithWeight` and `WithSize` change the receiver and return it. These are modelled as a class, so a weight-only `tspan` changing the `<text>` element's own font is visible in the model.
- **The transform chain.** Each transform node links to the one applied before it. `ToString` prints the chain oldest first. The checked matrix constructor validates its input and then copies it.
- **The Android backend logic.** This covers the walk over path operations, which feeds the bounding box and emits native path commands. It also covers the brush dispatch of `AddBrushPaint`, the fill-type mapping, the fill-then-stroke order of `DrawPath`, `DrawRectangle`, `DrawEllipse` and `DrawText`, the text-alignment mapping of `GetFontPaint` as written (centred text gets a left-aligned paint; see Findings), and the pixel copy of `CreateImage`. Native `Path`/`Canvas` calls are recorded as an appended log of command values; `BoundingBoxBuilder` is the sequence of points added to it.
- **The SVG cubic curve segment.** This covers its four points, its single `CurveTo` on a path, and its path-data text.

Modules follow the source: `Fonts` (Font.cs), `Texts` (Text.cs), `TextParser` (TextParser.cs, plus the style and span-walk specification functions), `Transforms` (Transform.cs), `Android` (AndroidPlatform.cs) and `Segments` (SvgCubicCurveSegment.cs). They are supported by `Wrappers` (Option/Result), `Graphics` (points, sizes, rectangles, colours, pens, brushes, path operations), `Strings` (white space, `Trim`, `Join`) and `Xml` (the node tree).

Code run outside the model is passed in as function-typed parameters:
- `Color.Argb`;
- `ValuesParser.ReadNumber` and `ReadOptionalNumber` (`Numbers`);
- `Point.ToSvgString`;
- the culture-invariant number format;
- `BoundingBoxBuilder.BoundingBox`;
- `GetAbsoluteCenter` and `GetAbsoluteRadius`;
- `MeasureText` and the font metrics (`Natives`);
- `Size.MaxValue`.

### Where the code is followed over the documented design

In `ReadTextSpans`, a `tspan` that resolves a weight or a size but no family does not get a font of its own. Its span's `Font` stays null, and the `<text>` element's own `Font` is changed in place, because `WithWeight`/`WithSize` return the receiver and the reference comparison at TextParser.cs:161 then finds no new font. The model follows the code (`TextParser.NoFamilyChangesElementFont`, `TextParser.ReadTspan`).

## Model

| member | source | states |
|---|---|---|
| Fonts.Font.Default | NGraphics/Models/Font.cs:5-10 | a default font is Georgia, size 16, not bold |
| Fonts.Font.constructor | NGraphics/Models/Font.cs:12-16 | the font stores the given name and size and is not bold |
| Fonts.Font.Family | NGraphics/Models/Font.cs:18-19 | Family reads the same field as Name |
| Fonts.Font.Name | NGraphics/Models/Font.cs:18 | reads the name field, the family of the font's value and the same field as Family |
| Fonts.Font.SetName | NGraphics/Models/Font.cs:18 | setting Name sets Family as well and changes nothing else |
| Fonts.Font.SetFamily | NGraphics/Models/Font.cs:19 | setting Family sets Name as well and changes nothing else |
| Fonts.Font.WithFamily | NGraphics/Models/Font.cs:24-27 | a fresh font with the given family, the receiver's size and IsBold false; the receiver is not modified |
| Fonts.Font.WithStyle | NGraphics/Models/Font.cs:29-32 | returns the receiver itself and modifies nothing |
| Fonts.Font.WithWeight | NGraphics/Models/Font.cs:34-38 | returns the receiver with IsBold set to exact equality with "bold", all else unchanged |
| Fonts.Font.WithSize | NGraphics/Models/Font.cs:40-44 | returns the receiver with the new size, family and IsBold unchanged |
| Texts.Text.Empty | NGraphics/Models/Elements/Text.cs:18-22 | no spans, no font, no pen, no brush |
| Texts.Text.WithText | NGraphics/Models/Elements/Text.cs:24-31 | exactly one span holding the text, with no position and no font; the other arguments stored |
| Texts.Text.WithFrame | NGraphics/Models/Elements/Text.cs:33-40 | an empty span list; the other arguments stored |
| Texts.Text.String | NGraphics/Models/Elements/Text.cs:16 | joining the span texts with no separator is their in-order concatenation |
| Texts.StringOfAppend | NGraphics/Models/Elements/Text.cs:16 | String is the in-order concatenation: it distributes over joining span lists |
| Texts.Text.DrawElement | NGraphics/Models/Elements/Text.cs:42-51 | one DrawText per span, in order, same pen and brush; a positioned span at Rect(position, MaxValue) left-aligned, others in the frame with the element's alignment; the span's font or else the element's |
| Texts.Text.Trim | NGraphics/Models/Elements/Text.cs:54-68 | the span list becomes Trimmed of the old list; frame, alignment, font, pen and brush unchanged |
| Texts.RemoveLeadingBlank | NGraphics/Models/Elements/Text.cs:56-58 | the first loop drops exactly the maximal run of whitespace-only spans at the front |
| Texts.RemoveTrailingBlank | NGraphics/Models/Elements/Text.cs:62-64 | the second loop drops exactly the maximal run of whitespace-only spans at the back |
| Texts.TrimSpans | NGraphics/Models/Elements/Text.cs:56-67 | the four steps of Trim compute Trimmed |
| Texts.TrimmedIsRun | NGraphics/Models/Elements/Text.cs:54-68 | Trim keeps a contiguous run s[i..j]; every span outside it is whitespace-only; positions and fonts are kept, interior spans are untouched, the first text is TrimStart-ed and the last TrimEnd-ed (both when there is one) |
| Texts.TrimmedRunBounds | NGraphics/Models/Elements/Text.cs:56-64 | only whitespace-only spans before and after the run are removed |
| Texts.TrimmedRunSpan | NGraphics/Models/Elements/Text.cs:54-68 | span k of the result keeps the position and font of the original span, and an interior span is unchanged |
| Texts.TrimmedFirstText | NGraphics/Models/Elements/Text.cs:59-61 | when some span is not whitespace-only, the result is non-empty and its first text is TrimStart of the first such span's text (Trim when it is the only span left) |
| Texts.TrimmedLastText | NGraphics/Models/Elements/Text.cs:65-67 | the last of two or more surviving texts is TrimEnd of the original |
| Texts.TrimmedEnds | NGraphics/Models/Elements/Text.cs:54-68 | after Trim the list is empty, or its first span is not whitespace-only and does not start with white space, and its last span is not whitespace-only and does not end with white space |
| Texts.TrimmedEmptyIffAllBlank | NGraphics/Models/Elements/Text.cs:54-68 | Trim empties the list exactly when every span is whitespace-only |
| Texts.TrimmedFixed | NGraphics/Models/Elements/Text.cs:54-68 | a list whose ends are already trimmed is left alone |
| Texts.TrimmedIdempotent | NGraphics/Models/Elements/Text.cs:54-68 | Trim is idempotent |
| Texts.StringOfTrimmed | NGraphics/Models/Elements/Text.cs:54-68 | the String of the trimmed list is the Trim of the String |
| Texts.TextMetrics.Size | NGraphics/Models/Elements/Text.cs:88-92 | the width by the ascent plus the descent |
| TextParser.Match | NGraphics/Parsers/TextParser.cs:15 | a match has a non-empty [\w-] key and a value with no newline that does not start with white space |
| TextParser.MatchPiece | NGraphics/Parsers/TextParser.cs:15 | white space, a key, white space, a colon, white space and a value match as that key and that value |
| TextParser.MatchKeyValue | NGraphics/Parsers/TextParser.cs:15 | "key:value" matches as the key and the value |
| TextParser.MatchKeepsTrailingSpace | NGraphics/Parsers/TextParser.cs:15 | trailing white space stays in the value ("font-weight:bold " gives "bold ") |
| TextParser.NoColonNoMatch | NGraphics/Parsers/TextParser.cs:15 | a piece without a colon does not match |
| TextParser.SplitJoin | NGraphics/Parsers/TextParser.cs:19 | joining the fields of a split with ';' gives back the string |
| TextParser.SplitFields | NGraphics/Parsers/TextParser.cs:19 | no field of a split holds a ';' |
| TextParser.SplitAppend | NGraphics/Parsers/TextParser.cs:19 | splitting a + ";" + b gives the pieces of a, then those of b |
| TextParser.RemoveEmptyAppend | NGraphics/Parsers/TextParser.cs:19 | dropping empty pieces distributes over concatenation |
| TextParser.PiecesAppend | NGraphics/Parsers/TextParser.cs:19 | the non-empty pieces of a + ";" + b are those of a, then those of b |
| TextParser.SinglePiece | NGraphics/Parsers/TextParser.cs:19 | a non-empty string without ';' is one piece |
| TextParser.ParseStyle | NGraphics/Parsers/TextParser.cs:16-29 | the dictionary loop computes ParsedStyle: one store per matching piece, in order |
| TextParser.StyleOfHasKey | NGraphics/Parsers/TextParser.cs:20-26 | any piece that matches with a key puts that key in the dictionary |
| TextParser.StyleOfLastWins | NGraphics/Parsers/TextParser.cs:20-26 | a key's value comes from a matching piece after which no piece supplies that key: the last occurrence wins |
| TextParser.StyleOfAppend | NGraphics/Parsers/TextParser.cs:20-26 | the dictionary of p + q is that of p overridden by that of q |
| TextParser.ParsedStyleAppend | NGraphics/Parsers/TextParser.cs:16-29 | the style a + ";" + b parses to the dictionary of a overridden by that of b |
| TextParser.OneDeclaration | NGraphics/Parsers/TextParser.cs:16-29 | a single matching declaration parses to a one-entry dictionary |
| TextParser.GetString | NGraphics/Parsers/TextParser.cs:31-37 | the stored value when the key is present, the default otherwise |
| TextParser.ReadTextFontAttr | NGraphics/Parsers/TextParser.cs:40-59 | null for a null element; a non-blank direct attribute, trimmed; otherwise, exactly when the style block is non-blank, the key's style value ("" when absent); otherwise null |
| TextParser.ReadTextFontFamily | NGraphics/Parsers/TextParser.cs:61-64 | ReadTextFontAttr's cascade for font-family: null for a null element, a trimmed non-blank attribute, else the style value exactly when the style block is non-blank |
| TextParser.ReadTextFontWeight | NGraphics/Parsers/TextParser.cs:66-69 | the same cascade for font-weight |
| TextParser.ReadTextFontStyle | NGraphics/Parsers/TextParser.cs:71-74 | the same cascade for font-style |
| TextParser.DirectAttrTrimmed | NGraphics/Parsers/TextParser.cs:46-47 | a direct value is non-empty with no white space at either end |
| TextParser.DirectAttrHidesStyle | NGraphics/Parsers/TextParser.cs:45-55 | with a non-blank direct attribute, the style block is not consulted |
| TextParser.StyleWithoutKey | NGraphics/Parsers/TextParser.cs:50-54 | a non-blank style block without the key gives "" |
| TextParser.ReadTextFontSize | NGraphics/Parsers/TextParser.cs:76-95 | -1 for a null element; ReadNumber of a non-blank direct attribute; otherwise ReadNumber of the style value or of "-1" when a non-blank style block lacks the key; otherwise -1 |
| TextParser.AnchorValue | NGraphics/Parsers/TextParser.cs:99-110 | null for a null element; a non-blank direct text-anchor, untrimmed; otherwise, exactly when the style block is non-blank, its text-anchor value ("" when absent); otherwise null |
| TextParser.ReadTextAlignment | NGraphics/Parsers/TextParser.cs:97-120 | Right exactly when the value is "end", Center exactly when it is "middle", Left otherwise |
| TextParser.AlignmentUntrimmed | NGraphics/Parsers/TextParser.cs:101-119 | a direct " end" is not trimmed and gives Left |
| TextParser.AlignmentFromStyle | NGraphics/Parsers/TextParser.cs:104-119 | with no direct attribute, "text-anchor:v" in the style maps v as "end" to Right, "middle" to Center, anything else to Left |
| TextParser.Fallback | NGraphics/Parsers/TextParser.cs:141 | a null or blank value of the tspan falls back to the parent's |
| TextParser.Resolve | NGraphics/Parsers/TextParser.cs:140-156 | family, weight and style fall back one level to the parent element; the size falls back when the tspan's is at most 0 |
| TextParser.TspanPosition | NGraphics/Parsers/TextParser.cs:131-136 | a position exactly when both x and y read as numbers, made of those two numbers |
| TextParser.NullFontThrows | NGraphics/Parsers/TextParser.cs:138-159 | with a null element font, a tspan fails exactly when some font attribute resolves |
| TextParser.SpanFontIffFamily | NGraphics/Parsers/TextParser.cs:138-163 | a span gets its own font exactly when a family resolved |
| TextParser.FamilyMakesNewFont | NGraphics/Parsers/TextParser.cs:140-163 | with a family, the span font has it, the resolved size or the element font's, and IsBold only for "bold"; the element font is unchanged |
| TextParser.NoFamilyChangesElementFont | NGraphics/Parsers/TextParser.cs:138-163 | without a family, the span gets no font and the element's own font takes the resolved weight and size |
| TextParser.WalkTexts | NGraphics/Parsers/TextParser.cs:124-130 | spans come in document order: one per text child with its text and one per tspan with its Value; others add nothing |
| TextParser.ReadTspan | NGraphics/Parsers/TextParser.cs:128-165 | the tspan's span has the position, the Value and a fresh font exactly when one is due; the element font ends as TspanFont says; failure only on a null font |
| TextParser.ApplyResolution | NGraphics/Parsers/TextParser.cs:138-159 | the resolved family, weight, style and size are applied in turn to the element's font; a null font throws exactly when one of them resolved; the result is a fresh font, whose value TspanFont gives, exactly when a family resolved |
| TextParser.ReadChild | NGraphics/Parsers/TextParser.cs:124-166 | one child adds at most one span, as the step function says, and fonts it adds are fresh |
| TextParser.ReadChildren | NGraphics/Parsers/TextParser.cs:124-168 | the loop over the children computes the walk: the spans, the element font's new value and whether it stopped at an exception |
| TextParser.ReadTextSpans | NGraphics/Parsers/TextParser.cs:122-170 | the spans are appended in walk order and then Trim runs once; on an exception the spans read so far stay untrimmed; frame, alignment, pen, brush and the font reference are unchanged |
| Transforms.Transform.Matrix | NGraphics/Transform.cs:29-33 | the given previous node and a fresh array of six zeros |
| Transforms.Transform.MatrixOf | NGraphics/Transform.cs:35-43 | ArgumentNull for null elements, Argument for a length other than 6, otherwise a fresh array equal element-wise to the input |
| Transforms.Transform.Translate | NGraphics/Transform.cs:55-59 | stores the previous node and the size |
| Transforms.Transform.TranslatePoint | NGraphics/Transform.cs:61-65 | stores Size(p.X, p.Y) |
| Transforms.Transform.TranslateBy | NGraphics/Transform.cs:67-70 | the same as Translate(Size(dx, dy)) |
| Transforms.Transform.Scale | NGraphics/Transform.cs:82-86 | stores the previous node and the size |
| Transforms.Transform.ScaleBy | NGraphics/Transform.cs:88-91 | the same as Scale(Size(dx, dy)) |
| Transforms.Transform.Rotate | NGraphics/Transform.cs:108-112 | stores the previous node and the angle |
| Transforms.Transform.ToString | NGraphics/Transform.cs:16-24 | a chain prints as its nodes' codes, oldest first, joined by single spaces |
| Transforms.Transform.Code | NGraphics/Transform.cs:47-122 | the four ToCode overrides: "matrix(...)", "translate(w, h)", "scale(w, h)" and "rotate(a)" with the numbers in the invariant format; so each code ends with ')' and its first letter tells the kind (m, t, s, r) |
| Transforms.SingleNode | NGraphics/Transform.cs:16-24 | a node with no previous node prints just its own code |
| Transforms.MatrixCodeIgnoresElements | NGraphics/Transform.cs:47-50 | a matrix node prints the same text whatever its elements |
| Segments.SvgCubicCurveSegment.constructor | NGraphics/Models/Segments/SvgCubicCurveSegment.cs:8-14 | each argument is stored in the property of the same role |
| Segments.SvgCubicCurveSegment.SetFirstControlPoint | NGraphics/Models/Segments/SvgCubicCurveSegment.cs:16 | sets the first control point only |
| Segments.SvgCubicCurveSegment.SetSecondControlPoint | NGraphics/Models/Segments/SvgCubicCurveSegment.cs:17 | sets the second control point only |
| Segments.SvgCubicCurveSegment.AddToPath | NGraphics/Models/Segments/SvgCubicCurveSegment.cs:19-22 | exactly one CurveTo on the path, with Start, FirstControlPoint, SecondControlPoint, End |
| Segments.SvgCubicCurveSegment.ToString | NGraphics/Models/Segments/SvgCubicCurveSegment.cs:24-28 | starts with 'C' and is three characters longer than the three encoded points |
| Segments.ToStringLayout | NGraphics/Models/Segments/SvgCubicCurveSegment.cs:24-28 | the first control point, the second and the end follow "C" in that order, separated by single spaces |
| Segments.StartNotPrinted | NGraphics/Models/Segments/SvgCubicCurveSegment.cs:26-27 | segments that differ only in their start print alike |
| Android.GetPathFillType | Platforms/NGraphics.Android/AndroidPlatform.cs:378-387 | EvenOdd exactly for the EvenOdd mode, Winding for every other |
| Android.StopArrays | Platforms/NGraphics.Android/AndroidPlatform.cs:224-231 | fresh offset and colour arrays, entry i from stop i, in order |
| Android.AddBrushPaint | Platforms/NGraphics.Android/AndroidPlatform.cs:206-274 | fails exactly for an unknown brush kind, after setting the fill style; otherwise the paint becomes ApplyBrush of the old paint |
| Android.GetBrushPaint | Platforms/NGraphics.Android/AndroidPlatform.cs:199-204 | a fresh paint with the brush applied to the native defaults |
| Android.ApplyBrushFails | Platforms/NGraphics.Android/AndroidPlatform.cs:210-273 | NotSupported exactly for a brush that is not solid, linear or radial |
| Android.OnlySolidSetsColor | Platforms/NGraphics.Android/AndroidPlatform.cs:208-216 | the style is always fill; only a solid brush sets the colour |
| Android.FewStopsNoShader | Platforms/NGraphics.Android/AndroidPlatform.cs:221-242 | a gradient with fewer than 2 stops sets no shader and does not fail |
| Android.GradientStopsInOrder | Platforms/NGraphics.Android/AndroidPlatform.cs:221-231 | with 2 or more stops, the shader carries each stop's offset and Argb colour, in order |
| Android.LinearEndpoints | Platforms/NGraphics.Android/AndroidPlatform.cs:232-233 | absolute endpoints are used unchanged, others become Position + p*Size of the frame |
| Android.RadialRadiusIsMax | Platforms/NGraphics.Android/AndroidPlatform.cs:259-263 | the radial shader uses the absolute center and the larger component of the absolute radius |
| Android.GetPenPaint | Platforms/NGraphics.Android/AndroidPlatform.cs:190-197 | a fresh stroke paint with the pen's colour and width |
| Android.PaintAlignAsWritten | Platforms/NGraphics.Android/AndroidPlatform.cs:168-173 | as written: never Center; Right exactly for Right, Left for both Left and Center |
| Android.CenterDrawnLeft | Platforms/NGraphics.Android/AndroidPlatform.cs:169-171 | as written, Center gets the same paint alignment as Left |
| Android.PaintAlign | Platforms/NGraphics.Android/AndroidPlatform.cs:168-173 | corrected: Center exactly to Center, Right exactly to Right, Left exactly to Left |
| Android.PaintAlignInjective | Platforms/NGraphics.Android/AndroidPlatform.cs:168-173 | corrected: different alignments give different paint alignments |
| Android.GetFontPaint | Platforms/NGraphics.Android/AndroidPlatform.cs:166-180 | a fresh paint with the alignment as written (Left for both Left and Center, Right for Right), the font size and a typeface of the family, bold exactly when IsBold |
| Android.PathOfAppend | Platforms/NGraphics.Android/AndroidPlatform.cs:298-354 | the native commands of a + b are those of a, then those of b |
| Android.BoundsOfAppend | Platforms/NGraphics.Android/AndroidPlatform.cs:298-354 | the bounding-box points of a + b are those of a, then those of b |
| Android.BoundsFromOps | Platforms/NGraphics.Android/AndroidPlatform.cs:300-351 | every bounding-box point is one of an operation's own points |
| Android.WalkOps | Platforms/NGraphics.Android/AndroidPlatform.cs:298-354 | the walk succeeds exactly when no operation is unknown, and then yields the per-operation commands and points in order |
| Android.FillThenStroke | Platforms/NGraphics.Android/AndroidPlatform.cs:358-374 | the fill is drawn only with a brush and first; the stroke only with a pen and last |
| Android.CanvasCanvas.DrawPath | Platforms/NGraphics.Android/AndroidPlatform.cs:292-376 | nothing is drawn on an unknown operation or brush; otherwise the path with the solid brush's fill type, filled with the brush over the bounding box, then stroked |
| Android.CanvasCanvas.DrawRectangle | Platforms/NGraphics.Android/AndroidPlatform.cs:389-403 | the rectangle (x, y, x + w, y + h) filled, then stroked |
| Android.CanvasCanvas.DrawEllipse | Platforms/NGraphics.Android/AndroidPlatform.cs:405-417 | the oval filled, then stroked |
| Android.CanvasCanvas.DrawText | Platforms/NGraphics.Android/AndroidPlatform.cs:276-290 | nothing without a brush; failure on a null font; otherwise one text draw at the frame's position with GetFontPaint's paint (so centred text is drawn left-aligned) and the brush applied over the measured frame |
| Android.BufferSize | Platforms/NGraphics.Android/AndroidPlatform.cs:52-54 | width * (length / width) is between 0 and length, and equals length exactly when width is non-zero and divides length |
| Android.CreateImage | Platforms/NGraphics.Android/AndroidPlatform.cs:50-61 | null colours and a zero width fail; the copy overruns the buffer exactly when width does not divide the length; otherwise the pixels are the Argb values in order with height length / width |

## Left out

- Bitmap creation and the Android calls with no logic of their own are recorded, not given meaning. These are `Bitmap.CreateBitmap`, `Typeface.Create`, `MeasureText`, `GetFontMetrics`, `DrawRect`, `DrawOval` and `DrawText`.
- The image loading and saving, `DrawImage`, `GetImagePaint`, `CreateImageCanvas` and `CanvasCanvas.Transform` (a native matrix concatenation) are not part of this model. `BitmapImage.Size`/`Scale` only throw. No transform composition exists in the source, so none is modelled.
- Single-precision floats and the `(float)` casts are modelled as `real`: rounding is not modelled.
- `Color.Argb`, `ValuesParser.ReadNumber`/`ReadOptionalNumber`, `Point.ToSvgString`, culture-invariant number formatting, `BoundingBoxBuilder.BoundingBox`, `GetAbsoluteCenter`/`GetAbsoluteRadius` and the text measurement are collaborators whose code is not part of this model. They appear as function parameters.
- The .NET regular-expression engine is not modelled. The one pattern used is specified directly as a function on strings. Its `\w` is the ASCII word characters, so Unicode letters and digits in style keys are not covered.
- `Char.IsWhiteSpace` is modelled as the ASCII white space plus NEL and NBSP; the other Unicode space separators are not covered.
- `System.Xml.Linq` is modelled as a node tree. A text node is an `XText`, and a CDATA section is a node kind of its own: its text counts in an element's `Value` (so in a `tspan`'s span), but its node type is not `Text`, so a CDATA child of `<text>` adds no span. Comments and processing instructions are the other node kind. An element's name is its local name.
- `TextSpan` is a value: a trimmed first or last span is replaced in the list rather than updated in place. Nothing else holds a reference to a span in the core, so no aliasing is lost.
- `Transform.Previous` is a public field in the source but is never reassigned by the core. It is a constant here: chains built after construction-time linking are not modelled.
- `Font.ToString` is not modelled; it only formats the name and the size with the number formatter.
- A `Paint` field that was never set is `None`: the native default values of a fresh Android paint are not modelled.
- `Trim` is modelled on a copy of the span list, whose result is assigned back to the field; the list has no other reference in the core.
- Exceptions are modelled as a `false` status or a `Failure` value: a `NullReferenceException` on a null `Text.Font` in `ReadTextSpans`, `NotSupportedException` in `DrawPath`/`AddBrushPaint`, `ArgumentNullException`/`ArgumentException` in `MatrixTransform`, and `DivideByZeroException`/`NullReferenceException`/`IndexOutOfRangeException` in `CreateImage`. Where the source changes state before throwing, the model keeps those changes.
- Texts.Text.WithText, Texts.Text.Trim: a null span text cannot be represented, since a span's text is a string. The source's `Text(string text, …)` accepts null; `Trim` counts a null text as whitespace-only (`IsNullOrWhiteSpace`), so null spans at either end are dropped, and `String` joins a null text as empty. Lists holding null texts are not covered.
- Android.CreateImage: the `scale` argument is not kept in the image, because `BitmapImage`'s constructor drops it (AndroidPlatform.cs:74-78).
- Android.CreateImage: a negative width, or an empty colour array (a zero-size bitmap), passes the copy and counts as success here. `Bitmap.CreateBitmap` would refuse either with an exception; that native check is not modelled.
- Android.CreateImage: on an overrun, the array entries written before the exception are not described, since the image is never returned.

## Findings

| source | as written | input that shows it | evidently intended | confidence | as-written member | corrected member |
|---|---|---|---|---|---|---|
| Platforms/NGraphics.Android/AndroidPlatform.cs:170-171 | `TextAlignment.Center` sets `Paint.Align.Left`, the same as the default | `GetFontPaint(font, TextAlignment.Center)` gives a left-aligned paint | `Paint.Align.Center` for centred text | not executed | Android.PaintAlignAsWritten, Android.CenterDrawnLeft | Android.PaintAlign, Android.PaintAlignInjective |

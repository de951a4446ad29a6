/**
 * The Text element: a frame, a font, an alignment and an ordered list of
 * spans, with the whitespace trimming applied after parsing and the
 * per-span draw dispatch.
 */
module Texts {
  import opened Wrappers
  import opened Graphics
  import opened Strings
  import opened Fonts

  /**
   * A run of text with an optional absolute position and an optional font
   * override.  F is how the font is represented: a Font object in the
   * element, a FontValue when spans are described by value.
   */
  datatype TextSpan<F> = TextSpan(position: Option<Point>, font: Option<F>, text: string)

  predicate BlankSpan<F>(s: TextSpan<F>) {
    IsBlank(s.text)
  }

  /** The in-order concatenation of the span texts (Text.String). */
  function StringOf<F>(spans: seq<TextSpan<F>>): string {
    if spans == [] then [] else StringOf(spans[..|spans| - 1]) + spans[|spans| - 1].text
  }

  /** The span texts, in order (Spans.Select(x => x.Text)). */
  function TextsOf<F>(spans: seq<TextSpan<F>>): (ts: seq<string>)
    ensures |ts| == |spans|
    ensures forall i :: 0 <= i < |spans| ==> ts[i] == spans[i].text
  {
    if spans == [] then [] else TextsOf(spans[..|spans| - 1]) + [spans[|spans| - 1].text]
  }

  /** Joining the span texts with no separator is their concatenation. */
  lemma {:induction false} StringOfIsJoin<F>(spans: seq<TextSpan<F>>)
    ensures Join("", TextsOf(spans)) == StringOf(spans)
  {
    var n := |spans|;
    if n > 1 {
      var ts := TextsOf(spans);
      StringOfIsJoin(spans[..n - 1]);
      assert ts[..n - 1] == TextsOf(spans[..n - 1]);
    } else if n == 1 {
      assert spans[..0] == [];
    }
  }

  /** The end of the run of whitespace-only spans that starts at i. */
  function LeadEnd<F>(s: seq<TextSpan<F>>, i: nat): (j: nat)
    requires i <= |s|
    ensures i <= j <= |s|
    ensures forall k :: i <= k < j ==> BlankSpan(s[k])
    ensures j == |s| || !BlankSpan(s[j])
    decreases |s| - i
  {
    if i < |s| && BlankSpan(s[i]) then LeadEnd(s, i + 1) else i
  }

  /** The start of the run of whitespace-only spans that ends at j. */
  function TrailStart<F>(s: seq<TextSpan<F>>, j: nat): (i: nat)
    requires j <= |s|
    ensures i <= j
    ensures forall k :: i <= k < j ==> BlankSpan(s[k])
    ensures i == 0 || !BlankSpan(s[i - 1])
  {
    if j > 0 && BlankSpan(s[j - 1]) then TrailStart(s, j - 1) else j
  }

  /** A run of blank spans is determined by where it starts and that it is maximal. */
  lemma LeadEndUnique<F>(s: seq<TextSpan<F>>, i: nat, j: nat)
    requires i <= j <= |s|
    requires forall k :: i <= k < j ==> BlankSpan(s[k])
    requires j == |s| || !BlankSpan(s[j])
    ensures LeadEnd(s, i) == j
  {
  }

  lemma TrailStartUnique<F>(s: seq<TextSpan<F>>, i: nat, j: nat)
    requires i <= j <= |s|
    requires forall k :: i <= k < j ==> BlankSpan(s[k])
    requires i == 0 || !BlankSpan(s[i - 1])
    ensures TrailStart(s, j) == i
  {
  }

  /** The first loop of Trim: drop whitespace-only spans at the front. */
  function DropLeadingBlank<F>(s: seq<TextSpan<F>>): seq<TextSpan<F>> {
    s[LeadEnd(s, 0)..]
  }

  /** The second loop of Trim: drop whitespace-only spans at the back. */
  function DropTrailingBlank<F>(s: seq<TextSpan<F>>): seq<TextSpan<F>> {
    s[..TrailStart(s, |s|)]
  }

  /** TrimStart on the first span's text. */
  function TrimFirst<F>(s: seq<TextSpan<F>>): seq<TextSpan<F>> {
    if s == [] then s else s[0 := s[0].(text := TrimStart(s[0].text))]
  }

  /** TrimEnd on the last span's text. */
  function TrimLast<F>(s: seq<TextSpan<F>>): seq<TextSpan<F>> {
    if s == [] then s else s[|s| - 1 := s[|s| - 1].(text := TrimEnd(s[|s| - 1].text))]
  }

  /** The span list that Text.Trim leaves behind. */
  function Trimmed<F>(s: seq<TextSpan<F>>): seq<TextSpan<F>> {
    TrimLast(DropTrailingBlank(TrimFirst(DropLeadingBlank(s))))
  }

  /** One more pass of the first loop of Trim stays inside the leading blank run. */
  lemma LeadStep<F>(s: seq<TextSpan<F>>, n: nat)
    requires n <= LeadEnd(s, 0) && n < |s| && BlankSpan(s[n])
    ensures n + 1 <= LeadEnd(s, 0)
  {
  }

  /** One more pass of the second loop of Trim stays inside the trailing blank run. */
  lemma TrailStep<F>(s: seq<TextSpan<F>>, m: nat)
    requires TrailStart(s, |s|) <= m <= |s| && 0 < m && BlankSpan(s[m - 1])
    ensures TrailStart(s, |s|) <= m - 1
  {
  }

  /** What TrimFirst does to span k. */
  lemma TrimFirstAt<F>(a: seq<TextSpan<F>>, k: nat)
    requires k < |a|
    ensures |TrimFirst(a)| == |a|
    ensures TrimFirst(a)[k].position == a[k].position && TrimFirst(a)[k].font == a[k].font
    ensures TrimFirst(a)[k].text == if k == 0 then TrimStart(a[0].text) else a[k].text
    ensures BlankSpan(TrimFirst(a)[k]) <==> BlankSpan(a[k])
  {
    TrimStartBlank(a[0].text);
  }

  /** What TrimLast does to span k. */
  lemma TrimLastAt<F>(c: seq<TextSpan<F>>, k: nat)
    requires k < |c|
    ensures |TrimLast(c)| == |c|
    ensures TrimLast(c)[k].position == c[k].position && TrimLast(c)[k].font == c[k].font
    ensures TrimLast(c)[k].text == if k == |c| - 1 then TrimEnd(c[k].text) else c[k].text
    ensures BlankSpan(TrimLast(c)[k]) <==> BlankSpan(c[k])
  {
    TrimEndBlank(c[|c| - 1].text);
  }

  /**
   * After Trim the list is empty, or its first span is neither blank nor
   * starts with white space, and its last span is neither blank nor ends
   * with white space.
   */
  lemma TrimmedEnds<F>(s: seq<TextSpan<F>>)
    ensures var r := Trimmed(s);
      r == [] ||
      (!BlankSpan(r[0]) && !IsSpace(r[0].text[0]) &&
       !BlankSpan(r[|r| - 1]) && !IsSpace(r[|r| - 1].text[|r[|r| - 1].text| - 1]))
  {
    var a := DropLeadingBlank(s);
    var b := TrimFirst(a);
    var m := TrailStart(b, |b|);
    var c := b[..m];
    var r := TrimLast(c);
    assert r == Trimmed(s);
    if c != [] {
      assert !BlankSpan(r[0]) && !IsSpace(r[0].text[0]) by {
        TrimFirstAt(a, 0);
        TrimLastAt(c, 0);
        assert c[0] == b[0];
        TrimStartBlank(a[0].text);
        if m == 1 {
          TrimEndKeepsFront(b[0].text);
        }
      }
      assert !BlankSpan(r[m - 1]) && !IsSpace(r[m - 1].text[|r[m - 1].text| - 1]) by {
        TrimLastAt(c, m - 1);
        TrimEndBlank(c[m - 1].text);
      }
    }
  }

  /** Trim empties the list exactly when every span is whitespace-only. */
  lemma TrimmedEmptyIffAllBlank<F>(s: seq<TextSpan<F>>)
    ensures Trimmed(s) == [] <==> forall k :: 0 <= k < |s| ==> BlankSpan(s[k])
  {
    var a := DropLeadingBlank(s);
    var b := TrimFirst(a);
    var m := TrailStart(b, |b|);
    var c := b[..m];
    assert Trimmed(s) == TrimLast(c) && |TrimLast(c)| == |c|;
    if forall k :: 0 <= k < |s| ==> BlankSpan(s[k]) {
      LeadEndUnique(s, 0, |s|);
    } else {
      assert LeadEnd(s, 0) < |s|;
      assert a[0] == s[LeadEnd(s, 0)];
      TrimFirstAt(a, 0);
      assert m > 0;
    }
  }

  /** Where the run that survives Trim starts in the original list. */
  function RunStart<F>(s: seq<TextSpan<F>>): nat {
    LeadEnd(s, 0)
  }

  /** Where the run that survives Trim ends in the original list. */
  function RunEnd<F>(s: seq<TextSpan<F>>): nat {
    var b := TrimFirst(DropLeadingBlank(s));
    LeadEnd(s, 0) + TrailStart(b, |b|)
  }

  /** Trim removes only whitespace-only spans, and only before and after the run. */
  lemma TrimmedRunBounds<F>(s: seq<TextSpan<F>>)
    ensures var r, i, j := Trimmed(s), RunStart(s), RunEnd(s);
      i <= j <= |s| && |r| == j - i &&
      (forall k :: 0 <= k < i ==> BlankSpan(s[k])) &&
      (forall k :: j <= k < |s| ==> BlankSpan(s[k]))
  {
    var i := LeadEnd(s, 0);
    var a := s[i..];
    var b := TrimFirst(a);
    var m := TrailStart(b, |b|);
    if a != [] { TrimFirstAt(a, 0); }
    forall k | i + m <= k < |s| ensures BlankSpan(s[k]) {
      TrimFirstAt(a, k - i);
      assert s[k] == a[k - i];
    }
  }

  /** Span k of the run keeps its position and font; an interior span is unchanged. */
  lemma TrimmedRunSpan<F>(s: seq<TextSpan<F>>, k: nat)
    requires k < |Trimmed(s)|
    ensures var r, i := Trimmed(s), RunStart(s);
      i + k < |s| && r[k].position == s[i + k].position && r[k].font == s[i + k].font &&
      (0 < k < |r| - 1 ==> r[k] == s[i + k])
  {
    var i := LeadEnd(s, 0);
    var a := s[i..];
    var b := TrimFirst(a);
    var c := b[..TrailStart(b, |b|)];
    TrimLastAt(c, k);
    TrimFirstAt(a, k);
    assert c[k] == b[k] && a[k] == s[i + k];
  }

  /** The first text of the run is the original one, trimmed at the front (and at the back when it is alone). */
  lemma TrimmedFirstText<F>(s: seq<TextSpan<F>>)
    requires exists k :: 0 <= k < |s| && !BlankSpan(s[k])
    ensures var r, i := Trimmed(s), RunStart(s);
      r != [] && i < |s| && r[0].text == if |r| == 1 then Trim(s[i].text) else TrimStart(s[i].text)
  {
    TrimmedEmptyIffAllBlank(s);
    var i := LeadEnd(s, 0);
    var a := s[i..];
    var b := TrimFirst(a);
    var m := TrailStart(b, |b|);
    var c := b[..m];
    TrimLastAt(c, 0);
    TrimFirstAt(a, 0);
    assert c[0] == b[0] && a[0] == s[i];
  }

  /** The last text of a run of two or more is the original one, trimmed at the back. */
  lemma TrimmedLastText<F>(s: seq<TextSpan<F>>)
    requires |Trimmed(s)| > 1
    ensures var r, j := Trimmed(s), RunEnd(s);
      0 < j <= |s| && r[|r| - 1].text == TrimEnd(s[j - 1].text)
  {
    var i := LeadEnd(s, 0);
    var a := s[i..];
    var c := TrimmedParts(s);
    var m := |c|;
    assert TrimLast(c)[m - 1].text == TrimEnd(c[m - 1].text) by {
      TrimLastAt(c, m - 1);
    }
    assert c[m - 1].text == s[i + m - 1].text by {
      TrimFirstAt(a, m - 1);
      assert a[m - 1] == s[i + m - 1];
    }
  }

  /** Trimmed is TrimLast of a prefix of TrimFirst of the list after the leading blank run, ending at RunEnd. */
  lemma TrimmedParts<F>(s: seq<TextSpan<F>>) returns (c: seq<TextSpan<F>>)
    ensures var i := LeadEnd(s, 0);
      Trimmed(s) == TrimLast(c) && RunEnd(s) == i + |c| && |c| <= |s| - i &&
      c == TrimFirst(s[i..])[..|c|]
  {
    var i := LeadEnd(s, 0);
    var b := TrimFirst(s[i..]);
    c := b[..TrailStart(b, |b|)];
    if s[i..] != [] { TrimFirstAt(s[i..], 0); }
  }

  /**
   * Trim removes whole spans only from the front and the back: the result is
   * the run s[i..j] with the first span's text TrimStart-ed and the last
   * span's text TrimEnd-ed, every span outside the run being whitespace-only;
   * interior spans are untouched and positions and fonts never change.
   */
  lemma TrimmedIsRun<F>(s: seq<TextSpan<F>>) returns (i: nat, j: nat)
    ensures var r := Trimmed(s);
      i <= j <= |s| && |r| == j - i &&
      (forall k :: 0 <= k < i ==> BlankSpan(s[k])) &&
      (forall k :: j <= k < |s| ==> BlankSpan(s[k])) &&
      (forall k :: 0 <= k < |r| ==> r[k].position == s[i + k].position && r[k].font == s[i + k].font) &&
      (forall k :: 0 < k < |r| - 1 ==> r[k] == s[i + k]) &&
      (|r| == 1 ==> r[0].text == Trim(s[i].text)) &&
      (|r| > 1 ==> r[0].text == TrimStart(s[i].text) && r[|r| - 1].text == TrimEnd(s[j - 1].text))
  {
    i, j := RunStart(s), RunEnd(s);
    TrimmedRunBounds(s);
    var r := Trimmed(s);
    if r != [] {
      TrimmedEmptyIffAllBlank(s);
      TrimmedFirstText(s);
    }
    if |r| > 1 { TrimmedLastText(s); }
    forall k | 0 <= k < |r|
      ensures r[k].position == s[i + k].position && r[k].font == s[i + k].font
      ensures 0 < k < |r| - 1 ==> r[k] == s[i + k]
    {
      TrimmedRunSpan(s, k);
    }
  }

  /** A list whose ends are already trimmed is left alone by Trim. */
  lemma TrimmedFixed<F>(t: seq<TextSpan<F>>)
    requires t == [] ||
      (!BlankSpan(t[0]) && !IsSpace(t[0].text[0]) &&
       !BlankSpan(t[|t| - 1]) && !IsSpace(t[|t| - 1].text[|t[|t| - 1].text| - 1]))
    ensures Trimmed(t) == t
  {
    if t != [] {
      LeadEndUnique(t, 0, 0);
      assert DropLeadingBlank(t) == t;
      TrimStartFixed(t[0].text);
      assert TrimFirst(t) == t;
      TrailStartUnique(t, |t|, |t|);
      assert DropTrailingBlank(t) == t;
      TrimEndFixed(t[|t| - 1].text);
    }
  }

  /** Trim is idempotent. */
  lemma TrimmedIdempotent<F>(s: seq<TextSpan<F>>)
    ensures Trimmed(Trimmed(s)) == Trimmed(s)
  {
    TrimmedEnds(s);
    TrimmedFixed(Trimmed(s));
  }

  /** Text.String is the in-order concatenation: it distributes over list concatenation. */
  lemma {:induction false} StringOfAppend<F>(a: seq<TextSpan<F>>, b: seq<TextSpan<F>>)
    ensures StringOf(a + b) == StringOf(a) + StringOf(b)
  {
    if b == [] {
      assert a + b == a;
    } else {
      assert (a + b)[..|a + b| - 1] == a + b[..|b| - 1];
      StringOfAppend(a, b[..|b| - 1]);
    }
  }

  /** The text of a non-empty list is its first span's text followed by the rest. */
  lemma StringOfFront<F>(a: seq<TextSpan<F>>)
    requires a != []
    ensures StringOf(a) == a[0].text + StringOf(a[1..])
  {
    assert a == [a[0]] + a[1..];
    StringOfAppend([a[0]], a[1..]);
    assert [a[0]][..0] == [];
  }

  lemma {:induction false} StringOfBlank<F>(s: seq<TextSpan<F>>)
    requires forall k :: 0 <= k < |s| ==> BlankSpan(s[k])
    ensures IsBlank(StringOf(s))
  {
    if s != [] {
      StringOfBlank(s[..|s| - 1]);
      var x, y := StringOf(s[..|s| - 1]), s[|s| - 1].text;
      assert BlankSpan(s[|s| - 1]);
      forall i | 0 <= i < |x + y| ensures IsSpace((x + y)[i]) {
        if i < |x| { assert (x + y)[i] == x[i]; } else { assert (x + y)[i] == y[i - |x|]; }
      }
    }
  }

  /** Whitespace-only spans at the front contribute nothing to TrimStart of the text. */
  lemma TrimStartSkipsBlankSpans<F>(s: seq<TextSpan<F>>)
    ensures TrimStart(StringOf(s)) == TrimStart(StringOf(DropLeadingBlank(s)))
  {
    var i := LeadEnd(s, 0);
    assert s == s[..i] + s[i..];
    StringOfAppend(s[..i], s[i..]);
    StringOfBlank(s[..i]);
    TrimStartAppend(StringOf(s[..i]), StringOf(s[i..]));
  }

  /** When the first span is not whitespace-only, TrimStart of the text only touches it. */
  lemma TrimStartOfFirst<F>(a: seq<TextSpan<F>>)
    requires a == [] || !BlankSpan(a[0])
    ensures TrimStart(StringOf(a)) == StringOf(TrimFirst(a))
  {
    if a != [] {
      var b := TrimFirst(a);
      var x, y := a[0].text, StringOf(a[1..]);
      StringOfFront(a);
      StringOfFront(b);
      assert b[1..] == a[1..] && b[0].text == TrimStart(x);
      TrimStartAppend(x, y);
    }
  }

  /** Trimming the front spans trims the front of the concatenated text. */
  lemma TrimStartOfString<F>(s: seq<TextSpan<F>>)
    ensures TrimStart(StringOf(s)) == StringOf(TrimFirst(DropLeadingBlank(s)))
  {
    TrimStartSkipsBlankSpans(s);
    TrimStartOfFirst(DropLeadingBlank(s));
  }

  /** Whitespace-only spans at the back contribute nothing to TrimEnd of the text. */
  lemma TrimEndSkipsBlankSpans<F>(s: seq<TextSpan<F>>)
    ensures TrimEnd(StringOf(s)) == TrimEnd(StringOf(DropTrailingBlank(s)))
  {
    var m := TrailStart(s, |s|);
    assert s == s[..m] + s[m..];
    StringOfAppend(s[..m], s[m..]);
    StringOfBlank(s[m..]);
    TrimEndAppend(StringOf(s[..m]), StringOf(s[m..]));
  }

  /** When the last span is not whitespace-only, TrimEnd of the text only touches it. */
  lemma TrimEndOfLast<F>(c: seq<TextSpan<F>>)
    requires c == [] || !BlankSpan(c[|c| - 1])
    ensures TrimEnd(StringOf(c)) == StringOf(TrimLast(c))
  {
    if c != [] {
      var n := |c|;
      var t := TrimLast(c);
      var x, y := StringOf(c[..n - 1]), c[n - 1].text;
      assert StringOf(c) == x + y;
      assert t[..n - 1] == c[..n - 1] && t[n - 1].text == TrimEnd(y);
      assert StringOf(t) == x + TrimEnd(y);
      TrimEndAppend(x, y);
    }
  }

  /** Trimming the back spans trims the back of the concatenated text. */
  lemma TrimEndOfString<F>(b: seq<TextSpan<F>>)
    ensures TrimEnd(StringOf(b)) == StringOf(TrimLast(DropTrailingBlank(b)))
  {
    TrimEndSkipsBlankSpans(b);
    TrimEndOfLast(DropTrailingBlank(b));
  }

  /** The text of a trimmed span list is the trimmed text of the list. */
  lemma StringOfTrimmed<F>(s: seq<TextSpan<F>>)
    ensures StringOf(Trimmed(s)) == Trim(StringOf(s))
  {
    TrimStartOfString(s);
    TrimEndOfString(TrimFirst(DropLeadingBlank(s)));
  }

  /** The first loop of Text.Trim: remove the first span while it is whitespace-only. */
  method RemoveLeadingBlank<F>(s: seq<TextSpan<F>>) returns (t: seq<TextSpan<F>>)
    ensures t == DropLeadingBlank(s)
  {
    t := s;
    ghost var n := 0;
    while |t| > 0 && IsBlank(t[0].text)
      invariant n <= LeadEnd(s, 0) && t == s[n..]
      decreases |t|
    {
      assert t[0] == s[n];
      LeadStep(s, n);
      assert t[1..] == s[n + 1..];
      t := t[1..];
      n := n + 1;
    }
    LeadEndUnique(s, 0, n);
  }

  /** The second loop of Text.Trim: remove the last span while it is whitespace-only. */
  method RemoveTrailingBlank<F>(s: seq<TextSpan<F>>) returns (t: seq<TextSpan<F>>)
    ensures t == DropTrailingBlank(s)
  {
    t := s;
    ghost var m := |s|;
    while |t| > 0 && IsBlank(t[|t| - 1].text)
      invariant TrailStart(s, |s|) <= m <= |s| && t == s[..m]
      decreases |t|
    {
      assert t[|t| - 1] == s[m - 1];
      TrailStep(s, m);
      assert t[..|t| - 1] == s[..m - 1];
      t := t[..|t| - 1];
      m := m - 1;
    }
    TrailStartUnique(s, m, |s|);
  }

  /**
   * The four steps of Text.Trim on the span list: the two loops, each
   * followed by trimming the text of the span now at that end.
   */
  method TrimSpans<F>(s: seq<TextSpan<F>>) returns (t: seq<TextSpan<F>>)
    ensures t == Trimmed(s)
  {
    t := RemoveLeadingBlank(s);
    if |t| > 0 {
      t := t[0 := t[0].(text := TrimStart(t[0].text))];
    }
    t := RemoveTrailingBlank(t);
    if |t| > 0 {
      t := t[|t| - 1 := t[|t| - 1].(text := TrimEnd(t[|t| - 1].text))];
    }
  }

  /** One canvas.DrawText call issued by Text.DrawElement. */
  datatype DrawTextCall = DrawTextCall(
    text: string, frame: Rect, font: Font?, alignment: TextAlignment,
    pen: Option<Pen>, brush: Option<Brush>)

  class Text {
    var frame: Rect
    var alignment: TextAlignment
    var font: Font?
    var spans: seq<TextSpan<Font>>
    var pen: Option<Pen>
    var brush: Option<Brush>

    /** Text(): no pen, no brush, no font, an empty span list, the default frame and alignment. */
    constructor Empty()
      ensures spans == [] && font == null && pen == None && brush == None
      ensures frame == Rect(Point(0.0, 0.0), Size(0.0, 0.0)) && alignment == Left
    {
      frame := Rect(Point(0.0, 0.0), Size(0.0, 0.0));
      alignment := Left;
      font := null;
      spans := [];
      pen := None;
      brush := None;
    }

    /** Text(text, frame, font, ...): exactly one span holding the text, without position or font. */
    constructor WithText(text: string, frame: Rect, font: Font?, alignment: TextAlignment,
                         pen: Option<Pen>, brush: Option<Brush>)
      ensures spans == [TextSpan(None, None, text)]
      ensures this.frame == frame && this.font == font && this.alignment == alignment
      ensures this.pen == pen && this.brush == brush
    {
      this.frame := frame;
      this.font := font;
      this.alignment := alignment;
      this.spans := [TextSpan(None, None, text)];
      this.pen := pen;
      this.brush := brush;
    }

    /** Text(frame, font, ...): an empty span list. */
    constructor WithFrame(frame: Rect, font: Font?, alignment: TextAlignment,
                          pen: Option<Pen>, brush: Option<Brush>)
      ensures spans == []
      ensures this.frame == frame && this.font == font && this.alignment == alignment
      ensures this.pen == pen && this.brush == brush
    {
      this.frame := frame;
      this.font := font;
      this.alignment := alignment;
      this.spans := [];
      this.pen := pen;
      this.brush := brush;
    }

    /** Text.String. */
    function String(): (s: string)
      reads this
      ensures s == StringOf(spans)
    {
      StringOfIsJoin(spans);
      Join("", TextsOf(spans))
    }

    /**
     * Text.DrawElement: one DrawText per span, in order, with the element's
     * pen and brush.  A positioned span is drawn left-aligned in the rectangle
     * at its position with the maximal size (maxValue, Size.MaxValue); any
     * other span in the element's frame with the element's alignment.  The
     * font is the span's own, or the element's when the span has none.
     */
    method DrawElement(maxValue: Size) returns (calls: seq<DrawTextCall>)
      ensures |calls| == |spans|
      ensures forall i :: 0 <= i < |spans| ==>
        calls[i].text == spans[i].text && calls[i].pen == pen && calls[i].brush == brush &&
        calls[i].font == (if spans[i].font.Some? then spans[i].font.value else font) &&
        (spans[i].position.Some? ==>
           calls[i].frame == Rect(spans[i].position.value, maxValue) && calls[i].alignment == Left) &&
        (spans[i].position.None? ==>
           calls[i].frame == frame && calls[i].alignment == alignment)
    {
      calls := [];
      var i := 0;
      while i < |spans|
        invariant 0 <= i <= |spans| && |calls| == i
        invariant forall k :: 0 <= k < i ==>
          calls[k].text == spans[k].text && calls[k].pen == pen && calls[k].brush == brush &&
          calls[k].font == (if spans[k].font.Some? then spans[k].font.value else font) &&
          (spans[k].position.Some? ==>
             calls[k].frame == Rect(spans[k].position.value, maxValue) && calls[k].alignment == Left) &&
          (spans[k].position.None? ==>
             calls[k].frame == frame && calls[k].alignment == alignment)
      {
        var s := spans[i];
        var f := if s.font.Some? then s.font.value else font;
        if s.position.Some? {
          calls := calls + [DrawTextCall(s.text, Rect(s.position.value, maxValue), f, Left, pen, brush)];
        } else {
          calls := calls + [DrawTextCall(s.text, frame, f, alignment, pen, brush)];
        }
        i := i + 1;
      }
    }

    /**
     * Text.Trim: removes whitespace-only spans from the front, TrimStart-s the
     * new first span, removes whitespace-only spans from the back, TrimEnd-s
     * the new last span.  Nothing but the span list changes.
     */
    method Trim()
      modifies this
      ensures spans == Trimmed(old(spans))
      ensures frame == old(frame) && alignment == old(alignment) && font == old(font)
      ensures pen == old(pen) && brush == old(brush)
    {
      spans := TrimSpans(spans);
    }
  }

  /** TextMetrics: a measured width with the font's ascent and descent. */
  datatype TextMetrics = TextMetrics(width: real, ascent: real, descent: real) {
    /** TextMetrics.Size: the width by the ascent plus the descent. */
    function Size(): (s: Graphics.Size)
      ensures s.width == width && s.height == ascent + descent
    {
      Graphics.Size(width, ascent + descent)
    }
  }
}

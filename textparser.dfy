/**
 * The text parser: inline style blocks, the attribute lookup cascade for
 * font and anchor attributes, and the walk that turns a text element's
 * children into spans.
 */
module TextParser {
  import opened Wrappers
  import opened Strings
  import opened Xml
  import opened Graphics
  import opened Fonts
  import opened Texts

  // ---------------------------------------------------------------------
  // The key/value pattern \s*([\w-]+)\s*:\s*(.*) applied to one piece.
  // ---------------------------------------------------------------------

  /** \w, restricted to ASCII letters, digits and the underscore. */
  predicate IsWordChar(c: char) {
    'a' <= c <= 'z' || 'A' <= c <= 'Z' || '0' <= c <= '9' || c == '_'
  }

  /** The character class [\w-]. */
  predicate IsKeyChar(c: char) {
    IsWordChar(c) || c == '-'
  }

  /** The end of the greedy run of [\w-] that starts at i. */
  function KeyEnd(s: string, i: nat): (j: nat)
    requires i <= |s|
    ensures i <= j <= |s|
    ensures forall k :: i <= k < j ==> IsKeyChar(s[k])
    ensures j == |s| || !IsKeyChar(s[j])
    decreases |s| - i
  {
    if i < |s| && IsKeyChar(s[i]) then KeyEnd(s, i + 1) else i
  }

  lemma KeyEndUnique(s: string, i: nat, j: nat)
    requires i <= j <= |s|
    requires forall k :: i <= k < j ==> IsKeyChar(s[k])
    requires j == |s| || !IsKeyChar(s[j])
    ensures KeyEnd(s, i) == j
  {
  }

  /**
   * The first occurrence of c at i or after, or the end of s.  With '\n' it
   * ends the greedy run of `.`; with ';' it ends a field of string.Split.
   */
  function Find(s: string, i: nat, c: char): (j: nat)
    requires i <= |s|
    ensures i <= j <= |s|
    ensures forall k :: i <= k < j ==> s[k] != c
    ensures j == |s| || s[j] == c
    decreases |s| - i
  {
    if i < |s| && s[i] != c then Find(s, i + 1, c) else i
  }

  lemma FindUnique(s: string, i: nat, c: char, j: nat)
    requires i <= j <= |s|
    requires forall k :: i <= k < j ==> s[k] != c
    requires j == |s| || s[j] == c
    ensures Find(s, i, c) == j
  {
  }

  /** The two groups of a successful match. */
  datatype KeyValue = KeyValue(key: string, value: string)

  /** What any match can produce: a non-empty [\w-] key, a value on one line that does not start with white space. */
  predicate WellFormed(kv: KeyValue) {
    kv.key != [] && (forall k :: 0 <= k < |kv.key| ==> IsKeyChar(kv.key[k])) &&
    (forall k :: 0 <= k < |kv.value| ==> kv.value[k] != '\n') &&
    (kv.value == [] || !IsSpace(kv.value[0]))
  }

  /**
   * The pattern tried at start position i.  Greedy white space, then the
   * greedy key run (at least one character), white space, a colon, white
   * space, and the rest of the line.  Backtracking cannot help: a shorter
   * key or a shorter white-space run is followed by a key character where
   * a colon or a key character is needed.
   */
  function MatchAt(s: string, i: nat): (r: Option<KeyValue>)
    requires i <= |s|
    ensures r.Some? ==> WellFormed(r.value)
  {
    var j := SkipSpace(s, i);
    var w := KeyEnd(s, j);
    if w == j then None
    else
      var c := SkipSpace(s, w);
      if c == |s| || s[c] != ':' then None
      else
        var v := SkipSpace(s, c + 1);
        Some(KeyValue(s[j..w], s[v..Find(s, v, '\n')]))
  }

  /** Regex.Match: the leftmost start position from i on where the pattern matches. */
  function MatchFrom(s: string, i: nat): (r: Option<KeyValue>)
    requires i <= |s|
    ensures r.Some? ==> WellFormed(r.value)
    decreases |s| - i
  {
    if MatchAt(s, i).Some? then MatchAt(s, i)
    else if i == |s| then None
    else MatchFrom(s, i + 1)
  }

  function Match(s: string): (r: Option<KeyValue>)
    ensures r.Some? ==> WellFormed(r.value)
  {
    MatchFrom(s, 0)
  }

  predicate IsKey(k: string) {
    k != [] && forall i :: 0 <= i < |k| ==> IsKeyChar(k[i])
  }

  /** The match at position 0 of a string laid out as white space, key, white space, ':', white space, value. */
  lemma MatchAtLayout(s: string, j: nat, w: nat, c: nat, d: nat)
    requires j < w <= c < d <= |s|
    requires forall i :: 0 <= i < j ==> IsSpace(s[i])
    requires forall i :: j <= i < w ==> IsKeyChar(s[i])
    requires forall i :: w <= i < c ==> IsSpace(s[i])
    requires s[c] == ':'
    requires forall i :: c < i < d ==> IsSpace(s[i])
    requires d == |s| || !IsSpace(s[d])
    requires forall i :: d <= i < |s| ==> s[i] != '\n'
    ensures MatchAt(s, 0) == Some(KeyValue(s[j..w], s[d..]))
  {
    SkipSpaceUnique(s, 0, j);
    assert !IsKeyChar(s[w]) by {
      if w < c { assert IsSpace(s[w]); }
    }
    KeyEndUnique(s, j, w);
    SkipSpaceUnique(s, w, c);
    SkipSpaceUnique(s, c + 1, d);
    FindUnique(s, d, '\n', |s|);
    assert s[d..Find(s, d, '\n')] == s[d..];
  }

  /**
   * A piece written as optional white space, a key, optional white space,
   * a colon, optional white space and a one-line value not starting with
   * white space is matched with exactly that key and value.
   */
  lemma MatchPiece(ws1: string, k: string, ws2: string, ws3: string, v: string)
    requires IsBlank(ws1) && IsBlank(ws2) && IsBlank(ws3) && IsKey(k)
    requires v == [] || !IsSpace(v[0])
    requires forall i :: 0 <= i < |v| ==> v[i] != '\n'
    ensures Match(ws1 + k + ws2 + ":" + ws3 + v) == Some(KeyValue(k, v))
  {
    var t := ws1 + k + ws2 + ":" + ws3;
    var s := t + v;
    var j, w, c := |ws1|, |ws1| + |k|, |ws1| + |k| + |ws2|;
    HeadLayout(ws1, k, ws2, ws3);
    forall i | 0 <= i < |t| ensures s[i] == t[i] {}
    forall i | |t| <= i < |s| ensures s[i] == v[i - |t|] {}
    MatchAtLayout(s, j, w, c, |t|);
    SliceOfAppend(t, v, j, w);
  }

  lemma SliceOfAppend(t: string, v: string, j: nat, w: nat)
    requires j <= w <= |t|
    ensures (t + v)[j..w] == t[j..w] && (t + v)[|t|..] == v
  {
  }

  /** The character classes of ws1 + k + ws2 + ":" + ws3, part by part. */
  lemma HeadLayout(ws1: string, k: string, ws2: string, ws3: string)
    requires IsBlank(ws1) && IsBlank(ws2) && IsBlank(ws3) && IsKey(k)
    ensures var t, j, w := ws1 + k + ws2 + ":" + ws3, |ws1|, |ws1| + |k|;
      var c := w + |ws2|;
      |t| == c + 1 + |ws3| &&
      (forall i :: 0 <= i < j ==> IsSpace(t[i])) &&
      (forall i :: j <= i < w ==> IsKeyChar(t[i])) &&
      (forall i :: w <= i < c ==> IsSpace(t[i])) &&
      t[c] == ':' &&
      (forall i :: c < i < |t| ==> IsSpace(t[i])) &&
      t[j..w] == k
  {
    var t1 := ws1 + k;
    var t2 := t1 + ws2;
    var t3 := t2 + ":";
    var t := t3 + ws3;
    var j, w, c := |ws1|, |t1|, |t2|;
    forall i | 0 <= i < j ensures IsSpace(t[i]) {
      assert t[i] == t3[i] == t2[i] == t1[i] == ws1[i];
    }
    forall i | j <= i < w ensures IsKeyChar(t[i]) && t[i] == k[i - j] {
      assert t[i] == t3[i] == t2[i] == t1[i] == k[i - j];
    }
    forall i | w <= i < c ensures IsSpace(t[i]) {
      assert t[i] == t3[i] == t2[i] == ws2[i - w];
    }
    assert t[c] == t3[c] == ':';
    forall i | c < i < |t| ensures IsSpace(t[i]) {
      assert t[i] == ws3[i - c - 1];
    }
    assert t[j..w] == k;
  }

  /** The simplest piece: key, colon, value. */
  lemma MatchKeyValue(k: string, v: string)
    requires IsKey(k)
    requires v == [] || !IsSpace(v[0])
    requires forall i :: 0 <= i < |v| ==> v[i] != '\n'
    ensures Match(k + ":" + v) == Some(KeyValue(k, v))
  {
    assert k + ":" + v == [] + k + [] + ":" + [] + v;
    MatchPiece([], k, [], [], v);
  }

  /** The value keeps its trailing white space: "font-weight:bold " gives "bold ". */
  lemma MatchKeepsTrailingSpace(k: string, v: string, ws: string)
    requires IsKey(k) && v != [] && !IsSpace(v[0]) && IsBlank(ws)
    requires forall i :: 0 <= i < |v| ==> v[i] != '\n'
    requires forall i :: 0 <= i < |ws| ==> ws[i] != '\n'
    ensures Match(k + ":" + (v + ws)) == Some(KeyValue(k, v + ws))
  {
    var u := v + ws;
    forall i | 0 <= i < |u| ensures u[i] != '\n' {
      if i < |v| { assert u[i] == v[i]; } else { assert u[i] == ws[i - |v|]; }
    }
    MatchKeyValue(k, u);
  }

  /** A piece without a colon never matches. */
  lemma {:induction false} NoColonFrom(s: string, i: nat)
    requires i <= |s|
    requires forall k :: 0 <= k < |s| ==> s[k] != ':'
    ensures MatchFrom(s, i) == None
    decreases |s| - i
  {
    if i < |s| { NoColonFrom(s, i + 1); }
  }

  lemma NoColonNoMatch(s: string)
    requires forall k :: 0 <= k < |s| ==> s[k] != ':'
    ensures Match(s) == None
  {
    NoColonFrom(s, 0);
  }

  // ---------------------------------------------------------------------
  // string.Split(';') and StringSplitOptions.RemoveEmptyEntries.
  // ---------------------------------------------------------------------

  /** string.Split(';'): the fields between separators, empty ones included. */
  function Split(s: string): (r: seq<string>)
    ensures |r| >= 1
    decreases |s|
  {
    var j := Find(s, 0, ';');
    if j == |s| then [s] else [s[..j]] + Split(s[j + 1..])
  }

  /** Split is undone by joining with ';'. */
  lemma {:induction false} SplitJoin(s: string)
    ensures Join(";", Split(s)) == s
    decreases |s|
  {
    var j := Find(s, 0, ';');
    if j < |s| {
      var rest := s[j + 1..];
      SplitJoin(rest);
      JoinCons(";", s[..j], Split(rest));
      assert s == s[..j] + ";" + rest;
    }
  }

  /** No field of a split holds a ';'. */
  lemma {:induction false} SplitFields(s: string)
    ensures forall i, k :: 0 <= i < |Split(s)| && 0 <= k < |Split(s)[i]| ==> Split(s)[i][k] != ';'
    decreases |s|
  {
    var j := Find(s, 0, ';');
    if j < |s| {
      var rest := s[j + 1..];
      SplitFields(rest);
      var r := Split(s);
      forall i, k | 0 <= i < |r| && 0 <= k < |r[i]| ensures r[i][k] != ';' {
        if i > 0 { assert r[i] == Split(rest)[i - 1]; }
      }
    }
  }

  /** Splitting around a separator splits each side. */
  lemma {:induction false} SplitAppend(a: string, b: string)
    ensures Split(a + ";" + b) == Split(a) + Split(b)
    decreases |a|
  {
    var s := a + ";" + b;
    var j := Find(a, 0, ';');
    forall k | 0 <= k < j ensures s[k] != ';' { assert s[k] == a[k]; }
    if j == |a| {
      assert s[j] == ';';
      FindUnique(s, 0, ';', j);
      assert s[..j] == a && s[j + 1..] == b;
    } else {
      assert s[j] == a[j];
      FindUnique(s, 0, ';', j);
      assert s[..j] == a[..j];
      assert s[j + 1..] == a[j + 1..] + ";" + b;
      SplitAppend(a[j + 1..], b);
    }
  }

  /** RemoveEmptyEntries. */
  function RemoveEmpty(ps: seq<string>): (r: seq<string>)
    ensures forall i :: 0 <= i < |r| ==> r[i] != []
  {
    if ps == [] then []
    else if ps[|ps| - 1] == [] then RemoveEmpty(ps[..|ps| - 1])
    else RemoveEmpty(ps[..|ps| - 1]) + [ps[|ps| - 1]]
  }

  lemma {:induction false} RemoveEmptyAppend(p: seq<string>, q: seq<string>)
    ensures RemoveEmpty(p + q) == RemoveEmpty(p) + RemoveEmpty(q)
    decreases |q|
  {
    if q == [] {
      assert p + q == p;
    } else {
      assert (p + q)[..|p + q| - 1] == p + q[..|q| - 1];
      RemoveEmptyAppend(p, q[..|q| - 1]);
    }
  }

  /** style.Split(new[]{ ';' }, StringSplitOptions.RemoveEmptyEntries). */
  function Pieces(style: string): seq<string> {
    RemoveEmpty(Split(style))
  }

  /** The pieces of two style blocks joined by ';' are the pieces of each, in order. */
  lemma PiecesAppend(a: string, b: string)
    ensures Pieces(a + ";" + b) == Pieces(a) + Pieces(b)
  {
    SplitAppend(a, b);
    RemoveEmptyAppend(Split(a), Split(b));
  }

  // ---------------------------------------------------------------------
  // ParseStyle.
  // ---------------------------------------------------------------------

  /** The dictionary after the loop has seen the given pieces: each match stores its key, overwriting. */
  function StyleOf(pieces: seq<string>): map<string, string> {
    if pieces == [] then map[]
    else
      var d := StyleOf(pieces[..|pieces| - 1]);
      match Match(pieces[|pieces| - 1])
      case Some(kv) => d[kv.key := kv.value]
      case None => d
  }

  /** The dictionary ParseStyle returns for a style string. */
  function ParsedStyle(style: string): map<string, string> {
    StyleOf(Pieces(style))
  }

  /** ParseStyle: one dictionary store per matching piece, in order. */
  method ParseStyle(style: string) returns (d: map<string, string>)
    ensures d == ParsedStyle(style)
  {
    d := map[];
    var kvs := Pieces(style);
    var i := 0;
    while i < |kvs|
      invariant 0 <= i <= |kvs|
      invariant d == StyleOf(kvs[..i])
    {
      assert kvs[..i + 1][..i] == kvs[..i];
      var m := Match(kvs[i]);
      if m.Some? {
        d := d[m.value.key := m.value.value];
      }
      i := i + 1;
    }
    assert kvs[..i] == kvs;
  }

  /** A piece that supplies key k. */
  predicate Supplies(piece: string, k: string) {
    Match(piece).Some? && Match(piece).value.key == k
  }

  /** Any piece supplying a key puts that key in the dictionary. */
  lemma {:induction false} StyleOfHasKey(pieces: seq<string>, i: nat, k: string)
    requires i < |pieces| && Supplies(pieces[i], k)
    ensures k in StyleOf(pieces)
    decreases |pieces|
  {
    var n := |pieces| - 1;
    if i < n {
      assert pieces[..n][i] == pieces[i];
      StyleOfHasKey(pieces[..n], i, k);
    }
  }

  /** Last one wins: a stored key's value comes from the last piece supplying it. */
  lemma {:induction false} StyleOfLastWins(pieces: seq<string>, k: string) returns (i: nat)
    requires k in StyleOf(pieces)
    ensures i < |pieces| && Match(pieces[i]) == Some(KeyValue(k, StyleOf(pieces)[k]))
    ensures forall j :: i < j < |pieces| ==> !Supplies(pieces[j], k)
    decreases |pieces|
  {
    var n := |pieces| - 1;
    if Supplies(pieces[n], k) {
      i := n;
    } else {
      assert k in StyleOf(pieces[..n]) && StyleOf(pieces)[k] == StyleOf(pieces[..n])[k];
      i := StyleOfLastWins(pieces[..n], k);
      forall j | i < j < |pieces| ensures !Supplies(pieces[j], k) {
        if j < n { assert pieces[..n][j] == pieces[j]; }
      }
    }
  }

  /** A later dictionary overrides an earlier one key by key. */
  lemma {:induction false} StyleOfAppend(p: seq<string>, q: seq<string>)
    ensures StyleOf(p + q) == StyleOf(p) + StyleOf(q)
    decreases |q|
  {
    if q == [] {
      assert p + q == p;
    } else {
      var n := |q| - 1;
      assert (p + q)[..|p + q| - 1] == p + q[..n];
      StyleOfAppend(p, q[..n]);
    }
  }

  /** Appending a style block after ';' overrides the earlier declarations key by key. */
  lemma ParsedStyleAppend(a: string, b: string)
    ensures ParsedStyle(a + ";" + b) == ParsedStyle(a) + ParsedStyle(b)
  {
    PiecesAppend(a, b);
    StyleOfAppend(Pieces(a), Pieces(b));
  }

  /** GetString: the stored value, or the default when the key is absent. */
  function GetString(style: map<string, string>, name: string, defaultValue: string): (r: string)
    ensures name in style ==> r == style[name]
    ensures name !in style ==> r == defaultValue
  {
    if name in style then style[name] else defaultValue
  }

  // ---------------------------------------------------------------------
  // The attribute lookup cascade.  A C# null string is None.
  // ---------------------------------------------------------------------

  /** string.IsNullOrWhiteSpace. */
  predicate NullOrBlank(v: Option<string>) {
    v.None? || IsBlank(v.value)
  }

  /** The attribute's value when it is present and not blank. */
  predicate Given(e: XElement, attr: string) {
    !NullOrBlank(Attribute(e, attr))
  }

  /**
   * ReadTextFontAttr: a non-blank direct attribute, trimmed; otherwise the
   * key looked up in a non-blank style block ("" when the block lacks it);
   * otherwise null.
   */
  function ReadTextFontAttr(element: Option<XElement>, attr: string): (r: Option<string>)
    ensures element.None? ==> r.None?
    ensures element.Some? && Given(element.value, attr) ==>
      r == Some(Trim(Attribute(element.value, attr).value))
    ensures element.Some? && !Given(element.value, attr) ==>
      (r.Some? <==> Given(element.value, "style")) &&
      (r.Some? ==> r.value == GetString(ParsedStyle(Attribute(element.value, "style").value), attr, ""))
  {
    if element.None? then None
    else
      var e := element.value;
      var attrib := Attribute(e, attr);
      if attrib.Some? && !IsBlank(attrib.value) then Some(Trim(attrib.value))
      else
        var style := Attribute(e, "style");
        if style.Some? && !IsBlank(style.value) then Some(GetString(ParsedStyle(style.value), attr, ""))
        else None
  }

  /** The font family: a trimmed non-blank font-family attribute, else the style block's font-family ("" when it lacks it), else null. */
  function ReadTextFontFamily(element: Option<XElement>): (r: Option<string>)
    ensures element.None? ==> r.None?
    ensures element.Some? && Given(element.value, "font-family") ==>
      r == Some(Trim(Attribute(element.value, "font-family").value))
    ensures element.Some? && !Given(element.value, "font-family") ==>
      (r.Some? <==> Given(element.value, "style")) &&
      (r.Some? ==> r.value == GetString(ParsedStyle(Attribute(element.value, "style").value), "font-family", ""))
  {
    ReadTextFontAttr(element, "font-family")
  }

  /** The font weight: a trimmed non-blank font-weight attribute, else the style block's font-weight ("" when it lacks it), else null. */
  function ReadTextFontWeight(element: Option<XElement>): (r: Option<string>)
    ensures element.None? ==> r.None?
    ensures element.Some? && Given(element.value, "font-weight") ==>
      r == Some(Trim(Attribute(element.value, "font-weight").value))
    ensures element.Some? && !Given(element.value, "font-weight") ==>
      (r.Some? <==> Given(element.value, "style")) &&
      (r.Some? ==> r.value == GetString(ParsedStyle(Attribute(element.value, "style").value), "font-weight", ""))
  {
    ReadTextFontAttr(element, "font-weight")
  }

  /** The font style: a trimmed non-blank font-style attribute, else the style block's font-style ("" when it lacks it), else null. */
  function ReadTextFontStyle(element: Option<XElement>): (r: Option<string>)
    ensures element.None? ==> r.None?
    ensures element.Some? && Given(element.value, "font-style") ==>
      r == Some(Trim(Attribute(element.value, "font-style").value))
    ensures element.Some? && !Given(element.value, "font-style") ==>
      (r.Some? <==> Given(element.value, "style")) &&
      (r.Some? ==> r.value == GetString(ParsedStyle(Attribute(element.value, "style").value), "font-style", ""))
  {
    ReadTextFontAttr(element, "font-style")
  }

  /** A value taken from a direct attribute is non-empty and has no white space at either end. */
  lemma DirectAttrTrimmed(e: XElement, attr: string)
    requires Given(e, attr)
    ensures var r := ReadTextFontAttr(Some(e), attr);
      r.Some? && r.value != [] && !IsSpace(r.value[0]) && !IsSpace(r.value[|r.value| - 1])
  {
    var v := Attribute(e, attr).value;
    TrimStartBlank(v);
    BlankIffTrimStartEmpty(v);
    TrimEndKeepsFront(TrimStart(v));
  }

  /** The style block is only consulted when the direct attribute is absent or blank. */
  lemma DirectAttrHidesStyle(e: XElement, attr: string, style: string)
    requires Given(e, attr) && attr != "style"
    ensures ReadTextFontAttr(Some(e), attr) ==
            ReadTextFontAttr(Some(e.(attributes := e.attributes["style" := style])), attr)
  {
  }

  /** A style block that does not declare the key gives the empty string, not null. */
  lemma StyleWithoutKey(e: XElement, attr: string)
    requires !Given(e, attr) && Given(e, "style")
    requires attr !in ParsedStyle(Attribute(e, "style").value)
    ensures ReadTextFontAttr(Some(e), attr) == Some("")
  {
  }

  /**
   * ReadTextFontSize: -1 unless a non-blank direct attribute or a non-blank
   * style block supplies the text for ReadNumber; a style block without
   * font-size supplies "-1".  ReadNumber is the value parser's, outside
   * this model.
   */
  function ReadTextFontSize(element: Option<XElement>, readNumber: string -> real): (r: real)
    ensures element.None? ==> r == -1.0
    ensures element.Some? && Given(element.value, "font-size") ==>
      r == readNumber(Attribute(element.value, "font-size").value)
    ensures element.Some? && !Given(element.value, "font-size") ==>
      r == if Given(element.value, "style")
           then readNumber(GetString(ParsedStyle(Attribute(element.value, "style").value), "font-size", "-1"))
           else -1.0
  {
    if element.None? then -1.0
    else
      var e := element.value;
      var attrib := Attribute(e, "font-size");
      if attrib.Some? && !IsBlank(attrib.value) then readNumber(attrib.value)
      else
        var style := Attribute(e, "style");
        if style.Some? && !IsBlank(style.value)
        then readNumber(GetString(ParsedStyle(style.value), "font-size", "-1"))
        else -1.0
  }

  /** The untrimmed text-anchor value that ReadTextAlignment switches on. */
  function AnchorValue(element: Option<XElement>): (r: Option<string>)
    ensures element.None? ==> r.None?
    ensures element.Some? && Given(element.value, "text-anchor") ==>
      r == Attribute(element.value, "text-anchor")
    ensures element.Some? && !Given(element.value, "text-anchor") ==>
      (r.Some? <==> Given(element.value, "style")) &&
      (r.Some? ==> r.value == GetString(ParsedStyle(Attribute(element.value, "style").value), "text-anchor", ""))
  {
    if element.None? then None
    else
      var e := element.value;
      var attrib := Attribute(e, "text-anchor");
      if attrib.Some? && !IsBlank(attrib.value) then attrib
      else
        var style := Attribute(e, "style");
        if style.Some? && !IsBlank(style.value) then Some(GetString(ParsedStyle(style.value), "text-anchor", ""))
        else None
  }

  /** ReadTextAlignment: exactly "end" is Right, exactly "middle" is Center, anything else Left. */
  function ReadTextAlignment(element: Option<XElement>): (r: TextAlignment)
    ensures r == Right <==> AnchorValue(element) == Some("end")
    ensures r == Center <==> AnchorValue(element) == Some("middle")
  {
    match AnchorValue(element)
    case Some(v) => if v == "end" then Right else if v == "middle" then Center else Left
    case None => Left
  }

  /** The anchor value is compared untrimmed: white space around "end" falls back to Left. */
  lemma AlignmentUntrimmed(e: XElement)
    requires Attribute(e, "text-anchor") == Some(" end")
    ensures ReadTextAlignment(Some(e)) == Left
  {
    assert !IsBlank(" end") by { assert !IsSpace(" end"[1]); }
  }

  /** A style block without ';' declaring k: v is the dictionary {k: v}. */
  lemma OneDeclaration(piece: string, k: string, v: string)
    requires forall i :: 0 <= i < |piece| ==> piece[i] != ';'
    requires Match(piece) == Some(KeyValue(k, v))
    ensures ParsedStyle(piece) == map[k := v]
  {
    assert MatchAt([], 0).None? && Match([]).None?;
    SinglePiece(piece);
    assert [piece][..0] == [];
    assert StyleOf([piece]) == StyleOf([])[k := v];
  }

  /**
   * A style block "text-anchor:" + v is switched on v exactly as written:
   * "text-anchor:end" anchors at the end, "text-anchor:end " (whose value
   * keeps its trailing space) does not.
   */
  lemma AlignmentFromStyle(e: XElement, v: string)
    requires !Given(e, "text-anchor")
    requires Attribute(e, "style") == Some("text-anchor:" + v)
    requires v == [] || !IsSpace(v[0])
    requires forall i :: 0 <= i < |v| ==> v[i] != '\n' && v[i] != ';'
    ensures ReadTextAlignment(Some(e)) == if v == "end" then Right else if v == "middle" then Center else Left
  {
    var key := "text-anchor";
    var piece := key + ":" + v;
    assert "text-anchor:" + v == piece;
    assert IsKey(key);
    MatchKeyValue(key, v);
    NoSemicolon(key + ":", v);
    OneDeclaration(piece, key, v);
    assert !IsBlank(piece) by { assert !IsSpace(piece[0]); }
  }

  lemma NoSemicolon(a: string, b: string)
    requires forall i :: 0 <= i < |a| ==> a[i] != ';'
    requires forall i :: 0 <= i < |b| ==> b[i] != ';'
    ensures forall i :: 0 <= i < |a + b| ==> (a + b)[i] != ';'
  {
    forall i | 0 <= i < |a + b| ensures (a + b)[i] != ';' {
      if i >= |a| { assert (a + b)[i] == b[i - |a|]; }
    }
  }

  /** A non-empty style block without ';' is one piece. */
  lemma SinglePiece(s: string)
    requires s != [] && forall i :: 0 <= i < |s| ==> s[i] != ';'
    ensures Pieces(s) == [s]
  {
    FindUnique(s, 0, ';', |s|);
    assert Split(s) == [s];
    assert [s][..0] == [];
    assert RemoveEmpty([s]) == RemoveEmpty([]) + [s];
  }

  // ---------------------------------------------------------------------
  // ReadTextSpans.
  // ---------------------------------------------------------------------

  /** The value parser's number readers, which are outside this model. */
  datatype Numbers = Numbers(readNumber: string -> real, readOptionalNumber: Option<string> -> Option<real>)

  /** `IsNullOrWhiteSpace(own) ? parent : own`. */
  function Fallback(own: Option<string>, parent: Option<string>): (r: Option<string>)
    ensures NullOrBlank(own) ==> r == parent
    ensures !NullOrBlank(own) ==> r == own
  {
    if NullOrBlank(own) then parent else own
  }

  /** What a tspan resolves, each attribute falling back to the parent element. */
  datatype Resolution = Resolution(family: Option<string>, weight: Option<string>, style: Option<string>, size: real)

  function Resolve(ce: XElement, e: XElement, nums: Numbers): (r: Resolution)
    ensures r.family == Fallback(ReadTextFontFamily(Some(ce)), ReadTextFontFamily(Some(e)))
    ensures r.weight == Fallback(ReadTextFontWeight(Some(ce)), ReadTextFontWeight(Some(e)))
    ensures r.style == Fallback(ReadTextFontStyle(Some(ce)), ReadTextFontStyle(Some(e)))
    ensures var own := ReadTextFontSize(Some(ce), nums.readNumber);
      r.size == if own <= 0.0 then ReadTextFontSize(Some(e), nums.readNumber) else own
  {
    var own := ReadTextFontSize(Some(ce), nums.readNumber);
    Resolution(
      Fallback(ReadTextFontFamily(Some(ce)), ReadTextFontFamily(Some(e))),
      Fallback(ReadTextFontWeight(Some(ce)), ReadTextFontWeight(Some(e))),
      Fallback(ReadTextFontStyle(Some(ce)), ReadTextFontStyle(Some(e))),
      if own <= 0.0 then ReadTextFontSize(Some(e), nums.readNumber) else own)
  }

  /** Whether any of the four steps calls a method on the local font. */
  predicate AnyResolved(r: Resolution) {
    !NullOrBlank(r.family) || !NullOrBlank(r.weight) || !NullOrBlank(r.style) || r.size > 0.0
  }

  /** The span's own font (None: not set) and the value of the Text element's font afterwards. */
  datatype SpanFont = SpanFont(font: Option<FontValue>, ambient: Option<FontValue>)

  /**
   * The font steps for one tspan, starting from the element's font (None:
   * null).  A resolved family makes a new font with the element's size and
   * IsBold false, which the weight and size steps then change; without one,
   * those steps change the element's own font and the span gets none.  A
   * step on a null font is a NullReferenceException: the result is None.
   */
  function TspanFont(ambient: Option<FontValue>, r: Resolution): Option<SpanFont> {
    if ambient.None? then
      if AnyResolved(r) then None else Some(SpanFont(None, None))
    else
      var a := ambient.value;
      var base := if !NullOrBlank(r.family) then FontValue(r.family.value, false, a.size) else a;
      var weighted := if !NullOrBlank(r.weight) then base.(bold := r.weight.value == "bold") else base;
      var sized := if r.size > 0.0 then weighted.(size := r.size) else weighted;
      if !NullOrBlank(r.family) then Some(SpanFont(Some(sized), ambient))
      else Some(SpanFont(None, Some(sized)))
  }

  /** A tspan is positioned only when both x and y read as numbers. */
  function TspanPosition(ce: XElement, nums: Numbers): (p: Option<Point>)
    ensures p.Some? <==> nums.readOptionalNumber(Attribute(ce, "x")).Some? &&
                          nums.readOptionalNumber(Attribute(ce, "y")).Some?
    ensures p.Some? ==> p.value == Point(nums.readOptionalNumber(Attribute(ce, "x")).value,
                                         nums.readOptionalNumber(Attribute(ce, "y")).value)
  {
    var x := nums.readOptionalNumber(Attribute(ce, "x"));
    var y := nums.readOptionalNumber(Attribute(ce, "y"));
    if x.Some? && y.Some? then Some(Point(x.value, y.value)) else None
  }

  /** The spans appended so far, the element's font value, and whether no exception was thrown. */
  datatype Walk = Walk(spans: seq<TextSpan<FontValue>>, ambient: Option<FontValue>, ok: bool)

  /**
   * One pass of the loop of ReadTextSpans, on values: the spans one child
   * contributes (none or one), the Text element's font afterwards, and
   * whether the pass completed.
   */
  function ChildStep(ambient: Option<FontValue>, e: XElement, c: Node, nums: Numbers): Walk {
    match c
    case TextNode(t) => Walk([TextSpan(None, None, t)], ambient, true)
    case ElementNode(ce) =>
      if ce.name != "tspan" then Walk([], ambient, true)
      else
        (match TspanFont(ambient, Resolve(ce, e, nums))
         case None => Walk([], ambient, false)
         case Some(sf) => Walk([TextSpan(TspanPosition(ce, nums), sf.font, Value(ce))], sf.ambient, true))
    case CDataNode(_) => Walk([], ambient, true)
    case OtherNode => Walk([], ambient, true)
  }

  /** The loop of ReadTextSpans over the first k children of e, on values; it stops at an exception. */
  function WalkChildren(e: XElement, k: nat, ambient: Option<FontValue>, nums: Numbers): Walk
    requires k <= |e.children|
    decreases k, 0
  {
    if k == 0 then Walk([], ambient, true) else WalkAfter(e, k - 1, ambient, nums)
  }

  /** The walk just after child j. */
  function WalkAfter(e: XElement, j: nat, ambient: Option<FontValue>, nums: Numbers): Walk
    requires j < |e.children|
    decreases j, 1
  {
    var w := WalkChildren(e, j, ambient, nums);
    if !w.ok then w
    else
      var n := ChildStep(w.ambient, e, e.children[j], nums);
      Walk(w.spans + n.spans, n.ambient, n.ok)
  }

  /** One more child: the walk goes on from where it was, unless it has stopped. */
  lemma WalkNext(e: XElement, i: nat, ambient: Option<FontValue>, nums: Numbers)
    requires i < |e.children|
    ensures var w := WalkChildren(e, i, ambient, nums);
      WalkChildren(e, i + 1, ambient, nums) ==
        if !w.ok then w
        else
          var n := ChildStep(w.ambient, e, e.children[i], nums);
          Walk(w.spans + n.spans, n.ambient, n.ok)
  {
  }

  /** The text each child contributes in document order: text nodes and tspans only. */
  function SpanTexts(e: XElement, k: nat): seq<string>
    requires k <= |e.children|
  {
    if k == 0 then []
    else
      match e.children[k - 1]
      case TextNode(t) => SpanTexts(e, k - 1) + [t]
      case ElementNode(ce) => if ce.name == "tspan" then SpanTexts(e, k - 1) + [Value(ce)] else SpanTexts(e, k - 1)
      case CDataNode(_) => SpanTexts(e, k - 1)
      case OtherNode => SpanTexts(e, k - 1)
  }

  /**
   * Spans are appended in document order, one per text child and one per
   * tspan child, holding the text child's text or the tspan's whole Value;
   * after an exception the spans appended so far are a prefix of those.
   */
  lemma {:induction false} WalkTexts(e: XElement, k: nat, ambient: Option<FontValue>, nums: Numbers)
    requires k <= |e.children|
    ensures var w, t := WalkChildren(e, k, ambient, nums), SpanTexts(e, k);
      |w.spans| <= |t| && (w.ok ==> |w.spans| == |t|) &&
      forall i :: 0 <= i < |w.spans| ==> w.spans[i].text == t[i]
  {
    if k > 0 {
      WalkTexts(e, k - 1, ambient, nums);
      WalkNext(e, k - 1, ambient, nums);
    }
  }

  /** A span gets a font of its own exactly when a family was resolved. */
  lemma SpanFontIffFamily(ambient: Option<FontValue>, r: Resolution)
    requires TspanFont(ambient, r).Some?
    ensures TspanFont(ambient, r).value.font.Some? <==> !NullOrBlank(r.family)
  {
  }

  /**
   * With a family, the span's font is new: that family, the element's size
   * unless a size resolved, bold exactly when the weight is "bold"; the
   * element's font is unchanged.
   */
  lemma FamilyMakesNewFont(a: FontValue, r: Resolution)
    requires !NullOrBlank(r.family)
    ensures var sf := TspanFont(Some(a), r).value;
      sf.ambient == Some(a) && sf.font.Some? &&
      sf.font.value.family == r.family.value &&
      sf.font.value.size == (if r.size > 0.0 then r.size else a.size) &&
      sf.font.value.bold == (!NullOrBlank(r.weight) && r.weight.value == "bold")
  {
  }

  /** Without a family, a resolved weight or size changes the element's own font and the span has none. */
  lemma NoFamilyChangesElementFont(a: FontValue, r: Resolution)
    requires NullOrBlank(r.family)
    ensures var sf := TspanFont(Some(a), r).value;
      sf.font.None? && sf.ambient.Some? &&
      sf.ambient.value.family == a.family &&
      sf.ambient.value.bold == (if !NullOrBlank(r.weight) then r.weight.value == "bold" else a.bold) &&
      sf.ambient.value.size == (if r.size > 0.0 then r.size else a.size)
  {
  }

  /** With a null element font, a tspan throws exactly when it resolves some attribute. */
  lemma NullFontThrows(r: Resolution)
    ensures TspanFont(None, r).None? <==> AnyResolved(r)
  {
  }

  /** The value of a possibly-null font. */
  function ValueOf(f: Font?): (v: Option<FontValue>)
    reads f
    ensures v.Some? <==> f != null
  {
    if f == null then None else Some(f.Value())
  }

  /** The fonts that spans hold. */
  function FontsOf(spans: seq<TextSpan<Font>>): set<Font> {
    set i | 0 <= i < |spans| && spans[i].font.Some? :: spans[i].font.value
  }

  /** A span read by value. */
  function SpanValue(s: TextSpan<Font>): TextSpan<FontValue>
    reads if s.font.Some? then {s.font.value} else {}
  {
    TextSpan(s.position, if s.font.Some? then Some(s.font.value.Value()) else None, s.text)
  }

  /** Spans read by value. */
  function Snapshot(spans: seq<TextSpan<Font>>): (r: seq<TextSpan<FontValue>>)
    reads FontsOf(spans)
    ensures |r| == |spans|
  {
    if spans == [] then []
    else
      var init := spans[..|spans| - 1];
      assert FontsOf(init) <= FontsOf(spans);
      Snapshot(init) + [SpanValue(spans[|spans| - 1])]
  }

  /** Spans read by value are the same in two states that agree on their fonts. */
  twostate lemma {:induction false} SnapshotUnchanged(spans: seq<TextSpan<Font>>)
    requires forall f :: f in FontsOf(spans) ==> unchanged(f)
    ensures Snapshot(spans) == old(Snapshot(spans))
  {
    if spans != [] {
      var init := spans[..|spans| - 1];
      assert FontsOf(init) <= FontsOf(spans);
      SnapshotUnchanged(init);
    }
  }

  lemma SnapshotAppend(spans: seq<TextSpan<Font>>, s: TextSpan<Font>)
    ensures Snapshot(spans + [s]) == Snapshot(spans) + [SpanValue(s)]
  {
    assert (spans + [s])[..|spans|] == spans;
  }

  lemma FontsOfAppend(spans: seq<TextSpan<Font>>, s: TextSpan<Font>)
    ensures FontsOf(spans + [s]) == FontsOf(spans) + (if s.font.Some? then {s.font.value} else {})
  {
    var all := spans + [s];
    forall f | f in FontsOf(all) ensures f in FontsOf(spans) || (s.font.Some? && f == s.font.value) {
      var i :| 0 <= i < |all| && all[i].font.Some? && all[i].font.value == f;
      if i < |spans| { assert all[i] == spans[i]; }
    }
    forall f | f in FontsOf(spans) ensures f in FontsOf(all) {
      var i :| 0 <= i < |spans| && spans[i].font.Some? && spans[i].font.value == f;
      assert all[i] == spans[i];
    }
    if s.font.Some? {
      assert all[|spans|] == s;
    }
  }

  /** Appending what one child contributes (nothing or one span), read by value. */
  lemma SnapshotAtMostOne(spans: seq<TextSpan<Font>>, added: seq<TextSpan<Font>>)
    requires |added| <= 1
    ensures Snapshot(spans + added) == Snapshot(spans) + Snapshot(added)
  {
    if added == [] {
      assert spans + added == spans;
    } else {
      SnapshotAppend(spans, added[0]);
      SnapshotAppend([], added[0]);
      assert [] + [added[0]] == added;
    }
  }

  /** Appending what one child contributes (nothing or one span), by font. */
  lemma FontsOfAtMostOne(spans: seq<TextSpan<Font>>, added: seq<TextSpan<Font>>)
    requires |added| <= 1
    ensures FontsOf(spans + added) == FontsOf(spans) + FontsOf(added)
  {
    if added == [] {
      assert spans + added == spans;
    } else {
      assert added == [added[0]] == [] + [added[0]];
      FontsOfAppend(spans, added[0]);
      FontsOfAppend([], added[0]);
      assert FontsOf([]) == {};
    }
  }

  /** Once an exception has been thrown, the walk is over. */
  lemma {:induction false} WalkStaysFailed(e: XElement, k: nat, n: nat, ambient: Option<FontValue>, nums: Numbers)
    requires k <= n <= |e.children|
    requires !WalkChildren(e, k, ambient, nums).ok
    ensures WalkChildren(e, n, ambient, nums) == WalkChildren(e, k, ambient, nums)
    decreases n - k
  {
    if k < n {
      WalkStaysFailed(e, k, n - 1, ambient, nums);
      WalkNext(e, n - 1, ambient, nums);
    }
  }

  /**
   * The tspan branch of ReadTextSpans: the four font steps on the local
   * `font`, which starts as the Text element's font.  ok is false when a
   * step is called on a null font (the NullReferenceException).
   */
  method ReadTspan(elementFont: Font?, e: XElement, ce: XElement, nums: Numbers)
    returns (ok: bool, span: TextSpan<Font>)
    modifies elementFont
    ensures !ok ==> elementFont == null
    ensures var sf := TspanFont(old(ValueOf(elementFont)), Resolve(ce, e, nums));
      ok == sf.Some? &&
      (ok ==>
        span.position == TspanPosition(ce, nums) && span.text == Value(ce) &&
        (span.font.Some? <==> sf.value.font.Some?) &&
        (span.font.Some? ==> fresh(span.font.value) && span.font.value.Value() == sf.value.font.value) &&
        ValueOf(elementFont) == sf.value.ambient)
  {
    var r := Resolve(ce, e, nums);
    var font;
    ok, font := ApplyResolution(elementFont, r);
    span := TextSpan(TspanPosition(ce, nums), None, Value(ce));
    if ok && font != elementFont {
      var f: Font := font;
      span := span.(font := Some(f));
    }
  }

  /**
   * The font chain of ReadTspan: each resolved attribute is applied in turn,
   * starting from the Text element's font; a null font throws.  The result
   * is a new font exactly when a family was given.
   */
  method ApplyResolution(elementFont: Font?, r: Resolution) returns (ok: bool, font: Font?)
    modifies elementFont
    ensures !ok ==> elementFont == null
    ensures var sf := TspanFont(old(ValueOf(elementFont)), r);
      ok == sf.Some? &&
      (ok ==>
        (font != elementFont <==> sf.value.font.Some?) &&
        (font != elementFont ==> font != null && fresh(font) && font.Value() == sf.value.font.value) &&
        ValueOf(elementFont) == sf.value.ambient)
  {
    font := elementFont;
    ok := false;
    if !NullOrBlank(r.family) {
      if font == null { return; }
      font := font.WithFamily(r.family.value);
    }
    if !NullOrBlank(r.weight) {
      if font == null { return; }
      font := font.WithWeight(r.weight.value);
    }
    if !NullOrBlank(r.style) {
      if font == null { return; }
      font := font.WithStyle(r.style.value);
    }
    if r.size > 0.0 {
      if font == null { return; }
      font := font.WithSize(r.size);
    }
    ok := true;
  }

  /**
   * One child in the loop of ReadTextSpans: a text node gives a span without
   * a font, a tspan element gives the span ReadTspan builds and may change the
   * Text element's font, other children give nothing.
   */
  method ReadChild(font: Font?, e: XElement, c: Node, nums: Numbers)
    returns (ok: bool, added: seq<TextSpan<Font>>)
    modifies font
    ensures |added| <= 1
    ensures forall f :: f in FontsOf(added) ==> fresh(f)
    ensures var n := ChildStep(old(ValueOf(font)), e, c, nums);
      ok == n.ok && Snapshot(added) == n.spans && ValueOf(font) == n.ambient
  {
    ok := true;
    added := [];
    match c {
      case TextNode(t) =>
        added := [TextSpan(None, None, t)];
      case ElementNode(ce) =>
        if ce.name == "tspan" {
          var span;
          ok, span := ReadTspan(font, e, ce, nums);
          if ok {
            added := [span];
          }
        }
      case CDataNode(_) =>
      case OtherNode =>
    }
  }

  /** One pass of the loop of ReadTextSpans, carrying the walk so far. */
  method ReadNext(font: Font?, e: XElement, i: nat, nums: Numbers, appended: seq<TextSpan<Font>>,
                  ghost start: Option<FontValue>, ghost w: Walk)
    returns (ok: bool, appended': seq<TextSpan<Font>>, ghost w': Walk)
    requires i < |e.children|
    requires w == WalkChildren(e, i, start, nums) && w.ok
    requires Snapshot(appended) == w.spans && ValueOf(font) == w.ambient
    requires font == null || font !in FontsOf(appended)
    modifies font
    ensures w' == WalkChildren(e, i + 1, start, nums) && ok == w'.ok
    ensures Snapshot(appended') == w'.spans && ValueOf(font) == w'.ambient
    ensures forall f :: f in FontsOf(appended') ==> f in FontsOf(appended) || fresh(f)
  {
    ghost var before := Snapshot(appended);
    label pre:
    var added;
    ok, added := ReadChild(font, e, e.children[i], nums);
    SnapshotUnchanged@pre(appended);
    SnapshotAtMostOne(appended, added);
    FontsOfAtMostOne(appended, added);
    ghost var n := ChildStep(w.ambient, e, e.children[i], nums);
    w' := Walk(w.spans + n.spans, n.ambient, n.ok);
    WalkNext(e, i, start, nums);
    appended' := appended + added;
  }

  /**
   * ReadTextSpans: one span per text child and per tspan child, in order,
   * then Text.Trim.  The spans appended are new values; their fonts are new
   * objects.  The Text element's font object stays the same, but its value
   * may change (a tspan that resolves a weight or size without a family).
   * When a tspan calls a method on a null element font the walk stops with
   * the spans appended so far and Trim is not reached (ok is false).
   */
  method ReadTextSpans(txt: Text, e: XElement, nums: Numbers) returns (ok: bool, ghost appended: seq<TextSpan<Font>>)
    modifies txt, txt.font
    ensures txt.font == old(txt.font)
    ensures txt.frame == old(txt.frame) && txt.alignment == old(txt.alignment)
    ensures txt.pen == old(txt.pen) && txt.brush == old(txt.brush)
    ensures forall f :: f in FontsOf(appended) ==> fresh(f)
    ensures var w := WalkChildren(e, |e.children|, old(ValueOf(txt.font)), nums);
      ok == w.ok && Snapshot(appended) == w.spans && ValueOf(txt.font) == w.ambient
    ensures txt.spans == if ok then Trimmed(old(txt.spans) + appended) else old(txt.spans) + appended
  {
    var spans;
    ok, spans := ReadChildren(txt.font, e, nums);
    appended := spans;
    txt.spans := txt.spans + spans;
    if ok {
      ghost var before := Snapshot(appended);
      txt.Trim();
      assert Snapshot(appended) == before;
    }
  }

  /** The loop of ReadTextSpans, before the spans are added to the Text element and trimmed. */
  method ReadChildren(font: Font?, e: XElement, nums: Numbers) returns (ok: bool, appended: seq<TextSpan<Font>>)
    modifies font
    ensures forall f :: f in FontsOf(appended) ==> fresh(f)
    ensures var w := WalkChildren(e, |e.children|, old(ValueOf(font)), nums);
      ok == w.ok && Snapshot(appended) == w.spans && ValueOf(font) == w.ambient
  {
    appended := [];
    ghost var start := ValueOf(font);
    ghost var w := Walk([], start, true);
    var i := 0;
    ok := true;
    while ok && i < |e.children|
      invariant 0 <= i <= |e.children|
      invariant forall f :: f in FontsOf(appended) ==> fresh(f)
      invariant w == WalkChildren(e, i, start, nums) && ok == w.ok
      invariant Snapshot(appended) == w.spans && ValueOf(font) == w.ambient
    {
      assert font == null || font !in FontsOf(appended);
      ok, appended, w := ReadNext(font, e, i, nums, appended, start, w);
      i := i + 1;
    }
    if !ok {
      WalkStaysFailed(e, i, |e.children|, start, nums);
    }
  }
}

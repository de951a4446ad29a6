/** The .NET string operations the core relies on: whitespace tests, trimming, joining. */
module Strings {

  /** Char.IsWhiteSpace, restricted to the ASCII white space and NEL, NBSP. */
  predicate IsSpace(c: char) {
    c == ' ' || c == '\t' || c == '\n' || c == '\r' || c == '\U{000B}' || c == '\U{000C}'
    || c == '\U{0085}' || c == '\U{00A0}'
  }

  /** string.IsNullOrWhiteSpace of a non-null string. */
  predicate IsBlank(s: string) {
    forall k :: 0 <= k < |s| ==> IsSpace(s[k])
  }

  /** The end of the run of white space that starts at i. */
  function SkipSpace(s: string, i: nat): (j: nat)
    requires i <= |s|
    ensures i <= j <= |s|
    ensures forall k :: i <= k < j ==> IsSpace(s[k])
    ensures j == |s| || !IsSpace(s[j])
    decreases |s| - i
  {
    if i < |s| && IsSpace(s[i]) then SkipSpace(s, i + 1) else i
  }

  /** The start of the run of white space that ends at j. */
  function BackSpace(s: string, j: nat): (i: nat)
    requires j <= |s|
    ensures i <= j
    ensures forall k :: i <= k < j ==> IsSpace(s[k])
    ensures i == 0 || !IsSpace(s[i - 1])
  {
    if j > 0 && IsSpace(s[j - 1]) then BackSpace(s, j - 1) else j
  }

  /** A white-space run is determined by where it starts and that it is maximal. */
  lemma SkipSpaceUnique(s: string, i: nat, j: nat)
    requires i <= j <= |s|
    requires forall k :: i <= k < j ==> IsSpace(s[k])
    requires j == |s| || !IsSpace(s[j])
    ensures SkipSpace(s, i) == j
  {
  }

  lemma BackSpaceUnique(s: string, i: nat, j: nat)
    requires i <= j <= |s|
    requires forall k :: i <= k < j ==> IsSpace(s[k])
    requires i == 0 || !IsSpace(s[i - 1])
    ensures BackSpace(s, j) == i
  {
  }

  /** string.TrimStart(): drops the leading white space. */
  function TrimStart(s: string): (r: string)
    ensures r == [] || !IsSpace(r[0])
  {
    s[SkipSpace(s, 0)..]
  }

  /** string.TrimEnd(): drops the trailing white space. */
  function TrimEnd(s: string): (r: string)
    ensures r == [] || !IsSpace(r[|r| - 1])
  {
    s[..BackSpace(s, |s|)]
  }

  /** string.Trim(): drops white space at both ends. */
  function Trim(s: string): string {
    TrimEnd(TrimStart(s))
  }

  /** string.Join(sep, ss). */
  function Join(sep: string, ss: seq<string>): string {
    if ss == [] then []
    else if |ss| == 1 then ss[0]
    else Join(sep, ss[..|ss| - 1]) + sep + ss[|ss| - 1]
  }

  /** Join read from the front: the first string, the separator, then the rest joined. */
  lemma {:induction false} JoinCons(sep: string, a: string, rest: seq<string>)
    requires rest != []
    ensures Join(sep, [a] + rest) == a + sep + Join(sep, rest)
  {
    var n := |rest|;
    var all := [a] + rest;
    assert all[n] == rest[n - 1];
    if n == 1 {
      assert all[..1] == [a];
    } else {
      assert all[..n] == [a] + rest[..n - 1];
      JoinCons(sep, a, rest[..n - 1]);
    }
  }

  lemma BlankIffTrimStartEmpty(s: string)
    ensures IsBlank(s) <==> TrimStart(s) == []
  {
    if IsBlank(s) { SkipSpaceUnique(s, 0, |s|); }
  }

  lemma BlankIffTrimEndEmpty(s: string)
    ensures IsBlank(s) <==> TrimEnd(s) == []
  {
    if IsBlank(s) { BackSpaceUnique(s, 0, |s|); }
  }

  /** TrimStart keeps a string blank exactly when it was blank. */
  lemma TrimStartBlank(t: string)
    ensures IsBlank(TrimStart(t)) <==> IsBlank(t)
  {
    BlankIffTrimStartEmpty(t);
  }

  /** TrimEnd keeps a string blank exactly when it was blank. */
  lemma TrimEndBlank(t: string)
    ensures IsBlank(TrimEnd(t)) <==> IsBlank(t)
  {
    BlankIffTrimEndEmpty(t);
  }

  /** A string that does not start with white space is its own TrimStart. */
  lemma TrimStartFixed(t: string)
    requires t == [] || !IsSpace(t[0])
    ensures TrimStart(t) == t
  {
    SkipSpaceUnique(t, 0, 0);
  }

  /** A string that does not end with white space is its own TrimEnd. */
  lemma TrimEndFixed(t: string)
    requires t == [] || !IsSpace(t[|t| - 1])
    ensures TrimEnd(t) == t
  {
    BackSpaceUnique(t, |t|, |t|);
  }

  /** TrimEnd keeps the first character of a string that is not blank. */
  lemma TrimEndKeepsFront(t: string)
    requires !IsBlank(t)
    ensures TrimEnd(t) != [] && TrimEnd(t)[0] == t[0]
  {
    BlankIffTrimEndEmpty(t);
  }

  /** Trimming the front of a concatenation passes over a blank first part. */
  lemma TrimStartAppend(a: string, b: string)
    ensures TrimStart(a + b) == if IsBlank(a) then TrimStart(b) else TrimStart(a) + b
  {
    var s := a + b;
    if IsBlank(a) {
      var j := |a| + SkipSpace(b, 0);
      forall k | 0 <= k < j ensures IsSpace(s[k]) {
        if k < |a| { assert s[k] == a[k]; } else { assert s[k] == b[k - |a|]; }
      }
      if j < |s| { assert s[j] == b[j - |a|]; }
      SkipSpaceUnique(s, 0, j);
      assert s[j..] == b[SkipSpace(b, 0)..];
    } else {
      var j := SkipSpace(a, 0);
      assert j < |a|;
      forall k | 0 <= k < j ensures IsSpace(s[k]) {
        assert s[k] == a[k];
      }
      assert s[j] == a[j];
      SkipSpaceUnique(s, 0, j);
      assert s[j..] == a[j..] + b;
    }
  }

  /** Trimming the back of a concatenation passes over a blank last part. */
  lemma TrimEndAppend(a: string, b: string)
    ensures TrimEnd(a + b) == if IsBlank(b) then TrimEnd(a) else a + TrimEnd(b)
  {
    var s := a + b;
    if IsBlank(b) {
      var i := BackSpace(a, |a|);
      forall k | i <= k < |s| ensures IsSpace(s[k]) {
        if k < |a| { assert s[k] == a[k]; } else { assert s[k] == b[k - |a|]; }
      }
      if i > 0 { assert s[i - 1] == a[i - 1]; }
      BackSpaceUnique(s, i, |s|);
      assert s[..i] == a[..i];
    } else {
      var i := |a| + BackSpace(b, |b|);
      assert i > |a|;
      forall k | i <= k < |s| ensures IsSpace(s[k]) {
        assert s[k] == b[k - |a|];
      }
      assert s[i - 1] == b[i - 1 - |a|];
      BackSpaceUnique(s, i, |s|);
      assert s[..i] == a + b[..BackSpace(b, |b|)];
    }
  }
}

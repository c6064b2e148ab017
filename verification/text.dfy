/**
 * The two JavaScript string tests the app relies on: truthiness of an
 * optional string (`if (!userId)`) and blankness after `String.prototype.trim`
 * (`if (!text.trim())`).
 */
module Text {
  import opened Types

  /**
   * The code points `trim` strips: ECMAScript WhiteSpace (tab, vertical tab,
   * form feed, space, no-break space, byte-order mark and the Unicode space
   * separators) and LineTerminator (line feed, carriage return, line and
   * paragraph separators).
   */
  predicate IsSpace(c: char) {
    || c == '\t' || c == '\n' || c == '\U{000B}' || c == '\U{000C}' || c == '\r'
    || c == ' ' || c == '\U{00A0}' || c == '\U{1680}'
    || ('\U{2000}' <= c <= '\U{200A}')
    || c == '\U{2028}' || c == '\U{2029}' || c == '\U{202F}' || c == '\U{205F}'
    || c == '\U{3000}' || c == '\U{FEFF}'
  }

  predicate AllSpace(s: string) {
    forall i :: 0 <= i < |s| ==> IsSpace(s[i])
  }

  /** `s.trimStart()`: the suffix left after dropping leading white space. */
  function TrimStart(s: string): (r: string)
    ensures |r| <= |s| && r == s[|s| - |r|..]
    ensures AllSpace(s[..|s| - |r|])
    ensures r != [] ==> !IsSpace(r[0])
    decreases |s|
  {
    if s != [] && IsSpace(s[0]) then
      var r := TrimStart(s[1..]);
      assert s[..|s| - |r|] == [s[0]] + s[1..][..|s| - 1 - |r|];
      r
    else
      s
  }

  /** `s.trimEnd()`: the prefix left after dropping trailing white space. */
  function TrimEnd(s: string): (r: string)
    ensures |r| <= |s| && r == s[..|r|]
    ensures AllSpace(s[|r|..])
    ensures r != [] ==> !IsSpace(r[|r| - 1])
    decreases |s|
  {
    if s != [] && IsSpace(s[|s| - 1]) then
      var r := TrimEnd(s[..|s| - 1]);
      assert s[|r|..] == s[..|s| - 1][|r|..] + [s[|s| - 1]];
      r
    else
      s
  }

  /**
   * `s.trim()`: empty exactly when `s` is all white space, with non-space
   * characters at both ends otherwise; `TrimIsSlice` adds that it is one
   * slice of `s` with only white space cut away.
   */
  function Trim(s: string): (r: string)
    ensures AllSpace(s) <==> r == []
    ensures r != [] ==> !IsSpace(r[0]) && !IsSpace(r[|r| - 1])
    ensures |r| <= |s|
  {
    TrimEmptyIffAllSpace(s);
    TrimKeepsNonSpaceEnds(s);
    TrimEnd(TrimStart(s))
  }

  /** What `trim` keeps is one slice of the input, with only white space cut on either side. */
  lemma TrimIsSlice(s: string)
    ensures var r := Trim(s);
            exists i, j :: 0 <= i <= j <= |s| && r == s[i..j] && AllSpace(s[..i]) && AllSpace(s[j..])
  {
    var t := TrimStart(s);
    var r := TrimEnd(t);
    var i := |s| - |t|;
    var j := i + |r|;
    SliceOfSlice(s, t, r, i);
    assert AllSpace(s[..i]) && AllSpace(t[|r|..]);
  }

  /** A prefix of a suffix is a slice, and what follows it is a suffix. */
  lemma SliceOfSlice(s: string, t: string, r: string, i: nat)
    requires i <= |s| && t == s[i..] && |r| <= |t| && r == t[..|r|]
    ensures s[i..i + |r|] == r && s[i + |r|..] == t[|r|..]
  {
  }

  lemma TrimKeepsNonSpaceEnds(s: string)
    ensures var r := TrimEnd(TrimStart(s));
            |r| <= |s| && (r != [] ==> !IsSpace(r[0]) && !IsSpace(r[|r| - 1]))
  {
    var t := TrimStart(s);
    var r := TrimEnd(t);
    if r != [] {
      assert r[0] == t[0];
    }
  }

  lemma TrimEmptyIffAllSpace(s: string)
    ensures TrimEnd(TrimStart(s)) == [] <==> AllSpace(s)
  {
    var t := TrimStart(s);
    if TrimEnd(t) == [] {
      EmptyTrimIsAllSpace(s, t);
    } else {
      NonEmptyTrimHasNonSpace(s, t);
    }
  }

  lemma EmptyTrimIsAllSpace(s: string, t: string)
    requires t == TrimStart(s) && TrimEnd(t) == []
    ensures AllSpace(s)
  {
    var k := |s| - |t|;
    assert t == s[k..] && AllSpace(s[..k]);
    assert AllSpace(t[0..]) && t[0..] == t;
    AllSpaceSplit(s, k);
  }

  lemma AllSpaceSplit(s: string, k: nat)
    requires k <= |s| && AllSpace(s[..k]) && AllSpace(s[k..])
    ensures AllSpace(s)
  {
  }

  lemma NonEmptyTrimHasNonSpace(s: string, t: string)
    requires t == TrimStart(s) && TrimEnd(t) != []
    ensures !AllSpace(s)
  {
    var k := |s| - |t|;
    assert t != [];
    assert t[0] == s[k];
  }

  /** `!s.trim()`: the string is empty or white space only. */
  predicate Blank(s: string) {
    Trim(s) == []
  }

  /** Truthiness of an optional string: present and not the empty string. */
  predicate Truthy(o: Option<string>) {
    o.Some? && o.value != ""
  }

  /** A blank string holds no character other than white space, and conversely. */
  lemma BlankIffAllSpace(s: string)
    ensures Blank(s) <==> AllSpace(s)
  {
  }

  /** A string that survives the trim check is in particular not the empty string. */
  lemma NotBlankIsNonEmpty(s: string)
    ensures !Blank(s) ==> s != ""
  {
  }
}

/** The few `java.lang.String` behaviours the audit core relies on. */
module JavaText {
  import opened Wrappers

  /**
   * `Character.isWhitespace`: the Unicode space, line and paragraph separators
   * other than the no-break spaces U+00A0, U+2007 and U+202F, plus the ASCII
   * controls tab, line feed, vertical tab, form feed, carriage return and
   * U+001C..U+001F.
   */
  predicate IsWhitespace(c: char)
  {
    || c == ' ' || c == '\t' || c == '\n' || c == '\U{B}' || c == '\U{C}' || c == '\r'
    || ('\U{1C}' <= c <= '\U{1F}')
    || c == '\U{1680}'
    || ('\U{2000}' <= c <= '\U{2006}')
    || ('\U{2008}' <= c <= '\U{200A}')
    || c == '\U{2028}' || c == '\U{2029}' || c == '\U{205F}' || c == '\U{3000}'
  }

  /** True when every character of `s` is whitespace (the empty string included). */
  predicate AllWhitespace(s: string)
  {
    forall i :: 0 <= i < |s| ==> IsWhitespace(s[i])
  }

  /** `s` with its leading whitespace removed. */
  function StripLeading(s: string): (r: string)
    ensures |r| <= |s| && r == s[|s| - |r|..]
    ensures AllWhitespace(s[..|s| - |r|])
    ensures r == [] <==> AllWhitespace(s)
    ensures r != [] ==> !IsWhitespace(r[0])
  {
    if s == [] then []
    else if IsWhitespace(s[0]) then StripLeading(s[1..])
    else s
  }

  /** `s` with its trailing whitespace removed. */
  function StripTrailing(s: string): (r: string)
    ensures |r| <= |s| && r == s[..|r|]
    ensures AllWhitespace(s[|r|..])
    ensures r == [] <==> AllWhitespace(s)
    ensures r != [] ==> !IsWhitespace(r[|r| - 1])
  {
    if s == [] then []
    else if IsWhitespace(s[|s| - 1]) then StripTrailing(s[..|s| - 1])
    else s
  }

  /** `r` is an infix of `s` with nothing but whitespace before and after it. */
  predicate WhitespaceBordered(s: string, r: string)
  {
    exists i :: 0 <= i <= |s| - |r| && r == s[i..i + |r|] && AllWhitespace(s[..i]) && AllWhitespace(s[i + |r|..])
  }

  /**
   * `String.strip()`: `s` with its leading and trailing whitespace removed, an
   * infix that neither starts nor ends with whitespace; empty exactly when
   * `s` is blank.
   */
  function Strip(s: string): (r: string)
    ensures r == [] <==> AllWhitespace(s)
    ensures r != [] ==> !IsWhitespace(r[0]) && !IsWhitespace(r[|r| - 1])
    ensures |r| <= |s|
    ensures WhitespaceBordered(s, r)
  {
    var lead := StripLeading(s);
    StripInfix(s, lead, StripTrailing(lead));
    StripTrailing(lead)
  }

  /**
   * Whitespace cut from the front of `s`, then from the back of what is left,
   * borders an infix of `s` that is empty or starts and ends with
   * non-whitespace.
   */
  lemma StripInfix(s: string, lead: string, r: string)
    requires |lead| <= |s| && lead == s[|s| - |lead|..] && AllWhitespace(s[..|s| - |lead|])
    requires lead == [] <==> AllWhitespace(s)
    requires lead != [] ==> !IsWhitespace(lead[0])
    requires |r| <= |lead| && r == lead[..|r|] && AllWhitespace(lead[|r|..])
    requires r == [] <==> AllWhitespace(lead)
    requires r != [] ==> !IsWhitespace(r[|r| - 1])
    ensures r == [] <==> AllWhitespace(s)
    ensures r != [] ==> !IsWhitespace(r[0]) && !IsWhitespace(r[|r| - 1])
    ensures WhitespaceBordered(s, r)
  {
    var i := |s| - |lead|;
    assert AllWhitespace(lead) <==> lead == [] by {
      if lead != [] {
        assert !IsWhitespace(lead[0]);
      }
    }
    if r != [] {
      assert r[0] == lead[0];
    }
    assert s[i + |r|..] == lead[|r|..];
    assert r == s[i..i + |r|];
  }

  /** What `String.format("%s", s)` prints for a possibly-null string. */
  function FormatArg(s: Str): (r: string)
    ensures s.Some? ==> r == s.value
    ensures s.None? ==> r == "null"
  {
    match s
    case Some(v) => v
    case None => "null"
  }
}

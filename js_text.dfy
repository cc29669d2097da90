/**
 * The few pieces of JavaScript's string semantics that the two transforms rely on:
 * the character classes behind `\s`, `.` and `String.prototype.trim`, the falsy
 * empty string used with `||`, and upper-casing of single characters.
 */
module JsText {

  /** A line terminator (ECMAScript LineTerminator): LF, CR, LINE SEPARATOR, PARAGRAPH SEPARATOR.
      The regular-expression `.` matches any character except these. */
  predicate IsLineTerminator(c: char) {
    c == '\n' || c == '\r' || c == '\U{2028}' || c == '\U{2029}'
  }

  /** ECMAScript WhiteSpace: TAB, VT, FF, SPACE, NBSP, ZWNBSP and the other space separators (Zs). */
  predicate IsWhiteSpace(c: char) {
    || c == '\t' || c == '\U{000B}' || c == '\U{000C}' || c == ' '
    || c == '\U{00A0}' || c == '\U{FEFF}' || c == '\U{1680}'
    || ('\U{2000}' <= c <= '\U{200A}')
    || c == '\U{202F}' || c == '\U{205F}' || c == '\U{3000}'
  }

  /** What the regular-expression class `\s` matches and what `trim` removes. */
  predicate IsSpace(c: char) {
    IsWhiteSpace(c) || IsLineTerminator(c)
  }

  predicate AllSpace(s: string) {
    forall i :: 0 <= i < |s| ==> IsSpace(s[i])
  }

  predicate NoLineTerminator(s: string) {
    forall i :: 0 <= i < |s| ==> !IsLineTerminator(s[i])
  }

  /** JavaScript's `s || d` for a string `s`: the empty string is the only falsy string. */
  function OrElse(s: string, d: string): (r: string)
    ensures s != "" ==> r == s
    ensures s == "" ==> r == d
  {
    if s != "" then s else d
  }

  /** Leading white space and line terminators removed. */
  function TrimStart(s: string): (r: string)
    ensures |r| <= |s| && r == s[|s| - |r|..]
    ensures AllSpace(s[..|s| - |r|])
    ensures r == [] || !IsSpace(r[0])
    decreases |s|
  {
    if |s| > 0 && IsSpace(s[0]) then
      var r := TrimStart(s[1..]);
      SpaceBeforeSuffix(s, r);
      r
    else s
  }

  /** A leading white-space character followed by white space up to the suffix `r` of the rest. */
  lemma SpaceBeforeSuffix(s: string, r: string)
    requires |s| > 0 && IsSpace(s[0])
    requires |r| <= |s| - 1 && r == s[1..][|s| - 1 - |r|..] && AllSpace(s[1..][..|s| - 1 - |r|])
    ensures r == s[|s| - |r|..] && AllSpace(s[..|s| - |r|])
  {
    var n := |s| - |r|;
    assert s[1..][n - 1..] == s[n..];
    forall t | 0 <= t < n ensures IsSpace(s[..n][t]) {
      if t > 0 {
        assert s[..n][t] == s[1..][..n - 1][t - 1];
      }
    }
  }

  /** Trailing white space and line terminators removed. */
  function TrimEnd(s: string): (r: string)
    ensures |r| <= |s| && r == s[..|r|]
    ensures AllSpace(s[|r|..])
    ensures r == [] || !IsSpace(r[|r| - 1])
    decreases |s|
  {
    if |s| > 0 && IsSpace(s[|s| - 1]) then TrimEnd(s[..|s| - 1]) else s
  }

  /** `String.prototype.trim`: the longest infix of `s` that neither starts nor ends with white space,
      with only white space cut on either side. */
  function Trim(s: string): (r: string)
    ensures exists i, j :: 0 <= i <= j <= |s| && r == s[i..j] && AllSpace(s[..i]) && AllSpace(s[j..])
    ensures r == [] || (!IsSpace(r[0]) && !IsSpace(r[|r| - 1]))
  {
    var t := TrimStart(s);
    var r := TrimEnd(t);
    TrimPieces(s, t, r);
    r
  }

  /** Cutting white space off the front and then off the back cuts a slice out of the middle. */
  lemma TrimPieces(s: string, t: string, r: string)
    requires |t| <= |s| && t == s[|s| - |t|..] && AllSpace(s[..|s| - |t|])
    requires |r| <= |t| && r == t[..|r|] && AllSpace(t[|r|..])
    ensures var i := |s| - |t|;
      r == s[i..i + |r|] && AllSpace(s[..i]) && AllSpace(s[i + |r|..])
  {
    var i := |s| - |t|;
    var j := i + |r|;
    assert s[i..j] == t[..|r|];
    assert s[j..] == t[|r|..];
  }

  /** Trailing white space contributes nothing to `TrimEnd`. */
  lemma {:induction false} TrimEndSpaceTail(p: string, w: string)
    requires AllSpace(w)
    ensures TrimEnd(p + w) == TrimEnd(p)
    decreases |w|
  {
    if |w| > 0 {
      var w' := w[..|w| - 1];
      assert (p + w)[..|p + w| - 1] == p + w';
      TrimEndSpaceTail(p, w');
    } else {
      assert p + w == p;
    }
  }

  /** `TrimEnd` of a concatenation whose tail holds a non-space character only trims the tail. */
  lemma {:induction false} TrimEndKeepsPrefix(p: string, v: string)
    requires !AllSpace(v)
    ensures TrimEnd(p + v) == p + TrimEnd(v)
    decreases |v|
  {
    assert |v| > 0;
    var last := v[|v| - 1];
    assert (p + v)[|p + v| - 1] == last;
    if IsSpace(last) {
      var v' := v[..|v| - 1];
      assert !AllSpace(v') by {
        var i :| 0 <= i < |v| && !IsSpace(v[i]);
        assert v'[i] == v[i];
      }
      assert (p + v)[..|p + v| - 1] == p + v';
      TrimEndKeepsPrefix(p, v');
    }
  }

  /** Upper-case of a single ASCII letter; every other character is left alone. */
  function UpperChar(c: char): (r: char)
    ensures 'a' <= c <= 'z' ==> 'A' <= r <= 'Z' && r as int - c as int == 'A' as int - 'a' as int
    ensures !('a' <= c <= 'z') ==> r == c
  {
    if 'a' <= c <= 'z' then (c as int - 'a' as int + 'A' as int) as char else c
  }

  function UpperString(s: string): (r: string)
    ensures |r| == |s|
    ensures forall i :: 0 <= i < |s| ==> r[i] == UpperChar(s[i])
  {
    if s == [] then [] else [UpperChar(s[0])] + UpperString(s[1..])
  }

  /** Two strings equal up to ASCII case: what a JavaScript `i` regular expression uses to compare
      a literal made of ASCII letters (non-ASCII characters never fold onto ASCII ones there). */
  predicate EqualIgnoringCase(s: string, t: string) {
    |s| == |t| && forall i :: 0 <= i < |s| ==> UpperChar(s[i]) == UpperChar(t[i])
  }

  /** `s.charAt(0).toUpperCase() + s.slice(1)`. */
  function Capitalize(s: string): (r: string)
    ensures |r| == |s|
    ensures s != [] ==> r[0] == UpperChar(s[0]) && r[1..] == s[1..]
    ensures s != [] && !('a' <= s[0] <= 'z') ==> r == s
  {
    if s == [] then [] else [UpperChar(s[0])] + s[1..]
  }
}

/**
 * The two JavaScript string built-ins the reducers rely on:
 * `String.prototype.trim` (the blank-input guard of `sendChineseText`) and
 * `Array.prototype.join("\n")` (the twitch and blacklist cells).
 */
module Text {

  /**
   * The characters `String.prototype.trim` removes: ECMAScript's WhiteSpace
   * (tab, vertical tab, form feed, ZWNBSP and every space separator of
   * category Zs) and LineTerminator (LF, CR, LS, PS).
   */
  predicate IsJsWhitespace(c: char) {
    || c == '\t' || c == '\U{B}' || c == '\U{C}' || c == ' '
    || c == '\U{A0}' || c == '\U{FEFF}' || c == '\U{1680}'
    || ('\U{2000}' <= c <= '\U{200A}')
    || c == '\U{202F}' || c == '\U{205F}' || c == '\U{3000}'
    || c == '\n' || c == '\r' || c == '\U{2028}' || c == '\U{2029}'
  }

  /** The number of whitespace characters at the start of `s`. */
  function LeadingWhitespace(s: string): (n: nat)
    ensures n <= |s|
    ensures forall k :: 0 <= k < n ==> IsJsWhitespace(s[k])
    ensures n < |s| ==> !IsJsWhitespace(s[n])
  {
    if s == [] || !IsJsWhitespace(s[0]) then 0 else 1 + LeadingWhitespace(s[1..])
  }

  /** The number of whitespace characters at the end of `s`. */
  function TrailingWhitespace(s: string): (n: nat)
    ensures n <= |s|
    ensures forall k :: |s| - n <= k < |s| ==> IsJsWhitespace(s[k])
    ensures n < |s| ==> !IsJsWhitespace(s[|s| - 1 - n])
  {
    if s == [] || !IsJsWhitespace(s[|s| - 1]) then 0
    else 1 + TrailingWhitespace(s[..|s| - 1])
  }

  /**
   * The trailing half of `trim`: `t` without its whitespace suffix. What is
   * removed is all whitespace, what is kept does not end in whitespace, and
   * a non-whitespace first character survives.
   */
  function TrimEnd(t: string): (r: string)
    ensures |r| <= |t| && r == t[..|r|]
    ensures forall k :: |r| <= k < |t| ==> IsJsWhitespace(t[k])
    ensures r != [] ==> !IsJsWhitespace(r[|r| - 1])
    ensures t != [] && !IsJsWhitespace(t[0]) ==> r != [] && r[0] == t[0]
  {
    t[..|t| - TrailingWhitespace(t)]
  }

  /**
   * `s.trim()`: the longest middle slice of `s` that neither starts nor ends
   * with whitespace; it is empty exactly when `s` is all whitespace.
   */
  function Trim(s: string): (r: string)
    ensures |r| <= |s|
    ensures LeadingWhitespace(s) + |r| <= |s|
    ensures r == s[LeadingWhitespace(s)..LeadingWhitespace(s) + |r|]
    ensures forall k :: LeadingWhitespace(s) + |r| <= k < |s| ==> IsJsWhitespace(s[k])
    ensures r != [] ==> !IsJsWhitespace(r[0]) && !IsJsWhitespace(r[|r| - 1])
    ensures r == [] <==> forall k :: 0 <= k < |s| ==> IsJsWhitespace(s[k])
  {
    var i := LeadingWhitespace(s);
    var t := s[i..];
    var r := TrimEnd(t);
    assert r == s[i..i + |r|];
    assert forall k :: i + |r| <= k < |s| ==> s[k] == t[k - i];
    assert i < |s| ==> t[0] == s[i];
    r
  }

  /** `text.trim()` is falsy: the text is empty or made only of whitespace. */
  predicate IsBlank(s: string)
    ensures IsBlank(s) <==> forall k :: 0 <= k < |s| ==> IsJsWhitespace(s[k])
  {
    Trim(s) == ""
  }

  /** `xs.join("\n")` for a list of strings. */
  function JoinLines(xs: seq<string>): (r: string)
    ensures |xs| == 1 ==> r == xs[0]
  {
    if xs == [] then ""
    else if |xs| == 1 then xs[0]
    else xs[0] + "\n" + JoinLines(xs[1..])
  }

  /** Splitting at every line feed: the inverse of `JoinLines` on lines without one. */
  function SplitLines(s: string): (r: seq<string>)
    ensures |r| >= 1
    ensures forall i :: 0 <= i < |r| ==> '\n' !in r[i]
  {
    if s == [] then [""]
    else
      var rest := SplitLines(s[1..]);
      if s[0] == '\n' then [""] + rest
      else [[s[0]] + rest[0]] + rest[1..]
  }

  /** A prefix without line feeds is glued to the first line of what follows. */
  lemma {:induction false} SplitLinesPrefix(a: string, s: string)
    requires '\n' !in a
    ensures SplitLines(a + s) == [a + SplitLines(s)[0]] + SplitLines(s)[1..]
  {
    if a != [] {
      assert a[0] in a;
      assert forall c :: c in a[1..] ==> c in a;
      assert (a + s)[0] == a[0] && (a + s)[1..] == a[1..] + s;
      SplitLinesPrefix(a[1..], s);
      assert [a[0]] + (a[1..] + SplitLines(s)[0]) == a + SplitLines(s)[0];
    } else {
      var r := SplitLines(s);
      assert a + s == s && a + r[0] == r[0] && r == [r[0]] + r[1..];
    }
  }

  /**
   * Joining a non-empty list of lines that contain no line feed and splitting
   * the result again gives back the list. The empty list is excluded because
   * `[].join("\n")` and `[""].join("\n")` are both "".
   */
  lemma {:induction false} SplitJoinLines(xs: seq<string>)
    requires |xs| >= 1
    requires forall i :: 0 <= i < |xs| ==> '\n' !in xs[i]
    ensures SplitLines(JoinLines(xs)) == xs
  {
    if |xs| == 1 {
      SplitLinesPrefix(xs[0], "");
      assert xs[0] + "" == xs[0] && SplitLines("") == [""];
      assert [xs[0] + ""] + [""][1..] == xs;
    } else {
      var rest := JoinLines(xs[1..]);
      SplitJoinLines(xs[1..]);
      assert JoinLines(xs) == xs[0] + ("\n" + rest);
      SplitLinesPrefix(xs[0], "\n" + rest);
      assert ("\n" + rest)[0] == '\n' && ("\n" + rest)[1..] == rest;
      assert SplitLines("\n" + rest) == [""] + xs[1..];
      assert xs[0] + "" == xs[0] && xs == [xs[0]] + xs[1..];
    }
  }

  /** The join loses the difference between no lines and one empty line. */
  lemma JoinLinesEmptyCollision()
    ensures JoinLines([]) == JoinLines([""]) == ""
  {
  }
}

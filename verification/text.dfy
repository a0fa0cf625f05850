/** Character classes, `String.prototype.trim` and the email pattern that the
    validators of both forms rely on.  Strings are sequences of Unicode
    scalar values. */
module Text {

  /** The characters ECMAScript counts as white space: its WhiteSpace and
      LineTerminator productions.  `\s`/`\S` in a regular expression and
      `trim()` use this same set.  None of it is an ASCII letter or digit,
      so white space counts as a symbol for `[^A-Za-z0-9]`. */
  predicate IsWhitespace(c: char)
    ensures IsWhitespace(c) ==> IsSymbol(c)
  {
    || c == '\t' || c == '\n' || c == '\U{000B}' || c == '\U{000C}' || c == '\r'
    || c == ' ' || c == '\U{00A0}' || c == '\U{1680}'
    || ('\U{2000}' <= c <= '\U{200A}')
    || c == '\U{2028}' || c == '\U{2029}' || c == '\U{202F}' || c == '\U{205F}'
    || c == '\U{3000}' || c == '\U{FEFF}'
  }

  /** Every character of `s` is white space (vacuously true of ""). */
  predicate AllWhitespace(s: string) {
    forall i :: 0 <= i < |s| ==> IsWhitespace(s[i])
  }

  /** `[A-Z]` */
  predicate IsAsciiUpper(c: char) {
    'A' <= c <= 'Z'
  }

  /** `[0-9]` */
  predicate IsAsciiDigit(c: char) {
    '0' <= c <= '9'
  }

  /** `[A-Za-z0-9]`; its complement is `[^A-Za-z0-9]`. */
  predicate IsAsciiAlphanumeric(c: char) {
    IsAsciiUpper(c) || ('a' <= c <= 'z') || IsAsciiDigit(c)
  }

  predicate IsSymbol(c: char) {
    !IsAsciiAlphanumeric(c)
  }

  /** `/[class]/.test(s)`: an unanchored one-character pattern matches
      exactly when some character of `s` belongs to the class. */
  predicate ContainsWhere(s: string, inClass: char -> bool) {
    exists i :: 0 <= i < |s| && inClass(s[i])
  }

  /** A character found in `s` is still found after text is appended. */
  lemma ContainsWhereExtends(s: string, t: string, inClass: char -> bool)
    requires ContainsWhere(s, inClass)
    ensures ContainsWhere(s + t, inClass)
  {
    var i :| 0 <= i < |s| && inClass(s[i]);
    assert (s + t)[i] == s[i];
  }

  /** Removes the leading white space: what is left is a suffix of `s`
      that is empty or starts with a non-white-space character, and every
      character removed is white space. */
  function TrimStart(s: string): (r: string)
    ensures |r| <= |s| && r == s[|s| - |r|..]
    ensures forall i :: 0 <= i < |s| - |r| ==> IsWhitespace(s[i])
    ensures r != [] ==> !IsWhitespace(r[0])
  {
    if s != [] && IsWhitespace(s[0]) then TrimStart(s[1..]) else s
  }

  /** Removes the trailing white space: what is left is a prefix of `s`
      that is empty or ends with a non-white-space character, and every
      character removed is white space. */
  function TrimEnd(s: string): (r: string)
    ensures |r| <= |s| && r == s[..|r|]
    ensures forall i :: |r| <= i < |s| ==> IsWhitespace(s[i])
    ensures r != [] ==> !IsWhitespace(r[|r| - 1])
  {
    if s != [] && IsWhitespace(s[|s| - 1]) then TrimEnd(s[..|s| - 1]) else s
  }

  /** `s.trim()`: the segment of `s` left after removing white space at both
      ends.  It is empty exactly when `s` is blank, and otherwise starts and
      ends with a character that is not white space. */
  function Trim(s: string): (r: string)
    ensures |r| <= |s|
    ensures r == [] <==> AllWhitespace(s)
    ensures r != [] ==> !IsWhitespace(r[0]) && !IsWhitespace(r[|r| - 1])
  {
    TrimmedEmptyIffBlank(s);
    TrimEnd(TrimStart(s))
  }

  /** The two halves of `Trim` together remove everything from a blank
      string and nothing else from the first non-blank character. */
  lemma TrimmedEmptyIffBlank(s: string)
    ensures TrimEnd(TrimStart(s)) == [] <==> AllWhitespace(s)
    ensures TrimEnd(TrimStart(s)) != [] ==> !IsWhitespace(TrimEnd(TrimStart(s))[0])
  {
    var front := TrimStart(s);
    var r := TrimEnd(front);
    if r == [] {
      assert front == [];
    } else {
      var k := |s| - |front|;
      assert r[0] == front[0] == s[k];
    }
  }

  /** One way the pattern `\S+@\S+\.\S+` can match inside `s`: the `@` sits at
      `p` with a non-white-space character before it, the `.` sits at `q`
      with at least one character between them and one after it, and every
      character from the `@` to the `.` is not white space. */
  predicate MatchAt(s: string, p: int, q: int) {
    && 0 < p && p + 1 < q && q + 1 < |s|
    && s[p] == '@' && !IsWhitespace(s[p - 1])
    && s[q] == '.' && !IsWhitespace(s[q + 1])
    && forall k :: p < k < q ==> !IsWhitespace(s[k])
  }

  /** `/\S+@\S+\.\S+/.test(s)`.  The test is unanchored, so it holds when the
      pattern matches anywhere in `s`; a string it accepts has at least five
      characters, one of them an `@`, so "" is rejected. */
  predicate EmailPattern(s: string)
    ensures EmailPattern(s) ==> |s| >= 5 && '@' in s
  {
    exists p, q | 0 <= p < |s| && 0 <= q < |s| :: MatchAt(s, p, q)
  }

  /** A string the pattern accepts has at least five characters, an `@` and a
      later `.`; in particular "" and every string without `@` or without
      `.` is rejected. */
  lemma EmailPatternShape(s: string)
    requires EmailPattern(s)
    ensures |s| >= 5
    ensures exists p, q :: 0 <= p < q < |s| && s[p] == '@' && s[q] == '.'
  {
    var p, q :| 0 <= p < |s| && 0 <= q < |s| && MatchAt(s, p, q);
    assert s[p] == '@' && s[q] == '.';
  }

  /** The test is unanchored: text around a matching string never undoes the
      match (so "x y@b.c z", with spaces, passes). */
  lemma {:induction false} EmailPatternUnanchored(before: string, s: string, after: string)
    requires EmailPattern(s)
    ensures EmailPattern(before + s + after)
  {
    var p, q :| 0 <= p < |s| && 0 <= q < |s| && MatchAt(s, p, q);
    var t := before + s + after;
    var n := |before|;
    forall i | 0 <= i < |s|
      ensures t[n + i] == s[i]
    {
      assert t[n + i] == (before + s)[n + i];
    }
    forall k | n + p < k < n + q
      ensures !IsWhitespace(t[k])
    {
      assert t[k] == s[k - n];
    }
    assert MatchAt(t, n + p, n + q);
  }

  /** "a@b.co" is accepted; so is any text that contains it. */
  lemma EmailPatternExample()
    ensures EmailPattern("a@b.co")
  {
    assert MatchAt("a@b.co", 1, 3);
  }
}

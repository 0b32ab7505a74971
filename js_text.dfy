/**
 The pieces of JavaScript string semantics the contact form relies on: the set of
 characters that `\s` matches and that `String.prototype.trim` removes, `trim`
 itself, and `length`, which counts UTF-16 code units rather than characters.
 */
module JsText {

  /** `\s` in a regular expression and the characters `trim` strips: the ECMAScript
      WhiteSpace code points (tab, vertical tab, form feed, byte order mark and every
      Zs space separator) and the LineTerminator code points. */
  predicate IsWhite(c: char) {
    || c == '\t' || c == '\n' || c == '\U{B}' || c == '\U{C}' || c == '\r'
    || c == ' ' || c == '\U{A0}' || c == '\U{1680}'
    || ('\U{2000}' <= c <= '\U{200A}')
    || c == '\U{2028}' || c == '\U{2029}' || c == '\U{202F}' || c == '\U{205F}'
    || c == '\U{3000}' || c == '\U{FEFF}'
  }

  /** `[a-zA-Z]`. */
  predicate IsAsciiLetter(c: char) {
    ('a' <= c <= 'z') || ('A' <= c <= 'Z')
  }

  /** `\d`: only the ASCII digits. */
  predicate IsDigit(c: char) {
    '0' <= c <= '9'
  }

  /** Every character of `s` satisfies `p`. */
  predicate All(s: string, p: char -> bool) {
    forall i :: 0 <= i < |s| ==> p(s[i])
  }

  /** The number of characters satisfying `p` that `s` starts with. */
  function Leading(s: string, p: char -> bool): (n: nat)
    ensures n <= |s| && All(s[..n], p)
    ensures n == |s| || !p(s[n])
  {
    if |s| > 0 && p(s[0]) then
      var n := 1 + Leading(s[1..], p);
      assert s[..n] == [s[0]] + s[1..][..n - 1];
      n
    else
      0
  }

  /** The number of characters satisfying `p` that `s` ends with. */
  function Trailing(s: string, p: char -> bool): (n: nat)
    ensures n <= |s| && All(s[|s| - n..], p)
    ensures n == |s| || !p(s[|s| - n - 1])
  {
    if |s| > 0 && p(s[|s| - 1]) then
      var n := 1 + Trailing(s[..|s| - 1], p);
      assert s[|s| - n..] == s[..|s| - 1][|s| - n..] + [s[|s| - 1]];
      n
    else
      0
  }

  /** The part of `s` between the characters satisfying `p` it starts with and
      those it ends with. */
  function Strip(s: string, p: char -> bool): string {
    var i := Leading(s, p);
    if i == |s| then "" else s[i..|s| - Trailing(s, p)]
  }

  /** `String.prototype.trim`. */
  function Trim(s: string): string {
    Strip(s, IsWhite)
  }

  /** Leading and trailing runs do not overlap once something is left between them. */
  lemma StripBounds(s: string, p: char -> bool)
    requires Leading(s, p) < |s|
    ensures Leading(s, p) < |s| - Trailing(s, p)
  {
  }

  /** `trim` cuts its argument into white characters, a middle piece and white
      characters again, and returns the middle piece. */
  lemma TrimPiece(s: string)
    ensures var i, r := Leading(s, IsWhite), Trim(s);
      && i + |r| <= |s| && r == s[i..i + |r|]
      && All(s[..i], IsWhite) && All(s[i + |r|..], IsWhite)
  {
    var i := Leading(s, IsWhite);
    if i < |s| {
      StripBounds(s, IsWhite);
    } else {
      assert s[..i] == s;
    }
  }

  /** What `trim` returns neither starts nor ends with a white character. */
  lemma TrimEnds(s: string)
    ensures var r := Trim(s); r == [] || (!IsWhite(r[0]) && !IsWhite(r[|r| - 1]))
  {
    var i, n := Leading(s, IsWhite), Trailing(s, IsWhite);
    if i < |s| {
      StripBounds(s, IsWhite);
      var r := s[i..|s| - n];
      assert r[0] == s[i];
      assert r[|r| - 1] == s[|s| - n - 1];
    }
  }

  /** A string with no white character is left as it is by `trim`. */
  lemma TrimNoWhite(s: string)
    requires forall i :: 0 <= i < |s| ==> !IsWhite(s[i])
    ensures Trim(s) == s
  {
    if s != [] {
      assert Leading(s, IsWhite) == 0;
      assert Trailing(s, IsWhite) == 0;
    }
  }

  /** Trimming twice is trimming once. */
  lemma TrimIdempotent(s: string)
    ensures Trim(Trim(s)) == Trim(s)
  {
    var r := Trim(s);
    TrimEnds(s);
    if r != [] {
      assert Leading(r, IsWhite) == 0;
      assert Trailing(r, IsWhite) == 0;
    }
  }

  /** The number of UTF-16 code units of `s`, which is what `length` reports:
      a character outside the Basic Multilingual Plane takes two. */
  function Utf16Length(s: string): (n: nat)
    ensures |s| <= n <= 2 * |s|
  {
    if s == [] then 0
    else Utf16Length(s[..|s| - 1]) + (if s[|s| - 1] as int < 0x1_0000 then 1 else 2)
  }

  /** Every character of `s` lies in the Basic Multilingual Plane. */
  predicate InBmp(s: string) {
    forall i :: 0 <= i < |s| ==> s[i] as int < 0x1_0000
  }

  /** A string counts one code unit per character exactly when all its characters
      lie in the Basic Multilingual Plane. */
  lemma {:induction false} Utf16LengthBmp(s: string)
    ensures Utf16Length(s) == |s| <==> InBmp(s)
    decreases |s|
  {
    if s != [] {
      var t := s[..|s| - 1];
      Utf16LengthBmp(t);
      assert forall i :: 0 <= i < |t| ==> t[i] == s[i];
      if Utf16Length(s) == |s| {
        assert Utf16Length(t) == |t| && s[|s| - 1] as int < 0x1_0000;
        assert InBmp(s);
      }
      if InBmp(s) {
        assert InBmp(t);
      }
    }
  }

  /** The length in code units of two strings joined is the sum of their lengths. */
  lemma {:induction false} Utf16LengthConcat(a: string, b: string)
    ensures Utf16Length(a + b) == Utf16Length(a) + Utf16Length(b)
    decreases |b|
  {
    if b == [] {
      assert a + b == a;
    } else {
      var c := b[..|b| - 1];
      assert (a + b)[..|a + b| - 1] == a + c;
      assert (a + b)[|a + b| - 1] == b[|b| - 1];
      Utf16LengthConcat(a, c);
    }
  }

  /** A piece of a string is no longer, in code units, than the string. */
  lemma Utf16LengthOfPiece(s: string, i: nat, j: nat)
    requires i <= j <= |s|
    ensures Utf16Length(s[i..j]) <= Utf16Length(s)
  {
    assert s == s[..i] + s[i..j] + s[j..];
    Utf16LengthConcat(s[..i], s[i..j]);
    Utf16LengthConcat(s[..i] + s[i..j], s[j..]);
  }

  /** `trim` never makes a string longer, in code units. */
  lemma TrimShortens(s: string)
    ensures Utf16Length(Trim(s)) <= Utf16Length(s)
  {
    TrimPiece(s);
    var i := Leading(s, IsWhite);
    Utf16LengthOfPiece(s, i, i + |Trim(s)|);
  }
}

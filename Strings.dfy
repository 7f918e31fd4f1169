/**
 * Python's `str.strip()` with no argument, as the create handler applies it
 * to every stored text field: leading and trailing whitespace is removed,
 * where whitespace is every character for which `str.isspace()` holds.
 */
module Strings {

  /** The characters Python's `str.isspace()` accepts. */
  predicate IsSpace(c: char) {
    || ('\t' <= c <= '\r')           // \t \n \x0b \x0c \r
    || ('\U{1C}' <= c <= ' ')        // the four separators \x1c..\x1f and the space
    || c == '\U{85}' || c == '\U{A0}' || c == '\U{1680}'
    || ('\U{2000}' <= c <= '\U{200A}')
    || c == '\U{2028}' || c == '\U{2029}' || c == '\U{202F}' || c == '\U{205F}'
    || c == '\U{3000}'
  }

  predicate AllSpace(s: string) {
    forall i :: 0 <= i < |s| ==> IsSpace(s[i])
  }

  /** Drops the whitespace at the front. */
  function TrimStart(s: string): string {
    if s != [] && IsSpace(s[0]) then TrimStart(s[1..]) else s
  }

  /** Drops the whitespace at the back. */
  function TrimEnd(s: string): string {
    if s != [] && IsSpace(s[|s| - 1]) then TrimEnd(s[..|s| - 1]) else s
  }

  function Strip(s: string): string {
    TrimEnd(TrimStart(s))
  }

  /** `TrimStart(s)` is the suffix of `s` that starts at its first
      non-whitespace character. */
  lemma {:induction false} TrimStartShape(s: string)
    ensures |TrimStart(s)| <= |s| && TrimStart(s) == s[|s| - |TrimStart(s)|..]
    ensures AllSpace(s[..|s| - |TrimStart(s)|])
    ensures TrimStart(s) != [] ==> !IsSpace(TrimStart(s)[0])
  {
    if s != [] && IsSpace(s[0]) {
      TrimStartShape(s[1..]);
      var k := |s| - |TrimStart(s)|;
      assert s[..k] == [s[0]] + s[1..][..k - 1];
    }
  }

  /** `TrimEnd(s)` is the prefix of `s` that ends at its last
      non-whitespace character. */
  lemma {:induction false} TrimEndShape(s: string)
    ensures |TrimEnd(s)| <= |s| && TrimEnd(s) == s[..|TrimEnd(s)|]
    ensures AllSpace(s[|TrimEnd(s)|..])
    ensures TrimEnd(s) != [] ==> !IsSpace(TrimEnd(s)[|TrimEnd(s)| - 1])
  {
    if s != [] && IsSpace(s[|s| - 1]) {
      var p := s[..|s| - 1];
      TrimEndShape(p);
      var k := |TrimEnd(s)|;
      assert s[k..] == p[k..] + [s[|s| - 1]];
    }
  }

  /** `Strip(s)` is the infix of `s` left after removing whitespace on both
      sides, and it neither starts nor ends with whitespace. */
  lemma StripIsTrimmedInfix(s: string)
    ensures exists i, j :: 0 <= i <= j <= |s| && Strip(s) == s[i..j]
                           && AllSpace(s[..i]) && AllSpace(s[j..])
    ensures Strip(s) != [] ==> !IsSpace(Strip(s)[0]) && !IsSpace(Strip(s)[|Strip(s)| - 1])
  {
    var t := TrimStart(s);
    var r := TrimEnd(t);
    TrimStartShape(s);
    TrimEndShape(t);
    var i := |s| - |t|;
    var j := i + |r|;
    assert t == s[i..];
    assert r == s[i..j];
    assert s[j..] == t[|r|..];
    assert Strip(s) == s[i..j] && AllSpace(s[..i]) && AllSpace(s[j..]);
  }

  /** Stripping gives the empty string exactly when the input is all whitespace
      (so a non-empty, whitespace-only value becomes ""). */
  lemma {:induction false} StripEmptyIff(s: string)
    ensures Strip(s) == [] <==> AllSpace(s)
  {
    var t := TrimStart(s);
    TrimStartShape(s);
    TrimEndShape(t);
    if TrimEnd(t) == [] {
      assert t == [];
      assert s[..|s|] == s;
    }
  }

  /** `r` is what is left of `s` once the whitespace on both sides is cut
      off: an infix of `s` with only whitespace around it, neither starting
      nor ending with whitespace, and empty exactly when `s` is all
      whitespace. A description of the result, independent of how `Strip`
      computes it. */
  ghost predicate StrippedFrom(r: string, s: string) {
    && (exists i, j :: 0 <= i <= j <= |s| && r == s[i..j] && AllSpace(s[..i]) && AllSpace(s[j..]))
    && (r != [] ==> !IsSpace(r[0]) && !IsSpace(r[|r| - 1]))
    && (r == [] <==> AllSpace(s))
  }

  /** Left stripping stops at the first non-whitespace character. */
  lemma {:induction false} TrimStartAt(s: string, i: int)
    requires 0 <= i < |s| && AllSpace(s[..i]) && !IsSpace(s[i])
    ensures TrimStart(s) == s[i..]
  {
    if i > 0 {
      assert IsSpace(s[..i][0]);
      var u := s[1..];
      assert u[..i - 1] == s[..i][1..];
      TrimStartAt(u, i - 1);
      assert u[i - 1..] == s[i..];
    }
  }

  /** Right stripping stops at the last non-whitespace character. */
  lemma {:induction false} TrimEndAt(t: string, n: int)
    requires 0 < n <= |t| && AllSpace(t[n..]) && !IsSpace(t[n - 1])
    ensures TrimEnd(t) == t[..n]
    decreases |t|
  {
    if n < |t| {
      assert IsSpace(t[n..][|t| - 1 - n]);
      var p := t[..|t| - 1];
      assert forall x :: 0 <= x < |p| - n ==> p[n..][x] == t[n..][x];
      TrimEndAt(p, n);
      assert p[..n] == t[..n];
    }
  }

  /** `Strip(s)` is stripped from `s`. */
  lemma StripIsStrippedFrom(s: string)
    ensures StrippedFrom(Strip(s), s)
  {
    StripIsTrimmedInfix(s);
    StripEmptyIff(s);
  }

  /** No other string is stripped from `s`. */
  lemma StrippedFromIsStrip(r: string, s: string)
    requires StrippedFrom(r, s)
    ensures r == Strip(s)
  {
    if r == [] {
      StripEmptyIff(s);
    } else {
      var i, j :| 0 <= i <= j <= |s| && r == s[i..j] && AllSpace(s[..i]) && AllSpace(s[j..]);
      StrippedWindow(r, s, i, j);
    }
  }

  /** The window step of `StrippedFromIsStrip`: a non-empty infix with only
      whitespace around it, and none at its ends, is what `Strip` returns. */
  lemma StrippedWindow(r: string, s: string, i: int, j: int)
    requires 0 <= i <= j <= |s| && r == s[i..j] && r != []
    requires AllSpace(s[..i]) && AllSpace(s[j..])
    requires !IsSpace(r[0]) && !IsSpace(r[|r| - 1])
    ensures r == Strip(s)
  {
    assert s[i] == r[0];
    TrimStartAt(s, i);
    var t := s[i..];
    assert t[j - i..] == s[j..];
    assert t[j - i - 1] == r[|r| - 1];
    TrimEndAt(t, j - i);
    assert t[..j - i] == r;
  }

  /** `Strip(s)` is the one and only string stripped from `s`. */
  lemma StripIffStrippedFrom(r: string, s: string)
    ensures StrippedFrom(r, s) <==> r == Strip(s)
  {
    StripIsStrippedFrom(s);
    if StrippedFrom(r, s) {
      StrippedFromIsStrip(r, s);
    }
  }

  /** Stripping twice changes nothing more. */
  lemma StripIdempotent(s: string)
    ensures Strip(Strip(s)) == Strip(s)
  {
    var r := Strip(s);
    if r != [] {
      StripIsTrimmedInfix(s);
      assert TrimStart(r) == r;
    }
  }
}

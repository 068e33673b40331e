/**
 * ECMAScript's `String.prototype.trim`: strip the white space and line
 * terminators from both ends of a string (ECMA-262, section 22.1.3.32, with
 * the WhiteSpace and LineTerminator productions of section 12.2 and 12.3).
 */
module Text {

  /** The characters `trim` removes: WhiteSpace (including every Zs space) and LineTerminator. */
  predicate IsWhitespace(c: char)
  {
    c == '\t' || c == '\n' || c == '\U{000B}' || c == '\U{000C}' || c == '\r' || c == ' ' ||
    c == '\U{00A0}' || c == '\U{1680}' || ('\U{2000}' <= c <= '\U{200A}') ||
    c == '\U{2028}' || c == '\U{2029}' || c == '\U{202F}' || c == '\U{205F}' ||
    c == '\U{3000}' || c == '\U{FEFF}'
  }

  /** Every character of `s` is white space (the empty string included). */
  predicate IsBlank(s: string)
  {
    forall i :: 0 <= i < |s| ==> IsWhitespace(s[i])
  }

  /** Drops leading white space. */
  function TrimStart(s: string): string
    decreases |s|
  {
    if s != [] && IsWhitespace(s[0]) then TrimStart(s[1..]) else s
  }

  /** Drops trailing white space. */
  function TrimEnd(s: string): string
    decreases |s|
  {
    if s != [] && IsWhitespace(s[|s| - 1]) then TrimEnd(s[..|s| - 1]) else s
  }

  /** `TrimStart` leaves the suffix that starts at the first character that is not white space. */
  lemma {:induction false} TrimStartShape(s: string)
    ensures var r := TrimStart(s);
            |r| <= |s| && r == s[|s| - |r|..] && IsBlank(s[..|s| - |r|]) &&
            (r != [] ==> !IsWhitespace(r[0]))
    decreases |s|
  {
    if s != [] && IsWhitespace(s[0]) {
      TrimStartShape(s[1..]);
      var r := TrimStart(s[1..]);
      assert s[..|s| - |r|] == [s[0]] + s[1..][..|s| - 1 - |r|];
    }
  }

  /** `TrimEnd` leaves the prefix that ends at the last character that is not white space. */
  lemma {:induction false} TrimEndShape(s: string)
    ensures var r := TrimEnd(s);
            |r| <= |s| && r == s[..|r|] && IsBlank(s[|r|..]) &&
            (r != [] ==> !IsWhitespace(r[|r| - 1])) && (r == [] ==> IsBlank(s))
    decreases |s|
  {
    if s != [] && IsWhitespace(s[|s| - 1]) {
      TrimEndShape(s[..|s| - 1]);
      var r := TrimEnd(s[..|s| - 1]);
      assert s[|r|..] == s[..|s| - 1][|r|..] + [s[|s| - 1]];
    }
  }

  /** `r` occurs in `s` starting at position `i`. */
  predicate PieceAt(s: string, r: string, i: int)
  {
    0 <= i <= |s| - |r| && r == s[i..i + |r|]
  }

  /** A prefix of the suffix of `s` that starts at `a` is a piece of `s` at `a`. */
  lemma PrefixOfSuffix(s: string, a: nat, n: nat)
    requires a + n <= |s|
    ensures PieceAt(s, s[a..][..n], a)
  {
    assert s[a..][..n] == s[a..a + n];
  }

  /** `s.trim()`: empty exactly when `s` is all white space. */
  function Trim(s: string): (r: string)
    ensures r == "" <==> IsBlank(s)
  {
    var t := TrimStart(s);
    TrimStartShape(s);
    TrimEndShape(t);
    assert t == [] <==> IsBlank(s) by {
      if t != [] { assert s[|s| - |t|] == t[0]; }
    }
    TrimEnd(t)
  }

  /**
   * What `trim` leaves is a contiguous piece of `s` that neither starts nor
   * ends with white space, and everything before and after it is white space.
   */
  lemma TrimShape(s: string)
    ensures var r := Trim(s);
            (r != "" ==> !IsWhitespace(r[0]) && !IsWhitespace(r[|r| - 1])) &&
            exists i :: PieceAt(s, r, i) && IsBlank(s[..i]) && IsBlank(s[i + |r|..])
  {
    var t := TrimStart(s);
    TrimStartShape(s);
    TrimEndShape(t);
    var i, r := |s| - |t|, TrimEnd(t);
    PrefixOfSuffix(s, i, |r|);
    assert s[i + |r|..] == t[|r|..];
    assert PieceAt(s, r, i) && IsBlank(s[..i]) && IsBlank(s[i + |r|..]);
  }
}

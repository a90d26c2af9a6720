/**
 * The JavaScript string operations the account server relies on:
 * `String.prototype.trim` (used by the Mongoose `trim` setter and by the
 * express-validator `trim()` sanitizer) and `toLowerCase` (the Mongoose
 * `lowercase` setter).
 */
module JsStrings {

  /** The WhiteSpace and LineTerminator characters of ECMAScript, which `trim` removes. */
  predicate IsWhitespace(c: char) {
    || c == '\t' || c == '\n' || c == '\U{000B}' || c == '\U{000C}' || c == '\r' || c == ' '
    || c == '\U{00A0}' || c == '\U{1680}' || ('\U{2000}' <= c <= '\U{200A}')
    || c == '\U{2028}' || c == '\U{2029}' || c == '\U{202F}' || c == '\U{205F}'
    || c == '\U{3000}' || c == '\U{FEFF}'
  }

  /** Drops the leading whitespace: the result is a suffix of `s` that does not start with whitespace. */
  function TrimStart(s: string): (t: string)
    ensures |t| <= |s| && t == s[|s| - |t|..]
    ensures forall i :: 0 <= i < |s| - |t| ==> IsWhitespace(s[i])
    ensures t != [] ==> !IsWhitespace(t[0])
  {
    if s != [] && IsWhitespace(s[0]) then TrimStart(s[1..]) else s
  }

  /** Drops the trailing whitespace: the result is a prefix of `s` that does not end with whitespace. */
  function TrimEnd(s: string): (t: string)
    ensures |t| <= |s| && t == s[..|t|]
    ensures forall i :: |t| <= i < |s| ==> IsWhitespace(s[i])
    ensures t != [] ==> !IsWhitespace(t[|t| - 1])
  {
    if s != [] && IsWhitespace(s[|s| - 1]) then TrimEnd(s[..|s| - 1]) else s
  }

  /** True when `s` neither starts nor ends with whitespace. */
  predicate IsTrimmed(s: string) {
    s != [] ==> !IsWhitespace(s[0]) && !IsWhitespace(s[|s| - 1])
  }

  /** `s.trim()`: the contiguous middle of `s` left after removing whitespace at both ends. */
  function Trim(s: string): (t: string)
    ensures |t| <= |s|
    ensures IsTrimmed(t)
    ensures t == [] <==> forall i :: 0 <= i < |s| ==> IsWhitespace(s[i])
  {
    TrimEndKeepsFirst(TrimStart(s));
    TrimEnd(TrimStart(s))
  }

  /** `t` is `s[i..i + |t|]`, and everything of `s` around it is whitespace. */
  predicate Middle(s: string, t: string, i: int) {
    && 0 <= i <= i + |t| <= |s| && t == s[i..i + |t|]
    && (forall k :: 0 <= k < i ==> IsWhitespace(s[k]))
    && (forall k :: i + |t| <= k < |s| ==> IsWhitespace(s[k]))
  }

  /** `trim` removes whitespace and nothing else: its result is a middle of the input that only whitespace surrounds. */
  lemma TrimIsMiddle(s: string)
    ensures exists i :: Middle(s, Trim(s), i)
  {
    MiddleOf(s, TrimStart(s), TrimEnd(TrimStart(s)));
    assert Middle(s, Trim(s), |s| - |TrimStart(s)|);
  }

  /** A prefix `t` of a suffix `u` of `s`, with only whitespace cut off either way, is a middle of `s`. */
  lemma MiddleOf(s: string, u: string, t: string)
    requires |u| <= |s| && u == s[|s| - |u|..] && forall k :: 0 <= k < |s| - |u| ==> IsWhitespace(s[k])
    requires |t| <= |u| && t == u[..|t|] && forall k :: |t| <= k < |u| ==> IsWhitespace(u[k])
    ensures Middle(s, t, |s| - |u|)
  {
    var i := |s| - |u|;
    PrefixOfSuffix(s, u, t);
    forall k | i + |t| <= k < |s|
      ensures IsWhitespace(s[k])
    {
      assert IsWhitespace(u[k - i]);
    }
  }

  /** A prefix `t` of a suffix `u` of `s` is the slice of `s` where `u` starts, and `u` reads `s` from there on. */
  lemma PrefixOfSuffix<T>(s: seq<T>, u: seq<T>, t: seq<T>)
    requires |u| <= |s| && u == s[|s| - |u|..] && |t| <= |u| && t == u[..|t|]
    ensures t == s[|s| - |u|..|s| - |u| + |t|]
    ensures forall k :: |s| - |u| <= k < |s| ==> s[k] == u[k - (|s| - |u|)]
  {
  }

  /** Trimming the end of a string that starts with a non-whitespace character keeps that character. */
  lemma TrimEndKeepsFirst(u: string)
    requires u != [] ==> !IsWhitespace(u[0])
    ensures u != [] ==> TrimEnd(u) != [] && TrimEnd(u)[0] == u[0]
  {
    if u != [] {
      assert !IsWhitespace(u[0]);
    }
  }

  lemma TrimmedIsFixpoint(s: string)
    requires IsTrimmed(s)
    ensures Trim(s) == s
  {
    assert TrimStart(s) == s;
    assert TrimEnd(s) == s;
  }

  /** Trimming twice is trimming once. */
  lemma TrimIdempotent(s: string)
    ensures Trim(Trim(s)) == Trim(s)
  {
    TrimmedIsFixpoint(Trim(s));
  }

  /** Lower-cases one character; only the ASCII letters A-Z are mapped. */
  function LowerChar(c: char): char {
    if 'A' <= c <= 'Z' then (c as int + 32) as char else c
  }

  /** `s.toLowerCase()`, restricted to ASCII case mapping. */
  function ToLowerCase(s: string): (t: string)
    ensures |t| == |s|
    ensures forall i :: 0 <= i < |s| ==> t[i] == LowerChar(s[i])
  {
    if s == [] then [] else [LowerChar(s[0])] + ToLowerCase(s[1..])
  }

  /** True when lower-casing leaves `s` unchanged. */
  predicate IsLowerCase(s: string) {
    forall i :: 0 <= i < |s| ==> LowerChar(s[i]) == s[i]
  }

  lemma LowerCaseIsFixpoint(s: string)
    requires IsLowerCase(s)
    ensures ToLowerCase(s) == s
  {
  }

  /** Lower-casing yields a lower-case string, and a trimmed input stays trimmed. */
  lemma ToLowerCaseNormalises(s: string)
    ensures IsLowerCase(ToLowerCase(s))
    ensures IsTrimmed(s) ==> IsTrimmed(ToLowerCase(s))
  {
    if s != [] {
      LowerCharKeepsWhitespace(s[0]);
      LowerCharKeepsWhitespace(s[|s| - 1]);
    }
  }

  lemma LowerCharKeepsWhitespace(c: char)
    ensures IsWhitespace(LowerChar(c)) == IsWhitespace(c)
  {
  }

  lemma ToLowerCaseIdempotent(s: string)
    ensures ToLowerCase(ToLowerCase(s)) == ToLowerCase(s)
  {
  }

  lemma {:induction false} ToLowerCaseOfSlice(s: string, i: int, j: int)
    requires 0 <= i <= j <= |s|
    ensures ToLowerCase(s[i..j]) == ToLowerCase(s)[i..j]
  {
    var a, b := ToLowerCase(s[i..j]), ToLowerCase(s)[i..j];
    forall k | 0 <= k < |a|
      ensures a[k] == b[k]
    {
      assert s[i..j][k] == s[i + k];
    }
  }

  /** Lower-casing neither creates nor removes whitespace, so trimming commutes with it. */
  lemma {:induction false} TrimStartLower(s: string)
    ensures TrimStart(ToLowerCase(s)) == ToLowerCase(TrimStart(s))
  {
    if s != [] {
      var ls := ToLowerCase(s);
      LowerCharKeepsWhitespace(s[0]);
      assert ls[0] == LowerChar(s[0]);
      if IsWhitespace(s[0]) {
        assert ls[1..] == ToLowerCase(s[1..]);
        assert TrimStart(ls) == TrimStart(ls[1..]);
        TrimStartLower(s[1..]);
      } else {
        assert TrimStart(ls) == ls;
      }
    }
  }

  lemma {:induction false} TrimEndLower(s: string)
    ensures TrimEnd(ToLowerCase(s)) == ToLowerCase(TrimEnd(s))
  {
    if s != [] {
      var n := |s| - 1;
      var ls := ToLowerCase(s);
      LowerCharKeepsWhitespace(s[n]);
      assert ls[n] == LowerChar(s[n]);
      if IsWhitespace(s[n]) {
        ToLowerCaseOfSlice(s, 0, n);
        assert ls[..n] == ToLowerCase(s[..n]);
        TrimEndLower(s[..n]);
      }
    }
  }

  lemma TrimLowerCommute(s: string)
    ensures Trim(ToLowerCase(s)) == ToLowerCase(Trim(s))
  {
    TrimStartLower(s);
    TrimEndLower(TrimStart(s));
  }

  /**
   * The Mongoose setters of the `email` path (trim, then lowercase) reach a fixpoint
   * after one application: a stored email is already in normal form.
   */
  lemma NormalizeIdempotent(s: string)
    ensures ToLowerCase(Trim(ToLowerCase(Trim(s)))) == ToLowerCase(Trim(s))
  {
    TrimLowerCommute(Trim(s));
    TrimIdempotent(s);
    ToLowerCaseIdempotent(Trim(s));
  }
}

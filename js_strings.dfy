/** The JavaScript string built-ins the audit front end relies on:
    `String.prototype.trim`, `startsWith`, `indexOf`/`replace` with a string
    pattern, and the character classes behind the regular expression `/^#\s+/m`. */
module JsStrings {

  /** ECMAScript LineTerminator: the characters after which `^` matches in multiline mode. */
  predicate IsLineTerminator(c: char)
  {
    c == '\n' || c == '\r' || c == '\U{2028}' || c == '\U{2029}'
  }

  /** ECMAScript WhiteSpace or LineTerminator: what `trim` strips and what `\s` matches. */
  predicate IsJsSpace(c: char)
  {
    || c == '\t' || c == '\U{000B}' || c == '\U{000C}' || c == ' '
    || c == '\U{00A0}' || c == '\U{FEFF}' || c == '\U{1680}'
    || ('\U{2000}' <= c <= '\U{200A}')
    || c == '\U{202F}' || c == '\U{205F}' || c == '\U{3000}'
    || IsLineTerminator(c)
  }

  /** Every character is white space (this includes the empty string). */
  predicate IsBlank(s: string)
  {
    forall i :: 0 <= i < |s| ==> IsJsSpace(s[i])
  }

  /** Neither end of `s` is white space. */
  predicate IsTrimmed(s: string)
  {
    s == [] || (!IsJsSpace(s[0]) && !IsJsSpace(s[|s| - 1]))
  }

  /** `s` with its leading white space removed. */
  function TrimStart(s: string): (r: string)
    ensures |r| <= |s|
  {
    if |s| > 0 && IsJsSpace(s[0]) then TrimStart(s[1..]) else s
  }

  /** What `TrimStart` removed is white space, and what it kept is a suffix
      that does not start with white space. */
  lemma {:induction false} TrimStartShape(s: string)
    ensures var r := TrimStart(s);
      && r == s[|s| - |r|..]
      && (forall i :: 0 <= i < |s| - |r| ==> IsJsSpace(s[i]))
      && (r == [] || !IsJsSpace(r[0]))
  {
    if |s| > 0 && IsJsSpace(s[0]) {
      TrimStartShape(s[1..]);
      var r := TrimStart(s);
      assert forall i :: 1 <= i < |s| - |r| ==> s[i] == s[1..][i - 1];
    }
  }

  /** `s` with its trailing white space removed. */
  function TrimEnd(s: string): (r: string)
    ensures |r| <= |s|
  {
    if |s| > 0 && IsJsSpace(s[|s| - 1]) then TrimEnd(s[..|s| - 1]) else s
  }

  /** What `TrimEnd` removed is white space, and what it kept is a prefix
      that does not end with white space. */
  lemma {:induction false} TrimEndShape(s: string)
    ensures var r := TrimEnd(s);
      && r == s[..|r|]
      && (forall i :: |r| <= i < |s| ==> IsJsSpace(s[i]))
      && (r == [] || !IsJsSpace(r[|r| - 1]))
  {
    if |s| > 0 && IsJsSpace(s[|s| - 1]) {
      TrimEndShape(s[..|s| - 1]);
      var r := TrimEnd(s);
      assert forall i :: |r| <= i < |s| - 1 ==> s[i] == s[..|s| - 1][i];
    }
  }

  /** `String.prototype.trim`. */
  function Trim(s: string): (r: string)
    ensures IsTrimmed(r)
  {
    TrimStartShape(s);
    TrimEndShape(TrimStart(s));
    var t := TrimStart(s);
    var r := TrimEnd(t);
    assert r != [] ==> r[0] == t[0];
    r
  }

  /** `s.trim()` is empty exactly when `s` is all white space. */
  lemma TrimEmptyIffBlank(s: string)
    ensures Trim(s) == [] <==> IsBlank(s)
  {
    TrimStartShape(s);
    var t := TrimStart(s);
    TrimEndShape(t);
    assert Trim(s) == [] ==> t == [];
    if t == [] {
      assert forall i :: 0 <= i < |s| ==> IsJsSpace(s[i]);
    }
  }

  /** Trimming a string whose ends are not white space gives the string back. */
  lemma TrimOfTrimmed(s: string)
    requires IsTrimmed(s)
    ensures Trim(s) == s
  {
    if s != [] {
      assert TrimStart(s) == s;
      assert TrimEnd(s) == s;
    }
  }

  /** `s.startsWith(prefix)`. */
  predicate StartsWith(s: string, prefix: string)
  {
    |prefix| <= |s| && s[..|prefix|] == prefix
  }

  /** `s.endsWith(suffix)`. */
  predicate EndsWith(s: string, suffix: string)
  {
    |suffix| <= |s| && s[|s| - |suffix|..] == suffix
  }

  /** `pattern` occurs in `s` at index `i`. */
  predicate OccursAt(s: string, pattern: string, i: int)
  {
    0 <= i && i + |pattern| <= |s| && s[i..i + |pattern|] == pattern
  }

  /** The search of `indexOf` from index `from` on: the first index at or
      after `from` at which `pattern` occurs, or -1. */
  function IndexFrom(s: string, pattern: string, from: nat): (r: int)
    ensures r == -1 || from <= r <= |s|
    ensures r == -1 <==> forall i :: from <= i <= |s| ==> !OccursAt(s, pattern, i)
    ensures r >= 0 ==> OccursAt(s, pattern, r) && forall i :: from <= i < r ==> !OccursAt(s, pattern, i)
    decreases |s| + 1 - from
  {
    if from > |s| then -1
    else if OccursAt(s, pattern, from) then from
    else IndexFrom(s, pattern, from + 1)
  }

  /** `s.indexOf(pattern)`: the first index at which `pattern` occurs, or -1. */
  function IndexOf(s: string, pattern: string): (r: int)
    ensures -1 <= r <= |s|
    ensures r == -1 <==> forall i :: 0 <= i <= |s| ==> !OccursAt(s, pattern, i)
    ensures r >= 0 ==> OccursAt(s, pattern, r) && forall i :: 0 <= i < r ==> !OccursAt(s, pattern, i)
  {
    IndexFrom(s, pattern, 0)
  }

  /** `s.replace(pattern, replacement)` with a string pattern: only the first
      occurrence is replaced. */
  function ReplaceFirst(s: string, pattern: string, replacement: string): string
  {
    var i := IndexOf(s, pattern);
    if i == -1 then s else s[..i] + replacement + s[i + |pattern|..]
  }

  /** Replacing the first occurrence puts the replacement exactly where the
      pattern was, and putting the pattern back restores the original. */
  lemma ReplaceFirstRoundTrip(s: string, pattern: string, replacement: string)
    requires IndexOf(s, pattern) >= 0
    ensures var i, r := IndexOf(s, pattern), ReplaceFirst(s, pattern, replacement);
      && |r| == |s| - |pattern| + |replacement|
      && OccursAt(r, replacement, i)
      && r[..i] + pattern + r[i + |replacement|..] == s
  {
    var i, r := IndexOf(s, pattern), ReplaceFirst(s, pattern, replacement);
    assert r == s[..i] + replacement + s[i + |pattern|..];
    assert r[..i] == s[..i];
    assert r[i..i + |replacement|] == replacement;
    assert r[i + |replacement|..] == s[i + |pattern|..];
    assert s[i..i + |pattern|] == pattern;
    assert s == s[..i] + s[i..i + |pattern|] + s[i + |pattern|..];
  }
}

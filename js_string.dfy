/**
 * The JavaScript string built-ins the core relies on, with the semantics of
 * the ECMAScript String methods: `trim`, `startsWith`, `indexOf`, `replace`
 * with a string pattern, and `length`, which counts UTF-16 code units.
 * A Dafny `char` is a Unicode scalar value, so `length` is computed explicitly.
 */
module JsString {
  import opened Wrappers

  /** ECMAScript WhiteSpace and LineTerminator code points, the set `trim` removes. */
  predicate IsWhiteSpace(c: char) {
    c == '\t' || c == '\n' || c == '\U{000B}' || c == '\U{000C}' || c == '\r' ||
    c == ' ' || c == '\U{00A0}' || c == '\U{1680}' ||
    ('\U{2000}' <= c <= '\U{200A}') ||
    c == '\U{2028}' || c == '\U{2029}' || c == '\U{202F}' || c == '\U{205F}' ||
    c == '\U{3000}' || c == '\U{FEFF}'
  }

  /** Removes leading white space: the result is the longest suffix that does not start with it. */
  function TrimStart(s: string): (r: string)
    ensures |r| <= |s| && r == s[|s| - |r|..]
    ensures r != [] ==> !IsWhiteSpace(r[0])
    decreases |s|
  {
    if s != [] && IsWhiteSpace(s[0]) then TrimStart(s[1..]) else s
  }

  /** Everything `TrimStart` removes is white space. */
  lemma {:induction false} TrimStartRemovesWhiteSpace(s: string)
    ensures forall i :: 0 <= i < |s| - |TrimStart(s)| ==> IsWhiteSpace(s[i])
    decreases |s|
  {
    if s != [] && IsWhiteSpace(s[0]) {
      TrimStartRemovesWhiteSpace(s[1..]);
      forall i | 1 <= i < |s| - |TrimStart(s)| ensures IsWhiteSpace(s[i]) {
        assert s[i] == s[1..][i - 1];
      }
    }
  }

  /** Removes trailing white space: the result is the longest prefix that does not end with it. */
  function TrimEnd(s: string): (r: string)
    ensures |r| <= |s| && r == s[..|r|]
    ensures r != [] ==> !IsWhiteSpace(r[|r| - 1])
    decreases |s|
  {
    if s != [] && IsWhiteSpace(s[|s| - 1]) then TrimEnd(s[..|s| - 1]) else s
  }

  /** Everything `TrimEnd` removes is white space. */
  lemma {:induction false} TrimEndRemovesWhiteSpace(s: string)
    ensures forall i :: |TrimEnd(s)| <= i < |s| ==> IsWhiteSpace(s[i])
    decreases |s|
  {
    if s != [] && IsWhiteSpace(s[|s| - 1]) {
      TrimEndRemovesWhiteSpace(s[..|s| - 1]);
      forall i | |TrimEnd(s)| <= i < |s| - 1 ensures IsWhiteSpace(s[i]) {
        assert s[i] == s[..|s| - 1][i];
      }
    }
  }

  /** `s.trim()` */
  function Trim(s: string): string {
    TrimEnd(TrimStart(s))
  }

  /** `s.trim()` is empty exactly when every character of `s` is white space. */
  lemma TrimEmptyIff(s: string)
    ensures Trim(s) == [] <==> forall i :: 0 <= i < |s| ==> IsWhiteSpace(s[i])
  {
    var t := TrimStart(s);
    TrimStartRemovesWhiteSpace(s);
    TrimEndRemovesWhiteSpace(t);
    if Trim(s) == [] {
      forall i | 0 <= i < |s| ensures IsWhiteSpace(s[i]) {
        if i >= |s| - |t| {
          assert s[i] == t[i - (|s| - |t|)];
        }
      }
    } else {
      var r := Trim(s);
      assert r == t[..|r|];
      assert t[0] == s[|s| - |t|];
      assert !IsWhiteSpace(s[|s| - |t|]);
    }
  }

  /**
   * The trimmed string is the slice of the original that starts after the leading
   * white space.
   */
  lemma TrimIsInnerSlice(s: string)
    ensures var i, r := |s| - |TrimStart(s)|, Trim(s);
      i + |r| <= |s| && r == s[i..i + |r|]
  {}

  /** The trimmed string neither starts nor ends with white space. */
  lemma TrimHasNoOuterWhiteSpace(s: string)
    ensures var r := Trim(s); r != [] ==> !IsWhiteSpace(r[0]) && !IsWhiteSpace(r[|r| - 1])
  {}

  /** `s.startsWith(p)` */
  predicate StartsWith(s: string, p: string) {
    |p| <= |s| && s[..|p|] == p
  }

  /** `p` occurs in `s` at position `i`. */
  predicate OccursAt(s: string, p: string, i: nat) {
    i + |p| <= |s| && s[i..i + |p|] == p
  }

  /** The first position at or after `k` where `p` occurs, if any. */
  function IndexFrom(s: string, p: string, k: nat): (r: Option<nat>)
    ensures r.Some? ==> k <= r.value && OccursAt(s, p, r.value)
    ensures r.Some? ==> forall i: nat :: k <= i < r.value ==> !OccursAt(s, p, i)
    ensures r.None? ==> forall i: nat :: k <= i ==> !OccursAt(s, p, i)
    decreases |s| - k
  {
    if k + |p| > |s| then None
    else if OccursAt(s, p, k) then Some(k)
    else IndexFrom(s, p, k + 1)
  }

  /** `s.indexOf(p)`, with `None` for the source's `-1`. */
  function IndexOf(s: string, p: string): Option<nat> {
    IndexFrom(s, p, 0)
  }

  /**
   * `s.replace(p, rep)` for a string pattern `p` and a replacement without `$`
   * patterns: only the first occurrence of `p` is replaced.
   */
  function ReplaceFirst(s: string, p: string, rep: string): string {
    match IndexOf(s, p)
    case None => s
    case Some(i) => s[..i] + rep + s[i + |p|..]
  }

  /** Removing a pattern that `s` starts with leaves exactly the rest of `s`, whatever the rest contains. */
  lemma RemovePrefixOccurrence(s: string, p: string)
    requires StartsWith(s, p)
    ensures ReplaceFirst(s, p, "") == s[|p|..]
  {}

  /** `s.length`: the number of UTF-16 code units, two for a code point above U+FFFF. */
  function Utf16Length(s: string): nat
    decreases |s|
  {
    if s == [] then 0 else (if s[0] as int > 0xFFFF then 2 else 1) + Utf16Length(s[1..])
  }

  /** A string has between one and two code units per character, and none only when it is empty. */
  lemma {:induction false} Utf16LengthBounds(s: string)
    ensures |s| <= Utf16Length(s) <= 2 * |s|
    ensures Utf16Length(s) == 0 <==> s == []
    decreases |s|
  {
    if s != [] {
      Utf16LengthBounds(s[1..]);
    }
  }
}

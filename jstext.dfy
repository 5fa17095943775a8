/** The pieces of JavaScript string semantics that the terminal relies on:
    the whitespace class shared by `String.prototype.trim` and the regular
    expression class `\s`, trimming itself, and the case-insensitive comparison
    a non-unicode `/i` regular expression performs on ASCII letters. */
module JsText {

  /** WhiteSpace and LineTerminator code points of ECMAScript (sections 12.2
      and 12.3 of ECMA-262): the set both `trim` and `\s` use. */
  predicate IsSpace(c: char) {
    c == '\t' || c == '\n' || c == '\U{000B}' || c == '\U{000C}' || c == '\r' ||
    c == ' ' || c == '\U{00A0}' || c == '\U{1680}' ||
    ('\U{2000}' <= c <= '\U{200A}') ||
    c == '\U{2028}' || c == '\U{2029}' || c == '\U{202F}' || c == '\U{205F}' ||
    c == '\U{3000}' || c == '\U{FEFF}'
  }

  /** The LineTerminator code points: the characters a regular expression `.`
      does not match when the `s` flag is absent. */
  predicate IsLineTerminator(c: char) {
    c == '\n' || c == '\r' || c == '\U{2028}' || c == '\U{2029}'
  }

  predicate AllSpace(s: string) {
    forall i :: 0 <= i < |s| ==> IsSpace(s[i])
  }

  predicate NoLineTerminator(s: string) {
    forall i :: 0 <= i < |s| ==> !IsLineTerminator(s[i])
  }

  /** A string that neither starts nor ends with whitespace. */
  predicate Trimmed(s: string) {
    s == [] || (!IsSpace(s[0]) && !IsSpace(s[|s| - 1]))
  }

  /** Number of whitespace characters at the front of `s`. */
  function SpaceRun(s: string): (n: nat)
    ensures n <= |s|
    ensures AllSpace(s[..n])
    ensures n == |s| || !IsSpace(s[n])
  {
    if s != [] && IsSpace(s[0]) then 1 + SpaceRun(s[1..]) else 0
  }

  /** The whitespace run at the front of a string is unique: any all-space
      prefix followed by a non-space (or the end) has exactly that length. */
  lemma {:induction false} SpaceRunUnique(s: string, n: nat)
    requires n <= |s| && AllSpace(s[..n])
    requires n == |s| || !IsSpace(s[n])
    ensures SpaceRun(s) == n
  {
    if n > 0 {
      assert s[..n][0] == s[0];
      assert s[1..][..n - 1] == s[..n][1..];
      SpaceRunUnique(s[1..], n - 1);
    }
  }

  /** A whitespace prefix adds its length to the whitespace run. */
  lemma SpaceRunAfterSpace(w: string, t: string)
    requires AllSpace(w)
    ensures SpaceRun(w + t) == |w| + SpaceRun(t)
  {
    var n := |w| + SpaceRun(t);
    assert (w + t)[..n] == w + t[..SpaceRun(t)];
    assert n < |w + t| ==> (w + t)[n] == t[SpaceRun(t)];
    SpaceRunUnique(w + t, n);
  }

  /** `s` without its leading whitespace (the first half of `trim`). */
  function TrimStart(s: string): (r: string)
    ensures |r| <= |s| && r == s[|s| - |r|..]
    ensures AllSpace(s[..|s| - |r|])
    ensures r == [] || !IsSpace(r[0])
  {
    s[SpaceRun(s)..]
  }

  /** `s` without its trailing whitespace (the second half of `trim`). */
  function TrimEnd(s: string): (r: string)
    ensures |r| <= |s| && r == s[..|r|]
    ensures AllSpace(s[|r|..])
    ensures r == [] || !IsSpace(r[|r| - 1])
    decreases |s|
  {
    if s != [] && IsSpace(s[|s| - 1]) then
      var r := TrimEnd(s[..|s| - 1]);
      assert s[|r|..] == s[..|s| - 1][|r|..] + [s[|s| - 1]];
      r
    else s
  }

  /** JavaScript's `String.prototype.trim`. */
  function Trim(s: string): (r: string)
    ensures |r| <= |s|
    ensures Trimmed(r)
  {
    var t := TrimStart(s);
    var r := TrimEnd(t);
    assert r != [] ==> r[0] == t[0];
    r
  }

  /** `trim` keeps a contiguous piece of its input and removes only
      whitespace around it. */
  lemma TrimIsSlice(s: string) returns (i: nat, j: nat)
    ensures i <= j <= |s| && Trim(s) == s[i..j]
    ensures AllSpace(s[..i]) && AllSpace(s[j..])
  {
    var t := TrimStart(s);
    var r := TrimEnd(t);
    i := |s| - |t|;
    j := i + |r|;
    assert t[|r|..] == s[j..];
  }

  /** Trimming yields the empty string exactly for all-whitespace input. */
  lemma {:induction false} TrimEmptyIffAllSpace(s: string)
    ensures Trim(s) == [] <==> AllSpace(s)
  {
    var i, j := TrimIsSlice(s);
    if Trim(s) == [] {
      forall k | 0 <= k < |s| ensures IsSpace(s[k]) {
        if k < i { assert s[..i][k] == s[k]; } else { assert s[j..][k - j] == s[k]; }
      }
    } else {
      assert Trim(s)[0] == s[i];
    }
  }

  /** Trimming leaves an already trimmed string alone, so `trim` is
      idempotent. */
  lemma TrimOfTrimmed(s: string)
    requires Trimmed(s)
    ensures Trim(s) == s
  {
    assert SpaceRun(s) == 0;
    if s != [] {
      assert TrimEnd(s) == s;
    }
  }

  lemma TrimIdempotent(s: string)
    ensures Trim(Trim(s)) == Trim(s)
  {
    TrimOfTrimmed(Trim(s));
  }

  /** Leading whitespace makes no difference to `trim`. */
  lemma TrimSkipsLeadingSpace(w: string, s: string)
    requires AllSpace(w)
    ensures Trim(w + s) == Trim(s)
  {
    SpaceRunAfterSpace(w, s);
    assert (w + s)[|w| + SpaceRun(s)..] == s[SpaceRun(s)..];
    assert TrimStart(w + s) == TrimStart(s);
  }

  /** ASCII lower-casing: the only case folding a non-unicode `/i` regular
      expression performs between the letters of an ASCII pattern and its
      input (a non-ASCII character never folds onto an ASCII one). */
  function AsciiLower(c: char): (d: char)
    ensures 'A' <= c <= 'Z' ==> 'a' <= d <= 'z' && d as int - c as int == 32
    ensures !('A' <= c <= 'Z') ==> d == c
  {
    if 'A' <= c <= 'Z' then (c as int + 32) as char else c
  }

  /** `s` equals the lower-case literal `pattern` under `/i` matching. */
  predicate EqualsIgnoringCase(s: string, pattern: string) {
    |s| == |pattern| && forall i :: 0 <= i < |s| ==> AsciiLower(s[i]) == pattern[i]
  }
}

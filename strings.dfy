/** The Python `str` operations the core uses: `lower`, `endswith`, `join`,
    `strip`. Letter case is ASCII only. */
module Strings {

  function LowerChar(c: char): char {
    if 'A' <= c <= 'Z' then (c as int + 32) as char else c
  }

  /** `s.lower()` for ASCII letters. */
  function Lower(s: string): (r: string)
    ensures |r| == |s|
    ensures forall i :: 0 <= i < |s| ==> r[i] == LowerChar(s[i])
  {
    if s == [] then [] else [LowerChar(s[0])] + Lower(s[1..])
  }

  /** Lower-casing twice is lower-casing once. */
  lemma {:induction false} LowerIdempotent(s: string)
    ensures Lower(Lower(s)) == Lower(s)
  {
    if s != [] {
      LowerIdempotent(s[1..]);
      assert Lower(s)[1..] == Lower(s[1..]);
    }
  }

  /** `s.endswith(suffix)`. */
  predicate EndsWith(s: string, suffix: string) {
    |suffix| <= |s| && s[|s| - |suffix|..] == suffix
  }

  /** `sep.join(parts)`. */
  function Join(sep: string, parts: seq<string>): (r: string)
    ensures parts == [] ==> r == ""
    ensures |parts| == 1 ==> r == parts[0]
  {
    if parts == [] then ""
    else if |parts| == 1 then parts[0]
    else parts[0] + sep + Join(sep, parts[1..])
  }

  /** `s.lstrip(chars)` with `chars` as a set. */
  function LStrip(s: string, chars: set<char>): (r: string)
    ensures |r| <= |s| && r == s[|s| - |r|..]
    ensures r != [] ==> r[0] !in chars
    ensures forall i :: 0 <= i < |s| - |r| ==> s[i] in chars
  {
    if s != [] && s[0] in chars then LStrip(s[1..], chars) else s
  }

  /** `s.rstrip(chars)` with `chars` as a set. */
  function RStrip(s: string, chars: set<char>): (r: string)
    ensures |r| <= |s| && r == s[..|r|]
    ensures r != [] ==> r[|r| - 1] !in chars
    ensures forall i :: |r| <= i < |s| ==> s[i] in chars
  {
    if s != [] && s[|s| - 1] in chars then RStrip(s[..|s| - 1], chars) else s
  }

  /** `s.strip(chars)`: drops every leading and trailing character that is in
      the SET `chars` (not a prefix or suffix string). */
  function StripChars(s: string, chars: set<char>): string {
    RStrip(LStrip(s, chars), chars)
  }

  /** What Python's `str.strip()` removes (the ASCII part of it). */
  const Whitespace: set<char> :=
    {' ', '\t', '\n', '\r', '\U{000B}', '\U{000C}', '\U{001C}', '\U{001D}', '\U{001E}', '\U{001F}'}

  /** `s.strip()`. */
  function Strip(s: string): string {
    StripChars(s, Whitespace)
  }

  /** `s[i..j]` is what remains of `s` once only characters of `chars` are
      cut from its two ends. */
  ghost predicate TrimmedPiece(s: string, chars: set<char>, i: nat, j: nat)
    requires i <= j <= |s|
  {
    && (forall k :: 0 <= k < i ==> s[k] in chars)
    && (forall k :: j <= k < |s| ==> s[k] in chars)
  }

  /** Stripping adds no character: what `s` does not hold, the stripped
      text does not hold either. */
  lemma StripCharsAvoids(s: string, chars: set<char>, c: char)
    requires c !in s
    ensures c !in StripChars(s, chars)
  {
    var l := LStrip(s, chars);
    var r := RStrip(l, chars);
    assert forall k :: 0 <= k < |r| ==> r[k] == s[|s| - |l| + k];
  }

  /** `str.strip(chars)` keeps a contiguous piece of its input, every character
      it drops is in the set, and the piece neither starts nor ends with one. */
  lemma StripCharsSpec(s: string, chars: set<char>)
    ensures exists i: nat, j: nat :: i <= j <= |s| && StripChars(s, chars) == s[i..j] && TrimmedPiece(s, chars, i, j)
    ensures var r := StripChars(s, chars); r != [] ==> r[0] !in chars && r[|r| - 1] !in chars
  {
    var l := LStrip(s, chars);
    var r := RStrip(l, chars);
    var i: nat := |s| - |l|;
    var j: nat := i + |r|;
    assert r == s[i..j];
    forall k | j <= k < |s| ensures s[k] in chars {
      assert s[k] == l[k - i];
    }
    assert TrimmedPiece(s, chars, i, j);
    if r != [] {
      assert r[0] == l[0];
    }
  }

  /** A string with no upper-case ASCII letter is its own lower case. */
  lemma LowerOfLowerCase(s: string)
    requires forall i :: 0 <= i < |s| ==> !('A' <= s[i] <= 'Z')
    ensures Lower(s) == s
  {
  }
}

/**
 * The few JavaScript string primitives the chat client relies on:
 * `String.prototype.trim`, `indexOf`, `split(c)[0]` and `endsWith`.
 * Strings are sequences of characters; no encoding is modelled.
 */
module JsString {

  /** The WhiteSpace and LineTerminator code points that `trim` strips
      (sections 12.2 and 12.3 of ECMAScript 2023, with category Zs written out). */
  predicate IsTrimmable(c: char)
  {
    || c == '\t' || c == '\n' || c == '\U{B}' || c == '\U{C}' || c == '\r'
    || c == ' ' || c == '\U{A0}' || c == '\U{1680}'
    || ('\U{2000}' <= c <= '\U{200A}')
    || c == '\U{2028}' || c == '\U{2029}' || c == '\U{202F}' || c == '\U{205F}'
    || c == '\U{3000}' || c == '\U{FEFF}'
  }

  /** True when every character of `s` is one that `trim` strips. */
  ghost predicate AllTrimmable(s: string)
  {
    forall i :: 0 <= i < |s| ==> IsTrimmable(s[i])
  }

  /** Drops leading whitespace: the result is the suffix of `s` that starts at
      its first non-whitespace character. */
  function TrimStart(s: string): (r: string)
    ensures |r| <= |s| && r == s[|s| - |r|..]
    ensures r == [] || !IsTrimmable(r[0])
    ensures forall i :: 0 <= i < |s| - |r| ==> IsTrimmable(s[i])
  {
    if s != [] && IsTrimmable(s[0]) then TrimStart(s[1..]) else s
  }

  /** Drops trailing whitespace: the result is the prefix of `s` that ends at
      its last non-whitespace character. */
  function TrimEnd(s: string): (r: string)
    ensures r <= s
    ensures r == [] || !IsTrimmable(r[|r| - 1])
    ensures forall i :: |r| <= i < |s| ==> IsTrimmable(s[i])
  {
    if s != [] && IsTrimmable(s[|s| - 1]) then TrimEnd(s[..|s| - 1]) else s
  }

  /** `s.trim()`. */
  function Trim(s: string): string
  {
    TrimEnd(TrimStart(s))
  }

  /** `s.trim()` is the empty string exactly when `s` consists of whitespace only. */
  lemma TrimEmptyIff(s: string)
    ensures Trim(s) == [] <==> AllTrimmable(s)
  {
  }

  /** `pat` occurs in `s` starting at index `i`. */
  predicate OccursAt(s: string, pat: string, i: int)
  {
    0 <= i && i + |pat| <= |s| && s[i..i + |pat|] == pat
  }

  /** `s.indexOf(pat, from)`: the first index at or after `from` where `pat`
      occurs, or -1 when there is none. */
  function IndexOfFrom(s: string, pat: string, from: nat): (r: int)
    requires from <= |s|
    ensures r == -1 || (from <= r && OccursAt(s, pat, r))
    ensures r == -1 ==> forall i :: from <= i ==> !OccursAt(s, pat, i)
    ensures r != -1 ==> forall i :: from <= i < r ==> !OccursAt(s, pat, i)
    decreases |s| - from
  {
    if from + |pat| > |s| then -1
    else if s[from..from + |pat|] == pat then from
    else IndexOfFrom(s, pat, from + 1)
  }

  /** `s.indexOf(pat)`. */
  function IndexOf(s: string, pat: string): int
  {
    IndexOfFrom(s, pat, 0)
  }

  /** `s.indexOf(pat) !== -1` holds exactly when `pat` occurs somewhere in `s`. */
  lemma IndexOfFoundIff(s: string, pat: string)
    ensures IndexOf(s, pat) != -1 <==> exists i :: OccursAt(s, pat, i)
  {
  }

  /** `s.split(c)[0]`: the part of `s` before the first `c` (all of `s` when
      there is no `c`). */
  function PrefixBefore(s: string, c: char): (r: string)
    ensures r <= s
    ensures c !in r
    ensures |r| < |s| ==> s[|r|] == c
  {
    if s == [] || s[0] == c then [] else [s[0]] + PrefixBefore(s[1..], c)
  }

  /** `s.endsWith(c)` for a one-character suffix. */
  predicate EndsWith(s: string, c: char)
  {
    |s| > 0 && s[|s| - 1] == c
  }
}

/** The string operations of JavaScript that the core calls: `trim`,
    `indexOf`, `includes` and `replace` with a string pattern. */
module Strings {

  /** The characters JavaScript's `trim` removes and its `\s` class matches:
      the WhiteSpace and LineTerminator code points of ECMAScript. */
  predicate IsWhitespace(c: char) {
    c == '\t' || c == '\n' || c == '\U{B}' || c == '\U{C}' || c == '\r' || c == ' '
    || c == '\U{A0}' || c == '\U{1680}' || ('\U{2000}' <= c <= '\U{200A}')
    || c == '\U{2028}' || c == '\U{2029}' || c == '\U{202F}' || c == '\U{205F}'
    || c == '\U{3000}' || c == '\U{FEFF}'
  }

  predicate AllWhitespace(s: string) {
    forall i :: 0 <= i < |s| ==> IsWhitespace(s[i])
  }

  function TrimStart(s: string): (r: string)
    ensures |r| <= |s| && r == s[|s| - |r|..]
    ensures AllWhitespace(s[..|s| - |r|])
    ensures r != [] ==> !IsWhitespace(r[0])
  {
    if |s| > 0 && IsWhitespace(s[0]) then
      var r := TrimStart(s[1..]);
      assert s[1..][..|s[1..]| - |r|] == s[1..|s| - |r|];
      r
    else s
  }

  function TrimEnd(s: string): (r: string)
    ensures |r| <= |s| && r == s[..|r|]
    ensures AllWhitespace(s[|r|..])
    ensures r != [] ==> !IsWhitespace(r[|r| - 1])
  {
    if |s| > 0 && IsWhitespace(s[|s| - 1]) then
      var r := TrimEnd(s[..|s| - 1]);
      assert s[..|s| - 1][|r|..] == s[|r|..|s| - 1];
      r
    else s
  }

  /** `s.trim()`. */
  function Trim(s: string): string {
    TrimEnd(TrimStart(s))
  }

  lemma {:induction false} TrimStartEmptyIff(s: string)
    ensures TrimStart(s) == "" <==> AllWhitespace(s)
  {
    if |s| > 0 {
      assert forall i :: 0 < i < |s| ==> s[1..][i - 1] == s[i];
      TrimStartEmptyIff(s[1..]);
    }
  }

  lemma {:induction false} TrimEndEmptyIff(s: string)
    ensures TrimEnd(s) == "" <==> AllWhitespace(s)
  {
    if |s| > 0 {
      assert forall i :: 0 <= i < |s| - 1 ==> s[..|s| - 1][i] == s[i];
      TrimEndEmptyIff(s[..|s| - 1]);
    }
  }

  /** `s.trim()` is empty exactly when every character of `s` is whitespace. */
  lemma TrimEmptyIff(s: string)
    ensures Trim(s) == "" <==> AllWhitespace(s)
  {
    TrimStartEmptyIff(s);
    TrimEndEmptyIff(TrimStart(s));
  }

  /** `pat` occurs in `s` starting at index `i`. */
  predicate OccursAt(s: string, pat: string, i: int) {
    0 <= i && i + |pat| <= |s| && s[i..i + |pat|] == pat
  }

  /** The characters of `pat` from index `k` on equal those of `s` from
      `from + k` on: the character-by-character comparison of a search. */
  predicate MatchesFrom(s: string, pat: string, from: nat, k: nat)
    requires from + |pat| <= |s| && k <= |pat|
    decreases |pat| - k
  {
    k == |pat| || (s[from + k] == pat[k] && MatchesFrom(s, pat, from, k + 1))
  }

  lemma {:induction false} MatchesFromIff(s: string, pat: string, from: nat, k: nat)
    requires from + |pat| <= |s| && k <= |pat|
    ensures MatchesFrom(s, pat, from, k) <==> s[from + k..from + |pat|] == pat[k..]
    decreases |pat| - k
  {
    if k < |pat| {
      MatchesFromIff(s, pat, from, k + 1);
      assert s[from + k..from + |pat|] == [s[from + k]] + s[from + k + 1..from + |pat|];
      assert pat[k..] == [pat[k]] + pat[k + 1..];
    }
  }

  /** `s.indexOf(pat, from)`: the first occurrence at or after `from`, or -1. */
  function IndexOf(s: string, pat: string, from: nat): (r: int)
    ensures r == -1 || (from <= r && OccursAt(s, pat, r))
    ensures r == -1 <==> forall i :: from <= i ==> !OccursAt(s, pat, i)
    ensures r >= 0 ==> forall i :: from <= i < r ==> !OccursAt(s, pat, i)
    decreases |s| - from
  {
    if from + |pat| > |s| then -1
    else
      MatchesFromIff(s, pat, from, 0);
      assert pat[0..] == pat;
      if MatchesFrom(s, pat, from, 0) then from else IndexOf(s, pat, from + 1)
  }

  /** `s.includes(pat)`. */
  function Contains(s: string, pat: string): (r: bool)
    ensures r <==> exists i :: OccursAt(s, pat, i)
  {
    IndexOf(s, pat, 0) >= 0
  }

  /** A pattern whose first character is absent from `s` does not occur in it. */
  lemma MissingCharNotContained(s: string, pat: string)
    requires |pat| > 0 && pat[0] !in s
    ensures !Contains(s, pat)
  {
    forall i | 0 <= i ensures !OccursAt(s, pat, i) {
      if i + |pat| <= |s| {
        assert s[i..i + |pat|][0] == s[i];
      }
    }
  }

  /** `s.replace(pat, rep)` with a string pattern: only the first occurrence. */
  function ReplaceFirst(s: string, pat: string, rep: string): (r: string)
    ensures !Contains(s, pat) ==> r == s
    ensures Contains(s, pat) ==>
      var i := IndexOf(s, pat, 0); r == s[..i] + rep + s[i + |pat|..]
  {
    var i := IndexOf(s, pat, 0);
    if i < 0 then s else s[..i] + rep + s[i + |pat|..]
  }
}

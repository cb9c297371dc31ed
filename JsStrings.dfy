/** The handful of JavaScript string operations the lexer and the CST
    scanners rely on, with their out-of-range behaviour written out: reading
    past either end gives `undefined`, `substr`, `slice` and `substring`
    clamp their bounds, and `substring` swaps reversed bounds. */
module JsStrings {
  import opened Wrappers

  function Min(a: int, b: int): int { if a <= b then a else b }

  function Max(a: int, b: int): int { if a <= b then b else a }

  /** `s[i]`: the character at `i`, or `undefined` outside the string. */
  function At(s: string, i: int): (r: Option<char>)
    ensures r.Some? <==> 0 <= i < |s|
    ensures r.Some? ==> r.value == s[i]
  {
    if 0 <= i < |s| then Some(s[i]) else None
  }

  /** `s.substr(start, n)` for a non-negative `start`. */
  function Substr(s: string, start: nat, n: int): (r: string)
    ensures n <= 0 ==> r == ""
    ensures n > 0 ==> r == s[Min(start, |s|)..Min(start + n, |s|)]
  {
    if n <= 0 then "" else s[Min(start, |s|)..Min(start + n, |s|)]
  }

  /** `s.slice(from, to)` for a non-negative `from`; a negative `to` counts
      from the end of the string. */
  function Slice(s: string, from: nat, to: int): (r: string)
    ensures from <= to <= |s| ==> r == s[from..to]
    ensures 0 <= to <= from ==> r == ""
    ensures |s| <= to ==> r == s[Min(from, |s|)..]
  {
    var f := Min(from, |s|);
    var t := if to < 0 then Max(|s| + to, 0) else Min(to, |s|);
    if f < t then s[f..t] else ""
  }

  /** `s.substring(a, b)`: both bounds are clamped to the string, and the
      smaller one is taken as the start. */
  function Substring(s: string, a: int, b: int): (r: string)
    ensures 0 <= a <= b <= |s| ==> r == s[a..b]
    ensures 0 <= b <= a <= |s| ==> r == s[b..a]
    ensures a == b ==> r == ""
  {
    var x := Max(0, Min(a, |s|));
    var y := Max(0, Min(b, |s|));
    if x <= y then s[x..y] else s[y..x]
  }

  /** Two adjacent slices of `s` make one. */
  lemma SubstringJoin(s: string, a: nat, b: nat, c: nat)
    requires a <= b <= c <= |s|
    ensures Substring(s, a, c) == s[a..b] + Substring(s, b, c)
  {
    assert s[a..c] == s[a..b] + s[b..c];
  }

  /** `s.indexOf(c, from)`: the first index at or after `from` holding `c`,
      or -1. */
  function IndexOf(s: string, c: char, from: int): (r: int)
    ensures r == -1 || (Max(from, 0) <= r < |s| && s[r] == c)
    ensures r == -1 ==> forall k :: Max(from, 0) <= k < |s| ==> s[k] != c
    ensures r != -1 ==> forall k :: Max(from, 0) <= k < r ==> s[k] != c
    decreases |s| - from
  {
    if from < 0 then IndexOf(s, c, 0)
    else if from >= |s| then -1
    else if s[from] == c then from
    else IndexOf(s, c, from + 1)
  }

  /** `s.indexOf(a + b)` for a two-character needle: the first index `k`
      with `s[k] == a` and `s[k + 1] == b`, or -1. */
  function IndexOfPair(s: string, a: char, b: char, from: nat): (r: int)
    ensures r == -1 || (from <= r && r + 1 < |s| && s[r] == a && s[r + 1] == b)
    ensures r == -1 ==> forall k :: from <= k && k + 1 < |s| ==> !(s[k] == a && s[k + 1] == b)
    ensures r != -1 ==> forall k :: from <= k < r ==> !(s[k] == a && s[k + 1] == b)
    decreases |s| - from
  {
    if from + 1 >= |s| then -1
    else if s[from] == a && s[from + 1] == b then from
    else IndexOfPair(s, a, b, from + 1)
  }
}

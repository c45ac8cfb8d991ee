/**
 * Substring search as `std::string::find` performs it: the first index at
 * which a pattern occurs, or -1 standing for `std::string::npos`.
 * Every payload-type dispatch in the modules tests `raw_dt.find(pat) != npos`,
 * which is `Contains(raw_dt, pat)` here.
 */
module Substring {

  /** `pat` occurs in `s` starting at index `i`. */
  predicate OccursAt(s: string, pat: string, i: nat)
  {
    i + |pat| <= |s| && s[i..i + |pat|] == pat
  }

  /** Characters `k..` of `pat` agree with `s` from index `i + k` on. */
  predicate MatchesFrom(s: string, pat: string, i: nat, k: nat)
    requires i + |pat| <= |s| && k <= |pat|
    decreases |pat| - k
  {
    k == |pat| || (s[i + k] == pat[k] && MatchesFrom(s, pat, i, k + 1))
  }

  /** The character-by-character comparison from offset `k` agrees with comparing the remaining slices. */
  lemma {:induction false} MatchesFromIsSlice(s: string, pat: string, i: nat, k: nat)
    requires i + |pat| <= |s| && k <= |pat|
    ensures MatchesFrom(s, pat, i, k) <==> s[i + k..i + |pat|] == pat[k..]
    decreases |pat| - k
  {
    if k < |pat| {
      MatchesFromIsSlice(s, pat, i, k + 1);
      assert s[i + k..i + |pat|] == [s[i + k]] + s[i + k + 1..i + |pat|];
      assert pat[k..] == [pat[k]] + pat[k + 1..];
    }
  }

  /** First occurrence of `pat` in `s` at or after `from`, or -1. */
  function FindFrom(s: string, pat: string, from: nat): (r: int)
    ensures r == -1 || (from <= r && OccursAt(s, pat, r))
    ensures r != -1 ==> forall j :: from <= j < r ==> !OccursAt(s, pat, j)
    ensures r == -1 ==> forall j :: from <= j ==> !OccursAt(s, pat, j)
    decreases |s| - from
  {
    if from + |pat| > |s| then -1
    else if MatchesFrom(s, pat, from, 0) then
      MatchesFromIsSlice(s, pat, from, 0);
      from
    else
      MatchesFromIsSlice(s, pat, from, 0);
      FindFrom(s, pat, from + 1)
  }

  /** `s.find(pat)`: the first index of `pat` in `s`, -1 for npos. */
  function Find(s: string, pat: string): (r: int)
    ensures r == -1 <==> forall j :: !OccursAt(s, pat, j)
    ensures r != -1 ==> 0 <= r && OccursAt(s, pat, r) && forall j :: 0 <= j < r ==> !OccursAt(s, pat, j)
  {
    FindFrom(s, pat, 0)
  }

  /** `s.find(pat) != npos`. */
  predicate Contains(s: string, pat: string)
  {
    Find(s, pat) != -1
  }

  /** One occurrence is enough for `find` to succeed. */
  lemma ContainsAt(s: string, pat: string, i: nat)
    requires OccursAt(s, pat, i)
    ensures Contains(s, pat)
  {
  }

  /** Every string contains itself (found at index 0). */
  lemma ContainsSelf(s: string)
    ensures Contains(s, s)
    ensures Find(s, s) == 0
  {
    assert s[0..|s|] == s;
    assert OccursAt(s, s, 0);
  }

  /** Containment is transitive: a pattern found inside a pattern is found wherever that pattern is. */
  lemma ContainsTransitive(a: string, b: string, c: string)
    requires Contains(a, b) && Contains(b, c)
    ensures Contains(a, c)
  {
    var i := Find(a, b);
    var j := Find(b, c);
    assert OccursAt(a, b, i) && OccursAt(b, c, j);
    var w := a[i + j..i + j + |c|];
    forall k | 0 <= k < |c|
      ensures w[k] == c[k]
    {
      assert a[i..i + |b|][j + k] == b[j + k];
      assert b[j..j + |c|][k] == c[k];
    }
    assert w == c;
    assert OccursAt(a, c, i + j);
  }

  /** A pattern longer than the string is never found. */
  lemma LongerNotContained(s: string, pat: string)
    requires |pat| > |s|
    ensures !Contains(s, pat)
  {
  }

  /** A pattern holding a character the string lacks is never found. */
  lemma MissingChar(s: string, pat: string, c: char)
    requires c in pat && c !in s
    ensures !Contains(s, pat)
  {
    var k :| 0 <= k < |pat| && pat[k] == c;
    forall i | 0 <= i <= |s| - |pat|
      ensures !OccursAt(s, pat, i)
    {
      assert s[i..i + |pat|][k] == s[i + k];
    }
  }

  /** No occurrence at any of the positions where `pat` could start: `pat` is not found. */
  lemma NowhereInside(s: string, pat: string)
    requires |pat| <= |s|
    requires forall i :: 0 <= i <= |s| - |pat| ==> !OccursAt(s, pat, i)
    ensures !Contains(s, pat)
  {
  }
}

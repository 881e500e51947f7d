/** The few std::string operations the scheduler relies on. */
module Text {

  predicate OccursAt(s: string, pat: string, i: int) {
    0 <= i && i + |pat| <= |s| && s[i..i + |pat|] == pat
  }

  /** Index of the first occurrence of `pat` at or after `from`; -1 stands for npos. */
  function FindFrom(s: string, pat: string, from: nat): (r: int)
    requires from <= |s|
    ensures r == -1 || (from <= r && OccursAt(s, pat, r))
    ensures forall i | OccursAt(s, pat, i) :: i < from || (r != -1 && r <= i)
    decreases |s| - from
  {
    if from + |pat| > |s| then -1
    else if OccursAt(s, pat, from) then from
    else FindFrom(s, pat, from + 1)
  }

  /** std::string::find */
  function Find(s: string, pat: string): (r: int)
    ensures r == -1 || OccursAt(s, pat, r)
    ensures forall i | OccursAt(s, pat, i) :: r != -1 && r <= i
  {
    FindFrom(s, pat, 0)
  }

  /** std::string::rfind for a single character. */
  function LastIndexOf(s: string, c: char): (r: int)
    ensures -1 <= r < |s|
    ensures r == -1 ==> c !in s
    ensures r >= 0 ==> s[r] == c && c !in s[r + 1..]
  {
    if s == "" then -1
    else
      var k := |s| - 1;
      if s[k] == c then k
      else
        var r := LastIndexOf(s[..k], c);
        assert s == s[..k] + [s[k]];
        assert r >= 0 ==> s[r + 1..] == s[..k][r + 1..] + [s[k]];
        r
  }

  lemma LastIndexUnique(s: string, c: char, k: nat)
    requires k < |s| && s[k] == c && c !in s[k + 1..]
    ensures LastIndexOf(s, c) == k
  {
    if k < |s| - 1 {
      assert s[|s| - 1] == s[k + 1..][|s| - k - 2];
      assert s[..|s| - 1][k + 1..] == s[k + 1..][..|s| - k - 2];
      LastIndexUnique(s[..|s| - 1], c, k);
    }
  }

  lemma FoundFirst(s: string, pat: string)
    ensures Find(s, pat) == 0 <==> pat <= s
  {
    if pat <= s {
      assert OccursAt(s, pat, 0);
    }
  }
}

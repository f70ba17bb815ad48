/**
  The two string tests the classifier performs on literal text: Python's
  `str.startswith` and `re.search` with a pattern that is a plain literal (no
  regular-expression operator in it, so the `re.M` and `re.S` flags change nothing).
 */
module TextSearch {

  /** `s.startswith(pre)` */
  predicate IsPrefix(pre: string, s: string)
  {
    |pre| <= |s| && s[..|pre|] == pre
  }

  /** `pat` occurs in `s` starting at index `i`. */
  predicate OccursAt(pat: string, s: string, i: int)
  {
    0 <= i && i + |pat| <= |s| && s[i..i + |pat|] == pat
  }

  /** `re.search(pat, s)` finds a match, for a literal `pat`. */
  predicate Contains(s: string, pat: string)
  {
    exists i | 0 <= i <= |s| - |pat| :: OccursAt(pat, s, i)
  }

  /** Where a search stopped: at the first occurrence, or nowhere. */
  datatype Found = At(index: nat) | NotFound

  /** Character-by-character `startswith`. */
  method StartsWith(s: string, pre: string) returns (b: bool)
    ensures b <==> IsPrefix(pre, s)
  {
    if |pre| > |s| {
      return false;
    }
    var i := 0;
    while i < |pre|
      invariant 0 <= i <= |pre|
      invariant s[..i] == pre[..i]
    {
      if s[i] != pre[i] {
        assert s[..|pre|][i] != pre[i];
        return false;
      }
      i := i + 1;
    }
    assert s[..|pre|] == s[..i];
    return true;
  }

  /** Left-to-right scan for the leftmost occurrence of a literal, as `re.search` reports it. */
  method Search(s: string, pat: string) returns (r: Found)
    ensures r.At? ==> OccursAt(pat, s, r.index)
    ensures r.At? ==> forall j :: 0 <= j < r.index ==> !OccursAt(pat, s, j)
    ensures r.NotFound? <==> !Contains(s, pat)
  {
    if |pat| > |s| {
      return NotFound;
    }
    var i := 0;
    while i <= |s| - |pat|
      invariant 0 <= i <= |s| - |pat| + 1
      invariant forall j :: 0 <= j < i ==> !OccursAt(pat, s, j)
    {
      if s[i..i + |pat|] == pat {
        return At(i);
      }
      i := i + 1;
    }
    return NotFound;
  }

  /** A literal placed anywhere inside a text is found by the search. */
  lemma ContainsEmbedded(before: string, pat: string, after: string)
    ensures Contains(before + pat + after, pat)
  {
    var s := before + pat + after;
    assert s[|before|..|before| + |pat|] == pat;
    assert OccursAt(pat, s, |before|);
  }
}

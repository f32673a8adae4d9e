/**
 * Substring search on strings, as the scanner uses it: every test in the
 * source has the form `line.find(pattern) != std::string::npos`.
 */
module Text {

  datatype Option<+T> = None | Some(value: T)

  /** `pat` occurs in `s` starting at index `i`. */
  predicate OccursAt(s: string, pat: string, i: int)
  {
    0 <= i && i + |pat| <= |s| && s[i..i + |pat|] == pat
  }

  /**
   * `s.find(pat, from)`: the first index at or after `from` where `pat`
   * occurs, or None for `npos`.
   */
  function FindFrom(s: string, pat: string, from: nat): (r: Option<nat>)
    decreases |s| - from
    ensures r.Some? ==> from <= r.value && OccursAt(s, pat, r.value)
    ensures r.Some? ==> forall j :: from <= j < r.value ==> !OccursAt(s, pat, j)
    ensures r.None? ==> forall j :: from <= j ==> !OccursAt(s, pat, j)
  {
    if from + |pat| > |s| then None
    else if s[from..from + |pat|] == pat then Some(from)
    else FindFrom(s, pat, from + 1)
  }

  /** `s.find(pat) != npos`: `pat` is a contiguous, case-sensitive substring of `s`. */
  function Contains(s: string, pat: string): (b: bool)
    ensures b <==> exists i :: OccursAt(s, pat, i)
  {
    FindFrom(s, pat, 0).Some?
  }

  /** The empty pattern is found in every string, the empty one included (at index 0). */
  lemma EmptyPatternFound(s: string)
    ensures FindFrom(s, "", 0) == Some(0)
    ensures Contains(s, "")
  {
  }

  /** A one-character pattern occurs exactly where that character stands. */
  lemma OccursAtChar(s: string, c: char, i: int)
    requires 0 <= i < |s|
    ensures OccursAt(s, [c], i) <==> s[i] == c
  {
    if s[i] == c {
      assert s[i..i + 1] == [c];
    }
  }
}

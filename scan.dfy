/**
 * What the scanner's loops compute, stated over the file's line sequence:
 * the lines a keyword search keeps, the level a line is counted under, and
 * the per-level counters.
 */
module Scan {
  import opened Text

  /** The lines of `ls` that contain `pat`, in file order and unchanged. */
  function Matching(ls: seq<string>, pat: string): (r: seq<string>)
    ensures |r| <= |ls|
  {
    if ls == [] then []
    else
      var last := ls[|ls| - 1];
      Matching(ls[..|ls| - 1], pat) + (if Contains(last, pat) then [last] else [])
  }

  /** `a` is `b` with some elements left out and the rest kept in order. */
  predicate IsSubsequence<T(==)>(a: seq<T>, b: seq<T>)
    decreases |b|
  {
    if b == [] then a == []
    else
      (a != [] && a[|a| - 1] == b[|b| - 1] && IsSubsequence(a[..|a| - 1], b[..|b| - 1]))
      || IsSubsequence(a, b[..|b| - 1])
  }

  /** A line is kept if and only if it is a line of the file and contains the pattern. */
  lemma {:induction false} MatchingExact(ls: seq<string>, pat: string)
    ensures forall l :: l in Matching(ls, pat) <==> l in ls && Contains(l, pat)
  {
    if ls != [] {
      var init, last := ls[..|ls| - 1], ls[|ls| - 1];
      MatchingExact(init, pat);
      assert ls == init + [last];
    }
  }

  /** The kept lines are a subsequence of the file's lines: file order, nothing altered. */
  lemma {:induction false} MatchingSubsequence(ls: seq<string>, pat: string)
    ensures IsSubsequence(Matching(ls, pat), ls)
  {
    if ls != [] {
      var init, last := ls[..|ls| - 1], ls[|ls| - 1];
      MatchingSubsequence(init, pat);
      var m := Matching(ls, pat);
      if Contains(last, pat) {
        assert m == Matching(init, pat) + [last];
        assert m[..|m| - 1] == Matching(init, pat);
      } else {
        assert m == Matching(init, pat);
      }
    }
  }

  /** Every kept line is kept as many times as it occurs in the file; other lines not at all. */
  lemma {:induction false} MatchingMultiplicity(ls: seq<string>, pat: string, l: string)
    ensures multiset(Matching(ls, pat))[l] == if Contains(l, pat) then multiset(ls)[l] else 0
  {
    if ls != [] {
      var init, last := ls[..|ls| - 1], ls[|ls| - 1];
      MatchingMultiplicity(init, pat, l);
      assert ls == init + [last];
    }
  }

  /** When every line contains the pattern, every line is kept. */
  lemma {:induction false} MatchingAll(ls: seq<string>, pat: string)
    requires forall l :: l in ls ==> Contains(l, pat)
    ensures Matching(ls, pat) == ls
  {
    if ls != [] {
      MatchingAll(ls[..|ls| - 1], pat);
      assert ls == ls[..|ls| - 1] + [ls[|ls| - 1]];
    }
  }

  /** Searching for the empty keyword keeps every line. */
  lemma MatchingEmptyKeyword(ls: seq<string>)
    ensures Matching(ls, "") == ls
  {
    forall l | l in ls
      ensures Contains(l, "")
    {
      EmptyPatternFound(l);
    }
    MatchingAll(ls, "");
  }

  // ---------------------------------------------------------------------
  // Levels

  datatype Level = Info | Warn | Error

  /** The level's key in the statistics map and its argument on the command line. */
  function Name(lvl: Level): string
  {
    match lvl
    case Info => "INFO"
    case Warn => "WARN"
    case Error => "ERROR"
  }

  /** The text a line must contain to be of that level: the name followed by ':'. */
  function Pattern(lvl: Level): string
  {
    Name(lvl) + ":"
  }

  /** Priority of the level tests: ERROR is tried first, then WARN, then INFO. */
  function Rank(lvl: Level): nat
  {
    match lvl
    case Error => 0
    case Warn => 1
    case Info => 2
  }

  /** The counter one line increments, if any (None: the line is "Other"). */
  function Classify(line: string): (c: Option<Level>)
    ensures c == Some(Error) <==> Contains(line, Pattern(Error))
    ensures c == Some(Warn) <==> !Contains(line, Pattern(Error)) && Contains(line, Pattern(Warn))
    ensures c == Some(Info) <==>
      !Contains(line, Pattern(Error)) && !Contains(line, Pattern(Warn)) && Contains(line, Pattern(Info))
    ensures c == None <==>
      !Contains(line, Pattern(Error)) && !Contains(line, Pattern(Warn)) && !Contains(line, Pattern(Info))
  {
    assert Pattern(Error) == "ERROR:" && Pattern(Warn) == "WARN:" && Pattern(Info) == "INFO:";
    if Contains(line, "ERROR:") then Some(Error)
    else if Contains(line, "WARN:") then Some(Warn)
    else if Contains(line, "INFO:") then Some(Info)
    else None
  }

  /**
   * First match wins: a line is counted under a level exactly when it
   * contains that level's pattern and no pattern of a level tried before it.
   */
  lemma ClassifyFirstMatch(line: string, lvl: Level)
    ensures Classify(line) == Some(lvl) <==>
      Contains(line, Pattern(lvl)) && forall h :: Rank(h) < Rank(lvl) ==> !Contains(line, Pattern(h))
  {
    assert Pattern(Error) == "ERROR:" && Pattern(Warn) == "WARN:" && Pattern(Info) == "INFO:";
  }

  /** A line is "Other" exactly when it contains none of the three patterns. */
  lemma ClassifyNone(line: string)
    ensures Classify(line) == None <==> forall lvl :: !Contains(line, Pattern(lvl))
  {
    assert Pattern(Error) == "ERROR:" && Pattern(Warn) == "WARN:" && Pattern(Info) == "INFO:";
  }

  /** A line holding both "ERROR:" and a later "INFO:" counts only as ERROR. */
  lemma ErrorBeatsInfo()
    ensures Classify("x ERROR: a INFO: b") == Some(Error)
  {
    assert OccursAt("x ERROR: a INFO: b", "ERROR:", 2);
  }

  /** The number of lines of `ls` that `Classify` puts under `c`. */
  function Tally(ls: seq<string>, c: Option<Level>): (n: nat)
    ensures n <= |ls|
  {
    if ls == [] then 0
    else Tally(ls[..|ls| - 1], c) + (if Classify(ls[|ls| - 1]) == c then 1 else 0)
  }

  /** Every line is counted under exactly one of ERROR, WARN, INFO and Other. */
  lemma {:induction false} TallyPartition(ls: seq<string>)
    ensures Tally(ls, Some(Info)) + Tally(ls, Some(Warn)) + Tally(ls, Some(Error)) + Tally(ls, None) == |ls|
  {
    if ls != [] {
      TallyPartition(ls[..|ls| - 1]);
    }
  }

  /** No line is counted under `c` exactly when no line of `ls` classifies as `c`. */
  lemma {:induction false} TallyZero(ls: seq<string>, c: Option<Level>)
    ensures Tally(ls, c) == 0 <==> forall l :: l in ls ==> Classify(l) != c
  {
    if ls != [] {
      var init, last := ls[..|ls| - 1], ls[|ls| - 1];
      TallyZero(init, c);
      assert ls == init + [last];
    }
  }

  /**
   * The three counters never exceed the line count, and reach it exactly
   * when every line contains one of the level patterns.
   */
  lemma LevelCountBound(ls: seq<string>)
    ensures Tally(ls, Some(Info)) + Tally(ls, Some(Warn)) + Tally(ls, Some(Error)) <= |ls|
    ensures Tally(ls, Some(Info)) + Tally(ls, Some(Warn)) + Tally(ls, Some(Error)) == |ls|
      <==> forall l :: l in ls ==> Classify(l).Some?
  {
    TallyPartition(ls);
    TallyZero(ls, None);
  }

  /** The ERROR counter equals the number of lines a filter on "ERROR" returns. */
  lemma {:induction false} ErrorTallyIsFilter(ls: seq<string>)
    ensures Tally(ls, Some(Error)) == |Matching(ls, Pattern(Error))|
  {
    assert Pattern(Error) == "ERROR:";
    if ls != [] {
      ErrorTallyIsFilter(ls[..|ls| - 1]);
    }
  }

  /** The WARN counter is at most the filter on "WARN": lines that also hold "ERROR:" count as ERROR. */
  lemma {:induction false} WarnTallyBound(ls: seq<string>)
    ensures Tally(ls, Some(Warn)) <= |Matching(ls, Pattern(Warn))|
  {
    assert Pattern(Warn) == "WARN:";
    if ls != [] {
      WarnTallyBound(ls[..|ls| - 1]);
    }
  }

  /** The statistics map for a line sequence: the three keys, each with its counter. */
  function StatsOf(ls: seq<string>): (m: map<string, int>)
    ensures m.Keys == {Name(Info), Name(Warn), Name(Error)}
    ensures forall lvl :: m[Name(lvl)] == Tally(ls, Some(lvl)) >= 0
  {
    map["INFO" := Tally(ls, Some(Info)), "WARN" := Tally(ls, Some(Warn)), "ERROR" := Tally(ls, Some(Error))]
  }

  /** One more line bumps the counter of its level, or none when it is "Other". */
  lemma StatsStep(ls: seq<string>, line: string)
    ensures StatsOf(ls + [line]) ==
      match Classify(line)
      case Some(lvl) => StatsOf(ls)[Name(lvl) := StatsOf(ls)[Name(lvl)] + 1]
      case None => StatsOf(ls)
  {
    assert (ls + [line])[..|ls|] == ls;
  }

  /** With no lines, every counter is zero. */
  lemma StatsOfNothing()
    ensures StatsOf([]) == map["INFO" := 0, "WARN" := 0, "ERROR" := 0]
  {
  }
}

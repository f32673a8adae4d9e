/**
 * How `std::getline(file, line)` cuts a file's text into lines: it breaks
 * on '\n' and drops it, a last segment without '\n' is still a line, a
 * trailing '\n' does not start an extra empty line, and empty text has no
 * lines at all.
 */
module Getline {
  import opened Text

  /**
   * One `std::getline` call on unread, non-empty input: the line it stores
   * (without the '\n') and the input that is left after it.
   */
  function NextLine(c: string): (p: (string, string))
    requires c != []
    ensures |p.1| < |c|
  {
    match FindFrom(c, "\n", 0)
    case None => (c, [])
    case Some(i) => (c[..i], c[i + 1..])
  }

  /**
   * getline stops at the first '\n' and drops it; without one it takes
   * the whole input as the line.
   */
  lemma NextLineSplits(c: string)
    requires c != []
    ensures '\n' !in NextLine(c).0
    ensures if '\n' in c then c == NextLine(c).0 + "\n" + NextLine(c).1 else NextLine(c) == (c, [])
  {
    match FindFrom(c, "\n", 0)
    case None =>
      forall j | 0 <= j < |c|
        ensures c[j] != '\n'
      {
        OccursAtChar(c, '\n', j);
      }
    case Some(i) =>
      OccursAtChar(c, '\n', i);
      forall j | 0 <= j < i
        ensures c[..i][j] != '\n'
      {
        OccursAtChar(c, '\n', j);
      }
      assert c == c[..i] + "\n" + c[i + 1..];
  }

  /** The records successive `std::getline` calls read from the text `c`, in order. */
  function Lines(c: string): (ls: seq<string>)
    decreases |c|
    ensures forall l :: l in ls ==> '\n' !in l
    ensures ls == [] <==> c == []
  {
    if c == [] then []
    else
      var (line, rest) := NextLine(c);
      NextLineSplits(c);
      [line] + Lines(rest)
  }

  /** Non-empty text: its lines are the line getline reads first, then the lines of what is left. */
  lemma LinesStep(c: string)
    requires c != []
    ensures Lines(c) == [NextLine(c).0] + Lines(NextLine(c).1)
  {
  }

  /** Writes every line back followed by its '\n'. */
  function Unlines(ls: seq<string>): (c: string)
  {
    if ls == [] then [] else ls[0] + "\n" + Unlines(ls[1..])
  }

  /** The text ends in a line that has no '\n' after it. */
  predicate Unterminated(c: string)
  {
    c != [] && c[|c| - 1] != '\n'
  }

  /**
   * The number of lines is the number of '\n' characters, plus one for a
   * last segment that has no '\n' after it.
   */
  lemma {:induction false} LineCount(c: string)
    ensures |Lines(c)| == multiset(c)['\n'] + (if Unterminated(c) then 1 else 0)
    decreases |c|
  {
    if c != [] {
      var (line, rest) := NextLine(c);
      NextLineSplits(c);
      LineCount(rest);
      if '\n' in c {
        assert multiset(line)['\n'] == 0;
        assert multiset(c) == multiset(line) + multiset("\n") + multiset(rest);
        if rest != [] {
          assert c[|c| - 1] == rest[|rest| - 1];
        }
      } else {
        assert multiset(c)['\n'] == 0;
      }
    }
  }

  /** Writing the lines back gives the text, with a '\n' added after an unterminated last line. */
  lemma {:induction false} UnlinesLines(c: string)
    ensures Unlines(Lines(c)) == c + (if Unterminated(c) then "\n" else [])
    decreases |c|
  {
    if c != [] {
      var (line, rest) := NextLine(c);
      NextLineSplits(c);
      LinesStep(c);
      UnlinesCons(line, Lines(rest));
      if '\n' in c {
        UnlinesLines(rest);
        UnterminatedSuffix(line + "\n", rest);
      } else {
        assert c[|c| - 1] in c;
      }
    }
  }

  /** Writing out a first line and then the others. */
  lemma UnlinesCons(l: string, ls: seq<string>)
    ensures Unlines([l] + ls) == l + "\n" + Unlines(ls)
  {
    assert ([l] + ls)[1..] == ls;
  }

  /** After a '\n', whether the text ends unterminated depends only on what follows it. */
  lemma UnterminatedSuffix(a: string, b: string)
    requires a != [] && a[|a| - 1] == '\n'
    ensures Unterminated(a + b) == Unterminated(b)
    ensures a + b + (if Unterminated(b) then "\n" else []) == a + (b + (if Unterminated(b) then "\n" else []))
  {
    if b != [] {
      assert (a + b)[|a + b| - 1] == b[|b| - 1];
    }
  }

  /** getline stops at the first '\n': text made of a '\n'-free line, '\n' and more is cut after that line. */
  lemma FirstNewline(a: string, b: string)
    requires '\n' !in a
    ensures NextLine(a + "\n" + b) == (a, b)
  {
    var c := a + "\n" + b;
    OccursAtChar(c, '\n', |a|);
    forall j | 0 <= j < |a|
      ensures !OccursAt(c, "\n", j)
    {
      OccursAtChar(c, '\n', j);
    }
    assert c[..|a|] == a && c[|a| + 1..] == b;
  }

  /** Lines without '\n', written out and read back by getline, come back unchanged. */
  lemma {:induction false} LinesUnlines(ls: seq<string>)
    requires forall l :: l in ls ==> '\n' !in l
    ensures Lines(Unlines(ls)) == ls
  {
    if ls != [] {
      FirstNewline(ls[0], Unlines(ls[1..]));
      LinesUnlines(ls[1..]);
    }
  }
}

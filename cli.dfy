/**
 * The command-line front end: which colour a result line is shown in, how
 * `argc`/`argv` select an operation and an exit code, and what one run
 * reports. Printed text is modelled by the values it shows.
 */
module Cli {
  import opened Text
  import opened Getline
  import opened Scan
  import opened Parser

  datatype Result<+T, +E> = Ok(value: T) | Err(error: E)

  // ---------------------------------------------------------------------
  // Colour of a printed line

  datatype Color = Red | Yellow | Green | Plain

  /** The colour `printColoredLevel` writes a line in. */
  function ColorOf(line: string): (c: Color)
    ensures c == LevelColor(Classify(line))
  {
    if Contains(line, "ERROR:") then Red
    else if Contains(line, "WARN:") then Yellow
    else if Contains(line, "INFO:") then Green
    else Plain
  }

  /** The colour that belongs to a level, Plain for a line of no level. */
  function LevelColor(c: Option<Level>): Color
  {
    match c
    case Some(Error) => Red
    case Some(Warn) => Yellow
    case Some(Info) => Green
    case None => Plain
  }

  /** A line printed by a level filter is coloured for that level or for one tried before it, never for a later one. */
  lemma {:induction false} FilteredLineRank(ls: seq<string>, lvl: Level)
    ensures forall l :: l in Matching(ls, Pattern(lvl)) ==>
      Classify(l).Some? && Rank(Classify(l).value) <= Rank(lvl)
  {
    MatchingExact(ls, Pattern(lvl));
    forall l | l in Matching(ls, Pattern(lvl))
      ensures Classify(l).Some? && Rank(Classify(l).value) <= Rank(lvl)
    {
      ClassifyNone(l);
      var c := Classify(l).value;
      if Rank(lvl) < Rank(c) {
        ClassifyFirstMatch(l, c);
      }
    }
  }

  /** One printed result line. */
  datatype Row = Row(color: Color, text: string)

  /** The rows the printing loop writes for `lines`, one per line, in order. */
  function Colored(lines: seq<string>): (rows: seq<Row>)
    ensures |rows| == |lines|
  {
    seq(|lines|, i requires 0 <= i < |lines| => Row(ColorOf(lines[i]), lines[i]))
  }

  /** The loop that prints every result line with `printColoredLevel`. */
  method ColorLines(lines: seq<string>) returns (rows: seq<Row>)
    ensures rows == Colored(lines)
  {
    rows := [];
    for i := 0 to |lines|
      invariant rows == Colored(lines[..i])
    {
      assert lines[..i + 1] == lines[..i] + [lines[i]];
      rows := rows + [Row(ColorOf(lines[i]), lines[i])];
    }
    assert lines[..|lines|] == lines;
  }

  /** Every row of a filter on "ERROR" is printed red. */
  lemma ErrorRowsAreRed(ls: seq<string>)
    ensures forall r :: r in Colored(Matching(ls, Pattern(Error))) ==> r.color == Red
  {
    MatchingExact(ls, Pattern(Error));
    assert Pattern(Error) == "ERROR:";
  }

  // ---------------------------------------------------------------------
  // Argument dispatch

  /** The operation a command selects. */
  datatype Command = Count | Search(keyword: string) | ByLevel(level: string) | Summarize | TimeStats

  /** A run with these arguments: the log file (`argv[1]`) and the command. */
  datatype Invocation = Invocation(file: string, command: Command)

  /** Why `main` prints the usage text and exits with 1. */
  datatype ArgError = TooFewArguments | MissingKeyword | MissingLevel | UnknownCommand(command: string)

  /**
   * What `main` decides from `argv` (whose length is `argc`, with the
   * program name at index 0): an operation on a file, or an argument error.
   */
  function ParseArgs(args: seq<string>): (r: Result<Invocation, ArgError>)
    ensures r.Ok? ==> |args| >= 3 && r.value.file == args[1]
    ensures r.Ok? && r.value.command.Search? ==> |args| >= 4 && r.value.command.keyword == args[3]
    ensures r.Ok? && r.value.command.ByLevel? ==> |args| >= 4 && r.value.command.level == args[3]
    ensures |args| >= 3 && args[2] == "--count" ==> r == Ok(Invocation(args[1], Count))
    ensures |args| >= 4 && args[2] == "--search" ==> r == Ok(Invocation(args[1], Search(args[3])))
    ensures |args| >= 4 && args[2] == "--level" ==> r == Ok(Invocation(args[1], ByLevel(args[3])))
    ensures |args| >= 3 && args[2] == "--summary" ==> r == Ok(Invocation(args[1], Summarize))
    ensures |args| >= 3 && args[2] == "--timestats" ==> r == Ok(Invocation(args[1], TimeStats))
  {
    if |args| < 3 then Err(TooFewArguments)
    else
      var file, command := args[1], args[2];
      if command == "--count" then Ok(Invocation(file, Count))
      else if command == "--search" then
        if |args| < 4 then Err(MissingKeyword) else Ok(Invocation(file, Search(args[3])))
      else if command == "--level" then
        if |args| < 4 then Err(MissingLevel) else Ok(Invocation(file, ByLevel(args[3])))
      else if command == "--summary" then Ok(Invocation(file, Summarize))
      else if command == "--timestats" then Ok(Invocation(file, TimeStats))
      else Err(UnknownCommand(command))
  }

  /** The process exit code: 0 for a dispatched command, 1 for an argument error. */
  function ExitCode(r: Result<Invocation, ArgError>): (code: int)
    ensures code == 0 || code == 1
    ensures code == 0 <==> r.Ok?
  {
    if r.Ok? then 0 else 1
  }

  /**
   * The exit code is 0 exactly when there are at least three arguments and
   * the command is one of the five known ones, with a fourth argument for
   * `--search` and `--level`; otherwise it is 1.
   */
  lemma ExitCodeTable(args: seq<string>)
    ensures ExitCode(ParseArgs(args)) in {0, 1}
    ensures ExitCode(ParseArgs(args)) == 0 <==>
      |args| >= 3 &&
      (args[2] == "--count" || args[2] == "--summary" || args[2] == "--timestats" ||
       ((args[2] == "--search" || args[2] == "--level") && |args| >= 4))
  {
  }

  /** Missing arguments are reported before the command is looked at. */
  lemma TooFewArgumentsFirst(args: seq<string>)
    requires |args| < 3
    ensures ParseArgs(args) == Err(TooFewArguments)
  {
  }

  // ---------------------------------------------------------------------
  // One run

  /** What one run shows. */
  datatype Report =
    | Usage(error: ArgError)                          // error message and usage text
    | LineTotal(shown: Option<int>)                   // --count: the total, unless the file cannot be opened
    | SearchResults(keyword: string, rows: seq<Row>)  // --search: "Found n lines" and the rows
    | LevelResults(level: string, rows: seq<Row>)     // --level: "Found n lines" and the rows
    | SummaryReport(summary: Summary)                 // --summary
    | TimeStatsReport                                 // --timestats

  /**
   * `main`: an argument error shows the usage and exits with 1 without
   * running any scan; otherwise the selected scan runs on `argv[1]` and the
   * exit code is 0.
   */
  method Run(args: seq<string>, fs: FileSystem) returns (code: int, report: Report)
    ensures code == ExitCode(ParseArgs(args))
    ensures code == 1 <==> report.Usage?
    ensures ParseArgs(args).Err? ==> report == Usage(ParseArgs(args).error)
    ensures ParseArgs(args).Ok? ==>
      var file := ParseArgs(args).value.file;
      match ParseArgs(args).value.command
      case Count =>
        report == LineTotal(if file in fs then Some(|Lines(fs[file])|) else None)
      case Search(keyword) =>
        report == SearchResults(keyword, Colored(Matching(LinesIn(fs, file), keyword)))
      case ByLevel(level) =>
        report == LevelResults(level, Colored(Matching(LinesIn(fs, file), level + ":")))
      case Summarize =>
        var ls, others := LinesIn(fs, file), Tally(LinesIn(fs, file), None);
        report == SummaryReport(Summary(file, if file in fs then |ls| else -1,
          Tally(ls, Some(Info)), Tally(ls, Some(Warn)), Tally(ls, Some(Error)),
          if others > 0 then Some(others) else None))
      case TimeStats =>
        report == TimeStatsReport
  {
    var parsed := ParseArgs(args);
    if parsed.Err? {
      return 1, Usage(parsed.error);
    }
    var parser := new LogParser(parsed.value.file);
    match parsed.value.command {
      case Count =>
        var lineCount := parser.CountLines(fs);
        report := LineTotal(if lineCount >= 0 then Some(lineCount) else None);
      case Search(keyword) =>
        var results := parser.Search(fs, keyword);
        var rows := ColorLines(results);
        report := SearchResults(keyword, rows);
      case ByLevel(level) =>
        var results := parser.FilterByLevel(fs, level);
        var rows := ColorLines(results);
        report := LevelResults(level, rows);
      case Summarize =>
        var summary := parser.PrintSummary(fs);
        report := SummaryReport(summary);
      case TimeStats =>
        report := TimeStatsReport;
    }
    code := 0;
  }
}

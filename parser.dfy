/**
 * The log scanner: a `LogParser` holds one file name and every operation
 * opens that file, reads it line by line with getline and folds the lines
 * into a result. Opening is modelled by a `FileSystem`, the map from each
 * path that can be opened for reading to the text it holds.
 */
module Parser {
  import opened Text
  import opened Getline
  import opened Scan

  /** The paths that can be opened for reading, each with its contents. */
  type FileSystem = map<string, string>

  /** What `printSummary` writes: file name, total, the three counters and the optional "Other" line. */
  datatype Summary = Summary(file: string, total: int, info: int, warn: int, error: int, other: Option<int>)

  /** The lines an operation on `file` reads: none when it cannot be opened. */
  function LinesIn(fs: FileSystem, file: string): (ls: seq<string>)
    ensures file !in fs ==> ls == []
  {
    if file in fs then Lines(fs[file]) else []
  }

  class LogParser {
    const filename: string

    constructor (filename: string)
      ensures this.filename == filename
    {
      this.filename := filename;
    }

    /** Number of getline records in the file, or -1 when it cannot be opened. */
    method CountLines(fs: FileSystem) returns (count: int)
      ensures count == -1 <==> filename !in fs
      ensures filename in fs ==> count == |Lines(fs[filename])|
    {
      if filename !in fs {
        return -1;
      }
      var rest := fs[filename];
      ghost var done: seq<string> := [];
      count := 0;
      while rest != []
        invariant Lines(fs[filename]) == done + Lines(rest)
        invariant count == |done|
        decreases |rest|
      {
        var p := NextLine(rest);
        var line, next := p.0, p.1;
        LinesStep(rest);
        assert Lines(fs[filename]) == (done + [line]) + Lines(next);
        done, rest := done + [line], next;
        count := count + 1;
      }
    }

    /** The lines containing `keyword`, in file order; none when the file cannot be opened. */
    method Search(fs: FileSystem, keyword: string) returns (results: seq<string>)
      ensures filename !in fs ==> results == []
      ensures filename in fs ==> results == Matching(Lines(fs[filename]), keyword)
    {
      results := [];
      if filename !in fs {
        return;
      }
      var rest := fs[filename];
      ghost var done: seq<string> := [];
      while rest != []
        invariant Lines(fs[filename]) == done + Lines(rest)
        invariant results == Matching(done, keyword)
        decreases |rest|
      {
        var p := NextLine(rest);
        var line, next := p.0, p.1;
        LinesStep(rest);
        assert Lines(fs[filename]) == (done + [line]) + Lines(next);
        if Contains(line, keyword) {
          results := results + [line];
        }
        assert (done + [line])[..|done|] == done;
        done, rest := done + [line], next;
      }
      assert done == Lines(fs[filename]);
    }

    /** The lines containing `level + ":"` anywhere, in file order; none when the file cannot be opened. */
    method FilterByLevel(fs: FileSystem, level: string) returns (results: seq<string>)
      ensures filename !in fs ==> results == []
      ensures filename in fs ==> results == Matching(Lines(fs[filename]), level + ":")
    {
      results := [];
      if filename !in fs {
        return;
      }
      var rest := fs[filename];
      ghost var done: seq<string> := [];
      while rest != []
        invariant Lines(fs[filename]) == done + Lines(rest)
        invariant results == Matching(done, level + ":")
        decreases |rest|
      {
        var p := NextLine(rest);
        var line, next := p.0, p.1;
        LinesStep(rest);
        assert Lines(fs[filename]) == (done + [line]) + Lines(next);
        var levelPattern := level + ":";
        if Contains(line, levelPattern) {
          results := results + [line];
        }
        assert (done + [line])[..|done|] == done;
        done, rest := done + [line], next;
      }
      assert done == Lines(fs[filename]);
    }

    /**
     * The map INFO/WARN/ERROR to the number of lines counted under each,
     * first match winning; all zero when the file cannot be opened.
     */
    method GetLevelStats(fs: FileSystem) returns (stats: map<string, int>)
      ensures filename !in fs ==> stats == map["INFO" := 0, "WARN" := 0, "ERROR" := 0]
      ensures filename in fs ==> stats == StatsOf(Lines(fs[filename]))
    {
      stats := map["INFO" := 0, "WARN" := 0, "ERROR" := 0];
      if filename !in fs {
        return;
      }
      var rest := fs[filename];
      ghost var done: seq<string> := [];
      assert Pattern(Error) == "ERROR:" && Pattern(Warn) == "WARN:" && Pattern(Info) == "INFO:";
      while rest != []
        invariant Lines(fs[filename]) == done + Lines(rest)
        invariant stats == StatsOf(done)
        decreases |rest|
      {
        var p := NextLine(rest);
        var line, next := p.0, p.1;
        LinesStep(rest);
        assert Lines(fs[filename]) == (done + [line]) + Lines(next);
        if Contains(line, "ERROR:") {
          stats := stats["ERROR" := stats["ERROR"] + 1];
        } else if Contains(line, "WARN:") {
          stats := stats["WARN" := stats["WARN"] + 1];
        } else if Contains(line, "INFO:") {
          stats := stats["INFO" := stats["INFO"] + 1];
        }
        StatsStep(done, line);
        done, rest := done + [line], next;
      }
      assert done == Lines(fs[filename]);
    }

    /**
     * The figures `printSummary` writes. "Other" is the total minus the three
     * counters and is shown only when positive: exactly when the file opens
     * and has a line with none of the level patterns, and then it is the
     * number of such lines.
     */
    method PrintSummary(fs: FileSystem) returns (s: Summary)
      ensures s.file == filename
      ensures s.total == (if filename in fs then |Lines(fs[filename])| else -1)
      ensures var ls := LinesIn(fs, filename);
        s.info == Tally(ls, Some(Info)) && s.warn == Tally(ls, Some(Warn)) && s.error == Tally(ls, Some(Error))
      ensures var others := Tally(LinesIn(fs, filename), None);
        s.other == if others > 0 then Some(others) else None
      ensures s.other.Some? <==> filename in fs && exists l :: l in Lines(fs[filename]) && Classify(l) == None
    {
      var totalLines := CountLines(fs);
      var stats := GetLevelStats(fs);
      var other := totalLines - (stats["INFO"] + stats["WARN"] + stats["ERROR"]);
      if filename in fs {
        var ls := Lines(fs[filename]);
        TallyPartition(ls);
        TallyZero(ls, None);
      }
      s := Summary(filename, totalLines, stats["INFO"], stats["WARN"], stats["ERROR"],
                   if other > 0 then Some(other) else None);
    }
  }
}

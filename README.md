# log-parser, modelled in Dafny

A model of `log_parser`, a command-line tool that inspects a text log file.
The engine is the class `LogParser`. It holds a file name. Each of its
operations opens the file, reads it with `std::getline` and folds the lines
into a result:

- `countLines` gives the number of lines, or `-1` when the file cannot be opened;
- `search(keyword)` gives the lines containing the keyword;
- `filterByLevel(level)` gives the lines containing `level + ":"`;
- `getLevelStats` gives the INFO/WARN/ERROR counters, where the first match wins in the order ERROR, WARN, INFO;
- `printSummary` shows the total, the counters and an "Other" figure.

`main` checks the arguments, picks the operation and the exit code, and
prints result lines in a colour chosen by their level.

Files and modules:

- `text.dfy` (`Text`): `std::string::find` as `FindFrom` and `Contains`.
- `getline.dfy` (`Getline`): how `getline` cuts text into lines (`NextLine`, `Lines`), with the inverse `Unlines`.
- `scan.dfy` (`Scan`): specification functions over the line sequence: `Matching` (the lines a search keeps), `Classify` (the counter a line bumps), `Tally` and `StatsOf` (the counters).
- `parser.dfy` (`Parser`): the class `LogParser`. Each scanning operation (`CountLines`, `Search`, `FilterByLevel`, `GetLevelStats`) is a method whose `while` loop calls `NextLine` once per step, as the source calls `getline`; these loops are proved against the functions of `Scan`. `PrintSummary` has no loop: it calls `CountLines` and `GetLevelStats` and combines their results.
- `cli.dfy` (`Cli`): `printColoredLevel` as `ColorOf`, the argument decision as `ParseArgs` and `ExitCode`, and `main` as the method `Run`.

Opening a file is modelled by `FileSystem`, a map from each path that can be
opened for reading to its text. A path that is not in the map cannot be
opened. The model uses unbounded integers for the `int` counters.
Each character of a modelled text stands for one byte of the file. The
source's `std::string`, `getline` and `find` work on bytes, so every file is
covered, including logs that are not valid UTF-8, and the substring tests
agree with the source byte for byte.

## Model

| member | source | states |
|---|---|---|
| Text.FindFrom | log_parser.cpp:41 | `find` returns the first index at or after the start where the pattern occurs; npos (None) means that no such index exists |
| Text.Contains | log_parser.cpp:64 | `find(p) != npos` holds exactly when `p` occurs as a contiguous substring somewhere in the line |
| Text.EmptyPatternFound | log_parser.cpp:41 | On every line, `find("")` returns index 0, so every line contains the empty keyword. |
| Text.OccursAtChar | log_parser.cpp:21 | the one-character pattern "\n" occurs exactly where a '\n' stands |
| Getline.NextLine | log_parser.cpp:21 | one `getline` call consumes input, so the read loop ends |
| Getline.NextLineSplits | log_parser.cpp:21 | `getline` stores the text up to the first '\n' and drops that '\n'; with no '\n' it takes the whole rest |
| Getline.Lines | log_parser.cpp:21-23 | no line holds a '\n'; empty text, and only empty text, has no lines |
| Getline.LinesStep | log_parser.cpp:21-23 | the lines of non-empty text are the first record read, then the lines of the rest |
| Getline.LineCount | log_parser.cpp:18-26 | the number of records is the number of '\n' characters, plus one for a last segment without '\n' (a trailing '\n' adds no empty line) |
| Getline.UnlinesLines | log_parser.cpp:21-23 | writing the records back, each followed by '\n', restores the text; only a missing final '\n' is added |
| Getline.LinesUnlines | log_parser.cpp:21-23 | lines without '\n', written out, are read back unchanged and in order |
| Getline.FirstNewline | log_parser.cpp:21 | `getline` stops at the first '\n' |
| Getline.UnlinesCons | log_parser.cpp:21-23 | writing out the first line and then the others |
| Getline.UnterminatedSuffix | log_parser.cpp:21-23 | after a '\n', only the text that follows decides whether the last line is unterminated |
| Scan.Matching | log_parser.cpp:38-44 | a search keeps no more lines than the file has |
| Scan.MatchingExact | log_parser.cpp:38-44 | a line is in the result exactly when it is a file line that contains the keyword |
| Scan.MatchingSubsequence | log_parser.cpp:38-44 | the result is a subsequence of the file's lines: file order, lines unmodified |
| Scan.MatchingMultiplicity | log_parser.cpp:38-44 | each line containing the pattern is kept as many times as it occurs in the file, and any other line is not kept |
| Scan.MatchingAll | log_parser.cpp:41-42 | when every line contains the pattern, every line is returned |
| Scan.MatchingEmptyKeyword | log_parser.cpp:41 | `search("")` returns every line of the file |
| Scan.Classify | log_parser.cpp:83-89 | the `if`/`else if` chain in full: ERROR exactly when the line contains "ERROR:"; WARN exactly when it contains "WARN:" but not "ERROR:"; INFO exactly when it contains "INFO:" and neither of the others; no counter exactly when it contains none of the three |
| Scan.ClassifyFirstMatch | log_parser.cpp:82-90 | a line is counted under a level exactly when it contains that level's pattern and none of the patterns tested before it (ERROR, then WARN, then INFO) |
| Scan.ClassifyNone | log_parser.cpp:82-90 | a line bumps no counter exactly when it contains none of "ERROR:", "WARN:", "INFO:" |
| Scan.ErrorBeatsInfo | log_parser.cpp:83-84 | "x ERROR: a INFO: b" counts only as ERROR |
| Scan.Tally | log_parser.cpp:82-90 | no counter exceeds the number of lines |
| Scan.TallyPartition | log_parser.cpp:82-90 | each line increments at most one counter: ERROR + WARN + INFO + Other is the line count |
| Scan.TallyZero | log_parser.cpp:82-90 | a counter is zero exactly when no line is classified under it |
| Scan.LevelCountBound | log_parser.cpp:82-90 | INFO + WARN + ERROR is at most the line count, with equality exactly when every line contains a level pattern |
| Scan.ErrorTallyIsFilter | log_parser.cpp:83-84 | the ERROR counter equals the number of lines that `filterByLevel("ERROR")` returns |
| Scan.WarnTallyBound | log_parser.cpp:85-86 | the WARN counter is at most the number of lines `filterByLevel("WARN")` returns |
| Scan.StatsOf | log_parser.cpp:74 | the statistics map has exactly the keys INFO, WARN and ERROR, each holding that level's count |
| Scan.StatsStep | log_parser.cpp:83-89 | one more line increments the counter of its level, or no counter |
| Scan.StatsOfNothing | log_parser.cpp:74-79 | with no lines, the map is the initial all-zero map |
| Parser.LinesIn | log_parser.cpp:33-36 | a file that cannot be opened yields no lines |
| Parser.LogParser.constructor | log_parser.cpp:6-8 | the constructor only stores the file name |
| Parser.LogParser.CountLines | log_parser.cpp:10-27 | returns -1 exactly when the file cannot be opened, otherwise the number of getline records |
| Parser.LogParser.Search | log_parser.cpp:29-48 | returns the lines containing the keyword, in file order (`Matching`), or empty when the file cannot be opened |
| Parser.LogParser.FilterByLevel | log_parser.cpp:50-71 | returns the lines containing `level + ":"` anywhere, in file order, or empty when the file cannot be opened |
| Parser.LogParser.GetLevelStats | log_parser.cpp:73-94 | returns the per-level counts (`StatsOf` of the lines), or the all-zero three-key map when the file cannot be opened |
| Parser.LogParser.PrintSummary | log_parser.cpp:97-112 | total, the counters, and Other = total − (INFO+WARN+ERROR), shown only when positive: exactly when the file opens and some line has no level, and then equal to the number of such lines; an unreadable file shows total -1 and no Other |
| Cli.ColorOf | main.cpp:30-40 | `printColoredLevel` picks the colour of the line's level under the same ERROR > WARN > INFO first-match priority as the counters: red, yellow, green, or uncoloured for a line with no level |
| Cli.FilteredLineRank | main.cpp:84-97 | a line shown by `--level L` is coloured for L or for a level tested before it, never for a later one |
| Cli.Colored | main.cpp:80-82 | one printed row per result line |
| Cli.ColorLines | main.cpp:80-82 | the printing loop writes each result line, in order, in the colour `printColoredLevel` picks |
| Cli.ErrorRowsAreRed | main.cpp:95-97 | every line shown by `--level ERROR` is printed red |
| Cli.ParseArgs | main.cpp:51-109 | `--count`, `--summary` and `--timestats` with at least 3 arguments select counting, the summary and the time statistics on `argv[1]`; `--search` and `--level` with at least 4 select a search or level filter on `argv[1]` with `argv[3]` as argument; a dispatched command always had these arguments |
| Cli.ExitCode | main.cpp:51-111 | `main` returns 0 or 1, and 0 exactly when the arguments select an operation |
| Cli.ExitCodeTable | main.cpp:51-111 | exit code is 0 or 1; it is 0 exactly when there are at least 3 arguments and a known command, with a 4th argument for `--search` and `--level` |
| Cli.TooFewArgumentsFirst | main.cpp:51-55 | with fewer than 3 arguments the run fails before the command is read |
| Cli.Run | main.cpp:50-112 | an argument error gives exit code 1 and the usage, with no scan; otherwise the exit code is 0 and the report is the chosen scan's result; `--count` shows the total only when it is not -1 |

## Left out

- File I/O: opening, reading and closing the file are replaced by the `FileSystem` map. A file that changes between two operations is not modelled. So `printSummary`'s two scans see the same text.
- Text on standard output and standard error: the model keeps the values that are shown (counts, lines, Other, colour, exit code), not the formatted text or the error messages.
- ANSI colour escape strings and the usage text (main.cpp:6-23): a `Color` value and an `ArgError` value stand for them.
- `printTimeStats` and `extractAllDates`: the header declares them (log_parser.h:55, log_parser.h:65), but their definitions are not part of this model. `--timestats` is dispatched with exit code 0, and its output is not modelled.
- `int` overflow of the counters and of `count`: the model uses unbounded integers.
- Cli.Run: the run decides on every argument error before it constructs the `LogParser`. `main` constructs it before checking for `--search`/`--level` without their argument. The constructor only stores the name, so no observable behaviour differs.

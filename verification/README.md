# oracli executor model

oracli is an interactive Oracle client. Each line typed at its prompt goes to one
executor closure, built by `createExecutor` (main.go:198-295). The closure does three
things:

1. It writes a non-empty line to the history file.
2. It tests the line against nine regular expressions in a fixed order.
3. It runs the first branch that matches. The branches are:
   - a shell command (`:`);
   - a select;
   - a describe;
   - DML (insert, update, delete, truncate);
   - DDL (create, drop);
   - `execute <file>`;
   - the backslash commands (`\x` toggles the display mode);
   - `exit`.

This project models that closure and the functions around it, and proves properties of
them:

- the expanded-mode branch of `printRecords`;
- the history file, as written by `historyAppend` and read back by `readHistories`
  through `bufio.Reader.ReadLine`;
- the loop of `query`, which turns a cursor into records;
- the connection string `login` builds and the query `describe` sends.

The outside world is an input, a `World` of four oracles:

- `run`: the shell (`exec.Command(...).Run`);
- `query`: the query loop's result for a query text (`query`, `describe`);
- `exec`: the driver's answer to a statement (`ExecContext`, `RowsAffected`);
- `readFile`: the file system (`ioutil.ReadFile`).

One executor call yields an `Outcome`: the new display mode and the trace of effects the
call had, in order. The effects are:

- history records;
- shell runs;
- queries and statements sent;
- file reads;
- table renderings;
- stdout and stderr lines;
- panics.

Modules:

- `Wrappers`: Option and Result.
- `Ascii`: the character classes of RE2 (`\s`) and of `strings.Fields`, ASCII case
  folding for `(?i)`, decimal formatting (Go's `%d`) with a parser as its partner,
  `strings.Fields`, and the first newline.
- `Patterns`: the nine regular expressions as predicates over a line, and the
  submatches the executor takes from two of them. It also proves that at most one
  pattern matches any line.
- `Classifier`: the `Action` a line is given, by the first-match-wins cascade.
- `Render`: the display mode and its toggle, and the expanded renderer. The renderer is
  a function, and `PrintExpanded` is the nested loop of `printRecords`.
- `History`:
  - the record `historyAppend` writes;
  - the `HistoryFile` class the executor appends to;
  - `ReadLine` with its 4096-byte buffer;
  - the `readHistories` loop and the reload lemmas.
- `Session`: what the driver hands back, and the `query` loop (`RunQuery`).
- `Formats`: the connection string and the describe query.
- `Executor`: the effects, the `World`, and the specification functions `Dispatch`
  (one action) and `Step` (one executor call). It also has the `Client` class: its
  `mode` field is the package-level `mode`, its `history` field is the captured file,
  and its methods follow the Go branches and are proved against `Step`/`Dispatch`.
- `Traces`: facts that hold for every line:
  - the history record comes first;
  - at most one backend call is made;
  - panics happen only where the source indexes without checking;
  - a run of several lines stops at the first line that panics;
  - history round-trips across runs.
- `Branches`: what each kind of line does, quirks included.

The model keeps these behaviours of the code, quirks included:

- **Describe argument.** The describe branch passes submatch 1 of `desc(ribe)?\s+(.+)` to
  `describe` (main.go:233). That submatch is the optional `ribe` group, not the table
  name: `describe employees` sends `SELECT * FROM xxx WHERE = ribe` and `desc employees`
  sends `SELECT * FROM xxx WHERE = `.
- **`exit`.** It matches its pattern and does nothing (main.go:292-293); the prompt keeps
  running.
- **Unrecognised lines.** A line no pattern matches prints nothing.
- **White-space-only lines.** They are written to the history as they are (main.go:209).
  Only the empty line is skipped.
- **History reload.** The final `ReadLine` call hits EOF but still appends its empty line
  (main.go:342-345). A reloaded history therefore always ends with an extra `""` entry,
  and an empty file reads back as `[""]`.
- **Failed select.** It renders its (empty) result before printing the error
  (main.go:225-229).
- **Failed describe.** It prints the error both before and after rendering
  (main.go:235-241).
- **Failed file read.** `execute` still sends whatever was read (main.go:268-272).
- **`\X`.** It matches the backslash pattern, but the switch knows only `x` (main.go:281-282).

## Model

| member | source | states |
|---|---|---|
| Ascii.Decimal | main.go:249 | `%d` of an integer is non-empty and made of digits and minus signs only |
| Ascii.DecimalRoundTrip | main.go:249 | the printed decimal parses back to the same integer, so the rows-affected count and the port are printed without loss |
| Ascii.Fields | main.go:213 | `strings.Fields` returns non-empty words free of white space |
| Ascii.FieldsKeepNonSpace | main.go:213 | the words, joined, are exactly the non-space characters of the text, in order |
| Ascii.FieldsEmptyIff | main.go:213 | there are no words exactly when the text is all white space |
| Ascii.FieldsAtSpace | main.go:213 | a white-space character separates fields: the words of `a c b` are the words of `a` followed by those of `b` |
| Ascii.FieldsOfWord | main.go:213 | a non-empty text without white space is one word, itself |
| Ascii.TwoFields | main.go:213 | two words around one white-space character come back as those two words |
| Ascii.FieldsExample | main.go:213 | `ls -la` splits into `ls` and `-la` |
| Patterns.IsShellLine | main.go:199 | the shell pattern `^:.*`: the line starts with a colon; a definition, whose properties are proved by `PatternsDisjoint`, `ClassifyByPattern` |
| Patterns.IsSelectLine | main.go:200 | `^(?i)select\s`: `select` in any case, then a white-space character; a definition, whose properties are proved by `PatternsDisjoint`, `PatternsIgnoreCase`, `KeywordAloneMatchesNothing` |
| Patterns.IsDmlLine | main.go:201 | `^(?i)(insert\|update\|delete\|truncate)\s`: one of the four keywords in any case, then a white-space character; a definition, whose properties are proved by `PatternsDisjoint`, `PatternsIgnoreCase`, `KeywordAloneMatchesNothing` |
| Patterns.IsCreateLine | main.go:202 | `^(?i)create\s`; a definition, whose properties are proved by `PatternsDisjoint`, `PatternsIgnoreCase`, `KeywordAloneMatchesNothing` |
| Patterns.IsDropLine | main.go:203 | `^(?i)drop\s`; a definition, whose properties are proved by `PatternsDisjoint`, `PatternsIgnoreCase`, `KeywordAloneMatchesNothing` |
| Patterns.IsDescribeLine | main.go:204 | `^(?i)desc(ribe)?\s+(.+)`: `desc`, optionally `ribe`, at least one white-space character, then a character other than newline; a definition, whose properties are proved by `DescribeGroup`, `PatternsIgnoreCase` |
| Patterns.IsExecuteLine | main.go:205 | `^(?i)execute\s+(.+)`; a definition, whose properties are proved by `GreedyStartIff`, `ExecuteGroup` |
| Patterns.IsMetaLine | main.go:206 | `^(?i)\\(.)`: a backslash and a character other than newline; a definition, whose properties are proved by `PatternsDisjoint`, `ClassifyByPattern` |
| Patterns.IsExitLine | main.go:207 | `^(?i)exit\s*$`: `exit` in any case and nothing but white space after it; a definition, whose properties are proved by `PatternsDisjoint`, `PatternsIgnoreCase` |
| Patterns.DescribeGroup | main.go:233 | submatch 1 of the describe pattern (line 204) is `ribe` as typed (4 characters that fold to `ribe`) or empty, and it is empty exactly when the `ribe` alternative cannot match |
| Patterns.GreedyStartIff | main.go:205 | the greedy `\s+` of the execute pattern finds a start for `(.+)` exactly when the pattern matches |
| Patterns.ExecuteGroup | main.go:267 | submatch 1 of the execute pattern (line 205) is non-empty and holds no newline; when the white-space run after `execute` is followed by other text, the submatch is that text up to the first newline; when the line is all white space after `execute`, the submatch is white space too |
| Patterns.PatternsDisjoint | main.go:199-207 | no line matches more than one of the nine patterns |
| Patterns.KeywordAloneMatchesNothing | main.go:200-203 | a statement keyword in any case with no white space right after it matches none of the nine patterns |
| Patterns.PatternsIgnoreCase | main.go:200-207 | each pattern matches a line exactly when it matches the line with the case of its letters changed |
| Classifier.Classify | main.go:212-293 | the executor's cascade: the first pattern that matches picks the action, with the submatches the branch reads; a definition, whose properties are proved by `ClassifyByPattern` and the `…Classified` lemmas |
| Classifier.ClassifyByPattern | main.go:212-293 | each action is chosen exactly when its own pattern matches (both directions), and a line matching no pattern gets no action |
| Classifier.KeywordNeedsSpace | main.go:200-203 | any of `select`, `insert`, `update`, `delete`, `truncate`, `create`, `drop`, in any case, at the end of the line or followed by a character other than white space gets no action at all |
| Classifier.ClassifyIgnoresCase | main.go:200-207 | changing the case of letters in a line never changes which kind of action it gets, the DDL kind, or whether the describe group is set |
| Classifier.ShellExample | main.go:212-214 | `:ls -la` runs `ls` with the argument `-la` |
| Classifier.ExecutePath | main.go:205 | after `execute` and a run of white space, the path is the rest of the line when that holds no newline and starts with other text |
| Classifier.ExecuteExample | main.go:266-267 | `execute  f.sql` (two spaces) reads the file `f.sql` |
| Classifier.EmptyLineUnrecognized | main.go:208-293 | the empty line matches no pattern |
| Classifier.DescribeArgumentIsRibeGroup | main.go:232-234 | the describe argument is the typed `ribe` when the full keyword is used and empty when it cannot be, never the table name |
| Classifier.ShellArgv | main.go:212-214 | the argv of a shell line holds the non-space text after the colon as words, and is empty exactly when only white space follows the colon |
| Classifier.SelectClassified | main.go:224-225 | a select line is sent whole as the query |
| Classifier.DescribeClassified | main.go:232-234 | a describe line is classified as describe with its `ribe` group |
| Classifier.DmlClassified | main.go:244-245 | a DML line is sent whole as a statement |
| Classifier.DdlClassified | main.go:253-262 | a DDL line is sent whole, its success message is picked by testing the create pattern again, and no line matches both create and drop |
| Classifier.ExecuteClassified | main.go:266-267 | an execute line names the file of its submatch |
| Classifier.MetaClassified | main.go:279-280 | a backslash line carries the character after the backslash |
| Classifier.ExitClassified | main.go:292 | an exit line is classified as exit |
| Render.Toggle | main.go:283-289 | the toggle always changes the mode |
| Render.ToggleInvolution | main.go:283-289 | toggling twice restores the mode |
| Render.Banner | main.go:307 | the row banner: 27 asterisks, the row number, `. row `, 27 asterisks; a definition, whose properties are proved by `ExpandedBannerAt` |
| Render.FieldLine | main.go:309 | one `column: value` line; a definition, whose properties are proved by `ExpandedFieldAt` |
| Render.ExpandedLines | main.go:305-311 | the expanded output for all records, row after row; a definition, whose properties are proved by `ExpandedLength`, `ExpandedBannerAt`, `ExpandedFieldAt`, `PrintExpanded` |
| Render.ExpandedLength | main.go:306-311 | the expanded output has one banner and one line per column for each record, laid out by `RowStart` |
| Render.ExpandedLineCount | main.go:306-311 | the expanded output has records × (columns + 1) lines |
| Render.ExpandedBannerAt | main.go:306-307 | the line at each row's start is that row's banner, numbered from 0 |
| Render.ExpandedFieldAt | main.go:308-309 | the line after row i's banner at offset j is `column j: record i cell j` |
| Render.NoRowsNoOutput | main.go:306 | no records print nothing in expanded mode |
| Render.PrintExpanded | main.go:306-311 | the nested loop prints exactly the expanded lines |
| History.Record | main.go:370-372 | the text `fmt.Fprintln` writes: the line and a newline; a definition, whose properties are proved by `RecordReloads`, `AppendedLines` |
| History.HistoryLines | main.go:340-349 | the lines the reading loop collects from a text, one `ReadLine` at a time; a definition, whose properties are proved by `HistoryLinesConcat`, `ReadHistories` |
| History.LoadHistory | main.go:329-350 | what `readHistories` returns for each state of the home directory and file; a definition, whose properties are proved by `ReadHistories`, `ReloadAfterAppends` |
| History.ReadLine | main.go:340-342 | each `ReadLine` call consumes input, so the reading loop terminates |
| History.ReadHistories | main.go:329-350 | the reading loop returns `[]` without a home directory or file, the lines read plus the EOF's empty line on success, and the error on a read failure |
| History.HistoryFile.Append | main.go:370-372 | appending writes the line followed by a newline after the existing contents |
| History.ReadLineConcat | main.go:340-342 | reading a line is not disturbed by the text after its newline |
| History.HistoryLinesConcat | main.go:341-349 | whole lines followed by more text read back as their lines followed by the lines of the rest |
| History.RecordReloads | main.go:370-372 | a written record of a line without newline, shorter than the buffer and not ending in `\r`, reads back as that line (line 342) |
| History.AppendOne | main.go:370-372 | appending one record adds exactly that line to what reloads |
| History.AppendedLines | main.go:370-372 | appending records to whole lines adds exactly those lines, in order |
| History.ReloadAfterAppends | main.go:329-350 | reloading after appends gives the old lines, the new lines and the trailing empty entry |
| History.CarriageReturnDropped | main.go:342 | a line ending in `\r` loses it on reload |
| History.LongLineSplit | main.go:340-342 | a newline-free line of 4096 characters or more, when its 4096th character is not `\r`, comes back split at the buffer size |
| History.EmptyHistories | main.go:330-345 | an empty file reloads as `[""]`; a missing home or file as `[]` |
| Session.QueryOutcome | main.go:131-171 | the result of `query` for a cursor: the open error, the first scan error, the iteration error, the close error, or the columns and records; a definition, whose properties are proved by `RunQuery`, `CollectFailureSticks`, `QueryRecordsFit` |
| Session.CollectFailureSticks | main.go:151-154 | once a scan fails, later rows do not change the outcome |
| Session.QueryRecordsFit | main.go:140-159 | every record `query` returns has one cell per column |
| Session.RunQuery | main.go:131-171 | the loop returns the error of the open, of the first failing scan, of the iteration or of the close, in that order, or the columns and the scanned records |
| Formats.DescribeQuery | main.go:194-196 | the query `describe` sends: the fixed prefix `SELECT * FROM xxx WHERE = ` followed by its argument; a definition, whose properties are proved by `Branches.DescribeLineQuery`, `DescribePassesRibe`, `DescEmployees` |
| Formats.ConnectionString | main.go:119 | the `%s:%s@%s:%d/%s` text `login` opens the driver with; a definition, whose properties are proved by `ConnectionStringRoundTrip` |
| Formats.SplitAt | main.go:119 | partner of the connection string: splitting at a separator gives the text before and after its first occurrence |
| Formats.SplitAtJoin | main.go:119 | partner of the connection string: splitting a joined string at a separator absent from the left part recovers both parts |
| Formats.ConnectionStringRoundTrip | main.go:117-119 | `user:password@host:port/service` parses back to its parts when user and host hold no `:` and password no `@` |
| Executor.RecordEffects | main.go:297-313 | the effects of `printRecords`: one table rendering in table mode; in expanded mode the expanded lines, or a panic on a short record; a definition, whose properties are proved by `Client.PrintRecords`, `RecordTally` |
| Executor.Dispatch | main.go:212-293 | the effects and the new mode of each branch, as a function of the action, the mode and the world; a definition, whose properties are proved by `Client.Run`, `DispatchTally` |
| Executor.Step | main.go:208-294 | one executor call: the history record of a non-empty line, then the effects of its action; a definition, whose properties are proved by `Client.Execute`, `StepTally` |
| Executor.Client.PrintRecords | main.go:297-313 | `printRecords` renders the table in table mode, prints the expanded lines in expanded mode, and panics on a short record |
| Executor.Client.ShowQuery | main.go:226-229 | after a query, the records are rendered and then the error, if any, is printed (also lines 273-276) |
| Executor.Client.Shell | main.go:212-222 | the shell branch runs the fields as argv and prints the child's error; with no fields it panics |
| Executor.Client.Select | main.go:224-231 | the select branch queries the line and shows the result |
| Executor.Client.Describe | main.go:232-243 | the describe branch queries with the `ribe` group and prints the error before and after rendering |
| Executor.Client.Mutate | main.go:244-252 | the DML branch prints the rows affected or the error |
| Executor.Client.Ddl | main.go:253-265 | the DDL branch prints `Create: success` or `Drop: success`, or the error |
| Executor.Client.ExecuteFile | main.go:266-278 | the execute branch reads the file, prints a read error, and still queries what was read |
| Executor.Client.Meta | main.go:279-291 | the backslash branch flips the mode and announces it on `x` only |
| Executor.Client.Run | main.go:212-293 | the cascade runs exactly the branch `Dispatch` prescribes for the line's action |
| Executor.Client.Execute | main.go:208-294 | the closure appends the non-empty line to the history file and its trace and new mode are those of `Step` |
| Executor.NothingElseMatches | main.go:292-294 | past the backslash test, `exit` and unrecognised lines change nothing |
| Traces.TallyConcat | main.go:208-294 | partner of the traces: effect counts add up over concatenated traces |
| Traces.TallyStdouts | main.go:307-309 | partner of the expanded output: it holds only printing effects |
| Traces.RecordTally | main.go:297-313 | rendering makes no call and no history record, and panics exactly on a short record in expanded mode |
| Traces.DispatchTally | main.go:212-293 | each action makes the calls, file reads and panics of its branch and writes no history |
| Traces.StepTally | main.go:208-294 | an executor call adds a history record for a non-empty line to what its action does |
| Traces.HistoryFirst | main.go:209-211 | a non-empty line is recorded first and exactly once; an empty line is not recorded |
| Traces.AtMostOneBackendCall | main.go:212-293 | a line reaches the shell or the database once if its action needs it and not otherwise; only `execute` reads a file |
| Traces.PanicOnlyOnEmptyShell | main.go:213-214 | a line panics at most once, and with results shaped as `query` builds them only a colon followed by nothing or only white space panics (`:`, `: `, `:\t` alike) |
| Traces.QueriedResultsShaped | main.go:140-159 | the records `query` returns meet the renderer's shape requirement |
| Traces.RunWith | main.go:100-108 | a run never has more outcomes than lines |
| Traces.RunWithShape | main.go:100-108 | a run of lines: the first line always runs, each outcome is the step of its line in the mode the previous line left, no line before the last panicked, and the run stops early only after a panic |
| Traces.RunPrefixIsRun | main.go:100-108 | a start of a run in which each line is stepped in the mode the previous one left, which has reached the last line or a panic, is the whole run |
| Traces.RunPrefixGrows | main.go:100-108 | while no line has panicked, stepping the next line extends the start of the run |
| Traces.RunPrefixTail | main.go:100-108 | dropping the first line of a run that went on past it leaves the run of the remaining lines from the mode that line left |
| Traces.ExecuteNext | main.go:100-108 | one more turn of the prompt's loop: the executor call on the next line extends the run and appends that line's record to the history |
| Traces.CursorWorldShaped | main.go:140-159 | a world whose every query is answered by `query` over a cursor whose scans fit its columns gives driver-shaped results |
| Traces.RunEndsOnlyAtEmptyShell | main.go:212-214 | with results shaped as `query` builds them, the run stops early only at a colon followed by nothing or only white space, and no earlier line is one |
| Traces.ColonEndsRun | main.go:212-214 | after a lone `:` nothing else runs |
| Traces.EffectsOf | main.go:100-108 | the traces of a run, one per executed line, in order |
| Traces.ExecuteAll | main.go:100-108 | the prompt calling the executor on line after line, each against its own world, yields the traces of `RunLines`, which stop at the first line that panics, and leaves the mode the last executed line left (the starting mode when no line runs); the history gets the non-empty lines executed up to and including that line, one record each, in order |
| Traces.HistoryRoundTrip | main.go:329-350 | the non-empty lines submitted before the process ends are what the next start-up reads back, before the EOF entry |
| Branches.ModeChangesOnlyOnToggle | main.go:279-291 | the mode changes exactly on a line starting with `\x`, and then it flips |
| Branches.ToggleTwice | main.go:282-289 | `\x` twice restores the mode, each time announcing the new mode |
| Branches.UpperXIgnored | main.go:281-282 | `\X` is recorded and does nothing else |
| Branches.ExitDoesNothing | main.go:292-293 | `exit` is recorded and does nothing else |
| Branches.UnrecognizedSilent | main.go:208-294 | a line no pattern matches prints nothing |
| Branches.ShellLine | main.go:212-222 | a shell line runs its fields, prints the child's error on stdout, and panics when there are no fields |
| Branches.SelectRendersBeforeError | main.go:224-230 | a failed select renders an empty result before the error |
| Branches.SelectShowsRows | main.go:224-230 | a successful select renders exactly its records |
| Branches.DescribeErrorTwice | main.go:232-242 | a failed describe prints its error twice, around the rendering |
| Branches.DescribeEmployees | main.go:233 | `describe employees` passes `ribe` as the table |
| Branches.DescEmployees | main.go:233 | `desc employees` passes the empty string as the table |
| Branches.DescribePassesRibe | main.go:233 | every line matching `describe` followed by white space and text passes the four typed letters `ribe`, never the table name |
| Branches.DescribeLineQuery | main.go:232-234 | the query sent for a describe line is the prefix followed by its `ribe` group |
| Branches.DmlReport | main.go:244-252 | a DML statement prints its error, or `RowsAffected: ` and a number that parses back to the count |
| Branches.DdlReport | main.go:253-265 | a DDL statement prints its error, or success under its own keyword |
| Branches.ExecuteAfterReadError | main.go:266-278 | a failed file read is reported and what was read is still queried |
| Branches.ExecuteSendsContents | main.go:266-278 | a readable file is sent whole as one query and its result shown as a select's |

## Left out

- The database driver (`sql.Open`, `QueryContext`, `ExecContext`, `RowsAffected`) and its 55-second timeouts are oracles in the `World`; the driver is not part of this model.
- `%v` formatting of column values: scans are given as already formatted strings.
- The table branch of `printRecords` (the tablewriter library) is one `RenderTable` effect; its layout is not modelled.
- Process spawning: the child's stdin, stdout and stderr are not modelled; `RunShell` and the child's error stand for it.
- The prompt library: line editing, the completer (main.go:315-327), the prompt's in-memory history and its title are not modelled. `Traces.ExecuteAll` stands for its read loop.
- Start-up glue: command-line flags, `getPassword`, `homedir`, opening the history file for append and its panics, and `db.Close` (main.go:38-115, 357-368). The `debug` helper (main.go:374-376) is unused.
- Unicode: lines are sequences of characters. Case folding and white space are ASCII only, and characters stand for bytes in the history reader.
- Output written before a panic in expanded mode is not in the trace: a short record yields one `Panic` effect.
- Session.RunQuery: requires that each successful scan gives one value per column (`ScansFit`). database/sql refuses any other count, and that refusal is not modelled.
- History.ReadHistories: a read error is modelled as happening once all the text has been read; an error in the middle of the file is not modelled.
- The `(?i)` flag changes nothing in the backslash pattern: `\` has no case and `.` matches any character but newline. Submatch 1 is the character as typed, so `\X` is not `x`.
- History.HistoryFile.Append: cannot fail. `historyAppend` ignores the error `fmt.Fprintln` returns (main.go:370-372), so a failed write leaves the line out of the file and the executor carries on; the model does not capture a failed or partial write.
- A panic in the executor ends the process, so `Traces.ExecuteAll` stops after that line; what the runtime does on the way out (the deferred close of the history file, restoring the terminal) is not modelled.

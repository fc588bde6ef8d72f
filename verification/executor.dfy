/**
 * The executor closure of `createExecutor` (main.go:198-295): it appends
 * the line to the history file, classifies it, and runs the one action
 * the line asks for. Its outcome is a trace of effects. The database,
 * the file system and the shell are oracles in a `World`: they return an
 * outcome for what they are asked and are not themselves modelled.
 */
module Executor {
  import opened Wrappers
  import opened Ascii
  import opened Patterns
  import opened Classifier
  import opened Render
  import opened History
  import opened Session
  import opened Formats

  /** The reason of the runtime panic on an index past the end of a slice. */
  const IndexOutOfRange := "index out of range"

  datatype Effect =
    | AppendHistory(line: string)                                     // one record written to the history file
    | RunShell(argv: seq<string>)                                     // a child process started with this argv
    | SendQuery(statement: string)                                    // `query` on the session
    | SendExec(statement: string)                                     // `ExecContext` on the session
    | ReadFile(path: string)                                          // `ioutil.ReadFile`
    | RenderTable(columns: seq<string>, records: seq<seq<string>>)   // the table writer draws these
    | Stdout(text: string)                                            // one line on standard output
    | Stderr(text: string)                                            // one line on standard error
    | Panic(reason: string)                                           // the process dies

  /** The outcome of `ioutil.ReadFile`: the contents, or what was read before the error and the error. */
  datatype FileResult = FileRead(content: string) | FileFailed(partial: string, error: string)

  /** The outside world's answers: `run` gives the error of a child process, if any. */
  datatype World = World(
    run: seq<string> -> Option<string>,
    query: string -> QueryResult,
    exec: string -> ExecResult,
    readFile: string -> FileResult)

  /** The display mode after a line and the effects the line had. */
  datatype Outcome = Outcome(mode: Mode, effects: seq<Effect>)

  function Stdouts(lines: seq<string>): seq<Effect> {
    seq(|lines|, k requires 0 <= k < |lines| => Stdout(lines[k]))
  }

  /** What `printRecords` prints in `mode`. In expanded mode a record short of a cell makes it panic. */
  function RecordEffects(mode: Mode, columns: seq<string>, records: seq<seq<string>>): seq<Effect> {
    if mode == Table then [RenderTable(columns, records)]
    else if WellFormed(columns, records) then Stdouts(ExpandedLines(columns, records))
    else [Panic(IndexOutOfRange)]
  }

  function ResultColumns(r: QueryResult): seq<string> {
    if r.Rows? then r.columns else []
  }

  function ResultRecords(r: QueryResult): seq<seq<string>> {
    if r.Rows? then r.records else []
  }

  function ErrorLine(r: QueryResult): seq<Effect> {
    if r.QueryFailed? then [Stderr(r.error)] else []
  }

  /** After a select (and an execute): render first, then report the error, if any. */
  function SelectEffects(mode: Mode, r: QueryResult): seq<Effect> {
    RecordEffects(mode, ResultColumns(r), ResultRecords(r)) + ErrorLine(r)
  }

  /** After a describe: the error, if any, both before and after rendering. */
  function DescribeEffects(mode: Mode, r: QueryResult): seq<Effect> {
    ErrorLine(r) + RecordEffects(mode, ResultColumns(r), ResultRecords(r)) + ErrorLine(r)
  }

  function DmlEffects(r: ExecResult): seq<Effect> {
    match r
    case ExecFailed(e) => [Stderr(e)]
    case Executed(Err(e)) => [Stderr(e)]
    case Executed(Ok(n)) => [Stdout("RowsAffected: " + Decimal(n))]
  }

  function DdlEffects(kind: DdlKind, r: ExecResult): seq<Effect> {
    if r.ExecFailed? then [Stderr(r.error)]
    else [Stdout(if kind == Create then "Create: success" else "Drop: success")]
  }

  /** Runs one classified action. */
  function Dispatch(a: Action, mode: Mode, w: World): Outcome {
    match a
    case ShellCommand(argv) =>
      if argv == [] then Outcome(mode, [Panic(IndexOutOfRange)])
      else
        var err := w.run(argv);
        Outcome(mode, [RunShell(argv)] + (if err.Some? then [Stdout(err.value)] else []))
    case Select(q) =>
      Outcome(mode, [SendQuery(q)] + SelectEffects(mode, w.query(q)))
    case Describe(group) =>
      var q := DescribeQuery(group);
      Outcome(mode, [SendQuery(q)] + DescribeEffects(mode, w.query(q)))
    case Mutate(q) =>
      Outcome(mode, [SendExec(q)] + DmlEffects(w.exec(q)))
    case Ddl(q, kind) =>
      Outcome(mode, [SendExec(q)] + DdlEffects(kind, w.exec(q)))
    case ExecuteFile(path) =>
      var f := w.readFile(path);
      var text := if f.FileRead? then f.content else f.partial;
      var readError := if f.FileFailed? then [Stderr(f.error)] else [];
      Outcome(mode, [ReadFile(path)] + readError + [SendQuery(text)] + SelectEffects(mode, w.query(text)))
    case Meta(c) =>
      if c == 'x' then Outcome(Toggle(mode), [Stdout(ModeMessage(Toggle(mode)))]) else Outcome(mode, [])
    case Exit => Outcome(mode, [])
    case Unrecognized => Outcome(mode, [])
  }

  /** One call of the executor on a submitted line. */
  function Step(mode: Mode, line: string, w: World): Outcome {
    var o := Dispatch(Classify(line), mode, w);
    Outcome(o.mode, (if line != "" then [AppendHistory(line)] else []) + o.effects)
  }

  /** The executor's state: the package-level display mode and the history file it captured. */
  class Client {
    var mode: Mode
    const history: HistoryFile

    constructor (history: HistoryFile)
      ensures mode == Table && this.history == history
    {
      mode := Table;
      this.history := history;
    }

    /** `printRecords`, reading the current mode. */
    method PrintRecords(columns: seq<string>, records: seq<seq<string>>) returns (out: seq<Effect>)
      ensures out == RecordEffects(mode, columns, records)
    {
      if mode == Table {
        out := [RenderTable(columns, records)];
      } else if !WellFormed(columns, records) {
        out := [Panic(IndexOutOfRange)];
      } else {
        var lines := PrintExpanded(columns, records);
        out := Stdouts(lines);
      }
    }

    /** The select branch: query the whole line. */
    method Select(line: string, w: World) returns (out: seq<Effect>)
      requires !IsShellLine(line) && IsSelectLine(line)
      ensures Dispatch(Classify(line), mode, w).mode == mode
      ensures out == Dispatch(Classify(line), mode, w).effects
    {
      assert Classify(line) == Action.Select(line);
      out := ShowQuery(w.query(line));
      out := [SendQuery(line)] + out;
    }

    /** The rendering and error report after a query, as the select and execute branches do it. */
    method ShowQuery(res: QueryResult) returns (out: seq<Effect>)
      ensures out == SelectEffects(mode, res)
    {
      out := PrintRecords(ResultColumns(res), ResultRecords(res));
      if res.QueryFailed? {
        out := out + [Stderr(res.error)];
      }
    }

    /** The shell branch: split the remainder into fields and run them. */
    method Shell(line: string, w: World) returns (out: seq<Effect>)
      requires IsShellLine(line)
      ensures Dispatch(Classify(line), mode, w).mode == mode
      ensures out == Dispatch(Classify(line), mode, w).effects
    {
      var fields := Fields(line[1..]);
      assert Classify(line) == ShellCommand(fields);
      if |fields| == 0 {
        return [Panic(IndexOutOfRange)];
      }
      out := [RunShell(fields)];
      var err := w.run(fields);
      if err.Some? {
        out := out + [Stdout(err.value)];
      }
    }

    /** The describe branch, reporting an error before and after rendering. */
    method Describe(line: string, w: World) returns (out: seq<Effect>)
      requires !IsShellLine(line) && !IsSelectLine(line) && IsDescribeLine(line)
      ensures Dispatch(Classify(line), mode, w).mode == mode
      ensures out == Dispatch(Classify(line), mode, w).effects
    {
      var table := DescribeGroup(line);
      assert Classify(line) == Action.Describe(table);
      var q := DescribeQuery(table);
      out := [SendQuery(q)];
      var res := w.query(q);
      if res.QueryFailed? {
        out := out + [Stderr(res.error)];
      }
      var printed := PrintRecords(ResultColumns(res), ResultRecords(res));
      out := out + printed;
      if res.QueryFailed? {
        out := out + [Stderr(res.error)];
      }
    }

    /** The execute branch: read the file, and query its contents even when the read failed. */
    method ExecuteFile(line: string, w: World) returns (out: seq<Effect>)
      requires !IsShellLine(line) && !IsSelectLine(line) && !IsDescribeLine(line) && !IsDmlLine(line)
      requires !IsCreateLine(line) && !IsDropLine(line) && IsExecuteLine(line)
      ensures Dispatch(Classify(line), mode, w).mode == mode
      ensures out == Dispatch(Classify(line), mode, w).effects
    {
      var path := ExecuteGroup(line);
      assert Classify(line) == Action.ExecuteFile(path);
      out := [ReadFile(path)];
      var f := w.readFile(path);
      var sql := if f.FileRead? then f.content else f.partial;
      var report: seq<Effect> := [];
      if f.FileFailed? {
        report := [Stderr(f.error)];
      }
      out := out + report + [SendQuery(sql)];
      var shown := ShowQuery(w.query(sql));
      out := out + shown;
    }

    /** The DML branch: report the rows affected, or the error. */
    method Mutate(line: string, w: World) returns (out: seq<Effect>)
      requires !IsShellLine(line) && !IsSelectLine(line) && !IsDescribeLine(line) && IsDmlLine(line)
      ensures Dispatch(Classify(line), mode, w).mode == mode
      ensures out == Dispatch(Classify(line), mode, w).effects
    {
      out := [SendExec(line)];
      var res := w.exec(line);
      var affected := if res.Executed? then res.rowsAffected else Err(res.error);
      if affected.Err? {
        out := out + [Stderr(affected.error)];
      } else {
        out := out + [Stdout("RowsAffected: " + Decimal(affected.value))];
      }
    }

    /** The DDL branch: the create pattern is tested again to choose the message. */
    method Ddl(line: string, w: World) returns (out: seq<Effect>)
      requires !IsShellLine(line) && !IsSelectLine(line) && !IsDescribeLine(line) && !IsDmlLine(line)
      requires IsCreateLine(line) || IsDropLine(line)
      ensures Dispatch(Classify(line), mode, w).mode == mode
      ensures out == Dispatch(Classify(line), mode, w).effects
    {
      out := [SendExec(line)];
      var res := w.exec(line);
      if res.ExecFailed? {
        out := out + [Stderr(res.error)];
      } else {
        if IsCreateLine(line) {
          out := out + [Stdout("Create: success")];
        } else {
          out := out + [Stdout("Drop: success")];
        }
      }
    }

    /** The backslash branch: only `x` does something, and it flips the mode. */
    method Meta(line: string, w: World) returns (out: seq<Effect>)
      requires !IsShellLine(line) && !IsSelectLine(line) && !IsDescribeLine(line) && !IsDmlLine(line)
      requires !IsCreateLine(line) && !IsDropLine(line) && !IsExecuteLine(line) && IsMetaLine(line)
      modifies this
      ensures mode == Dispatch(Classify(line), old(mode), w).mode
      ensures out == Dispatch(Classify(line), old(mode), w).effects
    {
      var cmd := line[1];
      out := [];
      if cmd == 'x' {
        if mode == Table {
          mode := Expand;
          out := [Stdout("Change Mode: expand")];
        } else {
          mode := Table;
          out := [Stdout("Change Mode: table")];
        }
      }
    }

    /** The executor closure: append the line to the history, then run its branch. */
    method Execute(line: string, w: World) returns (trace: seq<Effect>)
      modifies this, history
      ensures mode == Step(old(mode), line, w).mode
      ensures trace == Step(old(mode), line, w).effects
      ensures history.contents == old(history.contents) + (if line != "" then Record(line) else [])
    {
      trace := [];
      if line != "" {
        history.Append(line);
        trace := [AppendHistory(line)];
      }
      var out := Run(line, w);
      trace := trace + out;
    }

    /** The pattern tests in their order; the first that matches runs its branch and ends the call. */
    method Run(line: string, w: World) returns (out: seq<Effect>)
      modifies this
      ensures mode == Dispatch(Classify(line), old(mode), w).mode
      ensures out == Dispatch(Classify(line), old(mode), w).effects
    {
      if IsShellLine(line) {
        out := Shell(line, w);
        return;
      }
      if IsSelectLine(line) {
        out := Select(line, w);
        return;
      }
      if IsDescribeLine(line) {
        out := Describe(line, w);
        return;
      }
      if IsDmlLine(line) {
        out := Mutate(line, w);
        return;
      }
      if IsCreateLine(line) || IsDropLine(line) {
        out := Ddl(line, w);
        return;
      }
      if IsExecuteLine(line) {
        out := ExecuteFile(line, w);
        return;
      }
      out := [];
      if IsMetaLine(line) {
        out := Meta(line, w);
      } else {
        NothingElseMatches(line, mode, w);
      }
      if IsExitLine(line) {
      }
    }
  }

  /** Past the backslash test only `exit` and unrecognised lines remain, and both do nothing. */
  lemma NothingElseMatches(line: string, mode: Mode, w: World)
    requires !IsShellLine(line) && !IsSelectLine(line) && !IsDescribeLine(line) && !IsDmlLine(line)
    requires !IsCreateLine(line) && !IsDropLine(line) && !IsExecuteLine(line) && !IsMetaLine(line)
    ensures Dispatch(Classify(line), mode, w) == Outcome(mode, [])
  {
  }
}

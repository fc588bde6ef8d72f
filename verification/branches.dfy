/**
 * What one call of the executor does for each kind of line, stated over
 * `Step`: the mode changes only on `\x`, and each branch reports what
 * the source reports, quirks included.
 */
module Branches {
  import opened Wrappers
  import opened Ascii
  import opened Patterns
  import opened Classifier
  import opened Render
  import opened History
  import opened Session
  import opened Formats
  import opened Executor

  // --------------------------------------------------------------- mode

  /** The mode changes exactly on a line starting with a backslash and a lower-case `x`, and then flips. */
  lemma ModeChangesOnlyOnToggle(mode: Mode, line: string, w: World)
    ensures Step(mode, line, w).mode != mode <==> |line| >= 2 && line[0] == '\\' && line[1] == 'x'
    ensures Step(mode, line, w).mode == mode || Step(mode, line, w).mode == Toggle(mode)
  {
    ClassifyByPattern(line);
  }

  /** `\x` twice brings the mode back, and each announces the mode it switched to. */
  lemma ToggleTwice(mode: Mode, w: World)
    ensures Step(Step(mode, "\\x", w).mode, "\\x", w).mode == mode
    ensures Step(mode, "\\x", w).effects == [AppendHistory("\\x"), Stdout(ModeMessage(Toggle(mode)))]
  {
    ClassifyByPattern("\\x");
    ToggleInvolution(mode);
  }

  /** `\X` is matched by the backslash pattern but is not `x`: it is recorded and nothing else happens. */
  lemma UpperXIgnored(mode: Mode, w: World)
    ensures Step(mode, "\\X", w) == Outcome(mode, [AppendHistory("\\X")])
  {
    ClassifyByPattern("\\X");
  }

  /** `exit` in any case, with trailing spaces, is recorded and does nothing else: the executor does not stop. */
  lemma ExitDoesNothing(mode: Mode, line: string, w: World)
    requires IsExitLine(line)
    ensures Step(mode, line, w) == Outcome(mode, [AppendHistory(line)])
  {
    ExitClassified(line);
  }

  /** A line no pattern matches is recorded and nothing else happens: no message is printed. */
  lemma UnrecognizedSilent(mode: Mode, line: string, w: World)
    requires MatchCount(line) == 0
    ensures Step(mode, line, w) == Outcome(mode, if line != "" then [AppendHistory(line)] else [])
  {
    ClassifyByPattern(line);
  }

  // ----------------------------------------------------------- branches

  /** A shell line runs its fields as argv; a colon followed only by spaces indexes an empty slice and panics. */
  lemma ShellLine(mode: Mode, line: string, w: World)
    requires IsShellLine(line)
    ensures Fields(line[1..]) == [] ==> Step(mode, line, w).effects == [AppendHistory(line), Panic(IndexOutOfRange)]
    ensures Fields(line[1..]) != [] && w.run(Fields(line[1..])).None? ==>
            Step(mode, line, w).effects == [AppendHistory(line), RunShell(Fields(line[1..]))]
    ensures Fields(line[1..]) != [] && w.run(Fields(line[1..])).Some? ==>
            Step(mode, line, w).effects == [AppendHistory(line), RunShell(Fields(line[1..])), Stdout(w.run(Fields(line[1..])).value)]
  {
    ShellArgv(line);
  }

  /** A failed select still renders (an empty table) before the error is reported. */
  lemma SelectRendersBeforeError(line: string, w: World)
    requires IsSelectLine(line) && w.query(line).QueryFailed?
    ensures Step(Table, line, w).effects ==
            [AppendHistory(line), SendQuery(line), RenderTable([], []), Stderr(w.query(line).error)]
    ensures Step(Expand, line, w).effects ==
            [AppendHistory(line), SendQuery(line), Stderr(w.query(line).error)]
  {
    SelectClassified(line);
    NoRowsNoOutput([]);
  }

  /** A successful select sends the whole line and renders exactly the result, with no error line. */
  lemma SelectShowsRows(mode: Mode, line: string, w: World)
    requires IsSelectLine(line) && w.query(line).Rows?
    ensures Step(mode, line, w).effects ==
            [AppendHistory(line), SendQuery(line)] + RecordEffects(mode, w.query(line).columns, w.query(line).records)
  {
    SelectClassified(line);
  }

  /** A failed describe prints its error twice, around the (empty) rendering. */
  lemma DescribeErrorTwice(line: string, w: World)
    requires IsDescribeLine(line)
    requires w.query(DescribeQuery(DescribeGroup(line))).QueryFailed?
    ensures var e := w.query(DescribeQuery(DescribeGroup(line))).error;
            Step(Table, line, w).effects ==
              [AppendHistory(line), SendQuery(DescribeQuery(DescribeGroup(line))), Stderr(e), RenderTable([], []), Stderr(e)] &&
            Step(Expand, line, w).effects ==
              [AppendHistory(line), SendQuery(DescribeQuery(DescribeGroup(line))), Stderr(e), Stderr(e)]
  {
    DescribeClassified(line);
    NoRowsNoOutput([]);
  }

  /** The describe argument is never the table name: `describe employees` passes `ribe` as typed. */
  lemma DescribeEmployees(s: string)
    requires s == "describe employees"
    ensures Classify(s) == Describe("ribe")
  {
    assert SpacesThenText(s[8..]) by { assert s[8..][1] != '\n'; }
    DescribePassesRibe(s);
  }

  /** `desc employees` passes the empty group, so the query is the bare prefix. */
  lemma DescEmployees(s: string)
    requires s == "desc employees"
    ensures Classify(s) == Describe("")
  {
    assert SpacesThenText(s[4..]) by { assert s[4..][1] != '\n'; }
    assert !FoldPrefix(s[4..], "ribe") by { assert Lower(s[4..][0]) != 'r'; }
    DescribeClassified(s);
  }

  /** Any `describe` line, in any letter case, passes the four letters `ribe` as typed rather than the table name. */
  lemma DescribePassesRibe(s: string)
    requires FoldPrefix(s, "describe") && SpacesThenText(s[8..])
    ensures Classify(s) == Describe(s[4..8])
    ensures FoldPrefix(s[4..8], "ribe")
  {
    assert FoldPrefix(s[4..], "ribe") by {
      forall i | 0 <= i < 4
        ensures Lower(s[4..][i]) == "ribe"[i]
      {
        FoldAt(s, "describe", i + 4);
      }
    }
    assert FoldPrefix(s, "desc") by {
      forall i | 0 <= i < 4 ensures Lower(s[i]) == "desc"[i] { FoldAt(s, "describe", i); }
    }
    DescribeClassified(s);
  }

  /** The query a describe line sends depends only on whether its `ribe` group took part. */
  lemma DescribeLineQuery(mode: Mode, line: string, w: World)
    requires IsDescribeLine(line)
    ensures |Step(mode, line, w).effects| > 1 && Step(mode, line, w).effects[1] == SendQuery(DescribePrefix + DescribeGroup(line))
  {
    DescribeClassified(line);
  }

  /** The rows-affected count of a statement, as printed and parsed back. */
  lemma DmlReport(line: string, mode: Mode, w: World)
    requires IsDmlLine(line)
    ensures w.exec(line).ExecFailed? ==>
            Step(mode, line, w).effects == [AppendHistory(line), SendExec(line), Stderr(w.exec(line).error)]
    ensures w.exec(line).Executed? && w.exec(line).rowsAffected.Err? ==>
            Step(mode, line, w).effects == [AppendHistory(line), SendExec(line), Stderr(w.exec(line).rowsAffected.error)]
    ensures w.exec(line).Executed? && w.exec(line).rowsAffected.Ok? ==>
            exists text :: Step(mode, line, w).effects == [AppendHistory(line), SendExec(line), Stdout("RowsAffected: " + text)] &&
                           ParseInt(text) == Some(w.exec(line).rowsAffected.value)
  {
    DmlClassified(line);
    if w.exec(line).Executed? && w.exec(line).rowsAffected.Ok? {
      var n := w.exec(line).rowsAffected.value;
      DecimalRoundTrip(n);
      assert Step(mode, line, w).effects == [AppendHistory(line), SendExec(line), Stdout("RowsAffected: " + Decimal(n))];
    }
  }

  /** A create or drop statement that the driver accepts reports success under its own keyword. */
  lemma DdlReport(line: string, mode: Mode, w: World)
    requires IsCreateLine(line) || IsDropLine(line)
    ensures w.exec(line).ExecFailed? ==>
            Step(mode, line, w).effects == [AppendHistory(line), SendExec(line), Stderr(w.exec(line).error)]
    ensures w.exec(line).Executed? && IsCreateLine(line) ==>
            Step(mode, line, w).effects == [AppendHistory(line), SendExec(line), Stdout("Create: success")]
    ensures w.exec(line).Executed? && IsDropLine(line) ==>
            Step(mode, line, w).effects == [AppendHistory(line), SendExec(line), Stdout("Drop: success")]
  {
    DdlClassified(line);
  }

  /** A file that fails to read is reported, and what was read of it is still sent as a query. */
  lemma ExecuteAfterReadError(mode: Mode, line: string, w: World)
    requires IsExecuteLine(line) && w.readFile(ExecuteGroup(line)).FileFailed?
    ensures var f := w.readFile(ExecuteGroup(line));
            Step(mode, line, w).effects ==
              [AppendHistory(line), ReadFile(ExecuteGroup(line)), Stderr(f.error), SendQuery(f.partial)] +
              SelectEffects(mode, w.query(f.partial))
  {
    ExecuteClassified(line);
  }

  /** A file that reads is sent whole as one query, and its result shown as a select's. */
  lemma ExecuteSendsContents(mode: Mode, line: string, w: World)
    requires IsExecuteLine(line) && w.readFile(ExecuteGroup(line)).FileRead?
    ensures var text := w.readFile(ExecuteGroup(line)).content;
            Step(mode, line, w).effects ==
              [AppendHistory(line), ReadFile(ExecuteGroup(line)), SendQuery(text)] + SelectEffects(mode, w.query(text))
  {
    ExecuteClassified(line);
  }

}

/**
 * What every trace of the executor has in common, whatever the line:
 * the history record comes first and only once, at most one call
 * reaches the shell or the database, and the process dies only on the
 * inputs the source leaves unchecked. Effects are counted by kind.
 */
module Traces {
  import opened Wrappers
  import opened Classifier
  import opened Render
  import opened History
  import opened Session
  import opened Formats
  import opened Executor

  datatype Kind =
    | Recording   // the history file
    | Calling     // the shell or the database
    | Reading     // the file system
    | Printing    // standard output, standard error, the table writer
    | Crashing    // a runtime panic

  function KindOf(e: Effect): Kind {
    match e
    case AppendHistory(_) => Recording
    case RunShell(_) => Calling
    case SendQuery(_) => Calling
    case SendExec(_) => Calling
    case ReadFile(_) => Reading
    case RenderTable(_, _) => Printing
    case Stdout(_) => Printing
    case Stderr(_) => Printing
    case Panic(_) => Crashing
  }

  /** How many effects of kind `k` a trace holds. */
  function Tally(es: seq<Effect>, k: Kind): nat {
    if es == [] then 0 else Tally(es[..|es| - 1], k) + (if KindOf(es[|es| - 1]) == k then 1 else 0)
  }

  lemma {:induction false} TallyConcat(a: seq<Effect>, b: seq<Effect>, k: Kind)
    ensures Tally(a + b, k) == Tally(a, k) + Tally(b, k)
    decreases |b|
  {
    if b == [] {
      assert a + b == a;
    } else {
      var n := |b| - 1;
      assert (a + b)[..|a + b| - 1] == a + b[..n];
      TallyConcat(a, b[..n], k);
    }
  }

  lemma TallyOne(e: Effect, k: Kind)
    ensures Tally([e], k) == (if KindOf(e) == k then 1 else 0)
  {
    assert [e][..0] == [];
  }

  lemma {:induction false} TallyStdouts(lines: seq<string>, k: Kind)
    ensures Tally(Stdouts(lines), k) == (if k == Printing then |lines| else 0)
  {
    if lines != [] {
      var n := |lines| - 1;
      assert Stdouts(lines) == Stdouts(lines[..n]) + [Stdout(lines[n])];
      TallyConcat(Stdouts(lines[..n]), [Stdout(lines[n])], k);
      TallyOne(Stdout(lines[n]), k);
      TallyStdouts(lines[..n], k);
    }
  }

  /** Rendering prints, and panics exactly on a short record in expanded mode. */
  lemma RecordTally(mode: Mode, columns: seq<string>, records: seq<seq<string>>, k: Kind)
    requires k != Printing
    ensures Tally(RecordEffects(mode, columns, records), k) ==
            (if k == Crashing && mode == Expand && !WellFormed(columns, records) then 1 else 0)
  {
    if mode == Table {
      TallyOne(RenderTable(columns, records), k);
    } else if WellFormed(columns, records) {
      TallyStdouts(ExpandedLines(columns, records), k);
    } else {
      TallyOne(Panic(IndexOutOfRange), k);
    }
  }

  /** Whether the result an action renders makes the expanded renderer panic. */
  predicate RenderPanics(mode: Mode, r: QueryResult) {
    mode == Expand && !WellFormed(ResultColumns(r), ResultRecords(r))
  }

  lemma ErrorLineTally(r: QueryResult, k: Kind)
    requires k != Printing
    ensures Tally(ErrorLine(r), k) == 0
  {
    if r.QueryFailed? {
      TallyOne(Stderr(r.error), k);
    }
  }

  lemma SelectEffectsTally(mode: Mode, r: QueryResult, k: Kind)
    requires k != Printing
    ensures Tally(SelectEffects(mode, r), k) == (if k == Crashing && RenderPanics(mode, r) then 1 else 0)
  {
    TallyConcat(RecordEffects(mode, ResultColumns(r), ResultRecords(r)), ErrorLine(r), k);
    RecordTally(mode, ResultColumns(r), ResultRecords(r), k);
    ErrorLineTally(r, k);
  }

  lemma DescribeEffectsTally(mode: Mode, r: QueryResult, k: Kind)
    requires k != Printing
    ensures Tally(DescribeEffects(mode, r), k) == (if k == Crashing && RenderPanics(mode, r) then 1 else 0)
  {
    var rendered := RecordEffects(mode, ResultColumns(r), ResultRecords(r));
    TallyConcat(ErrorLine(r), rendered, k);
    TallyConcat(ErrorLine(r) + rendered, ErrorLine(r), k);
    RecordTally(mode, ResultColumns(r), ResultRecords(r), k);
    ErrorLineTally(r, k);
  }

  // ------------------------------------------------------ per action

  /** Whether an action goes to the shell or to the database. */
  predicate CallsBackend(a: Action) {
    (a.ShellCommand? && a.argv != []) || a.Select? || a.Describe? || a.Mutate? || a.Ddl? || a.ExecuteFile?
  }

  /** The query result an action renders (a select, a describe or an execute), if it renders one. */
  function Rendered(a: Action, w: World): QueryResult {
    match a
    case Select(q) => w.query(q)
    case Describe(g) => w.query(DescribeQuery(g))
    case ExecuteFile(path) =>
      var f := w.readFile(path);
      w.query(if f.FileRead? then f.content else f.partial)
    case _ => QueryFailed("")
  }

  /** Whether an action panics: a shell line without a command, or a short record rendered in expanded mode. */
  predicate Crashes(a: Action, mode: Mode, w: World) {
    a == ShellCommand([]) || ((a.Select? || a.Describe? || a.ExecuteFile?) && RenderPanics(mode, Rendered(a, w)))
  }

  /** How many effects of kind `k` an action has, by the branch it takes. */
  function Expected(a: Action, mode: Mode, w: World, k: Kind): nat
    requires k != Printing
  {
    match k
    case Recording => 0
    case Calling => if CallsBackend(a) then 1 else 0
    case Reading => if a.ExecuteFile? then 1 else 0
    case Crashing => if Crashes(a, mode, w) then 1 else 0
  }

  lemma ShellTally(argv: seq<string>, mode: Mode, w: World, k: Kind)
    requires k != Printing
    ensures Tally(Dispatch(ShellCommand(argv), mode, w).effects, k) == Expected(ShellCommand(argv), mode, w, k)
  {
    var e := Dispatch(ShellCommand(argv), mode, w).effects;
    if argv == [] {
      assert e == [Panic(IndexOutOfRange)];
      TallyOne(Panic(IndexOutOfRange), k);
    } else {
      var err := w.run(argv);
      var tail: seq<Effect> := if err.Some? then [Stdout(err.value)] else [];
      assert e == [RunShell(argv)] + tail;
      CallTally(RunShell(argv), tail, k);
    }
  }

  lemma SelectTally(q: string, mode: Mode, w: World, k: Kind)
    requires k != Printing
    ensures Tally(Dispatch(Select(q), mode, w).effects, k) == Expected(Select(q), mode, w, k)
  {
    QueryTrace(Select(q), q, mode, w);
    QueryEffectsTally(q, mode, w.query(q), false, k);
  }

  lemma DescribeTally(g: string, mode: Mode, w: World, k: Kind)
    requires k != Printing
    ensures Tally(Dispatch(Describe(g), mode, w).effects, k) == Expected(Describe(g), mode, w, k)
  {
    var q := DescribeQuery(g);
    QueryTrace(Describe(g), q, mode, w);
    QueryEffectsTally(q, mode, w.query(q), true, k);
  }

  /** A query trace calls once and panics exactly when the rendering does. */
  lemma QueryEffectsTally(q: string, mode: Mode, r: QueryResult, describe: bool, k: Kind)
    requires k != Printing
    ensures Tally([SendQuery(q)] + (if describe then DescribeEffects(mode, r) else SelectEffects(mode, r)), k) ==
            (if k == Calling then 1 else 0) + (if k == Crashing && RenderPanics(mode, r) then 1 else 0)
  {
    var tail := if describe then DescribeEffects(mode, r) else SelectEffects(mode, r);
    TallyConcat([SendQuery(q)], tail, k);
    TallyOne(SendQuery(q), k);
    if describe {
      DescribeEffectsTally(mode, r, k);
    } else {
      SelectEffectsTally(mode, r, k);
    }
  }

  /** A select or a describe sends its query first and then shows what came back. */
  lemma QueryTrace(a: Action, q: string, mode: Mode, w: World)
    requires a == Select(q) || (a.Describe? && q == DescribeQuery(a.group))
    ensures Rendered(a, w) == w.query(q)
    ensures a.Select? ==> Dispatch(a, mode, w).effects == [SendQuery(q)] + SelectEffects(mode, w.query(q))
    ensures a.Describe? ==> Dispatch(a, mode, w).effects == [SendQuery(q)] + DescribeEffects(mode, w.query(q))
  {
  }

  /** A call to the backend followed by at most one printed line. */
  lemma CallTally(call: Effect, tail: seq<Effect>, k: Kind)
    requires k != Printing && KindOf(call) == Calling
    requires |tail| <= 1 && forall i :: 0 <= i < |tail| ==> KindOf(tail[i]) == Printing
    ensures Tally([call] + tail, k) == (if k == Calling then 1 else 0)
  {
    TallyConcat([call], tail, k);
    TallyOne(call, k);
    if tail != [] {
      assert tail == [tail[0]];
      TallyOne(tail[0], k);
    }
  }

  lemma MutateTally(q: string, mode: Mode, w: World, k: Kind)
    requires k != Printing
    ensures Tally(Dispatch(Mutate(q), mode, w).effects, k) == Expected(Mutate(q), mode, w, k)
  {
    CallTally(SendExec(q), DmlEffects(w.exec(q)), k);
  }

  lemma DdlTally(q: string, kind: DdlKind, mode: Mode, w: World, k: Kind)
    requires k != Printing
    ensures Tally(Dispatch(Ddl(q, kind), mode, w).effects, k) == Expected(Ddl(q, kind), mode, w, k)
  {
    CallTally(SendExec(q), DdlEffects(kind, w.exec(q)), k);
  }

  lemma ExecuteTally(path: string, mode: Mode, w: World, k: Kind)
    requires k != Printing
    ensures Tally(Dispatch(ExecuteFile(path), mode, w).effects, k) == Expected(ExecuteFile(path), mode, w, k)
  {
    var f := w.readFile(path);
    var text := if f.FileRead? then f.content else f.partial;
    var readError: seq<Effect> := if f.FileFailed? then [Stderr(f.error)] else [];
    ExecuteTrace(path, mode, w);
    ExecuteEffectsTally(path, readError, text, mode, w.query(text), k);
  }

  /** The execute trace reads once, calls once, and panics exactly when the rendering does. */
  lemma ExecuteEffectsTally(path: string, readError: seq<Effect>, text: string, mode: Mode, r: QueryResult, k: Kind)
    requires k != Printing
    requires forall i :: 0 <= i < |readError| ==> readError[i].Stderr?
    requires |readError| <= 1
    ensures Tally(([ReadFile(path)] + readError + [SendQuery(text)]) + SelectEffects(mode, r), k) ==
            (if k == Reading || k == Calling then 1 else 0) + (if k == Crashing && RenderPanics(mode, r) then 1 else 0)
  {
    var head := [ReadFile(path)] + readError + [SendQuery(text)];
    ReadAndSendTally(path, readError, text, k);
    TallyConcat(head, SelectEffects(mode, r), k);
    SelectEffectsTally(mode, r, k);
  }

  /** The execute trace split into its head (read, error, query) and what the rendering adds. */
  lemma ExecuteTrace(path: string, mode: Mode, w: World)
    ensures var f := w.readFile(path);
            var text := if f.FileRead? then f.content else f.partial;
            var readError: seq<Effect> := if f.FileFailed? then [Stderr(f.error)] else [];
            Dispatch(ExecuteFile(path), mode, w).effects ==
              ([ReadFile(path)] + readError + [SendQuery(text)]) + SelectEffects(mode, w.query(text)) &&
            Rendered(ExecuteFile(path), w) == w.query(text) &&
            (Crashes(ExecuteFile(path), mode, w) <==> RenderPanics(mode, w.query(text)))
  {
  }

  /** The start of an execute trace: the read, its error if any, and the query. */
  lemma ReadAndSendTally(path: string, readError: seq<Effect>, text: string, k: Kind)
    requires k != Printing
    requires forall i :: 0 <= i < |readError| ==> readError[i].Stderr?
    requires |readError| <= 1
    ensures Tally([ReadFile(path)] + readError + [SendQuery(text)], k) == (if k == Reading || k == Calling then 1 else 0)
  {
    TallyConcat([ReadFile(path)], readError, k);
    TallyConcat([ReadFile(path)] + readError, [SendQuery(text)], k);
    TallyOne(ReadFile(path), k);
    TallyOne(SendQuery(text), k);
    if readError != [] {
      assert readError == [readError[0]];
      TallyOne(readError[0], k);
    }
  }

  lemma MetaTally(c: char, mode: Mode, w: World, k: Kind)
    requires k != Printing
    ensures Tally(Dispatch(Meta(c), mode, w).effects, k) == Expected(Meta(c), mode, w, k)
  {
    if c == 'x' {
      TallyOne(Stdout(ModeMessage(Toggle(mode))), k);
    }
  }

  /** Each action's trace holds exactly the calls, reads and panics its branch makes, and no history record. */
  lemma {:induction false} DispatchTally(a: Action, mode: Mode, w: World, k: Kind)
    requires k != Printing
    ensures Tally(Dispatch(a, mode, w).effects, k) == Expected(a, mode, w, k)
  {
    match a
    case ShellCommand(argv) => ShellTally(argv, mode, w, k);
    case Select(q) => SelectTally(q, mode, w, k);
    case Describe(g) => DescribeTally(g, mode, w, k);
    case Mutate(q) => MutateTally(q, mode, w, k);
    case Ddl(q, kind) => DdlTally(q, kind, mode, w, k);
    case ExecuteFile(path) => ExecuteTally(path, mode, w, k);
    case Meta(c) => MetaTally(c, mode, w, k);
    case Exit =>
    case Unrecognized =>
  }

  /** A call of the executor adds the history record of a non-empty line to what its action does. */
  lemma StepTally(mode: Mode, line: string, w: World, k: Kind)
    requires k != Printing
    ensures Tally(Step(mode, line, w).effects, k) ==
            (if k == Recording && line != "" then 1 else 0) + Expected(Classify(line), mode, w, k)
  {
    var o := Dispatch(Classify(line), mode, w);
    var h: seq<Effect> := if line != "" then [AppendHistory(line)] else [];
    TallyConcat(h, o.effects, k);
    if line != "" {
      TallyOne(AppendHistory(line), k);
    }
    DispatchTally(Classify(line), mode, w, k);
  }

  // -------------------------------------------------------- headlines

  /** A non-empty line is written to the history before anything else happens, and only once; an empty one is not. */
  lemma HistoryFirst(mode: Mode, line: string, w: World)
    ensures line != "" ==> |Step(mode, line, w).effects| > 0 && Step(mode, line, w).effects[0] == AppendHistory(line)
    ensures Tally(Step(mode, line, w).effects, Recording) == (if line != "" then 1 else 0)
  {
    StepTally(mode, line, w, Recording);
  }

  /** A line reaches the shell or the database at most once, exactly when its action needs it; only `execute` reads a file. */
  lemma AtMostOneBackendCall(mode: Mode, line: string, w: World)
    ensures Tally(Step(mode, line, w).effects, Calling) == (if CallsBackend(Classify(line)) then 1 else 0)
    ensures Tally(Step(mode, line, w).effects, Reading) == (if Classify(line).ExecuteFile? then 1 else 0)
  {
    StepTally(mode, line, w, Calling);
    StepTally(mode, line, w, Reading);
  }

  /** Results as `query` builds them: every record has a cell for every column. */
  ghost predicate DriverShaped(w: World) {
    forall q :: w.query(q).Rows? ==> WellFormed(w.query(q).columns, w.query(q).records)
  }

  /**
   * A line panics at most once; with results shaped as `query` builds
   * them, the only line that panics is a colon followed by nothing or only white space.
   */
  lemma PanicOnlyOnEmptyShell(mode: Mode, line: string, w: World)
    ensures Tally(Step(mode, line, w).effects, Crashing) <= 1
    ensures DriverShaped(w) ==> (Tally(Step(mode, line, w).effects, Crashing) == 1 <==> Classify(line) == ShellCommand([]))
  {
    StepTally(mode, line, w, Crashing);
    var r := Rendered(Classify(line), w);
    if DriverShaped(w) && r.Rows? {
      assert WellFormed(r.columns, r.records);
    }
  }

  /** Results read through `RunQuery` have the shape `PanicOnlyOnEmptyShell` asks for. */
  lemma QueriedResultsShaped(c: Cursor)
    requires ScansFit(c) && QueryOutcome(c).Rows?
    ensures WellFormed(QueryOutcome(c).columns, QueryOutcome(c).records)
  {
    QueryRecordsFit(c);
  }

  /** A world whose queries are all answered by `query` over cursors whose scans fit is driver-shaped. */
  lemma CursorWorldShaped(w: World, cur: string -> Cursor)
    requires forall q :: ScansFit(cur(q)) && w.query(q) == QueryOutcome(cur(q))
    ensures DriverShaped(w)
  {
    forall q | w.query(q).Rows?
      ensures WellFormed(w.query(q).columns, w.query(q).records)
    {
      QueriedResultsShaped(cur(q));
    }
  }

  // ---------------------------------------------------------- history

  /** The executor's history file after a run of lines: the non-empty ones, one record each, in order. */
  function Submitted(lines: seq<string>): seq<string> {
    if lines == [] then []
    else Submitted(lines[..|lines| - 1]) + (if lines[|lines| - 1] != "" then [lines[|lines| - 1]] else [])
  }

  /** The outcome of one line, given the mode the previous line left. */
  type Stepper = (Mode, string, World) -> Outcome

  /**
   * The outcomes of the lines the prompt submits, one after another,
   * each answered by its own world: every line runs in the mode the
   * previous one left, and the first line whose trace panics is the
   * last one, since the panic ends the process.
   */
  function RunWith(step: Stepper, mode: Mode, lines: seq<string>, worlds: seq<World>): (r: seq<Outcome>)
    requires |worlds| == |lines|
    ensures |r| <= |lines|
    decreases |lines|
  {
    if lines == [] then []
    else
      var o := step(mode, lines[0], worlds[0]);
      [o] + (if Tally(o.effects, Crashing) > 0 then [] else RunWith(step, o.mode, lines[1..], worlds[1..]))
  }

  /** The executor's run of several lines. */
  function RunLines(mode: Mode, lines: seq<string>, worlds: seq<World>): seq<Outcome>
    requires |worlds| == |lines|
  {
    RunWith(Step, mode, lines, worlds)
  }

  /** The mode line `j` of a run runs in: the starting mode, or the one line `j - 1` left. */
  function ModeBefore(mode: Mode, done: seq<Outcome>, j: nat): Mode
    requires j <= |done|
  {
    if j == 0 then mode else done[j - 1].mode
  }

  /** Each outcome is the step of its line in the mode the previous one left. */
  ghost predicate Chained(step: Stepper, mode: Mode, lines: seq<string>, worlds: seq<World>, done: seq<Outcome>)
    requires |worlds| == |lines| && |done| <= |lines|
  {
    forall j :: 0 <= j < |done| ==> done[j] == step(ModeBefore(mode, done, j), lines[j], worlds[j])
  }

  /** No outcome but the last one panicked. */
  predicate NoEarlyPanic(done: seq<Outcome>) {
    forall j :: 0 <= j < |done| - 1 ==> Tally(done[j].effects, Crashing) == 0
  }

  /** `done` is how a run of `lines` starts. */
  ghost predicate RunPrefix(step: Stepper, mode: Mode, lines: seq<string>, worlds: seq<World>, done: seq<Outcome>)
    requires |worlds| == |lines|
  {
    |done| <= |lines| && Chained(step, mode, lines, worlds, done) && NoEarlyPanic(done)
  }

  /**
   * What a run is: it starts as every run does, the first line always
   * runs, and it ends early only after a panic.
   */
  lemma {:induction false} RunWithShape(step: Stepper, mode: Mode, lines: seq<string>, worlds: seq<World>)
    requires |worlds| == |lines|
    ensures var r := RunWith(step, mode, lines, worlds);
            RunPrefix(step, mode, lines, worlds, r) && (lines != [] ==> r != []) &&
            (|r| < |lines| ==> Tally(r[|r| - 1].effects, Crashing) > 0)
    decreases |lines|
  {
    if lines != [] {
      var o := step(mode, lines[0], worlds[0]);
      if Tally(o.effects, Crashing) == 0 {
        RunWithShape(step, o.mode, lines[1..], worlds[1..]);
        var rest := RunWith(step, o.mode, lines[1..], worlds[1..]);
        var r := RunWith(step, mode, lines, worlds);
        assert r == [o] + rest;
        ChainedCons(step, mode, lines, worlds, o, rest);
        NoEarlyPanicCons(o, rest);
      }
    }
  }

  lemma ChainedCons(step: Stepper, mode: Mode, lines: seq<string>, worlds: seq<World>, o: Outcome, rest: seq<Outcome>)
    requires |worlds| == |lines| && lines != [] && |rest| < |lines|
    requires o == step(mode, lines[0], worlds[0]) && Chained(step, o.mode, lines[1..], worlds[1..], rest)
    ensures Chained(step, mode, lines, worlds, [o] + rest)
  {
    var r := [o] + rest;
    forall j | 0 <= j < |r|
      ensures r[j] == step(ModeBefore(mode, r, j), lines[j], worlds[j])
    {
      if j > 0 {
        var k := j - 1;
        assert r[j] == rest[k] && lines[j] == lines[1..][k] && worlds[j] == worlds[1..][k];
        assert rest[k] == step(ModeBefore(o.mode, rest, k), lines[1..][k], worlds[1..][k]);
        if k > 0 {
          assert r[j - 1] == rest[k - 1];
        }
        assert ModeBefore(mode, r, j) == ModeBefore(o.mode, rest, k);
      }
    }
  }

  /** A start of a run that has reached the last line or a panic is the whole run. */
  lemma {:induction false} RunPrefixIsRun(step: Stepper, mode: Mode, lines: seq<string>, worlds: seq<World>, done: seq<Outcome>)
    requires |worlds| == |lines| && RunPrefix(step, mode, lines, worlds, done)
    requires |done| == |lines| || (done != [] && Tally(done[|done| - 1].effects, Crashing) > 0)
    ensures RunWith(step, mode, lines, worlds) == done
    decreases |lines|
  {
    if lines != [] {
      var o := done[0];
      assert o == step(mode, lines[0], worlds[0]);
      if Tally(o.effects, Crashing) > 0 {
        assert |done| == 1 && done == [o];
      } else {
        RunPrefixTail(step, mode, lines, worlds, done);
        RunPrefixIsRun(step, o.mode, lines[1..], worlds[1..], done[1..]);
        assert done == [o] + done[1..];
      }
    }
  }

  /** Dropping the first line of a run that goes on past it leaves a run of the rest. */
  lemma RunPrefixTail(step: Stepper, mode: Mode, lines: seq<string>, worlds: seq<World>, done: seq<Outcome>)
    requires |worlds| == |lines| && RunPrefix(step, mode, lines, worlds, done)
    requires |done| == |lines| || (done != [] && Tally(done[|done| - 1].effects, Crashing) > 0)
    requires lines != [] && Tally(done[0].effects, Crashing) == 0
    ensures var rest := done[1..];
            RunPrefix(step, done[0].mode, lines[1..], worlds[1..], rest) &&
            (|rest| == |lines| - 1 || (rest != [] && Tally(rest[|rest| - 1].effects, Crashing) > 0))
  {
    var rest := done[1..];
    ChainedTail(step, mode, lines, worlds, done);
    assert done == [done[0]] + rest;
    NoEarlyPanicCons(done[0], rest);
    if rest != [] {
      assert rest[|rest| - 1] == done[|done| - 1];
    }
  }

  lemma ChainedTail(step: Stepper, mode: Mode, lines: seq<string>, worlds: seq<World>, done: seq<Outcome>)
    requires |worlds| == |lines| && |done| <= |lines| && done != [] && Chained(step, mode, lines, worlds, done)
    ensures Chained(step, done[0].mode, lines[1..], worlds[1..], done[1..])
  {
    var rest := done[1..];
    forall j | 0 <= j < |rest|
      ensures rest[j] == step(ModeBefore(done[0].mode, rest, j), lines[1..][j], worlds[1..][j])
    {
      assert rest[j] == done[j + 1] && lines[1..][j] == lines[j + 1] && worlds[1..][j] == worlds[j + 1];
      assert ModeBefore(done[0].mode, rest, j) == ModeBefore(mode, done, j + 1);
    }
  }

  /** The start of a run grows by the step of the next line, as long as no line has panicked yet. */
  lemma RunPrefixGrows(step: Stepper, mode: Mode, lines: seq<string>, worlds: seq<World>, done: seq<Outcome>, o: Outcome)
    requires |worlds| == |lines| && RunPrefix(step, mode, lines, worlds, done) && |done| < |lines|
    requires done != [] ==> Tally(done[|done| - 1].effects, Crashing) == 0
    requires o == step(ModeBefore(mode, done, |done|), lines[|done|], worlds[|done|])
    ensures RunPrefix(step, mode, lines, worlds, done + [o])
  {
    var d := done + [o];
    forall j | 0 <= j < |d|
      ensures d[j] == step(ModeBefore(mode, d, j), lines[j], worlds[j])
    {
      assert ModeBefore(mode, d, j) == ModeBefore(mode, done, j);
      if j < |done| {
        assert d[j] == done[j];
      }
    }
    NoEarlyPanicSnoc(done, o);
  }

  /** Putting an outcome that did not panic in front keeps only the last outcome able to panic, and back. */
  lemma NoEarlyPanicCons(o: Outcome, rest: seq<Outcome>)
    requires Tally(o.effects, Crashing) == 0
    ensures NoEarlyPanic([o] + rest) <==> NoEarlyPanic(rest)
  {
    var r := [o] + rest;
    if NoEarlyPanic(rest) {
      forall j | 0 <= j < |r| - 1 ensures Tally(r[j].effects, Crashing) == 0 {
        if j > 0 { assert r[j] == rest[j - 1]; }
      }
    }
    if NoEarlyPanic(r) {
      forall j | 0 <= j < |rest| - 1 ensures Tally(rest[j].effects, Crashing) == 0 {
        assert rest[j] == r[j + 1];
      }
    }
  }

  /** Appending an outcome after one that did not panic keeps only the last outcome able to panic. */
  lemma NoEarlyPanicSnoc(done: seq<Outcome>, o: Outcome)
    requires NoEarlyPanic(done) && (done != [] ==> Tally(done[|done| - 1].effects, Crashing) == 0)
    ensures NoEarlyPanic(done + [o])
  {
    var d := done + [o];
    forall j | 0 <= j < |d| - 1 ensures Tally(d[j].effects, Crashing) == 0 {
      assert d[j] == done[j];
    }
  }

  /**
   * The executor's run ends before the last line only after a line
   * whose trace panicked, and, against a driver that answers as
   * `RunQuery` does, that line was a colon followed by nothing or only white space.
   */
  lemma RunEndsOnlyAtEmptyShell(mode: Mode, lines: seq<string>, worlds: seq<World>)
    requires |worlds| == |lines|
    requires forall j :: 0 <= j < |worlds| ==> DriverShaped(worlds[j])
    ensures var r := RunLines(mode, lines, worlds);
            (forall j :: 0 <= j < |r| - 1 ==> Classify(lines[j]) != ShellCommand([])) &&
            (|r| < |lines| ==> Classify(lines[|r| - 1]) == ShellCommand([]))
  {
    var r := RunLines(mode, lines, worlds);
    RunWithShape(Step, mode, lines, worlds);
    forall j | 0 <= j < |r|
      ensures Tally(r[j].effects, Crashing) > 0 <==> Classify(lines[j]) == ShellCommand([])
    {
      PanicOnlyOnEmptyShell(ModeBefore(mode, r, j), lines[j], worlds[j]);
    }
  }

  /** A lone `:` kills the process: nothing after it runs, whatever the world answers. */
  lemma ColonEndsRun(mode: Mode, lines: seq<string>, worlds: seq<World>)
    requires |worlds| == |lines| && |lines| >= 1 && lines[0] == ":"
    ensures |RunLines(mode, lines, worlds)| == 1
  {
    var o := Step(mode, lines[0], worlds[0]);
    assert lines[0][1..] == [];
    assert Classify(lines[0]) == ShellCommand([]);
    assert o.effects == [AppendHistory(":"), Panic(IndexOutOfRange)];
    TallyOne(Panic(IndexOutOfRange), Crashing);
    TallyConcat([AppendHistory(":")], [Panic(IndexOutOfRange)], Crashing);
  }

  /** The traces of a run, one per executed line. */
  function EffectsOf(outcomes: seq<Outcome>): (r: seq<seq<Effect>>)
    ensures |r| == |outcomes| && forall j :: 0 <= j < |r| ==> r[j] == outcomes[j].effects
  {
    if outcomes == [] then [] else EffectsOf(outcomes[..|outcomes| - 1]) + [outcomes[|outcomes| - 1].effects]
  }

  lemma EffectsOfSnoc(outcomes: seq<Outcome>, o: Outcome)
    ensures EffectsOf(outcomes + [o]) == EffectsOf(outcomes) + [o.effects]
  {
    assert (outcomes + [o])[..|outcomes|] == outcomes;
  }

  /**
   * Running the executor on the submitted lines, one after another:
   * the traces are those of `RunLines`, so the run stops after the
   * first line that panics, and the history holds exactly the non-empty
   * lines that were executed.
   */
  method ExecuteAll(c: Client, lines: seq<string>, worlds: seq<World>) returns (traces: seq<seq<Effect>>)
    requires |worlds| == |lines|
    modifies c, c.history
    ensures var r := RunLines(old(c.mode), lines, worlds);
            traces == EffectsOf(r) && c.mode == ModeBefore(old(c.mode), r, |r|)
    ensures c.history.contents == old(c.history.contents) + Records(Submitted(lines[..|traces|]))
  {
    ghost var m0 := c.mode;
    ghost var h0 := c.history.contents;
    ghost var done: seq<Outcome> := [];
    traces := [];
    var i := 0;
    while i < |lines|
      invariant 0 <= i <= |lines| && |done| == i && traces == EffectsOf(done)
      invariant RunPrefix(Step, m0, lines, worlds, done)
      invariant c.mode == ModeBefore(m0, done, i)
      invariant i > 0 ==> Tally(done[i - 1].effects, Crashing) == 0
      invariant c.history.contents == h0 + Records(Submitted(lines[..i]))
    {
      var t, o := ExecuteNext(c, lines, worlds, i, m0, done);
      SubmittedSnoc(h0, lines, i);
      EffectsOfSnoc(done, o);
      traces := traces + [t];
      done := done + [o];
      i := i + 1;
      if Tally(t, Crashing) > 0 {
        break;
      }
    }
    RunPrefixIsRun(Step, m0, lines, worlds, done);
    assert |traces| == i;
  }

  /** Executing the next line of a run that has not panicked yet extends the run by that line's step. */
  method ExecuteNext(c: Client, lines: seq<string>, worlds: seq<World>, i: nat, ghost m0: Mode, ghost done: seq<Outcome>)
    returns (t: seq<Effect>, ghost o: Outcome)
    requires |worlds| == |lines| && RunPrefix(Step, m0, lines, worlds, done) && i == |done| < |lines|
    requires done != [] ==> Tally(done[|done| - 1].effects, Crashing) == 0
    requires c.mode == ModeBefore(m0, done, |done|)
    modifies c, c.history
    ensures o == Outcome(c.mode, t) && RunPrefix(Step, m0, lines, worlds, done + [o])
    ensures c.history.contents == old(c.history.contents) + (if lines[i] != "" then Record(lines[i]) else [])
  {
    t := c.Execute(lines[i], worlds[i]);
    o := Outcome(c.mode, t);
    RunPrefixGrows(Step, m0, lines, worlds, done, o);
  }

  lemma SubmittedSnoc(existing: string, lines: seq<string>, i: nat)
    requires i < |lines|
    ensures existing + Records(Submitted(lines[..i + 1])) ==
            existing + Records(Submitted(lines[..i])) + (if lines[i] != "" then Record(lines[i]) else [])
  {
    var s := Submitted(lines[..i]);
    assert lines[..i + 1][..i] == lines[..i];
    assert lines[..i + 1][i] == lines[i];
    if lines[i] != "" {
      assert Submitted(lines[..i + 1]) == s + [lines[i]];
      assert (s + [lines[i]])[..|s|] == s;
      assert Records(s + [lines[i]]) == Records(s) + Record(lines[i]);
      ConcatAssociates(existing, Records(s), Record(lines[i]));
    } else {
      assert Submitted(lines[..i + 1]) == s + [];
      assert s + [] == s;
      assert existing + Records(s) + [] == existing + Records(s);
    }
  }

  /**
   * Lines the prompt submits, appended to a history of whole lines, are
   * exactly what the next start-up reads back, before the EOF entry.
   */
  lemma HistoryRoundTrip(existing: string, lines: seq<string>)
    requires EndsLine(existing)
    requires forall k :: 0 <= k < |lines| ==> Reloadable(lines[k])
    ensures LoadHistory(Readable(existing + Records(Submitted(lines)), None)) ==
            Ok(HistoryLines(existing) + Submitted(lines) + [""])
  {
    SubmittedReloadable(lines);
    ReloadAfterAppends(existing, Submitted(lines));
  }

  lemma {:induction false} SubmittedReloadable(lines: seq<string>)
    requires forall k :: 0 <= k < |lines| ==> Reloadable(lines[k])
    ensures forall k :: 0 <= k < |Submitted(lines)| ==> Reloadable(Submitted(lines)[k])
  {
    if lines != [] {
      var n := |lines| - 1;
      assert forall k :: 0 <= k < n ==> lines[..n][k] == lines[k];
      SubmittedReloadable(lines[..n]);
    }
  }

}

/**
 * The display mode toggled by `\x` (main.go:31-36, 279-290) and the
 * expanded branch of `printRecords` (main.go:306-311). The table branch
 * is drawn by an outside library and is not modelled here.
 */
module Render {
  import opened Ascii

  datatype Mode = Table | Expand

  /** The `\x` toggle: table becomes expand and anything else becomes table. */
  function Toggle(m: Mode): (r: Mode)
    ensures r != m
  {
    if m == Table then Expand else Table
  }

  lemma ToggleInvolution(m: Mode)
    ensures Toggle(Toggle(m)) == m
  {
  }

  /** What the toggle prints, naming the mode it switched to. */
  function ModeMessage(m: Mode): string {
    if m == Expand then "Change Mode: expand" else "Change Mode: table"
  }

  /** The banner opening row `i` (0-based) in expanded mode. */
  function Banner(i: nat): string {
    "*************************** " + Decimal(i) + ". row ***************************"
  }

  /** One `column: value` line. */
  function FieldLine(column: string, value: string): string {
    column + ": " + value
  }

  /** Every record has a cell for each column (the renderer indexes `record[j]` for every column `j`). */
  predicate WellFormed(columns: seq<string>, records: seq<seq<string>>) {
    forall k :: 0 <= k < |records| ==> |records[k]| >= |columns|
  }

  function FieldLines(columns: seq<string>, record: seq<string>): seq<string>
    requires |record| >= |columns|
  {
    if columns == [] then []
    else FieldLines(columns[..|columns| - 1], record) + [FieldLine(columns[|columns| - 1], record[|columns| - 1])]
  }

  /** The lines printed for the records in expanded mode, one banner and one line per column for each row. */
  function ExpandedLines(columns: seq<string>, records: seq<seq<string>>): seq<string>
    requires WellFormed(columns, records)
  {
    if records == [] then []
    else
      var n := |records| - 1;
      ExpandedLines(columns, records[..n]) + [Banner(n)] + FieldLines(columns, records[n])
  }

  lemma {:induction false} FieldLinesAt(columns: seq<string>, record: seq<string>)
    requires |record| >= |columns|
    ensures |FieldLines(columns, record)| == |columns|
    ensures forall j :: 0 <= j < |columns| ==> FieldLines(columns, record)[j] == FieldLine(columns[j], record[j])
  {
    if columns != [] {
      FieldLinesAt(columns[..|columns| - 1], record);
    }
  }

  /** Where row `i` starts in expanded output: every row takes one banner and one line per column. */
  function RowStart(i: nat, columnCount: nat): nat {
    if i == 0 then 0 else RowStart(i - 1, columnCount) + columnCount + 1
  }

  lemma {:induction false} RowStartIsProduct(i: nat, columnCount: nat)
    ensures RowStart(i, columnCount) == i * (columnCount + 1)
  {
    if i > 0 {
      RowStartIsProduct(i - 1, columnCount);
    }
  }

  lemma {:induction false} RowStartGrows(i: nat, n: nat, columnCount: nat)
    requires i < n
    ensures RowStart(i, columnCount) + columnCount + 1 <= RowStart(n, columnCount)
  {
    if i < n - 1 {
      RowStartGrows(i, n - 1, columnCount);
    }
  }

  lemma {:induction false} ExpandedLength(columns: seq<string>, records: seq<seq<string>>)
    requires WellFormed(columns, records)
    ensures |ExpandedLines(columns, records)| == RowStart(|records|, |columns|)
  {
    if records != [] {
      ExpandedLength(columns, records[..|records| - 1]);
      FieldLinesAt(columns, records[|records| - 1]);
    }
  }

  /** Expanded output has `|columns| + 1` lines per row. */
  lemma ExpandedLineCount(columns: seq<string>, records: seq<seq<string>>)
    requires WellFormed(columns, records)
    ensures |ExpandedLines(columns, records)| == |records| * (|columns| + 1)
  {
    ExpandedLength(columns, records);
    RowStartIsProduct(|records|, |columns|);
  }

  /** Row `i` of expanded output opens with its banner. */
  lemma {:induction false} ExpandedBannerAt(columns: seq<string>, records: seq<seq<string>>, i: nat)
    requires WellFormed(columns, records) && i < |records|
    ensures RowStart(i, |columns|) < |ExpandedLines(columns, records)|
    ensures ExpandedLines(columns, records)[RowStart(i, |columns|)] == Banner(i)
  {
    var n := |records| - 1;
    var head := ExpandedLines(columns, records[..n]);
    var out := ExpandedLines(columns, records);
    assert out == head + [Banner(n)] + FieldLines(columns, records[n]);
    ExpandedLength(columns, records[..n]);
    if i < n {
      ExpandedBannerAt(columns, records[..n], i);
      assert out[RowStart(i, |columns|)] == head[RowStart(i, |columns|)];
    } else {
      assert RowStart(i, |columns|) == |head|;
    }
  }

  /** Cell `j` of row `i` is printed as `column: value`, `j + 1` lines after the row's banner. */
  lemma {:induction false} ExpandedFieldAt(columns: seq<string>, records: seq<seq<string>>, i: nat, j: nat)
    requires WellFormed(columns, records) && i < |records| && j < |columns|
    ensures RowStart(i, |columns|) + 1 + j < |ExpandedLines(columns, records)|
    ensures ExpandedLines(columns, records)[RowStart(i, |columns|) + 1 + j] == FieldLine(columns[j], records[i][j])
  {
    var n := |records| - 1;
    ExpandedLength(columns, records[..n]);
    FieldLinesAt(columns, records[n]);
    if i < n {
      ExpandedFieldAt(columns, records[..n], i, j);
      RowStartGrows(i, n, |columns|);
      assert records[..n][i] == records[i];
    }
  }

  /** Zero rows print nothing in expanded mode. */
  lemma NoRowsNoOutput(columns: seq<string>)
    ensures ExpandedLines(columns, []) == []
  {
  }

  lemma ExpandedSnoc(columns: seq<string>, records: seq<seq<string>>, i: nat)
    requires WellFormed(columns, records) && i < |records|
    ensures ExpandedLines(columns, records[..i + 1]) == ExpandedLines(columns, records[..i]) + [Banner(i)] + FieldLines(columns, records[i])
  {
    assert records[..i + 1][..i] == records[..i];
  }

  lemma FieldLinesSnoc(columns: seq<string>, record: seq<string>, j: nat)
    requires |record| >= |columns| && j < |columns|
    ensures FieldLines(columns[..j + 1], record) == FieldLines(columns[..j], record) + [FieldLine(columns[j], record[j])]
  {
    assert columns[..j + 1][..j] == columns[..j];
  }

  /** The nested loops of `printRecords`' expanded branch, collecting the lines they print. */
  method PrintExpanded(columns: seq<string>, records: seq<seq<string>>) returns (out: seq<string>)
    requires WellFormed(columns, records)
    ensures out == ExpandedLines(columns, records)
  {
    out := [];
    var i := 0;
    while i < |records|
      invariant 0 <= i <= |records|
      invariant out == ExpandedLines(columns, records[..i])
    {
      var record := records[i];
      out := out + [Banner(i)];
      var j := 0;
      while j < |columns|
        invariant 0 <= j <= |columns|
        invariant out == ExpandedLines(columns, records[..i]) + [Banner(i)] + FieldLines(columns[..j], record)
      {
        FieldLinesSnoc(columns, record, j);
        out := out + [FieldLine(columns[j], record[j])];
        j := j + 1;
      }
      assert columns[..j] == columns;
      ExpandedSnoc(columns, records, i);
      i := i + 1;
    }
    assert records[..i] == records;
  }
}

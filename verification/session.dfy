/**
 * What the executor receives from the database session (main.go:131-192).
 * The driver calls themselves are not modelled: a statement's outcome is
 * an input. `RunQuery` models the loop of `query` that turns the rows of
 * an open cursor into records (main.go:139-170).
 */
module Session {
  import opened Wrappers

  /** The outcome of `query`: columns and records, or the error (columns and records are then nil). */
  datatype QueryResult = Rows(columns: seq<string>, records: seq<seq<string>>) | QueryFailed(error: string)

  /** The outcome of `ExecContext`: its error, or the rows-affected count (itself possibly an error). */
  datatype ExecResult = ExecFailed(error: string) | Executed(rowsAffected: Result<int, string>)

  /** One `rows.Scan` call: the values of the row, already in their `%v` text, or the scan error. */
  datatype Scan = Scanned(values: seq<string>) | ScanFailed(error: string)

  /**
   * What `QueryContext` hands back: an error, or a cursor with its
   * columns, one scan per row, and the errors of `rows.Err` and `rows.Close`.
   */
  datatype Cursor =
    | OpenFailed(error: string)
    | Cursor(columns: seq<string>, scans: seq<Scan>, iterError: Option<string>, closeError: Option<string>)

  /** A successful scan fills one destination per column (database/sql refuses any other count). */
  predicate ScansFit(c: Cursor) {
    c.Cursor? ==> forall k :: 0 <= k < |c.scans| && c.scans[k].Scanned? ==> |c.scans[k].values| == |c.columns|
  }

  /** The records of the scans, or the first scan error. */
  function Collect(scans: seq<Scan>): Result<seq<seq<string>>, string> {
    if scans == [] then Ok([])
    else
      var prefix := Collect(scans[..|scans| - 1]);
      if prefix.Err? then prefix
      else match scans[|scans| - 1]
        case ScanFailed(e) => Err(e)
        case Scanned(values) => Ok(prefix.value + [values])
  }

  /** Once a scan fails, the rows after it do not matter. */
  lemma {:induction false} CollectFailureSticks(scans: seq<Scan>, i: nat)
    requires i <= |scans| && Collect(scans[..i]).Err?
    ensures Collect(scans) == Collect(scans[..i])
    decreases |scans| - i
  {
    if i < |scans| {
      assert scans[..i + 1][..i] == scans[..i];
      CollectFailureSticks(scans, i + 1);
    } else {
      assert scans[..i] == scans;
    }
  }

  /** The outcome of `query` for a cursor. */
  function QueryOutcome(c: Cursor): QueryResult {
    match c
    case OpenFailed(e) => QueryFailed(e)
    case Cursor(columns, scans, iterError, closeError) =>
      var collected := Collect(scans);
      if collected.Err? then QueryFailed(collected.error)
      else if iterError.Some? then QueryFailed(iterError.value)
      else if closeError.Some? then QueryFailed(closeError.value)
      else Rows(columns, collected.value)
  }

  /** The records of `Collect` have exactly one cell per column. */
  lemma {:induction false} CollectWidth(scans: seq<Scan>, width: nat)
    requires forall k :: 0 <= k < |scans| && scans[k].Scanned? ==> |scans[k].values| == width
    requires Collect(scans).Ok?
    ensures forall k :: 0 <= k < |Collect(scans).value| ==> |Collect(scans).value[k]| == width
  {
    if scans != [] {
      var n := |scans| - 1;
      assert forall k :: 0 <= k < n ==> scans[..n][k] == scans[k];
      CollectWidth(scans[..n], width);
    }
  }

  /** Every record `query` returns has exactly as many cells as there are columns. */
  lemma QueryRecordsFit(c: Cursor)
    requires ScansFit(c)
    requires QueryOutcome(c).Rows?
    ensures forall k :: 0 <= k < |QueryOutcome(c).records| ==> |QueryOutcome(c).records[k]| == |QueryOutcome(c).columns|
  {
    CollectWidth(c.scans, |c.columns|);
  }

  /** The loop of `query`: scan each row into a fresh record of `len(columns)` cells. */
  method RunQuery(c: Cursor) returns (r: QueryResult)
    requires ScansFit(c)
    ensures r == QueryOutcome(c)
  {
    if c.OpenFailed? {
      return QueryFailed(c.error);
    }
    var count := |c.columns|;
    var records: seq<seq<string>> := [];
    var i := 0;
    while i < |c.scans|
      invariant 0 <= i <= |c.scans|
      invariant Collect(c.scans[..i]) == Ok(records)
    {
      assert c.scans[..i + 1][..i] == c.scans[..i];
      var record := new string[count](_ => "");
      match c.scans[i] {
        case ScanFailed(e) =>
          CollectFailureSticks(c.scans, i + 1);
          return QueryFailed(e);
        case Scanned(values) =>
          var j := 0;
          while j < count
            invariant 0 <= j <= count
            invariant record[..j] == values[..j]
          {
            record[j] := values[j];
            j := j + 1;
          }
          assert record[..] == values;
          records := records + [record[..]];
      }
      i := i + 1;
    }
    assert c.scans[..i] == c.scans;
    if c.iterError.Some? {
      return QueryFailed(c.iterError.value);
    }
    if c.closeError.Some? {
      return QueryFailed(c.closeError.value);
    }
    return Rows(c.columns, records);
  }
}

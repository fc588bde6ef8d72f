/**
 * The history file: `historyAppend` writes one line and a newline
 * (main.go:370-372) and `readHistories` reads it back at start-up with
 * `bufio.Reader.ReadLine` over a 4096-byte buffer (main.go:329-350).
 * Characters stand for bytes (ASCII only).
 */
module History {
  import opened Wrappers
  import opened Ascii

  /** The reader's buffer size (main.go:340). */
  const BufferSize: nat := 4096

  /** What `historyAppend` writes for one line (`fmt.Fprintln`). */
  function Record(line: string): string {
    line + "\n"
  }

  /** The text of several records written one after another. */
  function Records(lines: seq<string>): string {
    if lines == [] then [] else Records(lines[..|lines| - 1]) + Record(lines[|lines| - 1])
  }

  /** The open history file, to which the executor appends. */
  class HistoryFile {
    var contents: string

    constructor (existing: string)
      ensures contents == existing
    {
      contents := existing;
    }

    method Append(line: string)
      modifies this
      ensures contents == old(contents) + Record(line)
    {
      contents := contents + Record(line);
    }
  }

  /**
   * One `ReadLine` call on the unread text `t`: the line returned and
   * the text left. A newline found within the buffer ends the line and
   * is dropped together with a `\r` before it; a full buffer returns its
   * 4096 characters as a line of its own (minus a trailing `\r`, which is
   * kept for the next call); a last line without newline is returned as it is.
   */
  function ReadLine(t: string): (r: (string, string))
    requires t != []
    ensures |r.1| < |t|
  {
    var k := FirstNewline(t);
    if k < |t| && k < BufferSize then
      (if k >= 1 && t[k - 1] == '\r' then t[..k - 1] else t[..k], t[k + 1..])
    else if |t| >= BufferSize then
      if t[BufferSize - 1] == '\r' then (t[..BufferSize - 1], t[BufferSize - 1..])
      else (t[..BufferSize], t[BufferSize..])
    else
      (t, [])
  }

  /** The lines `ReadLine` returns, one call after another, until the text is used up. */
  function HistoryLines(t: string): seq<string>
    decreases |t|
  {
    if t == [] then [] else [ReadLine(t).0] + HistoryLines(ReadLine(t).1)
  }

  /**
   * Where the history comes from: no home directory, a file that cannot
   * be opened, or a file whose text is read and after which the reader
   * reports EOF, or keeps reporting the error `failure`.
   */
  datatype HistorySource = NoHome | CannotOpen | Readable(text: string, failure: Option<string>)

  /** What `readHistories` returns. The final read, which hits EOF, also adds an entry: the empty line. */
  function LoadHistory(src: HistorySource): Result<seq<string>, string> {
    match src
    case NoHome => Ok([])
    case CannotOpen => Ok([])
    case Readable(text, failure) =>
      if failure.Some? then Err(failure.value) else Ok(HistoryLines(text) + [""])
  }

  datatype ReadStatus = Fine | Eof | Failed(error: string)

  /** The loop of `readHistories`, reading line after line until EOF or an error. */
  method ReadHistories(src: HistorySource) returns (r: Result<seq<string>, string>)
    ensures r == LoadHistory(src)
  {
    if src.NoHome? || src.CannotOpen? {
      return Ok([]);
    }
    var histories: seq<string> := [];
    var rest := src.text;
    while true
      invariant histories + HistoryLines(rest) == HistoryLines(src.text)
      decreases |rest|
    {
      var line: string;
      var status: ReadStatus;
      if rest == [] {
        line := [];
        status := if src.failure.Some? then Failed(src.failure.value) else Eof;
      } else {
        var next := ReadLine(rest);
        assert HistoryLines(rest) == [next.0] + HistoryLines(next.1);
        line, rest := next.0, next.1;
        status := Fine;
      }
      histories := histories + [line];
      if status == Eof {
        assert histories == HistoryLines(src.text) + [""];
        break;
      } else if status.Failed? {
        return Err(status.error);
      }
    }
    return Ok(histories);
  }

  // ---------------------------------------------------------------- reload

  predicate EndsLine(c: string) {
    c == [] || c[|c| - 1] == '\n'
  }

  lemma {:induction false} FirstNewlineConcat(c: string, x: string)
    requires FirstNewline(c) < |c|
    ensures FirstNewline(c + x) == FirstNewline(c)
  {
    if c[0] != '\n' {
      assert (c + x)[1..] == c[1..] + x;
      FirstNewlineConcat(c[1..], x);
    }
  }

  /** Reading text that ends with a newline is not disturbed by whatever follows it. */
  lemma ReadLineConcat(c: string, x: string)
    requires c != [] && c[|c| - 1] == '\n'
    ensures ReadLine(c + x).0 == ReadLine(c).0
    ensures ReadLine(c + x).1 == ReadLine(c).1 + x
    ensures EndsLine(ReadLine(c).1)
  {
    assert FirstNewline(c) < |c|;
    FirstNewlineConcat(c, x);
    var k := FirstNewline(c);
    var s := c + x;
    if k < BufferSize {
      assert s[..k] == c[..k];
      assert k >= 1 ==> s[k - 1] == c[k - 1];
      if k >= 1 { assert s[..k - 1] == c[..k - 1]; }
      assert s[k + 1..] == c[k + 1..] + x;
    } else {
      assert s[BufferSize - 1] == c[BufferSize - 1];
      assert s[..BufferSize] == c[..BufferSize];
      assert s[..BufferSize - 1] == c[..BufferSize - 1];
      assert s[BufferSize..] == c[BufferSize..] + x;
      assert s[BufferSize - 1..] == c[BufferSize - 1..] + x;
    }
  }

  /** History text made of whole lines reads as its lines followed by the lines of what comes after. */
  lemma {:induction false} HistoryLinesConcat(c: string, x: string)
    requires EndsLine(c)
    ensures HistoryLines(c + x) == HistoryLines(c) + HistoryLines(x)
    decreases |c|
  {
    if c == [] {
      assert c + x == x;
    } else {
      ReadLineConcat(c, x);
      HistoryLinesConcat(ReadLine(c).1, x);
    }
  }

  /** A line the prompt can submit and that reads back as itself. */
  predicate Reloadable(line: string) {
    |line| < BufferSize &&
    (forall i :: 0 <= i < |line| ==> line[i] != '\n') &&
    (line == [] || line[|line| - 1] != '\r')
  }

  /** One appended record reads back as exactly its line. */
  lemma RecordReloads(line: string)
    requires Reloadable(line)
    ensures HistoryLines(Record(line)) == [line]
  {
    var t := Record(line);
    assert FirstNewline(t) == |line| by {
      assert forall i :: 0 <= i < |line| ==> t[i] != '\n';
      assert t[|line|] == '\n';
      FirstNewlineAt(t, |line|);
    }
    assert t[..|line|] == line;
    assert t[|line| + 1..] == [];
  }

  lemma {:induction false} FirstNewlineAt(t: string, k: nat)
    requires k < |t| && t[k] == '\n' && forall i :: 0 <= i < k ==> t[i] != '\n'
    ensures FirstNewline(t) == k
  {
    if k > 0 {
      FirstNewlineAt(t[1..], k - 1);
    }
  }

  /** Appending one record to whole lines adds exactly that line. */
  lemma AppendOne(before: string, line: string)
    requires EndsLine(before) && Reloadable(line)
    ensures EndsLine(before + Record(line))
    ensures HistoryLines(before + Record(line)) == HistoryLines(before) + [line]
  {
    HistoryLinesConcat(before, Record(line));
    RecordReloads(line);
  }

  lemma {:induction false} RecordsEndLine(lines: seq<string>)
    ensures EndsLine(Records(lines))
  {
  }

  lemma EndsLineConcat(a: string, b: string)
    requires EndsLine(a) && EndsLine(b)
    ensures EndsLine(a + b)
  {
    if b == [] { assert a + b == a; }
  }

  lemma RecordsSnoc(existing: string, lines: seq<string>)
    requires lines != []
    ensures existing + Records(lines) == (existing + Records(lines[..|lines| - 1])) + Record(lines[|lines| - 1])
  {
    var a, b := Records(lines[..|lines| - 1]), Record(lines[|lines| - 1]);
    assert Records(lines) == a + b;
    ConcatAssociates(existing, a, b);
  }

  lemma ConcatAssociates(x: string, y: string, z: string)
    ensures x + (y + z) == (x + y) + z
  {
  }

  lemma SnocSplit(lines: seq<string>)
    requires lines != []
    ensures lines[..|lines| - 1] + [lines[|lines| - 1]] == lines
  {
  }

  lemma {:induction false} AppendedLines(existing: string, lines: seq<string>)
    requires EndsLine(existing)
    requires forall k :: 0 <= k < |lines| ==> Reloadable(lines[k])
    ensures HistoryLines(existing + Records(lines)) == HistoryLines(existing) + lines
  {
    if lines == [] {
      assert existing + Records(lines) == existing;
    } else {
      var n := |lines| - 1;
      var init, last := lines[..n], lines[n];
      assert forall k :: 0 <= k < |init| ==> Reloadable(init[k]);
      AppendedLines(existing, init);
      var before := existing + Records(init);
      RecordsEndLine(init);
      EndsLineConcat(existing, Records(init));
      AppendOne(before, last);
      RecordsSnoc(existing, lines);
      SnocSplit(lines);
    }
  }

  /**
   * Appending lines to a history of whole lines and reloading gives the
   * old history, the new lines in order, and the empty entry of the EOF read.
   */
  lemma ReloadAfterAppends(existing: string, lines: seq<string>)
    requires EndsLine(existing)
    requires forall k :: 0 <= k < |lines| ==> Reloadable(lines[k])
    ensures LoadHistory(Readable(existing + Records(lines), None)) == Ok(HistoryLines(existing) + lines + [""])
  {
    AppendedLines(existing, lines);
    RecordsEndLine(lines);
  }

  /** A line ending in a carriage return loses it on reload: `ReadLine` strips `\r\n` as a whole. */
  lemma CarriageReturnDropped(line: string)
    requires Reloadable(line) && |line| + 1 < BufferSize
    ensures HistoryLines(Record(line + "\r")) == [line]
  {
    var t := Record(line + "\r");
    assert forall i :: 0 <= i < |line| ==> t[i] == line[i];
    FirstNewlineAt(t, |line| + 1);
    assert t[..|line|] == line;
    assert t[|line| + 2..] == [];
  }

  /** A line of 4096 characters or more comes back split at the buffer size. */
  lemma LongLineSplit(line: string)
    requires |line| >= BufferSize && line[BufferSize - 1] != '\r'
    requires forall i :: 0 <= i < |line| ==> line[i] != '\n'
    ensures HistoryLines(Record(line)) == [line[..BufferSize]] + HistoryLines(Record(line[BufferSize..]))
  {
    var t := Record(line);
    FirstNewlineAt(t, |line|);
    assert t[..BufferSize] == line[..BufferSize];
    assert t[BufferSize..] == Record(line[BufferSize..]);
  }

  /** An empty or missing history file. */
  lemma EmptyHistories()
    ensures LoadHistory(Readable("", None)) == Ok([""])
    ensures LoadHistory(NoHome) == Ok([]) && LoadHistory(CannotOpen) == Ok([])
  {
    assert HistoryLines("") + [""] == [""];
  }
}

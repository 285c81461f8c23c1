/**
 * backend/storage/log_writer.py: a CSV log that starts with a header row and is appended one
 * row per `write`; writing to a closed file fails.
 */
module Logging {
  import opened Wrappers

  /** One data row `[timestamp, emotion, eng_raw, eng_smooth]`; a missing label is an empty cell. */
  datatype Entry = Entry(timestamp: real, emotion: Option<string>, engRaw: real, engSmooth: real)

  /** One row of the file: the header or a data row. */
  datatype Line = Header(columns: seq<string>) | Data(entry: Entry)

  /** The header row written on construction. */
  const HeaderColumns: seq<string> := ["timestamp", "emotion", "eng_raw", "eng_smooth"]

  /** The effect of one `write`: the row was written, or the file was closed (`ValueError`). */
  datatype Outcome = Written | ClosedFileError

  /** The data rows among `ls`, in file order. */
  function EntriesOf(ls: seq<Line>): (es: seq<Entry>)
    ensures |es| <= |ls|
    decreases |ls|
  {
    if ls == [] then []
    else EntriesOf(ls[..|ls| - 1]) + (if ls[|ls| - 1].Data? then [ls[|ls| - 1].entry] else [])
  }

  /** The file holding the header followed by the data rows `rows`. */
  function FileLines(rows: seq<Entry>): (ls: seq<Line>)
    ensures |ls| == |rows| + 1
  {
    [Header(HeaderColumns)] + seq(|rows|, i requires 0 <= i < |rows| => Data(rows[i]))
  }

  /** The header is the first line and the only one; line i+1 holds row i. */
  lemma FileLinesShape(rows: seq<Entry>)
    ensures FileLines(rows)[0] == Header(HeaderColumns)
    ensures forall i :: 0 <= i < |rows| ==> FileLines(rows)[i + 1] == Data(rows[i])
  {
  }

  /** Reading the file back yields exactly the rows written, in order. */
  lemma {:induction false} FileRoundTrip(rows: seq<Entry>)
    ensures EntriesOf(FileLines(rows)) == rows
    decreases |rows|
  {
    if rows == [] {
      assert FileLines(rows) == [Header(HeaderColumns)];
      assert FileLines(rows)[..0] == [];
    } else {
      var init := rows[..|rows| - 1];
      FileRoundTrip(init);
      assert FileLines(rows)[..|rows|] == FileLines(init);
      assert FileLines(rows)[|rows|] == Data(rows[|rows| - 1]);
      assert init + [rows[|rows| - 1]] == rows;
    }
  }

  /** `LogWriter`: the data rows of its file and whether the file handle is closed. */
  class LogWriter {
    var rows: seq<Entry>
    var closed: bool
    /** How many times `close` has run on this writer. */
    ghost var closeCalls: nat

    /** The file's content. */
    function Lines(): seq<Line>
      reads this
    {
      FileLines(rows)
    }

    /** `__init__`: truncate the target and write the header row. */
    constructor ()
      ensures rows == [] && Lines() == [Header(HeaderColumns)]
      ensures !closed && closeCalls == 0
    {
      rows := [];
      closed := false;
      closeCalls := 0;
    }

    /**
     * `write`: on an open file, append exactly one row at the end, earlier rows unchanged; on a
     * closed file, fail and change nothing.
     */
    method Write(ts: real, emo: Option<string>, raw: real, smooth: real) returns (outcome: Outcome)
      modifies this
      ensures outcome == if old(closed) then ClosedFileError else Written
      ensures rows == if old(closed) then old(rows) else old(rows) + [Entry(ts, emo, raw, smooth)]
      ensures closed == old(closed) && closeCalls == old(closeCalls)
    {
      if closed {
        return ClosedFileError;
      }
      rows := rows + [Entry(ts, emo, raw, smooth)];
      outcome := Written;
    }

    /** `close`: release the file; no row changes. */
    method Close()
      modifies this
      ensures closed && rows == old(rows)
      ensures closeCalls == old(closeCalls) + 1
    {
      closed := true;
      closeCalls := closeCalls + 1;
    }
  }
}

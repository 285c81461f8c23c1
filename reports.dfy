/**
 * backend/analysis/report_generator.py: the report of a session, classified by what is found at
 * the session's log path: no file, an empty file, a file that does not parse, a header without
 * rows, or rows, which give the statistics and the timeline.
 */
module Reports {
  import opened Wrappers
  import opened Logging
  import opened Stats

  /** What the report finds at `output/logs/{session_id}.csv`. */
  datatype LogFile = Missing | ZeroBytes | Unparseable | Parsed(rows: seq<Entry>)

  /** The `error` or `warning` field of a report, or neither. */
  datatype Notice = Clean | Error(code: string) | Warning(code: string)

  /** The report dictionary; `sessionId` echoes the id asked for, which `/stop` may pass as `None`. */
  datatype Report = Report(sessionId: Option<string>, notice: Notice, summary: Option<Summary>,
                           timeline: seq<real>, emotions: seq<Option<string>>)

  /** The summary of the three warning branches: zero aggregates and no labels. */
  const ZeroSummary := Summary(0.0, 0.0, 0.0, map[])

  /** How a log a `LogWriter` wrote and closed reads back: its header and data rows. */
  function FileOf(rows: seq<Entry>): LogFile {
    Parsed(EntriesOf(FileLines(rows)))
  }

  /** A closed log reads back as exactly the rows written to it. */
  lemma FileOfWritten(rows: seq<Entry>)
    ensures FileOf(rows) == Parsed(rows)
  {
    FileRoundTrip(rows);
  }

  /**
   * `generate_report`: the checks run in the order existence, size, parse, rows, and exactly one
   * branch applies; the id is echoed in every branch.
   */
  function GenerateReport(id: Option<string>, file: LogFile): (r: Report)
    ensures r.sessionId == id
    ensures r.notice == Error("log_not_found") <==> file.Missing?
    ensures r.notice == Warning("empty_log") <==> file.ZeroBytes?
    ensures r.notice == Warning("csv_read_error") <==> file.Unparseable?
    ensures r.notice == Warning("no_rows_in_log") <==> file == Parsed([])
    ensures r.notice == Clean <==> file.Parsed? && file.rows != []
    ensures file.Missing? ==> r.summary.None?
    ensures r.notice.Warning? ==> r.summary == Some(ZeroSummary)
    ensures r.notice != Clean ==> r.timeline == [] && r.emotions == []
    ensures r.notice == Clean ==>
      && r.summary == Some(ComputeStats(file.rows))
      && |r.timeline| == |r.emotions| == |file.rows|
      && (forall i :: 0 <= i < |file.rows| ==> r.timeline[i] == file.rows[i].engSmooth)
      && (forall i :: 0 <= i < |file.rows| ==> r.emotions[i] == file.rows[i].emotion)
  {
    match file
    case Missing => Report(id, Error("log_not_found"), None, [], [])
    case ZeroBytes => Report(id, Warning("empty_log"), Some(ZeroSummary), [], [])
    case Unparseable => Report(id, Warning("csv_read_error"), Some(ZeroSummary), [], [])
    case Parsed(rows) =>
      if |rows| == 0 then Report(id, Warning("no_rows_in_log"), Some(ZeroSummary), [], [])
      else Report(id, Clean, Some(ComputeStats(rows)), SmoothColumn(rows), EmotionColumn(rows))
  }

  /**
   * The report over a log a `LogWriter` wrote and closed: no rows give the `no_rows_in_log`
   * warning; otherwise the timeline and labels are the rows' own, in the order written.
   */
  lemma ReportOfWrittenLog(id: Option<string>, rows: seq<Entry>)
    ensures rows == [] ==> GenerateReport(id, FileOf(rows)).notice == Warning("no_rows_in_log")
    ensures rows != [] ==>
      && GenerateReport(id, FileOf(rows)).notice == Clean
      && GenerateReport(id, FileOf(rows)).summary == Some(ComputeStats(rows))
      && GenerateReport(id, FileOf(rows)).timeline == SmoothColumn(rows)
      && GenerateReport(id, FileOf(rows)).emotions == EmotionColumn(rows)
  {
    FileOfWritten(rows);
  }
}

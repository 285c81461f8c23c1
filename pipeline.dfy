/**
 * backend/pipeline/engagement_pipeline.py: the capture pipeline. `start` opens a frame source
 * and a fresh log, `stop` clears the running flag, and `loop` processes frames until the flag is
 * seen cleared at an iteration boundary, the source runs out, or a write fails; it then releases
 * the source and closes the log.
 *
 * The other thread's `stop()` is modelled as an environment event: `stopAt` is the number of
 * completed iterations after which the loop finds the flag cleared. `clock(k)` is the wall-clock
 * reading `time.time()` taken when the k-th iteration writes its row.
 */
module Pipeline {
  import opened Wrappers
  import opened Smoothing
  import opened FaceDetection
  import opened EmotionRecognition
  import opened FrameProcessing
  import opened Logging
  import opened Sessions
  import opened Video

  /** What `process_frame` takes from an accepted frame before smoothing: its label and raw score. */
  datatype Reading = Reading(dominant: Option<string>, raw: real)

  /** The reading of one frame, or `None` where `process_frame` rejects it. */
  function ReadingOf(vision: Vision, frame: Image): Option<Reading>
  {
    match Observe(vision, frame)
    case None => None
    case Some(o) => Some(Reading(o.dominant, Score(o.probs)))
  }

  /** The readings of a sequence of frames, frame by frame. */
  function Readings(vision: Vision, frames: seq<Image>): (rs: seq<Option<Reading>>)
    ensures |rs| == |frames|
    decreases |frames|
  {
    if frames == [] then [] else [ReadingOf(vision, frames[0])] + Readings(vision, frames[1..])
  }

  /** Position `i` of the readings is the reading of frame `i`. */
  lemma {:induction false} ReadingsAt(vision: Vision, frames: seq<Image>, i: nat)
    requires i < |frames|
    ensures Readings(vision, frames)[i] == ReadingOf(vision, frames[i])
    decreases i
  {
    if i > 0 {
      ReadingsAt(vision, frames[1..], i - 1);
    }
  }

  /**
   * `process_frame` is its reading followed by one smoother update: it accepts exactly the frames
   * that have a reading, and then reports that label, that raw score and its smoothing of `v`.
   */
  lemma ProcessedIsReading(vision: Vision, frame: Image, v: real)
    ensures Processed(vision, frame, v).Some? <==> ReadingOf(vision, frame).Some?
    ensures ReadingOf(vision, frame).Some? ==>
      var d, r := Processed(vision, frame, v).value, ReadingOf(vision, frame).value;
      d.dominant == r.dominant && d.engRaw == r.raw && d.engSmooth == Ema(v, r.raw)
  {
  }

  /** The three ways out of the loop. */
  datatype Exit = Signalled | EndOfStream | WriteFailed

  /** What one run of the loop does: rows written, final smoother value, frames read, why it ended. */
  datatype Run = Run(written: seq<Entry>, value: real, cursor: nat, exit: Exit)

  /**
   * The loop over frames with readings `rs`, from position `cursor` after `k` iterations, with the
   * smoother at `v`, the source readable (`live`) or not, and the log open or not.
   */
  function RunLoop(rs: seq<Option<Reading>>, live: bool, cursor: nat, k: nat, stopAt: nat,
                   clock: nat -> real, v: real, open: bool): Run
    requires cursor <= |rs|
    decreases |rs| - cursor
  {
    if k == stopAt then Run([], v, cursor, Signalled)
    else if !live || cursor == |rs| then Run([], v, cursor, EndOfStream)
    else
      match rs[cursor]
      case None => RunLoop(rs, live, cursor + 1, k + 1, stopAt, clock, v, open)
      case Some(r) =>
        var smooth := Ema(v, r.raw);
        if !open then Run([], smooth, cursor + 1, WriteFailed)
        else
          var rest := RunLoop(rs, live, cursor + 1, k + 1, stopAt, clock, smooth, open);
          rest.(written := [Entry(clock(k), r.dominant, r.raw, smooth)] + rest.written)
  }

  /** A run preceded by the rows `ws` already written. */
  function Splice(ws: seq<Entry>, r: Run): (s: Run)
    ensures s.written == ws + r.written && s.value == r.value && s.cursor == r.cursor && s.exit == r.exit
  {
    r.(written := ws + r.written)
  }

  /** The row the loop writes at time `t` for a reading, smoothed from `v`. */
  function RowOf(t: real, r: Reading, v: real): (e: Entry)
    ensures e.timestamp == t && e.emotion == r.dominant && e.engRaw == r.raw && e.engSmooth == Ema(v, r.raw)
  {
    Entry(t, r.dominant, r.raw, Ema(v, r.raw))
  }

  /**
   * One iteration of the loop that reads a frame and, if it has a reading, writes its row: if
   * `total` is the run from here spliced after `ws`, it is the run from the next frame spliced
   * after `ws` and that row, with the smoother where the frame left it.
   */
  lemma RunAdvances(rs: seq<Option<Reading>>, live: bool, cursor: nat, k: nat, stopAt: nat,
                    clock: nat -> real, v: real, open: bool, ws: seq<Entry>, total: Run)
    requires live && cursor < |rs| && k != stopAt && (rs[cursor].None? || open)
    requires total == Splice(ws, RunLoop(rs, live, cursor, k, stopAt, clock, v, open))
    ensures rs[cursor].None? ==> total == Splice(ws, RunLoop(rs, live, cursor + 1, k + 1, stopAt, clock, v, open))
    ensures rs[cursor].Some? ==>
      var r := rs[cursor].value;
      total == Splice(ws + [RowOf(clock(k), r, v)], RunLoop(rs, live, cursor + 1, k + 1, stopAt, clock, Ema(v, r.raw), open))
  {
    if rs[cursor].Some? {
      var r := rs[cursor].value;
      var rest := RunLoop(rs, live, cursor + 1, k + 1, stopAt, clock, Ema(v, r.raw), open);
      assert ws + ([RowOf(clock(k), r, v)] + rest.written) == (ws + [RowOf(clock(k), r, v)]) + rest.written;
    }
  }

  /**
   * Where the loop leaves without writing more: the stop is seen, nothing is left to read, or the
   * frame read has a reading but the log is closed.
   */
  lemma RunEnds(rs: seq<Option<Reading>>, live: bool, cursor: nat, k: nat, stopAt: nat,
                clock: nat -> real, v: real, open: bool, ws: seq<Entry>, total: Run)
    requires cursor <= |rs|
    requires total == Splice(ws, RunLoop(rs, live, cursor, k, stopAt, clock, v, open))
    ensures k == stopAt ==> total == Run(ws, v, cursor, Signalled)
    ensures k != stopAt && (!live || cursor == |rs|) ==> total == Run(ws, v, cursor, EndOfStream)
    ensures k != stopAt && live && cursor < |rs| && !open && rs[cursor].Some? ==>
      total == Run(ws, Ema(v, rs[cursor].value.raw), cursor + 1, WriteFailed)
  {
    assert ws + [] == ws;
  }

  /**
   * One pass of the loop body, as `Iteration` states it, moves `total` along: either the run
   * continues from the new position, smoother and rows, or it ends there.
   */
  lemma RunStep(rs: seq<Option<Reading>>, live: bool, open: bool, c: nat, k: nat, stopAt: nat,
                clock: nat -> real, v: real, ws: seq<Entry>, total: Run,
                more: bool, c2: nat, v2: real, ws2: seq<Entry>)
    requires c <= |rs| && k != stopAt
    requires total == Splice(ws, RunLoop(rs, live, c, k, stopAt, clock, v, open))
    requires !live || c == |rs| ==> !more && c2 == c && v2 == v && ws2 == ws
    requires live && c < |rs| ==>
      && c2 == c + 1
      && v2 == (if rs[c].Some? then Ema(v, rs[c].value.raw) else v)
      && more == (rs[c].None? || open)
      && ws2 == ws + (if rs[c].Some? && open then [RowOf(clock(k), rs[c].value, v)] else [])
    ensures more ==> c2 <= |rs| && total == Splice(ws2, RunLoop(rs, live, c2, k + 1, stopAt, clock, v2, open))
    ensures !more ==> total == Run(ws2, v2, c2, if c2 == c then EndOfStream else WriteFailed)
  {
    RunEnds(rs, live, c, k, stopAt, clock, v, open, ws, total);
    if more {
      RunAdvances(rs, live, c, k, stopAt, clock, v, open, ws, total);
    }
  }

  /** The readings present among `rs`, in order: the frames `process_frame` accepts. */
  function Present(rs: seq<Option<Reading>>): (ps: seq<Reading>)
    ensures |ps| <= |rs|
    decreases |rs|
  {
    if rs == [] then []
    else if rs[0].None? then Present(rs[1..])
    else [rs[0].value] + Present(rs[1..])
  }

  /** The loop reads forward, and never past the end of the frames. */
  lemma {:induction false} RunCursorBounds(rs: seq<Option<Reading>>, live: bool, cursor: nat, k: nat,
                                          stopAt: nat, clock: nat -> real, v: real, open: bool)
    requires cursor <= |rs|
    ensures cursor <= RunLoop(rs, live, cursor, k, stopAt, clock, v, open).cursor <= |rs|
    ensures k != stopAt && live && cursor < |rs| ==> cursor < RunLoop(rs, live, cursor, k, stopAt, clock, v, open).cursor
    decreases |rs| - cursor
  {
    if k != stopAt && live && cursor != |rs| {
      match rs[cursor]
      case None => RunCursorBounds(rs, live, cursor + 1, k + 1, stopAt, clock, v, open);
      case Some(r) => RunCursorBounds(rs, live, cursor + 1, k + 1, stopAt, clock, Ema(v, r.raw), open);
    }
  }

  /** The frames read and the ways out: the loop stops exactly at one of its three exits. */
  lemma {:induction false} RunExits(rs: seq<Option<Reading>>, live: bool, cursor: nat, k: nat,
                                   stopAt: nat, clock: nat -> real, v: real, open: bool)
    requires cursor <= |rs| && k <= stopAt
    ensures var r := RunLoop(rs, live, cursor, k, stopAt, clock, v, open);
      && cursor <= r.cursor <= |rs|
      && r.cursor - cursor <= stopAt - k
      && (r.exit == Signalled ==> r.cursor - cursor == stopAt - k)
      && (r.exit == EndOfStream ==> !live || r.cursor == |rs|)
      && (r.exit == WriteFailed ==> !open && r.written == [])
    decreases |rs| - cursor
  {
    if k != stopAt && live && cursor != |rs| {
      match rs[cursor]
      case None => RunExits(rs, live, cursor + 1, k + 1, stopAt, clock, v, open);
      case Some(r) => RunExits(rs, live, cursor + 1, k + 1, stopAt, clock, Ema(v, r.raw), open);
    }
  }

  /**
   * On an open log, exactly one row is written per frame read that has a reading, in frame order,
   * holding that reading's label and raw score; frames without one write nothing.
   */
  lemma {:induction false} RunWritesAccepted(rs: seq<Option<Reading>>, live: bool, cursor: nat, k: nat,
                                            stopAt: nat, clock: nat -> real, v: real)
    requires cursor <= |rs|
    ensures var r := RunLoop(rs, live, cursor, k, stopAt, clock, v, true);
      && cursor <= r.cursor <= |rs|
      && var ps := Present(rs[cursor..r.cursor]);
      && |r.written| == |ps|
      && forall i :: 0 <= i < |ps| ==> r.written[i].emotion == ps[i].dominant && r.written[i].engRaw == ps[i].raw
    decreases |rs| - cursor
  {
    var r := RunLoop(rs, live, cursor, k, stopAt, clock, v, true);
    RunCursorBounds(rs, live, cursor, k, stopAt, clock, v, true);
    if k == stopAt || !live || cursor == |rs| {
      assert rs[cursor..r.cursor] == [];
    } else {
      var fs := rs[cursor..r.cursor];
      assert fs[0] == rs[cursor] && fs[1..] == rs[cursor + 1..r.cursor];
      match rs[cursor]
      case None =>
        RunWritesAccepted(rs, live, cursor + 1, k + 1, stopAt, clock, v);
      case Some(x) =>
        RunWritesAccepted(rs, live, cursor + 1, k + 1, stopAt, clock, Ema(v, x.raw));
        var rest := RunLoop(rs, live, cursor + 1, k + 1, stopAt, clock, Ema(v, x.raw), true);
        var ps := Present(fs);
        assert ps == [x] + Present(fs[1..]);
        assert r.written == [Entry(clock(k), x.dominant, x.raw, Ema(v, x.raw))] + rest.written;
        forall i | 0 <= i < |ps|
          ensures r.written[i].emotion == ps[i].dominant && r.written[i].engRaw == ps[i].raw
        {
          if i > 0 {
            assert r.written[i] == rest.written[i - 1] && ps[i] == Present(fs[1..])[i - 1];
          }
        }
    }
  }

  /** Each row's smoothed score is the smoother's update of the previous row's, the first of `v`. */
  ghost predicate SmoothedFrom(ws: seq<Entry>, v: real)
    decreases |ws|
  {
    ws != [] ==> ws[0].engSmooth == Ema(v, ws[0].engRaw) && SmoothedFrom(ws[1..], ws[0].engSmooth)
  }

  /** The value the smoother holds after the rows `ws`, having started at `v`. */
  function LastSmoothed(ws: seq<Entry>, v: real): real
  {
    if ws == [] then v else ws[|ws| - 1].engSmooth
  }

  /** Every timestamp is at least `t`, and they never go backwards. */
  ghost predicate StampedFrom(ws: seq<Entry>, t: real)
  {
    && (forall i :: 0 <= i < |ws| ==> t <= ws[i].timestamp)
    && (forall i, j :: 0 <= i <= j < |ws| ==> ws[i].timestamp <= ws[j].timestamp)
  }

  /**
   * On an open log, the smoothed column follows the smoother's recurrence from the value the
   * smoother held when the loop began: row 0 smooths `v`, row i smooths row i-1; the smoother
   * ends at the last row's value.
   */
  lemma {:induction false} RunSmoothsRows(rs: seq<Option<Reading>>, live: bool, cursor: nat, k: nat,
                                         stopAt: nat, clock: nat -> real, v: real)
    requires cursor <= |rs|
    ensures SmoothedFrom(RunLoop(rs, live, cursor, k, stopAt, clock, v, true).written, v)
    ensures RunLoop(rs, live, cursor, k, stopAt, clock, v, true).value
         == LastSmoothed(RunLoop(rs, live, cursor, k, stopAt, clock, v, true).written, v)
    decreases |rs| - cursor
  {
    if k != stopAt && live && cursor != |rs| {
      match rs[cursor]
      case None =>
        RunSmoothsRows(rs, live, cursor + 1, k + 1, stopAt, clock, v);
      case Some(x) =>
        var s := Ema(v, x.raw);
        RunSmoothsRows(rs, live, cursor + 1, k + 1, stopAt, clock, s);
        var rest := RunLoop(rs, live, cursor + 1, k + 1, stopAt, clock, s, true);
        var e := Entry(clock(k), x.dominant, x.raw, s);
        assert ([e] + rest.written)[1..] == rest.written;
    }
  }

  /** With a non-decreasing clock, the rows' timestamps are non-decreasing and none precedes `clock(k)`. */
  lemma {:induction false} RunTimestampsOrdered(rs: seq<Option<Reading>>, live: bool, cursor: nat, k: nat,
                                               stopAt: nat, clock: nat -> real, v: real, open: bool)
    requires cursor <= |rs|
    requires forall a: nat, b: nat :: a <= b ==> clock(a) <= clock(b)
    ensures StampedFrom(RunLoop(rs, live, cursor, k, stopAt, clock, v, open).written, clock(k))
    decreases |rs| - cursor
  {
    if k != stopAt && live && cursor != |rs| {
      assert clock(k) <= clock(k + 1);
      match rs[cursor]
      case None =>
        RunTimestampsOrdered(rs, live, cursor + 1, k + 1, stopAt, clock, v, open);
      case Some(x) =>
        var s := Ema(v, x.raw);
        RunTimestampsOrdered(rs, live, cursor + 1, k + 1, stopAt, clock, s, open);
        var r := RunLoop(rs, live, cursor, k, stopAt, clock, v, open);
        var rest := RunLoop(rs, live, cursor + 1, k + 1, stopAt, clock, s, open);
        if open {
          assert r.written == [Entry(clock(k), x.dominant, x.raw, s)] + rest.written;
          forall i | 0 < i < |r.written| ensures r.written[i] == rest.written[i - 1] { }
        }
    }
  }

  /**
   * A live source whose remaining frames all have readings, with the stop arriving no earlier
   * than their end, leaves one row per remaining frame; when the stop arrives later still, the
   * loop ends by reaching the end of the stream.
   */
  lemma {:induction false} FullSourceLogged(rs: seq<Option<Reading>>, cursor: nat, k: nat,
                                           stopAt: nat, clock: nat -> real, v: real)
    requires cursor <= |rs|
    requires k + (|rs| - cursor) <= stopAt
    requires forall i :: cursor <= i < |rs| ==> rs[i].Some?
    ensures var r := RunLoop(rs, true, cursor, k, stopAt, clock, v, true);
      && |r.written| == |rs| - cursor && r.cursor == |rs|
      && (k + (|rs| - cursor) < stopAt ==> r.exit == EndOfStream)
    decreases |rs| - cursor
  {
    if cursor != |rs| {
      FullSourceLogged(rs, cursor + 1, k + 1, stopAt, clock, Ema(v, rs[cursor].value.raw));
    }
  }

  /**
   * `start` does not reset the smoother: the first row of a run depends on the value left by the
   * previous run, so two runs over the same frames from different values differ in that row.
   */
  lemma CarriedSmootherChangesFirstRow(rs: seq<Option<Reading>>, live: bool, cursor: nat, k: nat,
                                       stopAt: nat, clock: nat -> real, v1: real, v2: real)
    requires cursor <= |rs|
    requires v1 != v2
    ensures var r1 := RunLoop(rs, live, cursor, k, stopAt, clock, v1, true);
            var r2 := RunLoop(rs, live, cursor, k, stopAt, clock, v2, true);
      r1.written != [] && r2.written != [] ==>
        r1.written[0].engRaw == r2.written[0].engRaw && r1.written[0].engSmooth != r2.written[0].engSmooth
  {
    var r1 := RunLoop(rs, live, cursor, k, stopAt, clock, v1, true);
    var r2 := RunLoop(rs, live, cursor, k, stopAt, clock, v2, true);
    RunWritesAccepted(rs, live, cursor, k, stopAt, clock, v1);
    RunWritesAccepted(rs, live, cursor, k, stopAt, clock, v2);
    RunSmoothsRows(rs, live, cursor, k, stopAt, clock, v1);
    RunSmoothsRows(rs, live, cursor, k, stopAt, clock, v2);
    if r1.written != [] && r2.written != [] {
      FirstPresentIsSame(rs, cursor, r1.cursor, r2.cursor);
      var x := Present(rs[cursor..r1.cursor])[0];
      assert r1.written[0].engRaw == x.raw == r2.written[0].engRaw;
      assert r1.written[0].engSmooth == Ema(v1, x.raw);
      assert r2.written[0].engSmooth == Ema(v2, x.raw);
    }
  }

  /** The first present reading does not depend on how far the frames are read beyond it. */
  lemma {:induction false} FirstPresentIsSame(rs: seq<Option<Reading>>, cursor: nat, e1: nat, e2: nat)
    requires cursor <= e1 <= |rs| && cursor <= e2 <= |rs|
    requires Present(rs[cursor..e1]) != [] && Present(rs[cursor..e2]) != []
    ensures Present(rs[cursor..e1])[0] == Present(rs[cursor..e2])[0]
    decreases |rs| - cursor
  {
    var f1, f2 := rs[cursor..e1], rs[cursor..e2];
    assert f1 != [] && f2 != [];
    assert f1[0] == rs[cursor] == f2[0];
    assert f1[1..] == rs[cursor + 1..e1] && f2[1..] == rs[cursor + 1..e2];
    if rs[cursor].None? {
      FirstPresentIsSame(rs, cursor + 1, e1, e2);
    }
  }

  /** `EngagementPipeline`: its flags, current session, source, log, and the collaborators it owns. */
  class EngagementPipeline {
    var running: bool
    var currentSession: Option<SessionId>
    var source: VideoSource?
    var log: LogWriter?
    /** The face detector, crop and emotion model built in `__init__`. */
    const vision: Vision
    /** The smoother, built once in `__init__` and kept across sessions. */
    const smoother: EngagementSmoother

    /** A session's source and log are set together, and the loop has both whenever it may run. */
    ghost predicate Valid()
      reads this, source, log
    {
      && (source != null <==> log != null)
      && (currentSession.Some? <==> source != null)
      && (running ==> source != null)
      && (source != null ==> source.Valid())
    }

    /** `__init__`: not running, no session, source or log; a fresh smoother at 0. */
    constructor (mtcnn: Image -> DetectorOutcome, crop: (Image, Box) -> Image, engine: Image -> EngineOutcome)
      ensures Valid()
      ensures !running && currentSession.None? && source == null && log == null
      ensures vision == Stock(mtcnn, crop, engine)
      ensures fresh(smoother) && smoother.value == 0.0
    {
      running := false;
      currentSession := None;
      source := null;
      log := null;
      vision := Stock(mtcnn, crop, engine);
      smoother := new EngagementSmoother();
    }

    /**
     * `start`: record the session, open its source, create a fresh log holding only the header,
     * and set the running flag. The smoother is left as it was.
     */
    method Start(sessionId: SessionId, mode: string, videoPath: string, frames: seq<Image>)
      requires Valid()
      modifies this
      ensures Valid()
      ensures currentSession == Some(sessionId)
      ensures fresh(source) && source.mode == mode && source.path == videoPath && source.frames == frames
      ensures source.cursor == 0 && !source.released && source.releaseCalls == 0
      ensures fresh(log) && log.rows == [] && !log.closed && log.closeCalls == 0
      ensures running
      ensures smoother.value == old(smoother.value)
    {
      currentSession := Some(sessionId);
      source := new VideoSource(mode, videoPath, frames);
      log := new LogWriter();
      running := true;
    }

    /** `stop`: clear the running flag and nothing else. */
    method Stop()
      requires Valid()
      modifies this
      ensures Valid()
      ensures !running
      ensures currentSession == old(currentSession) && source == old(source) && log == old(log)
    {
      running := false;
    }

    /** The run that `Loop(stopAt, clock)` performs from the current state. */
    ghost function PendingRun(stopAt: nat, clock: nat -> real): Run
      reads this, source, log, smoother
      requires Valid() && source != null
    {
      RunLoop(Readings(vision, source.frames), !source.released, source.cursor, 0, if running then stopAt else 0,
              clock, smoother.value, !log.closed)
    }

    /**
     * `loop`: the rows `RunLoop` describes are appended to the log and the smoother ends where it
     * says; afterwards the source is released and the log closed, once each.
     */
    method Loop(stopAt: nat, clock: nat -> real)
      requires Valid()
      modifies this, source, log, smoother
      ensures Valid()
      ensures currentSession == old(currentSession) && source == old(source) && log == old(log)
      ensures source == null ==> !running && smoother.value == old(smoother.value)
      ensures source != null ==> log.rows == old(log.rows) + old(PendingRun(stopAt, clock)).written
      ensures source != null ==> smoother.value == old(PendingRun(stopAt, clock)).value
      ensures source != null ==> source.cursor == old(PendingRun(stopAt, clock)).cursor
      ensures source != null ==> running == (old(PendingRun(stopAt, clock)).exit != Signalled)
      ensures source != null ==> source.released && source.releaseCalls == old(source.releaseCalls) + 1
      ensures source != null ==> log.closed && log.closeCalls == old(log.closeCalls) + 1
    {
      ghost var exit := ProcessFrames(stopAt, clock);
      if source != null {
        source.Release();
      }
      if log != null {
        log.Close();
      }
    }

    /**
     * The `while` statement of `loop`, up to its cleanup: it leaves the rows, the smoother and the
     * source where `RunLoop` says, with the running flag cleared exactly when the stop was seen.
     */
    method ProcessFrames(stopAt: nat, clock: nat -> real) returns (ghost exit: Exit)
      requires Valid()
      modifies this, source, log, smoother
      ensures Valid()
      ensures currentSession == old(currentSession) && source == old(source) && log == old(log)
      ensures source == null ==> !running && smoother.value == old(smoother.value)
      ensures source != null ==>
        && Splice(old(log.rows), old(PendingRun(stopAt, clock))) == Run(log.rows, smoother.value, source.cursor, exit)
        && running == (exit != Signalled)
        && source.released == old(source.released) && source.releaseCalls == old(source.releaseCalls)
        && log.closeCalls == old(log.closeCalls)
    {
      if source == null {
        return Signalled;
      }
      ghost var halt := if running then stopAt else 0;
      ghost var rs := Readings(vision, source.frames);
      ghost var live := !source.released;
      ghost var open := !log.closed;
      ghost var goal := Splice(log.rows, PendingRun(stopAt, clock));
      exit := Signalled;
      var k: nat := 0;
      if k == stopAt {
        Stop();  // the handler's `stop()` lands before the first read
      }
      while running
        invariant Valid()
        invariant currentSession == old(currentSession) && source == old(source) && log == old(log)
        invariant k <= halt && (running <==> k != halt) && exit == Signalled
        invariant source.released == !live && source.releaseCalls == old(source.releaseCalls)
        invariant log.closed == !open && log.closeCalls == old(log.closeCalls)
        invariant goal == Splice(log.rows, RunLoop(rs, live, source.cursor, k, halt, clock, smoother.value, open))
        decreases |source.frames| - source.cursor
      {
        var more;
        more, exit := Advance(k, halt, clock, rs, live, open, goal);
        if !more {
          break;
        }
        k := k + 1;
        if k == stopAt {
          Stop();  // the handler's `stop()` lands once `stopAt` passes have read a frame
        }
      }
      if !running {
        RunEnds(rs, live, source.cursor, k, halt, clock, smoother.value, open, log.rows, goal);
      }
    }

    /**
     * One pass of the `while` statement of `loop`, stated against `RunLoop`: the run still to come
     * from the new state, spliced after the new rows, is the run that was to come before; where
     * the body breaks out, the run ends here.
     */
    method Advance(k: nat, ghost halt: nat, clock: nat -> real, ghost rs: seq<Option<Reading>>, ghost live: bool,
                   ghost open: bool, ghost goal: Run) returns (more: bool, ghost exit: Exit)
      requires Valid() && source != null && k != halt
      requires rs == Readings(vision, source.frames) && live == !source.released && open == !log.closed
      requires goal == Splice(log.rows, RunLoop(rs, live, source.cursor, k, halt, clock, smoother.value, open))
      modifies source, log, smoother
      ensures Valid()
      ensures source.released == old(source.released) && source.releaseCalls == old(source.releaseCalls)
      ensures log.closed == old(log.closed) && log.closeCalls == old(log.closeCalls)
      ensures more ==> exit == Signalled && source.cursor == old(source.cursor) + 1
      ensures more ==> goal == Splice(log.rows, RunLoop(rs, live, source.cursor, k + 1, halt, clock, smoother.value, open))
      ensures !more ==> exit != Signalled && goal == Run(log.rows, smoother.value, source.cursor, exit)
    {
      ghost var c, v, w := source.cursor, smoother.value, log.rows;
      more := Iteration(clock(k), rs);
      RunStep(rs, live, open, c, k, halt, clock, v, w, goal, more, source.cursor, smoother.value, log.rows);
      exit := if more then Signalled else if source.cursor == c then EndOfStream else WriteFailed;
    }

    /**
     * The body of `loop`: read a frame, process it, and write its row. `more` is false where the
     * body breaks out (nothing could be read, or the write failed).
     */
    method Iteration(t: real, ghost rs: seq<Option<Reading>>) returns (more: bool)
      requires Valid() && source != null
      requires rs == Readings(vision, source.frames)
      modifies source, log, smoother
      ensures Valid()
      ensures source.released == old(source.released) && source.releaseCalls == old(source.releaseCalls)
      ensures log.closed == old(log.closed) && log.closeCalls == old(log.closeCalls)
      ensures old(source.released) || old(source.cursor) == |source.frames| ==>
        !more && source.cursor == old(source.cursor) && smoother.value == old(smoother.value) && log.rows == old(log.rows)
      ensures !old(source.released) && old(source.cursor) < |source.frames| ==>
        var reading := rs[old(source.cursor)];
        && source.cursor == old(source.cursor) + 1
        && smoother.value == (if reading.Some? then Ema(old(smoother.value), reading.value.raw) else old(smoother.value))
        && more == (reading.None? || !log.closed)
        && log.rows == old(log.rows)
             + (if reading.Some? && !log.closed then [RowOf(t, reading.value, old(smoother.value))] else [])
    {
      var ret, frame := source.ReadFrame();
      if !ret {
        return false;
      }
      ReadingsAt(vision, source.frames, source.cursor - 1);
      ProcessedIsReading(vision, frame, smoother.value);
      var data := ProcessFrame(frame, vision, smoother);
      if data.Some? {
        var outcome := log.Write(t, data.value.dominant, data.value.engRaw, data.value.engSmooth);
        if outcome == ClosedFileError {
          return false;
        }
      }
      more := true;
    }
  }
}

/**
 * backend/app.py: the server's endpoints over its global state: the session registry, the capture
 * pipeline and its loop thread, and the realtime log fed by `/analyze_frame`.
 */
module App {
  import opened Wrappers
  import opened FaceDetection
  import opened EmotionRecognition
  import opened FrameProcessing
  import opened Logging
  import opened Sessions
  import opened Stats
  import opened Reports
  import opened Pipeline

  /** `str(dominant)`: the label, or the text `None` when the model gave none. */
  function LabelText(d: Option<string>): (s: string)
    ensures d.Some? ==> s == d.value
    ensures d.None? ==> s == "None"
  {
    match d
    case Some(l) => l
    case None => "None"
  }

  /** One entry of the `faces` list `/analyze_frame` returns. */
  datatype FaceResult = FaceResult(id: nat, x: int, y: int, w: int, h: int, emotion: string,
                                   engagement: real, probs: Probs)

  /**
   * The box at index `idx` yields a result exactly when it has positive size, its crop is
   * non-empty and the model gives probabilities; the result carries the id `idx + 1`, the box,
   * the label text, the engagement of the probabilities and the probabilities.
   */
  function FaceAt(vision: Vision, img: Image, b: Box, idx: nat): (r: Option<FaceResult>)
    ensures r.Some? <==>
      Usable(b) && vision.crop(img, b).size > 0 && vision.predict(vision.crop(img, b)).probs.Some?
    ensures r.Some? ==>
      var pr := vision.predict(vision.crop(img, b));
      && r.value.id == idx + 1
      && (r.value.x, r.value.y, r.value.w, r.value.h) == (b.x, b.y, b.w, b.h)
      && r.value.emotion == LabelText(pr.dominant)
      && r.value.probs == pr.probs.value
      && r.value.engagement == Score(pr.probs.value)
  {
    if b.w <= 0 || b.h <= 0 then None
    else
      var face := vision.crop(img, b);
      if face.size == 0 then None
      else
        var pr := vision.predict(face);
        if pr.probs.None? then None
        else Some(FaceResult(idx + 1, b.x, b.y, b.w, b.h, LabelText(pr.dominant), Score(pr.probs.value), pr.probs.value))
  }

  /** The results for `boxes`, in box order. */
  function FaceResults(vision: Vision, img: Image, boxes: seq<Box>): (rs: seq<FaceResult>)
    ensures |rs| <= |boxes|
    decreases |boxes|
  {
    if boxes == [] then []
    else
      var n := |boxes| - 1;
      FaceResults(vision, img, boxes[..n]) + (match FaceAt(vision, img, boxes[n], n) case None => [] case Some(f) => [f])
  }

  /** Every result is the result of the box its id names. */
  lemma {:induction false} FaceResultsFromBoxes(vision: Vision, img: Image, boxes: seq<Box>)
    ensures forall j :: 0 <= j < |FaceResults(vision, img, boxes)| ==>
      1 <= FaceResults(vision, img, boxes)[j].id <= |boxes| &&
      FaceAt(vision, img, boxes[FaceResults(vision, img, boxes)[j].id - 1], FaceResults(vision, img, boxes)[j].id - 1)
        == Some(FaceResults(vision, img, boxes)[j])
    decreases |boxes|
  {
    if boxes != [] {
      var n := |boxes| - 1;
      var init := boxes[..n];
      FaceResultsFromBoxes(vision, img, init);
      var prev, rs := FaceResults(vision, img, init), FaceResults(vision, img, boxes);
      forall j | 0 <= j < |rs|
        ensures 1 <= rs[j].id <= |boxes| && FaceAt(vision, img, boxes[rs[j].id - 1], rs[j].id - 1) == Some(rs[j])
      {
        if j < |prev| {
          assert rs[j] == prev[j];
          assert boxes[prev[j].id - 1] == init[prev[j].id - 1];
        }
      }
    }
  }

  /** Ids strictly increase along the results. */
  lemma {:induction false} FaceResultsIdsIncrease(vision: Vision, img: Image, boxes: seq<Box>)
    ensures forall j, j' :: 0 <= j < j' < |FaceResults(vision, img, boxes)| ==>
      FaceResults(vision, img, boxes)[j].id < FaceResults(vision, img, boxes)[j'].id
    decreases |boxes|
  {
    if boxes != [] {
      var n := |boxes| - 1;
      var init := boxes[..n];
      FaceResultsIdsIncrease(vision, img, init);
      FaceResultsFromBoxes(vision, img, init);
      var prev, rs := FaceResults(vision, img, init), FaceResults(vision, img, boxes);
      assert forall j :: 0 <= j < |prev| ==> rs[j] == prev[j] && prev[j].id <= n;
    }
  }

  /** A box that yields a result has it among the results, under the id its index gives. */
  lemma {:induction false} FaceResultsComplete(vision: Vision, img: Image, boxes: seq<Box>, i: nat)
    requires i < |boxes| && FaceAt(vision, img, boxes[i], i).Some?
    ensures exists j :: 0 <= j < |FaceResults(vision, img, boxes)| && FaceResults(vision, img, boxes)[j].id == i + 1
    decreases |boxes|
  {
    var n := |boxes| - 1;
    var init := boxes[..n];
    var prev, rs := FaceResults(vision, img, init), FaceResults(vision, img, boxes);
    if i < n {
      assert init[i] == boxes[i];
      FaceResultsComplete(vision, img, init, i);
      var j :| 0 <= j < |prev| && prev[j].id == i + 1;
      assert rs[j] == prev[j];
    } else {
      assert rs[|prev|] == FaceAt(vision, img, boxes[n], n).value;
    }
  }

  /** A box index has a result exactly when that box yields one. */
  lemma FaceResultsExactly(vision: Vision, img: Image, boxes: seq<Box>, i: nat)
    requires i < |boxes|
    ensures FaceAt(vision, img, boxes[i], i).Some? <==>
      exists j :: 0 <= j < |FaceResults(vision, img, boxes)| && FaceResults(vision, img, boxes)[j].id == i + 1
  {
    FaceResultsFromBoxes(vision, img, boxes);
    if FaceAt(vision, img, boxes[i], i).Some? {
      FaceResultsComplete(vision, img, boxes, i);
    }
  }

  /**
   * The per-face loop of `/analyze_frame`: boxes of non-positive size, empty crops and faces
   * without probabilities are skipped; each other box gives one result with id `idx + 1`.
   */
  method CollectFaces(vision: Vision, img: Image, boxes: seq<Box>) returns (results: seq<FaceResult>)
    ensures results == FaceResults(vision, img, boxes)
  {
    results := [];
    for idx := 0 to |boxes|
      invariant results == FaceResults(vision, img, boxes[..idx])
    {
      assert boxes[..idx + 1][..idx] == boxes[..idx];
      var Box(x, y, w, h) := boxes[idx];
      if w <= 0 || h <= 0 {
        continue;
      }
      var faceImg := vision.crop(img, boxes[idx]);
      if faceImg.size == 0 {
        continue;
      }
      var Prediction(probs, dominant) := vision.predict(faceImg);
      if probs.None? {
        continue;
      }
      var eng := FrameProcessing.ComputeEngagement(probs.value);
      results := results + [FaceResult(idx + 1, x, y, w, h, LabelText(dominant), eng, probs.value)];
    }
    assert boxes[..|boxes|] == boxes;
  }

  /**
   * The index of the first key with the largest count: no key has a larger count, and every key
   * before it has a smaller one.
   */
  function FirstMostFrequent(keys: seq<string>, t: map<string, nat>): (j: nat)
    requires |keys| > 0
    ensures j < |keys|
    ensures forall i :: 0 <= i < |keys| ==> Get(t, keys[i], 0) <= Get(t, keys[j], 0)
    ensures forall i :: 0 <= i < j ==> Get(t, keys[i], 0) < Get(t, keys[j], 0)
    decreases |keys|
  {
    if |keys| == 1 then 0
    else
      var r := 1 + FirstMostFrequent(keys[1..], t);
      assert forall i :: 1 <= i < |keys| ==> keys[i] == keys[1..][i - 1];
      if Get(t, keys[0], 0) >= Get(t, keys[r], 0) then 0 else r
  }

  /** `Counter(labels).most_common(1)[0][0]`: the counter lists labels in first-seen order. */
  function MostCommon(labels: seq<string>): (r: string)
    requires |labels| > 0
    ensures r in labels
  {
    DistinctShape(labels);
    assert labels[0] in Distinct(labels);
    var keys := Distinct(labels);
    keys[FirstMostFrequent(keys, Tally(labels))]
  }

  /**
   * The frame's label is one of the labels, none occurs more often, and among the labels that
   * occur as often it is the one met first.
   */
  lemma MostCommonIsFirstMode(labels: seq<string>)
    requires |labels| > 0
    ensures MostCommon(labels) in labels
    ensures forall i :: 0 <= i < |labels| ==> multiset(labels)[labels[i]] <= multiset(labels)[MostCommon(labels)]
    ensures forall i :: 0 <= i < |labels| && multiset(labels)[labels[i]] == multiset(labels)[MostCommon(labels)] ==>
      MostCommon(labels) in labels[..i + 1]
  {
    DistinctShape(labels);
    TallyCounts(labels);
    var keys, t := Distinct(labels), Tally(labels);
    assert labels[0] in keys;
    var j := FirstMostFrequent(keys, t);
    var m := keys[j];
    assert m == MostCommon(labels);
    assert m in keys;
    forall i | 0 <= i < |labels|
      ensures multiset(labels)[labels[i]] <= multiset(labels)[m]
      ensures multiset(labels)[labels[i]] == multiset(labels)[m] ==> m in labels[..i + 1]
    {
      var l := labels[i];
      assert l in keys;
      var q :| 0 <= q < |keys| && keys[q] == l;
      assert Get(t, l, 0) == multiset(labels)[l] && Get(t, m, 0) == multiset(labels)[m];
      if multiset(labels)[l] == multiset(labels)[m] {
        assert !(q < j);
        FirstSeenOrder(labels, i, q);
      }
    }
  }

  /** The engagements of the results, in order. */
  function Engagements(results: seq<FaceResult>): (es: seq<real>)
    ensures |es| == |results|
  {
    seq(|results|, i requires 0 <= i < |results| => results[i].engagement)
  }

  /** The label texts of the results, in order. */
  function FrameLabels(results: seq<FaceResult>): (ls: seq<string>)
    ensures |ls| == |results|
  {
    seq(|results|, i requires 0 <= i < |results| => results[i].emotion)
  }

  /**
   * The row `/analyze_frame` logs for a frame with results: the most common label, and the mean
   * of the per-face engagements (their sum over their number) as both the raw and the smoothed
   * value, which lies between the least and the greatest engagement.
   */
  function FrameRow(t: real, results: seq<FaceResult>): (e: Entry)
    requires |results| > 0
    ensures e.timestamp == t && e.engRaw == e.engSmooth
    ensures e.emotion == Some(MostCommon(FrameLabels(results)))
    ensures e.engRaw == Sum(Engagements(results)) / (|results| as real)
    ensures Minimum(Engagements(results)) <= e.engRaw <= Maximum(Engagements(results))
  {
    var avg := Mean(Engagements(results));
    Entry(t, Some(MostCommon(FrameLabels(results))), avg, avg)
  }

  /** The answer of `/rt_stop`. */
  datatype RtStopReply = NoRealtimeSession | RtClosed(session: SessionId, report: Report)

  /** The server's module globals. */
  class Server {
    const sessions: SessionManager
    const pipeline: EngagementPipeline
    /** The face detector, crop and emotion model of the realtime endpoint. */
    const rtVision: Vision
    /** A loop thread has been started and not yet joined. */
    var loopPending: bool
    var rtLog: LogWriter?
    var rtSessionId: Option<SessionId>

    /** The realtime log and id are set together; the realtime log is open and is not the pipeline's. */
    ghost predicate Valid()
      reads this, pipeline, pipeline.source, pipeline.log, rtLog
    {
      && pipeline.Valid()
      && (rtLog != null <==> rtSessionId.Some?)
      && (rtLog != null ==> !rtLog.closed && rtLog != pipeline.log)
      && (loopPending ==> pipeline.source != null)
    }

    /** The globals at import: an empty registry, an idle pipeline, no thread and no realtime log. */
    constructor (mtcnn: Image -> DetectorOutcome, crop: (Image, Box) -> Image, engine: Image -> EngineOutcome)
      ensures Valid()
      ensures fresh(sessions) && sessions.sessions == map[]
      ensures fresh(pipeline) && !pipeline.running && pipeline.currentSession.None?
      ensures pipeline.vision == Stock(mtcnn, crop, engine) && rtVision == Stock(mtcnn, crop, engine)
      ensures !loopPending && rtLog == null && rtSessionId.None?
    {
      sessions := new SessionManager();
      pipeline := new EngagementPipeline(mtcnn, crop, engine);
      rtVision := Stock(mtcnn, crop, engine);
      loopPending := false;
      rtLog := null;
      rtSessionId := None;
    }

    /**
     * `/start`: register a session under the clock's id, start the pipeline on it and hand its
     * loop to a thread.
     */
    method Start(mode: string, videoPath: string, now: SessionId, frames: seq<Image>)
      returns (id: SessionId, status: string)
      requires Valid() && !loopPending
      modifies this, sessions, pipeline
      ensures Valid()
      ensures id == now && status == "started" && loopPending
      ensures sessions.sessions == old(sessions.sessions)[id := SessionRecord(mode, videoPath, true)]
      ensures pipeline.currentSession == Some(id) && pipeline.running
      ensures fresh(pipeline.source) && pipeline.source.frames == frames && pipeline.source.cursor == 0
      ensures pipeline.source.mode == mode && pipeline.source.path == videoPath
      ensures !pipeline.source.released
      ensures fresh(pipeline.log) && pipeline.log.rows == [] && !pipeline.log.closed
      ensures pipeline.smoother.value == old(pipeline.smoother.value)
      ensures rtLog == old(rtLog) && rtSessionId == old(rtSessionId)
    {
      id := sessions.CreateSession(mode, videoPath, now);
      pipeline.Start(id, mode, videoPath, frames);
      loopPending := true;
      status := "started";
    }

    /**
     * `/stop`: the loop thread, whose last check of the flag saw it cleared after `stopAt`
     * iterations, has run to its end; the flag is cleared, the session marked stopped, and the
     * report made from the log the loop closed.
     */
    method Stop(stopAt: nat, clock: nat -> real) returns (session: Option<SessionId>, report: Report)
      requires Valid()
      modifies this, sessions, pipeline, pipeline.source, pipeline.log, pipeline.smoother
      ensures Valid()
      ensures session == old(pipeline.currentSession) == pipeline.currentSession
      ensures pipeline.source == old(pipeline.source) && pipeline.log == old(pipeline.log)
      ensures !loopPending && !pipeline.running
      ensures session.Some? ==> sessions.sessions == Stopped(old(sessions.sessions), session.value)
      ensures session.None? ==> sessions.sessions == old(sessions.sessions)
      ensures old(loopPending) ==>
        && pipeline.log.rows == old(pipeline.log.rows) + old(pipeline.PendingRun(stopAt, clock)).written
        && pipeline.log.closed && pipeline.source.released
      ensures old(loopPending) ==>
        && pipeline.smoother.value == old(pipeline.PendingRun(stopAt, clock)).value
        && pipeline.source.cursor == old(pipeline.PendingRun(stopAt, clock)).cursor
      ensures !old(loopPending) ==> pipeline.smoother.value == old(pipeline.smoother.value)
      ensures !old(loopPending) && pipeline.source != null ==> pipeline.source.cursor == old(pipeline.source.cursor)
      ensures !old(loopPending) && pipeline.log != null ==> pipeline.log.rows == old(pipeline.log.rows)
      ensures session.Some? ==> report == GenerateReport(session, FileOf(pipeline.log.rows))
      ensures session.None? ==> report == GenerateReport(None, Missing)
      ensures rtLog == old(rtLog) && rtSessionId == old(rtSessionId)
      ensures rtLog != null ==> rtLog.rows == old(rtLog.rows) && !rtLog.closed
    {
      if loopPending {
        pipeline.Loop(stopAt, clock);
        loopPending := false;
      }
      pipeline.Stop();
      session := pipeline.currentSession;
      if session.Some? {
        sessions.StopSession(session.value);
        report := GenerateReport(session, FileOf(pipeline.log.rows));
      } else {
        report := GenerateReport(None, Missing);
      }
    }

    /**
     * `/rt_start`: with a realtime log open, answer with its id and change nothing; otherwise
     * register a realtime session and open its log.
     */
    method RtStart(now: SessionId) returns (id: Option<SessionId>, status: string)
      requires Valid()
      modifies this, sessions
      ensures Valid()
      ensures loopPending == old(loopPending)
      ensures old(rtLog) != null ==>
        && status == "already_started" && id == old(rtSessionId)
        && rtLog == old(rtLog) && rtSessionId == old(rtSessionId) && sessions.sessions == old(sessions.sessions)
      ensures old(rtLog) == null ==>
        && status == "rt_started" && id == Some(now) && rtSessionId == id
        && fresh(rtLog) && rtLog.rows == []
        && sessions.sessions == old(sessions.sessions)[now := SessionRecord("realtime", "webcam_js", true)]
    {
      if rtLog != null {
        return rtSessionId, "already_started";
      }
      var sid := sessions.CreateSession("realtime", "webcam_js", now);
      rtSessionId := Some(sid);
      rtLog := new LogWriter();
      id, status := rtSessionId, "rt_started";
    }

    /**
     * `/rt_stop`: with no realtime session, answer `no_realtime_session` and change nothing;
     * otherwise close the log, clear the realtime state, mark the session stopped and report on it.
     */
    method RtStop() returns (reply: RtStopReply)
      requires Valid()
      modifies this, sessions, rtLog
      ensures Valid()
      ensures loopPending == old(loopPending)
      ensures old(rtSessionId).None? || old(rtLog) == null ==>
        && reply == NoRealtimeSession
        && rtLog == old(rtLog) && rtSessionId == old(rtSessionId) && sessions.sessions == old(sessions.sessions)
      ensures old(rtSessionId).Some? && old(rtLog) != null ==>
        && reply == RtClosed(old(rtSessionId).value, GenerateReport(old(rtSessionId), FileOf(old(rtLog.rows))))
        && old(rtLog).closed && old(rtLog).rows == old(rtLog.rows)
        && rtLog == null && rtSessionId.None?
        && sessions.sessions == Stopped(old(sessions.sessions), old(rtSessionId).value)
    {
      if rtSessionId.None? || rtLog == null {
        return NoRealtimeSession;
      }
      var sid := rtSessionId.value;
      var log := rtLog;
      log.Close();
      rtLog := null;
      sessions.StopSession(sid);
      var report := GenerateReport(Some(sid), FileOf(log.rows));
      rtSessionId := None;
      reply := RtClosed(sid, report);
    }

    /**
     * `/analyze_frame`: an undecodable image gives `invalid_image` and no faces; otherwise the
     * faces of the detected boxes, and with a realtime log open and at least one face, exactly one
     * row for the frame.
     */
    method AnalyzeFrame(img: Option<Image>, now: real) returns (status: string, faces: seq<FaceResult>)
      requires Valid()
      modifies rtLog
      ensures Valid()
      ensures img.None? ==> status == "invalid_image" && faces == []
      ensures img.Some? ==> status == "ok" && faces == FaceResults(rtVision, img.value, rtVision.detect(img.value))
      ensures rtLog != null ==>
        rtLog.rows == old(rtLog.rows) + (if img.Some? && |faces| > 0 then [FrameRow(now, faces)] else [])
    {
      if img.None? {
        return "invalid_image", [];
      }
      var boxes := rtVision.detect(img.value);
      faces := CollectFaces(rtVision, img.value, boxes);
      if rtLog != null && |faces| > 0 {
        var avg := Mean(Engagements(faces));
        var dominant := MostCommon(FrameLabels(faces));
        var _ := rtLog.Write(now, Some(dominant), avg, avg);
      }
      status := "ok";
    }
  }
}

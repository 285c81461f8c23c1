/**
 * backend/pipeline/frame_processor.py: the weighted engagement score and the per-frame chain
 * detect -> first face -> crop -> classify -> score -> smooth, with its early exits.
 */
module FrameProcessing {
  import opened Wrappers
  import opened Config
  import opened Smoothing
  import opened FaceDetection
  import opened EmotionRecognition

  /**
   * The collaborators `process_frame` is given: a face detector, the array crop
   * `frame[y:y+h, x:x+w]`, and an emotion model.
   */
  datatype Vision = Vision(
    detect: Image -> seq<Box>,
    crop: (Image, Box) -> Image,
    predict: Image -> Prediction)

  /** The collaborators the application builds: `FaceDetector` over MTCNN and `EmotionModel` over DeepFace. */
  function Stock(mtcnn: Image -> DetectorOutcome, crop: (Image, Box) -> Image,
                 engine: Image -> EngineOutcome): Vision
  {
    Vision(f => DetectedBoxes(mtcnn(f)), crop, c => Predict(engine(c)))
  }

  /** `p.get(emo, 0.0)`. */
  function Prob(p: Probs, emo: string): real {
    Get(p, emo, 0.0)
  }

  /** The sum over a weight table of probability times weight. */
  function WeightedSum(table: seq<(string, real)>, p: Probs): real
    decreases |table|
  {
    if table == [] then 0.0 else Prob(p, table[0].0) * table[0].1 + WeightedSum(table[1..], p)
  }

  /** The engagement score of a probability mapping under `EMOTION_WEIGHTS`. */
  function Score(p: Probs): real {
    WeightedSum(EmotionWeights, p)
  }

  /** The accumulation loop of `compute_engagement`, over the items of a weight table. */
  method AccumulateWeighted(table: seq<(string, real)>, p: Probs) returns (score: real)
    ensures score == WeightedSum(table, p)
  {
    score := 0.0;
    assert table[0..] == table;
    for i := 0 to |table|
      invariant score + WeightedSum(table[i..], p) == WeightedSum(table, p)
    {
      var (emo, w) := table[i];
      assert table[i..][1..] == table[i + 1..];
      score := score + Get(p, emo, 0.0) * w;
    }
  }

  /** `compute_engagement`: the weighted sum over `EMOTION_WEIGHTS` of `p.get(emo, 0.0) * w`. */
  method ComputeEngagement(p: Probs) returns (score: real)
    ensures score == Score(p)
  {
    score := AccumulateWeighted(EmotionWeights, p);
  }

  /** The score written out: the six weighted probabilities, absent labels counting 0. */
  lemma ScoreExpanded(p: Probs)
    ensures Score(p) == 1.0 * Prob(p, "happy") + 0.9 * Prob(p, "surprise") + 0.6 * Prob(p, "neutral")
                      + 0.3 * Prob(p, "sad") + 0.4 * Prob(p, "fear") + 0.2 * Prob(p, "angry")
  {
    var t := EmotionWeights;
    assert t[1..][1..][1..][1..][1..][1..] == [];
  }

  /** Two mappings that agree on a table's labels have the same weighted sum over it. */
  lemma {:induction false} WeightedSumDependsOnTableLabels(table: seq<(string, real)>, p: Probs, q: Probs)
    requires forall i :: 0 <= i < |table| ==> Prob(p, table[i].0) == Prob(q, table[i].0)
    ensures WeightedSum(table, p) == WeightedSum(table, q)
    decreases |table|
  {
    if table != [] {
      WeightedSumDependsOnTableLabels(table[1..], p, q);
    }
  }

  /**
   * Keys outside the weight table have no effect: changing or adding any other label, such as
   * "disgust", leaves the score unchanged.
   */
  lemma ScoreIgnoresUnweighted(p: Probs, emo: string, v: real)
    requires emo !in LabelsOf(EmotionWeights)
    ensures Score(p[emo := v]) == Score(p)
  {
    forall i | 0 <= i < |EmotionWeights|
      ensures Prob(p[emo := v], EmotionWeights[i].0) == Prob(p, EmotionWeights[i].0)
    {
      assert LabelsOf(EmotionWeights)[i] == EmotionWeights[i].0;
    }
    WeightedSumDependsOnTableLabels(EmotionWeights, p[emo := v], p);
  }

  /** The score is determined by the six weighted labels alone. */
  lemma ScoreOnlyReadsTable(p: Probs)
    ensures Score(p) == Score(map k | k in p && k in LabelsOf(EmotionWeights) :: p[k])
  {
    var q := map k | k in p && k in LabelsOf(EmotionWeights) :: p[k];
    forall i | 0 <= i < |EmotionWeights|
      ensures Prob(p, EmotionWeights[i].0) == Prob(q, EmotionWeights[i].0)
    {
      assert LabelsOf(EmotionWeights)[i] == EmotionWeights[i].0;
    }
    WeightedSumDependsOnTableLabels(EmotionWeights, p, q);
  }

  /** "disgust" contributes nothing to any score. */
  lemma DisgustContributesNothing(p: Probs, v: real)
    ensures Score(p["disgust" := v]) == Score(p)
  {
    DisgustIsUnweighted();
    ScoreIgnoresUnweighted(p, "disgust", v);
  }

  /** Non-negative probabilities and weights give a sum between 0 and the total weight when probabilities are at most 1. */
  lemma {:induction false} WeightedSumBounds(table: seq<(string, real)>, p: Probs)
    requires forall i :: 0 <= i < |table| ==> 0.0 <= table[i].1
    requires forall k :: k in p ==> 0.0 <= p[k]
    ensures 0.0 <= WeightedSum(table, p)
    ensures (forall k :: k in p ==> p[k] <= 1.0) ==> WeightedSum(table, p) <= TotalWeight(table)
    decreases |table|
  {
    if table != [] {
      WeightedSumBounds(table[1..], p);
      var pr := Prob(p, table[0].0);
      assert 0.0 <= pr * table[0].1;
      if forall k :: k in p ==> p[k] <= 1.0 {
        assert pr <= 1.0;
        assert (1.0 - pr) * table[0].1 >= 0.0;
      }
    }
  }

  /** With probabilities in [0, 1], the score lies in [0, 3.4]; with non-negative ones it is non-negative. */
  lemma ScoreBounds(p: Probs)
    requires forall k :: k in p ==> 0.0 <= p[k]
    ensures 0.0 <= Score(p)
    ensures (forall k :: k in p ==> p[k] <= 1.0) ==> Score(p) <= 3.4
  {
    WeightsBounded();
    WeightedSumBounds(EmotionWeights, p);
  }

  /** What the classifier saw on an accepted frame. */
  datatype Observation = Observation(faces: seq<Box>, dominant: Option<string>, probs: Probs)

  /**
   * The early-exit chain of `process_frame` before smoothing: a frame is accepted exactly when
   * some face is detected, the first box has positive size, its crop is non-empty, and the
   * classifier gives probabilities; the observation keeps the full face list and the dominant label.
   */
  function Observe(vision: Vision, frame: Image): (r: Option<Observation>)
    ensures r.Some? <==>
      var faces := vision.detect(frame);
      && |faces| > 0
      && Usable(faces[0])
      && vision.crop(frame, faces[0]).size > 0
      && vision.predict(vision.crop(frame, faces[0])).probs.Some?
    ensures r.Some? ==>
      var pr := vision.predict(vision.crop(frame, vision.detect(frame)[0]));
      r.value == Observation(vision.detect(frame), pr.dominant, pr.probs.value)
  {
    var faces := vision.detect(frame);
    if |faces| == 0 then None
    else
      var b := faces[0];
      if b.w <= 0 || b.h <= 0 then None
      else
        var faceImg := vision.crop(frame, b);
        if faceImg.size == 0 then None
        else
          var pr := vision.predict(faceImg);
          if pr.probs.None? then None
          else Some(Observation(faces, pr.dominant, pr.probs.value))
  }

  /** The dictionary `process_frame` returns on success. */
  datatype FrameData = FrameData(faces: seq<Box>, dominant: Option<string>, engRaw: real, engSmooth: real)

  /** The result of `process_frame` on a smoother holding `v`. */
  function Processed(vision: Vision, frame: Image, v: real): (r: Option<FrameData>)
    ensures r.Some? <==> Observe(vision, frame).Some?
    ensures r.Some? ==>
      var o := Observe(vision, frame).value;
      && r.value.faces == o.faces && r.value.dominant == o.dominant
      && r.value.engRaw == Score(o.probs)
      && r.value.engSmooth == SmoothingAlpha * Score(o.probs) + (1.0 - SmoothingAlpha) * v
  {
    match Observe(vision, frame)
    case None => None
    case Some(o) => var raw := Score(o.probs); Some(FrameData(o.faces, o.dominant, raw, Ema(v, raw)))
  }

  /**
   * `process_frame`: on a rejected frame nothing is returned and the smoother is untouched; on an
   * accepted one the smoother is updated exactly once, with the raw score.
   */
  method ProcessFrame(frame: Image, vision: Vision, smoother: EngagementSmoother) returns (data: Option<FrameData>)
    modifies smoother
    ensures data == Processed(vision, frame, old(smoother.value))
    ensures data.None? ==> smoother.value == old(smoother.value)
    ensures data.Some? ==> smoother.value == Ema(old(smoother.value), data.value.engRaw) == data.value.engSmooth
  {
    var faces := vision.detect(frame);
    if |faces| == 0 {
      return None;
    }
    var Box(x, y, w, h) := faces[0];
    if w <= 0 || h <= 0 {
      return None;
    }
    var faceImg := vision.crop(frame, faces[0]);
    if faceImg.size == 0 {
      return None;
    }
    var Prediction(probs, dominant) := vision.predict(faceImg);
    if probs.None? {
      return None;
    }
    var engRaw := ComputeEngagement(probs.value);
    var engSmooth := smoother.Update(engRaw);
    data := Some(FrameData(faces, dominant, engRaw, engSmooth));
  }
}

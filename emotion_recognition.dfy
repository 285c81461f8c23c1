/**
 * The post-processing of backend/models/emotion_model.py: the analysis engine (DeepFace) is
 * abstract; `predict` unwraps its result and turns percentages into probabilities.
 */
module EmotionRecognition {
  import opened Wrappers

  /** A label-to-probability mapping. */
  type Probs = map<string, real>

  /** One engine result: its `"emotion"` mapping (percentages) and `"dominant_emotion"`, either may be missing. */
  datatype EngineResult = EngineResult(emotion: Option<map<string, real>>, dominantEmotion: Option<string>)

  /** What the engine does on one crop: raise, return one result, or return a list of them. */
  datatype EngineOutcome = EngineRaised | Single(result: EngineResult) | Listed(results: seq<EngineResult>)

  /** The pair `(probs, dominant)` that `predict` returns. */
  datatype Prediction = Prediction(probs: Option<Probs>, dominant: Option<string>)

  /** `(None, None)`. */
  const NoPrediction := Prediction(None, None)

  /** The one result `predict` looks at: the result itself, or the first element of a list. */
  function Unwrapped(o: EngineOutcome): (r: Option<EngineResult>)
    ensures o.Listed? ==> (r.Some? <==> o.results != []) && (o.results != [] ==> r == Some(o.results[0]))
    ensures o.Single? ==> r == Some(o.result)
    ensures o.EngineRaised? ==> r.None?
  {
    match o
    case EngineRaised => None
    case Single(res) => Some(res)
    case Listed(rs) => if |rs| == 0 then None else Some(rs[0])
  }

  /** Percentages divided by 100, key for key. */
  function Normalised(e: map<string, real>): (p: Probs)
    ensures p.Keys == e.Keys
    ensures forall k :: k in p ==> p[k] * 100.0 == e[k]
  {
    map k | k in e :: e[k] / 100.0
  }

  /**
   * `EmotionModel.predict`: probabilities exist exactly when there is a result with an emotion
   * mapping; they have the engine's keys, scaled from percent; the dominant label passes through
   * unchanged, and is missing whenever the probabilities are.
   */
  function Predict(o: EngineOutcome): (r: Prediction)
    ensures r.probs.Some? <==> Unwrapped(o).Some? && Unwrapped(o).value.emotion.Some?
    ensures r.probs.Some? ==> r.probs.value == Normalised(Unwrapped(o).value.emotion.value)
    ensures r.probs.Some? ==> r.dominant == Unwrapped(o).value.dominantEmotion
    ensures r.probs.None? ==> r == NoPrediction
  {
    match Unwrapped(o)
    case None => NoPrediction
    case Some(res) =>
      match res.emotion
      case None => NoPrediction
      case Some(e) => Prediction(Some(Normalised(e)), res.dominantEmotion)
  }

  /** Percentages in [0, 100] give probabilities in [0, 1]. */
  lemma NormalisedInUnitInterval(e: map<string, real>)
    requires forall k :: k in e ==> 0.0 <= e[k] <= 100.0
    ensures forall k :: k in Normalised(e) ==> 0.0 <= Normalised(e)[k] <= 1.0
  {
  }
}

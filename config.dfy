/**
 * The fixed configuration of backend/core/config.py: the emotion weight table, in the
 * dictionary's own iteration order, and the smoothing factor.
 */
module Config {

  /** `EMOTION_WEIGHTS`: label and weight, in insertion order. */
  const EmotionWeights: seq<(string, real)> := [
    ("happy", 1.0),
    ("surprise", 0.9),
    ("neutral", 0.6),
    ("sad", 0.3),
    ("fear", 0.4),
    ("angry", 0.2)
  ]

  /** `SMOOTHING_ALPHA`. */
  const SmoothingAlpha: real := 0.6

  /** The labels of a weight table, in order. */
  function LabelsOf(table: seq<(string, real)>): (ls: seq<string>)
    ensures |ls| == |table|
    ensures forall i :: 0 <= i < |table| ==> ls[i] == table[i].0
  {
    if table == [] then [] else [table[0].0] + LabelsOf(table[1..])
  }

  /** The sum of the weights of a table. */
  function TotalWeight(table: seq<(string, real)>): real {
    if table == [] then 0.0 else table[0].1 + TotalWeight(table[1..])
  }

  /** The keys of a table are pairwise distinct, as a dictionary's are. */
  ghost predicate DistinctKeys(table: seq<(string, real)>) {
    forall i, j :: 0 <= i < j < |table| ==> table[i].0 != table[j].0
  }

  /** The weight table has exactly the six labels of the source, each once, with their weights. */
  lemma WeightTableShape()
    ensures |EmotionWeights| == 6
    ensures DistinctKeys(EmotionWeights)
    ensures LabelsOf(EmotionWeights) == ["happy", "surprise", "neutral", "sad", "fear", "angry"]
  {
    assert LabelsOf(EmotionWeights) == ["happy", "surprise", "neutral", "sad", "fear", "angry"];
  }

  /** "disgust" has no weight in the table. */
  lemma DisgustIsUnweighted()
    ensures "disgust" !in LabelsOf(EmotionWeights)
  {
    assert LabelsOf(EmotionWeights) == ["happy", "surprise", "neutral", "sad", "fear", "angry"];
  }

  /** Every weight lies in [0, 1] and the weights add up to 3.4, so a score is not a probability. */
  lemma WeightsBounded()
    ensures forall i :: 0 <= i < |EmotionWeights| ==> 0.0 <= EmotionWeights[i].1 <= 1.0
    ensures TotalWeight(EmotionWeights) == 3.4
  {
    assert TotalWeight(EmotionWeights[5..]) == 0.2;
    assert TotalWeight(EmotionWeights[4..]) == 0.6;
    assert TotalWeight(EmotionWeights[3..]) == 0.9;
    assert TotalWeight(EmotionWeights[2..]) == 1.5;
    assert TotalWeight(EmotionWeights[1..]) == 2.4;
  }

  /** The smoothing factor lies in (0, 1], so each update is a convex combination. */
  lemma AlphaInUnitInterval()
    ensures 0.0 < SmoothingAlpha <= 1.0
  {
  }
}

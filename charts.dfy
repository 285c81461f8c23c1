/**
 * frontend/js/charts.js: the dashboard's chart data: the clamped gauge, the radar over the seven
 * labels, the line chart's window of the last 30 points, and the heatmap's window of columns.
 */
module Charts {
  import opened Wrappers
  import opened FaceDetection

  /** `EMOTION_LABELS`, the order of the radar's axes and the heatmap's rows. */
  const EmotionLabels: seq<string> := ["angry", "disgust", "fear", "happy", "sad", "surprise", "neutral"]

  /** The line chart keeps at most this many points. */
  const MaxPoints: nat := 30

  /** The heatmap keeps the columns at most this far behind the current one. */
  const MaxCols: int := 30

  /** `updateGauge`: the value clamped into `[0, 1]`, and the rest of the half-doughnut. */
  function Gauge(value: real): (data: (real, real))
    ensures 0.0 <= data.0 <= 1.0 && data.0 + data.1 == 1.0
    ensures 0.0 <= value <= 1.0 ==> data.0 == value
    ensures value < 0.0 ==> data.0 == 0.0
    ensures value > 1.0 ==> data.0 == 1.0
  {
    var low := if value < 0.0 then 0.0 else value;
    var v := if low > 1.0 then 1.0 else low;
    (v, 1.0 - v)
  }

  /** The value shown for each label: the label's probability, or 0 where it has none. */
  function Lookup(labels: seq<string>, probs: Option<map<string, real>>): (data: seq<real>)
    ensures |data| == |labels|
    ensures forall i :: 0 <= i < |labels| ==>
      data[i] == (if probs.Some? then Get(probs.value, labels[i], 0.0) else 0.0)
    decreases |labels|
  {
    if labels == [] then []
    else [if probs.Some? then Get(probs.value, labels[0], 0.0) else 0.0] + Lookup(labels[1..], probs)
  }

  /** `updateRadar`: seven values aligned with `EMOTION_LABELS`; a missing mapping gives zeros. */
  function Radar(probs: Option<map<string, real>>): (data: seq<real>)
    ensures |data| == 7
    ensures forall i :: 0 <= i < 7 ==> data[i] == (if probs.Some? then Get(probs.value, EmotionLabels[i], 0.0) else 0.0)
  {
    Lookup(EmotionLabels, probs)
  }

  /**
   * One step of the line chart's window: append, then drop the oldest point once there are more
   * than 30. From a window of at most 30 points the result has at most 30 and ends with the new
   * point; below 30 points nothing is dropped, and at 30 exactly the oldest is, the others kept
   * in order.
   */
  function Slide<T>(xs: seq<T>, x: T): (ys: seq<T>)
    ensures |ys| > 0 && ys[|ys| - 1] == x
    ensures |xs| <= MaxPoints ==> |ys| <= MaxPoints
    ensures |ys| == if |xs| + 1 > MaxPoints then |xs| else |xs| + 1
    ensures |xs| < MaxPoints ==> ys == xs + [x]
    ensures ys[..|ys| - 1] == xs[|xs| + 1 - |ys|..]
  {
    var zs := xs + [x];
    if |zs| > MaxPoints then zs[1..] else zs
  }

  /** The line chart's two module arrays. */
  class LineChart {
    var timeLabels: seq<string>
    var engagementData: seq<real>

    /** The arrays have equal length, at most 30. */
    ghost predicate Valid()
      reads this
    {
      |timeLabels| == |engagementData| <= MaxPoints
    }

    /** Both arrays start empty. */
    constructor ()
      ensures Valid() && timeLabels == [] && engagementData == []
    {
      timeLabels := [];
      engagementData := [];
    }

    /**
     * `updateLineChart`: push the timestamp and the value, then, when there are more than 30
     * labels, shift both arrays.
     */
    method Update(timestamp: string, value: real)
      requires Valid()
      modifies this
      ensures Valid()
      ensures timeLabels == Slide(old(timeLabels), timestamp)
      ensures engagementData == Slide(old(engagementData), value)
    {
      timeLabels := timeLabels + [timestamp];
      engagementData := engagementData + [value];
      if |timeLabels| > MaxPoints {
        timeLabels := timeLabels[1..];
        engagementData := engagementData[1..];
      }
    }
  }

  /** One heatmap cell `{x: timeIndex, y: emotionIndex, v: value}`. */
  datatype Cell = Cell(x: int, y: nat, v: real)

  /** The payload `updateHeatmap` receives; `probs` may be missing. */
  datatype Payload = Payload(probs: Option<map<string, real>>)

  /** The column of cells for time `t`: one per label, in label order, a missing label counting 0. */
  function ColumnCells(t: int, probs: map<string, real>): (cells: seq<Cell>)
    ensures |cells| == |EmotionLabels|
    ensures forall i :: 0 <= i < |cells| ==> cells[i] == Cell(t, i, Get(probs, EmotionLabels[i], 0.0))
  {
    seq(|EmotionLabels|, i requires 0 <= i < |EmotionLabels| => Cell(t, i, Get(probs, EmotionLabels[i], 0.0)))
  }

  /**
   * `heatData.filter(d => d.x >= from)`: exactly the cells at or after column `from`, in their
   * original order.
   */
  function Recent(cells: seq<Cell>, from: int): (r: seq<Cell>)
    ensures forall c :: c in r <==> c in cells && c.x >= from
    ensures IsSubsequence(r, cells)
    decreases |cells|
  {
    if cells == [] then []
    else
      var front, last := cells[..|cells| - 1], cells[|cells| - 1];
      var rest := Recent(front, from);
      assert cells == front + [last];
      assert forall c :: c in cells <==> c in front || c == last;
      if last.x >= from then
        assert (rest + [last])[..|rest|] == rest;
        rest + [last]
      else
        SubsequenceOfLonger(rest, front, last);
        rest
  }

  /** Every sequence is a subsequence of itself. */
  lemma {:induction false} SubsequenceOfItself<T>(a: seq<T>)
    ensures IsSubsequence(a, a)
    decreases |a|
  {
    if a != [] {
      SubsequenceOfItself(a[..|a| - 1]);
    }
  }

  /** Every cell of a column is in that column and in a label row. */
  lemma ColumnCellsPlaced(t: int, probs: map<string, real>)
    ensures forall c :: c in ColumnCells(t, probs) ==> c.x == t && c.y < |EmotionLabels|
  {
    forall c | c in ColumnCells(t, probs)
      ensures c.x == t && c.y < |EmotionLabels|
    {
      var i :| 0 <= i < |ColumnCells(t, probs)| && ColumnCells(t, probs)[i] == c;
    }
  }

  /**
   * Every cell lies in a column before `t` and in a label row, and none is more than 31 columns
   * behind `t`.
   */
  ghost predicate Windowed(cells: seq<Cell>, t: int) {
    forall c :: c in cells ==> 0 <= c.x < t && t - (MaxCols + 1) <= c.x && c.y < |EmotionLabels|
  }

  /**
   * The heatmap's cells after one update at column `t`: the new column pushed, then, once past
   * column 30, only the cells from column `t - 30` on kept.
   */
  function NextCells(cells: seq<Cell>, t: int, probs: map<string, real>): seq<Cell> {
    var pushed := cells + ColumnCells(t, probs);
    if t > MaxCols then Recent(pushed, t - MaxCols) else pushed
  }

  /** An update keeps the heatmap windowed as the column index moves on. */
  lemma {:induction false} NextCellsWindowed(cells: seq<Cell>, t: int, probs: map<string, real>)
    requires t >= 0 && Windowed(cells, t)
    ensures Windowed(NextCells(cells, t, probs), t + 1)
  {
    ColumnCellsPlaced(t, probs);
    var pushed := cells + ColumnCells(t, probs);
    assert forall c :: c in pushed ==> c in cells || c in ColumnCells(t, probs);
  }

  /** The heatmap's module state: its cells and the current column. */
  class Heatmap {
    var heatData: seq<Cell>
    var heatTimeIndex: int

    /** The column index is never negative and the cells are windowed around it. */
    ghost predicate Valid()
      reads this
    {
      heatTimeIndex >= 0 && Windowed(heatData, heatTimeIndex)
    }

    /** No cells, at column 0. */
    constructor ()
      ensures Valid() && heatData == [] && heatTimeIndex == 0
    {
      heatData := [];
      heatTimeIndex := 0;
    }

    /** The `forEach` over the labels: push one cell per label for the current column. */
    method PushColumn(probs: map<string, real>)
      modifies this
      ensures heatData == old(heatData) + ColumnCells(heatTimeIndex, probs)
      ensures heatTimeIndex == old(heatTimeIndex)
    {
      ghost var start := heatData;
      for idx := 0 to |EmotionLabels|
        invariant heatTimeIndex == old(heatTimeIndex)
        invariant heatData == start + ColumnCells(heatTimeIndex, probs)[..idx]
      {
        assert ColumnCells(heatTimeIndex, probs)[..idx + 1] == ColumnCells(heatTimeIndex, probs)[..idx] + [ColumnCells(heatTimeIndex, probs)[idx]];
        heatData := heatData + [Cell(heatTimeIndex, idx, Get(probs, EmotionLabels[idx], 0.0))];
      }
      assert ColumnCells(heatTimeIndex, probs)[..|EmotionLabels|] == ColumnCells(heatTimeIndex, probs);
    }

    /**
     * `updateHeatmap`: without a payload or its probabilities nothing changes; otherwise push the
     * column for the current index, keep only the last 31 columns once past column 30, and move
     * to the next column.
     */
    method Update(payload: Option<Payload>)
      requires Valid()
      modifies this
      ensures Valid()
      ensures payload.None? || payload.value.probs.None? ==>
        heatData == old(heatData) && heatTimeIndex == old(heatTimeIndex)
      ensures payload.Some? && payload.value.probs.Some? ==>
        && heatData == NextCells(old(heatData), old(heatTimeIndex), payload.value.probs.value)
        && heatTimeIndex == old(heatTimeIndex) + 1
    {
      if payload.None? || payload.value.probs.None? {
        return;
      }
      var probs := payload.value.probs.value;
      NextCellsWindowed(heatData, heatTimeIndex, probs);
      PushColumn(probs);
      if heatTimeIndex > MaxCols {
        heatData := Recent(heatData, heatTimeIndex - MaxCols);
      }
      heatTimeIndex := heatTimeIndex + 1;
    }
  }

  /**
   * An update keeps the whole column just pushed, and of the old cells exactly those from column
   * `t - 30` on, in their order.
   */
  lemma {:induction false} NextCellsKeeps(cells: seq<Cell>, t: int, probs: map<string, real>)
    ensures forall c :: c in ColumnCells(t, probs) ==> c in NextCells(cells, t, probs)
    ensures forall c :: c in cells ==> (c in NextCells(cells, t, probs) <==> t <= MaxCols || c.x >= t - MaxCols)
    ensures IsSubsequence(NextCells(cells, t, probs), cells + ColumnCells(t, probs))
  {
    ColumnCellsPlaced(t, probs);
    var pushed := cells + ColumnCells(t, probs);
    assert forall c :: c in pushed <==> c in cells || c in ColumnCells(t, probs);
    if t <= MaxCols {
      SubsequenceOfItself(pushed);
    }
  }
}

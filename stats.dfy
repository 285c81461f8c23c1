/**
 * backend/analysis/stats.py: the summary of a session log, that is the mean, maximum and minimum
 * of the `eng_smooth` column and the label counts of the `emotion` column (`value_counts`, which
 * skips missing labels).
 */
module Stats {
  import opened Wrappers
  import opened Logging

  /** The sum of a column. */
  function Sum(xs: seq<real>): real
    decreases |xs|
  {
    if xs == [] then 0.0 else xs[0] + Sum(xs[1..])
  }

  /** The largest value of a non-empty column: it occurs in the column and bounds every value. */
  function Maximum(xs: seq<real>): (m: real)
    requires |xs| > 0
    ensures exists i :: 0 <= i < |xs| && xs[i] == m
    ensures forall i :: 0 <= i < |xs| ==> xs[i] <= m
    decreases |xs|
  {
    if |xs| == 1 then xs[0]
    else
      var rest := Maximum(xs[1..]);
      assert forall i :: 1 <= i < |xs| ==> xs[i] == xs[1..][i - 1];
      if xs[0] >= rest then xs[0] else rest
  }

  /** The smallest value of a non-empty column: it occurs in the column and bounds every value. */
  function Minimum(xs: seq<real>): (m: real)
    requires |xs| > 0
    ensures exists i :: 0 <= i < |xs| && xs[i] == m
    ensures forall i :: 0 <= i < |xs| ==> m <= xs[i]
    decreases |xs|
  {
    if |xs| == 1 then xs[0]
    else
      var rest := Minimum(xs[1..]);
      assert forall i :: 1 <= i < |xs| ==> xs[i] == xs[1..][i - 1];
      if xs[0] <= rest then xs[0] else rest
  }

  /** A column whose values all lie in `[lo, hi]` sums to between `n * lo` and `n * hi`. */
  lemma {:induction false} SumBetween(xs: seq<real>, lo: real, hi: real)
    requires forall i :: 0 <= i < |xs| ==> lo <= xs[i] <= hi
    ensures (|xs| as real) * lo <= Sum(xs) <= (|xs| as real) * hi
    decreases |xs|
  {
    if xs != [] {
      assert forall i :: 0 <= i < |xs| - 1 ==> xs[1..][i] == xs[i + 1];
      SumBetween(xs[1..], lo, hi);
    }
  }

  /** Dividing by a positive count keeps a total scaled between `lo` and `hi` between them. */
  lemma QuotientBetween(s: real, n: real, lo: real, hi: real)
    requires n > 0.0 && n * lo <= s <= n * hi
    ensures lo <= s / n <= hi
  {
  }

  /** The mean of a non-empty column lies between its minimum and its maximum. */
  function Mean(xs: seq<real>): (m: real)
    requires |xs| > 0
    ensures Minimum(xs) <= m <= Maximum(xs)
  {
    var n, lo, hi, total := |xs| as real, Minimum(xs), Maximum(xs), Sum(xs);
    SumBetween(xs, lo, hi);
    QuotientBetween(total, n, lo, hi);
    total / n
  }

  /** How often each value occurs in `xs` (a `Counter`, or `value_counts` as a dictionary). */
  function Tally<T(==)>(xs: seq<T>): map<T, nat>
    decreases |xs|
  {
    if xs == [] then map[]
    else
      var t := Tally(xs[..|xs| - 1]);
      var x := xs[|xs| - 1];
      t[x := Get(t, x, 0) + 1]
  }

  /** The tally has a key exactly for each value present, and that key's count is its multiplicity. */
  lemma {:induction false} TallyCounts<T>(xs: seq<T>)
    ensures forall x :: x in Tally(xs) <==> x in xs
    ensures forall x :: x in Tally(xs) ==> Tally(xs)[x] == multiset(xs)[x] > 0
    decreases |xs|
  {
    if xs != [] {
      var init, x := xs[..|xs| - 1], xs[|xs| - 1];
      TallyCounts(init);
      assert xs == init + [x];
    }
  }

  /** The distinct values of `xs`, in the order they are first met. */
  function Distinct<T(==)>(xs: seq<T>): seq<T>
    decreases |xs|
  {
    if xs == [] then []
    else
      var init, x := xs[..|xs| - 1], xs[|xs| - 1];
      if x in init then Distinct(init) else Distinct(init) + [x]
  }

  /** `Distinct(xs)` holds each value of `xs` exactly once. */
  lemma {:induction false} DistinctShape<T>(xs: seq<T>)
    ensures forall x :: x in Distinct(xs) <==> x in xs
    ensures forall i, j :: 0 <= i < j < |Distinct(xs)| ==> Distinct(xs)[i] != Distinct(xs)[j]
    decreases |xs|
  {
    if xs != [] {
      var init, x := xs[..|xs| - 1], xs[|xs| - 1];
      DistinctShape(init);
      assert xs == init + [x];
    }
  }

  /** Each listed distinct value occurs in `xs`. */
  lemma DistinctElement<T>(xs: seq<T>, p: nat)
    requires p < |Distinct(xs)|
    ensures Distinct(xs)[p] in xs
  {
    DistinctShape(xs);
    assert Distinct(xs)[p] in Distinct(xs);
  }

  /** The distinct values of a prefix come first among the distinct values of the whole. */
  lemma {:induction false} DistinctPrefix<T>(xs: seq<T>, n: nat)
    requires n <= |xs|
    ensures Distinct(xs[..n]) <= Distinct(xs)
    decreases |xs|
  {
    if n < |xs| {
      var init := xs[..|xs| - 1];
      assert init[..n] == xs[..n];
      DistinctPrefix(init, n);
    } else {
      assert xs[..n] == xs;
    }
  }

  /**
   * First-seen order: every value listed in `Distinct(xs)` no later than `xs[i]` already occurs
   * in `xs[..i + 1]`.
   */
  lemma FirstSeenOrder<T>(xs: seq<T>, i: nat, q: nat)
    requires i < |xs| && q < |Distinct(xs)| && Distinct(xs)[q] == xs[i]
    ensures forall p :: 0 <= p <= q ==> Distinct(xs)[p] in xs[..i + 1]
  {
    var pre := Distinct(xs[..i + 1]);
    DistinctPrefix(xs, i + 1);
    DistinctShape(xs[..i + 1]);
    DistinctShape(xs);
    assert xs[i] in xs[..i + 1];
    var p0 :| 0 <= p0 < |pre| && pre[p0] == xs[i];
    assert Distinct(xs)[p0] == xs[i];
    assert q == p0;
    forall p | 0 <= p <= q
      ensures Distinct(xs)[p] in xs[..i + 1]
    {
      assert Distinct(xs)[p] == pre[p];
      DistinctElement(xs[..i + 1], p);
    }
  }

  /** The counts of `t` summed over `keys`. */
  function SumCounts<T(==)>(t: map<T, nat>, keys: seq<T>): nat
    decreases |keys|
  {
    if keys == [] then 0 else SumCounts(t, keys[..|keys| - 1]) + Get(t, keys[|keys| - 1], 0)
  }

  /** Changing the count of a key that `keys` does not hold leaves the sum alone. */
  lemma {:induction false} SumCountsOther<T>(t: map<T, nat>, keys: seq<T>, x: T, n: nat)
    requires x !in keys
    ensures SumCounts(t[x := n], keys) == SumCounts(t, keys)
    decreases |keys|
  {
    if keys != [] {
      SumCountsOther(t, keys[..|keys| - 1], x, n);
    }
  }

  /** Adding one to the count of a key that `keys` holds once adds one to the sum. */
  lemma {:induction false} SumCountsBump<T>(t: map<T, nat>, keys: seq<T>, x: T)
    requires x in keys
    requires forall i, j :: 0 <= i < j < |keys| ==> keys[i] != keys[j]
    ensures SumCounts(t[x := Get(t, x, 0) + 1], keys) == SumCounts(t, keys) + 1
    decreases |keys|
  {
    var init, last := keys[..|keys| - 1], keys[|keys| - 1];
    if last == x {
      assert forall i :: 0 <= i < |init| ==> init[i] == keys[i] != keys[|keys| - 1];
      SumCountsOther(t, init, x, Get(t, x, 0) + 1);
    } else {
      assert x in init by {
        var i :| 0 <= i < |keys| && keys[i] == x;
        assert i < |keys| - 1 && init[i] == x;
      }
      SumCountsBump(t, init, x);
    }
  }

  /** The counts of a tally, over the distinct values, sum to the number of values counted. */
  lemma {:induction false} TallyTotal<T>(xs: seq<T>)
    ensures SumCounts(Tally(xs), Distinct(xs)) == |xs|
    decreases |xs|
  {
    if xs != [] {
      var init, x := xs[..|xs| - 1], xs[|xs| - 1];
      TallyTotal(init);
      DistinctShape(init);
      TallyCounts(init);
      var t := Tally(init);
      if x in init {
        SumCountsBump(t, Distinct(init), x);
      } else {
        assert x !in t;
        SumCountsOther(t, Distinct(init), x, 1);
        assert Get(t[x := 1], x, 0) == 1;
      }
    }
  }

  /** The `eng_smooth` column of a log. */
  function SmoothColumn(rows: seq<Entry>): (col: seq<real>)
    ensures |col| == |rows|
    ensures forall i :: 0 <= i < |rows| ==> col[i] == rows[i].engSmooth
  {
    seq(|rows|, i requires 0 <= i < |rows| => rows[i].engSmooth)
  }

  /** The `emotion` column of a log; a missing label is an empty cell. */
  function EmotionColumn(rows: seq<Entry>): (col: seq<Option<string>>)
    ensures |col| == |rows|
    ensures forall i :: 0 <= i < |rows| ==> col[i] == rows[i].emotion
  {
    seq(|rows|, i requires 0 <= i < |rows| => rows[i].emotion)
  }

  /** The labels present in a column, in row order: what `value_counts` counts. */
  function Labels(col: seq<Option<string>>): (ls: seq<string>)
    ensures |ls| <= |col|
    decreases |col|
  {
    if col == [] then []
    else Labels(col[..|col| - 1]) + (if col[|col| - 1].Some? then [col[|col| - 1].value] else [])
  }

  /** Each label occurs among the present labels as often as the column holds it. */
  lemma {:induction false} LabelsCounts(col: seq<Option<string>>)
    ensures forall s :: multiset(Labels(col))[s] == multiset(col)[Some(s)]
    decreases |col|
  {
    if col != [] {
      var init, c := col[..|col| - 1], col[|col| - 1];
      LabelsCounts(init);
      assert col == init + [c];
    }
  }

  /** A column with a label in every row yields one label per row. */
  lemma {:induction false} LabelsAllPresent(col: seq<Option<string>>)
    requires forall i :: 0 <= i < |col| ==> col[i].Some?
    ensures |Labels(col)| == |col|
    decreases |col|
  {
    if col != [] {
      var init := col[..|col| - 1];
      assert forall i :: 0 <= i < |init| ==> init[i] == col[i];
      LabelsAllPresent(init);
    }
  }

  /** The result of `compute_stats`. */
  datatype Summary = Summary(avg: real, max: real, min: real, distribution: map<string, nat>)

  /** `compute_stats` over the rows of a log with at least one row. */
  function ComputeStats(rows: seq<Entry>): (s: Summary)
    requires |rows| > 0
    ensures s.min <= s.avg <= s.max
  {
    var col := SmoothColumn(rows);
    Summary(Mean(col), Maximum(col), Minimum(col), Tally(Labels(EmotionColumn(rows))))
  }

  /**
   * The aggregates of `compute_stats`: `max` and `min` are values of the `eng_smooth` column and
   * bound all of it, and `avg` is the column's mean, which lies between them.
   */
  lemma StatsAggregates(rows: seq<Entry>)
    requires |rows| > 0
    ensures ComputeStats(rows).min <= ComputeStats(rows).avg <= ComputeStats(rows).max
    ensures ComputeStats(rows).avg == Sum(SmoothColumn(rows)) / (|rows| as real)
    ensures exists i :: 0 <= i < |rows| && rows[i].engSmooth == ComputeStats(rows).max
    ensures exists i :: 0 <= i < |rows| && rows[i].engSmooth == ComputeStats(rows).min
    ensures forall i :: 0 <= i < |rows| ==> ComputeStats(rows).min <= rows[i].engSmooth <= ComputeStats(rows).max
  {
    var col := SmoothColumn(rows);
    var mx, mn := Maximum(col), Minimum(col);
    assert ComputeStats(rows) == Summary(Mean(col), mx, mn, Tally(Labels(EmotionColumn(rows))));
    var i :| 0 <= i < |col| && col[i] == mx;
    var j :| 0 <= j < |col| && col[j] == mn;
    assert rows[i].engSmooth == mx && rows[j].engSmooth == mn;
    forall k | 0 <= k < |rows|
      ensures mn <= rows[k].engSmooth <= mx
    {
      assert col[k] == rows[k].engSmooth;
    }
  }

  /**
   * The `emotion_distribution` of `compute_stats`: a key for each label some row carries, mapped to
   * the number of rows carrying it.
   */
  lemma DistributionCounts(rows: seq<Entry>)
    requires |rows| > 0
    ensures forall e :: e in ComputeStats(rows).distribution <==> Some(e) in EmotionColumn(rows)
    ensures forall e :: e in ComputeStats(rows).distribution ==>
      ComputeStats(rows).distribution[e] == multiset(EmotionColumn(rows))[Some(e)]
  {
    assert ComputeStats(rows).distribution == Tally(Labels(EmotionColumn(rows)));
    LabelTally(EmotionColumn(rows));
  }

  /** The tally of the present labels has a key for each label in the column, mapped to its multiplicity. */
  lemma LabelTally(col: seq<Option<string>>)
    ensures forall e :: e in Tally(Labels(col)) <==> Some(e) in col
    ensures forall e :: e in Tally(Labels(col)) ==> Tally(Labels(col))[e] == multiset(col)[Some(e)]
  {
    var ls := Labels(col);
    TallyCounts(ls);
    LabelsCounts(col);
    forall e
      ensures e in ls <==> Some(e) in col
    {
      assert e in ls <==> multiset(ls)[e] > 0;
      assert Some(e) in col <==> multiset(col)[Some(e)] > 0;
    }
  }

  /**
   * The counts of `emotion_distribution`, over its labels in first-seen order, sum to the number of
   * rows with a label.
   */
  lemma DistributionTotal(rows: seq<Entry>)
    requires |rows| > 0
    ensures SumCounts(ComputeStats(rows).distribution, Distinct(Labels(EmotionColumn(rows))))
            == |Labels(EmotionColumn(rows))|
  {
    assert ComputeStats(rows).distribution == Tally(Labels(EmotionColumn(rows)));
    TallyTotal(Labels(EmotionColumn(rows)));
  }

  /** When every row has a label, the counts of `emotion_distribution` sum to the row count. */
  lemma DistributionCoversRows(rows: seq<Entry>)
    requires |rows| > 0
    requires forall i :: 0 <= i < |rows| ==> rows[i].emotion.Some?
    ensures SumCounts(ComputeStats(rows).distribution, Distinct(Labels(EmotionColumn(rows)))) == |rows|
  {
    var col := EmotionColumn(rows);
    DistributionTotal(rows);
    assert forall i :: 0 <= i < |col| ==> col[i] == rows[i].emotion;
    LabelsAllPresent(col);
  }
}

/** The combine step of the gauge panel: a `reduce` without an initial
    value over the processed series, followed by averaging `avg`. */
module SeriesAggregator {
  import opened GaugeTypes

  /** Adds the four additive statistics of `b` onto `a`; every other
      statistic keeps the value it has in `a`. Note that `min` and `max`
      are summed, not compared. */
  function AddStats(a: Stats, b: Stats): Stats {
    a.(total := a.total + b.total, min := a.min + b.min, max := a.max + b.max, avg := a.avg + b.avg)
  }

  /** The reducer: accumulate into the running statistics and relabel.
      The spread of the first series contributes nothing else here,
      because a series is only its label and statistics. */
  function Step(acc: Series, cur: Series): Series {
    Series(CombinedLabel, AddStats(acc.stats, cur.stats))
  }

  /** `reduce` without an initial value, from accumulator `acc` over the
      remaining elements, left to right. */
  function Reduce(acc: Series, rest: seq<Series>): Series
    decreases |rest|
  {
    if |rest| == 0 then acc else Reduce(Step(acc, rest[0]), rest[1..])
  }

  /** Reference definition: the sum of one statistic over a list of series. */
  function Sum(ts: seq<Series>, f: StatField): real
    decreases |ts|
  {
    if |ts| == 0 then 0.0 else Field(ts[0].stats, f) + Sum(ts[1..], f)
  }

  /** The fold adds every remaining series' statistics onto the accumulator,
      keeps the accumulator's other statistics, and relabels exactly when
      the reducer ran at least once. */
  lemma {:induction false} ReduceSums(acc: Series, rest: seq<Series>)
    ensures forall f :: Field(Reduce(acc, rest).stats, f) == Field(acc.stats, f) + Sum(rest, f)
    ensures Reduce(acc, rest).stats.others == acc.stats.others
    ensures Reduce(acc, rest).name == if |rest| == 0 then acc.name else CombinedLabel
    decreases |rest|
  {
    if |rest| > 0 {
      ReduceSums(Step(acc, rest[0]), rest[1..]);
    }
  }

  /** Combines a non-empty list of series into a one-element list. The
      caller must not pass an empty list: `reduce` without an initial value
      throws on one. */
  function Combine(ts: seq<Series>): (r: seq<Series>)
    requires |ts| > 0
    ensures |r| == 1
    ensures r[0].stats.total == Sum(ts, Total)
    ensures r[0].stats.min == Sum(ts, Min)
    ensures r[0].stats.max == Sum(ts, Max)
    ensures r[0].stats.avg == Sum(ts, Avg) / |ts| as real
    ensures r[0].stats.others == ts[0].stats.others
    ensures |ts| >= 2 ==> r[0].name == CombinedLabel
    ensures |ts| == 1 ==> r == ts
  {
    var combined := Reduce(ts[0], ts[1..]);
    ReduceSums(ts[0], ts[1..]);
    [combined.(stats := combined.stats.(avg := combined.stats.avg / |ts| as real))]
  }

  /** Combining an already combined list changes nothing. */
  lemma CombineIdempotent(ts: seq<Series>)
    requires |ts| > 0
    ensures Combine(Combine(ts)) == Combine(ts)
  {
  }

  /** Appending a series to a list adds one more term to each sum. */
  lemma {:induction false} SumAppend(ts: seq<Series>, s: Series, f: StatField)
    ensures Sum(ts + [s], f) == Sum(ts, f) + Field(s.stats, f)
    decreases |ts|
  {
    if |ts| > 0 {
      assert (ts + [s])[1..] == ts[1..] + [s];
      SumAppend(ts[1..], s, f);
    }
  }

  /** Folding one more series into a combination: `total`, `min` and `max`
      grow by that series' values, the average becomes the weighted mean of
      the old average and the new series' `avg`, the other statistics stay
      those of the first series, and the label is the combined one. */
  lemma CombineAppend(ts: seq<Series>, s: Series)
    requires |ts| > 0
    ensures var c := Combine(ts)[0]; var d := Combine(ts + [s])[0];
      && d.stats.total == c.stats.total + s.stats.total
      && d.stats.min == c.stats.min + s.stats.min
      && d.stats.max == c.stats.max + s.stats.max
      && d.stats.avg * (|ts| + 1) as real == c.stats.avg * |ts| as real + s.stats.avg
      && d.stats.others == c.stats.others
      && d.name == CombinedLabel
  {
    SumAppend(ts, s, Total);
    SumAppend(ts, s, Min);
    SumAppend(ts, s, Max);
    SumAppend(ts, s, Avg);
    assert (ts + [s])[0] == ts[0];
  }

  /** Two series `{total:1, min:2, max:3, avg:4}` and
      `{total:5, min:6, max:7, avg:8}` combine to `{total:6, min:8, max:10, avg:6}`. */
  lemma CombineTwoExample(a: string, b: string, others: map<string, real>)
    ensures var r := Combine([Series(a, Stats(1.0, 2.0, 3.0, 4.0, others)), Series(b, Stats(5.0, 6.0, 7.0, 8.0, map[]))]);
      r == [Series(CombinedLabel, Stats(6.0, 8.0, 10.0, 6.0, others))]
  {
    var ts := [Series(a, Stats(1.0, 2.0, 3.0, 4.0, others)), Series(b, Stats(5.0, 6.0, 7.0, 8.0, map[]))];
    assert ts[1..][1..] == [];
    forall f ensures Sum(ts, f) == Field(ts[0].stats, f) + Field(ts[1].stats, f) {
      assert Sum(ts[1..], f) == Field(ts[1].stats, f) + Sum(ts[1..][1..], f);
    }
    var r := Combine(ts);
    assert r[0].stats == Stats(6.0, 8.0, 10.0, 6.0, others);
  }
}

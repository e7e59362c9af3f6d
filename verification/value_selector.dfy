/** Choosing the number a gauge shows: a named statistic of a series, or
    the first positive cell of a table's first row. */
module ValueSelector {
  import opened GaugeTypes

  /** The statistics as the JavaScript object the panel indexes: the other
      statistics with the four named ones written over them. */
  function StatsObject(s: Stats): map<string, real> {
    s.others["total" := s.total]["min" := s.min]["max" := s.max]["avg" := s.avg]
  }

  /** `stats[key]`: the four named statistics first, then the other keys;
      a key the series does not carry reads as `undefined`. */
  function StatValue(s: Stats, key: string): (v: Option<real>)
    ensures v == if key in StatsObject(s) then Some(StatsObject(s)[key]) else None
    ensures v.None? <==> key !in {"total", "min", "max", "avg"} && key !in s.others
    ensures key == "total" ==> v == Some(s.total)
    ensures key == "min" ==> v == Some(s.min)
    ensures key == "max" ==> v == Some(s.max)
    ensures key == "avg" ==> v == Some(s.avg)
    ensures key !in {"total", "min", "max", "avg"} && key in s.others ==> v == Some(s.others[key])
  {
    if key == "total" then Some(s.total)
    else if key == "min" then Some(s.min)
    else if key == "max" then Some(s.max)
    else if key == "avg" then Some(s.avg)
    else if key in s.others then Some(s.others[key])
    else None
  }

  /** `i` is the index of the first strictly positive cell of `row`. */
  predicate IsFirstPositive(row: Row, i: int) {
    && 0 <= i < |row|
    && row[i] > 0.0
    && forall j :: 0 <= j < i ==> row[j] <= 0.0
  }

  /** `row.find(prop => prop > 0)`: the first strictly positive cell, or
      `undefined` when every cell is zero or negative. */
  function FirstPositive(row: Row): (r: Option<real>)
    ensures r.None? <==> forall i :: 0 <= i < |row| ==> row[i] <= 0.0
    ensures r.Some? ==> exists i :: IsFirstPositive(row, i) && row[i] == r.value
    decreases |row|
  {
    if |row| == 0 then None
    else if row[0] > 0.0 then
      assert IsFirstPositive(row, 0);
      Some(row[0])
    else
      var r := FirstPositive(row[1..]);
      assert forall i :: 1 <= i < |row| ==> row[i] == row[1..][i - 1];
      assert r.Some? ==> exists i :: IsFirstPositive(row[1..], i) && row[1..][i] == r.value;
      assert forall i :: IsFirstPositive(row[1..], i) ==> IsFirstPositive(row, i + 1);
      r
  }

  /** The first row `[0, -1, 5]` gives 5; the first row `[0, 0]` gives
      `undefined`. */
  lemma TableScanExample()
    ensures FirstPositive([0.0, -1.0, 5.0]) == Some(5.0)
    ensures FirstPositive([0.0, 0.0]) == None
  {
  }
}

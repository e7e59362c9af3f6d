/** The render dispatch of the gauge panel: which path a payload takes,
    and the gauges each path asks the drawing primitive for. */
module GaugeCompositor {
  import opened GaugeTypes
  import opened SeriesAggregator
  import opened LayoutEngine
  import opened ValueSelector

  /** One gauge showing `value` at the given size; prefix and suffix go
      through the same interpolation for every gauge. */
  function MakeGauge(value: Option<real>, opts: GaugeOptions, width: int, height: int, interpolate: string -> string): Gauge {
    Gauge(value, width, height, interpolate(opts.prefix), interpolate(opts.suffix))
  }

  /** The list the multi-gauge path draws: the one combined series in
      combine mode, the processed series otherwise. */
  function Displayed(ts: seq<Series>, opts: GaugeOptions): (d: seq<Series>)
    requires |ts| > 0
    ensures |d| > 0
  {
    if CombineMode(opts) then Combine(ts) else ts
  }

  /** The multi-gauge path: one captioned cell per displayed series, in
      order, every cell sized by the layout for the displayed count. */
  function MultipleGauges(ts: seq<Series>, opts: GaugeOptions, width: nat, height: nat, interpolate: string -> string): (r: seq<Cell>)
    requires |ts| > 0
    ensures CombineMode(opts) ==>
      && |r| == 1
      && r[0].caption == Some(Combine(ts)[0].name)
      && r[0].gauge.value == StatValue(Combine(ts)[0].stats, opts.stat)
    ensures !CombineMode(opts) ==>
      && |r| == |ts|
      && forall i :: 0 <= i < |r| ==> r[i].caption == Some(ts[i].name) && r[i].gauge.value == StatValue(ts[i].stats, opts.stat)
    ensures forall i :: 0 <= i < |r| ==>
      && r[i].gauge.prefix == interpolate(opts.prefix)
      && r[i].gauge.suffix == interpolate(opts.suffix)
      && Tile(r[i].style, r[i].gauge.width, r[i].gauge.height) == TileFor(width, height, |r|)
  {
    var shown := Displayed(ts, opts);
    var t := TileFor(width, height, |shown|);
    seq(|shown|, i requires 0 <= i < |shown| =>
      Cell(t.style, MakeGauge(StatValue(shown[i].stats, opts.stat), opts, t.width, t.height, interpolate), Some(shown[i].name)))
  }

  /** A full-size, unstyled, uncaptioned cell, as drawn for a single series
      and for table data. */
  function FullSizeCell(value: Option<real>, opts: GaugeOptions, width: nat, height: nat, interpolate: string -> string): Cell {
    Cell(NoStyle, MakeGauge(value, opts, width, height, interpolate), None)
  }

  /** `c` is an unstyled, uncaptioned cell whose gauge fills the panel. */
  predicate FullSize(c: Cell, width: nat, height: nat) {
    c.style == NoStyle && c.caption.None? && c.gauge.width == width && c.gauge.height == height
  }

  /** Renders one payload. `process` is the external time-series
      normalisation, `interpolate` the external template interpolation. */
  function RenderPanel<Raw>(data: PanelData<Raw>, opts: GaugeOptions, width: nat, height: nat,
                            process: seq<Raw> -> seq<Series>, interpolate: string -> string): (r: Rendered)
    ensures r.Nothing? <==> data.timeSeries.Some? && |process(data.timeSeries.value)| == 0
    ensures r.Message? <==> data.timeSeries.None? && data.tableData.None?
    ensures r.Message? ==> r.text == NoDataText
    ensures r.TypeError? <==> data.timeSeries.None? && data.tableData.Some? && |data.tableData.value.rows| == 0
    ensures data.timeSeries.Some? && |process(data.timeSeries.value)| > 1 ==>
      r == Cells(MultipleGauges(process(data.timeSeries.value), opts, width, height, interpolate))
    ensures data.timeSeries.Some? && |process(data.timeSeries.value)| == 1 ==>
      && r.Cells? && |r.cells| == 1 && FullSize(r.cells[0], width, height)
      && r.cells[0].gauge.value == StatValue(process(data.timeSeries.value)[0].stats, opts.stat)
    ensures data.timeSeries.None? && data.tableData.Some? && |data.tableData.value.rows| > 0 ==>
      && r.Cells? && |r.cells| == 1 && FullSize(r.cells[0], width, height)
      && r.cells[0].gauge.value == FirstPositive(data.tableData.value.rows[0])
    ensures r.Cells? ==> forall i :: 0 <= i < |r.cells| ==>
      r.cells[i].gauge.prefix == interpolate(opts.prefix) && r.cells[i].gauge.suffix == interpolate(opts.suffix)
  {
    match data.timeSeries
    case Some(raw) =>
      var ts := process(raw);
      if |ts| > 1 then Cells(MultipleGauges(ts, opts, width, height, interpolate))
      else if |ts| > 0 then Cells([FullSizeCell(StatValue(ts[0].stats, opts.stat), opts, width, height, interpolate)])
      else Nothing
    case None =>
      match data.tableData
      case Some(table) =>
        if |table.rows| == 0 then TypeError
        else Cells([FullSizeCell(FirstPositive(table.rows[0]), opts, width, height, interpolate)])
      case None => Message(NoDataText)
  }

  /** The single-series path skips the layout: in either mode, its cell
      equals the one the multi-gauge path would draw for that series alone,
      without the caption, on a square panel, and on a non-square panel it is larger by
      exactly the margin along the longer side and otherwise the same. */
  lemma SingleGaugeSkipsLayout(s: Series, opts: GaugeOptions, width: nat, height: nat, interpolate: string -> string)
    ensures var single := FullSizeCell(StatValue(s.stats, opts.stat), opts, width, height, interpolate);
      var multi := MultipleGauges([s], opts, width, height, interpolate)[0];
      && multi.caption == Some(s.name)
      && single.gauge.value == multi.gauge.value
      && single.gauge.prefix == multi.gauge.prefix && single.gauge.suffix == multi.gauge.suffix
      && (width == height ==> single == multi.(caption := None))
      && (width > height ==> single.gauge.width == multi.gauge.width + Margin && single.gauge.height == multi.gauge.height)
      && (height > width ==> single.gauge.height == multi.gauge.height + Margin && single.gauge.width == multi.gauge.width)
  {
  }

  /** Time-series data takes priority: when it is present, the table data
      has no effect on what is rendered. */
  lemma TimeSeriesTakesPriority<Raw>(raw: seq<Raw>, t1: Option<Table>, t2: Option<Table>, opts: GaugeOptions,
                                     width: nat, height: nat, process: seq<Raw> -> seq<Series>, interpolate: string -> string)
    ensures RenderPanel(PanelData(Some(raw), t1), opts, width, height, process, interpolate)
         == RenderPanel(PanelData(Some(raw), t2), opts, width, height, process, interpolate)
  {
  }

  /** How many gauges a render draws: one per processed series when there
      are several and they are not combined, otherwise exactly one. */
  lemma GaugeCount<Raw>(data: PanelData<Raw>, opts: GaugeOptions, width: nat, height: nat,
                        process: seq<Raw> -> seq<Series>, interpolate: string -> string)
    ensures var r := RenderPanel(data, opts, width, height, process, interpolate);
      r.Cells? ==>
        if data.timeSeries.Some? && |process(data.timeSeries.value)| > 1 && !CombineMode(opts)
        then |r.cells| == |process(data.timeSeries.value)|
        else |r.cells| == 1
  {
  }

  /** In combine mode with several series the panel draws one captioned
      gauge of the combined statistics, and on a non-square panel that
      gauge loses the margin along the longer side. */
  lemma CombinedRender<Raw>(raw: seq<Raw>, t: Option<Table>, opts: GaugeOptions, width: nat, height: nat,
                            process: seq<Raw> -> seq<Series>, interpolate: string -> string)
    requires CombineMode(opts) && |process(raw)| > 1
    ensures var r := RenderPanel(PanelData(Some(raw), t), opts, width, height, process, interpolate);
      && r.Cells? && |r.cells| == 1
      && r.cells[0].caption == Some(CombinedLabel)
      && (width > height ==> r.cells[0].gauge.width == width - Margin && r.cells[0].gauge.height == height)
      && (height > width ==> r.cells[0].gauge.height == height - Margin && r.cells[0].gauge.width == width)
      && (width == height ==> r.cells[0].gauge.width == width && r.cells[0].gauge.height == height)
  {
    SingleTile(width, height);
  }

  /** A table payload renders its first row's first positive cell at full
      panel size; rows after the first are never looked at. */
  lemma TableRenderUsesFirstRow<Raw>(t: Table, u: Table, opts: GaugeOptions, width: nat, height: nat,
                                     process: seq<Raw> -> seq<Series>, interpolate: string -> string)
    requires |t.rows| > 0 && |u.rows| > 0 && t.rows[0] == u.rows[0]
    ensures RenderPanel(PanelData(None, Some(t)), opts, width, height, process, interpolate)
         == RenderPanel(PanelData(None, Some(u)), opts, width, height, process, interpolate)
  {
  }
}

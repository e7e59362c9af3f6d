/** Data model of the gauge panel: the per-series summaries it receives,
    the panel payload, the panel options, and the placements it hands to
    the gauge drawing primitive. */
module GaugeTypes {

  /** A value that may be missing. `None` stands for JavaScript's
      `undefined`: the value of a stat key a series does not carry, or the
      result of a table scan that finds nothing. */
  datatype Option<+T> = None | Some(value: T)

  /** Summary statistics of one series. The four named statistics are the
      ones the combine step adds up; every other statistic key the series
      carries (`current`, `first`, `delta`, ...) lives in `others`. */
  datatype Stats = Stats(total: real, min: real, max: real, avg: real, others: map<string, real>)

  /** The four statistics the combine step treats as additive. */
  datatype StatField = Total | Min | Max | Avg

  function Field(s: Stats, f: StatField): real {
    match f
    case Total => s.total
    case Min => s.min
    case Max => s.max
    case Avg => s.avg
  }

  /** One processed time series: its label (`name`, since `label` is a
      Dafny keyword) and its statistics. */
  datatype Series = Series(name: string, stats: Stats)

  /** The options the panel reads; the visual pass-through options are
      opaque here and left out. */
  datatype GaugeOptions = GaugeOptions(stat: string, multiSeriesMode: string, prefix: string, suffix: string)

  predicate CombineMode(opts: GaugeOptions) {
    opts.multiSeriesMode == "combine"
  }

  /** A table row; only numeric cells are modelled. */
  type Row = seq<real>

  datatype Table = Table(rows: seq<Row>)

  /** The payload of one render. Both fields are optional and both may be
      set; the panel looks at `timeSeries` first. `Raw` is the unprocessed
      series type, which only the external normalisation step reads. */
  datatype PanelData<Raw> = PanelData(timeSeries: Option<seq<Raw>>, tableData: Option<Table>)

  /** Style of the wrapper `div` of one gauge in the multi-gauge path:
      a horizontal cell keeps the full panel height in pixels and takes a
      percentage of the width; a vertical cell is the transpose; `NoStyle`
      is the empty style object. */
  datatype Style =
    | Horizontal(rowHeight: nat, widthPercent: real)
    | Vertical(columnWidth: nat, heightPercent: real)
    | NoStyle

  /** The arguments the panel passes to the gauge drawing primitive.
      Sizes are `int`: subtracting the margin can make them negative. */
  datatype Gauge = Gauge(value: Option<real>, width: int, height: int, prefix: string, suffix: string)

  /** One `singlestat-panel` wrapper: its style, the gauge inside it, and
      the caption below the gauge (only the multi-gauge path has one). */
  datatype Cell = Cell(style: Style, gauge: Gauge, caption: Option<string>)

  /** What one render produces: `null`, the no-data message, a sequence of
      gauge cells, or the `TypeError` thrown when a table has no rows. */
  datatype Rendered =
    | Nothing
    | Message(text: string)
    | Cells(cells: seq<Cell>)
    | TypeError

  const CombinedLabel: string := "Combined time series"

  const NoDataText: string := "No time series data available"

  /** Pixels taken off the divided dimension so adjacent gauges do not touch. */
  const Margin: int := 10
}

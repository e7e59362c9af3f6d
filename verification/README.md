# Gauge panel core

A Dafny model of the decision and arithmetic core of the dashboard gauge
panel (`GaugePanel`): how it combines several time series into one, how it
sizes and arranges several gauges in one panel, which number it shows for
a table payload, and which of its render paths a payload takes.

The model is functional. A render is the pure function
`GaugeCompositor.RenderPanel` from a payload, the panel options, the panel
size, the external time-series normalisation (`process`) and the external
template interpolation (`interpolate`) to a `Rendered` value: `null`, the
no-data message, a sequence of gauge cells, or the `TypeError` the panel
throws on a table without rows.

Modules, one per component of the panel:

- `GaugeTypes` (`types.dfy`): series, statistics, options, payload, cell
  styles, gauge arguments and render results.
- `SeriesAggregator` (`aggregate.dfy`): the combine step, with `reduce`
  modelled as a left fold and a reference sum to check it against.
- `LayoutEngine` (`layout.dfy`): tile size and cell style for `n` gauges.
- `ValueSelector` (`value_selector.dfy`): statistic lookup and the
  first-positive scan of a table row.
- `GaugeCompositor` (`compositor.dfy`): the multi-gauge path, the
  single-gauge and table paths, and the render dispatch. The helper
  `Displayed` chooses the list the multi-gauge path draws (the combined
  series in combine mode, the processed series otherwise), `MakeGauge`
  builds the arguments `renderGauge` passes to the drawing primitive, and
  `FullSizeCell` builds the unstyled wrapper of the single-series and
  table paths; their outputs are described by the contracts of
  `MultipleGauges` and `RenderPanel`.

Behaviour of the code that a reader might not expect, and that the model
keeps:

- A single series passed to the combine step keeps its own label, because
  `reduce` without an initial value never runs its callback on a
  one-element list (GaugePanel.tsx:19).
- A single gauge in the multi-gauge path (combine mode) still loses the
  10-pixel margin on a non-square panel (`LayoutEngine.SingleTile`,
  GaugePanel.tsx:44-45 and 63-68).
- The table path scans only the first row (GaugePanel.tsx:102).
- A table with no rows makes the panel throw, because `rows[0]` is
  `undefined` (GaugePanel.tsx:102). This is modelled as the `TypeError`
  result.
- A first row with no positive cell gives the gauge an `undefined` value
  (GaugePanel.tsx:102). This is modelled as `None`.

## Model

| member | source | states |
|---|---|---|
| SeriesAggregator.ReduceSums | public/app/plugins/panel/gauge/GaugePanel.tsx:19-27 | folding the reducer over the remaining series adds their `total`, `min`, `max` and `avg` to the accumulator's (summed, not compared), keeps the accumulator's other statistics, and relabels to `Combined time series` exactly when at least one element was folded |
| SeriesAggregator.Combine | public/app/plugins/panel/gauge/GaugePanel.tsx:18-32 | a non-empty list combines into exactly one series whose `total`, `min` and `max` are the sums over the inputs, whose `avg` is the sum of the averages divided by the input count, whose other statistics are the first series'; two or more inputs give the label `Combined time series`; one input comes back unchanged |
| SeriesAggregator.CombineIdempotent | public/app/plugins/panel/gauge/GaugePanel.tsx:18-32 | combining an already combined list changes nothing |
| SeriesAggregator.CombineAppend | public/app/plugins/panel/gauge/GaugePanel.tsx:19-29 | combining one more series adds its `total`, `min` and `max` to the combined ones, makes the combined `avg` the count-weighted mean of the previous combined `avg` and the new series' `avg`, keeps the first series' other statistics, and always gives the combined label |
| SeriesAggregator.CombineTwoExample | public/app/plugins/panel/gauge/GaugePanel.tsx:19-31 | stats `{1,2,3,4}` and `{5,6,7,8}` (total, min, max, avg) combine to `{6,8,10,6}` under the combined label |
| LayoutEngine.TileFor | public/app/plugins/panel/gauge/GaugePanel.tsx:42-69 | on a wide panel every gauge is full height in a cell of `100/n` percent of the width, and `n` gauges of its width plus the margin fit the panel width with less than `n` pixels left over (width is `floor(width/n) - 10`); a tall panel is the transpose; a square panel gives full width, full height and an empty style |
| LayoutEngine.HorizontalWidthNonNegative | public/app/plugins/panel/gauge/GaugePanel.tsx:44-65 | on a wide panel the gauge width is non-negative if and only if the panel is at least `10·n` pixels wide |
| LayoutEngine.VerticalHeightNonNegative | public/app/plugins/panel/gauge/GaugePanel.tsx:45-68 | on a tall panel the gauge height is non-negative if and only if the panel is at least `10·n` pixels tall |
| LayoutEngine.SingleTile | public/app/plugins/panel/gauge/GaugePanel.tsx:42-69 | with one gauge, a non-square panel still takes the margin off the longer side and uses a 100 percent cell; only a square panel gives the full size |
| LayoutEngine.ThreeGaugeExample | public/app/plugins/panel/gauge/GaugePanel.tsx:42-69 | three gauges on 300×100 are 90×100 side by side; on 100×300 they are 100×90 stacked |
| ValueSelector.StatValue | public/app/plugins/panel/gauge/GaugePanel.tsx:73 | `stats[stat]` is the lookup of the key in the statistics object (the other statistics with `total`, `min`, `max` and `avg` written over them), and `undefined` exactly when the object has no such key |
| ValueSelector.FirstPositive | public/app/plugins/panel/gauge/GaugePanel.tsx:102 | the scan returns `undefined` exactly when no cell is positive, and otherwise the value of a positive cell with no positive cell before it |
| ValueSelector.TableScanExample | public/app/plugins/panel/gauge/GaugePanel.tsx:102 | the row `[0, -1, 5]` gives 5 and the row `[0, 0]` gives `undefined` |
| GaugeCompositor.MultipleGauges | public/app/plugins/panel/gauge/GaugePanel.tsx:34-78 | combine mode draws exactly one gauge, captioned and valued from the combined series; otherwise one gauge per series in input order, captioned with its label and showing its configured statistic; every gauge has the same interpolated prefix and suffix and the tile the layout gives for the drawn count |
| GaugeCompositor.RenderPanel | public/app/plugins/panel/gauge/GaugePanel.tsx:90-128 | `null` exactly when time series are present but none survive processing; the no-data message exactly when neither payload is present; a thrown error exactly when only a table without rows is present; more than one series goes to the multi-gauge path; one series gives one full-size gauge of its configured statistic; a table gives one full-size gauge of the first positive cell of its first row; every gauge gets the interpolated prefix and suffix |
| GaugeCompositor.SingleGaugeSkipsLayout | public/app/plugins/panel/gauge/GaugePanel.tsx:90-98 | the one-series gauge shows the same value with the same prefix and suffix as the multi-gauge path would for that series; on a square panel the cells are equal apart from the caption, on a non-square panel the single gauge is larger by exactly the 10-pixel margin along the longer side |
| GaugeCompositor.TimeSeriesTakesPriority | public/app/plugins/panel/gauge/GaugePanel.tsx:110-124 | when time series are present, the table payload has no effect on the render |
| GaugeCompositor.GaugeCount | public/app/plugins/panel/gauge/GaugePanel.tsx:37-41 | a render that draws gauges draws one per processed series when there are several and they are not combined, and exactly one otherwise |
| GaugeCompositor.CombinedRender | public/app/plugins/panel/gauge/GaugePanel.tsx:37-69 | combine mode with several series draws one gauge captioned `Combined time series`, losing the margin along the longer side of a non-square panel |
| GaugeCompositor.TableRenderUsesFirstRow | public/app/plugins/panel/gauge/GaugePanel.tsx:100-105 | two tables with the same first row render the same, whatever their later rows |

## Left out

- React and JSX construction, the component class, the theme provider and the theme handle: UI plumbing with no effect on the values computed. A cell stands for one `singlestat-panel` wrapper; the single-gauge and table wrappers, which carry no style attribute, are modelled with the empty style.
- The drawing primitive `Gauge` and the visual options spread into it: external component; the model records only the value, size, prefix and suffix it is given.
- The time-series normalisation (`processTimeSeries` with its null-value mode): external library, taken as the function parameter `process`.
- The template interpolation of prefix and suffix: external, taken as the function parameter `interpolate` and applied the same way for every gauge.
- The React `key` of each multi-gauge cell: it reads `label` of an array and is not observable output.
- The in-place mutation of the first series' statistics by the reducer: only the returned value is modelled.
- Series properties other than label and statistics, which the reducer copies from the first series: the model's series carry only those two.
- Floating-point arithmetic: statistics and percentages are `real`, panel sizes are `nat`, gauge sizes `int` so that a negative size after the margin is representable.
- Table cells that are not numbers, and JavaScript's coercion when comparing them with 0: cells are `real`.
- Calling the combine step on an empty list, which throws in `reduce`: the panel never does it, and `SeriesAggregator.Combine` requires a non-empty list.

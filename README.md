# prawn-graph chart geometry, modelled in Dafny

prawn-graph draws bar and line charts onto a Prawn::Document. A chart takes
an Array of series, each a list of `[heading, value]` pairs. The shared base
(`Prawn::Chart::Base`) turns them into:

- the headings, merged across all series;
- one Hash per series;
- the value axis, with its lowest and highest values and an optional transform;
- a `Prawn::Chart::Grid` placed inside margins kept for the title and the axis labels.

The grid strokes its gridlines and axes. The base writes the value labels up
the Y axis and the heading boxes along the X axis. `Prawn::Chart::Bar` then
draws one stroked bar per present value, with an optional value label in a
masked white box. `Prawn::Chart::Line` instead joins neighbouring present
values with segments and rings each present value with a filled and a
stroked circle.

The model keeps the document as an instruction log (`Surface.Document`). The
surface state of cursor, line width, stroke colour, fill colour and fill
mask follows from that log by `Surface.Run`. Every drawing method is
specified by the log it appends, which is a function of the chart's data.
The properties are proved about those functions.

| Dafny file | models |
|---|---|
| `wrappers.dfy` | `Option`, `Result` |
| `chart_data.dfy` | `process_the`: series, headings, the greatest value |
| `ruby_input.dfy` | the input as Ruby objects, and the wrapping test `process_the` applies to it first |
| `scale.dfy` | the base's arithmetic helpers: point fraction and height, plot spacing, bar width, axis centring; Ruby's `Integer#/` and `BigDecimal#to_i` |
| `surface.dfy` | the document calls the charts make, the theme and its `next_colour` |
| `grid.dfy` | `Grid#initialize`, `Grid#draw` |
| `base.dfy` | `Base#initialize`, `parse_sizing_from`, `label_axes` |
| `bar.dfy` | `Bar#calculate_plot_spacing`, `Bar#plot_values` |
| `line.dfy` | `Line#plot_values` |

Ruby's semantics are written out:

- `Integer#/` floors (`Scale.FloorDiv`).
- `BigDecimal#to_i` truncates toward zero (`Scale.Trunc`).
- BigDecimal arithmetic is exact real arithmetic.
- A Hash lookup of a missing heading is `nil`, and only a present numeric value is truthy.
- A division by a zero Integer raises `ZeroDivisionError`. Each place the code can divide by zero becomes a precondition or an error result, as listed below.

## Model

| member | source | states |
|---|---|---|
| `ChartData.ProcessThe` | lib/prawn/graph/base.rb:210-229 | Returns one Hash per series (the data is wrapped in an Array when its first element is not one), with the merged headings and the greatest value. That value is at least 0 and at least every present value. |
| `ChartData.Wrap` | lib/prawn/graph/base.rb:214 | Empty data becomes one empty series. Other data is kept as it is. |
| `RubyInput.ModelInputWrapped` | lib/prawn/graph/base.rb:214 | On a list of series written as Ruby Arrays, the test as written and the intended test both do what `ChartData.Wrap` does. |
| `RubyInput.AsWrittenSplitsBareSeries` | lib/prawn/graph/base.rb:214 | As written, the documented bare list of rows is not wrapped, so each row is taken for a series. |
| `RubyInput.IntendedReadsBareSeries` | lib/prawn/graph/base.rb:214-220 | Under the intended test, a bare list of rows becomes the one-series input, and its greatest value is the model's `DataMax`. |
| `RubyInput.IntendedReadsModelInput` | lib/prawn/graph/base.rb:214-220 | On a list of series, reading the Ruby objects raises nowhere and finds the model's greatest value, under either test. |
| `RubyInput.DocumentedFormatRaises` | lib/prawn/graph/base.rb:214-220 | `[['ab', 5]]` raises as written, because `'ab'[1]` is compared with 0. The intended test reads it as one series with greatest value 5. |
| `ChartData.GreatestBounds` | lib/prawn/graph/base.rb:213-221 | The greatest value bounds every present value from above. It is either the starting 0 or one of the values. |
| `ChartData.ToMapLastWins` | lib/prawn/graph/base.rb:216-219 | When a heading repeats within a series, the Hash keeps the value of its last occurrence. |
| `ChartData.ToMapKeys` | lib/prawn/graph/base.rb:216-220 | The keys of a series' Hash are exactly its column headings. |
| `ChartData.CompactMembers` | lib/prawn/graph/base.rb:226 | `compact` keeps exactly the non-nil headings. |
| `ChartData.DedupMembers` | lib/prawn/graph/base.rb:226 | `uniq` leaves no duplicates and keeps every heading. |
| `ChartData.DedupOrder` | lib/prawn/graph/base.rb:226 | `uniq` keeps headings in the order of their first occurrence. |
| `ChartData.CompactOrder` | lib/prawn/graph/base.rb:226 | `compact` keeps the relative order of the headings it keeps. |
| `ChartData.ZipRowsMembers` | lib/prawn/graph/base.rb:226 | The rows of `zip` hold exactly the non-nil headings at positions below the row count. |
| `ChartData.InsertSorted` | lib/prawn/graph/base.rb:227 | Inserting a new numeric heading into a strictly ascending list gives a strictly ascending list with one more element and the same members plus the new one. |
| `ChartData.SortSorted` | lib/prawn/graph/base.rb:227 | `sort` of distinct comparable headings is strictly ascending and is a permutation of its input. |
| `ChartData.MergedHeadings` | lib/prawn/graph/base.rb:226-227 | The merged headings have no nil and no duplicate. They are exactly the headings found at a position the first series reaches, and every heading of the first series is among them. They are ascending when all are comparable non-strings; otherwise they keep the interleaved first-occurrence order. |
| `ChartData.InterleavedNotAppended` | lib/prawn/graph/base.rb:226 | `[a,b]` and `[c,d,e]` merge to `[a,c,b,d]`. The merge interleaves the series and drops what lies past the first series' length. |
| `ChartData.PresentPrefix` | lib/prawn/graph/bar.rb:65-68 | A prefix of the headings has no more present values than all the headings. |
| `ChartData.TotalPrefix` | lib/prawn/graph/bar.rb:63-68 | A prefix of the series has no more present values than all the series. |
| `ChartData.PresentSnoc` | lib/prawn/graph/bar.rb:65-68 | One more heading adds one present value when its value is present, and none otherwise. |
| `Scale.FloorDiv` | lib/prawn/graph/base.rb:242 | Integer division follows Ruby: the quotient is the floor, so the remainder takes the divisor's sign. |
| `Scale.Trunc` | lib/prawn/graph/base.rb:259 | `to_i` truncates toward zero. The result lies within one unit of its input, on the zero side. |
| `Scale.TruncMonotone` | lib/prawn/graph/base.rb:259 | Truncation preserves order. |
| `Scale.Transformed` | lib/prawn/graph/base.rb:263-269 | Without a transform, or when the transform raises, the value is used unchanged. Otherwise the transform's result is used. |
| `Scale.SlotsTile` | lib/prawn/graph/base.rb:241-243 | The headings' slots fit in the grid width, with less than one unit per heading left over. |
| `Scale.BarFitsSlot` | lib/prawn/graph/base.rb:245-247 | Two bar widths fit in a slot, with at most one unit to spare. |
| `Scale.CentredWithinOne` | lib/prawn/graph/base.rb:231-238 | A centred title or axis label has its middle within one unit of the middle of the grid. A longer text starts no later. |
| `Scale.FallbackIsIdentity` | lib/prawn/graph/base.rb:249-254 | With no transform, or one that always raises, the point fraction is `(v - lowest) / (highest - lowest)`. |
| `Scale.FractionEndpoints` | lib/prawn/graph/base.rb:249-254 | The lowest value sits at fraction 0 and the highest at fraction 1. |
| `Scale.FractionInUnit` | lib/prawn/graph/base.rb:249-254 | A value between lowest and highest has its fraction in [0, 1]. |
| `Scale.MonotoneTransformInUnit` | lib/prawn/graph/base.rb:249-254 | Under a strictly increasing transform that never raises, the axis can scale, and a value between the bounds still has its fraction in [0, 1]. |
| `Scale.InversionLaw` | lib/prawn/graph/base.rb:256-261 | The downwards point height and the upwards point height of a value add up to the grid height. |
| `Scale.PointHeightInGrid` | lib/prawn/graph/base.rb:256-261 | A fraction in [0, 1] gives a point height within the grid. |
| `Scale.PointHeightMonotone` | lib/prawn/graph/base.rb:256-261 | The point height rises with the value upwards and falls with it downwards. |
| `Scale.FractionMonotone` | lib/prawn/graph/base.rb:249-254 | Without a transform, the fraction rises with the value. |
| `GridLayout.MarkerOffsets` | lib/prawn/graph/grid.rb:35-37 | There is one gridline offset per marker fraction. |
| `GridLayout.AutoOffsets` | lib/prawn/graph/grid.rb:43-45 | There are `(extent / spacing).to_i` auto gridlines. |
| `GridLayout.Grid.constructor` | lib/prawn/graph/grid.rb:12-27 | The grid keeps its origin, size, document, theme and options as given. |
| `GridLayout.Grid.StrokeRow` | lib/prawn/graph/grid.rb:38-40 | One horizontal gridline: a move to the left edge at the offset, the width, and a stroke across the grid. |
| `GridLayout.Grid.StrokeColumn` | lib/prawn/graph/grid.rb:55-57 | One vertical gridline: a move to the bottom edge at the offset, the width, and a stroke up the grid. |
| `GridLayout.Grid.DrawRowMarkers` | lib/prawn/graph/grid.rb:34-41 | One horizontal gridline of width 0.25 at each y marker, flipped when `reverse_y`. |
| `GridLayout.Grid.DrawAutoRows` | lib/prawn/graph/grid.rb:42-49 | One horizontal gridline of width 0.5 every `spacing` units up the grid, flipped when `reverse_y`. |
| `GridLayout.Grid.DrawColumnMarkers` | lib/prawn/graph/grid.rb:51-58 | One vertical gridline of width 0.25 at each x marker, flipped when `reverse_x`. |
| `GridLayout.Grid.DrawAutoColumns` | lib/prawn/graph/grid.rb:59-66 | One vertical gridline of width 0.5 every `spacing` units across the grid, flipped when `reverse_x`. |
| `GridLayout.Grid.DrawRows` | lib/prawn/graph/grid.rb:34-50 | The y markers when given, else the auto rows when `autoaxis` is `:y`, else nothing. |
| `GridLayout.Grid.DrawColumns` | lib/prawn/graph/grid.rb:51-67 | The x markers when given, else the auto columns when `autoaxis` is `:x`, else nothing. |
| `GridLayout.Grid.DrawAxes` | lib/prawn/graph/grid.rb:69-74 | The Y axis line, then the X axis line along the bottom, or along the top when `reverse_y`. |
| `GridLayout.Grid.ResetPosition` | lib/prawn/graph/grid.rb:75-78 | The closing moves: to the grid's top-left corner, a black stroke colour, width 0.5, and back to the origin. |
| `GridLayout.Grid.DrawFrame` | lib/prawn/graph/grid.rb:69-78 | The two axis lines followed by the closing moves. |
| `GridLayout.Grid.DrawGridlines` | lib/prawn/graph/grid.rb:32-68 | Sets the marker colour, then strokes the gridlines only when the theme strokes grid markers. |
| `GridLayout.Grid.Draw` | lib/prawn/graph/grid.rb:31-79 | The whole `draw`: marker colour, gridlines, axes and the closing moves. The surface state agrees with the log. |
| `GridLayout.HLinesAt` | lib/prawn/graph/grid.rb:35-41 | Each horizontal gridline is a move to the left edge, a width change and a stroke across the whole width, at its offset. |
| `GridLayout.VLinesAt` | lib/prawn/graph/grid.rb:52-58 | Each vertical gridline is a move to the bottom edge, a width change and a stroke up the whole height, at its offset. |
| `GridLayout.GridStrokeCount` | lib/prawn/graph/grid.rb:31-79 | `draw` makes two strokes for the axes, plus one per gridline when grid markers are stroked. |
| `GridLayout.MarkersTakePrecedence` | lib/prawn/graph/grid.rb:34-42 | Explicit markers on an axis make `autoaxis` irrelevant for that axis. |
| `GridLayout.AutoOffsetsInRange` | lib/prawn/graph/grid.rb:43-45 | Auto gridlines fill the extent to within one spacing. Each stays inside the grid, and neighbours are exactly one spacing apart. |
| `GridLayout.MarkerOffsetsInRange` | lib/prawn/graph/grid.rb:36-37 | Marker fractions in [0, 1] give offsets inside the grid, and `reverse` mirrors them. |
| `GridLayout.RunKeepsFill` | lib/prawn/graph/grid.rb:31-79 | A log without fill or mask calls leaves the fill colour and the mask stack untouched. |
| `GridLayout.GridFinalState` | lib/prawn/graph/grid.rb:75-78 | After `draw`, the cursor is at the grid origin, the line width is 0.5 and the stroke colour is black. The fill is unchanged. |
| `ChartBase.StartErrorCases` | lib/prawn/graph/base.rb:47-51 | It raises NoGraphStartSet exactly when `:at` is nil or empty. Construction succeeds exactly when `:at` has two coordinates. |
| `ChartBase.AxisCoversData` | lib/prawn/graph/base.rb:54-58 | The axis runs from `:minimum_value` (default 0) up to `:maximum_value`, and otherwise up to the greatest value, which bounds all data. It is downwards when `:downward` or `:downwards` is set. |
| `ChartBase.MarkerFractions` | lib/prawn/graph/base.rb:65 | There is one grid fraction per marker value. An empty marker list needs no scalable axis. |
| `ChartBase.ParseSizingFrom` | lib/prawn/graph/base.rb:171-208 | A one-coordinate `:at` is an error. Otherwise the result is the sizing computed from the options. |
| `ChartBase.SizingMargins` | lib/prawn/graph/base.rb:171-208 | The grid origin is 15 units across (30 with a Y label) and 20 units up (50 with an X label). The grid is narrowed for a Y label and lowered for a title or an X label. Its far edges land at fixed distances from the origin. |
| `ChartBase.Chart.constructor` | lib/prawn/graph/base.rb:46-67 | Every field is set from the data and the options, and the grid is built from the sizing and the grid options. |
| `ChartBase.NewChart` | lib/prawn/graph/base.rb:46-67 | Missing or one-coordinate `:at` gives the matching error, whatever the markers. Otherwise the result is a fresh chart built from the data. |
| `ChartBase.NewChartAsWritten` | lib/prawn/graph/base.rb:46-66 | As written, construction never succeeds. A missing or one-coordinate `:at` gives its error, and every other input raises ArgumentError at `Grid.new`. |
| `ChartBase.GridCallArity` | lib/prawn/graph/base.rb:66 | Nine arguments fail the arity of grid.rb:12, which takes six required and one optional. The intended seven pass it. |
| `ChartBase.Chart.DrawBoundLabels` | lib/prawn/graph/base.rb:97-105 | Sets the font colour, then prints the two bound values at the top and the bottom of the Y axis (swapped when downwards). |
| `ChartBase.Chart.DrawMarkerLabels` | lib/prawn/graph/base.rb:106-109 | Prints every marker value other than the two bounds, at its point height. |
| `ChartBase.Chart.DrawHeadingBoxes` | lib/prawn/graph/base.rb:113-121 | Places one text box per heading, one slot after another. |
| `ChartBase.Chart.LabelAxes` | lib/prawn/graph/base.rb:96-123 | The whole `label_axes` log, ending on the background fill colour. |
| `ChartBase.BoundLabelsAtExtremes` | lib/prawn/graph/base.rb:103-105 | The value printed at the top of the axis scales to the full grid height, and the one at the bottom to 0. |
| `ChartBase.MarkerLabelNearGridline` | lib/prawn/graph/base.rb:108 | A marker value's label sits within 2 units below the gridline drawn for that value. |
| `ChartBase.HeadingBoxesAt` | lib/prawn/graph/base.rb:115-121 | Heading box `k` sits at `base_x + k * spacing`. |
| `ChartBase.HeadingBoxesTile` | lib/prawn/graph/base.rb:113-121 | Neighbouring heading boxes are exactly 2 units apart. |
| `ChartBase.MarkerLabelsShape` | lib/prawn/graph/base.rb:106-109 | Every marker label is the text of a marker other than a bound, at its height. Every such marker is labelled. |
| `Surface.Theme.NextColour` | lib/prawn/graph/bar.rb:69 | `next_colour` hands out the colour after the last one handed out, and advances the theme by one. |
| `BarChart.BarSlotsTile` | lib/prawn/graph/bar.rb:46-49 | Bar slots tile the grid height (horizontal) or width (vertical), with less than one unit per slot left over. |
| `BarChart.SeriesFitHalfSlot` | lib/prawn/graph/bar.rb:57-61 | Without `:ignore_set_spacing`, the series' bars side by side take at most half a slot, and so does `barYOffset` times the series count. |
| `BarChart.BarsApart` | lib/prawn/graph/bar.rb:71-90 | The bars of two series at one heading sit a bar width apart per series index, or on top of each other under `:ignore_set_spacing`. |
| `BarChart.BarShape` | lib/prawn/graph/bar.rb:68-106 | A present value's bar sets the next colour, moves to the bar's base and strokes to its end: `base_x + point width` across, `base_y + point height` up. It has a 6-call label block when labels are on. |
| `BarChart.MissingDrawsNothing` | lib/prawn/graph/bar.rb:66-68 | A missing value draws nothing and takes no colour. |
| `BarChart.LabelBlockRestores` | lib/prawn/graph/bar.rb:79-87 | The masked label block leaves the surface state as it found it, strokes nothing and sets no stroke colour. |
| `BarChart.BarColours` | lib/prawn/graph/bar.rb:68-74 | A bar sets exactly one stroke colour, the next one, and makes one stroke. |
| `BarChart.SeriesColours` | lib/prawn/graph/bar.rb:65-110 | A series takes consecutive theme colours, one per present value. |
| `BarChart.SeriesStrokes` | lib/prawn/graph/bar.rb:65-110 | A series strokes once per present value. |
| `BarChart.PlotColours` | lib/prawn/graph/bar.rb:51-113 | `plot_values` hands out consecutive theme colours and strokes exactly once per present value across all series. |
| `BarChart.Bar.constructor` | lib/prawn/graph/bar.rb:41 | The bar chart keeps its chart and its settings. |
| `BarChart.Bar.PlotHeading` | lib/prawn/graph/bar.rb:65-108 | One heading of one series: a bar when the value is present, taking one colour. Nothing otherwise. A vertical label is at the corrected position (see Findings). |
| `BarChart.Bar.PlotBar` | lib/prawn/graph/bar.rb:68-107 | A present value takes the next colour and draws its bar. A vertical label is at the corrected position (see Findings). |
| `BarChart.Bar.PlotHorizontal` | lib/prawn/graph/bar.rb:70-88 | A horizontal bar from the left (or right, inverted) edge to `base_x + point width`, followed by the label when labels are on. |
| `BarChart.Bar.PlotVertical` | lib/prawn/graph/bar.rb:89-106 | A vertical bar from the bottom (or top, inverted) edge to `base_y + point height`, followed by the label when labels are on, with the label's y measured from `base_y` (the corrected position, see Findings). |
| `BarChart.Bar.EmitLabel` | lib/prawn/graph/bar.rb:79-87 | The masked white box, then the black text box. |
| `BarChart.Bar.PlotSeries` | lib/prawn/graph/bar.rb:65-110 | One series' bars in heading order, taking one colour per present value. Vertical labels are at the corrected position (see Findings). |
| `BarChart.Bar.PlotSets` | lib/prawn/graph/bar.rb:63-111 | Walks the series from the last to the first, each with its own index. The colour counter advances by the number of present values. |
| `BarChart.Bar.PlotValues` | lib/prawn/graph/bar.rb:51-113 | Sets the bar width, then the series from the last to the first. It takes one colour per present value in all. Vertical labels are at the corrected position (see Findings). |
| `BarChart.AsWrittenLabelDetached` | lib/prawn/graph/bar.rb:97 | As written, the vertical label's y is off from the bar end by `base_x - base_y` on top of the intended gap. With the grid at (45, 40) it floats 5 units too high. |
| `BarChart.CorrectedLabelAtBarEnd` | lib/prawn/graph/bar.rb:97 | Placed from `base_y`, the label starts `labelSize + 1` past an upward bar's end, or 1 short of an inverted one's, and is centred on the bar. |
| `LineChart.Line.constructor` | lib/prawn/graph/line.rb:42 | The line chart keeps its chart. |
| `LineChart.Line.BuildPoints` | lib/prawn/graph/line.rb:52-66 | The heading loop builds the series' point list. |
| `LineChart.Line.DrawSegments` | lib/prawn/graph/line.rb:70-75 | The segment pass over `p[0..-2]`. |
| `LineChart.Line.DrawCircles` | lib/prawn/graph/line.rb:77-82 | The circle pass over every point. |
| `LineChart.Line.PlotSeries` | lib/prawn/graph/line.rb:52-82 | One series: widths, fill and the palette colour, then segments, then circles. |
| `LineChart.Line.PlotValues` | lib/prawn/graph/line.rb:46-85 | With no headings the slot spacing divides by zero and nothing is drawn. Otherwise the series are drawn from the last to the first. |
| `LineChart.PointsSlots` | lib/prawn/graph/line.rb:54-66 | One slot per heading. A slot is nil exactly when the value is missing. A present value sits at `base_x + spacing/2 + i*spacing`, `base_y + point height`. |
| `LineChart.SlotsIncrease` | lib/prawn/graph/line.rb:54-65 | Slot x positions are exactly one spacing apart per heading and strictly increase. |
| `LineChart.SegmentDrawn` | lib/prawn/graph/line.rb:71-74 | Point `i` of the segment pass draws the segment to point `i+1` exactly when both are present. |
| `LineChart.SegmentsDrawPairs` | lib/prawn/graph/line.rb:70-75 | The segments the pass strokes are exactly the pairs of neighbouring present points, in order. |
| `LineChart.PairsAreNeighbours` | lib/prawn/graph/line.rb:70-75 | Every stroked segment joins two neighbouring present points. |
| `LineChart.SegmentsKeepStyle` | lib/prawn/graph/line.rb:70-75 | The segment pass changes neither the line width nor the colours. |
| `LineChart.CirclesKeepStyle` | lib/prawn/graph/line.rb:77-82 | The circle pass leaves the surface state unchanged and sets no stroke colour. |
| `LineChart.CirclesOnPresentPoints` | lib/prawn/graph/line.rb:77-82 | Filled circles and stroked circles both sit, with radius 2, exactly on the present points, in order. |
| `LineChart.PresentPointsCount` | lib/prawn/graph/line.rb:56-66 | There are as many present points as present values. |
| `LineChart.SeriesStyle` | lib/prawn/graph/line.rb:67-76 | Segments are drawn at width 2 in the series' palette colour over a white fill, and circles at width 1. Each series sets exactly one stroke colour. |
| `LineChart.PaletteOrder` | lib/prawn/graph/line.rb:51-69 | The reference order, built one series at a time from the last: its `j`-th colour is the palette entry `(count-1-j) % palette length`. |
| `LineChart.PlotColours` | lib/prawn/graph/line.rb:46-85 | The stroke colours of `plot_values` are exactly that palette order, one per series. |

## Left out

- The drawing backend is a log of the calls made. Fonts, text layout and PDF output are not modelled. For the `text_box` options `:align`, `:valign`, `:overflow`, `:margin` and `:min_font_size`, only the box's position, width, height and size are kept.
- Value and heading printers, `to_s`, and the font's `compute_width_of` are parameters: a label records its value and whether a printer formatted it.
- `calculate_x_offset`, `calculate_y_offset`, `calculate_point_width_from`, `@setAxisHeadings`, `@direction`, `@inverted` and `@options[@valueAxis]` are parameters of a bar chart (`BarChart.BarSettings`). The bar file uses them but never defines them, and no file of the repository that is part of this model does so either.
- `"#{@highest_value}".length` in `label_axes` is a parameter, since the model does not format numbers.
- `label_axes` calls `calculate_plot_spacing`, which the bar chart overrides. The spacing is a parameter of `ChartBase.Chart.LabelAxes`.
- `Base#draw`, `draw_bounding_box`, `draw_title`, `draw_x_axis_label`, `draw_y_axis_label` and `reset` only sequence calls or write text. They are left out. Their placement arithmetic, the axis centring, is modelled by `Scale.CentredWithinOne`.
- Base's own `plot_values`, which always raises, is not modelled.
- `reverse_each_with_index` is not a Ruby core method, and its definition is not part of this model. It is taken to visit the series from the last to the first, each with its original index.
- BigDecimal's finite precision is not modelled: BigDecimal arithmetic is exact real arithmetic.
- A transform that raises is modelled as one that returns no value. The value is then used unchanged, as the `rescue` does.
- Division by zero is excluded by preconditions, or returned as an outcome, rather than modelled as an exception:
  - `BarChart.Bar.PlotValues` requires a non-zero bar divisor.
  - `Scale.Fraction` and the members using it require a non-degenerate axis (highest ≠ lowest after the transform) whenever a value is scaled.
  - `GridLayout.Grid.Draw` requires a usable `:spacing` when auto gridlines are drawn.
  - `LineChart.Line.PlotValues` returns `raised` for a chart without headings.
- `LineChart.Line.PlotValues` requires a non-empty theme palette, because `setidx % @theme.colours.length` raises on an empty one.
- `ChartBase.Chart.constructor` and `ChartBase.NewChart` build the grid from the intended arguments. As written, `Base#initialize` calls `Grid.new` with nine positional arguments, while `Grid#initialize` takes six and an optional options Hash, so Ruby raises ArgumentError and no chart is built (see Findings, `ChartBase.NewChartAsWritten`). The model maps the intended arguments onto grid.rb's options: `:spacing`, the marker fractions as `:y_markers`, and `downwards` as `:reverse_y`. `:x_markers` and `:autoaxis` are left unset.
- `ChartBase.Options`: `:at`, `:width`, `:height` and `:spacing` are modelled as Integers. Floats are not modelled, and neither is an explicit `nil`, which `merge` keeps over the default and which then raises NoMethodError in `parse_sizing_from` (base.rb:207). The model reads an absent key and a `nil` one alike, as the default. The floor of `Integer#/` and the ZeroDivisionError outcomes hold only for Integer options:
  - `Scale.FloorDiv`, `BarChart.Bar.PlotValues` and `LineChart.Line.PlotValues` use floor division. With a Float width, the `/` of base.rb:242 and bar.rb:46-47 is Float division and does not floor.
  - `LineChart.Line.PlotValues`: with a Float width and no headings, `width / 0` is Infinity rather than a ZeroDivisionError, so line.rb:49-50 do not raise and each series still emits its widths and colours. The model returns `raised` with nothing drawn.
  - `BarChart.Bar.PlotValues`: its non-zero-divisor requirement excludes the division that raises for an Integer extent. A Float extent would give Infinity instead.
- `@colour` is recorded as the source computes it, but no drawing call reads it. `use_colour: false` still counts as set.
- The theme's colour values and the cycling of `next_colour` are not modelled. The n-th colour handed out is `Issued(n)`.
- The grid and chart fields are constants of the model, because no modelled operation reassigns them after construction.
- On two points the code behaves in a way its comments do not suggest, and the model follows the code:
  - The headings are merged by `zip`, which interleaves the series and drops whatever lies past the first series' length (`ChartData.InterleavedNotAppended`).
  - Under `:ignore_set_spacing` the bar divisor is the number of series.
- `BarChart.Bar.PlotVertical`, `BarChart.Bar.PlotBar`, `BarChart.Bar.PlotHeading`, `BarChart.Bar.PlotSeries`, `BarChart.Bar.PlotSets` and `BarChart.Bar.PlotValues`: the log places a vertical bar's value label at the corrected position, with its y measured from `base_y` (`BarChart.CorrectedVerticalLabel`, through `BarChart.LabelFor` and `BarChart.BarFor`). It does not use the `base_x` that bar.rb:97 uses. The position as written is `BarChart.AsWrittenVerticalLabel`, and `BarChart.AsWrittenLabelDetached` proves that the two differ by `base_x - base_y`. Horizontal bars and all strokes and colours are as written.
- The input of the chart model is a list of series (`ChartData.Series`). The documented bare format, a single list of `[heading, value]` rows, is not part of that input. As written, `process_the` does not wrap it and takes each row for a series; it reads the row's elements with `String#[]` and `Integer#[]`. That step is modelled separately, on Ruby objects, in `RubyInput` (see Findings), and the rest of the code on such input is not modelled.
- Headings are `nil`, Strings, Integers and other objects that are neither Comparable nor Arrays. Symbols, Floats, Dates and other Comparable non-Strings are not modelled. When such headings all sort, the code orders them as it orders Integers. When they cannot be compared with each other, for example an Integer and a Symbol, `sort` raises ArgumentError. That case cannot arise in the model, whose only sortable headings are Integers.

## Findings

| source | as written | input that shows it | evidently intended | confidence | as-written member | corrected member |
|---|---|---|---|---|---|---|
| lib/prawn/graph/base.rb:66 | `Grid.new` is called with nine positional arguments (origin, size, spacing, marker points, document, theme, `downwards`), while grid.rb:12 declares six required parameters and one optional options Hash. | Any options with a two-coordinate `:at`, such as `:at => [30, 20]`: construction passes the `:at` check and the sizing, then `Grid.new` raises ArgumentError, so no Bar or Line chart can be built. | Pass the six positional arguments and an options Hash holding `:spacing`, the marker fractions as `:y_markers` and `downwards` as `:reverse_y`. | not executed | `ChartBase.NewChartAsWritten` (`ChartBase.GridCallArity`) | `ChartBase.NewChart` (`ChartBase.Chart.constructor`, `ChartBase.GridOptionsFor`) |
| lib/prawn/graph/base.rb:214 | `Array === data_array.first` only checks that the first element is an Array. In the one-series format that bar.rb:30-39 and line.rb:30-39 document, the first element is a row, so nothing is wrapped and each row is taken for a series. | `[['ab', 5]]`: the "series" `['ab', 5]` has the "row" `'ab'`, `'ab'[1]` is `'b'`, and `[0, 'b'].max` raises ArgumentError. | Wrap also when the first element is itself a `[heading, value]` row, so the input is one series with greatest value 5. | not executed | `RubyInput.WrapAsWritten` (`RubyInput.AsWrittenSplitsBareSeries`, `RubyInput.DocumentedFormatRaises`) | `RubyInput.WrapIntended` (`RubyInput.IntendedReadsBareSeries`, `RubyInput.IntendedReadsModelInput`) |
| lib/prawn/graph/bar.rb:97 | The vertical bar's value label takes its y coordinate from `base_x + bar_length + …`. | Any chart whose grid origin has `start_x != start_y`. With `:at => [30, 20]` and no labels, the grid is at (45, 40), and an upward bar's label starts 5 units above where it should. | `base_y + bar_length + …`, so the label sits just past the bar's end wherever the grid is. | not executed | `BarChart.AsWrittenVerticalLabel` (`BarChart.AsWrittenLabelDetached`) | `BarChart.CorrectedVerticalLabel` (`BarChart.CorrectedLabelAtBarEnd`) |

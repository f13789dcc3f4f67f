/**
 * Bar charts (lib/prawn/graph/bar.rb): the slot spacing, the bar width,
 * and `plot_values`, which strokes one bar per present value, series by
 * series from the last, each in the theme's next colour.
 */
module BarChart {
  import opened Wrappers
  import opened ChartData
  import opened Surface
  import opened Scale
  import opened GridLayout
  import opened ChartBase

  /** `@direction == :horizontal`, or not. */
  datatype Direction = Vertical | Horizontal

  /**
   * The settings the bar code reads from instance state and helpers that
   * no file shown defines: the direction, `@inverted`, the
   * `:ignore_set_spacing`, `:label_values` and `:value_printer` options,
   * `@setAxisHeadings`, `calculate_x_offset`, `calculate_y_offset`,
   * `calculate_point_width_from` and the font's `compute_width_of`.
   */
  datatype BarSettings = BarSettings(
    direction: Direction,
    inverted: bool,
    ignoreSetSpacing: bool,
    setAxisHeadings: seq<Heading>,
    labelValues: bool,
    valuePrinter: bool,
    xOffset: (Heading, nat) -> int,
    yOffset: (Heading, nat) -> int,
    pointWidth: real -> int,
    textWidth: (Label, int) -> real)

  /** The divisor of `calculate_plot_spacing`: the series count under ignore, else the set-axis headings. */
  function Divisor(s: BarSettings, seriesCount: nat): nat {
    if s.ignoreSetSpacing then seriesCount else |s.setAxisHeadings|
  }

  /** Bar `calculate_plot_spacing`: the slot dimension shared out over the divisor. */
  function BarPlotSpacing(s: BarSettings, grid: Box, seriesCount: nat): int
    requires Divisor(s, seriesCount) != 0
  {
    FloorDiv(if s.direction == Horizontal then grid.height else grid.width, Divisor(s, seriesCount))
  }

  /** The bar width: half a slot, or under ignore-off half a slot shared out over the series. */
  function BarWidthFor(s: BarSettings, spacing: int, seriesCount: nat): int
    requires seriesCount > 0
  {
    if s.ignoreSetSpacing then BarWidth(spacing) else FloorDiv(BarWidth(spacing), seriesCount)
  }

  /** The positions `plot_values` works from. */
  datatype Geometry = Geometry(
    baseX: int,
    farX: int,
    baseY: int,
    farY: int,
    gridHeight: int,
    barWidth: int,
    labelSize: int,
    barYOffset: int,
    axis: ValueAxis)

  /** A value label: where its backing rectangle and text box go, their size, the text and its font size. */
  datatype Tag = Tag(at: Point, width: real, height: real, text: Label, size: real)

  /** `mask(:fill_color)` around a value label: a white backing rectangle, then the text box in black. */
  function LabelBlock(t: Tag): seq<Instr> {
    [BeginMask, SetFillColour(Hex("ffffff")), FillRectangle(t.at, t.width, t.height), SetFillColour(Hex("000000")),
     TextBox(t.text, t.at, t.width, Some(t.height), t.size), EndMask]
  }

  /** The offset of series `setidx` within its slot: none under ignore, else a bar width per series. */
  function SeriesShift(s: BarSettings, g: Geometry, setidx: nat): int {
    if s.ignoreSetSpacing then 0 else g.barWidth * setidx
  }

  /** The height at which a horizontal bar is drawn. */
  function BarY(s: BarSettings, g: Geometry, h: Heading, idx: nat, setidx: nat): int {
    s.yOffset(h, idx) + SeriesShift(s, g, setidx) + g.barYOffset
  }

  /** The abscissa at which a vertical bar is drawn. */
  function BarX(s: BarSettings, g: Geometry, h: Heading, idx: nat, setidx: nat): int {
    s.xOffset(h, idx) + SeriesShift(s, g, setidx)
  }

  /** The length of the bar of value `v`: `calculate_point_width_from` across, the point height up. */
  function BarLength(s: BarSettings, g: Geometry, v: real): int
    requires s.direction == Vertical ==> Nondegenerate(g.axis)
  {
    if s.direction == Horizontal then s.pointWidth(v) else PointHeight(g.axis, g.gridHeight, v)
  }

  /** Where the stroke starts: on the base edge, or on the far edge when inverted. */
  function BarStart(s: BarSettings, g: Geometry, h: Heading, idx: nat, setidx: nat): Point {
    if s.direction == Horizontal then Point((if s.inverted then g.farX else g.baseX) as real, BarY(s, g, h, idx, setidx) as real)
    else Point(BarX(s, g, h, idx, setidx) as real, (if s.inverted then g.farY else g.baseY) as real)
  }

  /** Where the stroke ends: `len` past the base edge. */
  function BarEnd(s: BarSettings, g: Geometry, h: Heading, idx: nat, setidx: nat, len: int): Point {
    if s.direction == Horizontal then Point((g.baseX + len) as real, BarY(s, g, h, idx, setidx) as real)
    else Point(BarX(s, g, h, idx, setidx) as real, (g.baseY + len) as real)
  }

  /** The label width: the printed value's width plus two. */
  function LabelWidth(s: BarSettings, g: Geometry, v: real): real {
    s.textWidth(ValueLabel(v, s.valuePrinter), g.labelSize) + 2.0
  }

  /** Where a vertical bar's label goes: centred on the bar, just past its end measured from `labelBase`. */
  function VerticalLabelAt(x: int, w: real, labelBase: int, len: int, inverted: bool, labelSize: int): Point {
    Point(x as real - w / 2.0, (labelBase + len) as real + (if inverted then -1.0 else (labelSize + 1) as real))
  }

  /** The label position as the source writes it: measured from the grid's x origin. */
  function AsWrittenVerticalLabel(g: Geometry, x: int, w: real, len: int, inverted: bool): Point {
    VerticalLabelAt(x, w, g.baseX, len, inverted, g.labelSize)
  }

  /** The label position measured from the grid's y origin, where the bar starts. */
  function CorrectedVerticalLabel(g: Geometry, x: int, w: real, len: int, inverted: bool): Point {
    VerticalLabelAt(x, w, g.baseY, len, inverted, g.labelSize)
  }

  /**
   * The label of a bar of length `len`. Across, it sits one unit past the
   * bar's end (inside it when inverted), a bar width high, showing the
   * printed value; up, it is centred above the bar, `labelSize` high,
   * showing the plain value.
   */
  function LabelFor(s: BarSettings, g: Geometry, h: Heading, idx: nat, setidx: nat, v: real, len: int): Tag {
    var w := LabelWidth(s, g, v);
    if s.direction == Horizontal then
      Tag(Point((g.baseX + len) as real + (if s.inverted then -(w + 1.0) else 1.0), (BarY(s, g, h, idx, setidx) + FloorDiv(g.barWidth, 2)) as real),
          w, g.barWidth as real, ValueLabel(v, s.valuePrinter), g.labelSize as real)
    else
      Tag(CorrectedVerticalLabel(g, BarX(s, g, h, idx, setidx), w, len, s.inverted),
          w, g.labelSize as real, ValueLabel(v, false), g.labelSize as real)
  }

  /** The bar of one (series, heading) pair: nothing for a missing value, else a colour, a stroke and maybe a label. */
  function BarFor(s: BarSettings, g: Geometry, m: SeriesMap, h: Heading, idx: nat, setidx: nat, serial: nat): seq<Instr>
    requires s.direction == Vertical && Lookup(m, h).Num? ==> Nondegenerate(g.axis)
  {
    if !Lookup(m, h).Num? then []
    else
      var v := Lookup(m, h).x;
      var len := BarLength(s, g, v);
      [SetStrokeColour(Issued(serial)), MoveTo(BarStart(s, g, h, idx, setidx)), LineTo(BarEnd(s, g, h, idx, setidx, len))]
        + (if s.labelValues then LabelBlock(LabelFor(s, g, h, idx, setidx, v, len)) else [])
  }

  /** The bars of one series over the headings, the idx-th using the colour serial after those before it. */
  function SeriesBars(s: BarSettings, g: Geometry, m: SeriesMap, setidx: nat, hs: seq<Heading>, serial: nat): seq<Instr>
    requires s.direction == Vertical && Present(m, hs) > 0 ==> Nondegenerate(g.axis)
  {
    if |hs| == 0 then []
    else
      var p := hs[..|hs| - 1];
      SeriesBars(s, g, m, setidx, p, serial) + BarFor(s, g, m, hs[|hs| - 1], |hs| - 1, setidx, serial + Present(m, p))
  }

  /** The bars of every series, the last series first, each keeping its own index. */
  function ReverseBars(s: BarSettings, g: Geometry, vs: seq<SeriesMap>, serial: nat): seq<Instr>
    requires s.direction == Vertical && Total(vs, s.setAxisHeadings) > 0 ==> Nondegenerate(g.axis)
  {
    if |vs| == 0 then []
    else
      var last := vs[|vs| - 1];
      SeriesBars(s, g, last, |vs| - 1, s.setAxisHeadings, serial)
        + ReverseBars(s, g, vs[..|vs| - 1], serial + Present(last, s.setAxisHeadings))
  }

  class Bar {
    const chart: Chart
    const settings: BarSettings

    constructor (chart: Chart, settings: BarSettings)
      ensures this.chart == chart && this.settings == settings
    {
      this.chart := chart;
      this.settings := settings;
    }

    /** What the source needs to plot: a divisor for the spacing, and a scalable axis when a vertical bar needs a height. */
    ghost predicate Plottable() {
      && chart.Valid()
      && |chart.values| > 0
      && Divisor(settings, |chart.values|) != 0
      && (settings.direction == Vertical && Total(chart.values, settings.setAxisHeadings) > 0 ==> Nondegenerate(chart.Axis()))
    }

    function Spacing(): int
      requires Divisor(settings, |chart.values|) != 0
    {
      BarPlotSpacing(settings, chart.grid.Area(), |chart.values|)
    }

    function Geo(): Geometry
      requires Divisor(settings, |chart.values|) != 0 && |chart.values| > 0
    {
      var sp := Spacing();
      var n := |chart.values|;
      var bw := BarWidthFor(settings, sp, n);
      Geometry(chart.grid.StartX(), chart.grid.StartX() + chart.grid.width,
               chart.grid.StartY(), chart.grid.StartY() + chart.grid.height,
               chart.grid.height, bw, FloorDiv(bw, 2), FloorDiv(FloorDiv(sp, 2), n), chart.Axis())
    }

    /** Everything `plot_values` issues, given the theme's colour counter at the start. */
    function PlotLog(serial: nat): seq<Instr>
      requires Plottable()
    {
      [SetLineWidth(Geo().barWidth as real)] + ReverseBars(settings, Geo(), chart.values, serial)
    }

    /** `if value`: a bar for a present value, nothing otherwise. */
    method PlotHeading(g: Geometry, m: SeriesMap, h: Heading, idx: nat, setidx: nat)
      requires settings.direction == Vertical && Lookup(m, h).Num? ==> Nondegenerate(g.axis)
      modifies chart.document, chart.theme
      ensures chart.theme.issued == old(chart.theme.issued) + (if Lookup(m, h).Num? then 1 else 0)
      ensures chart.document.log == old(chart.document.log) + BarFor(settings, g, m, h, idx, setidx, old(chart.theme.issued))
    {
      if Lookup(m, h).Num? {
        PlotBar(g, m, h, idx, setidx);
      } else {
        assert chart.document.log + [] == chart.document.log;
      }
    }

    /** One bar: the next colour, the stroke, and its label when values are labelled. */
    method PlotBar(g: Geometry, m: SeriesMap, h: Heading, idx: nat, setidx: nat)
      requires Lookup(m, h).Num?
      requires settings.direction == Vertical ==> Nondegenerate(g.axis)
      modifies chart.document, chart.theme
      ensures chart.theme.issued == old(chart.theme.issued) + 1
      ensures chart.document.log == old(chart.document.log) + BarFor(settings, g, m, h, idx, setidx, old(chart.theme.issued))
    {
      var value := Lookup(m, h).x;
      var c := chart.theme.NextColour();
      chart.document.Emit(SetStrokeColour(c));
      if settings.direction == Horizontal {
        PlotHorizontal(g, h, idx, setidx, value);
      } else {
        PlotVertical(g, h, idx, setidx, value);
      }
    }

    method PlotHorizontal(g: Geometry, h: Heading, idx: nat, setidx: nat, value: real)
      requires settings.direction == Horizontal
      modifies chart.document
      ensures var len := BarLength(settings, g, value);
              chart.document.log == old(chart.document.log)
                + [MoveTo(BarStart(settings, g, h, idx, setidx)), LineTo(BarEnd(settings, g, h, idx, setidx, len))]
                + (if settings.labelValues then LabelBlock(LabelFor(settings, g, h, idx, setidx, value, len)) else [])
    {
      var s := settings;
      var y := s.yOffset(h, idx) + (if s.ignoreSetSpacing then 0 else g.barWidth * setidx) + g.barYOffset;
      var len := s.pointWidth(value);
      chart.document.Emit(MoveTo(Point((if s.inverted then g.farX else g.baseX) as real, y as real)));
      chart.document.Emit(LineTo(Point((g.baseX + len) as real, y as real)));
      if s.labelValues {
        var text := ValueLabel(value, s.valuePrinter);
        var w := s.textWidth(text, g.labelSize) + 2.0;
        var at := Point((g.baseX + len) as real + (if s.inverted then -(w + 1.0) else 1.0), (y + FloorDiv(g.barWidth, 2)) as real);
        EmitLabel(Tag(at, w, g.barWidth as real, text, g.labelSize as real));
      }
    }

    method PlotVertical(g: Geometry, h: Heading, idx: nat, setidx: nat, value: real)
      requires settings.direction == Vertical && Nondegenerate(g.axis)
      modifies chart.document
      ensures var len := BarLength(settings, g, value);
              chart.document.log == old(chart.document.log)
                + [MoveTo(BarStart(settings, g, h, idx, setidx)), LineTo(BarEnd(settings, g, h, idx, setidx, len))]
                + (if settings.labelValues then LabelBlock(LabelFor(settings, g, h, idx, setidx, value, len)) else [])
    {
      var s := settings;
      var x := s.xOffset(h, idx) + (if s.ignoreSetSpacing then 0 else g.barWidth * setidx);
      var len := PointHeight(g.axis, g.gridHeight, value);
      chart.document.Emit(MoveTo(Point(x as real, (if s.inverted then g.farY else g.baseY) as real)));
      chart.document.Emit(LineTo(Point(x as real, (g.baseY + len) as real)));
      if s.labelValues {
        var w := s.textWidth(ValueLabel(value, s.valuePrinter), g.labelSize) + 2.0;
        var at := CorrectedVerticalLabel(g, x, w, len, s.inverted);
        EmitLabel(Tag(at, w, g.labelSize as real, ValueLabel(value, false), g.labelSize as real));
      }
    }

    /** `mask(:fill_color) do ... end` around the backing rectangle and the label text. */
    method EmitLabel(t: Tag)
      modifies chart.document
      ensures chart.document.log == old(chart.document.log) + LabelBlock(t)
    {
      chart.document.Emit(BeginMask);
      chart.document.Emit(SetFillColour(Hex("ffffff")));
      chart.document.Emit(FillRectangle(t.at, t.width, t.height));
      chart.document.Emit(SetFillColour(Hex("000000")));
      chart.document.Emit(TextBox(t.text, t.at, t.width, Some(t.height), t.size));
      chart.document.Emit(EndMask);
    }

    /** The heading loop for one series: a bar for every heading with a value. */
    method PlotSeries(g: Geometry, m: SeriesMap, setidx: nat)
      requires settings.direction == Vertical && Present(m, settings.setAxisHeadings) > 0 ==> Nondegenerate(g.axis)
      modifies chart.document, chart.theme
      ensures chart.theme.issued == old(chart.theme.issued) + Present(m, settings.setAxisHeadings)
      ensures chart.document.log == old(chart.document.log) + SeriesBars(settings, g, m, setidx, settings.setAxisHeadings, old(chart.theme.issued))
    {
      var hs := settings.setAxisHeadings;
      ghost var log0 := chart.document.log;
      ghost var serial0 := chart.theme.issued;
      var idx := 0;
      while idx < |hs|
        invariant 0 <= idx <= |hs|
        invariant Present(m, hs[..idx]) <= Present(m, hs)
        invariant chart.theme.issued == serial0 + Present(m, hs[..idx])
        invariant chart.document.log == log0 + SeriesBars(settings, g, m, setidx, hs[..idx], serial0)
      {
        PresentPrefix(m, hs, idx + 1);
        PresentSnoc(m, hs, idx);
        ghost var before := chart.document.log;
        PlotHeading(g, m, hs[idx], idx, setidx);
        SeriesLogStep(settings, g, m, setidx, hs, idx, serial0, log0, before, chart.document.log);
        idx := idx + 1;
      }
      assert hs[..|hs|] == hs;
    }

    /** `reverse_each_with_index`: the series from the last one down, each drawn with its own index. */
    method PlotSets(g: Geometry, values: seq<SeriesMap>)
      requires settings.direction == Vertical && Total(values, settings.setAxisHeadings) > 0 ==> Nondegenerate(g.axis)
      modifies chart.document, chart.theme
      ensures chart.theme.issued == old(chart.theme.issued) + Total(values, settings.setAxisHeadings)
      ensures chart.document.log == old(chart.document.log) + ReverseBars(settings, g, values, old(chart.theme.issued))
    {
      var hs := settings.setAxisHeadings;
      var n := |values|;
      ghost var serial0 := chart.theme.issued;
      ghost var log1 := chart.document.log;
      var setidx := n;
      assert values[..n] == values;
      while setidx > 0
        invariant 0 <= setidx <= n
        invariant Total(values[..setidx], hs) <= Total(values, hs)
        invariant chart.theme.issued + Total(values[..setidx], hs) == serial0 + Total(values, hs)
        invariant chart.document.log + ReverseBars(settings, g, values[..setidx], chart.theme.issued)
                  == log1 + ReverseBars(settings, g, values, serial0)
      {
        setidx := setidx - 1;
        assert values[..setidx + 1][..setidx] == values[..setidx];
        assert values[..setidx + 1][setidx] == values[setidx];
        TotalPrefix(values, hs, setidx + 1);
        ghost var logBefore := chart.document.log;
        ghost var serialBefore := chart.theme.issued;
        PlotSeries(g, values[setidx], setidx);
        ReverseLogStep(settings, g, values, setidx, serialBefore, chart.theme.issued, logBefore, chart.document.log,
                       log1, ReverseBars(settings, g, values, serial0));
      }
      assert values[..0] == [];
      assert chart.document.log + [] == chart.document.log;
    }

    /**
     * `plot_values`: the bar width once, then every series from the last to
     * the first, each with its index in the data.
     */
    method PlotValues()
      requires Plottable()
      modifies chart.document, chart.theme
      ensures chart.theme.issued == old(chart.theme.issued) + Total(chart.values, settings.setAxisHeadings)
      ensures chart.document.log == old(chart.document.log) + PlotLog(old(chart.theme.issued))
    {
      var values := chart.values;
      var n := |values|;
      var sp := BarPlotSpacing(settings, chart.grid.Area(), n);
      var barWidth := if settings.ignoreSetSpacing then BarWidth(sp) else FloorDiv(BarWidth(sp), n);
      var g := Geometry(chart.grid.StartX(), chart.grid.StartX() + chart.grid.width,
                        chart.grid.StartY(), chart.grid.StartY() + chart.grid.height,
                        chart.grid.height, barWidth, FloorDiv(barWidth, 2), FloorDiv(FloorDiv(sp, 2), n), chart.Axis());
      assert g == Geo();
      ghost var serial0 := chart.theme.issued;
      ghost var log0 := chart.document.log;
      chart.document.Emit(SetLineWidth(barWidth as real));
      ghost var log1 := chart.document.log;
      PlotSets(g, values);
      LogConcat(log0, log1, chart.document.log, [SetLineWidth(barWidth as real)], ReverseBars(settings, g, values, serial0), PlotLog(serial0));
    }
  }

  // ---------------------------------------------------------------------------
  // Properties

  /** The log after one more heading of a series. */
  lemma SeriesLogStep(s: BarSettings, g: Geometry, m: SeriesMap, setidx: nat, hs: seq<Heading>, j: nat, serial: nat,
                      log0: seq<Instr>, before: seq<Instr>, after: seq<Instr>)
    requires j < |hs|
    requires s.direction == Vertical && Present(m, hs[..j + 1]) > 0 ==> Nondegenerate(g.axis)
    requires Present(m, hs[..j]) <= Present(m, hs[..j + 1])
    requires before == log0 + SeriesBars(s, g, m, setidx, hs[..j], serial)
    requires after == before + BarFor(s, g, m, hs[j], j, setidx, serial + Present(m, hs[..j]))
    ensures after == log0 + SeriesBars(s, g, m, setidx, hs[..j + 1], serial)
  {
    assert hs[..j + 1][..j] == hs[..j];
    LogConcat(log0, before, after, SeriesBars(s, g, m, setidx, hs[..j], serial),
              BarFor(s, g, m, hs[j], j, setidx, serial + Present(m, hs[..j])), SeriesBars(s, g, m, setidx, hs[..j + 1], serial));
  }

  /** The log after one more series, taken from the end. */
  lemma ReverseLogStep(s: BarSettings, g: Geometry, vs: seq<SeriesMap>, k: nat, serial: nat, serialAfter: nat,
                       before: seq<Instr>, after: seq<Instr>, log1: seq<Instr>, whole: seq<Instr>)
    requires k < |vs|
    requires s.direction == Vertical && Total(vs[..k + 1], s.setAxisHeadings) > 0 ==> Nondegenerate(g.axis)
    requires serialAfter == serial + Present(vs[k], s.setAxisHeadings)
    requires after == before + SeriesBars(s, g, vs[k], k, s.setAxisHeadings, serial)
    requires before + ReverseBars(s, g, vs[..k + 1], serial) == log1 + whole
    ensures Total(vs[..k + 1], s.setAxisHeadings) == Present(vs[k], s.setAxisHeadings) + Total(vs[..k], s.setAxisHeadings)
    ensures after + ReverseBars(s, g, vs[..k], serialAfter) == log1 + whole
  {
    var hs := s.setAxisHeadings;
    assert vs[..k + 1][..k] == vs[..k];
    assert vs[..k + 1][k] == vs[k];
    var x := SeriesBars(s, g, vs[k], k, hs, serial);
    var r := ReverseBars(s, g, vs[..k], serialAfter);
    assert ReverseBars(s, g, vs[..k + 1], serial) == x + r;
    AppendAssoc(before, x, r);
  }

  /** Slots tile the slot dimension: `divisor` slots fit and one more unit each would not. */
  lemma BarSlotsTile(s: BarSettings, grid: Box, seriesCount: nat)
    requires Divisor(s, seriesCount) != 0
    ensures var d := Divisor(s, seriesCount);
            var dim := if s.direction == Horizontal then grid.height else grid.width;
            d * BarPlotSpacing(s, grid, seriesCount) <= dim < d * (BarPlotSpacing(s, grid, seriesCount) + 1)
  {
    SlotsTile(if s.direction == Horizontal then grid.height else grid.width, Divisor(s, seriesCount));
  }

  /**
   * Without ignore, the series' bars side by side take at most half a slot
   * (spacing / 2), and so does the horizontal offset `barYOffset` times the
   * series count.
   */
  lemma SeriesFitHalfSlot(s: BarSettings, spacing: int, seriesCount: nat)
    requires seriesCount > 0 && !s.ignoreSetSpacing
    ensures seriesCount * BarWidthFor(s, spacing, seriesCount) <= BarWidth(spacing)
    ensures seriesCount * FloorDiv(FloorDiv(spacing, 2), seriesCount) <= BarWidth(spacing)
  {
    var q := FloorDiv(BarWidth(spacing), seriesCount);
    assert q * seriesCount <= BarWidth(spacing);
  }

  lemma MultipleApart(w: int, a: nat, b: nat)
    requires w >= 0 && a > b
    ensures w * a - w * b == w * (a - b) >= w
  {
    assert w * (a - b) == w * (a - b - 1) + w;
    assert w * (a - b - 1) >= 0;
  }

  /**
   * Bars of two series at one heading: without ignore they are exactly
   * `barWidth * |a - b|` apart, so strokes `barWidth` wide never overlap;
   * with ignore they share one position.
   */
  lemma BarsApart(s: BarSettings, g: Geometry, h: Heading, idx: nat, a: nat, b: nat)
    requires g.barWidth >= 0 && a > b
    ensures s.ignoreSetSpacing ==> BarX(s, g, h, idx, a) == BarX(s, g, h, idx, b) && BarY(s, g, h, idx, a) == BarY(s, g, h, idx, b)
    ensures !s.ignoreSetSpacing ==> BarX(s, g, h, idx, a) - BarX(s, g, h, idx, b) == g.barWidth * (a - b) >= g.barWidth
    ensures !s.ignoreSetSpacing ==> BarY(s, g, h, idx, a) - BarY(s, g, h, idx, b) == g.barWidth * (a - b) >= g.barWidth
  {
    MultipleApart(g.barWidth, a, b);
  }

  /**
   * A present value's bar: the next colour, then a stroke starting at the
   * base edge (the far edge when inverted) and ending at the value's length.
   */
  lemma BarShape(s: BarSettings, g: Geometry, m: SeriesMap, h: Heading, idx: nat, setidx: nat, serial: nat)
    requires s.direction == Vertical && Lookup(m, h).Num? ==> Nondegenerate(g.axis)
    requires Lookup(m, h).Num?
    ensures var bar := BarFor(s, g, m, h, idx, setidx, serial);
            var v := Lookup(m, h).x;
            && |bar| == (if s.labelValues then 9 else 3)
            && bar[0] == SetStrokeColour(Issued(serial))
            && (s.direction == Vertical ==>
                  var x := BarX(s, g, h, idx, setidx) as real;
                  && bar[1] == MoveTo(Point(x, (if s.inverted then g.farY else g.baseY) as real))
                  && bar[2] == LineTo(Point(x, (g.baseY + PointHeight(g.axis, g.gridHeight, v)) as real)))
            && (s.direction == Horizontal ==>
                  var y := BarY(s, g, h, idx, setidx) as real;
                  && bar[1] == MoveTo(Point((if s.inverted then g.farX else g.baseX) as real, y))
                  && bar[2] == LineTo(Point((g.baseX + s.pointWidth(v)) as real, y)))
  {
  }

  /** A missing value draws nothing. */
  lemma MissingDrawsNothing(s: BarSettings, g: Geometry, m: SeriesMap, h: Heading, idx: nat, setidx: nat, serial: nat)
    requires !Lookup(m, h).Num?
    ensures BarFor(s, g, m, h, idx, setidx, serial) == []
  {
  }

  /** A label block changes no stroke, and leaves the fill colour and the mask stack as it found them. */
  lemma LabelBlockRestores(st: SurfaceState, t: Tag)
    ensures Run(st, LabelBlock(t)) == st
    ensures Strokes(LabelBlock(t)) == 0
    ensures StrokeColours(LabelBlock(t)) == []
  {
    var b := LabelBlock(t);
    assert b[..1][..0] == [];
    assert b[..2][..1] == b[..1];
    assert b[..3][..2] == b[..2];
    assert b[..4][..3] == b[..3];
    assert b[..5][..4] == b[..4];
    assert b[..5] == b[..|b| - 1];
    var s1 := st.(masked := st.masked + [st.fill]);
    assert Run(st, b[..1]) == s1;
    assert Run(st, b[..2]) == s1.(fill := Hex("ffffff"));
    assert Run(st, b[..3]) == s1.(fill := Hex("ffffff"));
    assert Run(st, b[..4]) == s1.(fill := Hex("000000"));
    assert Run(st, b[..5]) == s1.(fill := Hex("000000"));
    assert Strokes(b[..1]) == 0 && StrokeColours(b[..1]) == [];
    assert Strokes(b[..2]) == 0 && StrokeColours(b[..2]) == [];
    assert Strokes(b[..3]) == 0 && StrokeColours(b[..3]) == [];
    assert Strokes(b[..4]) == 0 && StrokeColours(b[..4]) == [];
    assert Strokes(b[..5]) == 0 && StrokeColours(b[..5]) == [];
  }

  /** One colour and one stroke for a present value, none for a missing one. */
  lemma BarColours(s: BarSettings, g: Geometry, m: SeriesMap, h: Heading, idx: nat, setidx: nat, serial: nat)
    requires s.direction == Vertical && Lookup(m, h).Num? ==> Nondegenerate(g.axis)
    ensures StrokeColours(BarFor(s, g, m, h, idx, setidx, serial)) == (if Lookup(m, h).Num? then [Issued(serial)] else [])
    ensures Strokes(BarFor(s, g, m, h, idx, setidx, serial)) == (if Lookup(m, h).Num? then 1 else 0)
  {
    if Lookup(m, h).Num? {
      var v := Lookup(m, h).x;
      var len := BarLength(s, g, v);
      var rest := if s.labelValues then LabelBlock(LabelFor(s, g, h, idx, setidx, v, len)) else [];
      if s.labelValues {
        LabelBlockRestores(SurfaceState(Point(0.0, 0.0), 0.0, Hex(""), Hex(""), []), LabelFor(s, g, h, idx, setidx, v, len));
      }
      BarStrokeColours(Issued(serial), BarStart(s, g, h, idx, setidx), BarEnd(s, g, h, idx, setidx, len), rest);
    }
  }

  /** A bar's colour, move and stroke, followed by instructions that stroke nothing. */
  lemma BarStrokeColours(c: Colour, a: Point, b: Point, rest: seq<Instr>)
    requires Strokes(rest) == 0 && StrokeColours(rest) == []
    ensures StrokeColours([SetStrokeColour(c), MoveTo(a), LineTo(b)] + rest) == [c]
    ensures Strokes([SetStrokeColour(c), MoveTo(a), LineTo(b)] + rest) == 1
  {
    var i0, i1, i2 := SetStrokeColour(c), MoveTo(a), LineTo(b);
    assert [i0, i1, i2] + rest == [i0] + [i1] + [i2] + rest;
    StrokeColoursOne(i0);
    StrokeColoursOne(i1);
    StrokeColoursOne(i2);
    StrokesOne(i0);
    StrokesOne(i1);
    StrokesOne(i2);
    StrokeColoursAppend([i0], [i1]);
    StrokeColoursAppend([i0] + [i1], [i2]);
    StrokeColoursAppend([i0] + [i1] + [i2], rest);
    StrokesAppend([i0], [i1]);
    StrokesAppend([i0] + [i1], [i2]);
    StrokesAppend([i0] + [i1] + [i2], rest);
  }

  /** The consecutive serials from `serial`. */
  function Serials(serial: nat, count: nat): (r: seq<Colour>)
    ensures |r| == count
  {
    seq(count, k requires 0 <= k < count => Issued(serial + k))
  }

  lemma SerialsAppend(serial: nat, a: nat, b: nat)
    ensures Serials(serial, a) + Serials(serial + a, b) == Serials(serial, a + b)
  {
    var c := Serials(serial, a) + Serials(serial + a, b);
    assert forall k | 0 <= k < a + b :: c[k] == Issued(serial + k);
  }

  /** The colours so far, then one more colour for a present value. */
  lemma SeriesColoursStep(cs: seq<Colour>, cb: seq<Colour>, nb: nat, serial: nat, k: nat, present: bool)
    requires cs == Serials(serial, k)
    requires cb == (if present then [Issued(serial + k)] else []) && nb == (if present then 1 else 0)
    ensures cs + cb == Serials(serial, k + nb)
  {
    SerialsAppend(serial, k, nb);
    if present {
      assert Serials(serial + k, 1) == [Issued(serial + k)];
    } else {
      assert Serials(serial + k, 0) == [];
    }
  }

  /** Within a series, the bars use consecutive colours, one per present value. */
  lemma {:induction false} SeriesColours(s: BarSettings, g: Geometry, m: SeriesMap, setidx: nat, hs: seq<Heading>, serial: nat)
    requires s.direction == Vertical && Present(m, hs) > 0 ==> Nondegenerate(g.axis)
    ensures StrokeColours(SeriesBars(s, g, m, setidx, hs, serial)) == Serials(serial, Present(m, hs))
  {
    if |hs| > 0 {
      var p := hs[..|hs| - 1];
      var h := hs[|hs| - 1];
      var k := Present(m, p);
      var b := if Lookup(m, h).Num? then 1 else 0;
      var before := SeriesBars(s, g, m, setidx, p, serial);
      var bar := BarFor(s, g, m, h, |hs| - 1, setidx, serial + k);
      assert SeriesBars(s, g, m, setidx, hs, serial) == before + bar;
      assert Present(m, hs) == k + b;
      SeriesColours(s, g, m, setidx, p, serial);
      BarColours(s, g, m, h, |hs| - 1, setidx, serial + k);
      SeriesColoursStep(StrokeColours(before), StrokeColours(bar), b, serial, k, Lookup(m, h).Num?);
      StrokeColoursAppend(before, bar);
    } else {
      assert Serials(serial, 0) == [];
    }
  }

  /** Within a series, one stroke per present value. */
  lemma {:induction false} SeriesStrokes(s: BarSettings, g: Geometry, m: SeriesMap, setidx: nat, hs: seq<Heading>, serial: nat)
    requires s.direction == Vertical && Present(m, hs) > 0 ==> Nondegenerate(g.axis)
    ensures Strokes(SeriesBars(s, g, m, setidx, hs, serial)) == Present(m, hs)
  {
    if |hs| > 0 {
      var p := hs[..|hs| - 1];
      var h := hs[|hs| - 1];
      var before := SeriesBars(s, g, m, setidx, p, serial);
      var bar := BarFor(s, g, m, h, |hs| - 1, setidx, serial + Present(m, p));
      assert SeriesBars(s, g, m, setidx, hs, serial) == before + bar;
      assert Present(m, hs) == Present(m, p) + (if Lookup(m, h).Num? then 1 else 0);
      SeriesStrokes(s, g, m, setidx, p, serial);
      BarColours(s, g, m, h, |hs| - 1, setidx, serial + Present(m, p));
      StrokesAppend(before, bar);
    }
  }

  /**
   * Colour consumption: over the whole plot the strokes use the colours
   * `next_colour` hands out, consecutively and in iteration order, one per
   * present value; there is one stroke per present value.
   */
  lemma {:induction false} PlotColours(s: BarSettings, g: Geometry, vs: seq<SeriesMap>, serial: nat)
    requires s.direction == Vertical && Total(vs, s.setAxisHeadings) > 0 ==> Nondegenerate(g.axis)
    ensures StrokeColours(ReverseBars(s, g, vs, serial)) == Serials(serial, Total(vs, s.setAxisHeadings))
    ensures Strokes(ReverseBars(s, g, vs, serial)) == Total(vs, s.setAxisHeadings)
  {
    if |vs| > 0 {
      var last := vs[|vs| - 1];
      var hs := s.setAxisHeadings;
      var first := SeriesBars(s, g, last, |vs| - 1, hs, serial);
      var rest := ReverseBars(s, g, vs[..|vs| - 1], serial + Present(last, hs));
      assert ReverseBars(s, g, vs, serial) == first + rest;
      SeriesColours(s, g, last, |vs| - 1, hs, serial);
      SeriesStrokes(s, g, last, |vs| - 1, hs, serial);
      PlotColours(s, g, vs[..|vs| - 1], serial + Present(last, hs));
      StrokeColoursAppend(first, rest);
      StrokesAppend(first, rest);
      SerialsAppend(serial, Present(last, hs), Total(vs[..|vs| - 1], hs));
    } else {
      assert Serials(serial, 0) == [];
    }
  }

  /**
   * The vertical label as written is placed from the grid's x origin: its
   * distance from the end of the bar shifts by base_x - base_y. With the
   * grid at (45, 40), as for `:at => [30, 20]`, it floats 5 units too high.
   */
  lemma AsWrittenLabelDetached(g: Geometry, x: int, w: real, len: int, inverted: bool)
    ensures AsWrittenVerticalLabel(g, x, w, len, inverted).y - (g.baseY + len) as real
            == (g.baseX - g.baseY) as real + (if inverted then -1.0 else (g.labelSize + 1) as real)
    ensures g.baseX == 45 && g.baseY == 40 && !inverted ==>
              AsWrittenVerticalLabel(g, x, w, len, inverted).y == CorrectedVerticalLabel(g, x, w, len, inverted).y + 5.0
  {
  }

  /**
   * Placed from the grid's y origin, the label starts `labelSize + 1` past
   * the end of an upward bar, or 1 unit short of an inverted one's end,
   * wherever the grid is; it is centred on the bar.
   */
  lemma CorrectedLabelAtBarEnd(g: Geometry, x: int, w: real, len: int, inverted: bool)
    ensures CorrectedVerticalLabel(g, x, w, len, inverted).y - (g.baseY + len) as real
            == (if inverted then -1.0 else (g.labelSize + 1) as real)
    ensures CorrectedVerticalLabel(g, x, w, len, inverted).x + w / 2.0 == x as real
  {
  }
}

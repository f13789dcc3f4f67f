/**
 * The shared chart base (lib/prawn/graph/base.rb): construction from the
 * data and the options Hash, the margins reserved for the title and axis
 * labels, and the value and heading labels drawn along the axes.
 */
module ChartBase {
  import opened Wrappers
  import opened ChartData
  import opened Surface
  import opened Scale
  import opened GridLayout

  /** Why construction fails. */
  datatype Error =
    | NoGraphStartSet   // `:at` is missing or empty
    | OriginTooShort    // `:at` has one coordinate: `at[1]` is nil and adding to it raises
    | GridArity         // ArgumentError: `Grid.new` is given a number of arguments it does not take

  /**
   * The options Hash. Absent keys are `None`; `downward`, `downwards` and
   * `headingPrinter` are the truthiness of their keys; `useColor` and
   * `useColour` record whether the key holds a non-nil value.
   */
  datatype Options = Options(
    at: Option<seq<int>>,
    width: Option<int>,
    height: Option<int>,
    spacing: Option<int>,
    title: Option<string>,
    labelX: Option<string>,
    labelY: Option<string>,
    minimumValue: Option<real>,
    maximumValue: Option<real>,
    transform: Option<Transform>,
    downward: bool,
    downwards: bool,
    markerValues: Option<seq<real>>,
    useColor: Option<bool>,
    useColour: Option<bool>,
    headingPrinter: bool)

  /** The defaults merged under the options. */
  const DefaultWidth := 500
  const DefaultHeight := 200
  const DefaultSpacing := 20

  /** What construction raises, if anything, for these options. */
  function StartError(o: Options): Option<Error> {
    if o.at.None? || |o.at.value| == 0 then Some(NoGraphStartSet)
    else if |o.at.value| < 2 then Some(OriginTooShort)
    else None
  }

  /** The value axis `initialize` settles on: bounds, transform and direction. */
  function AxisFor(data: seq<Series>, o: Options): ValueAxis {
    ValueAxis(
      o.minimumValue.GetOr(0.0),
      if o.maximumValue.Some? then o.maximumValue.value else DataMax(Wrap(data)),
      o.transform,
      o.downward || o.downwards)
  }

  /** Marker values, when there are any, need a value axis whose transformed bounds differ. */
  predicate MarkersScalable(data: seq<Series>, o: Options) {
    o.markerValues.Some? && |o.markerValues.value| > 0 ==> Nondegenerate(AxisFor(data, o))
  }

  /** Each marker value as a fraction of the value axis. */
  function MarkerFractions(a: ValueAxis, markers: seq<real>): (r: seq<real>)
    requires |markers| > 0 ==> Nondegenerate(a)
    ensures |r| == |markers|
  {
    seq(|markers|, k requires 0 <= k < |markers| => Fraction(a, markers[k]))
  }

  /** The grid's options: the spacing, the marker fractions as y markers, downwards as `reverse_y`. */
  function GridOptionsFor(data: seq<Series>, o: Options): GridOptions
    requires MarkersScalable(data, o)
  {
    GridOptions(
      Some(o.spacing.GetOr(DefaultSpacing)),
      None,
      if o.markerValues.Some? then Some(MarkerFractions(AxisFor(data, o), o.markerValues.value)) else None,
      false,
      AxisFor(data, o).downwards,
      None)
  }

  /** What `parse_sizing_from` works out, and the fields it sets on the way. */
  datatype Sizing = Sizing(
    gridX: int,
    gridY: int,
    gridWidth: int,
    gridHeight: int,
    totalWidth: int,
    totalHeight: int,
    point: seq<int>,
    title: Option<string>,
    xLabel: Option<string>,
    yLabel: Option<string>)

  /** The sizing in closed form: a base margin plus room for each label present. */
  function SizingOf(o: Options): Sizing
    requires o.at.Some? && |o.at.value| >= 2
  {
    var at := o.at.value;
    var w := o.width.GetOr(DefaultWidth);
    var h := o.height.GetOr(DefaultHeight);
    var xOffset := if o.labelY.Some? then 30 else 15;
    var yOffset := (if o.title.Some? then 10 else 0) + (if o.labelX.Some? then 30 else 0);
    var moveYUp := if o.labelX.Some? then 30 else 0;
    Sizing(at[0] + xOffset, at[1] + moveYUp + 20, w - (xOffset - 20), h - yOffset, w, h, at, o.title, o.labelX, o.labelY)
  }

  /** `parse_sizing_from`: grow the offsets for each label, then place the grid. */
  method ParseSizingFrom(o: Options) returns (r: Result<Sizing, Error>)
    requires o.at.Some? && |o.at.value| > 0
    ensures |o.at.value| < 2 ==> r == Err(OriginTooShort)
    ensures |o.at.value| >= 2 ==> r == Ok(SizingOf(o))
  {
    var xOffset := 15;
    var yOffset := 0;
    var moveYUp := 0;
    var gridWidth := o.width.GetOr(DefaultWidth);
    var gridHeight := o.height.GetOr(DefaultHeight);
    var at := o.at.value;
    var title: Option<string> := None;
    var xLabel: Option<string> := None;
    var yLabel: Option<string> := None;
    if o.title.Some? {
      title := o.title;
      yOffset := yOffset + 10;
    }
    if o.labelX.Some? {
      yOffset := yOffset + 30;
      moveYUp := moveYUp + 30;
      xLabel := o.labelX;
    }
    if o.labelY.Some? {
      yLabel := o.labelY;
      xOffset := xOffset + 15;
    }
    if |at| < 2 {
      return Err(OriginTooShort);
    }
    r := Ok(Sizing(at[0] + xOffset, at[1] + moveYUp + 20, gridWidth - (xOffset - 20), gridHeight - yOffset,
                   gridWidth, gridHeight, at, title, xLabel, yLabel));
  }

  // ---------------------------------------------------------------------------
  // The axis labels

  /** A value printed by `draw_text` at size 6. */
  function ValueText(v: real, x: int, y: int): Instr {
    DrawText(ValueLabel(v, false), Point(x as real, y as real), 6.0)
  }

  /** Labels for the marker values, skipping the two bounds, each level with its height. */
  function MarkerLabels(a: ValueAxis, gridHeight: int, markers: seq<real>, xPoint: int, baseY: int): seq<Instr>
    requires |markers| > 0 ==> Nondegenerate(a)
  {
    if |markers| == 0 then []
    else
      var v := markers[|markers| - 1];
      MarkerLabels(a, gridHeight, markers[..|markers| - 1], xPoint, baseY)
        + (if v == a.lowest || v == a.highest then []
           else [ValueText(v, xPoint, baseY + PointHeight(a, gridHeight, v) - 2)])
  }

  /** The text box of one heading, starting one unit into its slot and two units narrower. */
  function HeadingBox(h: Heading, lastPosition: int, baseY: int, spacing: int, printed: bool): Instr {
    TextBox(HeadingLabel(h, printed), Point((lastPosition + 1) as real, (baseY - 10) as real), (spacing - 2) as real, None, 5.0)
  }

  /** The heading boxes, the k-th in the slot starting at baseX + k * spacing. */
  function HeadingBoxes(headings: seq<Heading>, baseX: int, baseY: int, spacing: int, printed: bool): seq<Instr> {
    if |headings| == 0 then []
    else HeadingBoxes(headings[..|headings| - 1], baseX, baseY, spacing, printed)
           + [HeadingBox(headings[|headings| - 1], baseX + (|headings| - 1) * spacing, baseY, spacing, printed)]
  }

  class Chart {
    const headings: seq<Heading>
    const values: seq<SeriesMap>
    const highestValue: real
    const lowestValue: real
    const valueTransform: Option<Transform>
    const downwards: bool
    const colour: bool
    const document: Document
    const theme: Theme
    const markerValues: Option<seq<real>>
    const grid: Grid
    const title: Option<string>
    const xLabel: Option<string>
    const yLabel: Option<string>
    const point: seq<int>
    const totalWidth: int
    const totalHeight: int
    const headingPrinter: bool

    function Axis(): ValueAxis {
      ValueAxis(lowestValue, highestValue, valueTransform, downwards)
    }

    /** The chart draws on the grid's document, and its marker values can be scaled. */
    ghost predicate Valid() {
      && grid.document == document && grid.theme == theme
      && (markerValues.Some? && |markerValues.value| > 0 ==> Nondegenerate(Axis()))
    }

    /** Every field as `initialize` sets it from the data and the options. */
    ghost predicate Built(data: seq<Series>, document: Document, theme: Theme, o: Options)
      requires StartError(o).None? && MarkersScalable(data, o)
    {
      var sz := SizingOf(o);
      && headings == MergeHeadings(ColumnLists(Wrap(data)))
      && |values| == |Wrap(data)|
      && (forall k :: 0 <= k < |values| ==> values[k] == ToMap(Wrap(data)[k]))
      && Axis() == AxisFor(data, o)
      && colour == (o.useColor.Some? || o.useColour.Some?)
      && this.document == document && this.theme == theme
      && markerValues == o.markerValues
      && headingPrinter == o.headingPrinter
      && grid.Area() == Box(sz.gridX, sz.gridY, sz.gridWidth, sz.gridHeight)
      && grid.Options() == GridOptionsFor(data, o)
      && title == sz.title && xLabel == sz.xLabel && yLabel == sz.yLabel
      && point == sz.point && totalWidth == sz.totalWidth && totalHeight == sz.totalHeight
    }

    /** `initialize`, for options that name an origin with both coordinates. */
    constructor (data: seq<Series>, document: Document, theme: Theme, o: Options)
      requires StartError(o).None? && MarkersScalable(data, o)
      ensures Valid() && Built(data, document, theme, o)
      ensures fresh(grid)
    {
      var col, val, greatest := ProcessThe(data);
      headings := col;
      values := val;
      lowestValue := o.minimumValue.GetOr(0.0);
      highestValue := if o.maximumValue.Some? then o.maximumValue.value else greatest;
      valueTransform := o.transform;
      downwards := o.downward || o.downwards;
      var sizing := ParseSizingFrom(o);
      var sz := sizing.value;
      title, xLabel, yLabel := sz.title, sz.xLabel, sz.yLabel;
      point, totalWidth, totalHeight := sz.point, sz.totalWidth, sz.totalHeight;
      colour := o.useColor.Some? || o.useColour.Some?;
      this.document := document;
      this.theme := theme;
      markerValues := o.markerValues;
      headingPrinter := o.headingPrinter;
      var axis := ValueAxis(o.minimumValue.GetOr(0.0), if o.maximumValue.Some? then o.maximumValue.value else greatest,
                            o.transform, o.downward || o.downwards);
      var markerPoints := if o.markerValues.Some? then Some(MarkerFractions(axis, o.markerValues.value)) else None;
      grid := new Grid(sz.gridX, sz.gridY, sz.gridWidth, sz.gridHeight, document, theme,
                       GridOptions(Some(o.spacing.GetOr(DefaultSpacing)), None, markerPoints, false, o.downward || o.downwards, None));
    }

    function BaseX(): int {
      grid.StartX() + 1
    }

    function BaseY(): int {
      grid.StartY() + 1
    }

    /** Where the value labels start: left of the axis by an estimate of the highest value's width. */
    function XPoint(highestTextLength: nat): int {
      BaseX() - (4 + 4 * highestTextLength)
    }

    /** The labels at the two ends of the value axis: the top one is the highest, or the lowest when downwards. */
    function BoundLabels(highestTextLength: nat): seq<Instr> {
      [ValueText(if downwards then lowestValue else highestValue, XPoint(highestTextLength), BaseY() + grid.height - 3),
       ValueText(if downwards then highestValue else lowestValue, XPoint(highestTextLength), BaseY() - 1)]
    }

    /** Everything `label_axes` issues. */
    function LabelLog(highestTextLength: nat, pointSpacing: int): seq<Instr>
      requires Valid()
    {
      [SetFillColour(theme.fontColour)]
        + BoundLabels(highestTextLength)
        + (if markerValues.Some? then MarkerLabels(Axis(), grid.height, markerValues.value, XPoint(highestTextLength), BaseY()) else [])
        + HeadingBoxes(headings, BaseX(), BaseY(), pointSpacing, headingPrinter)
        + [SetFillColour(theme.backgroundColour)]
    }

    /** The font colour and the two bound labels of `label_axes`. */
    method DrawBoundLabels(highestTextLength: nat, xPoint: int, baseY: int)
      requires xPoint == XPoint(highestTextLength) && baseY == BaseY()
      modifies document
      ensures document.log == old(document.log) + [SetFillColour(theme.fontColour)] + BoundLabels(highestTextLength)
    {
      document.Emit(SetFillColour(theme.fontColour));
      document.Emit(ValueText(if downwards then lowestValue else highestValue, xPoint, baseY + grid.height - 3));
      document.Emit(ValueText(if downwards then highestValue else lowestValue, xPoint, baseY - 1));
    }

    /** The marker-value loop of `label_axes`. */
    method DrawMarkerLabels(xPoint: int, baseY: int)
      requires Valid() && markerValues.Some?
      modifies document
      ensures document.log == old(document.log) + MarkerLabels(Axis(), grid.height, markerValues.value, xPoint, baseY)
    {
      var markers := markerValues.value;
      ghost var log0 := document.log;
      var i := 0;
      while i < |markers|
        invariant 0 <= i <= |markers|
        invariant document.log == log0 + MarkerLabels(Axis(), grid.height, markers[..i], xPoint, baseY)
      {
        var value := markers[i];
        if !(value == lowestValue || value == highestValue) {
          document.Emit(ValueText(value, xPoint, baseY + PointHeight(Axis(), grid.height, value) - 2));
        }
        assert markers[..i + 1][..i] == markers[..i];
        i := i + 1;
      }
      assert markers[..|markers|] == markers;
    }

    /** The heading loop of `label_axes`, advancing `last_position` by the spacing. */
    method DrawHeadingBoxes(baseX: int, baseY: int, pointSpacing: int)
      modifies document
      ensures document.log == old(document.log) + HeadingBoxes(headings, baseX, baseY, pointSpacing, headingPrinter)
    {
      ghost var log0 := document.log;
      var lastPosition := baseX;
      var k := 0;
      while k < |headings|
        invariant 0 <= k <= |headings|
        invariant lastPosition == baseX + k * pointSpacing
        invariant document.log == log0 + HeadingBoxes(headings[..k], baseX, baseY, pointSpacing, headingPrinter)
      {
        document.Emit(HeadingBox(headings[k], lastPosition, baseY, pointSpacing, headingPrinter));
        assert headings[..k + 1][..k] == headings[..k];
        lastPosition := lastPosition + pointSpacing;
        k := k + 1;
      }
      assert headings[..|headings|] == headings;
    }

    /**
     * `label_axes`: the two bound labels, the marker labels, then a box per
     * heading. The plot spacing and the printed width of the highest value
     * are parameters.
     */
    method LabelAxes(highestTextLength: nat, pointSpacing: int)
      requires Valid()
      modifies document
      ensures document.log == old(document.log) + LabelLog(highestTextLength, pointSpacing)
    {
      var baseX := grid.StartX() + 1;
      var baseY := grid.StartY() + 1;
      var xPoint := baseX - (4 + 4 * highestTextLength);
      ghost var log0 := document.log;
      ghost var bounds := [SetFillColour(theme.fontColour)] + BoundLabels(highestTextLength);
      ghost var marks := if markerValues.Some? then MarkerLabels(Axis(), grid.height, markerValues.value, xPoint, baseY) else [];
      ghost var boxes := HeadingBoxes(headings, baseX, baseY, pointSpacing, headingPrinter);
      DrawBoundLabels(highestTextLength, xPoint, baseY);
      ghost var log1 := document.log;
      if markerValues.Some? {
        DrawMarkerLabels(xPoint, baseY);
      }
      assert document.log == log1 + marks;
      ghost var log2 := document.log;
      DrawHeadingBoxes(baseX, baseY, pointSpacing);
      ghost var log3 := document.log;
      document.Emit(SetFillColour(theme.backgroundColour));
      LogConcat4(log0, bounds, marks, boxes, [SetFillColour(theme.backgroundColour)], log1, log2, log3, document.log);
    }
  }

  /** `Base.new`: the `:at` check comes first; a one-coordinate origin fails while sizing. */
  method NewChart(data: seq<Series>, document: Document, theme: Theme, o: Options) returns (r: Result<Chart, Error>)
    requires StartError(o).None? ==> MarkersScalable(data, o)
    ensures StartError(o).Some? ==> r == Err(StartError(o).value)
    ensures StartError(o).None? ==> r.Ok? && fresh(r.value) && r.value.Valid() && r.value.Built(data, document, theme, o)
  {
    if o.at.None? || |o.at.value| == 0 {
      return Err(NoGraphStartSet);
    }
    if |o.at.value| < 2 {
      return Err(OriginTooShort);
    }
    var c := new Chart(data, document, theme, o);
    r := Ok(c);
  }

  /** `Grid#initialize` (grid.rb:12) takes six required parameters and one optional options Hash. */
  const GridRequiredParams := 6
  const GridOptionalParams := 1

  /** base.rb:66 passes nine positional arguments; the evidently intended call passes six and the options Hash. */
  const GridArgsAsWritten := 9
  const GridArgsIntended := 7

  /** Ruby's arity check on a call of `Grid.new` with `given` positional arguments. */
  function GridCall(given: nat): Option<Error> {
    if GridRequiredParams <= given <= GridRequiredParams + GridOptionalParams then None else Some(GridArity)
  }

  /**
   * `Base.new` as written: the `:at` checks, `process_the`, the sizing and
   * the marker fractions all come before `Grid.new`, whose nine arguments
   * then raise ArgumentError, so no chart is ever built.
   */
  method NewChartAsWritten(data: seq<Series>, o: Options) returns (r: Result<(), Error>)
    requires StartError(o).None? ==> MarkersScalable(data, o)
    ensures r.Err?
    ensures StartError(o).Some? ==> r == Err(StartError(o).value)
    ensures StartError(o).None? ==> r == Err(GridArity)
  {
    if o.at.None? || |o.at.value| == 0 {
      return Err(NoGraphStartSet);
    }
    if |o.at.value| < 2 {
      return Err(OriginTooShort);
    }
    var call := GridCall(GridArgsAsWritten);
    if call.Some? {
      return Err(call.value);
    }
    r := Ok(());
  }

  // ---------------------------------------------------------------------------
  // Properties

  /**
   * The nine arguments of base.rb:66 fail Ruby's arity check for grid.rb:12,
   * while the intended six arguments and options Hash pass it.
   */
  lemma GridCallArity()
    ensures GridCall(GridArgsAsWritten) == Some(GridArity)
    ensures GridCall(GridArgsIntended).None?
  {
  }

  /**
   * Construction fails exactly when the origin lacks a coordinate, with
   * `NoGraphStartSet` for a missing or empty one.
   */
  lemma StartErrorCases(o: Options)
    ensures StartError(o) == Some(NoGraphStartSet) <==> o.at.None? || o.at.value == []
    ensures StartError(o).None? <==> o.at.Some? && |o.at.value| >= 2
  {
  }

  /**
   * The axis bounds: lowest is `:minimum_value` or 0; without
   * `:maximum_value` the highest is the data's greatest value, which is at
   * least 0, at least every value present and, unless 0, one of them.
   */
  lemma AxisCoversData(data: seq<Series>, o: Options)
    ensures AxisFor(data, o).lowest == (if o.minimumValue.Some? then o.minimumValue.value else 0.0)
    ensures o.maximumValue.Some? ==> AxisFor(data, o).highest == o.maximumValue.value
    ensures o.maximumValue.None? ==>
              var hi := AxisFor(data, o).highest;
              var sets := Wrap(data);
              && hi >= 0.0
              && (forall k, i :: 0 <= k < |sets| && 0 <= i < |sets[k]| && sets[k][i].value.Num? ==> sets[k][i].value.x <= hi)
              && (hi == 0.0 || exists k, i :: 0 <= k < |sets| && 0 <= i < |sets[k]| && sets[k][i].value == Num(hi))
    ensures AxisFor(data, o).downwards <==> o.downward || o.downwards
  {
    GreatestBounds(Wrap(data));
  }

  /**
   * The grid's margins: the right edge is always 20 past `at.x + width` and
   * the top edge 20 past `at.y + height`, less 10 for a title; an x label
   * lifts the grid's bottom by 30 without moving its top, a y label moves
   * its left edge in by 15 without moving its right.
   */
  lemma SizingMargins(o: Options)
    requires o.at.Some? && |o.at.value| >= 2
    ensures var sz := SizingOf(o);
            var at := o.at.value;
            var w := o.width.GetOr(DefaultWidth);
            var h := o.height.GetOr(DefaultHeight);
            && sz.gridX == at[0] + 15 + (if o.labelY.Some? then 15 else 0)
            && sz.gridY == at[1] + 20 + (if o.labelX.Some? then 30 else 0)
            && sz.gridWidth == (if o.labelY.Some? then w - 10 else w + 5)
            && sz.gridHeight == h - (if o.title.Some? then 10 else 0) - (if o.labelX.Some? then 30 else 0)
            && sz.gridX + sz.gridWidth == at[0] + w + 20
            && sz.gridY + sz.gridHeight == at[1] + h + 20 - (if o.title.Some? then 10 else 0)
  {
  }

  /**
   * The bound labels agree with the scale: whatever the transform, the
   * value printed at the top of the axis maps to the full grid height and
   * the one at the bottom to 0.
   */
  lemma BoundLabelsAtExtremes(a: ValueAxis, gridHeight: int)
    requires Nondegenerate(a)
    ensures PointHeight(a, gridHeight, if a.downwards then a.lowest else a.highest) == gridHeight
    ensures PointHeight(a, gridHeight, if a.downwards then a.highest else a.lowest) == 0
  {
    var d := Transformed(a.transform, a.highest) - Transformed(a.transform, a.lowest);
    assert d != 0.0;
    assert Fraction(a, a.highest) == d / d == 1.0;
    assert Fraction(a, a.lowest) == 0.0 / d == 0.0;
    assert Trunc(gridHeight as real * 1.0) == gridHeight;
    assert Trunc(gridHeight as real * 0.0) == 0;
  }

  /**
   * A marker label sits just below its marker gridline: with the grid's
   * y markers at `fraction * height` (flipped when downwards) and the label
   * at `base_y + point_height - 2`, the label is less than 2 units below
   * the line and never above it.
   */
  lemma MarkerLabelNearGridline(a: ValueAxis, gridY: int, gridHeight: int, v: real)
    requires Nondegenerate(a) && 0.0 <= Fraction(a, v)
    requires gridHeight >= 0
    ensures var labelY := (gridY + 1 + PointHeight(a, gridHeight, v) - 2) as real;
            var lineY := gridY as real + MarkerOffset(Fraction(a, v), gridHeight, a.downwards);
            lineY - 2.0 < labelY < lineY
  {
    var f := Fraction(a, v);
    var x := f * gridHeight as real;
    ScaleMonotone(gridHeight as real, 0.0, f);
    assert x == f * gridHeight as real;
    assert 0.0 <= gridHeight as real * f;
    var t := Trunc(gridHeight as real * f);
    assert t as real <= x < t as real + 1.0;
  }

  /** The k-th heading box starts one unit into the k-th slot. */
  lemma {:induction false} HeadingBoxesAt(headings: seq<Heading>, baseX: int, baseY: int, spacing: int, printed: bool)
    ensures |HeadingBoxes(headings, baseX, baseY, spacing, printed)| == |headings|
    ensures forall k :: 0 <= k < |headings| ==>
              HeadingBoxes(headings, baseX, baseY, spacing, printed)[k] == HeadingBox(headings[k], baseX + k * spacing, baseY, spacing, printed)
  {
    if |headings| > 0 {
      var p := headings[..|headings| - 1];
      HeadingBoxesAt(p, baseX, baseY, spacing, printed);
      assert forall k :: 0 <= k < |p| ==> p[k] == headings[k];
    }
  }

  /**
   * Adjacent heading boxes leave a 2-unit gap, and with the base plot
   * spacing the last box ends inside the grid: base_x = start_x + 1, so its
   * right edge is start_x + n * spacing, at most start_x + grid width.
   */
  lemma HeadingBoxesTile(headings: seq<Heading>, startX: int, baseY: int, gridWidth: int, printed: bool)
    requires |headings| > 0
    ensures var spacing := PlotSpacing(gridWidth, |headings|);
            var boxes := HeadingBoxes(headings, startX + 1, baseY, spacing, printed);
            && |boxes| == |headings|
            && (forall k :: 0 <= k < |boxes| ==> boxes[k].TextBox?)
            && (forall k :: 0 <= k < |boxes| - 1 ==> boxes[k + 1].boxAt.x - (boxes[k].boxAt.x + boxes[k].boxWidth) == 2.0)
            && boxes[0].boxAt.x == (startX + 2) as real
            && boxes[|boxes| - 1].boxAt.x + boxes[|boxes| - 1].boxWidth <= (startX + gridWidth) as real
  {
    var spacing := PlotSpacing(gridWidth, |headings|);
    var n := |headings|;
    HeadingBoxesAt(headings, startX + 1, baseY, spacing, printed);
    SlotsTile(gridWidth, n);
    var boxes := HeadingBoxes(headings, startX + 1, baseY, spacing, printed);
    forall k | 0 <= k < n - 1
      ensures boxes[k + 1].boxAt.x - (boxes[k].boxAt.x + boxes[k].boxWidth) == 2.0
    {
      assert (startX + 1 + (k + 1) * spacing) - (startX + 1 + k * spacing) == spacing;
    }
    assert (startX + 1 + (n - 1) * spacing + 1) + (spacing - 2) == startX + n * spacing;
  }

  /**
   * The marker labels: one per marker value that is neither bound, each
   * level with that value's height, and nothing else.
   */
  lemma {:induction false} MarkerLabelsShape(a: ValueAxis, gridHeight: int, markers: seq<real>, xPoint: int, baseY: int)
    requires |markers| > 0 ==> Nondegenerate(a)
    ensures forall i :: 0 <= i < |MarkerLabels(a, gridHeight, markers, xPoint, baseY)| ==>
              var t := MarkerLabels(a, gridHeight, markers, xPoint, baseY)[i];
              && t.DrawText? && t.text.ValueLabel?
              && t.text.value in markers && t.text.value != a.lowest && t.text.value != a.highest
              && t == ValueText(t.text.value, xPoint, baseY + PointHeight(a, gridHeight, t.text.value) - 2)
    ensures forall k :: 0 <= k < |markers| && markers[k] != a.lowest && markers[k] != a.highest ==>
              ValueText(markers[k], xPoint, baseY + PointHeight(a, gridHeight, markers[k]) - 2) in MarkerLabels(a, gridHeight, markers, xPoint, baseY)
  {
    if |markers| > 0 {
      var p := markers[..|markers| - 1];
      MarkerLabelsShape(a, gridHeight, p, xPoint, baseY);
      assert forall k :: 0 <= k < |p| ==> p[k] == markers[k];
      assert forall v :: v in p ==> v in markers;
    }
  }
}

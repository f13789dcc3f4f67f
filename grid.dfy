/**
 * The plotting area of a chart (lib/prawn/graph/grid.rb): its origin and
 * size, and `draw`, which strokes marker and auto-spaced gridlines, then
 * the two axis lines, and leaves the surface in a fixed state.
 */
module GridLayout {
  import opened Wrappers
  import opened Surface
  import opened Scale

  datatype Axis = XAxis | YAxis

  /** The options Hash of Grid.new. */
  datatype GridOptions = GridOptions(
    spacing: Option<int>,
    xMarkers: Option<seq<real>>,
    yMarkers: Option<seq<real>>,
    reverseX: bool,
    reverseY: bool,
    autoaxis: Option<Axis>)

  /** `offset = extent - offset if reverse`. */
  function Flip(offset: real, extent: int, reverse: bool): real {
    if reverse then extent as real - offset else offset
  }

  /** A marker gridline's offset: its fraction of the extent, flipped when reversed. */
  function MarkerOffset(fraction: real, extent: int, reverse: bool): real {
    Flip(fraction * extent as real, extent, reverse)
  }

  function MarkerOffsets(fractions: seq<real>, extent: int, reverse: bool): (r: seq<real>)
    ensures |r| == |fractions|
  {
    seq(|fractions|, k requires 0 <= k < |fractions| => MarkerOffset(fractions[k], extent, reverse))
  }

  /** `(extent / spacing).to_i.times`: a negative count runs no times. */
  function AutoCount(extent: int, spacing: int): nat
    requires spacing != 0
  {
    var q := FloorDiv(extent, spacing);
    if q < 0 then 0 else q
  }

  /** Auto gridline offsets: `spacing * (k + 1)` for each of the counted lines, flipped when reversed. */
  function AutoOffsets(extent: int, spacing: int, reverse: bool): (r: seq<real>)
    requires spacing != 0
    ensures |r| == AutoCount(extent, spacing)
  {
    seq(AutoCount(extent, spacing), k requires 0 <= k < AutoCount(extent, spacing) =>
      Flip((spacing * (k + 1)) as real, extent, reverse))
  }

  /** Auto gridlines along an axis need a spacing to divide by. */
  predicate SpacingUsable(o: GridOptions, stroke: bool) {
    (stroke && ((o.yMarkers.None? && o.autoaxis == Some(YAxis)) || (o.xMarkers.None? && o.autoaxis == Some(XAxis))))
    ==> o.spacing.Some? && o.spacing.value != 0
  }

  /** Offsets of the horizontal gridlines: explicit y markers first, else auto lines when `autoaxis == :y`. */
  function YOffsets(b: Box, o: GridOptions): seq<real>
    requires SpacingUsable(o, true)
  {
    if o.yMarkers.Some? then MarkerOffsets(o.yMarkers.value, b.height, o.reverseY)
    else if o.autoaxis == Some(YAxis) then AutoOffsets(b.height, o.spacing.value, o.reverseY)
    else []
  }

  /** Offsets of the vertical gridlines: explicit x markers first, else auto lines when `autoaxis == :x`. */
  function XOffsets(b: Box, o: GridOptions): seq<real>
    requires SpacingUsable(o, true)
  {
    if o.xMarkers.Some? then MarkerOffsets(o.xMarkers.value, b.width, o.reverseX)
    else if o.autoaxis == Some(XAxis) then AutoOffsets(b.width, o.spacing.value, o.reverseX)
    else []
  }

  /** Marker lines are 0.25 wide, auto lines 0.5. */
  function LineWidthFor(markers: Option<seq<real>>): real {
    if markers.Some? then 0.25 else 0.5
  }

  /** One full-width horizontal gridline at a vertical offset. */
  function HLine(b: Box, offset: real, w: real): seq<Instr> {
    [MoveTo(Point(b.x as real, b.y as real + offset)),
     SetLineWidth(w),
     LineTo(Point((b.x + b.width) as real, b.y as real + offset))]
  }

  function HLines(b: Box, offsets: seq<real>, w: real): seq<Instr> {
    if |offsets| == 0 then []
    else HLines(b, offsets[..|offsets| - 1], w) + HLine(b, offsets[|offsets| - 1], w)
  }

  /** One full-height vertical gridline at a horizontal offset. */
  function VLine(b: Box, offset: real, w: real): seq<Instr> {
    [MoveTo(Point(b.x as real + offset, b.y as real)),
     SetLineWidth(w),
     LineTo(Point(b.x as real + offset, (b.y + b.height) as real))]
  }

  function VLines(b: Box, offsets: seq<real>, w: real): seq<Instr> {
    if |offsets| == 0 then []
    else VLines(b, offsets[..|offsets| - 1], w) + VLine(b, offsets[|offsets| - 1], w)
  }

  /** The vertical axis from the origin up, then the horizontal axis on the bottom edge, or the top one when reversed. */
  function AxisLines(b: Box, reverseY: bool): seq<Instr> {
    var origin := Point(b.x as real, b.y as real);
    var top := Point(b.x as real, (b.y + b.height) as real);
    [MoveTo(origin), SetLineWidth(1.0), LineTo(top),
     MoveTo(if reverseY then top else origin), SetLineWidth(1.0),
     LineTo(Point((b.x + b.width) as real, if reverseY then (b.y + b.height) as real else b.y as real))]
  }

  /** The closing moves and resets of `draw`. */
  function ResetTail(b: Box): seq<Instr> {
    [MoveTo(Point(b.x as real, (b.y + b.height) as real)),
     SetStrokeColour(Hex("000000")),
     SetLineWidth(0.5),
     MoveTo(Point(b.x as real, b.y as real))]
  }

  /** Everything `draw` issues, in order. */
  function GridLog(b: Box, o: GridOptions, markerColour: Colour, stroke: bool): seq<Instr>
    requires SpacingUsable(o, stroke)
  {
    [SetStrokeColour(markerColour)]
      + (if stroke then HLines(b, YOffsets(b, o), LineWidthFor(o.yMarkers)) + VLines(b, XOffsets(b, o), LineWidthFor(o.xMarkers))
         else [])
      + AxisLines(b, o.reverseY)
      + ResetTail(b)
  }

  class Grid {
    const x: int
    const y: int
    const width: int
    const height: int
    const document: Document
    const theme: Theme
    const spacing: Option<int>
    const xMarkerPoints: Option<seq<real>>
    const yMarkerPoints: Option<seq<real>>
    const reverseX: bool
    const reverseY: bool
    const autoaxis: Option<Axis>

    /** `Grid.new(grid_x_start, grid_y_start, grid_width, grid_height, document, theme, options)`. */
    constructor (gridXStart: int, gridYStart: int, gridWidth: int, gridHeight: int,
                 document: Document, theme: Theme, options: GridOptions)
      ensures StartX() == gridXStart && StartY() == gridYStart
      ensures width == gridWidth && height == gridHeight
      ensures this.document == document && this.theme == theme
      ensures Options() == options
    {
      x := gridXStart;
      y := gridYStart;
      width := gridWidth;
      height := gridHeight;
      this.document := document;
      this.theme := theme;
      spacing := options.spacing;
      xMarkerPoints := options.xMarkers;
      yMarkerPoints := options.yMarkers;
      reverseX := options.reverseX;
      reverseY := options.reverseY;
      autoaxis := options.autoaxis;
    }

    function StartX(): int {
      x
    }

    function StartY(): int {
      y
    }

    function Area(): Box {
      Box(x, y, width, height)
    }

    function Options(): GridOptions {
      GridOptions(spacing, xMarkerPoints, yMarkerPoints, reverseX, reverseY, autoaxis)
    }

    /** `move_to`, `line_width` and `stroke_line_to` across the whole width at a vertical offset. */
    method StrokeRow(offset: real, w: real)
      modifies document
      ensures document.log == old(document.log) + HLine(Area(), offset, w)
    {
      document.Emit(MoveTo(Point(x as real, y as real + offset)));
      document.Emit(SetLineWidth(w));
      document.Emit(LineTo(Point((x + width) as real, y as real + offset)));
    }

    /** `move_to`, `line_width` and `stroke_line_to` up the whole height at a horizontal offset. */
    method StrokeColumn(offset: real, w: real)
      modifies document
      ensures document.log == old(document.log) + VLine(Area(), offset, w)
    {
      document.Emit(MoveTo(Point(x as real + offset, y as real)));
      document.Emit(SetLineWidth(w));
      document.Emit(LineTo(Point(x as real + offset, (y + height) as real)));
    }

    /** The y markers branch of `draw`: one 0.25-wide row per marker fraction. */
    method DrawRowMarkers(fractions: seq<real>)
      modifies document
      ensures document.log == old(document.log) + HLines(Area(), MarkerOffsets(fractions, height, reverseY), 0.25)
    {
      ghost var offsets := MarkerOffsets(fractions, height, reverseY);
      ghost var log0 := document.log;
      var i := 0;
      while i < |fractions|
        invariant 0 <= i <= |fractions|
        invariant document.log == log0 + HLines(Area(), offsets[..i], 0.25)
      {
        var offset := fractions[i] * height as real;
        if reverseY {
          offset := height as real - offset;
        }
        StrokeRow(offset, 0.25);
        assert offset == offsets[i];
        HLinesSnoc(Area(), offsets, i, 0.25);
        i := i + 1;
      }
      assert offsets[..|offsets|] == offsets;
    }

    /** The `autoaxis == :y` branch of `draw`: a 0.5-wide row every `spacing` units. */
    method DrawAutoRows(s: int)
      requires s != 0
      modifies document
      ensures document.log == old(document.log) + HLines(Area(), AutoOffsets(height, s, reverseY), 0.5)
    {
      ghost var offsets := AutoOffsets(height, s, reverseY);
      ghost var log0 := document.log;
      var n := AutoCount(height, s);
      var k := 0;
      while k < n
        invariant 0 <= k <= n
        invariant document.log == log0 + HLines(Area(), offsets[..k], 0.5)
      {
        var offset := (s * (k + 1)) as real;
        if reverseY {
          offset := height as real - offset;
        }
        StrokeRow(offset, 0.5);
        HLinesSnoc(Area(), offsets, k, 0.5);
        k := k + 1;
      }
      assert offsets[..|offsets|] == offsets;
    }

    /** The x markers branch of `draw`: one 0.25-wide column per marker fraction. */
    method DrawColumnMarkers(fractions: seq<real>)
      modifies document
      ensures document.log == old(document.log) + VLines(Area(), MarkerOffsets(fractions, width, reverseX), 0.25)
    {
      ghost var offsets := MarkerOffsets(fractions, width, reverseX);
      ghost var log0 := document.log;
      var i := 0;
      while i < |fractions|
        invariant 0 <= i <= |fractions|
        invariant document.log == log0 + VLines(Area(), offsets[..i], 0.25)
      {
        var offset := fractions[i] * width as real;
        if reverseX {
          offset := width as real - offset;
        }
        StrokeColumn(offset, 0.25);
        assert offset == offsets[i];
        VLinesSnoc(Area(), offsets, i, 0.25);
        i := i + 1;
      }
      assert offsets[..|offsets|] == offsets;
    }

    /** The `autoaxis == :x` branch of `draw`: a 0.5-wide column every `spacing` units. */
    method DrawAutoColumns(s: int)
      requires s != 0
      modifies document
      ensures document.log == old(document.log) + VLines(Area(), AutoOffsets(width, s, reverseX), 0.5)
    {
      ghost var offsets := AutoOffsets(width, s, reverseX);
      ghost var log0 := document.log;
      var n := AutoCount(width, s);
      var k := 0;
      while k < n
        invariant 0 <= k <= n
        invariant document.log == log0 + VLines(Area(), offsets[..k], 0.5)
      {
        var offset := (s * (k + 1)) as real;
        if reverseX {
          offset := width as real - offset;
        }
        StrokeColumn(offset, 0.5);
        VLinesSnoc(Area(), offsets, k, 0.5);
        k := k + 1;
      }
      assert offsets[..|offsets|] == offsets;
    }

    /** The horizontal gridlines of `draw`: one per y marker, else the auto lines when `autoaxis == :y`. */
    method DrawRows()
      requires SpacingUsable(Options(), true)
      modifies document
      ensures document.log == old(document.log) + HLines(Area(), YOffsets(Area(), Options()), LineWidthFor(yMarkerPoints))
    {
      if yMarkerPoints.Some? {
        DrawRowMarkers(yMarkerPoints.value);
      } else if autoaxis == Some(YAxis) {
        DrawAutoRows(spacing.value);
      } else {
        assert YOffsets(Area(), Options()) == [];
        assert document.log == document.log + [];
      }
    }

    /** The vertical gridlines of `draw`: one per x marker, else the auto lines when `autoaxis == :x`. */
    method DrawColumns()
      requires SpacingUsable(Options(), true)
      modifies document
      ensures document.log == old(document.log) + VLines(Area(), XOffsets(Area(), Options()), LineWidthFor(xMarkerPoints))
    {
      if xMarkerPoints.Some? {
        DrawColumnMarkers(xMarkerPoints.value);
      } else if autoaxis == Some(XAxis) {
        DrawAutoColumns(spacing.value);
      } else {
        assert XOffsets(Area(), Options()) == [];
        assert document.log == document.log + [];
      }
    }

    /** The two axis lines of `draw`: up the left edge, then along the bottom edge, or the top one when `reverse_y`. */
    method DrawAxes()
      modifies document
      ensures document.log == old(document.log) + AxisLines(Area(), reverseY)
    {
      var origin := Point(x as real, y as real);
      var top := Point(x as real, (y + height) as real);
      document.Emit(MoveTo(origin));
      document.Emit(SetLineWidth(1.0));
      document.Emit(LineTo(top));
      document.Emit(MoveTo(if reverseY then top else origin));
      document.Emit(SetLineWidth(1.0));
      document.Emit(LineTo(Point((x + width) as real, if reverseY then (y + height) as real else y as real)));
    }

    /** The closing calls of `draw`: black stroke, width 0.5, cursor back at the origin. */
    method ResetPosition()
      modifies document
      ensures document.log == old(document.log) + ResetTail(Area())
    {
      document.Emit(MoveTo(Point(x as real, (y + height) as real)));
      document.Emit(SetStrokeColour(Hex("000000")));
      document.Emit(SetLineWidth(0.5));
      document.Emit(MoveTo(Point(x as real, y as real)));
    }

    /** The gridlines `draw` strokes when the theme's marker switch is on. */
    ghost function Gridlines(): seq<Instr>
      requires SpacingUsable(Options(), true)
    {
      HLines(Area(), YOffsets(Area(), Options()), LineWidthFor(yMarkerPoints))
        + VLines(Area(), XOffsets(Area(), Options()), LineWidthFor(xMarkerPoints))
    }

    /** The first half of `draw`: the marker colour, then the gridlines when the theme strokes markers. */
    method DrawGridlines()
      requires SpacingUsable(Options(), theme.strokeGridMarkers)
      modifies document
      ensures theme.strokeGridMarkers ==> document.log == old(document.log) + [SetStrokeColour(theme.markerColour)] + Gridlines()
      ensures !theme.strokeGridMarkers ==> document.log == old(document.log) + [SetStrokeColour(theme.markerColour)]
    {
      document.Emit(SetStrokeColour(theme.markerColour));
      if theme.strokeGridMarkers {
        ghost var log1 := document.log;
        DrawRows();
        ghost var log2 := document.log;
        DrawColumns();
        assert document.log == log2 + VLines(Area(), XOffsets(Area(), Options()), LineWidthFor(xMarkerPoints));
        assert document.log == log1 + Gridlines();
      }
    }

    /** The second half of `draw`: the axes and the reset. */
    method DrawFrame()
      modifies document
      ensures document.log == old(document.log) + AxisLines(Area(), reverseY) + ResetTail(Area())
    {
      DrawAxes();
      ResetPosition();
    }

    /** `draw`: gridlines when the theme strokes markers, then the axes, then the reset. */
    method Draw()
      requires SpacingUsable(Options(), theme.strokeGridMarkers)
      modifies document
      ensures document.log == old(document.log) + GridLog(Area(), Options(), theme.markerColour, theme.strokeGridMarkers)
      ensures document.State() == Run(old(document.State()), GridLog(Area(), Options(), theme.markerColour, theme.strokeGridMarkers))
    {
      ghost var log0 := document.log;
      DrawGridlines();
      DrawFrame();
      ghost var full := GridLog(Area(), Options(), theme.markerColour, theme.strokeGridMarkers);
      assert document.log == log0 + full;
      RunAppend(document.start, log0, full);
    }
  }

  // ---------------------------------------------------------------------------
  // Properties

  lemma HLinesSnoc(b: Box, offsets: seq<real>, i: nat, w: real)
    requires i < |offsets|
    ensures HLines(b, offsets[..i + 1], w) == HLines(b, offsets[..i], w) + HLine(b, offsets[i], w)
  {
    assert offsets[..i + 1][..i] == offsets[..i];
  }

  lemma VLinesSnoc(b: Box, offsets: seq<real>, i: nat, w: real)
    requires i < |offsets|
    ensures VLines(b, offsets[..i + 1], w) == VLines(b, offsets[..i], w) + VLine(b, offsets[i], w)
  {
    assert offsets[..i + 1][..i] == offsets[..i];
  }

  /** The k-th horizontal gridline is a full-width stroke at offset k. */
  lemma {:induction false} HLinesAt(b: Box, offsets: seq<real>, w: real)
    ensures |HLines(b, offsets, w)| == 3 * |offsets|
    ensures forall k :: 0 <= k < |offsets| ==>
              HLines(b, offsets, w)[3 * k] == MoveTo(Point(b.x as real, b.y as real + offsets[k])) &&
              HLines(b, offsets, w)[3 * k + 1] == SetLineWidth(w) &&
              HLines(b, offsets, w)[3 * k + 2] == LineTo(Point((b.x + b.width) as real, b.y as real + offsets[k]))
  {
    if |offsets| > 0 {
      var n := |offsets| - 1;
      var p := offsets[..n];
      HLinesAt(b, p, w);
      var full := HLines(b, offsets, w);
      var prefix := HLines(b, p, w);
      assert full == prefix + HLine(b, offsets[n], w);
      forall k | 0 <= k < |offsets|
        ensures full[3 * k] == MoveTo(Point(b.x as real, b.y as real + offsets[k]))
        ensures full[3 * k + 1] == SetLineWidth(w)
        ensures full[3 * k + 2] == LineTo(Point((b.x + b.width) as real, b.y as real + offsets[k]))
      {
        if k < n {
          assert p[k] == offsets[k];
          assert full[3 * k] == prefix[3 * k];
          assert full[3 * k + 1] == prefix[3 * k + 1];
          assert full[3 * k + 2] == prefix[3 * k + 2];
        } else {
          assert full[3 * k] == HLine(b, offsets[n], w)[0];
          assert full[3 * k + 1] == HLine(b, offsets[n], w)[1];
          assert full[3 * k + 2] == HLine(b, offsets[n], w)[2];
        }
      }
    }
  }

  /** The k-th vertical gridline is a full-height stroke at offset k. */
  lemma {:induction false} VLinesAt(b: Box, offsets: seq<real>, w: real)
    ensures |VLines(b, offsets, w)| == 3 * |offsets|
    ensures forall k :: 0 <= k < |offsets| ==>
              VLines(b, offsets, w)[3 * k] == MoveTo(Point(b.x as real + offsets[k], b.y as real)) &&
              VLines(b, offsets, w)[3 * k + 1] == SetLineWidth(w) &&
              VLines(b, offsets, w)[3 * k + 2] == LineTo(Point(b.x as real + offsets[k], (b.y + b.height) as real))
  {
    if |offsets| > 0 {
      var n := |offsets| - 1;
      var p := offsets[..n];
      VLinesAt(b, p, w);
      var full := VLines(b, offsets, w);
      var prefix := VLines(b, p, w);
      assert full == prefix + VLine(b, offsets[n], w);
      forall k | 0 <= k < |offsets|
        ensures full[3 * k] == MoveTo(Point(b.x as real + offsets[k], b.y as real))
        ensures full[3 * k + 1] == SetLineWidth(w)
        ensures full[3 * k + 2] == LineTo(Point(b.x as real + offsets[k], (b.y + b.height) as real))
      {
        if k < n {
          assert p[k] == offsets[k];
          assert full[3 * k] == prefix[3 * k];
          assert full[3 * k + 1] == prefix[3 * k + 1];
          assert full[3 * k + 2] == prefix[3 * k + 2];
        } else {
          assert full[3 * k] == VLine(b, offsets[n], w)[0];
          assert full[3 * k + 1] == VLine(b, offsets[n], w)[1];
          assert full[3 * k + 2] == VLine(b, offsets[n], w)[2];
        }
      }
    }
  }

  /** A move, a width change and a stroke: one stroke. */
  lemma OneStroke(a: Instr, c: Instr, d: Instr)
    requires !a.LineTo? && !c.LineTo? && d.LineTo?
    ensures Strokes([a, c, d]) == 1
  {
    StrokesOne(a);
    StrokesOne(c);
    StrokesOne(d);
    StrokesAppend([a], [c]);
    StrokesAppend([a, c], [d]);
    assert [a] + [c] == [a, c];
    assert [a, c] + [d] == [a, c, d];
  }

  lemma {:induction false} HLinesStrokes(b: Box, offsets: seq<real>, w: real)
    ensures Strokes(HLines(b, offsets, w)) == |offsets|
  {
    if |offsets| > 0 {
      var p := offsets[..|offsets| - 1];
      HLinesStrokes(b, p, w);
      var line := HLine(b, offsets[|offsets| - 1], w);
      OneStroke(line[0], line[1], line[2]);
      assert line == [line[0], line[1], line[2]];
      StrokesAppend(HLines(b, p, w), line);
    }
  }

  lemma {:induction false} VLinesStrokes(b: Box, offsets: seq<real>, w: real)
    ensures Strokes(VLines(b, offsets, w)) == |offsets|
  {
    if |offsets| > 0 {
      var p := offsets[..|offsets| - 1];
      VLinesStrokes(b, p, w);
      var line := VLine(b, offsets[|offsets| - 1], w);
      OneStroke(line[0], line[1], line[2]);
      assert line == [line[0], line[1], line[2]];
      StrokesAppend(VLines(b, p, w), line);
    }
  }

  lemma AxisAndTailStrokes(b: Box, reverseY: bool)
    ensures Strokes(AxisLines(b, reverseY)) == 2
    ensures Strokes(ResetTail(b)) == 0
  {
    var axes := AxisLines(b, reverseY);
    OneStroke(axes[0], axes[1], axes[2]);
    OneStroke(axes[3], axes[4], axes[5]);
    StrokesAppend([axes[0], axes[1], axes[2]], [axes[3], axes[4], axes[5]]);
    assert axes == [axes[0], axes[1], axes[2]] + [axes[3], axes[4], axes[5]];
    var tail := ResetTail(b);
    StrokesOne(tail[0]);
    StrokesOne(tail[1]);
    StrokesOne(tail[2]);
    StrokesOne(tail[3]);
    StrokesAppend([tail[0]], [tail[1]]);
    StrokesAppend([tail[0], tail[1]], [tail[2]]);
    StrokesAppend([tail[0], tail[1], tail[2]], [tail[3]]);
    assert [tail[0]] + [tail[1]] == [tail[0], tail[1]];
    assert [tail[0], tail[1]] + [tail[2]] == [tail[0], tail[1], tail[2]];
    assert tail == [tail[0], tail[1], tail[2]] + [tail[3]];
  }

  /**
   * One stroke per gridline and two axis strokes: with the theme's marker
   * switch off only the two axis lines are stroked.
   */
  lemma GridStrokeCount(b: Box, o: GridOptions, markerColour: Colour, stroke: bool)
    requires SpacingUsable(o, stroke)
    ensures Strokes(GridLog(b, o, markerColour, stroke)) ==
            2 + (if stroke then |YOffsets(b, o)| + |XOffsets(b, o)| else 0)
  {
    var head := [SetStrokeColour(markerColour)];
    var lines := if stroke then HLines(b, YOffsets(b, o), LineWidthFor(o.yMarkers)) + VLines(b, XOffsets(b, o), LineWidthFor(o.xMarkers)) else [];
    if stroke {
      HLinesStrokes(b, YOffsets(b, o), LineWidthFor(o.yMarkers));
      VLinesStrokes(b, XOffsets(b, o), LineWidthFor(o.xMarkers));
      StrokesAppend(HLines(b, YOffsets(b, o), LineWidthFor(o.yMarkers)), VLines(b, XOffsets(b, o), LineWidthFor(o.xMarkers)));
    }
    StrokesOne(SetStrokeColour(markerColour));
    AxisAndTailStrokes(b, o.reverseY);
    StrokesAppend(head, lines);
    StrokesAppend(head + lines, AxisLines(b, o.reverseY));
    StrokesAppend(head + lines + AxisLines(b, o.reverseY), ResetTail(b));
  }

  /** Explicit markers win over `autoaxis`: with markers set, the auto setting does not change that axis's gridlines. */
  lemma MarkersTakePrecedence(b: Box, o: GridOptions, a: Option<Axis>)
    requires SpacingUsable(o, true) && SpacingUsable(o.(autoaxis := a), true)
    ensures o.yMarkers.Some? ==> YOffsets(b, o.(autoaxis := a)) == YOffsets(b, o)
    ensures o.xMarkers.Some? ==> XOffsets(b, o.(autoaxis := a)) == XOffsets(b, o)
  {
  }

  /** The k-th auto line, counted from 0, is inside the extent. */
  lemma AutoStepInRange(n: nat, spacing: int, extent: int, k: nat)
    requires spacing > 0 && n * spacing <= extent && k < n
    ensures 0 < spacing * (k + 1) <= extent
  {
    assert spacing * n - spacing * (k + 1) == spacing * (n - k - 1);
  }

  /**
   * Auto gridlines: floor(extent / spacing) of them, evenly spaced, all in
   * (0, extent], or in [0, extent) when reversed.
   */
  lemma AutoOffsetsInRange(extent: int, spacing: int, reverse: bool)
    requires spacing > 0 && extent >= 0
    ensures |AutoOffsets(extent, spacing, reverse)| * spacing <= extent < (|AutoOffsets(extent, spacing, reverse)| + 1) * spacing
    ensures forall k :: 0 <= k < |AutoOffsets(extent, spacing, reverse)| ==>
              var off := AutoOffsets(extent, spacing, reverse)[k];
              (!reverse ==> 0.0 < off <= extent as real) && (reverse ==> 0.0 <= off < extent as real)
    ensures forall k :: 0 < k < |AutoOffsets(extent, spacing, reverse)| ==>
              var offs := AutoOffsets(extent, spacing, reverse);
              (if reverse then offs[k - 1] - offs[k] else offs[k] - offs[k - 1]) == spacing as real
  {
    var n := AutoCount(extent, spacing);
    var offs := AutoOffsets(extent, spacing, reverse);
    assert n * spacing <= extent < n * spacing + spacing;
    assert (n + 1) * spacing == n * spacing + spacing;
    forall k | 0 <= k < n
      ensures (!reverse ==> 0.0 < offs[k] <= extent as real) && (reverse ==> 0.0 <= offs[k] < extent as real)
    {
      AutoStepInRange(n, spacing, extent, k);
    }
    forall k | 0 < k < n
      ensures (if reverse then offs[k - 1] - offs[k] else offs[k] - offs[k - 1]) == spacing as real
    {
      assert spacing * (k + 1) - spacing * k == spacing;
    }
  }

  /** A marker gridline given a fraction in [0, 1] lies within the extent; reversing mirrors it. */
  lemma MarkerOffsetsInRange(fractions: seq<real>, extent: int, reverse: bool)
    requires extent >= 0
    requires forall k :: 0 <= k < |fractions| ==> 0.0 <= fractions[k] <= 1.0
    ensures forall k :: 0 <= k < |fractions| ==> 0.0 <= MarkerOffsets(fractions, extent, reverse)[k] <= extent as real
    ensures forall k :: 0 <= k < |fractions| ==>
              MarkerOffsets(fractions, extent, true)[k] == extent as real - MarkerOffsets(fractions, extent, false)[k]
  {
    forall k | 0 <= k < |fractions|
      ensures 0.0 <= MarkerOffsets(fractions, extent, reverse)[k] <= extent as real
    {
      var e := extent as real;
      ScaleMonotone(e, fractions[k], 1.0);
      ScaleMonotone(e, 0.0, fractions[k]);
      assert 0.0 <= fractions[k] * e <= e;
    }
  }

  /** A log with no fill or mask instructions leaves the fill colour and the mask stack alone. */
  predicate KeepsFill(log: seq<Instr>) {
    forall i :: 0 <= i < |log| ==> !log[i].SetFillColour? && !log[i].BeginMask? && !log[i].EndMask?
  }

  lemma {:induction false} RunKeepsFill(s: SurfaceState, log: seq<Instr>)
    requires KeepsFill(log)
    ensures Run(s, log).fill == s.fill && Run(s, log).masked == s.masked
  {
    if |log| > 0 {
      RunKeepsFill(s, log[..|log| - 1]);
    }
  }

  lemma {:induction false} HLinesKeepFill(b: Box, offsets: seq<real>, w: real)
    ensures KeepsFill(HLines(b, offsets, w))
  {
    if |offsets| > 0 {
      HLinesKeepFill(b, offsets[..|offsets| - 1], w);
    }
  }

  lemma {:induction false} VLinesKeepFill(b: Box, offsets: seq<real>, w: real)
    ensures KeepsFill(VLines(b, offsets, w))
  {
    if |offsets| > 0 {
      VLinesKeepFill(b, offsets[..|offsets| - 1], w);
    }
  }

  lemma RunResetTail(t: SurfaceState, b: Box)
    ensures Run(t, ResetTail(b)) == t.(cursor := Point(b.x as real, b.y as real), lineWidth := 0.5, stroke := Hex("000000"))
  {
    var tail := ResetTail(b);
    assert tail == [tail[0]] + [tail[1]] + [tail[2]] + [tail[3]];
    RunAppend(t, [tail[0]] + [tail[1]] + [tail[2]], [tail[3]]);
    RunAppend(t, [tail[0]] + [tail[1]], [tail[2]]);
    RunAppend(t, [tail[0]], [tail[1]]);
    var t1 := Run(t, [tail[0]]);
    RunOne(t, tail[0]);
    var t2 := Run(t1, [tail[1]]);
    RunOne(t1, tail[1]);
    var t3 := Run(t2, [tail[2]]);
    RunOne(t2, tail[2]);
    RunOne(t3, tail[3]);
  }

  /**
   * After `draw` the stroke colour is black, the line width 0.5 and the
   * cursor at the origin; the fill colour is what it was.
   */
  lemma GridFinalState(b: Box, o: GridOptions, markerColour: Colour, stroke: bool, s: SurfaceState)
    requires SpacingUsable(o, stroke)
    ensures Run(s, GridLog(b, o, markerColour, stroke)) ==
            s.(cursor := Point(b.x as real, b.y as real), lineWidth := 0.5, stroke := Hex("000000"))
  {
    var lines := if stroke then HLines(b, YOffsets(b, o), LineWidthFor(o.yMarkers)) + VLines(b, XOffsets(b, o), LineWidthFor(o.xMarkers)) else [];
    if stroke {
      HLinesKeepFill(b, YOffsets(b, o), LineWidthFor(o.yMarkers));
      VLinesKeepFill(b, XOffsets(b, o), LineWidthFor(o.xMarkers));
    }
    var body := [SetStrokeColour(markerColour)] + lines + AxisLines(b, o.reverseY);
    assert KeepsFill(body);
    RunKeepsFill(s, body);
    RunAppend(s, body, ResetTail(b));
    RunResetTail(Run(s, body), b);
  }
}

/**
 * Line charts (lib/prawn/graph/line.rb): `plot_values` turns each series
 * into a point list with a hole for every missing value, strokes a segment
 * between every two neighbouring points that are both present, and marks
 * each present point with a filled and a stroked circle.
 */
module LineChart {
  import opened Wrappers
  import opened ChartData
  import opened Surface
  import opened Scale
  import opened GridLayout
  import opened ChartBase

  /** The positions `plot_values` works from: the base corner, the slot spacing and the value axis. */
  datatype Layout = Layout(baseX: int, baseY: int, spacing: int, gridHeight: int, axis: ValueAxis)

  /** The abscissa of slot `i`: half a slot in from the base, then one slot per heading. */
  function SlotX(l: Layout, i: nat): int {
    l.baseX + FloorDiv(l.spacing, 2) + i * l.spacing
  }

  /** Slot `i` of the point list: the value's point, or a hole when the value is missing. */
  function Slot(l: Layout, m: SeriesMap, h: Heading, i: nat): Option<Point>
    requires Lookup(m, h).Num? ==> Nondegenerate(l.axis)
  {
    if Lookup(m, h).Num? then Some(Point(SlotX(l, i) as real, (l.baseY + PointHeight(l.axis, l.gridHeight, Lookup(m, h).x)) as real))
    else None
  }

  /** The point list `p` of a series over the headings. */
  function Points(l: Layout, m: SeriesMap, hs: seq<Heading>): seq<Option<Point>>
    requires Present(m, hs) > 0 ==> Nondegenerate(l.axis)
  {
    if |hs| == 0 then []
    else
      var prefix := hs[..|hs| - 1];
      Points(l, m, prefix) + [Slot(l, m, hs[|hs| - 1], |hs| - 1)]
  }

  /** Point `i` of `p[0..-2]`: a move to it when present, and a stroke on to the next one when that is present too. */
  function SegmentAt(p: seq<Option<Point>>, i: nat): seq<Instr>
    requires i + 1 < |p|
  {
    if p[i].Some? then [MoveTo(p[i].value)] + (if p[i + 1].Some? then [LineTo(p[i + 1].value)] else [])
    else []
  }

  /** How many points `p[0..-2]` holds: all but the last. */
  function SegmentCount(p: seq<Option<Point>>): nat {
    if |p| == 0 then 0 else |p| - 1
  }

  /** The segment pass over the first `n` points of `p[0..-2]`. */
  function Segments(p: seq<Option<Point>>, n: nat): seq<Instr>
    requires n <= SegmentCount(p)
  {
    if n == 0 then [] else Segments(p, n - 1) + SegmentAt(p, n - 1)
  }

  /** The circles of one slot: a filled and a stroked one of radius 2 at a present point. */
  function CircleAt(q: Option<Point>): seq<Instr> {
    if q.Some? then [FillCircle(q.value, 2.0), StrokeCircle(q.value, 2.0)] else []
  }

  /** The circle pass over the first `n` slots. */
  function Circles(p: seq<Option<Point>>, n: nat): seq<Instr>
    requires n <= |p|
  {
    if n == 0 then [] else Circles(p, n - 1) + CircleAt(p[n - 1])
  }

  /**
   * Everything one series issues: width 2, a white fill and the palette
   * colour of its index, the segments, then width 1 and the circles.
   */
  function SeriesLog(l: Layout, palette: seq<Colour>, m: SeriesMap, setidx: nat, hs: seq<Heading>): seq<Instr>
    requires |palette| > 0
    requires Present(m, hs) > 0 ==> Nondegenerate(l.axis)
  {
    var p := Points(l, m, hs);
    SeriesHeadList(palette[setidx % |palette|]) + Segments(p, SegmentCount(p)) + [SetLineWidth(1.0)] + Circles(p, |p|)
  }

  /** What a series issues before its segments: width 2, a white fill and its colour. */
  function SeriesHeadList(c: Colour): seq<Instr> {
    [SetLineWidth(2.0), SetFillColour(Hex("FFFFFF")), SetStrokeColour(c)]
  }

  /** The series logs from the last series to the first, each with its own index. */
  function ReverseLog(l: Layout, palette: seq<Colour>, vs: seq<SeriesMap>, hs: seq<Heading>): seq<Instr>
    requires |palette| > 0
    requires Total(vs, hs) > 0 ==> Nondegenerate(l.axis)
  {
    if |vs| == 0 then []
    else SeriesLog(l, palette, vs[|vs| - 1], |vs| - 1, hs) + ReverseLog(l, palette, vs[..|vs| - 1], hs)
  }

  // ---------------------------------------------------------------------------
  // Reference definitions on the point list

  /** The neighbouring pairs of slots both present among the first `n + 1` slots, in order. */
  function Pairs(p: seq<Option<Point>>, n: nat): seq<(Point, Point)>
    requires n <= SegmentCount(p)
  {
    if n == 0 then []
    else Pairs(p, n - 1) + (if p[n - 1].Some? && p[n].Some? then [(p[n - 1].value, p[n].value)] else [])
  }

  /** The present points among the first `n` slots, in order. */
  function PresentPoints(p: seq<Option<Point>>, n: nat): seq<Point>
    requires n <= |p|
  {
    if n == 0 then [] else PresentPoints(p, n - 1) + (if p[n - 1].Some? then [p[n - 1].value] else [])
  }

  /** The centres of the filled circles (or of the stroked ones) a log draws, with their radius. */
  function CircleCentres(log: seq<Instr>, filled: bool): seq<(Point, real)> {
    if |log| == 0 then []
    else
      var i := log[|log| - 1];
      CircleCentres(log[..|log| - 1], filled)
        + (if (filled && i.FillCircle?) || (!filled && i.StrokeCircle?) then [(i.centre, i.radius)] else [])
  }

  class Line {
    const chart: Chart

    constructor (chart: Chart)
      ensures this.chart == chart
    {
      this.chart := chart;
    }

    /** The palette is not empty, and an axis a present value is scaled on can scale it. */
    ghost predicate Plottable() {
      && chart.Valid()
      && |chart.theme.colours| > 0
      && (Total(chart.values, chart.headings) > 0 ==> Nondegenerate(chart.Axis()))
    }

    /** The base corner is one unit right of the grid origin; slots share out the grid width. */
    function Lay(): Layout
      requires |chart.headings| > 0
    {
      Layout(chart.grid.StartX() + 1, chart.grid.StartY() + 0, PlotSpacing(chart.grid.width, |chart.headings|),
             chart.grid.height, chart.Axis())
    }

    /** The heading loop: one slot per heading, `last_position` moving on by a slot each time. */
    method BuildPoints(l: Layout, m: SeriesMap) returns (p: seq<Option<Point>>)
      requires Present(m, chart.headings) > 0 ==> Nondegenerate(l.axis)
      ensures p == Points(l, m, chart.headings)
    {
      var hs := chart.headings;
      p := [];
      var lastPosition := l.baseX + FloorDiv(l.spacing, 2);
      var i := 0;
      while i < |hs|
        invariant 0 <= i <= |hs|
        invariant Present(m, hs[..i]) <= Present(m, hs)
        invariant lastPosition == SlotX(l, i)
        invariant p == Points(l, m, hs[..i])
      {
        PresentPrefix(m, hs, i + 1);
        assert hs[..i + 1][..i] == hs[..i];
        var value := Lookup(m, hs[i]);
        if value.Num? {
          var barHeight := PointHeight(l.axis, l.gridHeight, value.x);
          p := p + [Some(Point(lastPosition as real, (l.baseY + barHeight) as real))];
        } else {
          p := p + [None];
        }
        assert (i + 1) * l.spacing == i * l.spacing + l.spacing;
        lastPosition := lastPosition + l.spacing;
        i := i + 1;
      }
      assert hs[..|hs|] == hs;
    }

    /** The pass over `p[0..-2]`. */
    method DrawSegments(p: seq<Option<Point>>)
      modifies chart.document
      ensures chart.document.log == old(chart.document.log) + Segments(p, SegmentCount(p))
    {
      ghost var log0 := chart.document.log;
      var n := if |p| == 0 then 0 else |p| - 1;
      var i := 0;
      while i < n
        invariant 0 <= i <= n == SegmentCount(p)
        invariant chart.document.log == log0 + Segments(p, i)
      {
        if p[i].Some? {
          chart.document.Emit(MoveTo(p[i].value));
          if p[i + 1].Some? {
            chart.document.Emit(LineTo(p[i + 1].value));
          }
        }
        i := i + 1;
      }
    }

    /** The pass over every slot of `p`. */
    method DrawCircles(p: seq<Option<Point>>)
      modifies chart.document
      ensures chart.document.log == old(chart.document.log) + Circles(p, |p|)
    {
      ghost var log0 := chart.document.log;
      var i := 0;
      while i < |p|
        invariant 0 <= i <= |p|
        invariant chart.document.log == log0 + Circles(p, i)
      {
        if p[i].Some? {
          chart.document.Emit(FillCircle(p[i].value, 2.0));
          chart.document.Emit(StrokeCircle(p[i].value, 2.0));
        }
        i := i + 1;
      }
    }

    /** One series: its points, then the widths, fill and colour, the segments and the circles. */
    method PlotSeries(l: Layout, m: SeriesMap, setidx: nat)
      requires |chart.theme.colours| > 0
      requires Present(m, chart.headings) > 0 ==> Nondegenerate(l.axis)
      modifies chart.document
      ensures chart.document.log == old(chart.document.log) + SeriesLog(l, chart.theme.colours, m, setidx, chart.headings)
    {
      ghost var log0 := chart.document.log;
      var p := BuildPoints(l, m);
      var colour := chart.theme.colours[setidx % |chart.theme.colours|];
      chart.document.Emit(SetLineWidth(2.0));
      chart.document.Emit(SetFillColour(Hex("FFFFFF")));
      chart.document.Emit(SetStrokeColour(colour));
      ghost var head := SeriesHeadList(colour);
      assert chart.document.log == log0 + head;
      DrawSegments(p);
      ghost var log1 := chart.document.log;
      chart.document.Emit(SetLineWidth(1.0));
      DrawCircles(p);
      SeriesLogParts(l, chart.theme.colours, m, setidx, chart.headings, log0, log1, chart.document.log);
    }

    /**
     * `plot_values`: every series from the last to the first, each with its
     * index in the data. With no headings the slot spacing divides by zero
     * and the source raises before drawing anything.
     */
    method PlotValues() returns (raised: bool)
      requires Plottable()
      modifies chart.document
      ensures raised <==> |chart.headings| == 0
      ensures raised ==> chart.document.log == old(chart.document.log)
      ensures !raised ==> chart.document.log == old(chart.document.log) + ReverseLog(Lay(), chart.theme.colours, chart.values, chart.headings)
    {
      if |chart.headings| == 0 {
        return true;
      }
      raised := false;
      var hs := chart.headings;
      var values := chart.values;
      var l := Layout(chart.grid.StartX() + 1, chart.grid.StartY() + 0, PlotSpacing(chart.grid.width, |hs|),
                      chart.grid.height, chart.Axis());
      ghost var palette := chart.theme.colours;
      ghost var log0 := chart.document.log;
      ghost var whole := ReverseLog(l, palette, values, hs);
      var setidx := |values|;
      assert values[..setidx] == values;
      while setidx > 0
        invariant 0 <= setidx <= |values|
        invariant Total(values[..setidx], hs) <= Total(values, hs)
        invariant chart.document.log + ReverseLog(l, palette, values[..setidx], hs) == log0 + whole
      {
        setidx := setidx - 1;
        TotalPrefix(values, hs, setidx + 1);
        ghost var before := chart.document.log;
        PlotSeries(l, values[setidx], setidx);
        SeriesStep(l, palette, values, hs, setidx, before, chart.document.log, log0, whole);
      }
      assert values[..0] == [];
      assert chart.document.log + [] == chart.document.log;
    }
  }

  // ---------------------------------------------------------------------------
  // Properties

  /** A series log assembled from its head, its segment pass, the width change and its circle pass. */
  lemma SeriesLogParts(l: Layout, palette: seq<Colour>, m: SeriesMap, setidx: nat, hs: seq<Heading>,
                       log0: seq<Instr>, log1: seq<Instr>, log2: seq<Instr>)
    requires |palette| > 0
    requires Present(m, hs) > 0 ==> Nondegenerate(l.axis)
    requires var p := Points(l, m, hs);
             log1 == log0 + SeriesHeadList(palette[setidx % |palette|])
                     + Segments(p, SegmentCount(p))
    requires var p := Points(l, m, hs);
             log2 == log1 + [SetLineWidth(1.0)] + Circles(p, |p|)
    ensures log2 == log0 + SeriesLog(l, palette, m, setidx, hs)
  {
  }

  /** The log after one more series, taken from the end. */
  lemma SeriesStep(l: Layout, palette: seq<Colour>, vs: seq<SeriesMap>, hs: seq<Heading>, k: nat,
                   before: seq<Instr>, after: seq<Instr>, log0: seq<Instr>, whole: seq<Instr>)
    requires |palette| > 0 && k < |vs|
    requires Total(vs[..k + 1], hs) > 0 ==> Nondegenerate(l.axis)
    requires after == before + SeriesLog(l, palette, vs[k], k, hs)
    requires before + ReverseLog(l, palette, vs[..k + 1], hs) == log0 + whole
    ensures Total(vs[..k + 1], hs) == Present(vs[k], hs) + Total(vs[..k], hs)
    ensures after + ReverseLog(l, palette, vs[..k], hs) == log0 + whole
  {
    assert vs[..k + 1][..k] == vs[..k];
    assert vs[..k + 1][k] == vs[k];
    var x := SeriesLog(l, palette, vs[k], k, hs);
    var r := ReverseLog(l, palette, vs[..k], hs);
    assert ReverseLog(l, palette, vs[..k + 1], hs) == x + r;
    AppendAssoc(before, x, r);
  }

  /**
   * Point slots: one slot per heading; slot i is a hole exactly when the
   * series has no value for heading i, and otherwise the point at the
   * slot's abscissa and the value's height above the base.
   */
  lemma {:induction false} PointsSlots(l: Layout, m: SeriesMap, hs: seq<Heading>)
    requires Present(m, hs) > 0 ==> Nondegenerate(l.axis)
    ensures |Points(l, m, hs)| == |hs|
    ensures forall i :: 0 <= i < |hs| ==> (Points(l, m, hs)[i].None? <==> !Lookup(m, hs[i]).Num?)
    ensures forall i :: 0 <= i < |hs| && Lookup(m, hs[i]).Num? ==>
              Nondegenerate(l.axis) &&
              Points(l, m, hs)[i] == Some(Point(SlotX(l, i) as real, (l.baseY + PointHeight(l.axis, l.gridHeight, Lookup(m, hs[i]).x)) as real))
  {
    if |hs| > 0 {
      var prefix := hs[..|hs| - 1];
      PointsSlots(l, m, prefix);
      assert forall i :: 0 <= i < |prefix| ==> prefix[i] == hs[i];
      if Lookup(m, hs[|hs| - 1]).Num? {
        assert Present(m, hs) > 0;
      }
      forall i | 0 <= i < |hs| && Lookup(m, hs[i]).Num?
        ensures Nondegenerate(l.axis)
      {
        PresentAtLeastOne(m, hs, i);
      }
    }
  }

  /** A heading with a value makes the present count positive. */
  lemma {:induction false} PresentAtLeastOne(m: SeriesMap, hs: seq<Heading>, i: nat)
    requires i < |hs| && Lookup(m, hs[i]).Num?
    ensures Present(m, hs) > 0
  {
    if i < |hs| - 1 {
      var prefix := hs[..|hs| - 1];
      assert prefix[i] == hs[i];
      PresentAtLeastOne(m, prefix, i);
    }
  }

  /** Slots move right by one spacing each: the abscissae increase strictly when the spacing is positive. */
  lemma SlotsIncrease(l: Layout, i: nat, j: nat)
    requires l.spacing > 0 && i < j
    ensures SlotX(l, j) - SlotX(l, i) == (j - i) * l.spacing
    ensures SlotX(l, i) < SlotX(l, j)
  {
    var d := j - i;
    assert j * l.spacing == i * l.spacing + d * l.spacing;
    assert d * l.spacing == (d - 1) * l.spacing + l.spacing;
    assert (d - 1) * l.spacing >= 0;
  }

  /** Each point of the segment pass strokes exactly the pair it starts, whatever the cursor was. */
  lemma SegmentDrawn(s: SurfaceState, p: seq<Option<Point>>, i: nat)
    requires i + 1 < |p|
    ensures Drawn(s, SegmentAt(p, i)) == (if p[i].Some? && p[i + 1].Some? then [(p[i].value, p[i + 1].value)] else [])
  {
    if p[i].Some? {
      var mv := MoveTo(p[i].value);
      var ln := if p[i + 1].Some? then [LineTo(p[i + 1].value)] else [];
      DrawnAppend(s, [mv], ln);
      DrawnOne(s, mv);
      RunOne(s, mv);
      if p[i + 1].Some? {
        DrawnOne(Run(s, [mv]), ln[0]);
      }
    }
  }

  /**
   * Gaps: the segment pass strokes exactly the neighbouring pairs of
   * present points, in order, each from the first point to the second.
   */
  lemma {:induction false} SegmentsDrawPairs(s: SurfaceState, p: seq<Option<Point>>, n: nat)
    requires n <= SegmentCount(p)
    ensures Drawn(s, Segments(p, n)) == Pairs(p, n)
  {
    if n > 0 {
      var pre := Segments(p, n - 1);
      var seg := SegmentAt(p, n - 1);
      assert Segments(p, n) == pre + seg;
      SegmentsDrawPairs(s, p, n - 1);
      DrawnAppend(s, pre, seg);
      SegmentDrawn(Run(s, pre), p, n - 1);
    }
  }

  /** No stroke spans a hole: every pair joins slots i and i + 1, both present. */
  lemma {:induction false} PairsAreNeighbours(p: seq<Option<Point>>, n: nat, k: nat)
    requires n <= SegmentCount(p) && k < |Pairs(p, n)|
    ensures exists i :: 0 <= i < n && p[i].Some? && p[i + 1].Some? && Pairs(p, n)[k] == (p[i].value, p[i + 1].value)
  {
    if k < |Pairs(p, n - 1)| {
      PairsAreNeighbours(p, n - 1, k);
      var i :| 0 <= i < n - 1 && p[i].Some? && p[i + 1].Some? && Pairs(p, n - 1)[k] == (p[i].value, p[i + 1].value);
      assert Pairs(p, n)[k] == Pairs(p, n - 1)[k];
    } else {
      assert p[n - 1].Some? && p[n].Some? && Pairs(p, n)[k] == (p[n - 1].value, p[n].value);
    }
  }

  /** A log of moves and strokes leaves the line width and the colours as they were. */
  lemma {:induction false} SegmentsKeepStyle(s: SurfaceState, p: seq<Option<Point>>, n: nat)
    requires n <= SegmentCount(p)
    ensures var r := Run(s, Segments(p, n));
            r.lineWidth == s.lineWidth && r.stroke == s.stroke && r.fill == s.fill
    ensures StrokeColours(Segments(p, n)) == []
  {
    if n > 0 {
      SegmentsKeepStyle(s, p, n - 1);
      var pre := Segments(p, n - 1);
      var seg := SegmentAt(p, n - 1);
      RunAppend(s, pre, seg);
      StrokeColoursAppend(pre, seg);
      SegmentAtKeepsStyle(Run(s, pre), p, n - 1);
    }
  }

  /** One point of the segment pass: a move and perhaps a stroke. */
  lemma SegmentAtKeepsStyle(t: SurfaceState, p: seq<Option<Point>>, i: nat)
    requires i + 1 < |p|
    ensures var r := Run(t, SegmentAt(p, i));
            r.lineWidth == t.lineWidth && r.stroke == t.stroke && r.fill == t.fill
    ensures StrokeColours(SegmentAt(p, i)) == []
  {
    if p[i].Some? {
      var mv := MoveTo(p[i].value);
      if p[i + 1].Some? {
        var ln := LineTo(p[i + 1].value);
        assert SegmentAt(p, i) == [mv, ln] == [mv] + [ln];
        RunPair(t, mv, ln);
        StrokeColoursAppend([mv], [ln]);
        StrokeColoursOne(mv);
        StrokeColoursOne(ln);
      } else {
        assert SegmentAt(p, i) == [mv];
        RunOne(t, mv);
        StrokeColoursOne(mv);
      }
    }
  }

  /** Circles change neither the line width nor the colours. */
  lemma {:induction false} CirclesKeepStyle(s: SurfaceState, p: seq<Option<Point>>, n: nat)
    requires n <= |p|
    ensures Run(s, Circles(p, n)) == s
    ensures StrokeColours(Circles(p, n)) == []
  {
    if n > 0 {
      CirclesKeepStyle(s, p, n - 1);
      RunAppend(s, Circles(p, n - 1), CircleAt(p[n - 1]));
      StrokeColoursAppend(Circles(p, n - 1), CircleAt(p[n - 1]));
      CircleAtKeepsStyle(s, p[n - 1]);
    }
  }

  lemma CircleAtKeepsStyle(s: SurfaceState, q: Option<Point>)
    ensures Run(s, CircleAt(q)) == s
    ensures StrokeColours(CircleAt(q)) == []
  {
    if q.Some? {
      var c := CircleAt(q);
      RunPair(s, c[0], c[1]);
      assert c == [c[0]] + [c[1]];
      StrokeColoursAppend([c[0]], [c[1]]);
      StrokeColoursOne(c[0]);
      StrokeColoursOne(c[1]);
    }
  }

  /**
   * Circles: the filled circles and the stroked circles both sit on the
   * present points, in order, one each, all of radius 2.
   */
  lemma {:induction false} CirclesOnPresentPoints(p: seq<Option<Point>>, n: nat)
    requires n <= |p|
    ensures CircleCentres(Circles(p, n), true) == Radius2(PresentPoints(p, n))
    ensures CircleCentres(Circles(p, n), false) == Radius2(PresentPoints(p, n))
  {
    if n > 0 {
      CirclesOnPresentPoints(p, n - 1);
      var c := CircleAt(p[n - 1]);
      CircleCentresAppend(Circles(p, n - 1), c, true);
      CircleCentresAppend(Circles(p, n - 1), c, false);
      Radius2Append(PresentPoints(p, n - 1), if p[n - 1].Some? then [p[n - 1].value] else []);
      CircleAtCentres(p[n - 1]);
    }
  }

  lemma CircleAtCentres(q: Option<Point>)
    ensures CircleCentres(CircleAt(q), true) == (if q.Some? then [(q.value, 2.0)] else [])
    ensures CircleCentres(CircleAt(q), false) == (if q.Some? then [(q.value, 2.0)] else [])
  {
    if q.Some? {
      var c := CircleAt(q);
      assert c == [c[0]] + [c[1]];
      CircleCentresAppend([c[0]], [c[1]], true);
      CircleCentresAppend([c[0]], [c[1]], false);
      CircleCentresOne(c[0]);
      CircleCentresOne(c[1]);
    }
  }

  lemma CircleCentresOne(i: Instr)
    ensures CircleCentres([i], true) == if i.FillCircle? then [(i.centre, i.radius)] else []
    ensures CircleCentres([i], false) == if i.StrokeCircle? then [(i.centre, i.radius)] else []
  {
    assert [i][..0] == [];
  }

  /** Points paired with radius 2. */
  function Radius2(pts: seq<Point>): (r: seq<(Point, real)>)
    ensures |r| == |pts|
  {
    seq(|pts|, k requires 0 <= k < |pts| => (pts[k], 2.0))
  }

  lemma Radius2Append(a: seq<Point>, b: seq<Point>)
    ensures Radius2(a + b) == Radius2(a) + Radius2(b)
  {
    var r := Radius2(a) + Radius2(b);
    assert forall k | 0 <= k < |a + b| :: r[k] == ((a + b)[k], 2.0);
  }

  lemma {:induction false} CircleCentresAppend(a: seq<Instr>, b: seq<Instr>, filled: bool)
    ensures CircleCentres(a + b, filled) == CircleCentres(a, filled) + CircleCentres(b, filled)
  {
    if |b| > 0 {
      assert (a + b)[..|a + b| - 1] == a + b[..|b| - 1];
      CircleCentresAppend(a, b[..|b| - 1], filled);
    } else {
      assert a + b == a;
    }
  }

  /** A present point for every heading with a value, and no more. */
  lemma {:induction false} PresentPointsCount(l: Layout, m: SeriesMap, hs: seq<Heading>)
    requires Present(m, hs) > 0 ==> Nondegenerate(l.axis)
    ensures |Points(l, m, hs)| == |hs|
    ensures |PresentPoints(Points(l, m, hs), |hs|)| == Present(m, hs)
  {
    if |hs| > 0 {
      var prefix := hs[..|hs| - 1];
      PresentPointsCount(l, m, prefix);
      var p := Points(l, m, hs);
      PresentPointsPrefix(p, |prefix|, Points(l, m, prefix));
    }
  }

  lemma {:induction false} PresentPointsPrefix(p: seq<Option<Point>>, n: nat, q: seq<Option<Point>>)
    requires n <= |q| <= |p| && q == p[..|q|]
    ensures PresentPoints(p, n) == PresentPoints(q, n)
  {
    if n > 0 {
      PresentPointsPrefix(p, n - 1, q);
    }
  }

  /**
   * Colour and widths: segments are drawn at width 2 in the palette colour
   * of the series index, with a white fill; the circles follow at width 1
   * in the same colours; the series sets no other stroke colour.
   */
  lemma SeriesStyle(s: SurfaceState, l: Layout, palette: seq<Colour>, m: SeriesMap, setidx: nat, hs: seq<Heading>)
    requires |palette| > 0
    requires Present(m, hs) > 0 ==> Nondegenerate(l.axis)
    ensures var p := Points(l, m, hs);
            var head := SeriesHeadList(palette[setidx % |palette|]);
            var during := Run(s, head + Segments(p, SegmentCount(p)));
            var after := Run(s, SeriesLog(l, palette, m, setidx, hs));
            && during.lineWidth == 2.0 && during.stroke == palette[setidx % |palette|] && during.fill == Hex("FFFFFF")
            && after.lineWidth == 1.0 && after.stroke == palette[setidx % |palette|] && after.fill == Hex("FFFFFF")
    ensures StrokeColours(SeriesLog(l, palette, m, setidx, hs)) == [palette[setidx % |palette|]]
  {
    var p := Points(l, m, hs);
    var c := palette[setidx % |palette|];
    assert SeriesLog(l, palette, m, setidx, hs) == SeriesHeadList(c) + Segments(p, SegmentCount(p)) + [SetLineWidth(1.0)] + Circles(p, |p|);
    PassesStyle(s, c, p);
  }

  /** The style argument of `SeriesStyle`, for any point list and colour. */
  lemma PassesStyle(s: SurfaceState, c: Colour, p: seq<Option<Point>>)
    ensures var head := SeriesHeadList(c);
            var segs := Segments(p, SegmentCount(p));
            var during := Run(s, head + segs);
            var after := Run(s, head + segs + [SetLineWidth(1.0)] + Circles(p, |p|));
            && during.lineWidth == 2.0 && during.stroke == c && during.fill == Hex("FFFFFF")
            && after.lineWidth == 1.0 && after.stroke == c && after.fill == Hex("FFFFFF")
            && StrokeColours(head + segs + [SetLineWidth(1.0)] + Circles(p, |p|)) == [c]
  {
    var head := SeriesHeadList(c);
    var segs := Segments(p, SegmentCount(p));
    var circles := Circles(p, |p|);
    SeriesHead(s, c);
    SegmentsKeepStyle(Run(s, head), p, SegmentCount(p));
    RunAppend(s, head, segs);
    CirclesKeepStyle(Run(s, head + segs).(lineWidth := 1.0), p, |p|);
    StyleChain(s, c, head, segs, circles);
    ColourChain(c, head, segs, circles);
  }

  /** Width 2 and the colours from the head, kept by the segments, then width 1 kept by the circles. */
  lemma StyleChain(s: SurfaceState, c: Colour, head: seq<Instr>, segs: seq<Instr>, circles: seq<Instr>)
    requires var h := Run(s, head);
             h.lineWidth == 2.0 && h.stroke == c && h.fill == Hex("FFFFFF")
    requires var h, d := Run(s, head), Run(s, head + segs);
             d.lineWidth == h.lineWidth && d.stroke == h.stroke && d.fill == h.fill
    requires var d := Run(s, head + segs).(lineWidth := 1.0);
             Run(d, circles) == d
    ensures var after := Run(s, head + segs + [SetLineWidth(1.0)] + circles);
            after.lineWidth == 1.0 && after.stroke == c && after.fill == Hex("FFFFFF")
  {
    var during := Run(s, head + segs);
    RunAppend(s, head + segs, [SetLineWidth(1.0)]);
    RunOne(during, SetLineWidth(1.0));
    RunAppend(s, head + segs + [SetLineWidth(1.0)], circles);
  }

  /** Only the head sets a stroke colour. */
  lemma ColourChain(c: Colour, head: seq<Instr>, segs: seq<Instr>, circles: seq<Instr>)
    requires StrokeColours(head) == [c] && StrokeColours(segs) == [] && StrokeColours(circles) == []
    ensures StrokeColours(head + segs + [SetLineWidth(1.0)] + circles) == [c]
  {
    StrokeColoursAppend(head, segs);
    StrokeColoursAppend(head + segs, [SetLineWidth(1.0)]);
    StrokeColoursOne(SetLineWidth(1.0));
    StrokeColoursAppend(head + segs + [SetLineWidth(1.0)], circles);
  }

  /** The three calls before a series' segments: width 2, a white fill and the series' colour. */
  lemma SeriesHead(s: SurfaceState, c: Colour)
    ensures var head := SeriesHeadList(c);
            Run(s, head) == s.(lineWidth := 2.0, fill := Hex("FFFFFF"), stroke := c) && StrokeColours(head) == [c]
  {
    var a, b, d := SetLineWidth(2.0), SetFillColour(Hex("FFFFFF")), SetStrokeColour(c);
    assert [a, b, d] == [a, b] + [d];
    assert [a, b] == [a] + [b];
    RunAppend(s, [a, b], [d]);
    RunPair(s, a, b);
    RunOne(Run(s, [a, b]), d);
    StrokeColoursAppend([a, b], [d]);
    StrokeColoursAppend([a], [b]);
    StrokeColoursOne(a);
    StrokeColoursOne(b);
    StrokeColoursOne(d);
  }

  /** The palette colours of series `count - 1` down to 0, one series at a time in the order `reverse_each_with_index` visits them. */
  function PaletteOrder(palette: seq<Colour>, count: nat): (r: seq<Colour>)
    requires |palette| > 0
    ensures |r| == count
    ensures forall j :: 0 <= j < count ==> r[j] == palette[(count - 1 - j) % |palette|]
  {
    if count == 0 then []
    else
      var rest := PaletteOrder(palette, count - 1);
      var r := [palette[(count - 1) % |palette|]] + rest;
      assert forall j :: 1 <= j < count ==> r[j] == rest[j - 1];
      r
  }

  lemma PaletteOrderCons(palette: seq<Colour>, k: nat)
    requires |palette| > 0
    ensures PaletteOrder(palette, k + 1) == [palette[k % |palette|]] + PaletteOrder(palette, k)
  {
  }

  /**
   * Palette indexing: over the whole plot, the series set their palette
   * colours from the last series to the first, series k taking colour
   * k mod the palette length.
   */
  lemma {:induction false} PlotColours(l: Layout, palette: seq<Colour>, vs: seq<SeriesMap>, hs: seq<Heading>)
    requires |palette| > 0
    requires Total(vs, hs) > 0 ==> Nondegenerate(l.axis)
    ensures StrokeColours(ReverseLog(l, palette, vs, hs)) == PaletteOrder(palette, |vs|)
  {
    if |vs| > 0 {
      var k := |vs| - 1;
      var s0 := SurfaceState(Point(0.0, 0.0), 0.0, Hex(""), Hex(""), []);
      SeriesStyle(s0, l, palette, vs[k], k, hs);
      PlotColours(l, palette, vs[..k], hs);
      var x := SeriesLog(l, palette, vs[k], k, hs);
      var r := ReverseLog(l, palette, vs[..k], hs);
      assert ReverseLog(l, palette, vs, hs) == x + r;
      StrokeColoursAppend(x, r);
      PaletteOrderCons(palette, k);
    }
  }
}

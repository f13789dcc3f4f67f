/**
 * The drawing surface the charts write to (a Prawn::Document) and the
 * colour theme they read from, both seen only through the calls the chart
 * code makes. The document is an instruction log plus the surface state
 * those instructions change: cursor, line width, stroke and fill colour.
 */
module Surface {
  import opened Wrappers
  import opened ChartData

  datatype Point = Point(x: real, y: real)

  /** A rectangle in surface units: origin, width and height. */
  datatype Box = Box(x: int, y: int, width: int, height: int)

  /**
   * A colour: a hex literal written in the chart code, one of the theme's
   * named colours, or the serial-th colour the theme's `next_colour` handed
   * out. What the theme's colours are is not modelled.
   */
  datatype Colour = Hex(code: string) | ThemeColour(name: nat) | Issued(serial: nat)

  /**
   * The text of a label. Printers and `to_s` are not modelled: a label
   * records what it shows and whether the user's printer formatted it.
   */
  datatype Label =
    | HeadingLabel(heading: Heading, printed: bool)
    | ValueLabel(value: real, printed: bool)

  datatype Instr =
    | MoveTo(at: Point)
    | LineTo(to: Point)                     // stroke_line_to
    | SetLineWidth(width: real)
    | SetStrokeColour(stroke: Colour)
    | SetFillColour(fill: Colour)
    | FillCircle(centre: Point, radius: real)
    | StrokeCircle(centre: Point, radius: real)
    | FillRectangle(corner: Point, rectWidth: real, rectHeight: real)
    | DrawText(text: Label, textAt: Point, size: real)
    | TextBox(boxText: Label, boxAt: Point, boxWidth: real, boxHeight: Option<real>, boxSize: real)
    | BeginMask                             // mask(:fill_color) do ...
    | EndMask                               // ... end: the fill colour is restored

  datatype SurfaceState = SurfaceState(cursor: Point, lineWidth: real, stroke: Colour, fill: Colour, masked: seq<Colour>)

  /** What one instruction does to the surface state. */
  function Step(s: SurfaceState, i: Instr): SurfaceState {
    match i
    case MoveTo(p) => s.(cursor := p)
    case LineTo(p) => s.(cursor := p)
    case SetLineWidth(w) => s.(lineWidth := w)
    case SetStrokeColour(c) => s.(stroke := c)
    case SetFillColour(c) => s.(fill := c)
    case BeginMask => s.(masked := s.masked + [s.fill])
    case EndMask =>
      if |s.masked| == 0 then s
      else s.(fill := s.masked[|s.masked| - 1], masked := s.masked[..|s.masked| - 1])
    case _ => s
  }

  /** The state after a whole log. */
  function Run(s: SurfaceState, log: seq<Instr>): SurfaceState {
    if |log| == 0 then s else Step(Run(s, log[..|log| - 1]), log[|log| - 1])
  }

  /** Running a log in two pieces is running it whole. */
  lemma {:induction false} RunAppend(s: SurfaceState, a: seq<Instr>, b: seq<Instr>)
    ensures Run(s, a + b) == Run(Run(s, a), b)
  {
    if |b| > 0 {
      assert (a + b)[..|a + b| - 1] == a + b[..|b| - 1];
      RunAppend(s, a, b[..|b| - 1]);
    } else {
      assert a + b == a;
    }
  }

  lemma RunOne(s: SurfaceState, i: Instr)
    ensures Run(s, [i]) == Step(s, i)
  {
    assert [i][..0] == [];
  }

  /** A log of two instructions. */
  lemma RunPair(s: SurfaceState, a: Instr, b: Instr)
    ensures Run(s, [a, b]) == Step(Step(s, a), b)
  {
    assert [a, b] == [a] + [b];
    RunAppend(s, [a], [b]);
    RunOne(s, a);
    RunOne(Step(s, a), b);
  }

  /** `after` is `before` followed by `b`, `before` is the log so far followed by `a`, and `c` is `a` followed by `b`. */
  lemma LogConcat(log0: seq<Instr>, before: seq<Instr>, after: seq<Instr>, a: seq<Instr>, b: seq<Instr>, c: seq<Instr>)
    requires before == log0 + a && after == before + b && c == a + b
    ensures after == log0 + c
  {
  }

  /** Four pieces appended one after another to `log0` are their concatenation appended once. */
  lemma LogConcat4(log0: seq<Instr>, a: seq<Instr>, b: seq<Instr>, c: seq<Instr>, d: seq<Instr>,
                   log1: seq<Instr>, log2: seq<Instr>, log3: seq<Instr>, log4: seq<Instr>)
    requires log1 == log0 + a && log2 == log1 + b && log3 == log2 + c && log4 == log3 + d
    ensures log4 == log0 + (a + b + c + d)
  {
  }

  lemma AppendAssoc(a: seq<Instr>, b: seq<Instr>, c: seq<Instr>)
    ensures (a + b) + c == a + (b + c)
  {
  }

  /** The number of strokes (`stroke_line_to`) in a log. */
  function Strokes(log: seq<Instr>): nat {
    if |log| == 0 then 0 else Strokes(log[..|log| - 1]) + (if log[|log| - 1].LineTo? then 1 else 0)
  }

  lemma {:induction false} StrokesAppend(a: seq<Instr>, b: seq<Instr>)
    ensures Strokes(a + b) == Strokes(a) + Strokes(b)
  {
    if |b| > 0 {
      assert (a + b)[..|a + b| - 1] == a + b[..|b| - 1];
      StrokesAppend(a, b[..|b| - 1]);
    } else {
      assert a + b == a;
    }
  }

  lemma StrokesOne(i: Instr)
    ensures Strokes([i]) == if i.LineTo? then 1 else 0
  {
    assert [i][..0] == [];
  }

  /** The stroke colours a log sets, in order. */
  function StrokeColours(log: seq<Instr>): seq<Colour> {
    if |log| == 0 then []
    else StrokeColours(log[..|log| - 1]) + (if log[|log| - 1].SetStrokeColour? then [log[|log| - 1].stroke] else [])
  }

  lemma {:induction false} StrokeColoursAppend(a: seq<Instr>, b: seq<Instr>)
    ensures StrokeColours(a + b) == StrokeColours(a) + StrokeColours(b)
  {
    if |b| > 0 {
      assert (a + b)[..|a + b| - 1] == a + b[..|b| - 1];
      StrokeColoursAppend(a, b[..|b| - 1]);
    } else {
      assert a + b == a;
    }
  }

  lemma StrokeColoursOne(i: Instr)
    ensures StrokeColours([i]) == if i.SetStrokeColour? then [i.stroke] else []
  {
    assert [i][..0] == [];
  }

  /** The segments a log strokes from state `s`: each `LineTo` joins the cursor it finds to its target. */
  function Drawn(s: SurfaceState, log: seq<Instr>): seq<(Point, Point)> {
    if |log| == 0 then []
    else
      var prefix := log[..|log| - 1];
      Drawn(s, prefix) + (if log[|log| - 1].LineTo? then [(Run(s, prefix).cursor, log[|log| - 1].to)] else [])
  }

  lemma DrawnOne(s: SurfaceState, i: Instr)
    ensures Drawn(s, [i]) == if i.LineTo? then [(s.cursor, i.to)] else []
  {
    assert [i][..0] == [];
  }

  lemma {:induction false} DrawnAppend(s: SurfaceState, a: seq<Instr>, b: seq<Instr>)
    ensures Drawn(s, a + b) == Drawn(s, a) + Drawn(Run(s, a), b)
  {
    if |b| > 0 {
      var b' := b[..|b| - 1];
      assert (a + b)[..|a + b| - 1] == a + b';
      DrawnAppend(s, a, b');
      RunAppend(s, a, b');
    } else {
      assert a + b == a;
    }
  }

  /**
   * A Prawn::Document reduced to the instructions it receives; its surface
   * state is what those instructions leave.
   */
  class Document {
    var log: seq<Instr>
    ghost const start: SurfaceState

    ghost function State(): SurfaceState
      reads this
    {
      Run(start, log)
    }

    constructor (initial: SurfaceState)
      ensures log == [] && State() == initial
    {
      log := [];
      start := initial;
    }

    /** Issue one drawing call. */
    method Emit(i: Instr)
      modifies this
      ensures log == old(log) + [i]
      ensures State() == Step(old(State()), i)
    {
      assert (log + [i])[..|log + [i]| - 1] == log;
      log := log + [i];
    }
  }

  /**
   * A chart theme: its named colours, the palette `colours` and the
   * `stroke_grid_markers?` switch are fixed; `next_colour` is a counter of
   * the colours handed out so far.
   */
  class Theme {
    const colours: seq<Colour>
    const markerColour: Colour
    const backgroundColour: Colour
    const fontColour: Colour
    const strokeGridMarkers: bool
    var issued: nat

    constructor (colours: seq<Colour>, markerColour: Colour, backgroundColour: Colour, fontColour: Colour,
                 strokeGridMarkers: bool)
      requires |colours| > 0
      ensures this.colours == colours && this.markerColour == markerColour
      ensures this.backgroundColour == backgroundColour && this.fontColour == fontColour
      ensures this.strokeGridMarkers == strokeGridMarkers && issued == 0
    {
      this.colours := colours;
      this.markerColour := markerColour;
      this.backgroundColour := backgroundColour;
      this.fontColour := fontColour;
      this.strokeGridMarkers := strokeGridMarkers;
      issued := 0;
    }

    /** `next_colour`: hands out the next colour of the cycle. */
    method NextColour() returns (c: Colour)
      modifies this
      ensures c == Issued(old(issued)) && issued == old(issued) + 1
    {
      c := Issued(issued);
      issued := issued + 1;
    }
  }
}

/**
 * The pure calculation helpers of the chart base class
 * (lib/prawn/graph/base.rb): integer division as Ruby does it, the plot
 * spacing and bar width, the text centring estimate, the value transform
 * with its fallback, and the value-to-pixel mapping. Ruby's BigDecimal is
 * `real` here.
 */
module Scale {
  import opened Wrappers

  /** Ruby's Integer#/ : the quotient rounded toward negative infinity. */
  function FloorDiv(a: int, b: int): (q: int)
    requires b != 0
    ensures b > 0 ==> q * b <= a < q * b + b
    ensures b < 0 ==> q * b >= a > q * b + b
  {
    if b > 0 then a / b else (-a) / (-b)
  }

  /** BigDecimal#to_i : the integer part, truncated toward zero. */
  function Trunc(x: real): (r: int)
    ensures x >= 0.0 ==> 0 <= r && r as real <= x < r as real + 1.0
    ensures x < 0.0 ==> r <= 0 && r as real - 1.0 < x <= r as real
  {
    if x >= 0.0 then WholePart(x) else -(WholePart(-x) as int)
  }

  /** The whole units in a non-negative number: one more for every unit above the first. */
  function WholePart(x: real): (r: nat)
    requires x >= 0.0
    ensures r as real <= x < r as real + 1.0
    decreases x.Floor
  {
    if x < 1.0 then 0 else 1 + WholePart(x - 1.0)
  }

  lemma TruncMonotone(x: real, y: real)
    requires x <= y
    ensures Trunc(x) <= Trunc(y)
  {
  }

  /**
   * A user `:transform` proc: it returns a value or fails (`None`, a raised
   * exception).
   */
  type Transform = real -> Option<real>

  /** `transform_value`: apply the proc if there is one; when it fails, keep the value. */
  function Transformed(t: Option<Transform>, v: real): (r: real)
    ensures t.None? ==> r == v
    ensures t.Some? && t.value(v).None? ==> r == v
    ensures t.Some? && t.value(v).Some? ==> r == t.value(v).value
  {
    match t
    case None => v
    case Some(f) => f(v).GetOr(v)
  }

  /** The value axis of a chart: its bounds, transform and direction. */
  datatype ValueAxis = ValueAxis(lowest: real, highest: real, transform: Option<Transform>, downwards: bool)

  /**
   * The fraction has a non-zero divisor. The source does not check this:
   * equal transformed bounds make BigDecimal divide by zero.
   */
  predicate Nondegenerate(a: ValueAxis) {
    Transformed(a.transform, a.highest) != Transformed(a.transform, a.lowest)
  }

  /** `calculate_point_fraction_from`: (T(v) - T(lo)) / (T(hi) - T(lo)). */
  function Fraction(a: ValueAxis, v: real): real
    requires Nondegenerate(a)
  {
    var cv := Transformed(a.transform, v);
    var hv := Transformed(a.transform, a.highest);
    var lv := Transformed(a.transform, a.lowest);
    (cv - lv) / (hv - lv)
  }

  /** `calculate_point_height_from`: the truncated pixel offset, flipped when downwards. */
  function PointHeight(a: ValueAxis, gridHeight: int, v: real): int
    requires Nondegenerate(a)
  {
    HeightAt(gridHeight, Fraction(a, v), a.downwards)
  }

  /** The pixel height of fraction `f` of the grid: truncated, and flipped when downwards. */
  function HeightAt(gridHeight: int, f: real, downwards: bool): int {
    var ph := Pixels(gridHeight, f);
    if downwards then gridHeight - ph else ph
  }

  /** `(gh * fraction).to_i`. */
  function Pixels(gridHeight: int, f: real): int {
    Trunc(gridHeight as real * f)
  }

  /** Base `calculate_plot_spacing`: the grid width shared out over the headings. */
  function PlotSpacing(gridWidth: int, headingCount: nat): int
    requires headingCount > 0
  {
    FloorDiv(gridWidth, headingCount)
  }

  /** `calculate_bar_width`: half a slot. */
  function BarWidth(spacing: int): int {
    FloorDiv(spacing, 2)
  }

  /**
   * `calculate_x_axis_center_point` and `calculate_y_axis_center_point`
   * (one formula, the grid's x and width or y and height as defaults): the
   * start of a text of estimated width length * size / 2 centred on an
   * extent.
   */
  function AxisCentre(textLength: nat, textSize: int, start: int, extent: int): int {
    (start + FloorDiv(extent, 2)) - FloorDiv(textLength * textSize, 4)
  }

  // ---------------------------------------------------------------------------
  // Properties

  /**
   * The headings' slots tile the grid width: `headingCount` slots fit and
   * one more slot per heading would not.
   */
  lemma SlotsTile(gridWidth: int, headingCount: nat)
    requires headingCount > 0
    ensures headingCount * PlotSpacing(gridWidth, headingCount) <= gridWidth
    ensures gridWidth < headingCount * (PlotSpacing(gridWidth, headingCount) + 1)
  {
    var q := PlotSpacing(gridWidth, headingCount);
    assert q * headingCount <= gridWidth < q * headingCount + headingCount;
    assert headingCount * (q + 1) == q * headingCount + headingCount;
  }

  /** A bar is half a slot wide, rounded down: two bars fit in a slot. */
  lemma BarFitsSlot(spacing: int)
    ensures 2 * BarWidth(spacing) <= spacing < 2 * BarWidth(spacing) + 2
  {
  }

  /**
   * The centring estimate puts the middle of the text (start plus a
   * quarter of length * size) within one unit of the middle of the extent,
   * and a longer text starts no later.
   */
  lemma CentredWithinOne(textLength: nat, textSize: int, start: int, extent: int)
    requires textSize >= 0
    ensures var r := AxisCentre(textLength, textSize, start, extent);
            var textMiddle := r as real + (textLength * textSize) as real / 4.0;
            var extentMiddle := start as real + extent as real / 2.0;
            extentMiddle - 1.0 < textMiddle < extentMiddle + 1.0
    ensures AxisCentre(textLength + 1, textSize, start, extent) <= AxisCentre(textLength, textSize, start, extent)
  {
    var e := textLength * textSize;
    var h := FloorDiv(extent, 2);
    var q := FloorDiv(e, 4);
    assert 2 * h <= extent < 2 * h + 2;
    assert 4 * q <= e < 4 * q + 4;
    assert (textLength + 1) * textSize == e + textSize;
    assert FloorDiv(e + textSize, 4) >= q;
  }

  /** With no transform, or one that always fails, the fraction is the untransformed one. */
  lemma FallbackIsIdentity(a: ValueAxis, v: real)
    requires a.transform.None? || (a.transform.Some? && forall w :: a.transform.value(w).None?)
    ensures Nondegenerate(a) <==> a.highest != a.lowest
    ensures a.highest != a.lowest ==> Fraction(a, v) == (v - a.lowest) / (a.highest - a.lowest)
  {
    if a.transform.Some? {
      assert a.transform.value(v).None?;
      assert a.transform.value(a.highest).None?;
      assert a.transform.value(a.lowest).None?;
    }
  }

  /** Without a transform, lowest maps to 0 and highest to 1. */
  lemma FractionEndpoints(a: ValueAxis)
    requires a.transform.None? && a.highest != a.lowest
    ensures Fraction(a, a.lowest) == 0.0
    ensures Fraction(a, a.highest) == 1.0
  {
    var d := a.highest - a.lowest;
    assert Fraction(a, a.highest) == d / d;
  }

  /** Without a transform, a value between the bounds gets a fraction in [0, 1]. */
  lemma FractionInUnit(a: ValueAxis, v: real)
    requires a.transform.None? && a.lowest < a.highest
    requires a.lowest <= v <= a.highest
    ensures 0.0 <= Fraction(a, v) <= 1.0
  {
    assert Fraction(a, v) == (v - a.lowest) / (a.highest - a.lowest);
    RatioInUnit(v - a.lowest, a.highest - a.lowest);
  }

  /**
   * A transform that never fails and is strictly increasing also maps
   * values between the bounds into [0, 1].
   */
  lemma MonotoneTransformInUnit(a: ValueAxis, v: real)
    requires a.transform.Some?
    requires forall w :: a.transform.value(w).Some?
    requires forall w1, w2 :: w1 < w2 ==> a.transform.value(w1).value < a.transform.value(w2).value
    requires a.lowest < a.highest && a.lowest <= v <= a.highest
    ensures Nondegenerate(a)
    ensures 0.0 <= Fraction(a, v) <= 1.0
  {
    var f := a.transform.value;
    var lv, hv, cv := f(a.lowest).value, f(a.highest).value, f(v).value;
    assert lv < hv;
    assert lv <= cv <= hv by {
      if a.lowest < v { assert lv < cv; }
      if v < a.highest { assert cv < hv; }
    }
    assert Fraction(a, v) == (cv - lv) / (hv - lv);
    RatioInUnit(cv - lv, hv - lv);
  }

  /** A part of a positive whole divided by the whole lies in [0, 1]. */
  lemma RatioInUnit(n: real, d: real)
    requires 0.0 <= n <= d && 0.0 < d
    ensures 0.0 <= n / d <= 1.0
  {
    RatioMonotone(0.0, n, d);
    RatioMonotone(n, d, d);
  }

  /** Division by a positive number keeps order. */
  lemma RatioMonotone(n1: real, n2: real, d: real)
    requires n1 <= n2 && 0.0 < d
    ensures n1 / d <= n2 / d
  {
    var r := (n2 - n1) / d;
    assert r * d == n2 - n1;
    assert n2 / d - n1 / d == r;
  }

  /** Inversion law: the downward height and the normal height add up to the grid height. */
  lemma InversionLaw(a: ValueAxis, gridHeight: int, v: real)
    requires Nondegenerate(a)
    ensures PointHeight(a.(downwards := false), gridHeight, v) + PointHeight(a.(downwards := true), gridHeight, v) == gridHeight
  {
    assert Fraction(a.(downwards := false), v) == Fraction(a, v);
    assert Fraction(a.(downwards := true), v) == Fraction(a, v);
  }

  /** A fraction in [0, 1] gives a pixel height inside the grid, either way up. */
  lemma PointHeightInGrid(a: ValueAxis, gridHeight: int, v: real)
    requires Nondegenerate(a) && gridHeight >= 0
    requires 0.0 <= Fraction(a, v) <= 1.0
    ensures 0 <= PointHeight(a, gridHeight, v) <= gridHeight
  {
    var x := gridHeight as real * Fraction(a, v);
    assert 0.0 <= x <= gridHeight as real;
    TruncMonotone(x, gridHeight as real);
    assert Trunc(gridHeight as real) == gridHeight;
  }

  /**
   * Without a transform, on an axis whose highest is above its lowest, a
   * larger value is never drawn lower: heights grow with the value, and
   * downwards they shrink.
   */
  lemma PointHeightMonotone(a: ValueAxis, gridHeight: int, v: real, w: real)
    requires a.transform.None? && a.lowest < a.highest && gridHeight >= 0
    requires v <= w
    ensures !a.downwards ==> PointHeight(a, gridHeight, v) <= PointHeight(a, gridHeight, w)
    ensures a.downwards ==> PointHeight(a, gridHeight, v) >= PointHeight(a, gridHeight, w)
  {
    FractionMonotone(a, v, w);
    PointHeightOrdered(a, gridHeight, v, w);
  }

  /** Ordered fractions give ordered point heights, reversed downwards. */
  lemma PointHeightOrdered(a: ValueAxis, gridHeight: int, v: real, w: real)
    requires Nondegenerate(a) && gridHeight >= 0
    requires Fraction(a, v) <= Fraction(a, w)
    ensures !a.downwards ==> PointHeight(a, gridHeight, v) <= PointHeight(a, gridHeight, w)
    ensures a.downwards ==> PointHeight(a, gridHeight, v) >= PointHeight(a, gridHeight, w)
  {
    HeightAtMonotone(gridHeight, Fraction(a, v), Fraction(a, w), a.downwards);
  }

  lemma HeightAtMonotone(gridHeight: int, f: real, g: real, downwards: bool)
    requires gridHeight >= 0 && f <= g
    ensures !downwards ==> HeightAt(gridHeight, f, downwards) <= HeightAt(gridHeight, g, downwards)
    ensures downwards ==> HeightAt(gridHeight, f, downwards) >= HeightAt(gridHeight, g, downwards)
  {
    PixelsMonotone(gridHeight, f, g);
  }

  lemma PixelsMonotone(gridHeight: int, f: real, g: real)
    requires gridHeight >= 0 && f <= g
    ensures Pixels(gridHeight, f) <= Pixels(gridHeight, g)
  {
    var p, q := gridHeight as real * f, gridHeight as real * g;
    assert p <= q by {
      ScaleMonotone(gridHeight as real, f, g);
    }
    TruncMonotone(p, q);
  }

  lemma FractionMonotone(a: ValueAxis, v: real, w: real)
    requires a.transform.None? && a.lowest < a.highest && v <= w
    ensures Fraction(a, v) <= Fraction(a, w)
  {
    assert Fraction(a, v) == (v - a.lowest) / (a.highest - a.lowest);
    assert Fraction(a, w) == (w - a.lowest) / (a.highest - a.lowest);
    RatioMonotone(v - a.lowest, w - a.lowest, a.highest - a.lowest);
  }

  lemma ScaleMonotone(g: real, x: real, y: real)
    requires g >= 0.0 && x <= y
    ensures g * x <= g * y
  {
    assert g * y - g * x == g * (y - x);
  }
}

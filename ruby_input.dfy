/**
 * The chart input as Ruby objects, for the one step of `process_the`
 * (lib/prawn/graph/base.rb) that looks at the input's shape before it is a
 * list of series: `data_array = [data_array] unless Array === data_array.first`.
 * The rest of the model takes its input already as a list of series
 * (`ChartData.Series`); this module says how Ruby data reaches that form,
 * as the code is written and as it is evidently meant.
 */
module RubyInput {
  import opened Wrappers
  import opened ChartData

  /** The Ruby objects a chart's input is made of. */
  datatype RValue =
    | RNil
    | RFalse
    | RStr(s: string)
    | RInt(i: int)
    | RNum(x: real)               // a BigDecimal or Float value
    | RArray(items: seq<RValue>)
    | RObject(id: nat)            // any other object

  // The model's input written as Ruby data

  function EncodeHeading(h: Heading): RValue {
    match h
    case NilHeading => RNil
    case Text(s) => RStr(s)
    case Number(n) => RInt(n)
    case Other(id) => RObject(id)
  }

  function EncodeValue(v: Value): RValue {
    match v
    case Nil => RNil
    case False => RFalse
    case Num(x) => RNum(x)
  }

  /** A row `[heading, value]`. */
  function EncodePoint(p: DataPoint): RValue {
    RArray([EncodeHeading(p.heading), EncodeValue(p.value)])
  }

  /** A series as its list of rows: the bare format the chart classes document. */
  function EncodePoints(s: Series): (r: seq<RValue>)
    ensures |r| == |s|
  {
    seq(|s|, i requires 0 <= i < |s| => EncodePoint(s[i]))
  }

  /** A list of series: an Array of Arrays of rows. */
  function EncodeData(data: seq<Series>): (r: seq<RValue>)
    ensures |r| == |data|
  {
    seq(|data|, k requires 0 <= k < |data| => RArray(EncodePoints(data[k])))
  }

  // The wrapping step

  /** As written: wrap unless the first element is an Array (`first` of an empty Array is `nil`). */
  function WrapAsWritten(data: seq<RValue>): seq<RValue> {
    if |data| > 0 && data[0].RArray? then data else [RArray(data)]
  }

  /** A `[heading, value]` row: an Array whose first element is not itself an Array. */
  predicate IsRow(v: RValue) {
    v.RArray? && |v.items| > 0 && !v.items[0].RArray?
  }

  /** As intended: also wrap when the first element is a row, that is when the data is one bare series. */
  function WrapIntended(data: seq<RValue>): seq<RValue> {
    if |data| > 0 && data[0].RArray? && !IsRow(data[0]) then data else [RArray(data)]
  }

  // How `process_the` reads the wrapped data, as far as raising and the greatest value go

  function Pow2(k: nat): (r: nat)
    ensures r >= 1
  {
    if k == 0 then 1 else 2 * Pow2(k - 1)
  }

  /**
   * `v[k]`: an element of an Array, a one-character String, or a bit of an
   * Integer (two's complement, so floor division); `nil` past the end.
   * `None` is a NoMethodError: `nil`, `false`, decimals and other objects
   * have no `[]`.
   */
  function Element(v: RValue, k: nat): Option<RValue> {
    match v
    case RArray(items) => Some(if k < |items| then items[k] else RNil)
    case RStr(s) => Some(if k < |s| then RStr([s[k]]) else RNil)
    case RInt(i) => Some(RInt((i / Pow2(k)) % 2))
    case _ => None
  }

  /**
   * `greatest_val = [greatest_val, x].max if x`: falsy values are skipped,
   * numbers compared; anything else cannot be compared with a number and
   * raises ArgumentError (`None`).
   */
  function GreatestStep(g: real, x: RValue): Option<real> {
    match x
    case RNil => Some(g)
    case RFalse => Some(g)
    case RInt(i) => Some(Max(g, i as real))
    case RNum(y) => Some(Max(g, y))
    case _ => None
  }

  /** One `data_point`: `data_point[0]` and `data_point[1]` are read, then the greatest value updated. */
  function ScanPoint(g: real, p: RValue): Option<real> {
    var key := Element(p, 0);
    var value := Element(p, 1);
    if key.None? || value.None? then None else GreatestStep(g, value.value)
  }

  function ScanPoints(g: real, points: seq<RValue>): Option<real> {
    if |points| == 0 then Some(g)
    else
      match ScanPoints(g, points[..|points| - 1])
      case None => None
      case Some(m) => ScanPoint(m, points[|points| - 1])
  }

  /** One `data_set`: only an Array is iterated here. */
  function ScanSet(g: real, dataSet: RValue): Option<real> {
    if dataSet.RArray? then ScanPoints(g, dataSet.items) else None
  }

  function ScanSets(g: real, sets: seq<RValue>): Option<real> {
    if |sets| == 0 then Some(g)
    else
      match ScanSets(g, sets[..|sets| - 1])
      case None => None
      case Some(m) => ScanSet(m, sets[|sets| - 1])
  }

  /** The greatest value `process_the` returns, or `None` where it raises. */
  function GreatestAsWritten(data: seq<RValue>): Option<real> {
    ScanSets(0.0, WrapAsWritten(data))
  }

  function GreatestIntended(data: seq<RValue>): Option<real> {
    ScanSets(0.0, WrapIntended(data))
  }

  // Properties

  /** A list of series is left alone by both guards, except that empty data becomes one empty series. */
  lemma ModelInputWrapped(data: seq<Series>)
    ensures WrapAsWritten(EncodeData(data)) == EncodeData(Wrap(data))
    ensures WrapIntended(EncodeData(data)) == EncodeData(Wrap(data))
  {
    if |data| > 0 {
      var first := EncodeData(data)[0];
      assert first == RArray(EncodePoints(data[0]));
      if |data[0]| > 0 {
        assert first.items[0] == EncodePoint(data[0][0]);
      }
    } else {
      assert EncodeData([[]]) == [RArray([])];
    }
  }

  /** As written, the documented bare series is not wrapped: each of its rows is taken for a series. */
  lemma AsWrittenSplitsBareSeries(s: Series)
    requires |s| > 0
    ensures WrapAsWritten(EncodePoints(s)) == EncodePoints(s)
  {
    assert EncodePoints(s)[0] == EncodePoint(s[0]);
  }

  /** As intended, the bare series is wrapped into the one-series input the rest of the model reads. */
  lemma IntendedReadsBareSeries(s: Series)
    requires |s| > 0
    ensures WrapIntended(EncodePoints(s)) == EncodeData([s])
    ensures GreatestIntended(EncodePoints(s)) == Some(DataMax([s]))
  {
    assert EncodePoints(s)[0] == EncodePoint(s[0]);
    assert IsRow(EncodePoints(s)[0]);
    assert EncodeData([s]) == [RArray(EncodePoints(s))];
    ScanSetsFollowsModel([s]);
  }

  /** On a list of series, the intended reading finds the greatest value the rest of the model computes. */
  lemma IntendedReadsModelInput(data: seq<Series>)
    ensures GreatestIntended(EncodeData(data)) == Some(DataMax(Wrap(data)))
    ensures GreatestAsWritten(EncodeData(data)) == Some(DataMax(Wrap(data)))
  {
    ModelInputWrapped(data);
    ScanSetsFollowsModel(Wrap(data));
  }

  /**
   * The documented format `[['ab', 5]]` raises as written: the row is taken
   * for a series, its first element `'ab'` for a row, and `'ab'[1]`, which
   * is `'b'`, cannot be compared with 0. Wrapped as intended, it is one
   * series whose greatest value is 5.
   */
  lemma DocumentedFormatRaises()
    ensures var d := EncodePoints([DataPoint(Text("ab"), Num(5.0))]);
            GreatestAsWritten(d) == None && GreatestIntended(d) == Some(5.0)
  {
    var s := [DataPoint(Text("ab"), Num(5.0))];
    var row := EncodePoint(s[0]);
    assert EncodePoints(s) == [row];
    assert WrapAsWritten([row]) == [row];
    assert row.items[..1] == [RStr("ab")];
    assert ScanPoint(0.0, RStr("ab")) == None;
    assert ScanPoints(0.0, row.items[..1]) == None;
    assert ScanSets(0.0, [row]) == None by {
      assert [row][..0] == [];
    }
    IntendedReadsBareSeries(s);
    assert DataMax([s]) == 5.0 by {
      assert s[..0] == [];
      assert [s][..0] == [];
    }
  }

  /** Reading an encoded series finds its `SeriesMax`, and raises nowhere. */
  lemma {:induction false} ScanPointsFollowsModel(g: real, s: Series)
    ensures ScanPoints(g, EncodePoints(s)) == Some(SeriesMax(g, s))
  {
    if |s| > 0 {
      var p := s[..|s| - 1];
      assert EncodePoints(s)[..|s| - 1] == EncodePoints(p);
      ScanPointsFollowsModel(g, p);
      var last := s[|s| - 1];
      assert EncodePoints(s)[|s| - 1] == EncodePoint(last);
      assert ScanPoint(SeriesMax(g, p), EncodePoint(last)) == Some(SeriesMax(g, s)) by {
        assert Element(EncodePoint(last), 1) == Some(EncodeValue(last.value));
      }
    }
  }

  /** Reading an encoded list of series finds its `DataMax`, and raises nowhere. */
  lemma {:induction false} ScanSetsFollowsModel(sets: seq<Series>)
    ensures ScanSets(0.0, EncodeData(sets)) == Some(DataMax(sets))
  {
    if |sets| > 0 {
      var p := sets[..|sets| - 1];
      assert EncodeData(sets)[..|sets| - 1] == EncodeData(p);
      ScanSetsFollowsModel(p);
      assert EncodeData(sets)[|sets| - 1] == RArray(EncodePoints(sets[|sets| - 1]));
      ScanPointsFollowsModel(DataMax(p), sets[|sets| - 1]);
    }
  }
}

/**
 * Data normalisation of the chart base class (`process_the` in
 * lib/prawn/graph/base.rb): one heading-to-value map per series, the
 * merged heading list of all series, and the greatest value seen.
 */
module ChartData {

  /**
   * A category heading as the Ruby code sees it: `nil` (dropped by
   * `compact`), a String, an Integer (the one Comparable non-String kind
   * modelled, which is what `sort` orders), or any other object, which is
   * neither Comparable nor an Array. Symbols, Floats and Dates are not
   * modelled.
   */
  datatype Heading = NilHeading | Text(s: string) | Number(n: int) | Other(id: nat)

  /** A data value: `nil`, `false` (both falsy in Ruby) or a number. */
  datatype Value = Nil | False | Num(x: real)

  /** One `[heading, value]` row of a series. */
  datatype DataPoint = DataPoint(heading: Heading, value: Value)

  type Series = seq<DataPoint>

  /** The per-series Hash `set_data`. */
  type SeriesMap = map<Heading, Value>

  /** `data_set[heading]`: a Hash lookup, `nil` for a missing key. */
  function Lookup(m: SeriesMap, h: Heading): Value {
    if h in m then m[h] else Nil
  }

  /** How many of the headings have a value in the series. */
  function Present(m: SeriesMap, hs: seq<Heading>): nat {
    if |hs| == 0 then 0
    else Present(m, hs[..|hs| - 1]) + (if Lookup(m, hs[|hs| - 1]).Num? then 1 else 0)
  }

  /** How many (series, heading) pairs have a value. */
  function Total(vs: seq<SeriesMap>, hs: seq<Heading>): nat {
    if |vs| == 0 then 0 else Present(vs[|vs| - 1], hs) + Total(vs[..|vs| - 1], hs)
  }

  lemma {:induction false} PresentPrefix(m: SeriesMap, hs: seq<Heading>, j: nat)
    requires j <= |hs|
    ensures Present(m, hs[..j]) <= Present(m, hs)
  {
    if j < |hs| {
      PresentPrefix(m, hs[..|hs| - 1], j);
      assert hs[..|hs| - 1][..j] == hs[..j];
    } else {
      assert hs[..j] == hs;
    }
  }

  lemma {:induction false} TotalPrefix(vs: seq<SeriesMap>, hs: seq<Heading>, j: nat)
    requires j <= |vs|
    ensures Total(vs[..j], hs) <= Total(vs, hs)
  {
    if j < |vs| {
      TotalPrefix(vs[..|vs| - 1], hs, j);
      assert vs[..|vs| - 1][..j] == vs[..j];
    } else {
      assert vs[..j] == vs;
    }
  }

  lemma PresentSnoc(m: SeriesMap, hs: seq<Heading>, j: nat)
    requires j < |hs|
    ensures Present(m, hs[..j + 1]) == Present(m, hs[..j]) + (if Lookup(m, hs[j]).Num? then 1 else 0)
  {
    assert hs[..j + 1][..j] == hs[..j];
  }

  function Max(a: real, b: real): real {
    if a < b then b else a
  }

  /**
   * `data_array = [data_array] unless Array === data_array.first`. Every
   * element of a `seq<Series>` is an Array, so `first` fails the test only
   * when it is `nil`, that is when the input is empty.
   */
  function Wrap(data: seq<Series>): (r: seq<Series>)
    ensures |r| >= 1
    ensures |data| > 0 ==> r == data
  {
    if |data| == 0 then [[]] else data
  }

  /** The series' `set_columns`: its headings in input order, duplicates kept. */
  function Columns(s: Series): (r: seq<Heading>)
    ensures |r| == |s|
  {
    seq(|s|, i requires 0 <= i < |s| => s[i].heading)
  }

  function ColumnLists(sets: seq<Series>): (r: seq<seq<Heading>>)
    ensures |r| == |sets|
  {
    seq(|sets|, k requires 0 <= k < |sets| => Columns(sets[k]))
  }

  /** The series' `set_data`: each row stores its value under its heading, in order. */
  function ToMap(s: Series): SeriesMap {
    if |s| == 0 then map[] else ToMap(s[..|s| - 1])[s[|s| - 1].heading := s[|s| - 1].value]
  }

  /** `greatest_val` after the rows of `s`, starting from `acc`; falsy values are skipped. */
  function SeriesMax(acc: real, s: Series): real {
    if |s| == 0 then acc
    else
      var m := SeriesMax(acc, s[..|s| - 1]);
      var v := s[|s| - 1].value;
      if v.Num? then Max(m, v.x) else m
  }

  /** `greatest_val` after all series, starting from 0. */
  function DataMax(sets: seq<Series>): real {
    if |sets| == 0 then 0.0 else SeriesMax(DataMax(sets[..|sets| - 1]), sets[|sets| - 1])
  }

  /**
   * The i-th tuple of `col[0].zip(*col[1..-1])`: the i-th heading of every
   * list in turn, `nil` where a list is shorter.
   */
  function ZipTuple(cols: seq<seq<Heading>>, i: nat): (r: seq<Heading>)
    ensures |r| == |cols|
  {
    seq(|cols|, k requires 0 <= k < |cols| => if i < |cols[k]| then cols[k][i] else NilHeading)
  }

  /** The first m tuples, flattened. */
  function ZipRows(cols: seq<seq<Heading>>, m: nat): seq<Heading> {
    if m == 0 then [] else ZipRows(cols, m - 1) + ZipTuple(cols, m - 1)
  }

  /**
   * `col[0].zip(*col[1..-1]).flatten`: one tuple per position of the FIRST
   * list, so positions past its end are never looked at.
   */
  function ZipFlat(cols: seq<seq<Heading>>): seq<Heading>
    requires |cols| > 0
  {
    ZipRows(cols, |cols[0]|)
  }

  /** `compact`: drop the nils, keep the order. */
  function Compact(s: seq<Heading>): seq<Heading> {
    if |s| == 0 then []
    else (if s[0].NilHeading? then [] else [s[0]]) + Compact(s[1..])
  }

  /** `uniq`: keep the first occurrence of every heading. */
  function Dedup(s: seq<Heading>): seq<Heading> {
    if |s| == 0 then []
    else
      var d := Dedup(s[..|s| - 1]);
      if s[|s| - 1] in d then d else d + [s[|s| - 1]]
  }

  predicate NoDups(s: seq<Heading>) {
    forall i, j :: 0 <= i < j < |s| ==> s[i] != s[j]
  }

  /** `col.all?{|v| Comparable === v && !(String === v)}`. */
  predicate AllSortable(s: seq<Heading>) {
    forall h :: h in s ==> h.Number?
  }

  /** The sort key of a sortable heading. */
  function Key(h: Heading): int {
    if h.Number? then h.n else 0
  }

  predicate StrictlyAscending(s: seq<Heading>) {
    forall i, j :: 0 <= i < j < |s| ==> Key(s[i]) < Key(s[j])
  }

  function Insert(h: Heading, s: seq<Heading>): seq<Heading> {
    if |s| == 0 then [h]
    else if Key(h) <= Key(s[0]) then [h] + s
    else [s[0]] + Insert(h, s[1..])
  }

  /** `col.sort` on headings that are all numbers. */
  function SortHeadings(s: seq<Heading>): seq<Heading> {
    if |s| == 0 then [] else Insert(s[0], SortHeadings(s[1..]))
  }

  /** The merged heading list `process_the` returns. */
  function MergeHeadings(cols: seq<seq<Heading>>): seq<Heading>
    requires |cols| > 0
  {
    var u := Dedup(Compact(ZipFlat(cols)));
    if AllSortable(u) then SortHeadings(u) else u
  }

  /** The index of the first occurrence of `x` in `s`. */
  function IndexOf(s: seq<Heading>, x: Heading): (i: nat)
    requires x in s
    ensures i < |s| && s[i] == x && x !in s[..i]
  {
    if s[0] == x then 0
    else
      assert x in s[1..];
      var k := IndexOf(s[1..], x);
      assert s[..k + 1] == [s[0]] + s[1..][..k];
      k + 1
  }

  /**
   * `process_the`: walks the series and their rows, filling one Hash and
   * one column list per series and raising the greatest value, then merges
   * the column lists.
   */
  method ProcessThe(data: seq<Series>) returns (col: seq<Heading>, val: seq<SeriesMap>, greatest: real)
    ensures |val| == |Wrap(data)|
    ensures forall k :: 0 <= k < |val| ==> val[k] == ToMap(Wrap(data)[k])
    ensures col == MergeHeadings(ColumnLists(Wrap(data)))
    ensures greatest == DataMax(Wrap(data))
    ensures greatest >= 0.0
    ensures forall k, i :: 0 <= k < |Wrap(data)| && 0 <= i < |Wrap(data)[k]| && Wrap(data)[k][i].value.Num? ==>
              Wrap(data)[k][i].value.x <= greatest
  {
    var sets := Wrap(data);
    var cols: seq<seq<Heading>> := [];
    val := [];
    greatest := 0.0;
    var k := 0;
    while k < |sets|
      invariant 0 <= k <= |sets|
      invariant |val| == k && |cols| == k
      invariant forall m :: 0 <= m < k ==> val[m] == ToMap(sets[m]) && cols[m] == Columns(sets[m])
      invariant greatest == DataMax(sets[..k])
    {
      var dataSet := sets[k];
      var setData: SeriesMap := map[];
      var setColumns: seq<Heading> := [];
      var i := 0;
      while i < |dataSet|
        invariant 0 <= i <= |dataSet|
        invariant setData == ToMap(dataSet[..i])
        invariant setColumns == Columns(dataSet[..i])
        invariant greatest == SeriesMax(DataMax(sets[..k]), dataSet[..i])
      {
        var point := dataSet[i];
        assert dataSet[..i + 1][..i] == dataSet[..i];
        setData := setData[point.heading := point.value];
        setColumns := setColumns + [point.heading];
        if point.value.Num? {
          greatest := Max(greatest, point.value.x);
        }
        i := i + 1;
      }
      assert dataSet[..i] == dataSet;
      assert sets[..k + 1][..k] == sets[..k];
      val := val + [setData];
      cols := cols + [setColumns];
      k := k + 1;
    }
    assert sets[..k] == sets;
    assert cols == ColumnLists(sets);
    col := MergeHeadings(cols);
    GreatestBounds(sets);
  }

  // ---------------------------------------------------------------------------
  // The greatest value

  lemma {:induction false} SeriesMaxBounds(acc: real, s: Series)
    ensures SeriesMax(acc, s) >= acc
    ensures forall i :: 0 <= i < |s| && s[i].value.Num? ==> s[i].value.x <= SeriesMax(acc, s)
    ensures SeriesMax(acc, s) == acc || exists i :: 0 <= i < |s| && s[i].value == Num(SeriesMax(acc, s))
  {
    if |s| > 0 {
      var p := s[..|s| - 1];
      SeriesMaxBounds(acc, p);
      assert forall i :: 0 <= i < |p| ==> p[i] == s[i];
    }
  }

  /**
   * The greatest value is at least 0 and at least every number in the data,
   * and it is 0 or one of those numbers: `nil` and `false` rows play no part.
   */
  lemma {:induction false} GreatestBounds(sets: seq<Series>)
    ensures DataMax(sets) >= 0.0
    ensures forall k, i :: 0 <= k < |sets| && 0 <= i < |sets[k]| && sets[k][i].value.Num? ==>
              sets[k][i].value.x <= DataMax(sets)
    ensures DataMax(sets) == 0.0 ||
            exists k, i :: 0 <= k < |sets| && 0 <= i < |sets[k]| && sets[k][i].value == Num(DataMax(sets))
  {
    if |sets| > 0 {
      var p := sets[..|sets| - 1];
      var last := sets[|sets| - 1];
      GreatestBounds(p);
      SeriesMaxBounds(DataMax(p), last);
      assert forall k :: 0 <= k < |p| ==> p[k] == sets[k];
      if DataMax(sets) != DataMax(p) {
        var i :| 0 <= i < |last| && last[i].value == Num(DataMax(sets));
        assert sets[|sets| - 1][i].value == Num(DataMax(sets));
      }
    }
  }

  // ---------------------------------------------------------------------------
  // The per-series map

  /** A heading maps to the value of its LAST row: a later duplicate overwrites. */
  lemma {:induction false} ToMapLastWins(s: Series, i: nat)
    requires i < |s|
    requires forall j :: i < j < |s| ==> s[j].heading != s[i].heading
    ensures s[i].heading in ToMap(s) && ToMap(s)[s[i].heading] == s[i].value
  {
    if i < |s| - 1 {
      var p := s[..|s| - 1];
      assert p[i] == s[i];
      assert forall j :: i < j < |p| ==> p[j] == s[j];
      ToMapLastWins(p, i);
    }
  }

  /** The map's keys are exactly the series' headings. */
  lemma {:induction false} ToMapKeys(s: Series)
    ensures forall h :: h in ToMap(s) <==> h in Columns(s)
  {
    if |s| > 0 {
      var p := s[..|s| - 1];
      ToMapKeys(p);
      assert Columns(s) == Columns(p) + [s[|s| - 1].heading];
    }
  }

  // ---------------------------------------------------------------------------
  // Merging the heading lists

  lemma {:induction false} CompactMembers(s: seq<Heading>)
    ensures forall h :: h in Compact(s) <==> h in s && h != NilHeading
  {
    if |s| > 0 {
      CompactMembers(s[1..]);
      assert s == [s[0]] + s[1..];
    }
  }

  lemma {:induction false} DedupMembers(s: seq<Heading>)
    ensures NoDups(Dedup(s))
    ensures forall h :: h in Dedup(s) <==> h in s
  {
    if |s| > 0 {
      var p := s[..|s| - 1];
      DedupMembers(p);
      assert s == p + [s[|s| - 1]];
    }
  }

  /** The first occurrence is the only index with no earlier copy. */
  lemma IndexOfUnique(s: seq<Heading>, x: Heading, i: nat)
    requires i < |s| && s[i] == x && x !in s[..i]
    ensures IndexOf(s, x) == i
  {
    var k := IndexOf(s, x);
    assert forall j :: 0 <= j < i ==> s[..i][j] == s[j];
    assert forall j :: 0 <= j < k ==> s[..k][j] == s[j];
  }

  lemma IndexOfCons(a: Heading, t: seq<Heading>, x: Heading)
    requires x in t && x != a
    ensures x in [a] + t && IndexOf([a] + t, x) == IndexOf(t, x) + 1
  {
    assert ([a] + t)[1..] == t;
  }

  /** `uniq` keeps headings in the order of their first occurrence. */
  lemma {:induction false} DedupOrder(s: seq<Heading>)
    ensures forall h :: h in Dedup(s) ==> h in s
    ensures forall i, j :: 0 <= i < j < |Dedup(s)| ==> IndexOf(s, Dedup(s)[i]) < IndexOf(s, Dedup(s)[j])
  {
    DedupMembers(s);
    if |s| > 0 {
      var p := s[..|s| - 1];
      var x := s[|s| - 1];
      var d := Dedup(p);
      DedupOrder(p);
      DedupMembers(p);
      assert s == p + [x];
      forall y | y in p
        ensures IndexOf(s, y) == IndexOf(p, y)
      {
        var k := IndexOf(p, y);
        assert s[..k] == p[..k];
        IndexOfUnique(s, y, k);
      }
      if x !in p {
        assert s[..|p|] == p;
        IndexOfUnique(s, x, |p|);
      }
    }
  }

  lemma CompactHas(s: seq<Heading>, x: Heading)
    requires x in Compact(s)
    ensures x in s && x != NilHeading
  {
    CompactMembers(s);
  }

  /** Compacting keeps the relative order of first occurrences. */
  lemma {:induction false} CompactOrder(s: seq<Heading>, x: Heading, y: Heading)
    requires x in Compact(s) && y in Compact(s)
    requires IndexOf(Compact(s), x) < IndexOf(Compact(s), y)
    ensures x in s && y in s && IndexOf(s, x) < IndexOf(s, y)
    decreases |s|
  {
    CompactHas(s, x);
    CompactHas(s, y);
    var head, tail := s[0], s[1..];
    var t := Compact(tail);
    assert s == [head] + tail;
    if head.NilHeading? {
      assert Compact(s) == t;
      CompactOrder(tail, x, y);
      CompactHas(tail, x);
      CompactHas(tail, y);
      IndexOfCons(head, tail, x);
      IndexOfCons(head, tail, y);
    } else if x != head {
      assert Compact(s) == [head] + t;
      assert IndexOf(Compact(s), y) > 0;
      assert y != head;
      assert x in t && y in t;
      IndexOfCons(head, t, x);
      IndexOfCons(head, t, y);
      CompactOrder(tail, x, y);
      IndexOfCons(head, tail, x);
      IndexOfCons(head, tail, y);
    } else {
      assert y != x;
      assert y in tail;
      IndexOfCons(head, tail, y);
    }
  }

  /**
   * The interleaving of the first m positions holds a heading other than
   * nil exactly when some list has it at one of those positions.
   */
  lemma {:induction false} ZipRowsMembers(cols: seq<seq<Heading>>, m: nat)
    ensures forall h :: h in ZipRows(cols, m) && h != NilHeading <==>
              h != NilHeading && exists k, i :: 0 <= k < |cols| && 0 <= i < m && i < |cols[k]| && cols[k][i] == h
  {
    if m > 0 {
      ZipRowsMembers(cols, m - 1);
      var tuple := ZipTuple(cols, m - 1);
      forall h | h != NilHeading
        ensures h in tuple <==> exists k :: 0 <= k < |cols| && m - 1 < |cols[k]| && cols[k][m - 1] == h
      {
        if h in tuple {
          var k :| 0 <= k < |cols| && tuple[k] == h;
        }
        if exists k :: 0 <= k < |cols| && m - 1 < |cols[k]| && cols[k][m - 1] == h {
          var k :| 0 <= k < |cols| && m - 1 < |cols[k]| && cols[k][m - 1] == h;
          assert tuple[k] == h;
        }
      }
    }
  }

  lemma {:induction false} InsertSorted(h: Heading, s: seq<Heading>)
    requires h.Number? && AllSortable(s) && StrictlyAscending(s) && h !in s
    ensures |Insert(h, s)| == |s| + 1
    ensures forall g :: g in Insert(h, s) <==> g == h || g in s
    ensures AllSortable(Insert(h, s)) && StrictlyAscending(Insert(h, s))
  {
    InsertMembers(h, s);
    if |s| == 0 {
    } else if Key(h) <= Key(s[0]) {
      assert s[0] in s && h != s[0];
      forall g | g in s
        ensures Key(h) < Key(g)
      {
        var k :| 0 <= k < |s| && s[k] == g;
        if k > 0 {
          assert Key(s[0]) < Key(s[k]);
        }
      }
      AscendingCons(h, s);
    } else {
      assert s == [s[0]] + s[1..];
      InsertSorted(h, s[1..]);
      var t := Insert(h, s[1..]);
      forall g | g in t
        ensures Key(s[0]) < Key(g)
      {
        if g != h {
          var k :| 0 <= k < |s[1..]| && s[1..][k] == g;
          assert s[k + 1] == g;
        }
      }
      AscendingCons(s[0], t);
    }
  }

  /** Inserting adds exactly one element, the one inserted. */
  lemma {:induction false} InsertMembers(h: Heading, s: seq<Heading>)
    ensures |Insert(h, s)| == |s| + 1
    ensures forall g :: g in Insert(h, s) <==> g == h || g in s
  {
    if |s| > 0 && Key(h) > Key(s[0]) {
      assert s == [s[0]] + s[1..];
      InsertMembers(h, s[1..]);
    }
  }

  /** Putting a heading with a smaller key than all others in front keeps a list ascending. */
  lemma AscendingCons(x: Heading, t: seq<Heading>)
    requires StrictlyAscending(t)
    requires forall g :: g in t ==> Key(x) < Key(g)
    ensures StrictlyAscending([x] + t)
  {
    var r := [x] + t;
    forall i, j | 0 <= i < j < |r|
      ensures Key(r[i]) < Key(r[j])
    {
      assert r[j] == t[j - 1] && r[j] in t;
      if i > 0 {
        assert r[i] == t[i - 1];
      }
    }
  }

  /** Sorting headings that are all numbers and all distinct gives them in ascending order. */
  lemma {:induction false} SortSorted(s: seq<Heading>)
    requires AllSortable(s) && NoDups(s)
    ensures |SortHeadings(s)| == |s|
    ensures forall g :: g in SortHeadings(s) <==> g in s
    ensures StrictlyAscending(SortHeadings(s))
  {
    if |s| > 0 {
      assert s == [s[0]] + s[1..];
      SortSorted(s[1..]);
      InsertSorted(s[0], SortHeadings(s[1..]));
    }
  }

  /**
   * The merged heading list: no nils, no duplicates, exactly the headings
   * found in some series at a position the first series also has, sorted
   * ascending when all of them are numbers and otherwise in the order in
   * which they first appear in the position-interleaved lists.
   */
  lemma MergedHeadings(cols: seq<seq<Heading>>)
    requires |cols| > 0
    ensures NilHeading !in MergeHeadings(cols)
    ensures NoDups(MergeHeadings(cols))
    ensures forall h :: h in MergeHeadings(cols) <==>
              h != NilHeading && exists k, i :: 0 <= k < |cols| && 0 <= i < |cols[0]| && i < |cols[k]| && cols[k][i] == h
    ensures forall i :: 0 <= i < |cols[0]| && cols[0][i] != NilHeading ==> cols[0][i] in MergeHeadings(cols)
    ensures forall h :: h in MergeHeadings(cols) ==> h in ZipFlat(cols)
    ensures AllSortable(MergeHeadings(cols)) ==> StrictlyAscending(MergeHeadings(cols))
    ensures !AllSortable(MergeHeadings(cols)) ==>
              forall i, j :: 0 <= i < j < |MergeHeadings(cols)| ==>
                IndexOf(ZipFlat(cols), MergeHeadings(cols)[i]) < IndexOf(ZipFlat(cols), MergeHeadings(cols)[j])
  {
    var z := ZipFlat(cols);
    var c := Compact(z);
    var u := Dedup(c);
    ZipRowsMembers(cols, |cols[0]|);
    CompactMembers(z);
    DedupMembers(c);
    DedupOrder(c);
    if AllSortable(u) {
      SortSorted(u);
    } else {
      forall i, j | 0 <= i < j < |u|
        ensures IndexOf(z, u[i]) < IndexOf(z, u[j])
      {
        CompactOrder(z, u[i], u[j]);
      }
    }
    forall i | 0 <= i < |cols[0]| && cols[0][i] != NilHeading
      ensures cols[0][i] in MergeHeadings(cols)
    {
      assert exists k, m :: 0 <= k < |cols| && 0 <= m < |cols[0]| && m < |cols[k]| && cols[k][m] == cols[0][i];
    }
  }

  /**
   * The merge interleaves by position and stops at the first series'
   * length: with series headed [a, b] and [c, d, e] the result is
   * [a, c, b, d]; e is never merged, although it heads a row.
   */
  lemma InterleavedNotAppended()
    ensures MergeHeadings([[Text("a"), Text("b")], [Text("c"), Text("d"), Text("e")]]) ==
            [Text("a"), Text("c"), Text("b"), Text("d")]
  {
    var cols := [[Text("a"), Text("b")], [Text("c"), Text("d"), Text("e")]];
    var z := ZipFlat(cols);
    assert ZipTuple(cols, 0) == [Text("a"), Text("c")];
    assert ZipTuple(cols, 1) == [Text("b"), Text("d")];
    assert ZipRows(cols, 1) == [Text("a"), Text("c")];
    assert z == [Text("a"), Text("c"), Text("b"), Text("d")];
    assert Compact(z[3..]) == z[3..] by { assert z[3..][1..] == []; }
    assert Compact(z[2..]) == z[2..] by { assert z[2..][1..] == z[3..]; }
    assert Compact(z[1..]) == z[1..] by { assert z[1..][1..] == z[2..]; }
    assert Compact(z) == z by { assert z[1..] == z[1..]; }
    assert Dedup(z[..1]) == z[..1] by { assert z[..1][..0] == []; }
    assert Dedup(z[..2]) == z[..2] by { assert z[..2][..1] == z[..1]; }
    assert Dedup(z[..3]) == z[..3] by { assert z[..3][..2] == z[..2]; }
    assert Dedup(z) == z by { assert z[..3] == z[..|z| - 1]; }
    assert !Text("a").Number?;
  }
}

/** `tools/avg.py`: running statistics per measurement, and the keyed collection of them. */
module Averages {
  import opened Cells
  import opened Statistics

  /** Lengths of formatted fields: numbers of values, numbers, and standard deviations. */
  datatype Lengths = Lengths(points: nat -> nat, number: Extended -> nat, stddev: Option<real> -> nat)

  datatype FieldWidth = FieldWidth(points: nat, key: nat, average: nat, stddev: nat, min: nat, max: nat) {
    function MaxWidths(other: FieldWidth): FieldWidth {
      FieldWidth(Max(points, other.points), Max(key, other.key), Max(average, other.average),
                 Max(stddev, other.stddev), Max(min, other.min), Max(max, other.max))
    }

    predicate Fits(row: FieldWidth) {
      && row.points <= points && row.key <= key && row.average <= average
      && row.stddev <= stddev && row.min <= min && row.max <= max
    }
  }

  lemma MaxWidthsFits(w: FieldWidth, row: FieldWidth, other: FieldWidth)
    ensures w.MaxWidths(row).Fits(row) && w.MaxWidths(row).Fits(w)
    ensures w.Fits(other) ==> w.MaxWidths(row).Fits(other)
  {
  }

  function Max(x: nat, y: nat): nat {
    if x < y then y else x
  }

  ghost function Numbers(inputs: seq<Option<real>>): seq<real> {
    if inputs == [] then []
    else
      var last := inputs[|inputs| - 1];
      Numbers(inputs[..|inputs| - 1]) + if last.Some? then [last.value] else []
  }

  class Measurement {
    const key: string
    const unit: string
    var values: seq<real>
    var average: real
    var count: nat
    var m2: real
    var min: Extended
    var max: Extended

    /** The running fields are what a second look at all the values would give. */
    ghost predicate Valid()
      reads this
    {
      && count == |values| && Running(values, average, m2) && (count == 0 ==> average == 0.0)
      && IsLeast(values, min) && IsGreatest(values, max)
    }

    constructor (key: string, unit: string)
      ensures Valid() && values == [] && this.key == key && this.unit == unit
    {
      this.key, this.unit := key, unit;
      values, average, count, m2, min, max := [], 0.0, 0, 0.0, PosInf, NegInf;
    }

    /** `addValue`; an input that `float` rejects changes nothing. */
    method AddValue(input: Option<real>)
      requires Valid()
      modifies this
      ensures Valid() && values == old(values) + if input.Some? then [input.value] else []
      ensures input.None? ==> unchanged(this)
    {
      hide Running, IsLeast, IsGreatest, Lower, Upper;
      if input.Some? {
        var x := input.value;
        ExtremesStep(values, x, min, max);
        values := values + [x];
        min := Lower(min, Finite(x));
        max := Upper(max, Finite(x));
        count := count + 1;
        assert count as real == |old(values)| as real + 1.0;
        var delta := x - average;
        average := average + delta / count as real;
        var delta2 := x - average;
        m2 := m2 + delta * delta2;
        WelfordStep(old(values), x, old(average), old(m2), count as real, average, m2);
      }
    }

    /** `variance`: not a number for fewer than two values, else the unbiased sample variance,
        which is never negative. */
    function Variance(): (v: Option<real>)
      reads this
    {
      if count < 2 then None else Some(m2 / (count - 1) as real)
    }

    lemma VarianceIsUnbiased()
      requires Valid()
      ensures Variance().None? <==> |values| < 2
      ensures Variance().Some? ==>
                && Variance().value >= 0.0
                && Variance().value * (|values| - 1) as real == Deviations(values, Sum(values) / |values| as real)
    {
      hide Sum, Deviations, IsLeast, IsGreatest;
      if count >= 2 {
        Quotient(average, count as real, Sum(values));
        QuotientTimes(m2, (count - 1) as real);
      }
    }

    function Widths(lengths: Lengths): FieldWidth
      reads this
    {
      FieldWidth(lengths.points(|values|) + 2, |key|, lengths.number(Finite(average)),
                 lengths.stddev(Variance()), lengths.number(min), lengths.number(max))
    }

    /** `widths` measures the row that the values call for. */
    lemma WidthsMeasured(lengths: Lengths)
      requires Valid()
      ensures Widths(lengths) == Row(lengths, key, values)
    {
      hide Sum, Deviations, IsLeast, IsGreatest, Least, Greatest;
      ExtremesUnique(values, values, min, Least(values));
      ExtremesUnique(values, values, max, Greatest(values));
      if count > 0 {
        Quotient(average, count as real, Sum(values));
      }
    }
  }

  ghost function SampleVariance(v: seq<real>): Option<real> {
    if |v| < 2 then None else Some(Deviations(v, Mean(v)) / (|v| - 1) as real)
  }

  /** How wide the cells of the row for `key` are if its values are `v`. */
  ghost function Row(lengths: Lengths, key: string, v: seq<real>): FieldWidth {
    FieldWidth(lengths.points(|v|) + 2, |key|, lengths.number(Finite(Mean(v))), lengths.stddev(SampleVariance(v)),
               lengths.number(Least(v)), lengths.number(Greatest(v)))
  }

  /** How wide the cells of `result_header` are. */
  ghost function Header(lengths: Lengths, repetitions: nat): FieldWidth {
    FieldWidth(|"#/"| + lengths.points(repetitions), |"id"|, |"avg"|, |"stddev"|, |"min"|, |"max"|)
  }

  /** A measurement fed with all inputs in turn. */
  method MeasureAll(inputs: seq<Option<real>>) returns (m: Measurement)
    ensures fresh(m) && m.Valid() && m.values == Numbers(inputs)
  {
    m := new Measurement("", "");
    for i := 0 to |inputs|
      invariant m.Valid() && fresh(m) && m.values == Numbers(inputs[..i])
    {
      m.AddValue(inputs[i]);
      assert inputs[..i + 1][..i] == inputs[..i];
    }
    assert inputs[..|inputs|] == inputs;
  }

  /** Two measurements of the same multiset of values agree, whatever the order. */
  lemma OrderIndependent(a: Measurement, b: Measurement)
    requires a.Valid() && b.Valid() && multiset(a.values) == multiset(b.values)
    ensures a.count == b.count && a.average == b.average && a.m2 == b.m2 && a.min == b.min && a.max == b.max
  {
    hide Sum, Deviations, IsLeast, IsGreatest;
    assert |a.values| == |multiset(a.values)| == |b.values|;
    OrderIrrelevant(a.values, b.values, a.average);
    ExtremesUnique(a.values, b.values, a.min, b.min);
    ExtremesUnique(a.values, b.values, a.max, b.max);
    if a.count > 0 {
      Quotient(a.average, a.count as real, Sum(a.values));
      Quotient(b.average, b.count as real, Sum(b.values));
    }
  }

  // ------------------------------------------------- keyed recording

  const DEFAULT_KEY := "[default]"

  /** One call of `record`, with the key it ends up under. */
  datatype Recording = Recording(key: string, input: Option<real>, unit: string)

  ghost function ValuesFor(history: seq<Recording>, key: string): seq<real> {
    if history == [] then []
    else
      var r := history[|history| - 1];
      ValuesFor(history[..|history| - 1], key) + if r.key == key && r.input.Some? then [r.input.value] else []
  }

  ghost predicate Occurs(history: seq<Recording>, key: string) {
    exists i :: 0 <= i < |history| && history[i].key == key
  }

  ghost predicate IsFirstUnit(history: seq<Recording>, key: string, unit: string) {
    exists i :: 0 <= i < |history| && history[i].key == key && history[i].unit == unit
      && forall j :: 0 <= j < i ==> history[j].key != key
  }

  lemma HistoryStep(h: seq<Recording>, r: Recording, k: string, unit: string)
    ensures ValuesFor(h + [r], k) == ValuesFor(h, k) + if r.key == k && r.input.Some? then [r.input.value] else []
    ensures Occurs(h + [r], k) <==> Occurs(h, k) || r.key == k
    ensures IsFirstUnit(h, k, unit) ==> IsFirstUnit(h + [r], k, unit)
    ensures !Occurs(h, r.key) ==> ValuesFor(h, r.key) == [] && IsFirstUnit(h + [r], r.key, r.unit)
  {
    hide Occurs, IsFirstUnit;
    var g := h + [r];
    assert g[..|g| - 1] == h && g[|g| - 1] == r;
    OccursStep(h, r, k);
    FirstUnitStep(h, r, k, unit);
    if !Occurs(h, r.key) {
      NoValues(h, r.key);
    }
  }

  lemma OccursStep(h: seq<Recording>, r: Recording, k: string)
    ensures Occurs(h + [r], k) <==> Occurs(h, k) || r.key == k
  {
    var g := h + [r];
    assert g[|h|] == r;
    if i :| 0 <= i < |h| && h[i].key == k {
      assert g[i].key == k;
    }
  }

  lemma FirstUnitStep(h: seq<Recording>, r: Recording, k: string, unit: string)
    ensures IsFirstUnit(h, k, unit) ==> IsFirstUnit(h + [r], k, unit)
    ensures !Occurs(h, r.key) ==> IsFirstUnit(h + [r], r.key, r.unit)
  {
    var g := h + [r];
    assert forall i :: 0 <= i < |h| ==> g[i] == h[i];
    if i :| 0 <= i < |h| && h[i].key == k && h[i].unit == unit && forall j :: 0 <= j < i ==> h[j].key != k {
      assert g[i].key == k && g[i].unit == unit && forall j :: 0 <= j < i ==> g[j].key != k;
    }
    if !Occurs(h, r.key) {
      assert g[|h|].key == r.key && g[|h|].unit == r.unit && forall j :: 0 <= j < |h| ==> g[j].key != r.key;
    }
  }

  lemma {:induction false} NoValues(h: seq<Recording>, k: string)
    requires !Occurs(h, k)
    ensures ValuesFor(h, k) == []
  {
    if h != [] {
      NoValues(h[..|h| - 1], k);
    }
  }

  /** The row that the call number `i` has led to. */
  ghost function RowAt(lengths: Lengths, h: seq<Recording>, i: nat): FieldWidth
    requires i < |h|
  {
    Row(lengths, h[i].key, ValuesFor(h[..i + 1], h[i].key))
  }

  /** Wide enough for the header and for all rows there have been. */
  ghost predicate WideEnough(lengths: Lengths, repetitions: nat, h: seq<Recording>, w: FieldWidth) {
    w.Fits(Header(lengths, repetitions)) && forall i: nat :: i < |h| ==> w.Fits(RowAt(lengths, h, i))
  }

  /** The least such widths. */
  ghost predicate Narrowest(lengths: Lengths, repetitions: nat, h: seq<Recording>, w: FieldWidth) {
    && WideEnough(lengths, repetitions, h, w)
    && forall other: FieldWidth :: WideEnough(lengths, repetitions, h, other) ==> other.Fits(w)
  }

  lemma WideEnoughThen(lengths: Lengths, repetitions: nat, h: seq<Recording>, r: Recording, w: FieldWidth)
    ensures WideEnough(lengths, repetitions, h + [r], w) <==>
            WideEnough(lengths, repetitions, h, w) && w.Fits(Row(lengths, r.key, ValuesFor(h + [r], r.key)))
  {
    hide Row, Header, ValuesFor, FieldWidth.Fits;
    var g := h + [r];
    assert g[..|g|] == g && g[|h|] == r;
    forall i: nat | i < |h| ensures RowAt(lengths, g, i) == RowAt(lengths, h, i) {
      assert g[..i + 1] == h[..i + 1];
    }
    assert RowAt(lengths, g, |h|) == Row(lengths, r.key, ValuesFor(g, r.key));
  }

  lemma NarrowestThen(lengths: Lengths, repetitions: nat, h: seq<Recording>, r: Recording, w: FieldWidth,
                      row: FieldWidth)
    requires Narrowest(lengths, repetitions, h, w) && row == Row(lengths, r.key, ValuesFor(h + [r], r.key))
    ensures Narrowest(lengths, repetitions, h + [r], w.MaxWidths(row))
  {
    hide WideEnough, Row, ValuesFor, FieldWidth.Fits, FieldWidth.MaxWidths;
    var w' := w.MaxWidths(row);
    WideEnoughFor(lengths, repetitions, h, w, w', row);
    WideEnoughThen(lengths, repetitions, h, r, w');
    forall other: FieldWidth | WideEnough(lengths, repetitions, h + [r], other) ensures other.Fits(w') {
      WideEnoughThen(lengths, repetitions, h, r, other);
      FitsBoth(other, w, row);
    }
  }

  lemma WideEnoughFor(lengths: Lengths, repetitions: nat, h: seq<Recording>, w: FieldWidth, w': FieldWidth,
                      row: FieldWidth)
    requires WideEnough(lengths, repetitions, h, w) && w' == w.MaxWidths(row)
    ensures WideEnough(lengths, repetitions, h, w') && w'.Fits(row)
  {
    hide RowAt, Header, FieldWidth.Fits, FieldWidth.MaxWidths;
    MaxWidthsFits(w, row, Header(lengths, repetitions));
    forall i: nat | i < |h| ensures w'.Fits(RowAt(lengths, h, i)) {
      MaxWidthsFits(w, row, RowAt(lengths, h, i));
    }
  }

  lemma FitsBoth(other: FieldWidth, w: FieldWidth, row: FieldWidth)
    requires other.Fits(w) && other.Fits(row)
    ensures other.Fits(w.MaxWidths(row))
  {
  }

  lemma HeaderIsNarrowest(lengths: Lengths, repetitions: nat)
    ensures Narrowest(lengths, repetitions, [], Header(lengths, repetitions))
  {
  }

  /** Columns that were wide enough for every row at its time are so for the last row of each key. */
  lemma {:induction false} LastRowFits(lengths: Lengths, repetitions: nat, h: seq<Recording>, w: FieldWidth, k: string)
    requires WideEnough(lengths, repetitions, h, w) && Occurs(h, k)
    ensures w.Fits(Row(lengths, k, ValuesFor(h, k)))
    decreases |h|
  {
    hide Row, WideEnough, Occurs, FieldWidth.Fits;
    if h == [] {
      NothingOccurs(k);
    } else {
      var g, r := h[..|h| - 1], h[|h| - 1];
      assert h == g + [r];
      WideEnoughThen(lengths, repetitions, g, r, w);
      if r.key != k {
        OccursStep(g, r, k);
        LastRowFits(lengths, repetitions, g, w, k);
        assert ValuesFor(h, k) == ValuesFor(g, k);
      }
    }
  }

  lemma NothingOccurs(k: string)
    ensures !Occurs([], k)
  {
  }

  class Measurements {
    const lengths: Lengths
    const repetitions: nat
    var all: map<string, Measurement>
    var maxWidths: FieldWidth
    ghost var history: seq<Recording>

    /** Every key recorded so far has a measurement with exactly its numeric inputs in order and
        the first unit given for it, and the columns are just wide enough for every row so far. */
    ghost predicate Valid()
      reads this, all.Values
    {
      && (forall k, j :: k in all && j in all && k != j ==> all[k] != all[j])
      && (forall k :: k in all <==> Occurs(history, k))
      && (forall k :: k in all ==>
            && all[k].Valid() && all[k].key == k
            && all[k].values == ValuesFor(history, k) && IsFirstUnit(history, k, all[k].unit))
      && Narrowest(lengths, repetitions, history, maxWidths)
    }

    /** The columns are wide enough to print the header and the row of every key. */
    lemma ResultsFit(k: string)
      requires Valid() && Occurs(history, k)
      ensures var v := ValuesFor(history, k);
              && maxWidths.key >= |k| && maxWidths.points >= lengths.points(|v|) + 2
              && (v != [] ==> maxWidths.average >= lengths.number(Finite(Sum(v) / |v| as real)))
              && maxWidths.stddev >= lengths.stddev(SampleVariance(v))
              && (forall x :: IsLeast(v, x) ==> maxWidths.min >= lengths.number(x))
              && (forall x :: IsGreatest(v, x) ==> maxWidths.max >= lengths.number(x))
      ensures maxWidths.points >= |"#/"| + lengths.points(repetitions)
      ensures maxWidths.key >= |"id"| && maxWidths.average >= |"avg"| && maxWidths.stddev >= |"stddev"|
      ensures maxWidths.min >= |"min"| && maxWidths.max >= |"max"|
    {
      hide Occurs, ValuesFor, IsLeast, IsGreatest, Least, Greatest, SampleVariance, RowAt, IsFirstUnit,
           Measurement.Valid;
      var v := ValuesFor(history, k);
      LastRowFits(lengths, repetitions, history, maxWidths, k);
      forall x: Extended ensures IsLeast(v, x) ==> x == Least(v) {
        ExtremesUnique(v, v, x, Least(v));
      }
      forall x: Extended ensures IsGreatest(v, x) ==> x == Greatest(v) {
        ExtremesUnique(v, v, x, Greatest(v));
      }
    }

    constructor (lengths: Lengths, repetitions: nat)
      ensures Valid() && fresh(all.Values) && history == [] && this.lengths == lengths
      ensures this.repetitions == repetitions && maxWidths == Header(lengths, repetitions)
    {
      this.lengths, this.repetitions := lengths, repetitions;
      HeaderIsNarrowest(lengths, repetitions);
      all, history := map[], [];
      maxWidths := FieldWidth(lengths.points(repetitions) + 2, |"id"|, |"avg"|, |"stddev"|, |"min"|, |"max"|);
    }

    /** The measurement for `k`, which is created if there is none yet. */
    method Ensure(k: string, unit: string) returns (m: Measurement)
      requires Valid()
      modifies this`all
      ensures k in all && m == all[k] && m.Valid() && m.key == k && forall j :: j in all && j != k ==> all[j] != m
      ensures if k in old(all) then all == old(all)
              else fresh(m) && all == old(all)[k := m] && m.values == [] && m.unit == unit
    {
      if k !in all {
        m := new Measurement(k, unit);
        all := all[k := m];
      }
      m := all[k];
    }

    /** `record`. */
    method Record(key: string, input: Option<real>, unit: string)
      requires Valid()
      modifies this, all.Values
      ensures Valid() && history == old(history) + [Recording(if key == "" then "[default]" else key, input, unit)]
      ensures fresh(all.Values - old(all.Values))
      ensures maxWidths.Fits(old(maxWidths))
    {
      hide ValuesFor, Occurs, IsFirstUnit, Narrowest, Row, Measurement.Valid, Measurement.Widths,
           FieldWidth.Fits, FieldWidth.MaxWidths;
      var k := key;
      if k == "" {
        k := DEFAULT_KEY;
      }
      var m := Ensure(k, unit);
      m.AddValue(input);
      maxWidths := maxWidths.MaxWidths(m.Widths(lengths));
      MaxWidthsFits(old(maxWidths), m.Widths(lengths), old(maxWidths));
      ghost var r := Recording(k, input, unit);
      history := history + [r];
      forall j | j in all
        ensures all[j].Valid() && all[j].key == j
        ensures all[j].values == ValuesFor(history, j) && IsFirstUnit(history, j, all[j].unit)
      {
        HistoryStep(old(history), r, j, all[j].unit);
        if j != k {
          assert all[j] == old(all[j]) && all[j] != m;
        }
      }
      forall j: string ensures j in all <==> Occurs(history, j) {
        HistoryStep(old(history), r, j, unit);
      }
      m.WidthsMeasured(lengths);
      NarrowestThen(lengths, repetitions, old(history), r, old(maxWidths), m.Widths(lengths));
    }
  }
}

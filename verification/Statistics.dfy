/** What `tools/avg.py` is to compute, stated directly on the recorded values. */
module Statistics {
  /** Where `min` and `max` start, and what they can become. */
  datatype Extended = NegInf | Finite(value: real) | PosInf

  predicate AtMost(x: Extended, y: Extended) {
    x == NegInf || y == PosInf || (x.Finite? && y.Finite? && x.value <= y.value)
  }

  function Lower(x: Extended, y: Extended): Extended {
    if AtMost(x, y) then x else y
  }

  function Upper(x: Extended, y: Extended): Extended {
    if AtMost(x, y) then y else x
  }

  ghost function Sum(s: seq<real>): real {
    if s == [] then 0.0 else Sum(s[..|s| - 1]) + s[|s| - 1]
  }

  ghost function Square(x: real): real {
    x * x
  }

  /** The sum of squared deviations from `m`. */
  ghost function Deviations(s: seq<real>, m: real): (d: real)
    ensures d >= 0.0
  {
    if s == [] then 0.0 else Deviations(s[..|s| - 1], m) + Square(s[|s| - 1] - m)
  }

  ghost predicate IsLeast(s: seq<real>, x: Extended) {
    if s == [] then x == PosInf
    else x.Finite? && x.value in s && forall v :: v in s ==> x.value <= v
  }

  ghost predicate IsGreatest(s: seq<real>, x: Extended) {
    if s == [] then x == NegInf
    else x.Finite? && x.value in s && forall v :: v in s ==> v <= x.value
  }

  lemma ExtremesStep(s: seq<real>, x: real, low: Extended, high: Extended)
    requires IsLeast(s, low) && IsGreatest(s, high)
    ensures IsLeast(s + [x], Lower(low, Finite(x))) && IsGreatest(s + [x], Upper(high, Finite(x)))
  {
  }

  ghost function Mean(s: seq<real>): real {
    if s == [] then 0.0 else Sum(s) / |s| as real
  }

  ghost function Least(s: seq<real>): (x: Extended)
    ensures IsLeast(s, x)
  {
    if s == [] then PosInf
    else
      ExtremesStep(s[..|s| - 1], s[|s| - 1], Least(s[..|s| - 1]), Greatest(s[..|s| - 1]));
      assert s == s[..|s| - 1] + [s[|s| - 1]];
      Lower(Least(s[..|s| - 1]), Finite(s[|s| - 1]))
  }

  ghost function Greatest(s: seq<real>): (x: Extended)
    ensures IsGreatest(s, x)
  {
    if s == [] then NegInf
    else
      ExtremesStep(s[..|s| - 1], s[|s| - 1], Least(s[..|s| - 1]), Greatest(s[..|s| - 1]));
      assert s == s[..|s| - 1] + [s[|s| - 1]];
      Upper(Greatest(s[..|s| - 1]), Finite(s[|s| - 1]))
  }

  lemma Quotient(average: real, n: real, sum: real)
    requires n >= 1.0 && average * n == sum
    ensures average == sum / n
  {
  }

  lemma QuotientTimes(x: real, n: real)
    requires n >= 1.0
    ensures x / n * n == x && (x >= 0.0 ==> x / n >= 0.0)
  {
  }

  /** The sum of signed deviations from `m`. */
  ghost function Residue(s: seq<real>, m: real): real {
    if s == [] then 0.0 else Residue(s[..|s| - 1], m) + (s[|s| - 1] - m)
  }

  lemma Distribute(c: real, x: real, y: real)
    ensures c * (x + y) == c * x + c * y
  {
  }

  lemma SquareOfDifference(y: real, e: real)
    ensures Square(y - e) == Square(y) - (2.0 * e) * y + Square(e)
  {
  }

  lemma {:induction false} ResidueIs(s: seq<real>, m: real)
    ensures Residue(s, m) == Sum(s) - m * |s| as real
  {
    if s != [] {
      var r := s[..|s| - 1];
      ResidueIs(r, m);
      Distribute(m, |r| as real, 1.0);
      assert |s| as real == |r| as real + 1.0;
    }
  }

  /** Moving the reference point of the squared deviations. */
  lemma {:induction false} DeviationsShift(s: seq<real>, m: real, e: real)
    ensures Deviations(s, m + e) == Deviations(s, m) - (2.0 * e) * Residue(s, m) + Square(e) * |s| as real
  {
    hide Square;
    if s != [] {
      var r, y := s[..|s| - 1], s[|s| - 1] - m;
      DeviationsShift(r, m, e);
      SquareOfDifference(y, e);
      assert s[|s| - 1] - (m + e) == y - e;
      Distribute(2.0 * e, Residue(r, m), y);
      Distribute(Square(e), |r| as real, 1.0);
      assert |s| as real == |r| as real + 1.0;
    }
  }

  /** The running fields agree with the values. */
  ghost predicate Running(s: seq<real>, average: real, m2: real) {
    average * |s| as real == Sum(s) && m2 == Deviations(s, average)
  }

  /** One step of the running mean and the running sum of squares is exact. */
  lemma WelfordStep(s: seq<real>, x: real, average: real, m2: real, n: real, average': real, m2': real)
    requires Running(s, average, m2) && n == |s| as real + 1.0
    requires average' == average + (x - average) / n && m2' == m2 + (x - average) * (x - average')
    ensures Running(s + [x], average', m2')
  {
    hide Square, Sum, Deviations;
    var delta := x - average;
    var e := delta / n;
    WithOneMore(s, x, average + e);
    MeanStep(average, delta, n);
    assert |s| as real == n - 1.0 && |s + [x]| as real == n;
    ResidueIs(s, average);
    DeviationsShift(s, average, e);
    assert Residue(s, average) == 0.0;
    assert Deviations(s, average + e) == m2 + Square(e) * (n - 1.0);
    assert x - (average + e) == delta - e;
    SquaresStep(delta, e, n);
  }

  lemma WithOneMore(s: seq<real>, x: real, m: real)
    ensures Sum(s + [x]) == Sum(s) + x && Deviations(s + [x], m) == Deviations(s, m) + Square(x - m)
  {
    assert (s + [x])[..|s|] == s;
  }

  lemma MeanStep(average: real, delta: real, n: real)
    requires n >= 1.0
    ensures (average + delta / n) * n == average * (n - 1.0) + (average + delta)
  {
    Distribute(n, average, delta / n);
    Distribute(average, n, -1.0);
  }

  lemma SquaresStep(delta: real, e: real, n: real)
    requires n >= 1.0 && e == delta / n
    ensures Square(e) * (n - 1.0) + Square(delta - e) == delta * (delta - e)
  {
    assert delta == n * e;
    assert delta - e == (n - 1.0) * e;
    assert Square(delta - e) == (n - 1.0) * e * (delta - e);
    assert Square(e) * (n - 1.0) == e * (delta - e);
    assert (n - 1.0) * e * (delta - e) + e * (delta - e) == n * e * (delta - e);
  }

  // ------------------------------------------------- the order of the values does not matter

  ghost function Without(s: seq<real>, i: nat): seq<real>
    requires i < |s|
  {
    s[..i] + s[i + 1..]
  }

  lemma WithoutElement(s: seq<real>, i: nat)
    requires i < |s|
    ensures multiset(Without(s, i)) == multiset(s) - multiset{s[i]}
  {
    assert s == s[..i] + [s[i]] + s[i + 1..];
  }

  lemma {:induction false} WithoutOne(s: seq<real>, i: nat, m: real)
    requires i < |s|
    ensures Sum(s) == Sum(Without(s, i)) + s[i]
    ensures Deviations(s, m) == Deviations(Without(s, i), m) + Square(s[i] - m)
    decreases |s|
  {
    hide Square;
    var r, x := s[..|s| - 1], s[|s| - 1];
    if i == |r| {
      assert Without(s, i) == r;
    } else {
      WithoutOne(r, i, m);
      var w, u := Without(r, i), Without(s, i);
      assert u == w + [x];
      assert u[..|u| - 1] == w;
    }
  }

  /** Sums and squared deviations depend on the multiset of values only. */
  lemma {:induction false} OrderIrrelevant(s: seq<real>, t: seq<real>, m: real)
    requires multiset(s) == multiset(t)
    ensures Sum(s) == Sum(t) && Deviations(s, m) == Deviations(t, m)
    decreases |s|
  {
    hide Square;
    if s == [] {
      assert |t| == |multiset(t)| == 0;
    } else {
      assert s[0] in multiset(t);
      var j :| 0 <= j < |t| && t[j] == s[0];
      WithoutOne(s, 0, m);
      WithoutOne(t, j, m);
      WithoutElement(s, 0);
      WithoutElement(t, j);
      OrderIrrelevant(Without(s, 0), Without(t, j), m);
    }
  }

  lemma ExtremesUnique(s: seq<real>, t: seq<real>, x: Extended, y: Extended)
    requires multiset(s) == multiset(t)
    ensures IsLeast(s, x) && IsLeast(t, y) ==> x == y
    ensures IsGreatest(s, x) && IsGreatest(t, y) ==> x == y
  {
    assert |s| == |multiset(s)| == |t|;
    assert forall v :: v in s <==> v in multiset(s);
    assert forall v :: v in t <==> v in multiset(t);
  }
}

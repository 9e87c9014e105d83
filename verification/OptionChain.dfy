/**
 Max pain of an option chain, as the page computes it: for each listed strike the
 total pain over all rows, and the strike with the least pain, the earliest on ties.
 The call and put terms are oriented as the page orients them.
 */
module OptionChain {
  import opened Wrappers

  datatype Row = Row(strike: real, callOi: real, putOi: real)

  /** `best` of the reduce; pain None stands for POSITIVE_INFINITY. */
  datatype Best = Best(strike: real, pain: Option<real>)

  function Positive(x: real): real { if x >= 0.0 then x else 0.0 }

  function RowPain(row: Row, settlement: real): real {
    Positive(row.strike - settlement) * row.callOi + Positive(settlement - row.strike) * row.putOi
  }

  function Pain(rows: seq<Row>, settlement: real): real {
    if rows == [] then 0.0
    else Pain(rows[..|rows| - 1], settlement) + RowPain(rows[|rows| - 1], settlement)
  }

  /** The outer reduce over rows[..n]. */
  function Scan(rows: seq<Row>, n: nat): Best
    requires n <= |rows| && rows != []
  {
    if n == 0 then Best(rows[0].strike, None)
    else
      var best := Scan(rows, n - 1);
      var candidate := rows[n - 1].strike;
      var pain := Pain(rows, candidate);
      if best.pain.None? || pain < best.pain.value then Best(candidate, Some(pain)) else best
  }

  /** The `max_pain` field: a value from the data provider wins over the computed one. */
  function MaxPain(provided: Option<real>, rows: seq<Row>): Option<real> {
    if provided.Some? then provided
    else if rows == [] then None
    else Some(Scan(rows, |rows|).strike)
  }

  function TotalCallOi(rows: seq<Row>): real {
    if rows == [] then 0.0 else TotalCallOi(rows[..|rows| - 1]) + rows[|rows| - 1].callOi
  }

  function TotalPutOi(rows: seq<Row>): real {
    if rows == [] then 0.0 else TotalPutOi(rows[..|rows| - 1]) + rows[|rows| - 1].putOi
  }

  /** What the page asks of open interest; any non-negative figures satisfy it. */
  ghost predicate NonNegativeTotals(rows: seq<Row>) {
    TotalCallOi(rows) >= 0.0 && TotalPutOi(rows) >= 0.0
  }

  /** The first row whose strike has the least pain of all listed strikes. */
  ghost predicate FirstLeast(rows: seq<Row>, k: nat) {
    && k < |rows|
    && (forall j :: 0 <= j < |rows| ==> Pain(rows, rows[k].strike) <= Pain(rows, rows[j].strike))
    && (forall j :: 0 <= j < k ==> Pain(rows, rows[k].strike) < Pain(rows, rows[j].strike))
  }

  lemma {:induction false} ScanFindsFirst(rows: seq<Row>, n: nat) returns (k: nat)
    requires 0 < n <= |rows|
    ensures k < n && Scan(rows, n) == Best(rows[k].strike, Some(Pain(rows, rows[k].strike)))
    ensures forall j :: 0 <= j < n ==> Pain(rows, rows[k].strike) <= Pain(rows, rows[j].strike)
    ensures forall j :: 0 <= j < k ==> Pain(rows, rows[k].strike) < Pain(rows, rows[j].strike)
  {
    if n == 1 {
      assert Scan(rows, 0).pain.None?;
      k := 0;
    } else {
      k := ScanFindsFirst(rows, n - 1);
      if Pain(rows, rows[n - 1].strike) < Pain(rows, rows[k].strike) {
        k := n - 1;
      }
    }
  }

  // ----- the pain function between, below and above the strikes

  /** No strike lies strictly between l and r. */
  ghost predicate NoStrikeInside(rows: seq<Row>, l: real, r: real) {
    forall i :: 0 <= i < |rows| ==> rows[i].strike <= l || r <= rows[i].strike
  }

  lemma RowAffine(row: Row, l: real, s: real, r: real)
    requires l <= s <= r
    requires row.strike <= l || r <= row.strike
    ensures (r - l) * RowPain(row, s) == (r - s) * RowPain(row, l) + (s - l) * RowPain(row, r)
  {
    if row.strike <= l {
      assert RowPain(row, s) == (s - row.strike) * row.putOi;
      assert RowPain(row, l) == (l - row.strike) * row.putOi;
      assert RowPain(row, r) == (r - row.strike) * row.putOi;
      assert (r - l) * (s - row.strike) == (r - s) * (l - row.strike) + (s - l) * (r - row.strike);
      Scaled(r - l, s - row.strike, r - s, l - row.strike, s - l, r - row.strike, row.putOi);
    } else {
      assert RowPain(row, s) == (row.strike - s) * row.callOi;
      assert RowPain(row, l) == (row.strike - l) * row.callOi;
      assert RowPain(row, r) == (row.strike - r) * row.callOi;
      assert (r - l) * (row.strike - s) == (r - s) * (row.strike - l) + (s - l) * (row.strike - r);
      Scaled(r - l, row.strike - s, r - s, row.strike - l, s - l, row.strike - r, row.callOi);
    }
  }

  lemma Scaled(a: real, x: real, b: real, y: real, c: real, z: real, w: real)
    requires a * x == b * y + c * z
    ensures a * (x * w) == b * (y * w) + c * (z * w)
  {
    assert a * (x * w) == (a * x) * w;
    assert b * (y * w) == (b * y) * w;
    assert c * (z * w) == (c * z) * w;
  }

  /** Between neighbouring strikes the pain is affine. */
  lemma {:induction false} PainAffine(rows: seq<Row>, l: real, s: real, r: real)
    requires l <= s <= r && NoStrikeInside(rows, l, r)
    ensures (r - l) * Pain(rows, s) == (r - s) * Pain(rows, l) + (s - l) * Pain(rows, r)
  {
    hide RowPain;
    if rows != [] {
      var front, last := rows[..|rows| - 1], rows[|rows| - 1];
      PainAffine(front, l, s, r);
      RowAffine(last, l, s, r);
      var x, y, z := Pain(rows, s), Pain(rows, l), Pain(rows, r);
      assert x == Pain(front, s) + RowPain(last, s);
      assert y == Pain(front, l) + RowPain(last, l);
      assert z == Pain(front, r) + RowPain(last, r);
      hide Pain;
      SumAffine(r - l, r - s, s - l, Pain(front, s), Pain(front, l), Pain(front, r),
                RowPain(last, s), RowPain(last, l), RowPain(last, r));
    }
  }

  lemma SumAffine(a: real, b: real, c: real, x: real, y: real, z: real, x': real, y': real, z': real)
    requires a * x == b * y + c * z && a * x' == b * y' + c * z'
    ensures a * (x + x') == b * (y + y') + c * (z + z')
  {
    Distribute(a, x, x');
    Distribute(b, y, y');
    Distribute(c, z, z');
  }

  lemma Distribute(a: real, x: real, y: real)
    ensures a * (x + y) == a * x + a * y
  {
  }

  /** Below every strike the pain falls towards them with slope TotalCallOi. */
  lemma {:induction false} PainBelow(rows: seq<Row>, far: real, near: real)
    requires far <= near && forall i :: 0 <= i < |rows| ==> near <= rows[i].strike
    ensures Pain(rows, far) == Pain(rows, near) + (near - far) * TotalCallOi(rows)
  {
    if rows != [] {
      var n := |rows| - 1;
      PainBelow(rows[..n], far, near);
      var row := rows[n];
      assert (row.strike - far) * row.callOi == (row.strike - near) * row.callOi + (near - far) * row.callOi;
      assert RowPain(row, far) == RowPain(row, near) + (near - far) * row.callOi;
      Distribute(near - far, TotalCallOi(rows[..n]), row.callOi);
    }
  }

  /** Above every strike it grows away from them with slope TotalPutOi. */
  lemma {:induction false} PainAbove(rows: seq<Row>, near: real, far: real)
    requires near <= far && forall i :: 0 <= i < |rows| ==> rows[i].strike <= near
    ensures Pain(rows, far) == Pain(rows, near) + (far - near) * TotalPutOi(rows)
  {
    if rows != [] {
      var n := |rows| - 1;
      PainAbove(rows[..n], near, far);
      var row := rows[n];
      assert (far - row.strike) * row.putOi == (near - row.strike) * row.putOi + (far - near) * row.putOi;
      assert RowPain(row, far) == RowPain(row, near) + (far - near) * row.putOi;
      Distribute(far - near, TotalPutOi(rows[..n]), row.putOi);
    }
  }

  /** The weighted mean of two values is not below both. */
  lemma MeanNotBelow(a: real, b: real, c: real, m: real, x: real, y: real)
    requires a > 0.0 && b > 0.0 && c == a + b
    requires c * m == a * x + b * y
    ensures m >= x || m >= y
  {
    Distribute(m, a, b);
    assert m < x ==> a * m < a * x;
    assert m < y ==> b * m < b * y;
  }

  /** The listed strike nearest to s from below, among rows[..n]. */
  lemma {:induction false} NearestBelow(rows: seq<Row>, s: real) returns (found: bool, k: nat)
    ensures found ==> k < |rows| && rows[k].strike <= s
                      && forall i :: 0 <= i < |rows| ==> rows[i].strike <= rows[k].strike || s < rows[i].strike
    ensures !found ==> forall i :: 0 <= i < |rows| ==> s < rows[i].strike
  {
    found, k := false, 0;
    if rows != [] {
      var n := |rows| - 1;
      found, k := NearestBelow(rows[..n], s);
      assert forall i :: 0 <= i < n ==> rows[..n][i] == rows[i];
      if rows[n].strike <= s && (!found || rows[k].strike < rows[n].strike) {
        found, k := true, n;
      }
    }
  }

  lemma {:induction false} NearestAbove(rows: seq<Row>, s: real) returns (found: bool, k: nat)
    ensures found ==> k < |rows| && s <= rows[k].strike
                      && forall i :: 0 <= i < |rows| ==> rows[k].strike <= rows[i].strike || rows[i].strike < s
    ensures !found ==> forall i :: 0 <= i < |rows| ==> rows[i].strike < s
  {
    found, k := false, 0;
    if rows != [] {
      var n := |rows| - 1;
      found, k := NearestAbove(rows[..n], s);
      assert forall i :: 0 <= i < n ==> rows[..n][i] == rows[i];
      if s <= rows[n].strike && (!found || rows[n].strike < rows[k].strike) {
        found, k := true, n;
      }
    }
  }

  /** With non-negative totals, some listed strike is at least as good as any settlement price. */
  lemma SomeStrikeAsGood(rows: seq<Row>, s: real) returns (k: nat)
    requires rows != [] && NonNegativeTotals(rows)
    ensures k < |rows| && Pain(rows, rows[k].strike) <= Pain(rows, s)
  {
    var below, i := NearestBelow(rows, s);
    var above, j := NearestAbove(rows, s);
    hide Pain;
    if !below {
      k := j;
      PainBelow(rows, s, rows[j].strike);
    } else if !above {
      k := i;
      PainAbove(rows, rows[i].strike, s);
    } else if rows[i].strike == s {
      k := i;
    } else if rows[j].strike == s {
      k := j;
    } else {
      var l, r := rows[i].strike, rows[j].strike;
      PainAffine(rows, l, s, r);
      MeanNotBelow(r - s, s - l, r - l, Pain(rows, s), Pain(rows, l), Pain(rows, r));
      k := if Pain(rows, l) <= Pain(rows, s) then i else j;
    }
  }

  ghost predicate GlobalLeast(rows: seq<Row>, strike: real) {
    forall s: real :: Pain(rows, strike) <= Pain(rows, s)
  }

  /** A line that falls without bound passes below any value. */
  lemma FallsBelow(start: real, slope: real, bound: real) returns (t: real)
    requires slope < 0.0 && bound <= start
    ensures t >= 0.0 && start + t * slope < bound
  {
    t := (start - bound + 1.0) / (-slope);
    assert t * (-slope) == start - bound + 1.0;
  }

  /** A chain whose totals are not non-negative has no least pain at all. */
  lemma NegativeTotalsUnbounded(rows: seq<Row>, strike: real) returns (s: real)
    requires rows != [] && !NonNegativeTotals(rows)
    ensures Pain(rows, s) < Pain(rows, strike)
  {
    hide Outermost, Pain;
    OutermostBounds(rows);
    if TotalCallOi(rows) < 0.0 {
      var near := Outermost(rows, false);
      var bound := if Pain(rows, strike) <= Pain(rows, near) then Pain(rows, strike) else Pain(rows, near);
      var t := FallsBelow(Pain(rows, near), TotalCallOi(rows), bound);
      s := near - t;
      PainBelow(rows, s, near);
    } else {
      var near := Outermost(rows, true);
      var bound := if Pain(rows, strike) <= Pain(rows, near) then Pain(rows, strike) else Pain(rows, near);
      var t := FallsBelow(Pain(rows, near), TotalPutOi(rows), bound);
      s := near + t;
      PainAbove(rows, near, s);
    }
  }

  /** The highest or the lowest listed strike. */
  function Outermost(rows: seq<Row>, highest: bool): real
    requires rows != []
  {
    var last := rows[|rows| - 1].strike;
    if |rows| == 1 then last
    else
      var rest := Outermost(rows[..|rows| - 1], highest);
      if highest == (last >= rest) then last else rest
  }

  lemma {:induction false} OutermostBounds(rows: seq<Row>)
    requires rows != []
    ensures forall i :: 0 <= i < |rows| ==> Outermost(rows, false) <= rows[i].strike <= Outermost(rows, true)
  {
    if |rows| > 1 {
      var front := rows[..|rows| - 1];
      OutermostBounds(front);
      assert forall i :: 0 <= i < |front| ==> rows[i] == front[i];
    }
  }

  /**
   The computed strike belongs to the first row of least pain among the listed ones,
   and it minimises the pain over every settlement price, listed or not, exactly when
   the two open-interest totals are non-negative.
   */
  lemma MaxPainIsGlobal(rows: seq<Row>) returns (k: nat)
    requires rows != []
    ensures FirstLeast(rows, k)
    ensures MaxPain(None, rows) == Some(rows[k].strike) && MaxPain(None, []).None?
    ensures forall value, listed :: MaxPain(Some(value), listed) == Some(value)
    ensures GlobalLeast(rows, rows[k].strike) <==> NonNegativeTotals(rows)
  {
    k := ScanFindsFirst(rows, |rows|);
    if NonNegativeTotals(rows) {
      forall s: real ensures Pain(rows, rows[k].strike) <= Pain(rows, s) {
        var j := SomeStrikeAsGood(rows, s);
      }
    } else {
      var s := NegativeTotalsUnbounded(rows, rows[k].strike);
    }
  }

  // ----- the orientation

  /** What the option writers pay at a settlement price: calls above their strike, puts below it. */
  function Payout(rows: seq<Row>, settlement: real): real {
    if rows == [] then 0.0
    else
      var row := rows[|rows| - 1];
      Payout(rows[..|rows| - 1], settlement)
      + Positive(settlement - row.strike) * row.callOi + Positive(row.strike - settlement) * row.putOi
  }

  /** Call and put open interest exchanged. */
  function Swapped(rows: seq<Row>): seq<Row> {
    seq(|rows|, i requires 0 <= i < |rows| => Row(rows[i].strike, rows[i].putOi, rows[i].callOi))
  }

  /** The page's pain is the writers' payout of the chain with its two open-interest columns exchanged. */
  lemma {:induction false} PainIsSwappedPayout(rows: seq<Row>, settlement: real)
    ensures Pain(rows, settlement) == Payout(Swapped(rows), settlement)
  {
    if rows != [] {
      PainIsSwappedPayout(rows[..|rows| - 1], settlement);
      assert Swapped(rows)[..|rows| - 1] == Swapped(rows[..|rows| - 1]);
    }
  }

  function TwoStrikes(): seq<Row> { [Row(100.0, 1.0, 1.0), Row(200.0, 10.0, 0.0)] }

  /** On this chain the page picks 200, where the writers pay more than at 100. */
  lemma OrientationMatters()
    ensures MaxPain(None, TwoStrikes()) == Some(200.0)
    ensures Payout(TwoStrikes(), 100.0) < Payout(TwoStrikes(), 200.0)
  {
    var rows, first := TwoStrikes(), [Row(100.0, 1.0, 1.0)];
    assert rows[..1] == first && first[..0] == [];
    assert Payout(first, 100.0) == 0.0 && Payout(first, 200.0) == 100.0;
    assert Pain(first, 100.0) == 0.0 && Pain(first, 200.0) == 100.0;
    assert Pain(rows, 100.0) == 1000.0 && Pain(rows, 200.0) == 100.0;
    assert Scan(rows, 1) == Best(100.0, Some(1000.0)) by {
      assert Scan(rows, 0) == Best(100.0, None);
    }
  }
}

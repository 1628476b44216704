/**
 * The spread of `calculate_regression_and_spread` and its mean. The hedge
 * ratio comes from the regression library; the spread deliberately leaves
 * the regression intercept out.
 */
module Stats {
  import opened Series

  function Sum(s: seq<real>): real {
    if s == [] then 0.0 else s[0] + Sum(s[1..])
  }

  /** `Series.iloc[-1]`: the most recent value. */
  function Last(s: seq<real>): (r: real)
    requires |s| > 0
    ensures s == s[..|s| - 1] + [r]
  {
    s[|s| - 1]
  }

  /** `Series.mean()` of a non-empty series. */
  function Mean(s: seq<real>): (m: real)
    requires |s| > 0
    ensures m * (|s| as real) == Sum(s)
  {
    Sum(s) / (|s| as real)
  }

  /** `nzdjpy - hedge_ratio * cadjpy` over the aligned table, one value per row. */
  function SpreadOf(rows: seq<Row>, hedge: real): (s: seq<real>)
    ensures |s| == |rows|
  {
    if rows == [] then [] else [rows[0].nzd - hedge * rows[0].cad] + SpreadOf(rows[1..], hedge)
  }

  /** The spread on each row is that row's NZDJPY close less the hedged CADJPY close; no intercept is subtracted. */
  lemma {:induction false} SpreadAt(rows: seq<Row>, hedge: real, i: int)
    requires 0 <= i < |rows|
    ensures SpreadOf(rows, hedge)[i] == rows[i].nzd - hedge * rows[i].cad
  {
    if i > 0 {
      SpreadAt(rows[1..], hedge, i - 1);
    }
  }

  /** The regression residuals `nzdjpy - intercept - hedge_ratio * cadjpy`, which the source does not use. */
  function Residuals(rows: seq<Row>, hedge: real, intercept: real): (e: seq<real>)
    ensures |e| == |rows|
    ensures forall i :: 0 <= i < |rows| ==> e[i] == rows[i].nzd - intercept - hedge * rows[i].cad
  {
    if rows == [] then [] else [rows[0].nzd - intercept - hedge * rows[0].cad] + Residuals(rows[1..], hedge, intercept)
  }

  /** Every element minus `c`. */
  function Shift(s: seq<real>, c: real): (t: seq<real>)
    ensures |t| == |s| && forall i :: 0 <= i < |s| ==> t[i] == s[i] - c
  {
    if s == [] then [] else [s[0] - c] + Shift(s[1..], c)
  }

  /** The series measured from its own mean. */
  function Deviations(s: seq<real>): (d: seq<real>)
    requires |s| > 0
    ensures |d| == |s| && forall i :: 0 <= i < |s| ==> d[i] == s[i] - Mean(s)
  {
    Shift(s, Mean(s))
  }

  /** Taking `n` copies of `c` off a total takes `c` off its average over `n`. */
  lemma DivideOffCopies(a: real, c: real, n: real)
    requires n > 0.0
    ensures (a - n * c) / n == a / n - c
  {
  }

  /** Shifting every element by `c` shifts the sum by `|s|` times `c`. */
  lemma {:induction false} SumOfShift(s: seq<real>, c: real)
    ensures Sum(Shift(s, c)) == Sum(s) - (|s| as real) * c
  {
    if s != [] {
      SumOfShift(s[1..], c);
      assert Shift(s, c)[1..] == Shift(s[1..], c);
    }
  }

  /** Shifting every element by `c` shifts the mean by `c`. */
  lemma MeanOfShift(s: seq<real>, c: real)
    requires |s| > 0
    ensures Mean(Shift(s, c)) == Mean(s) - c
  {
    SumOfShift(s, c);
    DivideOffCopies(Sum(s), c, |s| as real);
  }

  /**
   * The residuals are the spread shifted by the intercept, so both have the
   * same deviations from their own mean: every statistic of the centred
   * series (the standard deviation, the z-score) is the same whether or not
   * the intercept is subtracted.
   */
  lemma InterceptCancels(rows: seq<Row>, hedge: real, intercept: real)
    requires |rows| > 0
    ensures Deviations(Residuals(rows, hedge, intercept)) == Deviations(SpreadOf(rows, hedge))
  {
    var s := SpreadOf(rows, hedge);
    var e := Residuals(rows, hedge, intercept);
    forall i | 0 <= i < |rows| ensures e[i] == Shift(s, intercept)[i] {
      SpreadAt(rows, hedge, i);
    }
    assert e == Shift(s, intercept);
    MeanOfShift(s, intercept);
  }

  /**
   * When the intercept satisfies the regression's normal equation for the
   * constant term (the residuals sum to zero), `spread_mean` is the intercept.
   */
  lemma SpreadMeanIsIntercept(rows: seq<Row>, hedge: real, intercept: real)
    requires |rows| > 0
    requires Sum(Residuals(rows, hedge, intercept)) == 0.0
    ensures Mean(SpreadOf(rows, hedge)) == intercept
  {
    var s := SpreadOf(rows, hedge);
    var e := Residuals(rows, hedge, intercept);
    forall i | 0 <= i < |rows| ensures e[i] == Shift(s, intercept)[i] {
      SpreadAt(rows, hedge, i);
    }
    assert e == Shift(s, intercept);
    MeanOfShift(s, intercept);
  }
}

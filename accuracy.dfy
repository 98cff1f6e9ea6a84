/**
 * The accuracy metrics of the estimated series (`calculateAccuracyMetrics`,
 * app/page.tsx lines 212-235). The errors are taken against the rounded
 * `estimated` column.
 *
 * `Math.sqrt(mse)` is a parameter `r` constrained by `r >= 0 && r * r == mse`.
 */
module Accuracy {
  import opened Series
  import opened Rounding
  import opened Trend
  import opened Decomposition

  datatype AccuracyMetrics = AccuracyMetrics(mae: real, mse: real, rmse: real)

  /** `d.sales - d.estimated`. */
  function Error(d: EstimatedRow): real
  {
    d.obs.sales - d.estimated
  }

  function SumAbsoluteError(rows: seq<EstimatedRow>): real
  {
    if rows == [] then 0.0 else SumAbsoluteError(rows[..|rows| - 1]) + Abs(Error(rows[|rows| - 1]))
  }

  function SumSquaredError(rows: seq<EstimatedRow>): real
  {
    if rows == [] then 0.0 else SumSquaredError(rows[..|rows| - 1]) + Square(Error(rows[|rows| - 1]))
  }

  function Square(x: real): real
  {
    x * x
  }

  /** The unrounded mean squared error of the estimated series of `data`. */
  ghost function MeanSquaredError(data: seq<Observation>, fit: LeastSquaresFit, indices: map<Quarter, real>): real
    requires |data| > 0 && TrendNonZero(data, fit)
  {
    SumSquaredError(EstimatedSeries(data, fit, indices)) / |data| as real
  }

  /**
   * `calculateAccuracyMetrics`: accumulate the absolute and the squared errors
   * and the row count in one pass, then divide and round.
   */
  method CalculateAccuracyMetrics(data: seq<Observation>, fit: LeastSquaresFit, indices: map<Quarter, real>, rootOfMse: real)
    returns (metrics: AccuracyMetrics)
    requires |data| > 0 && TrendNonZero(data, fit)
    requires rootOfMse >= 0.0 && rootOfMse * rootOfMse == MeanSquaredError(data, fit, indices)
    ensures metrics.mae == Round2(SumAbsoluteError(EstimatedSeries(data, fit, indices)) / |data| as real)
    ensures metrics.mse == Round2(MeanSquaredError(data, fit, indices))
    ensures metrics.rmse == Round2(rootOfMse)
  {
    var estimatedData := EstimatedSeries(data, fit, indices);
    var sumAbsoluteError, sumSquaredError, n := SumErrors(estimatedData);
    var mae := sumAbsoluteError / n as real;
    var mse := sumSquaredError / n as real;
    var rmse := rootOfMse;
    metrics := AccuracyMetrics(Round2(mae), Round2(mse), Round2(rmse));
  }

  /** The `forEach` over the estimated rows: both error sums and the row count. */
  method SumErrors(rows: seq<EstimatedRow>) returns (sumAbsoluteError: real, sumSquaredError: real, n: int)
    ensures sumAbsoluteError == SumAbsoluteError(rows)
    ensures sumSquaredError == SumSquaredError(rows)
    ensures n == |rows|
  {
    sumAbsoluteError := 0.0;
    sumSquaredError := 0.0;
    n := 0;
    var i := 0;
    assert rows[..0] == [];
    while i < |rows|
      invariant 0 <= i <= |rows|
      invariant n == i
      invariant sumAbsoluteError == SumAbsoluteError(rows[..i])
      invariant sumSquaredError == SumSquaredError(rows[..i])
    {
      var d := rows[i];
      assert rows[..i + 1][..i] == rows[..i];
      var error := d.obs.sales - d.estimated;
      sumAbsoluteError := sumAbsoluteError + Abs(error);
      sumSquaredError := sumSquaredError + error * error;
      n := n + 1;
      i := i + 1;
    }
    assert rows[..i] == rows;
  }

  // ---------------------------------------------------------------------------
  // Properties.

  lemma {:induction false} SumAbsoluteErrorNonNegative(rows: seq<EstimatedRow>)
    ensures SumAbsoluteError(rows) >= 0.0
  {
    if rows != [] {
      SumAbsoluteErrorNonNegative(rows[..|rows| - 1]);
    }
  }

  lemma {:induction false} SumSquaredErrorNonNegative(rows: seq<EstimatedRow>)
    ensures SumSquaredError(rows) >= 0.0
  {
    if rows != [] {
      SumSquaredErrorNonNegative(rows[..|rows| - 1]);
      SquarePositive(Error(rows[|rows| - 1]));
    }
  }

  /** Every row is estimated exactly. */
  ghost predicate Exact(rows: seq<EstimatedRow>)
  {
    forall k :: 0 <= k < |rows| ==> Error(rows[k]) == 0.0
  }

  /** The absolute errors sum to zero exactly when every row is estimated exactly. */
  lemma {:induction false} SumAbsoluteErrorZero(rows: seq<EstimatedRow>)
    ensures SumAbsoluteError(rows) == 0.0 <==> Exact(rows)
  {
    if rows != [] {
      var init, last := rows[..|rows| - 1], rows[|rows| - 1];
      SumAbsoluteErrorZero(init);
      SumAbsoluteErrorNonNegative(init);
      assert forall k :: 0 <= k < |init| ==> init[k] == rows[k];
      if Exact(rows) {
        assert Exact(init) && Error(last) == 0.0;
      }
    }
  }

  /** The squared errors sum to zero exactly when every row is estimated exactly. */
  lemma SumSquaredErrorZero(rows: seq<EstimatedRow>)
    ensures SumSquaredError(rows) == 0.0 <==> Exact(rows)
  {
    if Exact(rows) {
      SumSquaredErrorOfExact(rows);
    } else {
      SumSquaredErrorPositive(rows);
    }
  }

  lemma {:induction false} SumSquaredErrorOfExact(rows: seq<EstimatedRow>)
    requires Exact(rows)
    ensures SumSquaredError(rows) == 0.0
  {
    if rows != [] {
      var init, last := rows[..|rows| - 1], rows[|rows| - 1];
      assert forall k :: 0 <= k < |init| ==> init[k] == rows[k];
      SumSquaredErrorOfExact(init);
      ZeroSquare(Error(last));
    }
  }

  /** A single row estimated inexactly makes the squared errors sum positive. */
  lemma {:induction false} SumSquaredErrorPositive(rows: seq<EstimatedRow>)
    requires !Exact(rows)
    ensures SumSquaredError(rows) > 0.0
  {
    var init, last := rows[..|rows| - 1], rows[|rows| - 1];
    var e := Error(last);
    SquarePositive(e);
    if e == 0.0 {
      assert forall k :: 0 <= k < |init| ==> init[k] == rows[k];
      assert !Exact(init);
      SumSquaredErrorPositive(init);
    } else {
      SumSquaredErrorNonNegative(init);
    }
  }

  /** A square is never negative, and positive unless its root is 0. */
  lemma SquarePositive(e: real)
    ensures Square(e) >= 0.0
    ensures e != 0.0 ==> Square(e) > 0.0
  {
    if e < 0.0 {
      NegativeSquare(e);
    } else if e > 0.0 {
      PositiveSquare(e);
    } else {
      ZeroSquare(e);
    }
  }

  lemma ZeroSquare(e: real)
    requires e == 0.0
    ensures Square(e) == 0.0
  {
    assert Square(e) == 0.0 * e;
  }

  // The products below have two distinct factors: the solver relates those
  // far more readily than a variable multiplied by itself.

  lemma PositiveSquare(m: real)
    requires m > 0.0
    ensures Square(m) > 0.0
  {
    var k := 2.0 * m;
    assert Square(m) * 2.0 == k * m;
  }

  lemma NegativeSquare(m: real)
    requires m < 0.0
    ensures Square(m) > 0.0
  {
    var k := -2.0 * m;
    assert Square(m) * 2.0 == k * (-m);
  }

  /** The three metrics are never negative. */
  lemma MetricsNonNegative(data: seq<Observation>, fit: LeastSquaresFit, indices: map<Quarter, real>, rootOfMse: real)
    requires |data| > 0 && TrendNonZero(data, fit)
    requires rootOfMse >= 0.0
    ensures Round2(SumAbsoluteError(EstimatedSeries(data, fit, indices)) / |data| as real) >= 0.0
    ensures Round2(MeanSquaredError(data, fit, indices)) >= 0.0
    ensures Round2(rootOfMse) >= 0.0
  {
    var est := EstimatedSeries(data, fit, indices);
    SumAbsoluteErrorNonNegative(est);
    SumSquaredErrorNonNegative(est);
    QuotientNonNegative(SumAbsoluteError(est), |data| as real);
    QuotientNonNegative(SumSquaredError(est), |data| as real);
  }

  lemma QuotientNonNegative(x: real, n: real)
    requires x >= 0.0 && n > 0.0
    ensures x / n >= 0.0
  {
  }

  /** With every row estimated exactly, all three metrics are 0. */
  lemma MetricsZeroWhenExact(data: seq<Observation>, fit: LeastSquaresFit, indices: map<Quarter, real>, rootOfMse: real)
    requires |data| > 0 && TrendNonZero(data, fit)
    requires rootOfMse >= 0.0 && rootOfMse * rootOfMse == MeanSquaredError(data, fit, indices)
    requires Exact(EstimatedSeries(data, fit, indices))
    ensures Round2(SumAbsoluteError(EstimatedSeries(data, fit, indices)) / |data| as real) == 0.0
    ensures Round2(MeanSquaredError(data, fit, indices)) == 0.0
    ensures Round2(rootOfMse) == 0.0
  {
    var est := EstimatedSeries(data, fit, indices);
    SumAbsoluteErrorZero(est);
    SumSquaredErrorZero(est);
    SquarePositive(rootOfMse);
    Round2Exact(0.0);
  }
}

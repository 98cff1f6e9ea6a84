/**
 * The least-squares linear trend (app/page.tsx lines 35-53).
 * As in the page, `a` is the slope and `b` the intercept: trend(t) = b + a * t.
 */
module Trend {
  import opened Series

  // The four running sums of `calculateLeastSquaresTrend`, each a left fold
  // (`reduce` from 0) over the series.

  function SumT(s: seq<Observation>): real
  {
    if s == [] then 0.0 else SumT(s[..|s| - 1]) + s[|s| - 1].t as real
  }

  function SumY(s: seq<Observation>): real
  {
    if s == [] then 0.0 else SumY(s[..|s| - 1]) + s[|s| - 1].sales
  }

  function SumT2(s: seq<Observation>): real
  {
    if s == [] then 0.0 else SumT2(s[..|s| - 1]) + s[|s| - 1].t as real * s[|s| - 1].t as real
  }

  function SumTY(s: seq<Observation>): real
  {
    if s == [] then 0.0 else SumTY(s[..|s| - 1]) + s[|s| - 1].t as real * s[|s| - 1].sales
  }

  /**
   * Each sum distributes over concatenation: the fold over `s + u` is the
   * fold over `s` plus the fold over `u`, so no row is counted twice or lost.
   */
  lemma {:induction false} SumsSplit(s: seq<Observation>, u: seq<Observation>)
    ensures SumT(s + u) == SumT(s) + SumT(u)
    ensures SumY(s + u) == SumY(s) + SumY(u)
    ensures SumT2(s + u) == SumT2(s) + SumT2(u)
    ensures SumTY(s + u) == SumTY(s) + SumTY(u)
    decreases |u|
  {
    if u == [] {
      assert s + u == s;
    } else {
      var init := u[..|u| - 1];
      SumsSplit(s, init);
      assert (s + u)[..|s + u| - 1] == s + init;
      assert (s + u)[|s + u| - 1] == u[|u| - 1];
    }
  }

  /** The divisor n * Σt² - (Σt)² of the slope formula, from the sums. */
  function Divisor(n: real, sumT: real, sumT2: real): real
  {
    n * sumT2 - sumT * sumT
  }

  /** The divisor of the slope formula for a series. */
  function Denominator(s: seq<Observation>): real
  {
    Divisor(|s| as real, SumT(s), SumT2(s))
  }

  /** What `calculateLeastSquaresTrend` returns: the coefficients and the four sums. */
  datatype LeastSquaresFit = LeastSquaresFit(a: real, b: real, sumT: real, sumY: real, sumT2: real, sumTY: real)

  /** The first normal equation, n * intercept + slope * Σt = ΣY, over the sums. */
  predicate FirstEquation(n: real, sumT: real, sumY: real, slope: real, intercept: real)
  {
    n * intercept + slope * sumT == sumY
  }

  /** The second normal equation, intercept * Σt + slope * Σt² = ΣtY, over the sums. */
  predicate SecondEquation(sumT: real, sumT2: real, sumTY: real, slope: real, intercept: real)
  {
    intercept * sumT + slope * sumT2 == sumTY
  }

  /**
   * The closed-form fit of lines 44-45 from the four sums. Its result satisfies
   * both normal equations of the least-squares problem.
   */
  function FitFromSums(n: real, sumT: real, sumY: real, sumT2: real, sumTY: real): (fit: LeastSquaresFit)
    requires n > 0.0 && Divisor(n, sumT, sumT2) != 0.0
    ensures fit.sumT == sumT && fit.sumY == sumY && fit.sumT2 == sumT2 && fit.sumTY == sumTY
    ensures FirstEquation(n, sumT, sumY, fit.a, fit.b)
    ensures SecondEquation(sumT, sumT2, sumTY, fit.a, fit.b)
  {
    var a := (n * sumTY - sumT * sumY) / (n * sumT2 - sumT * sumT);
    var b := (sumY - a * sumT) / n;
    NormalEquations(n, sumT, sumY, sumT2, sumTY, a, b);
    LeastSquaresFit(a, b, sumT, sumY, sumT2, sumTY)
  }

  /**
   * `calculateLeastSquaresTrend`: the fit over the whole series. It carries the
   * four sums of the series and its line solves the normal equations.
   */
  function LeastSquaresTrend(s: seq<Observation>): (fit: LeastSquaresFit)
    requires Denominator(s) != 0.0
    ensures fit.sumT == SumT(s) && fit.sumY == SumY(s) && fit.sumT2 == SumT2(s) && fit.sumTY == SumTY(s)
    ensures SolvesNormalEquations(s, fit.a, fit.b)
  {
    NonEmptyWhenDefined(s);
    FitFromSums(|s| as real, SumT(s), SumY(s), SumT2(s), SumTY(s))
  }

  lemma {:induction false} NonEmptyWhenDefined(s: seq<Observation>)
    requires Denominator(s) != 0.0
    ensures |s| > 0
  {
  }

  /** The algebra behind the two normal equations of FitFromSums. */
  lemma NormalEquations(n: real, sumT: real, sumY: real, sumT2: real, sumTY: real, a: real, b: real)
    requires n > 0.0 && Divisor(n, sumT, sumT2) != 0.0
    requires a == (n * sumTY - sumT * sumY) / (n * sumT2 - sumT * sumT)
    requires b == (sumY - a * sumT) / n
    ensures FirstEquation(n, sumT, sumY, a, b)
    ensures SecondEquation(sumT, sumT2, sumTY, a, b)
  {
    var d := n * sumT2 - sumT * sumT;
    assert a * d == n * sumTY - sumT * sumY;
    assert n * b == sumY - a * sumT;
    calc {
      n * (b * sumT + a * sumT2);
      (n * b) * sumT + a * (n * sumT2);
      (sumY - a * sumT) * sumT + a * (n * sumT2);
      sumY * sumT + a * d;
      n * sumTY;
    }
  }

  /** `getTrend(t) = b + a * t`. */
  function TrendAt(fit: LeastSquaresFit, t: int): real
  {
    fit.b + fit.a * t as real
  }

  // ---------------------------------------------------------------------------
  // The slope is defined on every series with t = 1 .. n and n >= 2.

  lemma {:induction false} SumTClosedForm(s: seq<Observation>)
    requires forall i :: 0 <= i < |s| ==> s[i].t == i + 1
    ensures 2.0 * SumT(s) == |s| as real * (|s| as real + 1.0)
  {
    if s != [] {
      var init := s[..|s| - 1];
      assert forall i :: 0 <= i < |init| ==> init[i] == s[i];
      SumTClosedForm(init);
    }
  }

  lemma {:induction false} SumT2ClosedForm(s: seq<Observation>)
    requires forall i :: 0 <= i < |s| ==> s[i].t == i + 1
    ensures 6.0 * SumT2(s) == |s| as real * (|s| as real + 1.0) * (2.0 * |s| as real + 1.0)
  {
    if s == [] {
      assert SumT2(s) == 0.0;
    } else {
      var init := s[..|s| - 1];
      assert forall i :: 0 <= i < |init| ==> init[i] == s[i];
      SumT2ClosedForm(init);
      var m := |init| as real;
      assert s[|s| - 1].t as real == m + 1.0;
      SquaresStep(m, SumT2(init), SumT2(s));
    }
  }

  lemma SquaresStep(m: real, prev: real, next: real)
    requires 6.0 * prev == m * (m + 1.0) * (2.0 * m + 1.0)
    requires next == prev + (m + 1.0) * (m + 1.0)
    ensures 6.0 * next == (m + 1.0) * (m + 1.0 + 1.0) * (2.0 * (m + 1.0) + 1.0)
  {
  }

  /**
   * With t = 1 .. n, 12 * (n * Σt² - (Σt)²) = n² (n + 1) (n - 1), which is
   * positive once n >= 2: the slope's divisor is never zero on such a series.
   */
  lemma {:induction false} DenominatorPositive(s: seq<Observation>)
    requires |s| >= 2
    requires forall i :: 0 <= i < |s| ==> s[i].t == i + 1
    ensures Denominator(s) > 0.0
  {
    SumTClosedForm(s);
    SumT2ClosedForm(s);
    DenominatorAlgebra(|s| as real, SumT(s), SumT2(s), Denominator(s));
  }

  lemma DenominatorAlgebra(n: real, st: real, st2: real, den: real)
    requires n >= 2.0
    requires 2.0 * st == n * (n + 1.0) && 6.0 * st2 == n * (n + 1.0) * (2.0 * n + 1.0)
    requires den == n * st2 - st * st
    ensures den > 0.0
  {
    assert 12.0 * den == 2.0 * n * (6.0 * st2) - 3.0 * (2.0 * st) * (2.0 * st);
    assert 12.0 * den == n * n * (n + 1.0) * (n - 1.0);
    assert n * n > 0.0 && (n + 1.0) * (n - 1.0) > 0.0;
  }

  // ---------------------------------------------------------------------------
  // An exactly linear series is recovered.

  /** Every sales value lies on the line c + d * t. */
  ghost predicate OnLine(s: seq<Observation>, c: real, d: real)
  {
    forall i :: 0 <= i < |s| ==> s[i].sales == c + d * s[i].t as real
  }

  /**
   * The two normal equations of the least-squares problem for the line
   * intercept + slope * t: the residuals sum to zero, and so do they weighted by t.
   */
  ghost predicate SolvesNormalEquations(s: seq<Observation>, slope: real, intercept: real)
  {
    FirstNormalEquation(s, slope, intercept) && SecondNormalEquation(s, slope, intercept)
  }

  ghost predicate FirstNormalEquation(s: seq<Observation>, slope: real, intercept: real)
  {
    FirstEquation(|s| as real, SumT(s), SumY(s), slope, intercept)
  }

  ghost predicate SecondNormalEquation(s: seq<Observation>, slope: real, intercept: real)
  {
    SecondEquation(SumT(s), SumT2(s), SumTY(s), slope, intercept)
  }

  /** When the divisor is not zero, the normal equations have exactly one solution. */
  lemma NormalEquationsUnique(n: real, sumT: real, sumY: real, sumT2: real, sumTY: real,
                              a: real, b: real, a': real, b': real)
    requires n > 0.0
    requires Divisor(n, sumT, sumT2) != 0.0
    requires FirstEquation(n, sumT, sumY, a, b) && SecondEquation(sumT, sumT2, sumTY, a, b)
    requires FirstEquation(n, sumT, sumY, a', b') && SecondEquation(sumT, sumT2, sumTY, a', b')
    ensures a == a' && b == b'
  {
    // Subtracting the two systems: n * db + da * sumT == 0 and db * sumT + da * sumT2 == 0.
    var da, db := a - a', b - b';
    assert n * db + da * sumT == 0.0;
    assert db * sumT + da * sumT2 == 0.0;
    assert da * (n * sumT2 - sumT * sumT) == n * (db * sumT + da * sumT2) - sumT * (n * db + da * sumT);
    assert da == 0.0;
    assert n * db == 0.0;
  }

  /** The line of an exactly linear series solves the normal equations. */
  lemma {:induction false} OnLineSolves(s: seq<Observation>, c: real, d: real)
    requires OnLine(s, c, d)
    ensures SolvesNormalEquations(s, d, c)
  {
    OnLineResidualsZero(s, c, d);
    ResidualsVanish(s, d, c);
    WeightedResidualsVanish(s, d, c);
  }

  /** On an exactly linear series every residual of the line is zero, so both residual sums are. */
  lemma {:induction false} OnLineResidualsZero(s: seq<Observation>, c: real, d: real)
    requires OnLine(s, c, d)
    ensures SumResiduals(s, d, c) == 0.0
    ensures SumResidualsTimesT(s, d, c) == 0.0
  {
    if s != [] {
      var init, last := s[..|s| - 1], s[|s| - 1];
      assert forall i :: 0 <= i < |init| ==> init[i] == s[i];
      OnLineResidualsZero(init, c, d);
      assert Residual(last, d, c) == 0.0;
    }
  }

  /** When the divisor is not zero, at most one line solves the normal equations. */
  lemma {:induction false} OneSolution(s: seq<Observation>, slope: real, intercept: real, slope': real, intercept': real)
    requires Denominator(s) != 0.0
    requires SolvesNormalEquations(s, slope, intercept) && SolvesNormalEquations(s, slope', intercept')
    ensures slope == slope' && intercept == intercept'
  {
    NonEmptyWhenDefined(s);
    NormalEquationsUnique(|s| as real, SumT(s), SumY(s), SumT2(s), SumTY(s), slope, intercept, slope', intercept');
  }

  /** If every sales value is c + d * t exactly, the fit returns slope d and intercept c. */
  lemma {:induction false} LinearSeriesRecovered(s: seq<Observation>, c: real, d: real)
    requires Denominator(s) != 0.0
    requires OnLine(s, c, d)
    ensures LeastSquaresTrend(s).a == d && LeastSquaresTrend(s).b == c
  {
    OnLineSolves(s, c, d);
    OneSolution(s, LeastSquaresTrend(s).a, LeastSquaresTrend(s).b, d, c);
  }

  // ---------------------------------------------------------------------------
  // Residuals of a line: sales - (intercept + slope * t).

  /** The deviation of one observation from the line intercept + slope * t. */
  function Residual(o: Observation, slope: real, intercept: real): real
  {
    o.sales - (intercept + slope * o.t as real)
  }

  function SumResiduals(s: seq<Observation>, slope: real, intercept: real): real
  {
    if s == [] then 0.0 else SumResiduals(s[..|s| - 1], slope, intercept) + Residual(s[|s| - 1], slope, intercept)
  }

  function SumResidualsTimesT(s: seq<Observation>, slope: real, intercept: real): real
  {
    if s == [] then 0.0
    else SumResidualsTimesT(s[..|s| - 1], slope, intercept) + Residual(s[|s| - 1], slope, intercept) * s[|s| - 1].t as real
  }

  /** The residuals expressed through the sums of the fit. */
  ghost predicate ResidualExpansion(s: seq<Observation>, slope: real, intercept: real)
  {
    SumResiduals(s, slope, intercept) == SumY(s) - |s| as real * intercept - slope * SumT(s)
  }

  lemma {:induction false} SumResidualsExpanded(s: seq<Observation>, slope: real, intercept: real)
    ensures ResidualExpansion(s, slope, intercept)
  {
    if s == [] {
      assert SumT(s) == 0.0 && SumY(s) == 0.0 && SumResiduals(s, slope, intercept) == 0.0;
    } else {
      var init, last := s[..|s| - 1], s[|s| - 1];
      SumResidualsExpanded(init, slope, intercept);
      ResidualStep(|init| as real, |s| as real, slope, intercept, SumT(init), SumY(init),
                   SumResiduals(init, slope, intercept), last.t as real, last.sales,
                   SumT(s), SumY(s), SumResiduals(s, slope, intercept));
    }
  }

  lemma ResidualStep(m: real, n: real, slope: real, intercept: real, sumT: real, sumY: real, r: real,
                     t: real, y: real, st: real, sy: real, r': real)
    requires n == m + 1.0
    requires r == sumY - m * intercept - slope * sumT
    requires st == sumT + t && sy == sumY + y && r' == r + (y - (intercept + slope * t))
    ensures r' == sy - n * intercept - slope * st
  {
  }

  /** The weighted residuals expressed through the sums of the fit. */
  ghost predicate WeightedExpansion(s: seq<Observation>, slope: real, intercept: real)
  {
    SumResidualsTimesT(s, slope, intercept) == SumTY(s) - intercept * SumT(s) - slope * SumT2(s)
  }

  lemma {:induction false} SumResidualsTimesTExpanded(s: seq<Observation>, slope: real, intercept: real)
    ensures WeightedExpansion(s, slope, intercept)
  {
    if s == [] {
      WeightedEmpty(slope, intercept, SumT(s), SumT2(s), SumTY(s), SumResidualsTimesT(s, slope, intercept));
    } else {
      var init, last := s[..|s| - 1], s[|s| - 1];
      SumResidualsTimesTExpanded(init, slope, intercept);
      var t, y := last.t as real, last.sales;
      WeightedResidualStep(slope, intercept, SumT(init), SumT2(init), SumTY(init),
                           SumResidualsTimesT(init, slope, intercept), t, y, t * t, t * y, Residual(last, slope, intercept) * t,
                           SumT(s), SumT2(s), SumTY(s), SumResidualsTimesT(s, slope, intercept));
    }
  }

  lemma WeightedEmpty(slope: real, intercept: real, st: real, st2: real, sty: real, r: real)
    requires st == 0.0 && st2 == 0.0 && sty == 0.0 && r == 0.0
    ensures r == sty - intercept * st - slope * st2
  {
  }

  lemma WeightedResidualStep(slope: real, intercept: real, sumT: real, sumT2: real, sumTY: real, r: real,
                             t: real, y: real, tt: real, ty: real, et: real, st: real, st2: real, sty: real, r': real)
    requires r == sumTY - intercept * sumT - slope * sumT2
    requires tt == t * t && ty == t * y && et == (y - (intercept + slope * t)) * t
    requires st == sumT + t && st2 == sumT2 + tt && sty == sumTY + ty
    requires r' == r + et
    ensures r' == sty - intercept * st - slope * st2
  {
  }

  /** A line satisfies the first normal equation exactly when its residuals sum to zero. */
  lemma {:induction false} ResidualsVanish(s: seq<Observation>, slope: real, intercept: real)
    ensures FirstNormalEquation(s, slope, intercept) <==> SumResiduals(s, slope, intercept) == 0.0
  {
    SumResidualsExpanded(s, slope, intercept);
    FirstCancel(SumResiduals(s, slope, intercept), |s| as real, SumT(s), SumY(s), slope, intercept);
  }

  lemma FirstCancel(r: real, n: real, sumT: real, sumY: real, slope: real, intercept: real)
    requires r == sumY - n * intercept - slope * sumT
    ensures FirstEquation(n, sumT, sumY, slope, intercept) <==> r == 0.0
  {
  }

  /** ... and the second exactly when its residuals weighted by t sum to zero. */
  lemma {:induction false} WeightedResidualsVanish(s: seq<Observation>, slope: real, intercept: real)
    ensures SecondNormalEquation(s, slope, intercept) <==> SumResidualsTimesT(s, slope, intercept) == 0.0
  {
    SumResidualsTimesTExpanded(s, slope, intercept);
    WeightedCancel(SumResidualsTimesT(s, slope, intercept), SumTY(s), SumT(s), SumT2(s), slope, intercept);
  }

  lemma WeightedCancel(r: real, sumTY: real, sumT: real, sumT2: real, slope: real, intercept: real)
    requires r == sumTY - intercept * sumT - slope * sumT2
    ensures SecondEquation(sumT, sumT2, sumTY, slope, intercept) <==> r == 0.0
  {
  }

  /** The residuals `sales - getTrend(t)` of the fitted line sum to zero. */
  lemma {:induction false} ResidualsSumToZero(s: seq<Observation>)
    requires Denominator(s) != 0.0
    ensures SumResiduals(s, LeastSquaresTrend(s).a, LeastSquaresTrend(s).b) == 0.0
    ensures SumResidualsTimesT(s, LeastSquaresTrend(s).a, LeastSquaresTrend(s).b) == 0.0
  {
    ResidualsVanish(s, LeastSquaresTrend(s).a, LeastSquaresTrend(s).b);
    WeightedResidualsVanish(s, LeastSquaresTrend(s).a, LeastSquaresTrend(s).b);
  }
}

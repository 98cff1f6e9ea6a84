/**
 * The multiplicative decomposition Yt = Tt x St x et row by row
 * (app/page.tsx lines 56-71 and 160-206, 256-279): the trend columns, the
 * estimated series, the residual ratio, the seasonally adjusted (CVS) series
 * and the complete table.
 *
 * The page closes over the fitted line and the corrected seasonal indices;
 * here both are parameters.
 */
module Decomposition {
  import opened Series
  import opened Rounding
  import opened Trend

  /**
   * `seasonalIndices[q] || 1`: a quarter without an index, or with an index
   * of 0, falls back to 1.
   */
  function SeasonalFactor(indices: map<Quarter, real>, q: Quarter): (s: real)
    ensures s != 0.0
    ensures q in indices && indices[q] != 0.0 ==> s == indices[q]
    ensures q !in indices || indices[q] == 0.0 ==> s == 1.0
  {
    if q in indices && indices[q] != 0.0 then indices[q] else 1.0
  }

  /** The `seasonalCoefficients` display list (its colours are presentation only). */
  datatype Coefficient = Coefficient(quarter: Quarter, coefficient: real)

  function SeasonalCoefficients(indices: map<Quarter, real>): (cs: seq<Coefficient>)
    ensures |cs| == |Quarters|
    ensures forall k :: 0 <= k < |cs| ==> cs[k].quarter == Quarters[k] && cs[k].coefficient == SeasonalFactor(indices, Quarters[k])
  {
    seq(|Quarters|, k requires 0 <= k < |Quarters| => Coefficient(Quarters[k], SeasonalFactor(indices, Quarters[k])))
  }

  // ---------------------------------------------------------------------------
  // calculateTrends

  /** A row of `calculateTrends`: the least-squares trend and the "semi-average" trend. */
  datatype TrendRow = TrendRow(obs: Observation, trendMC: real, trendSM: real)

  function TrendRowOf(fit: LeastSquaresFit, o: Observation): (r: TrendRow)
    ensures r.obs == o
    ensures TrendAt(fit, o.t) - 0.005 < r.trendMC <= TrendAt(fit, o.t) + 0.005
  {
    var trendMC := TrendAt(fit, o.t);
    var trendSM := TrendAt(fit, o.t);
    TrendRow(o, Round2(trendMC), Round2(trendSM))
  }

  function CalculateTrends(data: seq<Observation>, fit: LeastSquaresFit): (rows: seq<TrendRow>)
    ensures |rows| == |data|
    ensures forall k :: 0 <= k < |data| ==> rows[k] == TrendRowOf(fit, data[k])
  {
    seq(|data|, k requires 0 <= k < |data| => TrendRowOf(fit, data[k]))
  }

  /** The semi-average column is the least-squares trend again. */
  lemma SemiAverageIsLeastSquares(data: seq<Observation>, fit: LeastSquaresFit, k: int)
    requires 0 <= k < |data|
    ensures CalculateTrends(data, fit)[k].trendSM == CalculateTrends(data, fit)[k].trendMC
  {
  }

  // ---------------------------------------------------------------------------
  // calculateEstimatedSeries

  /** The trend is not zero anywhere on the series, so `sales / estimated` is a real number. */
  ghost predicate TrendNonZero(data: seq<Observation>, fit: LeastSquaresFit)
  {
    forall k :: 0 <= k < |data| ==> TrendAt(fit, data[k].t) != 0.0
  }

  /** `Math.round(residualRatio * 10000) / 10000` with `residualRatio = sales / estimated`. */
  function ResidualRatio(sales: real, estimated: real): (r: real)
    requires estimated != 0.0
    ensures sales / estimated - 0.00005 < r <= sales / estimated + 0.00005
  {
    Round4(sales / estimated)
  }

  /** `Math.round((residualRatio - 1) * 100 * 100) / 100`: the deviation in percent. */
  function ResidualPercent(sales: real, estimated: real): (r: real)
    requires estimated != 0.0
    ensures (sales / estimated - 1.0) * 100.0 - 0.005 < r <= (sales / estimated - 1.0) * 100.0 + 0.005
  {
    Round2((sales / estimated - 1.0) * 100.0)
  }

  /** A row of `calculateEstimatedSeries`. */
  datatype EstimatedRow = EstimatedRow(obs: Observation, trend: real, estimated: real, residual: real, residualRatio: real)

  function EstimatedRowOf(fit: LeastSquaresFit, indices: map<Quarter, real>, o: Observation): (r: EstimatedRow)
    requires TrendAt(fit, o.t) != 0.0
    ensures r.obs == o
    ensures TrendAt(fit, o.t) * SeasonalFactor(indices, o.quarter) - 0.005 < r.estimated
         <= TrendAt(fit, o.t) * SeasonalFactor(indices, o.quarter) + 0.005
  {
    NonZeroProduct(TrendAt(fit, o.t), SeasonalFactor(indices, o.quarter));
    EstimateWith(o, TrendAt(fit, o.t), SeasonalFactor(indices, o.quarter))
  }

  /** A quarter with a non-zero index is estimated with that index itself. */
  lemma EstimateOfIndex(fit: LeastSquaresFit, indices: map<Quarter, real>, o: Observation)
    requires TrendAt(fit, o.t) != 0.0 && o.quarter in indices && indices[o.quarter] != 0.0
    ensures TrendAt(fit, o.t) * indices[o.quarter] - 0.005 < EstimatedRowOf(fit, indices, o).estimated
    ensures EstimatedRowOf(fit, indices, o).estimated <= TrendAt(fit, o.t) * indices[o.quarter] + 0.005
  {
  }

  /** The row for a given trend value and seasonal factor. */
  function EstimateWith(o: Observation, trend: real, seasonal: real): (r: EstimatedRow)
    requires trend * seasonal != 0.0
    ensures r.obs == o
    ensures trend * seasonal - 0.005 < r.estimated <= trend * seasonal + 0.005
  {
    var estimated := trend * seasonal;
    EstimatedRow(o, Round2(trend), Round2(estimated), ResidualPercent(o.sales, estimated), ResidualRatio(o.sales, estimated))
  }

  function EstimatedSeries(data: seq<Observation>, fit: LeastSquaresFit, indices: map<Quarter, real>): (rows: seq<EstimatedRow>)
    requires TrendNonZero(data, fit)
    ensures |rows| == |data|
    ensures forall k :: 0 <= k < |data| ==> rows[k] == EstimatedRowOf(fit, indices, data[k])
  {
    seq(|data|, k requires 0 <= k < |data| => EstimatedRowOf(fit, indices, data[k]))
  }

  // ---------------------------------------------------------------------------
  // calculateCVS

  /** A row of `calculateCVS`: sales with the seasonal effect divided out. */
  datatype CvsRow = CvsRow(obs: Observation, cvs: real)

  function CvsRowOf(indices: map<Quarter, real>, o: Observation): (r: CvsRow)
    ensures r.obs == o
  {
    CvsWith(o, SeasonalFactor(indices, o.quarter))
  }

  /** The CVS row for a given seasonal factor. */
  function CvsWith(o: Observation, seasonal: real): (r: CvsRow)
    requires seasonal != 0.0
    ensures r.obs == o
    ensures o.sales / seasonal - 0.005 < r.cvs <= o.sales / seasonal + 0.005
  {
    CvsRow(o, Round2(o.sales / seasonal))
  }

  function CalculateCvs(data: seq<Observation>, indices: map<Quarter, real>): (rows: seq<CvsRow>)
    ensures |rows| == |data|
    ensures forall k :: 0 <= k < |data| ==> rows[k] == CvsRowOf(indices, data[k])
  {
    seq(|data|, k requires 0 <= k < |data| => CvsRowOf(indices, data[k]))
  }

  // ---------------------------------------------------------------------------
  // calculateCompleteTable

  /** A row of `calculateCompleteTable`. */
  datatype CompleteRow = CompleteRow(
    t: int, year: int, quarter: Quarter, sales: real,
    trend: real, ytDivTrend: real, seasonal: real, estimated: real,
    residual: real, residualRatio: real, cvs: real)

  function CompleteRowOf(fit: LeastSquaresFit, indices: map<Quarter, real>, o: Observation): (r: CompleteRow)
    requires TrendAt(fit, o.t) != 0.0
    ensures r.t == o.t && r.year == o.year && r.quarter == o.quarter && r.sales == o.sales
  {
    CompleteWith(o, TrendAt(fit, o.t), SeasonalFactor(indices, o.quarter))
  }

  /** The complete row for a given trend value and seasonal factor. */
  function CompleteWith(o: Observation, trend: real, seasonal: real): (r: CompleteRow)
    requires trend != 0.0 && seasonal != 0.0
    ensures r.t == o.t && r.year == o.year && r.quarter == o.quarter && r.sales == o.sales
    ensures o.sales / trend - 0.00005 < r.ytDivTrend <= o.sales / trend + 0.00005
    ensures seasonal - 0.00005 < r.seasonal <= seasonal + 0.00005
  {
    NonZeroProduct(trend, seasonal);
    var estimated := trend * seasonal;
    var cvs := o.sales / seasonal;
    var ytDivTrend := o.sales / trend;
    CompleteRow(o.t, o.year, o.quarter, o.sales,
                Round2(trend), Round4(ytDivTrend), Round4(seasonal), Round2(estimated),
                ResidualPercent(o.sales, estimated), ResidualRatio(o.sales, estimated), Round2(cvs))
  }

  function CompleteTable(data: seq<Observation>, fit: LeastSquaresFit, indices: map<Quarter, real>): (rows: seq<CompleteRow>)
    requires TrendNonZero(data, fit)
    ensures |rows| == |data|
    ensures forall k :: 0 <= k < |data| ==> rows[k] == CompleteRowOf(fit, indices, data[k])
  {
    seq(|data|, k requires 0 <= k < |data| => CompleteRowOf(fit, indices, data[k]))
  }

  // ---------------------------------------------------------------------------
  // Properties.

  /**
   * A complete row agrees with the estimated row and the CVS row of the same
   * observation on every column they share.
   */
  lemma RowsAgree(o: Observation, trend: real, seasonal: real)
    requires trend != 0.0 && seasonal != 0.0
    ensures var c, e, v := CompleteWith(o, trend, seasonal), EstimateWith(o, trend, seasonal), CvsWith(o, seasonal);
      && c.t == e.obs.t && c.year == e.obs.year && c.quarter == e.obs.quarter && c.sales == e.obs.sales
      && c.trend == e.trend && c.estimated == e.estimated
      && c.residual == e.residual && c.residualRatio == e.residualRatio
      && c.cvs == v.cvs
  {
    NonZeroProduct(trend, seasonal);
  }

  /** ... and so the tables agree row by row. */
  lemma TablesAgree(data: seq<Observation>, fit: LeastSquaresFit, indices: map<Quarter, real>, k: int)
    requires TrendNonZero(data, fit) && 0 <= k < |data|
    ensures var c, e, v := CompleteTable(data, fit, indices)[k], EstimatedSeries(data, fit, indices)[k], CalculateCvs(data, indices)[k];
      && c.t == e.obs.t && c.year == e.obs.year && c.quarter == e.obs.quarter && c.sales == e.obs.sales
      && c.trend == e.trend && c.estimated == e.estimated
      && c.residual == e.residual && c.residualRatio == e.residualRatio
      && c.cvs == v.cvs
  {
    var o := data[k];
    RowsAgree(o, TrendAt(fit, o.t), SeasonalFactor(indices, o.quarter));
  }

  /**
   * The three factors recombine to the observation: the row's residual ratio
   * times trend x seasonal factor gives the sales back, to within the
   * four-decimal rounding of the ratio.
   */
  lemma FactorsRecombine(fit: LeastSquaresFit, indices: map<Quarter, real>, o: Observation)
    requires TrendAt(fit, o.t) != 0.0
    ensures MultipliesBackTo(EstimatedRowOf(fit, indices, o).residualRatio,
                             TrendAt(fit, o.t) * SeasonalFactor(indices, o.quarter), o.sales, 0.00005)
  {
    NonZeroProduct(TrendAt(fit, o.t), SeasonalFactor(indices, o.quarter));
    RowRatio(fit, indices, o);
    ScaledBound(o.sales, TrendAt(fit, o.t) * SeasonalFactor(indices, o.quarter), 0.00005, EstimatedRowOf(fit, indices, o).residualRatio);
  }

  /** The residual ratio of a row is sales / (trend x seasonal factor), rounded. */
  lemma RowRatio(fit: LeastSquaresFit, indices: map<Quarter, real>, o: Observation)
    requires TrendAt(fit, o.t) != 0.0
    ensures EstimatedRowOf(fit, indices, o).residualRatio == ResidualRatio(o.sales, TrendAt(fit, o.t) * SeasonalFactor(indices, o.quarter))
  {
  }

  /**
   * The row's CVS value times the seasonal factor gives the sales back, to
   * within the rounding of the CVS value to cents.
   */
  lemma CvsRecombines(indices: map<Quarter, real>, o: Observation)
    ensures MultipliesBackTo(CvsRowOf(indices, o).cvs, SeasonalFactor(indices, o.quarter), o.sales, 0.005)
  {
    ScaledBound(o.sales, SeasonalFactor(indices, o.quarter), 0.005, CvsRowOf(indices, o).cvs);
  }

  lemma NonZeroProduct(x: real, y: real)
    requires x != 0.0 && y != 0.0
    ensures x * y != 0.0
  {
  }

  /** When a sale is exactly its estimate, its residual ratio is 1 ... */
  lemma ExactRatio(sales: real, estimated: real)
    requires estimated != 0.0 && sales == estimated
    ensures ResidualRatio(sales, estimated) == 1.0
  {
    DivideSelf(sales, estimated);
    Round4Exact(1.0);
  }

  /** ... its percentage residual is 0 ... */
  lemma ExactResidual(sales: real, estimated: real)
    requires estimated != 0.0 && sales == estimated
    ensures ResidualPercent(sales, estimated) == 0.0
  {
    DivideSelf(sales, estimated);
    Round2Exact(0.0);
  }

  /** ... on every row whose sale is exactly trend x seasonal factor. */
  lemma ExactObservation(o: Observation, trend: real, seasonal: real)
    requires trend * seasonal != 0.0 && o.sales == trend * seasonal
    ensures EstimateWith(o, trend, seasonal).residualRatio == 1.0
    ensures EstimateWith(o, trend, seasonal).residual == 0.0
  {
    ExactRatio(o.sales, trend * seasonal);
    ExactResidual(o.sales, trend * seasonal);
  }

  /** ... and its seasonally adjusted value is its rounded trend. */
  lemma ExactCvs(fit: LeastSquaresFit, indices: map<Quarter, real>, o: Observation)
    requires TrendAt(fit, o.t) != 0.0
    requires o.sales == TrendAt(fit, o.t) * SeasonalFactor(indices, o.quarter)
    ensures CvsRowOf(indices, o).cvs == EstimatedRowOf(fit, indices, o).trend
  {
    DivideOut(o.sales, TrendAt(fit, o.t), SeasonalFactor(indices, o.quarter));
  }

  lemma DivideSelf(x: real, y: real)
    requires y != 0.0 && x == y
    ensures x / y == 1.0
  {
  }

  lemma DivideOut(x: real, t: real, s: real)
    requires s != 0.0 && x == t * s
    ensures x / s == t
  {
  }
}

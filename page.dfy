/**
 * The page as one computation (app/page.tsx lines 50, 160-161, 237-293): the
 * fitted line and the corrected seasonal indices are computed once from
 * `originalData`, and every table, metric and forecast closes over them.
 */
module Page {
  import opened Series
  import opened Rounding
  import opened Smoothing
  import opened Trend
  import opened Seasonal
  import opened Decomposition
  import opened Accuracy
  import opened Forecast
  import opened Dataset

  /** `trendA` and `trendB`, with the four sums of the page's fit. */
  function PageFit(): (fit: LeastSquaresFit)
    ensures forall t :: t >= 1 ==> TrendAt(fit, t) > 0.0
    ensures TrendNonZero(OriginalData, fit)
  {
    OriginalDataConsecutive();
    LeastSquaresFit(3025.0 / 17.0, 21445.0 / 4.0, 136.0, 109980.0, 1496.0, 995330.0)
  }

  /** That line is `calculateLeastSquaresTrend()` of the page's data. */
  lemma PageFitIsLeastSquares()
    ensures Denominator(OriginalData) != 0.0 && PageFit() == LeastSquaresTrend(OriginalData)
  {
    OriginalTrend();
    OriginalDataConsecutive();
    SumTClosedForm(OriginalData);
    SumT2ClosedForm(OriginalData);
    SalesSum();
    WeightedSalesSum();
  }

  /** The page's raw seasonal indices: each quarter's mean of its three ratios `sales / mmc4`. */
  function PageRawIndices(): map<Quarter, real>
  {
    map[T1 := (5280.0 / 6436.25 + 5530.0 / 7030.0 + 6280.0 / 7811.25) / 3.0,
        T2 := (6030.0 / 5998.75 + 6780.0 / 6561.25 + 7280.0 / 7186.25) / 3.0,
        T3 := (7030.0 / 6123.75 + 7530.0 / 6655.0 + 8530.0 / 7405.0) / 3.0,
        T4 := (5780.0 / 6280.0 + 6530.0 / 6842.5 + 7030.0 / 7623.75) / 3.0]
  }

  /** Those are the raw indices the page computes from its moving-average table. */
  lemma PageRawIndicesAreRaw()
    ensures PageRawIndices() == RawIndices(MovingAverageTable(OriginalData))
  {
    OriginalRawRanking();
    OriginalRawIndexT1();
    OriginalRawIndexT2();
    OriginalRawIndexT3();
    OriginalRawIndexT4();
    forall q
      ensures PageRawIndices()[q] == RawIndices(MovingAverageTable(OriginalData))[q]
    {
      assert q == Quarters[Ordinal(q)];
    }
  }

  /**
   * `seasonalIndices`: the raw indices scaled by a positive factor `c`. All
   * four are present and positive, so the `|| 1` fallback never applies, and
   * they rank T3 > T2 > T4 > T1.
   */
  function PageIndices(c: real): (indices: map<Quarter, real>)
    requires c > 0.0
    ensures forall q :: q in indices && indices[q] > 0.0
    ensures forall q :: SeasonalFactor(indices, q) == indices[q]
    ensures indices[T3] > indices[T2] > indices[T4] > indices[T1]
  {
    assert forall q :: q in PageRawIndices() && PageRawIndices()[q] > 0.0 by {
      forall q ensures q in PageRawIndices() && PageRawIndices()[q] > 0.0 {
        assert q == Quarters[Ordinal(q)];
      }
    }
    ScalePreservesOrder(PageRawIndices(), c, T2, T3);
    ScalePreservesOrder(PageRawIndices(), c, T4, T2);
    ScalePreservesOrder(PageRawIndices(), c, T1, T4);
    Scale(PageRawIndices(), c)
  }

  /**
   * A factor that corrects the page's raw indices is the correction factor of
   * its data, and the indices it gives multiply to 1.
   */
  lemma PageCorrection(c: real)
    requires Corrects(PageRawIndices(), c)
    ensures IsCorrectionFactor(OriginalData, c)
    ensures PageIndices(c) == Scale(RawIndices(MovingAverageTable(OriginalData)), c)
    ensures IndexProduct(PageIndices(c), Quarters) == 1.0
  {
    PageRawIndicesAreRaw();
    OriginalNormalized(c);
  }

  /**
   * `seasonalData` (lines 160-161): `calculateSeasonalCoefficients()` on the
   * page's data, for its correction factor.
   */
  method PageSeasonalData(correctionFactor: real) returns (seasonalData: SeasonalResult)
    requires Corrects(PageRawIndices(), correctionFactor)
    ensures seasonalData.indices == PageIndices(correctionFactor)
    ensures seasonalData.ratios == RatioLists(MovingAverageTable(OriginalData))
    ensures seasonalData.correctionFactor == correctionFactor
    ensures seasonalData.finalProduct == 1.0
  {
    PageCorrection(correctionFactor);
    seasonalData := CalculateSeasonalCoefficients(OriginalData, correctionFactor);
  }

  /** Everything the component computes before it renders. */
  datatype PageData = PageData(
    seasonalData: SeasonalResult,
    seasonalCoefficients: seq<Coefficient>,
    accuracyMetrics: AccuracyMetrics,
    forecasts2022: seq<ForecastRow>,
    completeTable: seq<CompleteRow>,
    trendData: seq<TrendRow>,
    movingAvgData: seq<MovingAverageRow>,
    estimatedData: seq<EstimatedRow>,
    cvsData: seq<CvsRow>,
    forecastData: seq<ChartPoint>)

  /**
   * The component body in its own order. `correctionFactor` stands for
   * `Math.pow(1 / productOfIndices, 1 / 4)` and `rootOfMse` for `Math.sqrt(mse)`.
   */
  method AnalysePage(correctionFactor: real, rootOfMse: real) returns (page: PageData)
    requires Corrects(PageRawIndices(), correctionFactor)
    requires rootOfMse >= 0.0
    requires rootOfMse * rootOfMse == MeanSquaredError(OriginalData, PageFit(), PageIndices(correctionFactor))
    ensures page.seasonalData.indices == PageIndices(correctionFactor)
    ensures page.seasonalData.ratios == RatioLists(MovingAverageTable(OriginalData))
    ensures page.seasonalData.correctionFactor == correctionFactor
    ensures page.seasonalData.finalProduct == 1.0
    ensures page.seasonalCoefficients == SeasonalCoefficients(PageIndices(correctionFactor))
    ensures page.accuracyMetrics.mse == Round2(MeanSquaredError(OriginalData, PageFit(), PageIndices(correctionFactor)))
    ensures page.accuracyMetrics.rmse == Round2(rootOfMse)
    ensures page.accuracyMetrics.mae
         == Round2(SumAbsoluteError(EstimatedSeries(OriginalData, PageFit(), PageIndices(correctionFactor))) / 16.0)
    ensures page.forecasts2022 == Forecasts2022(PageFit(), PageIndices(correctionFactor))
    ensures page.completeTable == CompleteTable(OriginalData, PageFit(), PageIndices(correctionFactor))
    ensures page.trendData == CalculateTrends(OriginalData, PageFit())
    ensures page.movingAvgData == MovingAverageTable(OriginalData)
    ensures page.estimatedData == EstimatedSeries(OriginalData, PageFit(), PageIndices(correctionFactor))
    ensures page.cvsData == CalculateCvs(OriginalData, PageIndices(correctionFactor))
    ensures page.forecastData == ForecastData(page.estimatedData, page.forecasts2022)
  {
    PageFitIsLeastSquares();
    var fit := PageFit();
    var seasonalData := PageSeasonalData(correctionFactor);
    var seasonalIndices := seasonalData.indices;
    var seasonalCoefficients := SeasonalCoefficients(seasonalIndices);
    var accuracyMetrics := CalculateAccuracyMetrics(OriginalData, fit, seasonalIndices, rootOfMse);
    var forecasts2022 := Forecasts2022(fit, seasonalIndices);
    var completeTable := CompleteTable(OriginalData, fit, seasonalIndices);
    var trendData := CalculateTrends(OriginalData, fit);
    var movingAvgData := CalculateMovingAverage(OriginalData);
    var estimatedData := EstimatedSeries(OriginalData, fit, seasonalIndices);
    var cvsData := CalculateCvs(OriginalData, seasonalIndices);
    var forecastData := ForecastData(estimatedData, forecasts2022);
    page := PageData(seasonalData, seasonalCoefficients, accuracyMetrics, forecasts2022, completeTable,
                     trendData, movingAvgData, estimatedData, cvsData, forecastData);
  }

  /**
   * The k-th 2022 forecast is t = 17 + k, labelled `Quarters[k]`, and lies within
   * half a cent of the page's line at 17 + k times that quarter's index.
   */
  lemma PageForecast(c: real, k: int)
    requires c > 0.0
    requires 0 <= k < 4
    ensures var f := Forecasts2022(PageFit(), PageIndices(c))[k];
      && f.t == 17 + k && f.year == 2022 && f.quarter == Quarters[k]
      && TrendAt(PageFit(), 17 + k) * PageIndices(c)[Quarters[k]] - 0.005 < f.forecast
      && f.forecast <= TrendAt(PageFit(), 17 + k) * PageIndices(c)[Quarters[k]] + 0.005
  {
    ForecastQuarters(PageFit(), PageIndices(c), k);
    ForecastOfIndex(PageFit(), PageIndices(c), k);
  }

  /**
   * Each estimated row of the page copies its observation and lies within half
   * a cent of the page's line at its t times the index of its quarter.
   */
  lemma PageEstimate(c: real, k: int)
    requires c > 0.0
    requires 0 <= k < 16
    ensures var e, o := EstimatedSeries(OriginalData, PageFit(), PageIndices(c))[k], OriginalData[k];
      && e.obs == o
      && TrendAt(PageFit(), o.t) * PageIndices(c)[o.quarter] - 0.005 < e.estimated
      && e.estimated <= TrendAt(PageFit(), o.t) * PageIndices(c)[o.quarter] + 0.005
  {
    EstimateOfIndex(PageFit(), PageIndices(c), OriginalData[k]);
  }

  /** Each CVS row of the page lies within half a cent of its sales divided by its quarter's index. */
  lemma PageCvs(c: real, k: int)
    requires c > 0.0
    requires 0 <= k < 16
    ensures var v, o := CalculateCvs(OriginalData, PageIndices(c))[k], OriginalData[k];
      && v.obs == o
      && o.sales / PageIndices(c)[o.quarter] - 0.005 < v.cvs <= o.sales / PageIndices(c)[o.quarter] + 0.005
  {
  }

  /** The display list shows the four corrected indices themselves, T1 .. T4. */
  lemma PageCoefficients(c: real, k: int)
    requires c > 0.0
    requires 0 <= k < 4
    ensures SeasonalCoefficients(PageIndices(c))[k] == Coefficient(Quarters[k], PageIndices(c)[Quarters[k]])
  {
  }
}

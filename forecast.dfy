/**
 * The 2022 forecasts (`forecasts2022`, app/page.tsx lines 240-253) and the
 * chart series that appends them to the estimated series (`forecastData`,
 * lines 286-293).
 */
module Forecast {
  import opened Optional
  import opened Series
  import opened Rounding
  import opened Trend
  import opened Decomposition

  /** The time indices forecast: the four quarters after the sixteen observed ones. */
  const ForecastTimes: seq<int> := [17, 18, 19, 20]

  const ForecastYear: int := 2022

  datatype ForecastRow = ForecastRow(t: int, year: int, quarter: Quarter, forecast: real)

  /** The forecast of time index `t`: the fitted trend extended to `t`, times its quarter's factor. */
  function ForecastAt(fit: LeastSquaresFit, indices: map<Quarter, real>, t: int): (r: ForecastRow)
    requires t >= 1
    ensures r.t == t && r.year == ForecastYear && r.quarter == QuarterOf(t)
    ensures TrendAt(fit, t) * SeasonalFactor(indices, QuarterOf(t)) - 0.005 < r.forecast
         <= TrendAt(fit, t) * SeasonalFactor(indices, QuarterOf(t)) + 0.005
  {
    var year := ForecastYear;
    var quarter := QuarterOf(t);
    var trend := TrendAt(fit, t);
    var seasonal := SeasonalFactor(indices, quarter);
    var forecast := trend * seasonal;
    ForecastRow(t, year, quarter, Round2(forecast))
  }

  /** `[17, 18, 19, 20].map(...)`. */
  function Forecasts2022(fit: LeastSquaresFit, indices: map<Quarter, real>): (fs: seq<ForecastRow>)
    ensures |fs| == |ForecastTimes|
    ensures forall k :: 0 <= k < |fs| ==> fs[k] == ForecastAt(fit, indices, ForecastTimes[k])
  {
    seq(|ForecastTimes|, k requires 0 <= k < |ForecastTimes| => ForecastAt(fit, indices, ForecastTimes[k]))
  }

  /** The forecasts are 2022-T1 .. 2022-T4, in that order. */
  lemma ForecastQuarters(fit: LeastSquaresFit, indices: map<Quarter, real>, k: int)
    requires 0 <= k < |ForecastTimes|
    ensures Forecasts2022(fit, indices)[k].t == 17 + k
    ensures Forecasts2022(fit, indices)[k].year == 2022
    ensures Forecasts2022(fit, indices)[k].quarter == Quarters[k]
  {
  }

  /** A quarter with a non-zero index is forecast with that index itself. */
  lemma ForecastOfIndex(fit: LeastSquaresFit, indices: map<Quarter, real>, k: int)
    requires 0 <= k < |ForecastTimes|
    requires Quarters[k] in indices && indices[Quarters[k]] != 0.0
    ensures TrendAt(fit, 17 + k) * indices[Quarters[k]] - 0.005 < Forecasts2022(fit, indices)[k].forecast
    ensures Forecasts2022(fit, indices)[k].forecast <= TrendAt(fit, 17 + k) * indices[Quarters[k]] + 0.005
  {
    ForecastQuarters(fit, indices, k);
  }

  /**
   * On a consecutive series of sixteen quarters, the k-th forecast continues the
   * time index and repeats the quarter of the k-th observation of the last year.
   */
  lemma ForecastContinuesSeries(data: seq<Observation>, fit: LeastSquaresFit, indices: map<Quarter, real>, k: int)
    requires Consecutive(data) && |data| == 16
    requires 0 <= k < |ForecastTimes|
    ensures Forecasts2022(fit, indices)[k].t == data[|data| - 1].t + 1 + k
    ensures Forecasts2022(fit, indices)[k].quarter == data[12 + k].quarter
  {
    QuarterCycle(13 + k);
  }

  /**
   * A forecast is the estimate the decomposition gives a row at time `t`: the
   * same fitted line and the same factors, with no refit.
   */
  lemma ForecastIsEstimate(fit: LeastSquaresFit, indices: map<Quarter, real>, t: int, sales: real)
    requires t >= 1 && TrendAt(fit, t) != 0.0
    ensures ForecastAt(fit, indices, t).forecast
         == EstimatedRowOf(fit, indices, Observation(t, ForecastYear, QuarterOf(t), sales)).estimated
  {
  }

  // ---------------------------------------------------------------------------
  // forecastData

  /** A point of the forecast chart; a forecast point has no sales, trend or residuals. */
  datatype ChartPoint = ChartPoint(
    t: int, year: int, quarter: Quarter,
    sales: Option<real>, trend: Option<real>, estimated: real,
    residual: Option<real>, residualRatio: Option<real>, forecast: Option<real>)

  function EstimatePoint(e: EstimatedRow): ChartPoint
  {
    ChartPoint(e.obs.t, e.obs.year, e.obs.quarter, Some(e.obs.sales), Some(e.trend), e.estimated,
               Some(e.residual), Some(e.residualRatio), None)
  }

  function ForecastPoint(f: ForecastRow): ChartPoint
  {
    ChartPoint(f.t, f.year, f.quarter, None, None, f.forecast, None, None, Some(f.forecast))
  }

  /** `[...estimatedData, ...forecasts2022.map(...)]`. */
  function ForecastData(estimated: seq<EstimatedRow>, forecasts: seq<ForecastRow>): (points: seq<ChartPoint>)
    ensures |points| == |estimated| + |forecasts|
  {
    seq(|estimated|, k requires 0 <= k < |estimated| => EstimatePoint(estimated[k]))
      + seq(|forecasts|, k requires 0 <= k < |forecasts| => ForecastPoint(forecasts[k]))
  }

  /**
   * The chart holds the estimated rows first and the forecasts after them, and
   * a point has sales exactly when it is an estimated row.
   */
  lemma ForecastDataLayout(estimated: seq<EstimatedRow>, forecasts: seq<ForecastRow>, k: int)
    requires 0 <= k < |estimated| + |forecasts|
    ensures var p := ForecastData(estimated, forecasts)[k];
      && (k < |estimated| ==> p == EstimatePoint(estimated[k]) && p.sales == Some(estimated[k].obs.sales))
      && (k >= |estimated| ==> p == ForecastPoint(forecasts[k - |estimated|]) && p.estimated == forecasts[k - |estimated|].forecast)
      && (p.sales.None? <==> k >= |estimated|)
  {
  }
}

# Quarterly sales decomposition, in Dafny

This project models the analysis engine of the `TimeSeriesAnalysis` page
(`app/page.tsx`, lines 11-293). The page decomposes sixteen quarters of sales,
2018-T1 to 2021-T4, with the multiplicative model Yt = Tt x St x et, in these steps:

- a least-squares linear trend `getTrend(t) = b + a * t`;
- a 4-term moving average `mm4` and its centred average `mmc4`;
- seasonal indices by the ratio-to-moving-average method, scaled by a
  correction factor so that their product is 1;
- the estimated series, residual ratios, the seasonally adjusted (CVS) series
  and the complete table;
- the accuracy metrics MAE, MSE and RMSE;
- the four forecasts for 2022 and the forecast chart series.

Arithmetic is over exact reals. `Math.round(x * 10^k) / 10^k` is modelled as
`floor(x * 10^k + 1/2) / 10^k` (`Round2`, `Round4`). The model applies it
wherever the page rounds a value before reusing it:

- `mmc4` is computed from the rounded `mm4`;
- the metrics use the rounded `estimated`.

The two irrational operations are parameters constrained by their defining equations:

- the correction factor `Math.pow(1 / product, 1 / 4)` is `c` with `c > 0` and
  `c^4 * product == 1` (`Seasonal.IsCorrectionFactor`);
- `Math.sqrt(mse)` is `r` with `r >= 0` and `r * r == mse`.

Modules, one file each:

| module | file | models |
|---|---|---|
| `Optional` | optional.dfy | `null`/`undefined` values |
| `Rounding` | rounding.dfy | `Math.round(x * 100) / 100` and `Math.round(x * 10000) / 10000` |
| `Series` | series.dfy | quarters, observations, the 16-row `originalData` |
| `Trend` | trend.dfy | `calculateLeastSquaresTrend`, `getTrend` |
| `Smoothing` | smoothing.dfy | `calculateMovingAverage` (two loops, a method) |
| `Seasonal` | seasonal.dfy | `calculateSeasonalCoefficients` (loops over dictionaries, methods) |
| `Decomposition` | decomposition.dfy | `calculateTrends`, `seasonalCoefficients`, `calculateEstimatedSeries`, `calculateCVS`, `calculateCompleteTable` |
| `Accuracy` | accuracy.dfy | `calculateAccuracyMetrics` (a `forEach` accumulation, a method) |
| `Forecast` | forecast.dfy | `forecasts2022`, `forecastData` |
| `Dataset` | dataset.dfy | facts about the page's own sixteen quarters |
| `Page` | page.dfy | the component body: the line and the indices computed once (lines 50, 160-161) and every table built from them (lines 164-293) |

Each operation that is written as a loop is a `method`. Its `ensures` ties the
result to a specification function, for example
`CalculateMovingAverage(data) == MovingAverageTable(data)` and
`GroupRatios(rows) == RatioLists(rows)`. The properties are proved as lemmas
about those functions. The operations written with `map`/`reduce` are functions.

Facts about the page that the model follows as written:

- The page implements only the multiplicative model. There is no additive mode, and
  the "semi-average" trend `trendSM` is `getTrend` again (lines 61-62).
- `mmc4` at row i is the mean of `mm4[i]` and `mm4[i+1]` (line 104). Its window
  is therefore rows i-1 .. i+3 and it is present on rows 1 .. n-4.
  It is not the textbook window i-2 .. i+2.
- Nothing reports a quarter without ratios as an error. Such a quarter gets no
  index (lines 134-138), the correction factor is still a fourth root, and
  later lookups fall back to 1 through `|| 1`.

For the page's data the model proves:

- the fitted line is Y = 21445/4 + (3025/17) t;
- each quarter receives exactly three ratios, from the 0-based rows 4, 8, 12 (T1), 1, 5, 9 (T2),
  2, 6, 10 (T3) and 3, 7, 11 (T4), and `mmc4` on those rows is exact;
- all four indices therefore exist, their corrected product is exactly 1, and
  they rank T3 > T2 > T4 > T1;
- the component body, with its line and indices bound once, produces each
  table, metric and forecast from that one line and those indices (`Page.AnalysePage`).

## Model

| member | source | states |
|---|---|---|
| Series.Ordinal | app/page.tsx:120 | the dictionaries enumerate the quarters T1, T2, T3, T4; `Ordinal(q)` is the position of `q` in that enumeration |
| Series.QuarterOf | app/page.tsx:242 | the label of time index t is `Quarters[(t - 1) % 4]`, i.e. `T((t-1) mod 4 + 1)` |
| Series.QuarterCycle | app/page.tsx:240-242 | the label of t + 4 equals the label of t |
| Rounding.Round2 | app/page.tsx:87 | rounding to cents moves a value by more than -0.005 and at most +0.005; the result has at most two decimals; a non-negative value stays non-negative |
| Rounding.Round4 | app/page.tsx:189 | the same for four decimals, within 0.00005 |
| Rounding.Round2Exact | app/page.tsx:188 | a value that already has two decimals is unchanged by rounding |
| Rounding.Round4Exact | app/page.tsx:189 | a value that already has four decimals is unchanged by rounding |
| Trend.FitFromSums | app/page.tsx:42-45 | the closed-form slope and intercept satisfy both normal equations n*b + a*Σt = ΣY and b*Σt + a*Σt² = ΣtY, and the fit carries the four sums |
| Trend.LeastSquaresTrend | app/page.tsx:35-48 | the fit over a series returns its four sums, and its line (slope a, intercept b) solves the normal equations of that series |
| Trend.NormalEquations | app/page.tsx:44-45 | the algebra: the formulas of lines 44-45 solve the two normal equations whenever n > 0 and the divisor is non-zero |
| Trend.NormalEquationsUnique | app/page.tsx:44-45 | with a non-zero divisor, the normal equations have at most one solution |
| Trend.SumTClosedForm | app/page.tsx:37 | with t = 1 .. n, Σt = n(n+1)/2 |
| Trend.SumT2ClosedForm | app/page.tsx:39 | with t = 1 .. n, Σt² = n(n+1)(2n+1)/6 |
| Trend.SumsSplit | app/page.tsx:37-40 | each of the four sums distributes over concatenation: the sum over s + u is the sum over s plus the sum over u |
| Trend.DenominatorPositive | app/page.tsx:44 | with t = 1 .. n and n >= 2, the divisor n*Σt² - (Σt)² is strictly positive, so the slope is defined |
| Trend.OnLineResidualsZero | app/page.tsx:53 | on a series whose sales all equal c + d*t, the residuals of that line sum to zero, both plainly and weighted by t |
| Trend.OnLineSolves | app/page.tsx:35-48 | on such a series, slope d and intercept c solve the normal equations |
| Trend.OneSolution | app/page.tsx:44-45 | two lines that both solve the normal equations of a series with a non-zero divisor are equal |
| Trend.LinearSeriesRecovered | app/page.tsx:35-48 | if every sales value is exactly c + d*t, the fit returns a == d and b == c |
| Trend.SumResidualsExpanded | app/page.tsx:37-40 | Σ(y - (b + a t)) = ΣY - n*b - a*Σt |
| Trend.SumResidualsTimesTExpanded | app/page.tsx:37-40 | Σ(y - (b + a t))*t = ΣtY - b*Σt - a*Σt² |
| Trend.ResidualsVanish | app/page.tsx:45 | a line satisfies n*b + a*Σt = ΣY if and only if its residuals sum to zero |
| Trend.WeightedResidualsVanish | app/page.tsx:44 | a line satisfies b*Σt + a*Σt² = ΣtY if and only if its residuals weighted by t sum to zero |
| Trend.ResidualsSumToZero | app/page.tsx:35-53 | the residuals `sales - getTrend(t)` of the fitted line sum to zero, and so do they weighted by t |
| Smoothing.MovingAverageTable | app/page.tsx:74-110 | the table has one row per observation |
| Smoothing.Mmc4Exact | app/page.tsx:103-105 | when `mm4[i]`, `mm4[i+1]` and the centred mean already have two decimals, `mmc4[i]` is exactly the centred mean |
| Smoothing.CalculateMovingAverage | app/page.tsx:74-110 | the two loops (push rows with `mm4`, then overwrite `mmc4` in place) produce `MovingAverageTable(data)`: one row per observation, copying each observation |
| Smoothing.Mm4Defined | app/page.tsx:80 | `mm4` is present exactly on 0-based rows 1 .. n-3 |
| Smoothing.Mm4Close | app/page.tsx:81-87 | a present `mm4` lies within half a cent of (sales[i-1] + sales[i] + sales[i+1] + sales[i+2]) / 4 |
| Smoothing.Mmc4Defined | app/page.tsx:103 | `mmc4` is present exactly on rows 1 .. n-4 |
| Smoothing.CenteredIsMeanOfMeans | app/page.tsx:104 | the mean of two consecutive exact 4-term means is the centred mean with weights 1/8, 1/4, 1/4, 1/4, 1/8 over rows i-1 .. i+3 |
| Smoothing.Mmc4Close | app/page.tsx:103-105 | a present `mmc4`, built from the rounded `mm4` values, lies within one cent of that centred mean |
| Smoothing.AveragesPositive | app/page.tsx:79-107 | with positive sales, every present `mm4` and `mmc4` is non-negative |
| Smoothing.CenteredPositive | app/page.tsx:103-105 | with every sales value at least 1, a present `mmc4` is strictly positive, so it passes the `mmc4 > 0` test of line 123 |
| Seasonal.Scale | app/page.tsx:145-147 | scaling keeps the same set of quarters and multiplies every present index by c |
| Seasonal.CalculateSeasonalCoefficients | app/page.tsx:116-158 | the ratios returned are the grouped ratios of the moving-average table; the indices are the raw indices scaled by the correction factor; `finalProduct` is their product |
| Seasonal.GroupRatios | app/page.tsx:120-127 | after the loop, every quarter has a list, and that list is exactly its ratios `sales / mmc4` in row order (`RatioLists`) |
| Seasonal.AverageRatios | app/page.tsx:130-139 | the loop over T1 .. T4 gives the mean index of every quarter with a non-empty list, and `productOfIndices` is the product of those means |
| Seasonal.AverageQuarter | app/page.tsx:134-138 | one iteration adds quarter j's mean, if its list is non-empty, to the indices and to the product |
| Seasonal.ApplyCorrection | app/page.tsx:145-147 | multiplying every present index in place by the correction factor gives `Scale(indices, c)` |
| Seasonal.ScaledProduct | app/page.tsx:145-150 | scaling multiplies the product of the indices by c once per present quarter |
| Seasonal.RawIndexPresent | app/page.tsx:133-137 | a quarter has a raw index if and only if it has at least one ratio, and the index is then the mean of that quarter's ratios |
| Seasonal.SumOfPositive | app/page.tsx:135 | the sum of a non-empty list of positive ratios is positive |
| Seasonal.RawIndexPositive | app/page.tsx:135 | with positive sales, every raw index is positive |
| Seasonal.IndexProductPositive | app/page.tsx:137 | a product of positive indices is positive |
| Seasonal.RawProductPositive | app/page.tsx:131-143 | with positive sales, `productOfIndices` is positive, so the fourth root in line 143 is a real number |
| Seasonal.NormalizedProduct | app/page.tsx:141-150 | when all four quarters have an index, the corrected indices multiply to exactly 1 (`finalProduct == 1`) |
| Seasonal.NormalizedIndices | app/page.tsx:141-150 | four indices scaled by c, where c^4 times their product is 1, multiply to 1 |
| Seasonal.AllPresent | app/page.tsx:133-139 | with every quarter indexed, all four quarters count as present |
| Seasonal.ScalePreservesOrder | app/page.tsx:145-147 | multiplying by c > 0 keeps the order of any two quarters' indices, both strict order and equality |
| Seasonal.RatiosOf | app/page.tsx:122-126 | a quarter receives at most one ratio per row |
| Seasonal.RatiosExtend | app/page.tsx:122-126 | one more row appends exactly that row's contribution (its ratio, if it is of that quarter and has `mmc4 > 0`) to each quarter's list |
| Seasonal.RatiosUnchanged | app/page.tsx:122-126 | a run of rows that contribute nothing to a quarter leaves its list as it is |
| Seasonal.ContributionOf | app/page.tsx:123-125 | a row of quarter q with sales s and `mmc4` m > 0 contributes exactly [s / m] |
| Seasonal.RawIndexOfThree | app/page.tsx:133-137 | a quarter whose list is exactly three ratios x, y, z gets the index (x + y + z) / 3 |
| Seasonal.RatiosPositive | app/page.tsx:122-126 | with positive sales, every ratio is positive |
| Seasonal.RatiosComeFromRows | app/page.tsx:122-126 | each ratio of quarter q is `sales / mmc4` of some row of quarter q whose `mmc4` is present and positive |
| Seasonal.RowsGiveRatios | app/page.tsx:122-126 | every row of quarter q with a present, positive `mmc4` contributes its ratio to q's list |
| Seasonal.AbsentQuarterIgnored | app/page.tsx:133-138 | a quarter without an index does not change the product |
| Seasonal.RatioCount | app/page.tsx:122-126 | on a consecutive series with sales >= 1, the number of ratios of quarter q among the first j rows is the number of rows i < j with 1 <= i <= n - 4 and i mod 4 = position of q |
| Seasonal.CountContributing | app/page.tsx:122-126 | when exactly the rows i with 1 <= i <= n - 4 and i mod 4 = k contribute to quarter q, the first j rows give q as many ratios as there are such rows below j |
| Decomposition.SeasonalFactor | app/page.tsx:179 | `seasonalIndices[q] || 1` is the index when it is present and non-zero, and 1 otherwise, so it is never zero |
| Decomposition.SeasonalCoefficients | app/page.tsx:164-169 | the display list holds T1 .. T4 in order, each with `SeasonalFactor` of its quarter |
| Decomposition.TrendRowOf | app/page.tsx:57-70 | a trend row copies its observation, and its `trendMC` is within half a cent of `getTrend(t)` |
| Decomposition.CalculateTrends | app/page.tsx:56-71 | one trend row per observation, in order |
| Decomposition.SemiAverageIsLeastSquares | app/page.tsx:59-62 | `trendSM` equals `trendMC` on every row |
| Decomposition.ResidualRatio | app/page.tsx:189 | the rounded residual ratio is within 0.00005 of sales / estimated |
| Decomposition.ResidualPercent | app/page.tsx:188 | the rounded residual is within half a unit of the second decimal of the percentage deviation (sales / estimated - 1) * 100 |
| Decomposition.EstimatedRowOf | app/page.tsx:177-190 | the row copies its observation, and `estimated` is within half a cent of getTrend(t) * S, where S = `seasonalIndices[q] \|\| 1` |
| Decomposition.EstimateWith | app/page.tsx:178-190 | for a given trend value and factor, `estimated` is within half a cent of their product |
| Decomposition.EstimatedSeries | app/page.tsx:176-192 | one estimated row per observation, in order |
| Decomposition.CvsRowOf | app/page.tsx:196-204 | a CVS row copies its observation |
| Decomposition.CvsWith | app/page.tsx:197-203 | `cvs` is within half a cent of sales / S |
| Decomposition.CalculateCvs | app/page.tsx:195-206 | one CVS row per observation, in order |
| Decomposition.CompleteRowOf | app/page.tsx:257-277 | a complete row copies t, year, quarter and sales |
| Decomposition.CompleteWith | app/page.tsx:258-277 | `ytDivTrend` is within 0.00005 of sales / trend, and `seasonal` is within 0.00005 of the factor |
| Decomposition.CompleteTable | app/page.tsx:256-279 | one complete row per observation, in order |
| Decomposition.RowsAgree | app/page.tsx:258-276 | a complete row agrees with the estimated row on t, year, quarter, sales, trend, estimated, residual and residualRatio, and with the CVS row on cvs |
| Decomposition.TablesAgree | app/page.tsx:256-279 | the complete table agrees with the estimated series and the CVS series row by row on those columns |
| Decomposition.FactorsRecombine | app/page.tsx:180-189 | the row's rounded `residualRatio` times getTrend(t) x S lands within 0.00005 x \|getTrend(t) x S\| of the row's sales: the stored ratio and the factors recombine to Yt |
| Decomposition.CvsRecombines | app/page.tsx:197-203 | the row's rounded `cvs` times S lands within 0.005 x \|S\| of the row's sales |
| Decomposition.EstimateOfIndex | app/page.tsx:178-187 | for a quarter with a present, non-zero index, `estimated` is within half a cent of getTrend(t) times that index itself |
| Decomposition.ExactRatio | app/page.tsx:181-189 | when sales equal the estimate, the residual ratio is exactly 1 |
| Decomposition.ExactResidual | app/page.tsx:188 | when sales equal the estimate, the percentage residual is exactly 0 |
| Decomposition.ExactObservation | app/page.tsx:180-189 | a row whose sales are exactly trend x factor has residual ratio 1 and residual 0 |
| Decomposition.ExactCvs | app/page.tsx:198-203 | a row whose sales are exactly trend x factor has a CVS value equal to its rounded trend |
| Accuracy.SumErrors | app/page.tsx:215-224 | the loop's two accumulators are the sum of absolute errors and the sum of squared errors over all rows, and n counts every row |
| Accuracy.CalculateAccuracyMetrics | app/page.tsx:212-235 | mae is the rounded Σ\|sales - estimated\| / n, mse the rounded Σ(sales - estimated)² / n, and rmse the rounded root of that unrounded mse; the errors are taken against the rounded `estimated` |
| Accuracy.SumAbsoluteErrorNonNegative | app/page.tsx:221 | the sum of absolute errors is never negative |
| Accuracy.SumSquaredErrorNonNegative | app/page.tsx:222 | the sum of squared errors is never negative |
| Accuracy.SumAbsoluteErrorZero | app/page.tsx:221 | the sum of absolute errors is 0 if and only if every row is estimated exactly |
| Accuracy.SumSquaredErrorZero | app/page.tsx:222 | the sum of squared errors is 0 if and only if every row is estimated exactly |
| Accuracy.SumSquaredErrorOfExact | app/page.tsx:222 | with every row exact, the squared errors sum to 0 |
| Accuracy.SumSquaredErrorPositive | app/page.tsx:222 | a single inexact row makes the sum of squared errors positive |
| Accuracy.SquarePositive | app/page.tsx:222 | `error * error` is non-negative, and positive unless the error is 0 |
| Accuracy.MetricsNonNegative | app/page.tsx:226-233 | mae, mse and rmse are all non-negative |
| Accuracy.MetricsZeroWhenExact | app/page.tsx:226-233 | when every sale equals its estimate, mae, mse and rmse are all 0 |
| Forecast.ForecastAt | app/page.tsx:240-252 | a forecast row has time t, year 2022 and label T((t-1) mod 4 + 1), and its forecast is within half a cent of getTrend(t) * S for the line it is given (`Page.PageForecast` states it for the page's fitted line) |
| Forecast.Forecasts2022 | app/page.tsx:240-253 | there are four forecasts, the k-th one for t = 17 + k |
| Forecast.ForecastQuarters | app/page.tsx:240-242 | the forecasts are for t 17, 18, 19, 20, labelled 2022-T1, T2, T3, T4 |
| Forecast.ForecastOfIndex | app/page.tsx:243-251 | for a quarter with a present, non-zero index, the k-th forecast is within half a cent of getTrend(17 + k) times that index itself |
| Forecast.ForecastContinuesSeries | app/page.tsx:240-242 | on a consecutive 16-quarter series, the k-th forecast follows the last time index and repeats the quarter of the k-th row of the last year |
| Forecast.ForecastIsEstimate | app/page.tsx:243-245 | a forecast equals the estimate the decomposition would give an observation at t, with the same line and factors and no refit |
| Forecast.ForecastData | app/page.tsx:286-293 | the chart series has one point per estimated row plus one per forecast |
| Forecast.ForecastDataLayout | app/page.tsx:286-293 | the estimated rows come first and the forecasts after them; a forecast point's `estimated` is its forecast; a point has sales if and only if it is an estimated row |
| Dataset.OriginalDataConsecutive | app/page.tsx:11-27 | the page's rows have t = 1 .. 16, and their quarters follow the cycle |
| Dataset.OriginalSalesBounded | app/page.tsx:11-27 | every sales value is at least 5030 |
| Dataset.SalesSum | app/page.tsx:38 | ΣY = 109980 |
| Dataset.WeightedSalesSum | app/page.tsx:40 | ΣtY = 995330 |
| Dataset.OriginalTrend | app/page.tsx:35-48 | for the page's data the divisor is 5440, a = 3025/17 and b = 21445/4 |
| Dataset.OriginalTrendPositive | app/page.tsx:53 | the fitted trend is positive at every t >= 1, including the forecast indices |
| Dataset.OriginalTrendNonZero | app/page.tsx:178-181 | every row of the page's data has a defined estimate and residual ratio |
| Dataset.ThreeRatiosEach | app/page.tsx:120-127 | each quarter receives exactly three ratios |
| Dataset.WindowCountSixteen | app/page.tsx:103 | rows 1 .. 12 contain each position of the quarter cycle three times |
| Dataset.OriginalNormalized | app/page.tsx:141-150 | for the page's data all four quarters get an index, and for the correction factor the corrected indices multiply to exactly 1 |
| Dataset.OriginalRawProductPositive | app/page.tsx:143 | the raw product of the page's data is positive, so the correction factor exists |
| Dataset.WindowRows | app/page.tsx:103 | among rows 0 .. 15, the rows 1 .. 12 at the cycle position of q are exactly its first window row and the rows 4 and 8 after it |
| Dataset.OriginalContributions | app/page.tsx:120-127 | on the page's table, quarter q's list is the contributions of its three window rows, in row order |
| Dataset.ThreeContributions | app/page.tsx:122-126 | when exactly rows a, a + 4 and a + 8 contribute to q, q's list is their three contributions in that order |
| Dataset.NextContribution | app/page.tsx:122-126 | after a run of non-contributing rows i .. b - 1, the list up to row b is the list up to row i followed by row b's contribution |
| Dataset.OriginalRatiosT1 | app/page.tsx:122-125 | rows 4, 8 and 12 contribute 5280/6436.25, 5530/7030 and 6280/7811.25 to T1 |
| Dataset.OriginalRatiosT2 | app/page.tsx:122-125 | rows 1, 5 and 9 contribute 6030/5998.75, 6780/6561.25 and 7280/7186.25 to T2 |
| Dataset.OriginalRatiosT3 | app/page.tsx:122-125 | rows 2, 6 and 10 contribute 7030/6123.75, 7530/6655 and 8530/7405 to T3 |
| Dataset.OriginalRatiosT4 | app/page.tsx:122-125 | rows 3, 7 and 11 contribute 5780/6280, 6530/6842.5 and 7030/7623.75 to T4 |
| Dataset.OriginalRawIndexT1 | app/page.tsx:133-137 | T1 has a raw index, the mean of its three ratios |
| Dataset.OriginalRawIndexT2 | app/page.tsx:133-137 | T2 has a raw index, the mean of its three ratios |
| Dataset.OriginalRawIndexT3 | app/page.tsx:133-137 | T3 has a raw index, the mean of its three ratios |
| Dataset.OriginalRawIndexT4 | app/page.tsx:133-137 | T4 has a raw index, the mean of its three ratios |
| Dataset.OriginalRawRanking | app/page.tsx:133-139 | every quarter has a raw index, and they rank T3 > T2 > T4 > T1 |
| Dataset.OriginalRanking | app/page.tsx:141-147 | after the correction, all four indices are present and still rank T3 > T2 > T4 > T1 |
| Page.PageFit | app/page.tsx:50-53 | the page's line (a = 3025/17, b = 21445/4) is positive at every t >= 1, so every row's estimate is non-zero |
| Page.PageFitIsLeastSquares | app/page.tsx:35-50 | that line, with its four sums, is exactly `calculateLeastSquaresTrend()` of `originalData` |
| Page.PageRawIndicesAreRaw | app/page.tsx:116-139 | the four means of three ratios each are exactly the raw indices the page computes from its moving-average table |
| Page.PageIndices | app/page.tsx:141-147 | scaled by c > 0, all four indices are present and positive, the `\|\| 1` fallback returns each of them unchanged, and they rank T3 > T2 > T4 > T1 |
| Page.PageCorrection | app/page.tsx:141-150 | a factor that corrects the page's raw indices is the correction factor of its data; the indices it gives are the scaled raw indices and multiply to 1 |
| Page.PageSeasonalData | app/page.tsx:160-161 | `seasonalData` holds the grouped ratios of the table, the corrected indices, the factor, and `finalProduct == 1` |
| Page.AnalysePage | app/page.tsx:160-293 | every value the component computes (coefficients, metrics, forecasts, complete table, trends, moving averages, estimates, CVS, chart series) is built from the one fitted line and the one set of corrected indices; `finalProduct` is 1 and mae divides by 16 |
| Page.PageForecast | app/page.tsx:240-253 | the k-th 2022 forecast is t = 17 + k, labelled 2022-T(k+1), within half a cent of the line at 17 + k times that quarter's index |
| Page.PageEstimate | app/page.tsx:176-192 | each estimated row copies its observation and lies within half a cent of the line at its t times its quarter's index |
| Page.PageCvs | app/page.tsx:195-206 | each CVS row copies its observation and lies within half a cent of its sales divided by its quarter's index |
| Page.PageCoefficients | app/page.tsx:164-169 | the display list shows T1 .. T4 with the corrected indices themselves |

## Left out

- JSX rendering and UI state (app/page.tsx lines 295-719, the `activeTab` and `showTable` state of lines 7-8, the charts): presentation only.
- The colour fields of `seasonalCoefficients` (lines 165-168): presentation only.
- The `label` strings and `toFixed` display formatting: cosmetic string building.
- app/layout.tsx is not part of this model: it holds only page metadata and a wrapper.
- IEEE-754 effects: the model is over exact reals. A zero divisor, a zero trend or a non-positive product, where the page would produce NaN or Infinity, becomes a precondition: `Denominator(s) != 0`, `TrendNonZero`, and the defining equation of the correction factor.
- The bodies of `Math.pow(1 / product, 1 / 4)` and `Math.sqrt(mse)`: irrational, so they are parameters constrained by their defining equations.
- Accuracy.CalculateAccuracyMetrics: `n` is the row count of the estimated series, which is never 0 for the page's data. The empty series (0 / 0 = NaN in the page) is excluded by `|data| > 0`.
- Smoothing.CalculateMovingAverage: the ensures states the final table. That the second loop changes only `mmc4` fields is a loop invariant of the method, not part of its ensures.
- That the least-squares line minimises the sum of squared residuals is not proved. The model proves the normal equations that characterise the minimiser, and that their solution is unique and is what the code computes.
- Page.AnalysePage: the correction factor is a parameter with `Corrects(PageRawIndices(), c)` (c > 0 and c^4 times the raw product is 1), the defining equation of `Math.pow(1 / productOfIndices, 1 / 4)`; `Page.PageCorrection` shows that this is the page's correction factor.
- Page.PageForecast, Page.PageEstimate, Page.PageCvs, Page.PageCoefficients: stated for any scaling factor c > 0, of which the correction factor is one.
- The page calls `calculateMovingAverage` twice (lines 117 and 283) and `calculateEstimatedSeries` twice (lines 213 and 284). The model makes the same calls, and each pair returns one and the same value, because both calls depend only on `originalData`, the line and the indices.
- Aliasing of the spread copies (`[...originalData]`, `...d`) is not modelled: the model works on values, and no row is shared between tables.

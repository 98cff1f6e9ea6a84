/**
 * Facts about the sixteen quarters the page analyses (`originalData`,
 * app/page.tsx lines 11-28): the series is consecutive, the fitted line is
 * Y = 21445/4 + (3025/17) t, and every quarter receives three ratios, so all
 * four seasonal indices exist and the corrected ones multiply to 1.
 */
module Dataset {
  import opened Optional
  import opened Series
  import opened Rounding
  import opened Smoothing
  import opened Trend
  import opened Seasonal
  import opened Decomposition

  /** The rows are numbered t = 1 .. 16 and their quarters follow the cycle. */
  lemma OriginalDataConsecutive()
    ensures Consecutive(OriginalData)
  {
    assert OriginalData[0].t == 1 && OriginalData[0].quarter == QuarterOf(1);
    assert OriginalData[1].t == 2 && OriginalData[1].quarter == QuarterOf(2);
    assert OriginalData[2].t == 3 && OriginalData[2].quarter == QuarterOf(3);
    assert OriginalData[3].t == 4 && OriginalData[3].quarter == QuarterOf(4);
    assert OriginalData[4].t == 5 && OriginalData[4].quarter == QuarterOf(5);
    assert OriginalData[5].t == 6 && OriginalData[5].quarter == QuarterOf(6);
    assert OriginalData[6].t == 7 && OriginalData[6].quarter == QuarterOf(7);
    assert OriginalData[7].t == 8 && OriginalData[7].quarter == QuarterOf(8);
    assert OriginalData[8].t == 9 && OriginalData[8].quarter == QuarterOf(9);
    assert OriginalData[9].t == 10 && OriginalData[9].quarter == QuarterOf(10);
    assert OriginalData[10].t == 11 && OriginalData[10].quarter == QuarterOf(11);
    assert OriginalData[11].t == 12 && OriginalData[11].quarter == QuarterOf(12);
    assert OriginalData[12].t == 13 && OriginalData[12].quarter == QuarterOf(13);
    assert OriginalData[13].t == 14 && OriginalData[13].quarter == QuarterOf(14);
    assert OriginalData[14].t == 15 && OriginalData[14].quarter == QuarterOf(15);
    assert OriginalData[15].t == 16 && OriginalData[15].quarter == QuarterOf(16);
  }

  /** Every sales value is at least 5030. */
  lemma OriginalSalesBounded()
    ensures forall k :: 0 <= k < |OriginalData| ==> OriginalData[k].sales >= 5030.0
  {
  }

  // The two data-dependent sums, evaluated one row at a time.

  /** Σ sales = 109980. */
  lemma SalesSum()
    ensures SumY(OriginalData) == 109980.0
  {
    var s := OriginalData;
    assert s[..1][..0] == [];
    assert SumY(s[..1]) == 5030.0;
    assert s[..2][..1] == s[..1];
    assert SumY(s[..2]) == 11060.0;
    assert s[..3][..2] == s[..2];
    assert SumY(s[..3]) == 18090.0;
    assert s[..4][..3] == s[..3];
    assert SumY(s[..4]) == 23870.0;
    assert s[..5][..4] == s[..4];
    assert SumY(s[..5]) == 29150.0;
    assert s[..6][..5] == s[..5];
    assert SumY(s[..6]) == 35930.0;
    assert s[..7][..6] == s[..6];
    assert SumY(s[..7]) == 43460.0;
    assert s[..8][..7] == s[..7];
    assert SumY(s[..8]) == 49990.0;
    assert s[..9][..8] == s[..8];
    assert SumY(s[..9]) == 55520.0;
    assert s[..10][..9] == s[..9];
    assert SumY(s[..10]) == 62800.0;
    assert s[..11][..10] == s[..10];
    assert SumY(s[..11]) == 71330.0;
    assert s[..12][..11] == s[..11];
    assert SumY(s[..12]) == 78360.0;
    assert s[..13][..12] == s[..12];
    assert SumY(s[..13]) == 84640.0;
    assert s[..14][..13] == s[..13];
    assert SumY(s[..14]) == 92920.0;
    assert s[..15][..14] == s[..14];
    assert SumY(s[..15]) == 102200.0;
    assert s[..16][..15] == s[..15];
    assert SumY(s[..16]) == 109980.0;
    assert s[..16] == s;
  }

  /** Σ t · sales = 995330. */
  lemma WeightedSalesSum()
    ensures SumTY(OriginalData) == 995330.0
  {
    var s := OriginalData;
    assert s[..1][..0] == [];
    assert SumTY(s[..1]) == 5030.0;
    assert s[..2][..1] == s[..1];
    assert SumTY(s[..2]) == 17090.0;
    assert s[..3][..2] == s[..2];
    assert SumTY(s[..3]) == 38180.0;
    assert s[..4][..3] == s[..3];
    assert SumTY(s[..4]) == 61300.0;
    assert s[..5][..4] == s[..4];
    assert SumTY(s[..5]) == 87700.0;
    assert s[..6][..5] == s[..5];
    assert SumTY(s[..6]) == 128380.0;
    assert s[..7][..6] == s[..6];
    assert SumTY(s[..7]) == 181090.0;
    assert s[..8][..7] == s[..7];
    assert SumTY(s[..8]) == 233330.0;
    assert s[..9][..8] == s[..8];
    assert SumTY(s[..9]) == 283100.0;
    assert s[..10][..9] == s[..9];
    assert SumTY(s[..10]) == 355900.0;
    assert s[..11][..10] == s[..10];
    assert SumTY(s[..11]) == 449730.0;
    assert s[..12][..11] == s[..11];
    assert SumTY(s[..12]) == 534090.0;
    assert s[..13][..12] == s[..12];
    assert SumTY(s[..13]) == 615730.0;
    assert s[..14][..13] == s[..13];
    assert SumTY(s[..14]) == 731650.0;
    assert s[..15][..14] == s[..14];
    assert SumTY(s[..15]) == 870850.0;
    assert s[..16][..15] == s[..15];
    assert SumTY(s[..16]) == 995330.0;
    assert s[..16] == s;
  }

  /**
   * The fit of the page: the denominator is 16 * 1496 - 136 * 136 = 5440, the
   * slope is 3025/17 (about 177.94) and the intercept 21445/4 = 5361.25.
   */
  lemma OriginalTrend()
    ensures Denominator(OriginalData) == 5440.0
    ensures LeastSquaresTrend(OriginalData).a == 3025.0 / 17.0
    ensures LeastSquaresTrend(OriginalData).b == 21445.0 / 4.0
  {
    var s := OriginalData;
    OriginalDataConsecutive();
    SumTClosedForm(s);
    SumT2ClosedForm(s);
    assert SumT(s) == 136.0 && SumT2(s) == 1496.0;
    SalesSum();
    WeightedSalesSum();
    var fit := LeastSquaresTrend(s);
    NormalEquationsUnique(16.0, 136.0, 109980.0, 1496.0, 995330.0, fit.a, fit.b, 3025.0 / 17.0, 21445.0 / 4.0);
  }

  /** The fitted trend is positive at every time index, including the forecast ones. */
  lemma OriginalTrendPositive(t: int)
    requires t >= 1
    ensures Denominator(OriginalData) != 0.0
    ensures TrendAt(LeastSquaresTrend(OriginalData), t) > 0.0
  {
    OriginalTrend();
  }

  /** So every row of the series has a well-defined estimate and residual ratio. */
  lemma OriginalTrendNonZero()
    ensures Denominator(OriginalData) != 0.0
    ensures TrendNonZero(OriginalData, LeastSquaresTrend(OriginalData))
  {
    OriginalTrend();
    forall k | 0 <= k < |OriginalData|
      ensures TrendAt(LeastSquaresTrend(OriginalData), OriginalData[k].t) != 0.0
    {
      OriginalTrendPositive(OriginalData[k].t);
    }
  }

  /** Each quarter receives exactly three ratios (rows 1 .. 12 carry `mmc4`). */
  lemma ThreeRatiosEach(q: Quarter)
    ensures |RatioLists(MovingAverageTable(OriginalData))[q]| == 3
  {
    var table := MovingAverageTable(OriginalData);
    OriginalDataConsecutive();
    OriginalSalesBounded();
    RatioCount(OriginalData, q, 16);
    assert table[..16] == table;
    WindowCountSixteen(Ordinal(q));
  }

  /** Rows 1 .. 12 hold each position of the cycle three times. */
  lemma WindowCountSixteen(k: int)
    requires 0 <= k < 4
    ensures WindowCount(16, 16, k) == 3
  {
    WindowCountEight(k);
    assert WindowCount(9, 16, k) == [2, 2, 2, 2][k];
    assert WindowCount(10, 16, k) == [2, 3, 2, 2][k];
    assert WindowCount(11, 16, k) == [2, 3, 3, 2][k];
    assert WindowCount(12, 16, k) == [2, 3, 3, 3][k];
    assert WindowCount(13, 16, k) == [3, 3, 3, 3][k];
    assert WindowCount(14, 16, k) == [3, 3, 3, 3][k];
    assert WindowCount(15, 16, k) == [3, 3, 3, 3][k];
  }

  /** The first two years' windows, rows 1 .. 7. */
  lemma WindowCountEight(k: int)
    requires 0 <= k < 4
    ensures WindowCount(8, 16, k) == [1, 2, 2, 2][k]
  {
    assert WindowCount(1, 16, k) == [0, 0, 0, 0][k];
    assert WindowCount(2, 16, k) == [0, 1, 0, 0][k];
    assert WindowCount(3, 16, k) == [0, 1, 1, 0][k];
    assert WindowCount(4, 16, k) == [0, 1, 1, 1][k];
    assert WindowCount(5, 16, k) == [1, 1, 1, 1][k];
    assert WindowCount(6, 16, k) == [1, 2, 1, 1][k];
    assert WindowCount(7, 16, k) == [1, 2, 2, 1][k];
  }

  /**
   * All four raw indices exist, so for any correction factor of the page's data
   * the corrected indices multiply to exactly 1, and such a factor exists
   * because the raw product is positive.
   */
  lemma OriginalNormalized(c: real)
    requires IsCorrectionFactor(OriginalData, c)
    ensures forall q :: q in RawIndices(MovingAverageTable(OriginalData))
    ensures IndexProduct(Scale(RawIndices(MovingAverageTable(OriginalData)), c), Quarters) == 1.0
  {
    var table := MovingAverageTable(OriginalData);
    forall q
      ensures q in RawIndices(table)
    {
      ThreeRatiosEach(q);
      RawIndexPresent(table, q);
    }
    NormalizedProduct(OriginalData, c);
  }

  /** The raw indices of the page's data multiply to a positive number, so `(1 / product)^(1/4)` is real. */
  lemma OriginalRawProductPositive()
    ensures IndexProduct(RawIndices(MovingAverageTable(OriginalData)), Quarters) > 0.0
  {
    var table := MovingAverageTable(OriginalData);
    OriginalSalesBounded();
    assert forall k :: 0 <= k < |table| ==> table[k].obs.sales > 0.0;
    RawProductPositive(table);
  }

  // ---------------------------------------------------------------------------
  // The seasonal indices of the page's data.

  /** The first row of quarter q in the `mmc4` window of a sixteen-quarter series. */
  function FirstWindowRow(q: Quarter): int
  {
    if q == T1 then 4 else Ordinal(q)
  }

  /** Rows 1 .. 12 at cycle position `Ordinal(q)` are the first one and the two a year and two years later. */
  lemma WindowRows(q: Quarter, k: int)
    requires 0 <= k < 16
    ensures (1 <= k <= 12 && k % 4 == Ordinal(q))
        <==> (k == FirstWindowRow(q) || k == FirstWindowRow(q) + 4 || k == FirstWindowRow(q) + 8)
  {
  }

  /** On the page's table, quarter q's list holds the ratios of its three rows of the `mmc4` window. */
  lemma OriginalContributions(q: Quarter)
    ensures var table, a := MovingAverageTable(OriginalData), FirstWindowRow(q);
      RatiosOf(table, q) == Contribution(table[a], q) + Contribution(table[a + 4], q) + Contribution(table[a + 8], q)
  {
    var table := MovingAverageTable(OriginalData);
    OriginalDataConsecutive();
    OriginalSalesBounded();
    forall k | 0 <= k < |table|
      ensures Contribution(table[k], q) != [] <==> (k == FirstWindowRow(q) || k == FirstWindowRow(q) + 4 || k == FirstWindowRow(q) + 8)
    {
      LastRowCounts(OriginalData, q, k);
      WindowRows(q, k);
    }
    ThreeContributions(table, q, FirstWindowRow(q));
  }

  /** A list that receives exactly the ratios of rows a, a + 4 and a + 8. */
  lemma {:induction false} ThreeContributions(rows: seq<MovingAverageRow>, q: Quarter, a: int)
    requires 0 <= a && a + 8 < |rows|
    requires forall k :: 0 <= k < |rows| ==> (Contribution(rows[k], q) != [] <==> (k == a || k == a + 4 || k == a + 8))
    ensures RatiosOf(rows, q) == Contribution(rows[a], q) + Contribution(rows[a + 4], q) + Contribution(rows[a + 8], q)
  {
    var c0, c4, c8 := Contribution(rows[a], q), Contribution(rows[a + 4], q), Contribution(rows[a + 8], q);
    assert RatiosOf(rows[..a + 1], q) == c0 by {
      assert rows[..0] == [];
      NextContribution(rows, q, 0, a);
    }
    assert RatiosOf(rows[..a + 5], q) == c0 + c4 by {
      NextContribution(rows, q, a + 1, a + 4);
    }
    assert RatiosOf(rows[..a + 9], q) == c0 + c4 + c8 by {
      NextContribution(rows, q, a + 5, a + 8);
    }
    assert RatiosOf(rows, q) == c0 + c4 + c8 by {
      RatiosUnchanged(rows, q, a + 9, |rows|);
      assert rows[..|rows|] == rows;
    }
  }

  /** After a run of rows i .. b - 1 that contribute nothing, row b's contribution comes next. */
  lemma NextContribution(rows: seq<MovingAverageRow>, q: Quarter, i: int, b: int)
    requires 0 <= i <= b < |rows|
    requires forall k :: i <= k < b ==> Contribution(rows[k], q) == []
    ensures RatiosOf(rows[..b + 1], q) == RatiosOf(rows[..i], q) + Contribution(rows[b], q)
  {
    RatiosUnchanged(rows, q, i, b);
    RatiosExtend(rows, b, q);
  }

  /** The ratios `sales / mmc4` of rows 4, 8 and 12, the rows of T1 in the `mmc4` window. */
  lemma OriginalRatiosT1()
    ensures var table := MovingAverageTable(OriginalData);
      && Contribution(table[4], T1) == [5280.0 / 6436.25]
      && Contribution(table[8], T1) == [5530.0 / 7030.0]
      && Contribution(table[12], T1) == [6280.0 / 7811.25]
  {
    var table := MovingAverageTable(OriginalData);
    Mmc4Exact(OriginalData, 4);
    ContributionOf(table[4], T1, 5280.0, 6436.25);
    Mmc4Exact(OriginalData, 8);
    ContributionOf(table[8], T1, 5530.0, 7030.0);
    Mmc4Exact(OriginalData, 12);
    ContributionOf(table[12], T1, 6280.0, 7811.25);
  }

  /** The raw index of T1: the mean of those three ratios. */
  lemma OriginalRawIndexT1()
    ensures T1 in RawIndices(MovingAverageTable(OriginalData))
    ensures RawIndices(MovingAverageTable(OriginalData))[T1] == (5280.0 / 6436.25 + 5530.0 / 7030.0 + 6280.0 / 7811.25) / 3.0
  {
    OriginalContributions(T1);
    OriginalRatiosT1();
    RawIndexOfThree(MovingAverageTable(OriginalData), T1, 4, 5280.0 / 6436.25, 5530.0 / 7030.0, 6280.0 / 7811.25);
  }

  /** The ratios `sales / mmc4` of rows 1, 5 and 9, the rows of T2 in the `mmc4` window. */
  lemma OriginalRatiosT2()
    ensures var table := MovingAverageTable(OriginalData);
      && Contribution(table[1], T2) == [6030.0 / 5998.75]
      && Contribution(table[5], T2) == [6780.0 / 6561.25]
      && Contribution(table[9], T2) == [7280.0 / 7186.25]
  {
    var table := MovingAverageTable(OriginalData);
    Mmc4Exact(OriginalData, 1);
    ContributionOf(table[1], T2, 6030.0, 5998.75);
    Mmc4Exact(OriginalData, 5);
    ContributionOf(table[5], T2, 6780.0, 6561.25);
    Mmc4Exact(OriginalData, 9);
    ContributionOf(table[9], T2, 7280.0, 7186.25);
  }

  /** The raw index of T2: the mean of those three ratios. */
  lemma OriginalRawIndexT2()
    ensures T2 in RawIndices(MovingAverageTable(OriginalData))
    ensures RawIndices(MovingAverageTable(OriginalData))[T2] == (6030.0 / 5998.75 + 6780.0 / 6561.25 + 7280.0 / 7186.25) / 3.0
  {
    OriginalContributions(T2);
    OriginalRatiosT2();
    RawIndexOfThree(MovingAverageTable(OriginalData), T2, 1, 6030.0 / 5998.75, 6780.0 / 6561.25, 7280.0 / 7186.25);
  }

  /** The ratios `sales / mmc4` of rows 2, 6 and 10, the rows of T3 in the `mmc4` window. */
  lemma OriginalRatiosT3()
    ensures var table := MovingAverageTable(OriginalData);
      && Contribution(table[2], T3) == [7030.0 / 6123.75]
      && Contribution(table[6], T3) == [7530.0 / 6655.0]
      && Contribution(table[10], T3) == [8530.0 / 7405.0]
  {
    var table := MovingAverageTable(OriginalData);
    Mmc4Exact(OriginalData, 2);
    ContributionOf(table[2], T3, 7030.0, 6123.75);
    Mmc4Exact(OriginalData, 6);
    ContributionOf(table[6], T3, 7530.0, 6655.0);
    Mmc4Exact(OriginalData, 10);
    ContributionOf(table[10], T3, 8530.0, 7405.0);
  }

  /** The raw index of T3: the mean of those three ratios. */
  lemma OriginalRawIndexT3()
    ensures T3 in RawIndices(MovingAverageTable(OriginalData))
    ensures RawIndices(MovingAverageTable(OriginalData))[T3] == (7030.0 / 6123.75 + 7530.0 / 6655.0 + 8530.0 / 7405.0) / 3.0
  {
    OriginalContributions(T3);
    OriginalRatiosT3();
    RawIndexOfThree(MovingAverageTable(OriginalData), T3, 2, 7030.0 / 6123.75, 7530.0 / 6655.0, 8530.0 / 7405.0);
  }

  /** The ratios `sales / mmc4` of rows 3, 7 and 11, the rows of T4 in the `mmc4` window. */
  lemma OriginalRatiosT4()
    ensures var table := MovingAverageTable(OriginalData);
      && Contribution(table[3], T4) == [5780.0 / 6280.0]
      && Contribution(table[7], T4) == [6530.0 / 6842.5]
      && Contribution(table[11], T4) == [7030.0 / 7623.75]
  {
    var table := MovingAverageTable(OriginalData);
    Mmc4Exact(OriginalData, 3);
    ContributionOf(table[3], T4, 5780.0, 6280.0);
    Mmc4Exact(OriginalData, 7);
    ContributionOf(table[7], T4, 6530.0, 6842.5);
    Mmc4Exact(OriginalData, 11);
    ContributionOf(table[11], T4, 7030.0, 7623.75);
  }

  /** The raw index of T4: the mean of those three ratios. */
  lemma OriginalRawIndexT4()
    ensures T4 in RawIndices(MovingAverageTable(OriginalData))
    ensures RawIndices(MovingAverageTable(OriginalData))[T4] == (5780.0 / 6280.0 + 6530.0 / 6842.5 + 7030.0 / 7623.75) / 3.0
  {
    OriginalContributions(T4);
    OriginalRatiosT4();
    RawIndexOfThree(MovingAverageTable(OriginalData), T4, 3, 5780.0 / 6280.0, 6530.0 / 6842.5, 7030.0 / 7623.75);
  }

  /**
   * The raw indices of the page's data rank T3 > T2 > T4 > T1 (about 1.1438,
   * 1.0172, 0.9323 and 0.8037).
   */
  lemma OriginalRawRanking()
    ensures forall q :: q in RawIndices(MovingAverageTable(OriginalData))
    ensures RawIndices(MovingAverageTable(OriginalData))[T3] > RawIndices(MovingAverageTable(OriginalData))[T2]
    ensures RawIndices(MovingAverageTable(OriginalData))[T2] > RawIndices(MovingAverageTable(OriginalData))[T4]
    ensures RawIndices(MovingAverageTable(OriginalData))[T4] > RawIndices(MovingAverageTable(OriginalData))[T1]
  {
    OriginalRawIndexT1();
    OriginalRawIndexT2();
    OriginalRawIndexT3();
    OriginalRawIndexT4();
    forall q
      ensures q in RawIndices(MovingAverageTable(OriginalData))
    {
      assert q == Quarters[Ordinal(q)];
    }
  }

  /** Scaling by the correction factor keeps that ranking of the page's indices. */
  lemma OriginalRanking(c: real)
    requires IsCorrectionFactor(OriginalData, c)
    ensures forall q :: q in Scale(RawIndices(MovingAverageTable(OriginalData)), c)
    ensures Scale(RawIndices(MovingAverageTable(OriginalData)), c)[T3] > Scale(RawIndices(MovingAverageTable(OriginalData)), c)[T2]
    ensures Scale(RawIndices(MovingAverageTable(OriginalData)), c)[T2] > Scale(RawIndices(MovingAverageTable(OriginalData)), c)[T4]
    ensures Scale(RawIndices(MovingAverageTable(OriginalData)), c)[T4] > Scale(RawIndices(MovingAverageTable(OriginalData)), c)[T1]
  {
    var raw := RawIndices(MovingAverageTable(OriginalData));
    OriginalRawRanking();
    ScalePreservesOrder(raw, c, T2, T3);
    ScalePreservesOrder(raw, c, T4, T2);
    ScalePreservesOrder(raw, c, T1, T4);
  }
}

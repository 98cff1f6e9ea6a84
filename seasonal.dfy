/**
 * Seasonal indices by the ratio-to-moving-average method
 * (`calculateSeasonalCoefficients`, app/page.tsx lines 116-158).
 *
 * `Math.pow(1 / product, 1 / 4)` has no exact value in general, so the
 * correction factor is a parameter `c` constrained by its defining equation
 * `c > 0 && c^4 * product == 1`.
 */
module Seasonal {
  import opened Series
  import opened Smoothing

  // ---------------------------------------------------------------------------
  // Specification functions.

  /** Whether a row contributes a ratio: its `mmc4` is present and positive. */
  predicate HasRatio(row: MovingAverageRow)
  {
    row.mmc4.Some? && row.mmc4.value > 0.0
  }

  /** `sales / mmc4` of every contributing row of quarter `q`, in row order. */
  function RatiosOf(rows: seq<MovingAverageRow>, q: Quarter): (r: seq<real>)
    ensures |r| <= |rows|
  {
    if rows == [] then []
    else
      var last := rows[|rows| - 1];
      RatiosOf(rows[..|rows| - 1], q) + Contribution(last, q)
  }

  /** What one row adds to the list of quarter `q`: its ratio, if it is a row of `q` with a ratio. */
  function Contribution(row: MovingAverageRow, q: Quarter): seq<real>
  {
    if row.obs.quarter == q && HasRatio(row) then [row.obs.sales / row.mmc4.value] else []
  }

  /** `arr.reduce((sum, r) => sum + r, 0)`. */
  function SumOf(xs: seq<real>): real
  {
    if xs == [] then 0.0 else SumOf(xs[..|xs| - 1]) + xs[|xs| - 1]
  }

  function Mean(xs: seq<real>): real
    requires |xs| > 0
  {
    SumOf(xs) / |xs| as real
  }

  /** The `ratios` dictionary: every quarter's list of ratios. */
  function RatioLists(rows: seq<MovingAverageRow>): map<Quarter, seq<real>>
  {
    map q | q in Quarters :: RatiosOf(rows, q)
  }

  /** The mean of every non-empty list: the seasonal indices before correction. */
  function MeanIndices(ratios: map<Quarter, seq<real>>): map<Quarter, real>
  {
    map q | q in ratios && |ratios[q]| > 0 :: Mean(ratios[q])
  }

  /** The raw seasonal indices of a moving-average table. */
  function RawIndices(rows: seq<MovingAverageRow>): map<Quarter, real>
  {
    MeanIndices(RatioLists(rows))
  }

  /** The product of the indices of the quarters in `qs` present in `m` (absent ones count as 1). */
  function IndexProduct(m: map<Quarter, real>, qs: seq<Quarter>): real
  {
    if qs == [] then 1.0
    else
      var q := qs[|qs| - 1];
      IndexProduct(m, qs[..|qs| - 1]) * (if q in m then m[q] else 1.0)
  }

  /** How many of the quarters in `qs` are present in `m`. */
  function Present(m: map<Quarter, real>, qs: seq<Quarter>): (k: nat)
    ensures k <= |qs|
  {
    if qs == [] then 0
    else Present(m, qs[..|qs| - 1]) + (if qs[|qs| - 1] in m then 1 else 0)
  }

  /** Every present index multiplied by `c`. */
  function Scale(m: map<Quarter, real>, c: real): (r: map<Quarter, real>)
    ensures r.Keys == m.Keys
    ensures forall q :: q in r ==> r[q] == m[q] * c
  {
    map q | q in m :: m[q] * c
  }

  function Pow(c: real, k: nat): real
  {
    if k == 0 then 1.0 else Pow(c, k - 1) * c
  }

  /** The object `calculateSeasonalCoefficients` returns. */
  datatype SeasonalResult = SeasonalResult(
    indices: map<Quarter, real>,
    ratios: map<Quarter, seq<real>>,
    correctionFactor: real,
    finalProduct: real)

  /**
   * The condition that `c` is `(1 / product)^(1/4)` for the raw indices of
   * the moving-average table of `data`.
   */
  ghost predicate IsCorrectionFactor(data: seq<Observation>, c: real)
  {
    Corrects(RawIndices(MovingAverageTable(data)), c)
  }

  /** `c` is positive and its fourth power times the product of the indices is 1. */
  ghost predicate Corrects(m: map<Quarter, real>, c: real)
  {
    c > 0.0 && Pow(c, 4) * IndexProduct(m, Quarters) == 1.0
  }

  // ---------------------------------------------------------------------------
  // The computation.

  /**
   * `calculateSeasonalCoefficients`: group the ratios by quarter, average
   * them, multiply the averages together, then scale every index by the
   * correction factor. The three steps are the three methods below.
   */
  method CalculateSeasonalCoefficients(data: seq<Observation>, correctionFactor: real) returns (result: SeasonalResult)
    requires IsCorrectionFactor(data, correctionFactor)
    ensures result.ratios == RatioLists(MovingAverageTable(data))
    ensures result.indices == Scale(RawIndices(MovingAverageTable(data)), correctionFactor)
    ensures result.correctionFactor == correctionFactor
    ensures result.finalProduct == IndexProduct(result.indices, Quarters)
  {
    var movingAvgData := CalculateMovingAverage(data);
    var ratios := GroupRatios(movingAvgData);
    var seasonalIndices, productOfIndices := AverageRatios(ratios);
    seasonalIndices := ApplyCorrection(seasonalIndices, correctionFactor);
    var finalProduct := IndexProduct(seasonalIndices, Quarters);
    result := SeasonalResult(seasonalIndices, ratios, correctionFactor, finalProduct);
  }

  /** Step 1: push `sales / mmc4` of every row with a positive `mmc4` onto its quarter's list. */
  method GroupRatios(movingAvgData: seq<MovingAverageRow>) returns (ratios: map<Quarter, seq<real>>)
    ensures forall q :: q in ratios
    ensures ratios == RatioLists(movingAvgData)
  {
    ratios := map[T1 := [], T2 := [], T3 := [], T4 := []];
    var i := 0;
    assert movingAvgData[..0] == [];
    assert forall q :: q in ratios && ratios[q] == [] by {
      forall q: Quarter
        ensures q in ratios && ratios[q] == []
      {
        assert Quarters[Ordinal(q)] == q;
      }
    }
    while i < |movingAvgData|
      invariant 0 <= i <= |movingAvgData|
      invariant forall q :: q in ratios && ratios[q] == RatiosOf(movingAvgData[..i], q)
    {
      var d := movingAvgData[i];
      ghost var before := ratios;
      if d.mmc4.Some? && d.mmc4.value > 0.0 {
        var ratio := d.obs.sales / d.mmc4.value;
        ratios := ratios[d.obs.quarter := ratios[d.obs.quarter] + [ratio]];
      }
      forall q: Quarter
        ensures q in ratios && ratios[q] == RatiosOf(movingAvgData[..i + 1], q)
      {
        RatiosExtend(movingAvgData, i, q);
        if q == d.obs.quarter && HasRatio(d) {
          assert ratios[q] == before[q] + [d.obs.sales / d.mmc4.value];
        } else {
          assert ratios[q] == before[q];
        }
      }
      i := i + 1;
    }
    assert movingAvgData[..i] == movingAvgData;
    forall q | q in RatioLists(movingAvgData)
      ensures ratios[q] == RatioLists(movingAvgData)[q]
    {
    }
    assert forall q :: q in RatioLists(movingAvgData) by {
      forall q: Quarter
        ensures q in RatioLists(movingAvgData)
      {
        assert Quarters[Ordinal(q)] == q;
      }
    }
  }

  /**
   * Step 2: in the order T1 .. T4, the mean ratio of every quarter with a
   * non-empty list becomes its index and joins the product.
   */
  method AverageRatios(ratios: map<Quarter, seq<real>>) returns (seasonalIndices: map<Quarter, real>, productOfIndices: real)
    requires forall q :: q in ratios
    ensures seasonalIndices == MeanIndices(ratios)
    ensures productOfIndices == IndexProduct(MeanIndices(ratios), Quarters)
  {
    ghost var raw := MeanIndices(ratios);
    seasonalIndices := map[];
    productOfIndices := 1.0;
    var j := 0;
    assert Quarters[..0] == [];
    PrefixEmpty(raw);
    while j < |Quarters|
      invariant 0 <= j <= |Quarters|
      invariant seasonalIndices == Prefix(raw, j)
      invariant productOfIndices == IndexProduct(raw, Quarters[..j])
    {
      seasonalIndices, productOfIndices := AverageQuarter(ratios, j, seasonalIndices, productOfIndices);
      j := j + 1;
    }
    assert Quarters[..j] == Quarters;
    PrefixFull(raw);
  }

  /** The body of step 2 for the quarter of ordinal `j`. */
  method AverageQuarter(ratios: map<Quarter, seq<real>>, j: int, seasonalIndices: map<Quarter, real>, productOfIndices: real)
    returns (seasonalIndices': map<Quarter, real>, productOfIndices': real)
    requires 0 <= j < |Quarters| && forall q :: q in ratios
    requires seasonalIndices == Prefix(MeanIndices(ratios), j)
    requires productOfIndices == IndexProduct(MeanIndices(ratios), Quarters[..j])
    ensures seasonalIndices' == Prefix(MeanIndices(ratios), j + 1)
    ensures productOfIndices' == IndexProduct(MeanIndices(ratios), Quarters[..j + 1])
  {
    var quarter := Quarters[j];
    if |ratios[quarter]| > 0 {
      var avgRatio := Mean(ratios[quarter]);
      IndicesStepPresent(ratios, j, seasonalIndices);
      ProductStepPresent(ratios, j, productOfIndices);
      seasonalIndices' := seasonalIndices[quarter := avgRatio];
      productOfIndices' := productOfIndices * avgRatio;
    } else {
      IndicesStepAbsent(ratios, j, seasonalIndices);
      ProductStepAbsent(ratios, j, productOfIndices);
      seasonalIndices', productOfIndices' := seasonalIndices, productOfIndices;
    }
  }

  /** A quarter with a non-empty list gets the mean of that list as its index ... */
  lemma IndicesStepPresent(ratios: map<Quarter, seq<real>>, j: int, seasonalIndices: map<Quarter, real>)
    requires 0 <= j < |Quarters| && forall q :: q in ratios
    requires |ratios[Quarters[j]]| > 0
    requires seasonalIndices == Prefix(MeanIndices(ratios), j)
    ensures seasonalIndices[Quarters[j] := Mean(ratios[Quarters[j]])] == Prefix(MeanIndices(ratios), j + 1)
  {
    PrefixGrows(MeanIndices(ratios), j, Mean(ratios[Quarters[j]]));
  }

  /** ... which joins the product, ... */
  lemma ProductStepPresent(ratios: map<Quarter, seq<real>>, j: int, productOfIndices: real)
    requires 0 <= j < |Quarters| && forall q :: q in ratios
    requires |ratios[Quarters[j]]| > 0
    requires productOfIndices == IndexProduct(MeanIndices(ratios), Quarters[..j])
    ensures productOfIndices * Mean(ratios[Quarters[j]]) == IndexProduct(MeanIndices(ratios), Quarters[..j + 1])
  {
    var raw, x := MeanIndices(ratios), Mean(ratios[Quarters[j]]);
    ProductPrefixPresent(raw, j, x);
    MultiplyBoth(productOfIndices, IndexProduct(raw, Quarters[..j]), x, IndexProduct(raw, Quarters[..j + 1]));
  }

  /** ... while a quarter with an empty list gets no index ... */
  lemma IndicesStepAbsent(ratios: map<Quarter, seq<real>>, j: int, seasonalIndices: map<Quarter, real>)
    requires 0 <= j < |Quarters| && forall q :: q in ratios
    requires |ratios[Quarters[j]]| == 0
    requires seasonalIndices == Prefix(MeanIndices(ratios), j)
    ensures seasonalIndices == Prefix(MeanIndices(ratios), j + 1)
  {
    PrefixSkips(MeanIndices(ratios), j);
  }

  /** ... and leaves the product unchanged. */
  lemma ProductStepAbsent(ratios: map<Quarter, seq<real>>, j: int, productOfIndices: real)
    requires 0 <= j < |Quarters| && forall q :: q in ratios
    requires |ratios[Quarters[j]]| == 0
    requires productOfIndices == IndexProduct(MeanIndices(ratios), Quarters[..j])
    ensures productOfIndices == IndexProduct(MeanIndices(ratios), Quarters[..j + 1])
  {
    ProductPrefixAbsent(MeanIndices(ratios), j);
  }

  /** Step 3: `seasonalIndices[quarter] *= correctionFactor` for every key. */
  method ApplyCorrection(indices: map<Quarter, real>, correctionFactor: real) returns (seasonalIndices: map<Quarter, real>)
    ensures seasonalIndices == Scale(indices, correctionFactor)
  {
    seasonalIndices := indices;
    var j := 0;
    while j < |Quarters|
      invariant 0 <= j <= |Quarters|
      invariant seasonalIndices.Keys == indices.Keys
      invariant forall q :: q in indices ==> seasonalIndices[q] == if Ordinal(q) < j then indices[q] * correctionFactor else indices[q]
    {
      var quarter := Quarters[j];
      OrdinalOf(j);
      if quarter in seasonalIndices {
        seasonalIndices := seasonalIndices[quarter := seasonalIndices[quarter] * correctionFactor];
      }
      j := j + 1;
    }
    SameMaps(seasonalIndices, Scale(indices, correctionFactor));
  }

  /** `Quarters[j]` is the quarter of ordinal `j`, and no other quarter has that ordinal. */
  lemma OrdinalOf(j: int)
    requires 0 <= j < |Quarters|
    ensures Ordinal(Quarters[j]) == j
    ensures forall q :: q != Quarters[j] ==> Ordinal(q) != j
  {
  }

  /** One more quarter of the enumeration multiplies the product by its index when it has one ... */
  lemma ProductPrefixPresent(m: map<Quarter, real>, j: int, x: real)
    requires 0 <= j < |Quarters| && Quarters[j] in m && m[Quarters[j]] == x
    ensures IndexProduct(m, Quarters[..j + 1]) == IndexProduct(m, Quarters[..j]) * x
  {
    assert Quarters[..j + 1][..j] == Quarters[..j];
  }

  /** ... and leaves it unchanged when it has none. */
  lemma ProductPrefixAbsent(m: map<Quarter, real>, j: int)
    requires 0 <= j < |Quarters| && Quarters[j] !in m
    ensures IndexProduct(m, Quarters[..j + 1]) == IndexProduct(m, Quarters[..j])
  {
    assert Quarters[..j + 1][..j] == Quarters[..j];
  }

  /** The entries of `m` for the first `j` quarters of the enumeration. */
  ghost function Prefix(m: map<Quarter, real>, j: int): map<Quarter, real>
  {
    map q | q in m && Ordinal(q) < j :: m[q]
  }

  lemma PrefixEmpty(m: map<Quarter, real>)
    ensures Prefix(m, 0) == map[]
  {
  }

  lemma PrefixFull(m: map<Quarter, real>)
    ensures Prefix(m, |Quarters|) == m
  {
  }

  lemma PrefixGrows(m: map<Quarter, real>, j: int, x: real)
    requires 0 <= j < |Quarters| && Quarters[j] in m && m[Quarters[j]] == x
    ensures Prefix(m, j + 1) == Prefix(m, j)[Quarters[j] := x]
  {
    OrdinalOf(j);
  }

  lemma PrefixSkips(m: map<Quarter, real>, j: int)
    requires 0 <= j < |Quarters| && Quarters[j] !in m
    ensures Prefix(m, j + 1) == Prefix(m, j)
  {
    OrdinalOf(j);
  }

  lemma MultiplyBoth(p: real, q: real, x: real, r: real)
    requires p == q && r == q * x
    ensures p * x == r
  {
  }

  lemma SameMaps(a: map<Quarter, real>, b: map<Quarter, real>)
    requires a.Keys == b.Keys && forall q :: q in a ==> a[q] == b[q]
    ensures a == b
  {
  }

  // ---------------------------------------------------------------------------
  // Properties.

  /** The product of the scaled indices over `qs` is `c` to the number of present quarters times the product. */
  ghost predicate ScaledProductHolds(m: map<Quarter, real>, c: real, qs: seq<Quarter>)
  {
    IndexProduct(Scale(m, c), qs) == Pow(c, Present(m, qs)) * IndexProduct(m, qs)
  }

  /** Scaling the present indices by `c` scales their product by `c` per present quarter. */
  lemma {:induction false} ScaledProduct(m: map<Quarter, real>, c: real, qs: seq<Quarter>)
    ensures ScaledProductHolds(m, c, qs)
  {
    if qs != [] {
      ScaledProduct(m, c, qs[..|qs| - 1]);
      if qs[|qs| - 1] in m {
        ScaledProductPresent(m, c, qs);
      } else {
        ScaledProductAbsent(m, c, qs);
      }
    }
  }

  lemma {:induction false} ScaledProductPresent(m: map<Quarter, real>, c: real, qs: seq<Quarter>)
    requires qs != [] && qs[|qs| - 1] in m
    requires ScaledProductHolds(m, c, qs[..|qs| - 1])
    ensures ScaledProductHolds(m, c, qs)
  {
    var init, q := qs[..|qs| - 1], qs[|qs| - 1];
    var k := Present(m, init);
    assert Present(m, qs) == k + 1;
    assert Scale(m, c)[q] == m[q] * c;
    ScaleStep(IndexProduct(Scale(m, c), qs), IndexProduct(Scale(m, c), init), Pow(c, k), Pow(c, k + 1),
              IndexProduct(m, init), IndexProduct(m, qs), m[q], c);
  }

  lemma {:induction false} ScaledProductAbsent(m: map<Quarter, real>, c: real, qs: seq<Quarter>)
    requires qs != [] && qs[|qs| - 1] !in m
    requires ScaledProductHolds(m, c, qs[..|qs| - 1])
    ensures ScaledProductHolds(m, c, qs)
  {
    var init := qs[..|qs| - 1];
    assert Present(m, qs) == Present(m, init);
    assert qs[|qs| - 1] !in Scale(m, c);
    assert IndexProduct(Scale(m, c), qs) == IndexProduct(Scale(m, c), init);
    assert IndexProduct(m, qs) == IndexProduct(m, init);
  }

  /** Only the quarters with at least one ratio get a raw index. */
  lemma RawIndexPresent(rows: seq<MovingAverageRow>, q: Quarter)
    ensures q in RawIndices(rows) <==> |RatiosOf(rows, q)| > 0
    ensures q in RawIndices(rows) ==> RawIndices(rows)[q] == Mean(RatiosOf(rows, q))
  {
    assert Quarters[Ordinal(q)] == q;
  }

  lemma ScaleStep(lhs: real, lhsInit: real, pw: real, pw': real, p: real, p': real, x: real, c: real)
    requires lhs == lhsInit * (x * c) && lhsInit == pw * p
    requires pw' == pw * c && p' == p * x
    ensures lhs == pw' * p'
  {
    assert lhs == (pw * c) * (p * x);
  }

  /** A sum of positive values is positive (when there is at least one). */
  lemma {:induction false} SumOfPositive(xs: seq<real>)
    requires |xs| > 0 && forall k :: 0 <= k < |xs| ==> xs[k] > 0.0
    ensures SumOf(xs) > 0.0
  {
    var init := xs[..|xs| - 1];
    if |init| > 0 {
      assert forall k :: 0 <= k < |init| ==> init[k] == xs[k];
      SumOfPositive(init);
    } else {
      assert SumOf(init) == 0.0;
    }
  }

  /** With positive sales, every raw index is positive. */
  lemma RawIndexPositive(rows: seq<MovingAverageRow>, q: Quarter)
    requires forall k :: 0 <= k < |rows| ==> rows[k].obs.sales > 0.0
    requires q in RawIndices(rows)
    ensures RawIndices(rows)[q] > 0.0
  {
    var xs := RatiosOf(rows, q);
    RawIndexPresent(rows, q);
    RatiosPositive(rows, q);
    SumOfPositive(xs);
    QuotientPositive(RawIndices(rows)[q], SumOf(xs), |xs| as real);
  }

  lemma QuotientPositive(v: real, x: real, n: real)
    requires x > 0.0 && n > 0.0 && v == x / n
    ensures v > 0.0
  {
  }

  /** A product of positive present indices is positive. */
  lemma {:induction false} IndexProductPositive(m: map<Quarter, real>, qs: seq<Quarter>)
    requires forall q :: q in m ==> m[q] > 0.0
    ensures IndexProduct(m, qs) > 0.0
  {
    if qs != [] {
      IndexProductPositive(m, qs[..|qs| - 1]);
      var p, q := IndexProduct(m, qs[..|qs| - 1]), qs[|qs| - 1];
      if q in m {
        assert p * m[q] > 0.0;
      }
    }
  }

  /** With positive sales the product of the raw indices is positive, so a correction factor exists. */
  lemma RawProductPositive(rows: seq<MovingAverageRow>)
    requires forall k :: 0 <= k < |rows| ==> rows[k].obs.sales > 0.0
    ensures IndexProduct(RawIndices(rows), Quarters) > 0.0
  {
    forall q | q in RawIndices(rows)
      ensures RawIndices(rows)[q] > 0.0
    {
      RawIndexPositive(rows, q);
    }
    IndexProductPositive(RawIndices(rows), Quarters);
  }

  /** With all four quarters present, the corrected indices multiply to exactly 1. */
  lemma {:induction false} NormalizedProduct(data: seq<Observation>, c: real)
    requires IsCorrectionFactor(data, c)
    requires forall q :: q in RawIndices(MovingAverageTable(data))
    ensures IndexProduct(Scale(RawIndices(MovingAverageTable(data)), c), Quarters) == 1.0
  {
    NormalizedIndices(RawIndices(MovingAverageTable(data)), c);
  }

  /** Scaling four present indices by a fourth root of their inverse product makes them multiply to 1. */
  lemma {:induction false} NormalizedIndices(m: map<Quarter, real>, c: real)
    requires forall q :: q in m
    requires Corrects(m, c)
    ensures IndexProduct(Scale(m, c), Quarters) == 1.0
  {
    ScaledProduct(m, c, Quarters);
    AllPresent(m);
  }

  lemma AllPresent(m: map<Quarter, real>)
    requires forall q :: q in m
    ensures Present(m, Quarters) == 4
  {
    assert Quarters[..3] == [T1, T2, T3] && [T1, T2, T3][..2] == [T1, T2] && [T1, T2][..1] == [T1];
    assert T1 in m && T2 in m && T3 in m && T4 in m;
    assert Present(m, []) == 0;
    assert Present(m, [T1]) == 1;
    assert Present(m, [T1, T2]) == 2;
    assert Present(m, [T1, T2, T3]) == 3;
  }

  /** Multiplying by the same positive factor keeps the ranking of the quarters. */
  lemma ScalePreservesOrder(m: map<Quarter, real>, c: real, p: Quarter, q: Quarter)
    requires c > 0.0 && p in m && q in m
    ensures m[p] < m[q] <==> Scale(m, c)[p] < Scale(m, c)[q]
    ensures m[p] == m[q] <==> Scale(m, c)[p] == Scale(m, c)[q]
  {
    assert Scale(m, c)[p] == m[p] * c && Scale(m, c)[q] == m[q] * c;
    if m[p] < m[q] {
      assert m[p] * c < m[q] * c;
    } else if m[q] < m[p] {
      assert m[q] * c < m[p] * c;
    }
  }

  /** Every ratio formed from positive sales is positive. */
  lemma {:induction false} RatiosPositive(rows: seq<MovingAverageRow>, q: Quarter)
    requires forall k :: 0 <= k < |rows| ==> rows[k].obs.sales > 0.0
    ensures forall k :: 0 <= k < |RatiosOf(rows, q)| ==> RatiosOf(rows, q)[k] > 0.0
  {
    if rows != [] {
      RatiosPositive(rows[..|rows| - 1], q);
    }
  }

  /** Each ratio of quarter `q` comes from a row of quarter `q` with a positive `mmc4`. */
  lemma {:induction false} RatiosComeFromRows(rows: seq<MovingAverageRow>, q: Quarter, x: real)
    requires x in RatiosOf(rows, q)
    ensures exists k :: 0 <= k < |rows| && rows[k].obs.quarter == q && HasRatio(rows[k]) && x == rows[k].obs.sales / rows[k].mmc4.value
  {
    var init, last := rows[..|rows| - 1], rows[|rows| - 1];
    if x in RatiosOf(init, q) {
      RatiosComeFromRows(init, q, x);
      var k :| 0 <= k < |init| && init[k].obs.quarter == q && HasRatio(init[k]) && x == init[k].obs.sales / init[k].mmc4.value;
      assert rows[k] == init[k];
    } else {
      assert x == last.obs.sales / last.mmc4.value;
    }
  }

  /** ... and every such row contributes its ratio. */
  lemma {:induction false} RowsGiveRatios(rows: seq<MovingAverageRow>, q: Quarter, k: int)
    requires 0 <= k < |rows| && rows[k].obs.quarter == q && HasRatio(rows[k])
    ensures rows[k].obs.sales / rows[k].mmc4.value in RatiosOf(rows, q)
  {
    var init := rows[..|rows| - 1];
    if k < |rows| - 1 {
      assert init[k] == rows[k];
      RowsGiveRatios(init, q, k);
    }
  }

  /** A quarter with no ratio neither gets an index nor changes the product. */
  lemma {:induction false} AbsentQuarterIgnored(m: map<Quarter, real>, q: Quarter, qs: seq<Quarter>)
    requires q !in m
    ensures IndexProduct(m, qs) == IndexProduct(m[q := 1.0], qs)
  {
    if qs != [] {
      AbsentQuarterIgnored(m, q, qs[..|qs| - 1]);
    }
  }

  /** How many rows i < j lie in the `mmc4` window 1 <= i <= n - 4 and sit at position k of the cycle. */
  function WindowCount(j: nat, n: int, k: int): nat
  {
    if j == 0 then 0
    else WindowCount(j - 1, n, k) + (if 1 <= j - 1 <= n - 4 && (j - 1) % 4 == k then 1 else 0)
  }

  /**
   * On a consecutive series whose sales are all at least 1, quarter q receives
   * one ratio per row of the `mmc4` window that carries quarter q.
   */
  lemma {:induction false} RatioCount(data: seq<Observation>, q: Quarter, j: int)
    requires Consecutive(data) && forall k :: 0 <= k < |data| ==> data[k].sales >= 1.0
    requires 0 <= j <= |data|
    ensures |RatiosOf(MovingAverageTable(data)[..j], q)| == WindowCount(j, |data|, Ordinal(q))
  {
    var table := MovingAverageTable(data);
    forall i | 0 <= i < |table|
      ensures (table[i].obs.quarter == q && HasRatio(table[i])) <==> (1 <= i <= |data| - 4 && i % 4 == Ordinal(q))
    {
      LastRowCounts(data, q, i);
    }
    CountContributing(table, q, |data|, Ordinal(q), j);
  }

  /**
   * When exactly the rows i with 1 <= i <= n - 4 and i mod 4 = k contribute to
   * quarter q, the first j rows give q `WindowCount(j, n, k)` ratios.
   */
  lemma {:induction false} CountContributing(rows: seq<MovingAverageRow>, q: Quarter, n: int, k: int, j: int)
    requires 0 <= j <= |rows|
    requires forall i :: 0 <= i < |rows| ==> ((rows[i].obs.quarter == q && HasRatio(rows[i])) <==> (1 <= i <= n - 4 && i % 4 == k))
    ensures |RatiosOf(rows[..j], q)| == WindowCount(j, n, k)
  {
    if j > 0 {
      CountContributing(rows, q, n, k, j - 1);
      RatiosStep(rows, q, j);
    }
  }

  /** Extending the rows by row j - 1 adds one ratio exactly when that row contributes to q. */
  lemma RatiosStep(rows: seq<MovingAverageRow>, q: Quarter, j: int)
    requires 0 < j <= |rows|
    ensures |RatiosOf(rows[..j], q)| == |RatiosOf(rows[..j - 1], q)|
      + (if rows[j - 1].obs.quarter == q && HasRatio(rows[j - 1]) then 1 else 0)
  {
    assert rows[..j][..j - 1] == rows[..j - 1];
  }

  /** One more row appends its ratio to the list of its quarter, if it contributes one. */
  lemma RatiosExtend(rows: seq<MovingAverageRow>, j: int, q: Quarter)
    requires 0 <= j < |rows|
    ensures RatiosOf(rows[..j + 1], q) == RatiosOf(rows[..j], q) + Contribution(rows[j], q)
  {
    assert rows[..j + 1][..j] == rows[..j];
  }

  /** Rows that contribute nothing to quarter `q` leave its list as it is. */
  lemma {:induction false} RatiosUnchanged(rows: seq<MovingAverageRow>, q: Quarter, i: int, j: int)
    requires 0 <= i <= j <= |rows|
    requires forall k :: i <= k < j ==> Contribution(rows[k], q) == []
    ensures RatiosOf(rows[..j], q) == RatiosOf(rows[..i], q)
  {
    if j > i {
      RatiosUnchanged(rows, q, i, j - 1);
      RatiosExtend(rows, j - 1, q);
    }
  }

  /** The contribution of a row of `q` whose sales are `s` and whose `mmc4` is `m > 0`. */
  lemma ContributionOf(row: MovingAverageRow, q: Quarter, s: real, m: real)
    requires row.obs.quarter == q && row.obs.sales == s && row.mmc4.Some? && row.mmc4.value == m && m > 0.0
    ensures Contribution(row, q) == [s / m]
  {
  }

  /** A list made of the ratios x, y and z of rows a, a + 4 and a + 8 gives the index (x + y + z) / 3. */
  lemma RawIndexOfThree(rows: seq<MovingAverageRow>, q: Quarter, a: int, x: real, y: real, z: real)
    requires 0 <= a && a + 8 < |rows|
    requires RatiosOf(rows, q) == Contribution(rows[a], q) + Contribution(rows[a + 4], q) + Contribution(rows[a + 8], q)
    requires Contribution(rows[a], q) == [x] && Contribution(rows[a + 4], q) == [y] && Contribution(rows[a + 8], q) == [z]
    ensures q in RawIndices(rows) && RawIndices(rows)[q] == (x + y + z) / 3.0
  {
    assert RatiosOf(rows, q) == [x, y, z];
    RawIndexPresent(rows, q);
    MeanOfThree(x, y, z);
  }

  /** The mean of three ratios. */
  lemma MeanOfThree(x: real, y: real, z: real)
    ensures Mean([x, y, z]) == (x + y + z) / 3.0
  {
    assert SumOf([x]) == x by { assert [x][..0] == []; }
    assert SumOf([x, y]) == x + y by { assert [x, y][..1] == [x]; }
    assert SumOf([x, y, z]) == x + y + z by { assert [x, y, z][..2] == [x, y]; }
  }

  /** Row i contributes a ratio to quarter q exactly when it is in the window and carries q. */
  lemma LastRowCounts(data: seq<Observation>, q: Quarter, i: int)
    requires Consecutive(data) && forall k :: 0 <= k < |data| ==> data[k].sales >= 1.0
    requires 0 <= i < |data|
    ensures (MovingAverageTable(data)[i].obs.quarter == q && HasRatio(MovingAverageTable(data)[i]))
        <==> (1 <= i <= |data| - 4 && i % 4 == Ordinal(q))
  {
    var row := MovingAverageTable(data)[i];
    assert row.obs == data[i];
    assert row.obs.quarter == q <==> i % 4 == Ordinal(q) by {
      assert row.obs.quarter == Quarters[i % 4];
    }
    Mmc4Defined(data, i);
    if row.mmc4.Some? {
      CenteredPositive(data, i);
    }
  }
}

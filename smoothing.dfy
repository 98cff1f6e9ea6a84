/**
 * The 4-term moving average `mm4` and its centred average `mmc4`
 * (app/page.tsx lines 74-110), with the indexing exactly as the page writes it:
 * `mm4` at 0-based row i averages rows i-1 .. i+2, and `mmc4` at row i averages
 * `mm4[i]` and `mm4[i+1]`, so its window is rows i-1 .. i+3.
 */
module Smoothing {
  import opened Optional
  import opened Series
  import opened Rounding

  /** A row of the moving-average table: the observation and its two averages. */
  datatype MovingAverageRow = MovingAverageRow(obs: Observation, mm4: Option<real>, mmc4: Option<real>)

  /** The exact mean of sales over rows i-1 .. i+2. */
  function Mean4(data: seq<Observation>, i: int): real
    requires 1 <= i <= |data| - 3
  {
    (data[i - 1].sales + data[i].sales + data[i + 1].sales + data[i + 2].sales) / 4.0
  }

  /** The classical centred weighting 1/8, 1/4, 1/4, 1/4, 1/8 over rows i-1 .. i+3. */
  function CenteredMean(data: seq<Observation>, i: int): real
    requires 1 <= i <= |data| - 4
  {
    data[i - 1].sales / 8.0 + (data[i].sales + data[i + 1].sales + data[i + 2].sales) / 4.0 + data[i + 3].sales / 8.0
  }

  /** The `mm4` value the first loop stores at row i (null outside 1 <= i < n - 2). */
  function Mm4At(data: seq<Observation>, i: int): Option<real>
  {
    if 1 <= i < |data| - 2 then Some(Round2(Mean4(data, i))) else None
  }

  /** The `mmc4` value the second loop stores at row i. */
  function Mmc4At(data: seq<Observation>, i: int): Option<real>
  {
    if 0 < i < |data| - 1 && Mm4At(data, i).Some? && Mm4At(data, i + 1).Some?
    then Some(Round2((Mm4At(data, i).value + Mm4At(data, i + 1).value) / 2.0))
    else None
  }

  /** The table `calculateMovingAverage` returns, row by row. */
  function MovingAverageTable(data: seq<Observation>): (table: seq<MovingAverageRow>)
    ensures |table| == |data|
  {
    seq(|data|, i requires 0 <= i < |data| => MovingAverageRow(data[i], Mm4At(data, i), Mmc4At(data, i)))
  }

  /**
   * `calculateMovingAverage`: one loop pushes a row per observation with its
   * `mm4`, a second loop overwrites `mmc4` in place.
   */
  method CalculateMovingAverage(data: seq<Observation>) returns (result: seq<MovingAverageRow>)
    ensures result == MovingAverageTable(data)
    ensures |result| == |data|
    ensures forall i :: 0 <= i < |data| ==> result[i].obs == data[i]
  {
    result := [];
    var i := 0;
    while i < |data|
      invariant 0 <= i <= |data|
      invariant |result| == i
      invariant forall k :: 0 <= k < i ==> result[k] == MovingAverageRow(data[k], Mm4At(data, k), None)
    {
      if i >= 1 && i < |data| - 2 {
        var sum := data[i - 1].sales + data[i].sales + data[i + 1].sales + data[i + 2].sales;
        var mm4 := sum / 4.0;
        assert Mm4At(data, i) == Some(Round2(mm4));
        result := result + [MovingAverageRow(data[i], Some(Round2(mm4)), None)];
      } else {
        assert Mm4At(data, i) == None;
        result := result + [MovingAverageRow(data[i], None, None)];
      }
      i := i + 1;
    }
    ghost var pushed := result;
    i := 0;
    while i < |result|
      invariant 0 <= i <= |result| == |data| == |pushed|
      invariant forall k :: 0 <= k < |result| ==> result[k].obs == pushed[k].obs && result[k].mm4 == pushed[k].mm4
      invariant forall k :: 0 <= k < i ==> result[k].mmc4 == Mmc4At(data, k)
      invariant forall k :: i <= k < |result| ==> result[k].mmc4 == None
    {
      if i > 0 && i < |result| - 1 && result[i].mm4.Some? && result[i + 1].mm4.Some? {
        var mmc4 := (result[i].mm4.value + result[i + 1].mm4.value) / 2.0;
        assert Mmc4At(data, i) == Some(Round2(mmc4));
        result := result[i := result[i].(mmc4 := Some(Round2(mmc4)))];
      } else {
        assert Mmc4At(data, i) == None;
      }
      i := i + 1;
    }
  }

  /** `mm4` is present exactly on rows 1 .. n-3. */
  lemma Mm4Defined(data: seq<Observation>, i: int)
    ensures Mm4At(data, i).Some? <==> 1 <= i <= |data| - 3
  {
  }

  /** A present `mm4` lies within half a cent of the exact 4-term mean. */
  lemma Mm4Close(data: seq<Observation>, i: int)
    requires 1 <= i <= |data| - 3
    ensures Mean4(data, i) - 0.005 < Mm4At(data, i).value <= Mean4(data, i) + 0.005
  {
  }

  /** `mmc4` is present exactly on rows 1 .. n-4. */
  lemma Mmc4Defined(data: seq<Observation>, i: int)
    ensures Mmc4At(data, i).Some? <==> 1 <= i <= |data| - 4
  {
  }

  /** Two consecutive exact 4-term means average to the centred 5-term mean. */
  lemma CenteredIsMeanOfMeans(data: seq<Observation>, i: int)
    requires 1 <= i <= |data| - 4
    ensures (Mean4(data, i) + Mean4(data, i + 1)) / 2.0 == CenteredMean(data, i)
  {
  }

  /**
   * A present `mmc4`, built from the already rounded `mm4` values and rounded
   * again, lies within one cent of the centred mean over rows i-1 .. i+3.
   */
  lemma Mmc4Close(data: seq<Observation>, i: int)
    requires 1 <= i <= |data| - 4
    ensures CenteredMean(data, i) - 0.01 < Mmc4At(data, i).value <= CenteredMean(data, i) + 0.01
  {
    CenteredIsMeanOfMeans(data, i);
    Mm4Close(data, i);
    Mm4Close(data, i + 1);
  }

  /**
   * When neither rounding changes anything (both 4-term means and the centred
   * mean are whole numbers of cents), `mmc4` is exactly the centred mean.
   */
  lemma Mmc4Exact(data: seq<Observation>, i: int)
    requires 1 <= i <= |data| - 4
    requires HasTwoDecimals(Mean4(data, i)) && HasTwoDecimals(Mean4(data, i + 1)) && HasTwoDecimals(CenteredMean(data, i))
    ensures MovingAverageTable(data)[i].mmc4 == Some(CenteredMean(data, i))
  {
    Round2Exact(Mean4(data, i));
    Round2Exact(Mean4(data, i + 1));
    CenteredIsMeanOfMeans(data, i);
    Round2Exact(CenteredMean(data, i));
  }

  /** When every sales value is positive, so is every present average. */
  lemma AveragesPositive(data: seq<Observation>, i: int)
    requires forall k :: 0 <= k < |data| ==> data[k].sales > 0.0
    ensures Mm4At(data, i).Some? ==> Mm4At(data, i).value >= 0.0
    ensures Mmc4At(data, i).Some? ==> Mmc4At(data, i).value >= 0.0
  {
  }

  /**
   * With every sales value at least 1, a present `mmc4` is positive: the two
   * roundings cannot bring it down to 0.
   */
  lemma CenteredPositive(data: seq<Observation>, i: int)
    requires forall k :: 0 <= k < |data| ==> data[k].sales >= 1.0
    requires Mmc4At(data, i).Some?
    ensures Mmc4At(data, i).value > 0.0
  {
    Mmc4Defined(data, i);
    Mm4Close(data, i);
    Mm4Close(data, i + 1);
    assert Mean4(data, i) >= 1.0 && Mean4(data, i + 1) >= 1.0;
  }
}

/** The observed quarterly sales series (app/page.tsx lines 11-28). */
module Series {

  /** The quarter labels 'T1' .. 'T4'. */
  datatype Quarter = T1 | T2 | T3 | T4

  /** The order in which the page enumerates the per-quarter dictionaries. */
  const Quarters: seq<Quarter> := [T1, T2, T3, T4]

  /** The position of a quarter in `Quarters`. */
  function Ordinal(q: Quarter): (k: nat)
    ensures k < |Quarters| && Quarters[k] == q
  {
    match q
    case T1 => 0
    case T2 => 1
    case T3 => 2
    case T4 => 3
  }

  /** One row of the series: time index, year, quarter label and sales. */
  datatype Observation = Observation(t: int, year: int, quarter: Quarter, sales: real)

  /** The label `T${((t - 1) % 4) + 1}` of time index `t >= 1`. */
  function QuarterOf(t: int): (q: Quarter)
    requires t >= 1
    ensures q == Quarters[(t - 1) % 4]
  {
    match (t - 1) % 4
    case 0 => T1
    case 1 => T2
    case 2 => T3
    case _ => T4
  }

  /** The quarter label repeats every four time units. */
  lemma QuarterCycle(t: int)
    requires t >= 1
    ensures QuarterOf(t + 4) == QuarterOf(t)
  {
    assert (t + 4 - 1) % 4 == (t - 1) % 4;
  }

  /** The invariant of the series: t runs 1, 2, ..., n and the quarter cycles with it. */
  ghost predicate Consecutive(s: seq<Observation>)
  {
    forall i :: 0 <= i < |s| ==> s[i].t == i + 1 && s[i].quarter == QuarterOf(i + 1)
  }

  /** The sixteen quarters 2018-T1 .. 2021-T4 shown on the page. */
  const OriginalData: seq<Observation> := [
    Observation(1, 2018, T1, 5030.0),
    Observation(2, 2018, T2, 6030.0),
    Observation(3, 2018, T3, 7030.0),
    Observation(4, 2018, T4, 5780.0),
    Observation(5, 2019, T1, 5280.0),
    Observation(6, 2019, T2, 6780.0),
    Observation(7, 2019, T3, 7530.0),
    Observation(8, 2019, T4, 6530.0),
    Observation(9, 2020, T1, 5530.0),
    Observation(10, 2020, T2, 7280.0),
    Observation(11, 2020, T3, 8530.0),
    Observation(12, 2020, T4, 7030.0),
    Observation(13, 2021, T1, 6280.0),
    Observation(14, 2021, T2, 8280.0),
    Observation(15, 2021, T3, 9280.0),
    Observation(16, 2021, T4, 7780.0)
  ]
}

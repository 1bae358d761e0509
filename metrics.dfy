/**
 * The figures the home page derives from the first records of a series,
 * with JavaScript's `||` (0 and `null` are falsy) and its coercion of `null`
 * to 0 in a subtraction.
 */
module Metrics {
  import opened Wrappers
  import opened Series

  /** JavaScript's numeric value of a `number | null`: `null` counts as 0. */
  function Num(v: Option<int>): int {
    match v
    case None => 0
    case Some(n) => n
  }

  /** A value is truthy when it is a number other than 0. */
  predicate Truthy(v: Option<int>) {
    v.Some? && v.value != 0
  }

  /**
   * `populationData[0]?.value || null`: the latest value, or `null` when the
   * series is empty or that value is `null` or 0.
   */
  function TotalPopulation(points: seq<Point>): (total: Option<int>)
    ensures total.Some? <==> |points| > 0 && Truthy(points[0].value)
    ensures total.Some? ==> total == points[0].value && total.value != 0
  {
    if |points| > 0 && Truthy(points[0].value) then points[0].value else None
  }

  /**
   * `populationData[0]?.value - populationData[1]?.value || null`: with fewer
   * than two points the difference is NaN, hence `null`; otherwise the
   * difference of the two values (a `null` value counting as 0), or `null`
   * when that difference is 0.
   */
  function ChangeInPopulation(points: seq<Point>): (change: Option<int>)
    ensures change.Some? <==> |points| >= 2 && Num(points[0].value) != Num(points[1].value)
    ensures change.Some? ==> change.value == Num(points[0].value) - Num(points[1].value) != 0
  {
    if |points| < 2 then None
    else
      var difference := Num(points[0].value) - Num(points[1].value);
      if difference == 0 then None else Some(difference)
  }

  /**
   * A stored reading of the home page: `null` before any fetch, the string
   * "N/A" the code stores when the API has no figure, or a number.
   */
  datatype Reading = Null | NotAvailable | Number(n: int)

  /** `data[1][0]?.value || "N/A"`: the first record's value, or "N/A" when it is absent, `null` or 0. */
  function FirstReading(records: seq<Record>): (r: Reading)
    ensures r != Null
    ensures r.Number? <==> |records| > 0 && Truthy(records[0].value)
    ensures r.Number? ==> records[0].value == Some(r.n)
  {
    if |records| > 0 && Truthy(records[0].value) then Number(records[0].value.value) else NotAvailable
  }

  /**
   * When both of the first two values are present and non-zero, the change
   * is the difference of the latest total and the total one step earlier.
   */
  lemma ChangeIsDifferenceOfTotals(points: seq<Point>)
    requires |points| >= 2
    requires TotalPopulation(points).Some? && TotalPopulation(points[1..]).Some?
    ensures ChangeInPopulation(points).Some? <==> TotalPopulation(points) != TotalPopulation(points[1..])
    ensures ChangeInPopulation(points).Some? ==>
              ChangeInPopulation(points).value == TotalPopulation(points).value - TotalPopulation(points[1..]).value
  {
  }

  /**
   * A missing latest value is not a missing change: the subtraction reads
   * `null` as 0, so the change is the negated previous value.
   */
  lemma MissingLatestValue(points: seq<Point>, previous: int)
    requires |points| >= 2 && points[0].value == None && points[1].value == Some(previous) && previous != 0
    ensures TotalPopulation(points) == None
    ensures ChangeInPopulation(points) == Some(-previous)
  {
  }

  /** The total and the change agree with the raw records the series was normalised from. */
  lemma MetricsOfRecords(records: seq<Record>)
    ensures TotalPopulation(Normalise(records)).Some? <==> FirstReading(records).Number?
    ensures FirstReading(records).Number? ==> TotalPopulation(Normalise(records)) == Some(FirstReading(records).n)
    ensures ChangeInPopulation(Normalise(records)).Some? <==>
              |records| >= 2 && Num(records[0].value) != Num(records[1].value)
    ensures ChangeInPopulation(Normalise(records)).Some? ==>
              ChangeInPopulation(Normalise(records)).value == Num(records[0].value) - Num(records[1].value)
  {
  }

  /** The two figures for an empty series and for a two-year series of world population. */
  lemma DerivedExamples()
    ensures TotalPopulation([]) == None && ChangeInPopulation([]) == None
    ensures var s := [Point("2023", Some(8000000000)), Point("2022", Some(7900000000))];
            TotalPopulation(s) == Some(8000000000) && ChangeInPopulation(s) == Some(100000000)
  {
  }
}

/**
 * The records of the World Bank API's response (the second element of its
 * two-element envelope) and their normalisation into a `{year, value}` series.
 */
module Series {
  import opened Wrappers

  datatype Country = Country(id: string, value: string)

  /** One record of the response; `value` is `null` (None) when the API has no figure. */
  datatype Record = Record(date: string, value: Option<int>, country: Country)

  /** One point of the normalised series (`PopulationData`); the value is copied unfiltered. */
  datatype Point = Point(year: string, value: Option<int>)

  /** The `.map` that turns each record into `{ year: item.date, value: item.value }`. */
  function Normalise(records: seq<Record>): (points: seq<Point>)
    ensures |points| == |records|
    ensures forall i :: 0 <= i < |records| ==>
              points[i].year == records[i].date && points[i].value == records[i].value
  {
    if records == [] then []
    else [Point(records[0].date, records[0].value)] + Normalise(records[1..])
  }

  /** The years of a series, in series order. */
  function Years(points: seq<Point>): (years: seq<string>)
    ensures |years| == |points|
    ensures forall i :: 0 <= i < |points| ==> years[i] == points[i].year
  {
    if points == [] then [] else [points[0].year] + Years(points[1..])
  }

  /**
   * Normalising a concatenation normalises each part: the series keeps the
   * records' order and drops none of them.
   */
  lemma NormaliseAppend(a: seq<Record>, b: seq<Record>)
    ensures Normalise(a + b) == Normalise(a) + Normalise(b)
  {
  }
}

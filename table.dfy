/**
 * The rows of the population table for one year: one row per record of the
 * response, with the country's name, its population and three fixed
 * placeholder columns.
 */
module Table {
  import opened Wrappers
  import opened Series

  /** A decimal constant `units * 10^-scale`, kept as written; no arithmetic is done on it. */
  datatype Scaled = Scaled(units: int, scale: nat)

  const PlaceholderDensity := 100
  const PlaceholderGrowthRate := Scaled(15, 1)   // 1.5
  const PlaceholderLifeExpectancy := 70

  datatype TableRow = TableRow(
    country: string,
    population: Option<int>,
    density: int,
    growthRate: Scaled,
    lifeExpectancy: int)

  /** The placeholder-filled row a record becomes. */
  predicate IsRowOf(row: TableRow, r: Record) {
    && row.country == r.country.value
    && row.population == r.value
    && row.density == PlaceholderDensity
    && row.growthRate == PlaceholderGrowthRate
    && row.lifeExpectancy == PlaceholderLifeExpectancy
  }

  /** The `.map` that builds `tableData`: exactly one row per record, in record order. */
  function TableRows(records: seq<Record>): (rows: seq<TableRow>)
    ensures |rows| == |records|
    ensures forall i :: 0 <= i < |records| ==> IsRowOf(rows[i], records[i])
  {
    if records == [] then []
    else
      [TableRow(records[0].country.value, records[0].value,
                PlaceholderDensity, PlaceholderGrowthRate, PlaceholderLifeExpectancy)]
      + TableRows(records[1..])
  }

  /** The `.map` that builds `availableYears`: each record's `date`, in record order. */
  function AvailableYears(records: seq<Record>): (years: seq<string>)
    ensures |years| == |records|
    ensures forall i :: 0 <= i < |records| ==> years[i] == records[i].date
  {
    if records == [] then [] else [records[0].date] + AvailableYears(records[1..])
  }

  /**
   * The table's year list is the year list of the normalised series, and
   * its i-th row sits beside the i-th year: row and year come from the
   * same record, with the same value.
   */
  lemma TableMatchesSeries(records: seq<Record>)
    ensures AvailableYears(records) == Years(Normalise(records))
    ensures |TableRows(records)| == |AvailableYears(records)|
    ensures forall i :: 0 <= i < |records| ==> TableRows(records)[i].population == Normalise(records)[i].value
  {
  }
}

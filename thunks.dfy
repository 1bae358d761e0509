/**
 * The three async thunks with their network calls made a parameter: each
 * takes `respond`, which stands for `fetch` followed by `response.json()`
 * and gives the response's `ok` flag and the record array of its envelope.
 * A thunk's result is its fulfilled payload; a `Failure` is the message of
 * the `Error` it throws.
 */
module Thunks {
  import opened Wrappers
  import opened Decimal
  import opened Indicators
  import opened Series
  import opened Metrics
  import opened Table

  const CurrentYear := 2023
  const EarliestYear := 1960
  const InvalidRangeMessage := "Invalid year range"
  const FetchFailedMessage := "Failed to fetch data from API"

  /** The `timeRange` argument: a number of years, or NaN. */
  datatype TimeRange = NotANumber | Span(years: int)

  /** What a request asks the API for: an indicator code and the `date` query. */
  datatype Request = Request(indicator: string, date: string)

  /** The response's `ok` flag and the records in the second element of its body. */
  datatype Response = Response(ok: bool, records: seq<Record>)

  // ---------------------------------------------------------------- year range

  /**
   * `startYear = currentYear - timeRange`, rejected when it is NaN or
   * before 1960. A start after the current year is not rejected.
   */
  function CheckYearRange(t: TimeRange): (r: Result<nat, string>)
    ensures r.Success? <==> t.Span? && CurrentYear - t.years >= EarliestYear
    ensures r.Success? ==> r.value == CurrentYear - t.years
    ensures r.Failure? ==> r.error == InvalidRangeMessage
  {
    match t
    case NotANumber => Failure(InvalidRangeMessage)
    case Span(years) =>
      var startYear := CurrentYear - years;
      if startYear < EarliestYear then Failure(InvalidRangeMessage) else Success(startYear)
  }

  /**
   * The `date` query `${startYear}:${currentYear}`: the digits of the start,
   * then the only ':' of the query, then the digits of the end.
   */
  function DateRange(startYear: nat, endYear: nat): (q: string)
    ensures var k := |DecimalString(startYear)|;
            && k < |q| && q[k] == ':'
            && q[..k] == DecimalString(startYear) && q[k + 1..] == DecimalString(endYear)
            && ColonIndex(q) == k
  {
    ColonAfterDigits(DecimalString(startYear), DecimalString(endYear));
    DecimalString(startYear) + ":" + DecimalString(endYear)
  }

  /** The position of the first ':' in s, or |s| if there is none. */
  function ColonIndex(s: string): (k: nat)
    ensures k <= |s|
    ensures k < |s| ==> s[k] == ':'
    ensures forall j :: 0 <= j < k ==> s[j] != ':'
  {
    if s == [] then 0 else if s[0] == ':' then 0 else 1 + ColonIndex(s[1..])
  }

  /** Reads a `date` query of the form `<digits>:<digits>` back into its two years. */
  function ParseDateRange(q: string): Option<(nat, nat)> {
    var k := ColonIndex(q);
    if k == |q| then None
    else
      var first, second := q[..k], q[k + 1..];
      if |first| > 0 && |second| > 0 && IsDigits(first) && IsDigits(second)
      then Some((DecimalValue(first), DecimalValue(second)))
      else None
  }

  lemma {:induction false} ColonAfterDigits(digits: string, rest: string)
    requires IsDigits(digits)
    ensures ColonIndex(digits + ":" + rest) == |digits|
  {
    if digits != [] {
      assert (digits + ":" + rest)[1..] == digits[1..] + ":" + rest;
      ColonAfterDigits(digits[1..], rest);
    }
  }

  /** The `date` query names exactly the two years it was built from. */
  lemma DateRangeRoundTrip(startYear: nat, endYear: nat)
    ensures ParseDateRange(DateRange(startYear, endYear)) == Some((startYear, endYear))
  {
    var a, b := DecimalString(startYear), DecimalString(endYear);
    var q := DateRange(startYear, endYear);
    ColonAfterDigits(a, b);
    assert q[..|a|] == a;
    assert q[|a| + 1..] == b;
    DecimalRoundTrip(startYear);
    DecimalRoundTrip(endYear);
  }

  // ---------------------------------------------------------------- fetchPopulationData

  /**
   * Everything `fetchPopulationData` does before its `fetch`: map the option
   * to a code, check the range, build the `date` query.
   */
  function PopulationRequest(selected: string, t: TimeRange): (r: Result<Request, string>)
    ensures r.Success? <==> t.Span? && CurrentYear - t.years >= EarliestYear
    ensures r.Failure? ==> r.error == InvalidRangeMessage
    ensures r.Success? ==> r.value.indicator == IndicatorCode(selected)
    ensures r.Success? ==> r.value.date == DateRange(CurrentYear - t.years, CurrentYear)
  {
    match CheckYearRange(t)
    case Failure(e) => Failure(e)
    case Success(startYear) =>
      Success(Request(IndicatorCode(selected), DateRange(startYear, CurrentYear)))
  }

  /** The query of a population request names exactly the start year and 2023. */
  lemma PopulationQueryNamesYears(selected: string, t: TimeRange)
    requires PopulationRequest(selected, t).Success?
    ensures ParseDateRange(PopulationRequest(selected, t).value.date) == Some((CurrentYear - t.years, CurrentYear))
  {
    DateRangeRoundTrip(CurrentYear - t.years, CurrentYear);
  }

  /**
   * `fetchPopulationData`: rejected with "Invalid year range" when the range
   * is invalid; otherwise rejected with "Failed to fetch data from API" when
   * the response is not ok, and fulfilled with the normalised records when it is.
   */
  function FetchPopulationData(selected: string, t: TimeRange, respond: Request -> Response)
    : (r: Result<seq<Point>, string>)
    ensures PopulationRequest(selected, t).Failure? ==> r == Failure(InvalidRangeMessage)
    ensures PopulationRequest(selected, t).Success? ==>
              var response := respond(PopulationRequest(selected, t).value);
              && (r.Failure? <==> !response.ok)
              && (r.Failure? ==> r.error == FetchFailedMessage)
              && (r.Success? ==> r.value == Normalise(response.records))
  {
    match PopulationRequest(selected, t)
    case Failure(e) => Failure(e)
    case Success(request) =>
      var response := respond(request);
      if !response.ok then Failure(FetchFailedMessage)
      else Success(Normalise(response.records))
  }

  /** An invalid range is rejected before any request: the network is never consulted. */
  lemma NoFetchOnInvalidRange(selected: string, t: TimeRange, respond1: Request -> Response, respond2: Request -> Response)
    requires !(t.Span? && CurrentYear - t.years >= EarliestYear)
    ensures FetchPopulationData(selected, t, respond1) == FetchPopulationData(selected, t, respond2) == Failure(InvalidRangeMessage)
  {
  }

  /** A negative time range passes the check: the query then starts after it ends. */
  lemma NegativeRangeAccepted(selected: string)
    ensures PopulationRequest(selected, Span(-5)).Success?
    ensures ParseDateRange(PopulationRequest(selected, Span(-5)).value.date) == Some((2028, 2023))
  {
    PopulationQueryNamesYears(selected, Span(-5));
  }

  /**
   * The largest time range the population page offers, 100 years, starts
   * in 1923 and is therefore always rejected.
   */
  lemma HundredYearsRejected(selected: string, respond: Request -> Response)
    ensures CheckYearRange(Span(100)) == Failure(InvalidRangeMessage)
    ensures FetchPopulationData(selected, Span(100), respond) == Failure(InvalidRangeMessage)
  {
  }

  /** Five years of total population, answered with two records, gives those two points in order. */
  lemma FetchPopulationExample(respond: Request -> Response)
    requires respond(Request(PopulationCode, DateRange(2018, 2023))) ==
             Response(true, [Record("2023", Some(1000), Country("1W", "World")),
                             Record("2022", Some(900), Country("1W", "World"))])
    ensures FetchPopulationData("Population", Span(5), respond) ==
            Success([Point("2023", Some(1000)), Point("2022", Some(900))])
  {
    var records := respond(Request(PopulationCode, DateRange(2018, 2023))).records;
    assert Normalise(records) == [Point("2023", Some(1000)), Point("2022", Some(900))];
  }

  // ---------------------------------------------------------------- fetchHomePageData

  const HomePopulationRequest := Request(PopulationCode, "2020:2023")
  const HomeDensityRequest := Request(DensityCode, "1960:2021")
  const HomeLifeExpectancyRequest := Request(LifeExpectancyCode, "1960:2021")

  datatype HomePayload = HomePayload(
    totalPopulation: Option<int>,
    changeInPopulation: Option<int>,
    lifeExpectancy: Reading,
    averageDensity: Reading,
    populationData: seq<Point>)

  /**
   * `fetchHomePageData`: three fixed requests, whose `ok` flags are not
   * looked at; the series of the first and the figures derived from it and
   * from the first record of the other two.
   */
  function FetchHomePageData(respond: Request -> Response): (p: HomePayload)
    ensures p.populationData == Normalise(respond(HomePopulationRequest).records)
    ensures p.totalPopulation == TotalPopulation(p.populationData)
    ensures p.changeInPopulation == ChangeInPopulation(p.populationData)
    ensures p.averageDensity == FirstReading(respond(HomeDensityRequest).records)
    ensures p.lifeExpectancy == FirstReading(respond(HomeLifeExpectancyRequest).records)
  {
    var populationData := Normalise(respond(HomePopulationRequest).records);
    HomePayload(
      TotalPopulation(populationData),
      ChangeInPopulation(populationData),
      FirstReading(respond(HomeLifeExpectancyRequest).records),
      FirstReading(respond(HomeDensityRequest).records),
      populationData)
  }

  /** The home page's fixed queries are the date ranges 2020..2023 and 1960..2021. */
  lemma HomeRequestsAreDateRanges()
    ensures HomePopulationRequest.date == DateRange(2020, CurrentYear)
    ensures HomeDensityRequest.date == HomeLifeExpectancyRequest.date == DateRange(1960, 2021)
  {
    YearText(2020, "2020");
    YearText(2023, "2023");
    YearText(1960, "1960");
    YearText(2021, "2021");
    assert "2020:2023" == "2020" + ":" + "2023";
    assert "1960:2021" == "1960" + ":" + "2021";
  }

  /** The text of a four-digit year, digit by digit. */
  lemma YearText(n: nat, text: string)
    requires 1000 <= n < 10000 && |text| == 4
    requires text == [DigitChar(n / 1000), DigitChar(n / 100 % 10), DigitChar(n / 10 % 10), DigitChar(n % 10)]
    ensures DecimalString(n) == text
  {
    assert DecimalString(n / 1000) == [DigitChar(n / 1000)];
    assert DecimalString(n / 100) == DecimalString(n / 1000) + [DigitChar(n / 100 % 10)];
    assert DecimalString(n / 10) == DecimalString(n / 100) + [DigitChar(n / 10 % 10)];
  }

  /**
   * The home payload depends only on the records: a failed status is not
   * noticed, and the readings are numbers or "N/A", never `null`.
   */
  lemma HomeIgnoresStatus(respond1: Request -> Response, respond2: Request -> Response)
    requires forall request :: respond1(request).records == respond2(request).records
    ensures FetchHomePageData(respond1) == FetchHomePageData(respond2)
    ensures FetchHomePageData(respond1).averageDensity != Null
    ensures FetchHomePageData(respond1).lifeExpectancy != Null
  {
    assert respond1(HomePopulationRequest).records == respond2(HomePopulationRequest).records;
    assert respond1(HomeDensityRequest).records == respond2(HomeDensityRequest).records;
    assert respond1(HomeLifeExpectancyRequest).records == respond2(HomeLifeExpectancyRequest).records;
  }

  // ---------------------------------------------------------------- fetchTableDataByYear

  datatype TablePayload = TablePayload(availableYears: seq<string>, tableData: seq<TableRow>)

  /**
   * The single-year request of the table: total population, the code the
   * "Population" option selects, with `year` as the `date` query unchanged.
   */
  function TableRequest(year: string): (r: Request)
    ensures r.indicator == IndicatorCode("Population") == PopulationCode
    ensures r.date == year
  {
    Request(PopulationCode, year)
  }

  /**
   * `fetchTableDataByYear`: one year and one placeholder-filled row per
   * record, in record order; the response's `ok` flag is not looked at.
   */
  function FetchTableDataByYear(year: string, respond: Request -> Response): (p: TablePayload)
    ensures var records := respond(TableRequest(year)).records;
            && |p.availableYears| == |p.tableData| == |records|
            && (forall i :: 0 <= i < |records| ==> p.availableYears[i] == records[i].date)
            && (forall i :: 0 <= i < |records| ==> IsRowOf(p.tableData[i], records[i]))
  {
    var records := respond(TableRequest(year)).records;
    TablePayload(AvailableYears(records), TableRows(records))
  }
}

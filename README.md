# Population dashboard slice, modelled in Dafny

This project models the data slice of a population dashboard
(`src/lib/store/featureSlice.ts`): the three async thunks that ask the World
Bank API for indicator series, with their network calls made a parameter, and
the slice reducer that folds their pending, fulfilled and rejected actions
into the `PopulationState` record.

- `wrappers.dfy`: `Option` (JavaScript `null`) and `Result` (a thrown `Error`).
- `decimal.dfy`: the decimal text `${n}` of a year, and its parse.
- `indicators.dfy`: the option-to-indicator-code `switch`.
- `series.dfy`: API records and their normalisation into `{year, value}` points.
- `metrics.dfy`: `totalPopulation`, `changeInPopulation` and the "N/A" readings, with JavaScript's `||` and `null` coercion.
- `table.dfy`: table rows with their placeholder columns, and the list of years.
- `thunks.dfy`: `fetchPopulationData` (range check, request, `ok` check), `fetchHomePageData` and `fetchTableDataByYear`.
- `slice.dfy`: the state record, the actions, the reducer `Reduce` and its fold `ReduceAll`, and the class `PopulationSlice` whose methods assign the state's fields in place, each proved to agree with `Reduce`.

Modelling choices, all following the code:

- Record values are `Option<int>`; `null` is `None`. The subtraction in `changeInPopulation` reads `null` as 0, so a missing latest value yields the negated previous value, not `null`. `||` treats 0 and `null` as falsy.
- `lifeExpectancy` and `averageDensity` hold `null` initially, but the home thunk stores a number or the string "N/A" there. The sum type `Reading` has one case for each.
- The range check rejects only a NaN start or a start before 1960. The code does not reject a start year after the end year, so a negative time range passes, giving a query whose start is after its end; the model follows the code.
- There is a single `loading` flag and a single `error` for all thunks, and no guard against stale responses. The fulfilled action applied last decides the data.
- The table thunk dispatches pending and rejected actions, but the slice has no case for them. The reducer returns the state unchanged for both.

## Model

| member | source | states |
|---|---|---|
| Indicators.IndicatorCode | src/lib/store/featureSlice.ts:85-101 | every option maps to one of the four codes; each listed option maps to its own code; any other option maps to SP.POP.TOTL |
| Indicators.OptionOf | src/lib/store/featureSlice.ts:86-98 | the reverse of the switch: it is defined exactly on the four codes and gives a listed option |
| Indicators.OptionRoundTrip | src/lib/store/featureSlice.ts:86-98 | each listed option is recovered from its code, so the switch is one-to-one on the listed options |
| Indicators.CodeRoundTrip | src/lib/store/featureSlice.ts:86-98 | every code of the vocabulary is reached by the option listed for it |
| Indicators.UnknownOptionFallsBack | src/lib/store/featureSlice.ts:99-100 | an unknown option is not an error: it asks for the same code as "Population" |
| Decimal.DecimalString | src/lib/store/featureSlice.ts:111 | `${startYear}` is a non-empty string of digits with no leading zero |
| Decimal.DecimalRoundTrip | src/lib/store/featureSlice.ts:111 | parsing the decimal text of a year gives the year back |
| Decimal.DecimalStringInjective | src/lib/store/featureSlice.ts:111 | different years give different texts |
| Thunks.CheckYearRange | src/lib/store/featureSlice.ts:103-108 | the check succeeds exactly when the time range is a number and 2023 minus it is at least 1960, and then yields that start year; otherwise it fails with "Invalid year range" |
| Thunks.DateRange | src/lib/store/featureSlice.ts:111 | the `date` query is the start's digits, then its only ':', then the end's digits |
| Thunks.DateRangeRoundTrip | src/lib/store/featureSlice.ts:111 | the `date` query `<start>:<end>` parses back to exactly the two years |
| Thunks.PopulationRequest | src/lib/store/featureSlice.ts:85-111 | a request is built exactly when the range is valid; it carries the option's code and exactly the query `DateRange(startYear, 2023)`, i.e. `<startYear>:2023` |
| Thunks.PopulationQueryNamesYears | src/lib/store/featureSlice.ts:103-111 | the query of a successful population request parses back to exactly the start year and 2023 |
| Thunks.FetchPopulationData | src/lib/store/featureSlice.ts:103-126 | invalid range rejects with "Invalid year range"; otherwise a non-ok response rejects with "Failed to fetch data from API", and an ok one fulfils with the normalised records |
| Thunks.NoFetchOnInvalidRange | src/lib/store/featureSlice.ts:106-110 | with an invalid range the outcome does not depend on the network at all |
| Thunks.NegativeRangeAccepted | src/lib/store/featureSlice.ts:103-108 | a negative time range passes the check, giving the query 2028:2023 |
| Thunks.HundredYearsRejected | src/lib/store/featureSlice.ts:103-108 | the population page's largest option, 100 years, starts in 1923 and is always rejected with "Invalid year range", whatever the network would answer |
| Thunks.FetchPopulationExample | src/lib/store/featureSlice.ts:110-126 | five years of "Population" answered with two records fulfils with those two points, in order |
| Series.Normalise | src/lib/store/featureSlice.ts:119-122 | same length as the records; point i has year = record i's date and value = record i's value |
| Series.NormaliseAppend | src/lib/store/featureSlice.ts:46-49 | normalising a concatenation normalises each part, so order is kept and nothing is dropped |
| Metrics.TotalPopulation | src/lib/store/featureSlice.ts:51 | a total exists exactly when the series is non-empty and its first value is present and non-zero, and then it is that value |
| Metrics.ChangeInPopulation | src/lib/store/featureSlice.ts:52 | a change exists exactly when there are two points whose values (null as 0) differ, and then it is first minus second |
| Metrics.FirstReading | src/lib/store/featureSlice.ts:58 | never null; a number exactly when the first record's value is present and non-zero, otherwise "N/A" |
| Metrics.ChangeIsDifferenceOfTotals | src/lib/store/featureSlice.ts:51-52 | with both first values present and non-zero, the change is the latest total minus the previous total, and absent only if they are equal |
| Metrics.MissingLatestValue | src/lib/store/featureSlice.ts:52 | a null latest value gives no total but a change equal to the negated previous value |
| Metrics.MetricsOfRecords | src/lib/store/featureSlice.ts:46-58 | the total of the normalised series and the "N/A" rule agree on the raw first record; the change exists exactly when the first two raw values (null as 0) differ, and is their difference |
| Metrics.DerivedExamples | src/lib/store/featureSlice.ts:51-52 | an empty series has neither figure; 8000000000 then 7900000000 gives total 8000000000 and change 100000000 |
| Thunks.FetchHomePageData | src/lib/store/featureSlice.ts:41-73 | the payload's series is the normalised 2020:2023 population records; its figures are derived from that series and from the first density and life-expectancy records |
| Thunks.HomeRequestsAreDateRanges | src/lib/store/featureSlice.ts:43-61 | the fixed home queries are the date ranges 2020 to 2023 and 1960 to 2021 |
| Thunks.HomeIgnoresStatus | src/lib/store/featureSlice.ts:41-64 | the home payload depends only on the records, not on the `ok` flags, and its readings are never null |
| Table.TableRows | src/lib/store/featureSlice.ts:141-147 | one row per record, in order: the record's country name and value, density 100, growth rate 1.5, life expectancy 70 |
| Table.AvailableYears | src/lib/store/featureSlice.ts:140 | one year per record, in order: the record's date |
| Table.TableMatchesSeries | src/lib/store/featureSlice.ts:139-147 | the year list equals the normalised series' years, has as many entries as the table, and row i carries the value of point i |
| Thunks.TableRequest | src/lib/store/featureSlice.ts:134-136 | the table asks for total population, the code the "Population" option selects, with the given year as the `date` query unchanged |
| Thunks.FetchTableDataByYear | src/lib/store/featureSlice.ts:131-149 | as many years and rows as records; year i is record i's date and row i is record i's placeholder-filled row |
| Slice.ErrorMessage | src/lib/store/featureSlice.ts:178 | a non-empty thrown message is kept; a missing or empty one gives way to the fallback; the result is never empty |
| Slice.Reduce | src/lib/store/featureSlice.ts:157-195 | each action changes only the fields it writes; pending sets loading and clears the error; home and population fulfilled and rejected clear loading; home fulfilled stores its series and all four figures of its payload; population fulfilled stores its series; table fulfilled stores its years and rows; rejected stores its message or the default |
| Slice.WrittenBy | src/lib/store/featureSlice.ts:157-195 | a field is written by a sequence exactly when some action of it writes that field |
| Slice.ReduceAll | src/lib/store/featureSlice.ts:152-197 | the store applies the reducer to the dispatched actions in arrival order; every field no action writes keeps its value |
| Slice.ReduceAllSnoc | src/lib/store/featureSlice.ts:152-197 | the state after a sequence and one more action is that action applied to the state after the sequence, so actions take effect in arrival order |
| Slice.LastWriteWins | src/lib/store/featureSlice.ts:157-195 | the last action that writes a field decides its final value, whatever follows that does not write it |
| Slice.LastFulfilledSeriesShown | src/lib/store/featureSlice.ts:184-187 | the series of the last fulfilled population action is shown if no later fulfilled action replaces it |
| Slice.StaleResponseWins | src/lib/store/featureSlice.ts:184-187 | two overlapping requests answered out of order leave the older answer in the state |
| Slice.LoadingFlagShared | src/lib/store/featureSlice.ts:158-187 | a population answer clears `loading` while a home request is still out |
| Slice.InitialStatusConsistent | src/lib/store/featureSlice.ts:28-38 | the initial state is not loading and has no error |
| Slice.StatusConsistentPreserved | src/lib/store/featureSlice.ts:157-195 | every action sequence keeps the invariant: no error while loading, and a recorded error is never empty |
| Slice.WithoutTable | src/lib/store/featureSlice.ts:188-191 | keeps exactly the actions that are not the table thunk's, and a sequence without table actions unchanged |
| Slice.WithoutTableAppend | src/lib/store/featureSlice.ts:188-191 | removing table actions from a concatenation concatenates the results, so the other actions keep their order |
| Slice.TableLeavesStatus | src/lib/store/featureSlice.ts:188-191 | removing the table thunk's actions from any sequence leaves `loading` and `error` as they were |
| Slice.PopulationRun | src/lib/store/featureSlice.ts:76-128 | one `fetchPopulationData` call dispatches its pending action, then the fulfilled action with the thunk's series or the rejected action with its message |
| Slice.InvalidRangeRun | src/lib/store/featureSlice.ts:103-108 | a population run with an invalid range ends not loading, with "Invalid year range" as the error, and every field other than `loading` and `error` unchanged |
| Slice.PopulationSlice.constructor | src/lib/store/featureSlice.ts:28-38 | the fresh slice holds `initialState` |
| Slice.PopulationSlice.OnHomePending | src/lib/store/featureSlice.ts:158-161 | the new state is the reducer's: loading on, error cleared, nothing else changed |
| Slice.PopulationSlice.OnHomeFulfilled | src/lib/store/featureSlice.ts:162-175 | the new state is the reducer's: loading off and the five home fields overwritten |
| Slice.PopulationSlice.OnHomeRejected | src/lib/store/featureSlice.ts:176-179 | the new state is the reducer's: loading off and the message or "Failed to fetch homepage data" |
| Slice.PopulationSlice.OnPopulationPending | src/lib/store/featureSlice.ts:180-183 | the new state is the reducer's: loading on, error cleared, nothing else changed |
| Slice.PopulationSlice.OnPopulationFulfilled | src/lib/store/featureSlice.ts:184-187 | the new state is the reducer's: loading off and the series replaced |
| Slice.PopulationSlice.OnTableFulfilled | src/lib/store/featureSlice.ts:188-191 | the new state is the reducer's: years and rows replaced, loading and error untouched |
| Slice.PopulationSlice.OnPopulationRejected | src/lib/store/featureSlice.ts:192-195 | the new state is the reducer's: loading off and the message or "Failed to fetch population data" |
| Slice.PopulationSlice.Dispatch | src/lib/store/featureSlice.ts:152-197 | the reducer applied in place: the new state is `Reduce` of the old state and the action |

## Left out

- `fetch`, `response.json()` and the request URL: network I/O. Each thunk takes a function `respond` from a request (indicator code and `date` query) to the response's `ok` flag and its record array.
- The crash when the response has no second element, or when `data[1]` is not an array: an unhandled TypeError. The model reads every response as a record array. Such a crash still reaches the reducer as a rejected action with some message, and that is modelled.
- A `fetch` or `response.json()` that itself rejects (network failure, malformed JSON): `respond` always returns, so the thunk functions and `PopulationRun` produce only the thunk's own two messages. Such a failure reaches the reducer only as a rejected action carrying its own message, which `Reduce` handles like any other.
- Redux Toolkit's `createAsyncThunk`, `createSlice`, action type strings and Immer drafts: library machinery. The reducer is a state record plus an `Action` type.
- Interleaving of concurrent thunks: async scheduling. The reducer is applied to an arbitrary sequence of actions.
- Thunks.CheckYearRange, Decimal.DecimalString: JavaScript numbers are doubles. A time range beyond about ±2^53 makes `2023 - timeRange` round, and a start year from 10^21 on is written in exponent form (`1e+21`) in the query. The model computes the start year exactly and renders every year in plain digits; the population page only offers ranges of 5 to 100 years, far below both limits.
- Non-integer and infinite time ranges, and non-integer record values: floating point. Values and years are integers, and the growth-rate placeholder 1.5 is a constant `Scaled(15, 1)` on which no arithmetic is done.
- The UI (`Sidebar.tsx`, the page components), the layout and the store wiring in `store.ts`: these hold no slice logic.

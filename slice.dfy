/**
 * The `population` slice: its state record, the actions of the three
 * thunks, and the `extraReducers` cases as a transition function, with the
 * slice itself as an object whose fields each case assigns in place.
 */
module Slice {
  import opened Wrappers
  import opened Series
  import opened Metrics
  import opened Table
  import opened Thunks

  /** `PopulationState`. */
  datatype PopulationState = PopulationState(
    totalPopulation: Option<int>,
    changeInPopulation: Option<int>,
    lifeExpectancy: Reading,
    averageDensity: Reading,
    populationData: seq<Point>,
    availableYears: seq<string>,
    tableData: seq<TableRow>,
    loading: bool,
    error: Option<string>)

  /** `initialState`: nothing loaded, not loading, no error. */
  const InitialState := PopulationState(None, None, Null, Null, [], [], [], false, None)

  /**
   * The actions the three thunks dispatch. A rejected action carries
   * `action.error.message`, which may be missing. The table thunk's pending
   * and rejected actions are dispatched too; the slice has no case for them.
   */
  datatype Action =
    | HomePending
    | HomeFulfilled(home: HomePayload)
    | HomeRejected(message: Option<string>)
    | PopulationPending
    | PopulationFulfilled(points: seq<Point>)
    | PopulationRejected(message: Option<string>)
    | TablePending
    | TableFulfilled(table: TablePayload)
    | TableRejected(message: Option<string>)

  const HomeFailureDefault := "Failed to fetch homepage data"
  const PopulationFailureDefault := "Failed to fetch population data"

  /** `action.error.message || fallback`: a missing or empty message gives way to the fallback. */
  function ErrorMessage(message: Option<string>, fallback: string): (m: string)
    requires fallback != ""
    ensures m != ""
    ensures message.Some? && message.value != "" ==> m == message.value
    ensures message.None? || message.value == "" ==> m == fallback
  {
    if message.Some? && message.value != "" then message.value else fallback
  }

  /** The fields of the state, to say which of them an action may change. */
  datatype Field =
    | TotalPopulationField | ChangeInPopulationField | LifeExpectancyField | AverageDensityField
    | PopulationDataField | AvailableYearsField | TableDataField | LoadingField | ErrorField

  /** s and t hold the same value in field f. */
  predicate AgreeOn(s: PopulationState, t: PopulationState, f: Field) {
    match f
    case TotalPopulationField => s.totalPopulation == t.totalPopulation
    case ChangeInPopulationField => s.changeInPopulation == t.changeInPopulation
    case LifeExpectancyField => s.lifeExpectancy == t.lifeExpectancy
    case AverageDensityField => s.averageDensity == t.averageDensity
    case PopulationDataField => s.populationData == t.populationData
    case AvailableYearsField => s.availableYears == t.availableYears
    case TableDataField => s.tableData == t.tableData
    case LoadingField => s.loading == t.loading
    case ErrorField => s.error == t.error
  }

  /** The fields each case of the reducer assigns. */
  function Writes(a: Action): set<Field> {
    match a
    case HomePending => {LoadingField, ErrorField}
    case HomeFulfilled(_) =>
      {LoadingField, TotalPopulationField, ChangeInPopulationField, LifeExpectancyField,
       AverageDensityField, PopulationDataField}
    case HomeRejected(_) => {LoadingField, ErrorField}
    case PopulationPending => {LoadingField, ErrorField}
    case PopulationFulfilled(_) => {LoadingField, PopulationDataField}
    case PopulationRejected(_) => {LoadingField, ErrorField}
    case TablePending => {}
    case TableFulfilled(_) => {AvailableYearsField, TableDataField}
    case TableRejected(_) => {}
  }

  /** The slice reducer: one `addCase` per action, and no change for an action without a case. */
  function Reduce(s: PopulationState, a: Action): (t: PopulationState)
    ensures forall f :: f !in Writes(a) ==> AgreeOn(s, t, f)
    ensures a.HomePending? || a.PopulationPending? ==> t.loading && t.error == None
    ensures a.HomeFulfilled? || a.PopulationFulfilled? || a.HomeRejected? || a.PopulationRejected? ==> !t.loading
    ensures a.HomeFulfilled? ==>
              && t.totalPopulation == a.home.totalPopulation
              && t.changeInPopulation == a.home.changeInPopulation
              && t.lifeExpectancy == a.home.lifeExpectancy
              && t.averageDensity == a.home.averageDensity
              && t.populationData == a.home.populationData
    ensures a.PopulationFulfilled? ==> t.populationData == a.points
    ensures a.HomeRejected? ==> t.error == Some(ErrorMessage(a.message, HomeFailureDefault))
    ensures a.PopulationRejected? ==> t.error == Some(ErrorMessage(a.message, PopulationFailureDefault))
    ensures a.TableFulfilled? ==> t.availableYears == a.table.availableYears && t.tableData == a.table.tableData
  {
    match a
    case HomePending => s.(loading := true, error := None)
    case HomeFulfilled(p) =>
      s.(loading := false,
         totalPopulation := p.totalPopulation,
         changeInPopulation := p.changeInPopulation,
         lifeExpectancy := p.lifeExpectancy,
         averageDensity := p.averageDensity,
         populationData := p.populationData)
    case HomeRejected(m) => s.(loading := false, error := Some(ErrorMessage(m, HomeFailureDefault)))
    case PopulationPending => s.(loading := true, error := None)
    case PopulationFulfilled(points) => s.(loading := false, populationData := points)
    case PopulationRejected(m) => s.(loading := false, error := Some(ErrorMessage(m, PopulationFailureDefault)))
    case TablePending => s
    case TableFulfilled(p) => s.(availableYears := p.availableYears, tableData := p.tableData)
    case TableRejected(_) => s
  }

  /** The fields some action of a sequence writes. */
  function WrittenBy(actions: seq<Action>): (fields: set<Field>)
    ensures forall f :: f in fields <==> exists i :: 0 <= i < |actions| && f in Writes(actions[i])
  {
    if actions == [] then {}
    else
      var prefix := actions[..|actions| - 1];
      assert forall i :: 0 <= i < |prefix| ==> prefix[i] == actions[i];
      WrittenBy(prefix) + Writes(actions[|actions| - 1])
  }

  /**
   * The state after a sequence of actions, applied in the order they
   * arrive: every field that no action of the sequence writes keeps its value.
   */
  function ReduceAll(s: PopulationState, actions: seq<Action>): (t: PopulationState)
    ensures forall f :: f !in WrittenBy(actions) ==> AgreeOn(s, t, f)
  {
    if actions == [] then s
    else Reduce(ReduceAll(s, actions[..|actions| - 1]), actions[|actions| - 1])
  }

  /** One more action is applied to the state the earlier ones produced: arrival order is kept. */
  lemma ReduceAllSnoc(s: PopulationState, actions: seq<Action>, a: Action)
    ensures ReduceAll(s, actions + [a]) == Reduce(ReduceAll(s, actions), a)
  {
    assert (actions + [a])[..|actions|] == actions;
  }

  /**
   * No stale-response guard: whatever action last wrote a field decides its
   * value, however many actions that do not write it arrive afterwards.
   */
  lemma {:induction false} LastWriteWins(s: PopulationState, before: seq<Action>, a: Action, after: seq<Action>, f: Field)
    requires f in Writes(a)
    requires forall i :: 0 <= i < |after| ==> f !in Writes(after[i])
    ensures AgreeOn(Reduce(ReduceAll(s, before), a), ReduceAll(s, before + [a] + after), f)
  {
    if after == [] {
      assert before + [a] + after == before + [a];
      ReduceAllSnoc(s, before, a);
    } else {
      var last := after[|after| - 1];
      var rest := after[..|after| - 1];
      LastWriteWins(s, before, a, rest, f);
      assert before + [a] + after == (before + [a] + rest) + [last];
      ReduceAllSnoc(s, before + [a] + rest, last);
    }
  }

  /** The last fulfilled population series is the one shown, even if it answers an older request. */
  lemma LastFulfilledSeriesShown(s: PopulationState, before: seq<Action>, points: seq<Point>, after: seq<Action>)
    requires forall i :: 0 <= i < |after| ==> !after[i].PopulationFulfilled? && !after[i].HomeFulfilled?
    ensures ReduceAll(s, before + [PopulationFulfilled(points)] + after).populationData == points
  {
    forall i | 0 <= i < |after| ensures PopulationDataField !in Writes(after[i]) {
    }
    LastWriteWins(s, before, PopulationFulfilled(points), after, PopulationDataField);
  }

  /** Two overlapping population requests whose answers arrive out of order: the older answer stays. */
  lemma StaleResponseWins(newer: seq<Point>, older: seq<Point>)
    ensures ReduceAll(InitialState,
              [PopulationPending, PopulationPending, PopulationFulfilled(newer), PopulationFulfilled(older)]).populationData
            == older
  {
    var actions := [PopulationPending, PopulationPending, PopulationFulfilled(newer), PopulationFulfilled(older)];
    assert actions == actions[..3] + [PopulationFulfilled(older)];
    ReduceAllSnoc(InitialState, actions[..3], PopulationFulfilled(older));
  }

  /** One `loading` flag for all thunks: the population answer clears it while the home request is still out. */
  lemma LoadingFlagShared(points: seq<Point>)
    ensures !ReduceAll(InitialState, [HomePending, PopulationPending, PopulationFulfilled(points)]).loading
  {
    var actions := [HomePending, PopulationPending, PopulationFulfilled(points)];
    assert actions == actions[..2] + [PopulationFulfilled(points)];
    ReduceAllSnoc(InitialState, actions[..2], PopulationFulfilled(points));
  }

  /**
   * The status invariant: while loading there is no error, and a recorded
   * error is never the empty string.
   */
  predicate StatusConsistent(s: PopulationState) {
    && (s.loading ==> s.error == None)
    && (s.error.Some? ==> s.error.value != "")
  }

  lemma InitialStatusConsistent()
    ensures StatusConsistent(InitialState)
  {
  }

  /** Every sequence of actions from a consistent state ends in a consistent state. */
  lemma {:induction false} StatusConsistentPreserved(s: PopulationState, actions: seq<Action>)
    requires StatusConsistent(s)
    ensures StatusConsistent(ReduceAll(s, actions))
  {
    if actions != [] {
      StatusConsistentPreserved(s, actions[..|actions| - 1]);
    }
  }

  /** The actions of the table thunk. */
  predicate IsTableAction(a: Action) {
    a.TablePending? || a.TableFulfilled? || a.TableRejected?
  }

  /** The actions of a sequence that are not the table thunk's, in order. */
  function WithoutTable(actions: seq<Action>): (rest: seq<Action>)
    ensures |rest| <= |actions|
    ensures forall a :: a in rest <==> a in actions && !IsTableAction(a)
    ensures (forall i :: 0 <= i < |actions| ==> !IsTableAction(actions[i])) ==> rest == actions
  {
    if actions == [] then []
    else if IsTableAction(actions[|actions| - 1]) then WithoutTable(actions[..|actions| - 1])
    else WithoutTable(actions[..|actions| - 1]) + [actions[|actions| - 1]]
  }

  /**
   * Removing the table actions keeps the order of the others: filtering a
   * concatenation concatenates the filtered parts.
   */
  lemma {:induction false} WithoutTableAppend(a: seq<Action>, b: seq<Action>)
    ensures WithoutTable(a + b) == WithoutTable(a) + WithoutTable(b)
  {
    if b != [] {
      var prefix, last := b[..|b| - 1], b[|b| - 1];
      assert (a + b)[..|a + b| - 1] == a + prefix;
      assert (a + b)[|a + b| - 1] == last;
      WithoutTableAppend(a, prefix);
    } else {
      assert a + b == a;
    }
  }

  /**
   * The table thunk never touches `loading` or `error`: removing its actions
   * from any sequence leaves both as they were.
   */
  lemma {:induction false} TableLeavesStatus(s: PopulationState, actions: seq<Action>)
    ensures ReduceAll(s, actions).loading == ReduceAll(s, WithoutTable(actions)).loading
    ensures ReduceAll(s, actions).error == ReduceAll(s, WithoutTable(actions)).error
  {
    if actions != [] {
      var prefix, last := actions[..|actions| - 1], actions[|actions| - 1];
      TableLeavesStatus(s, prefix);
      if !IsTableAction(last) {
        ReduceAllSnoc(s, WithoutTable(prefix), last);
      }
    }
  }

  /** The two actions one `fetchPopulationData` run dispatches, the second decided by its outcome. */
  function PopulationRun(selected: string, t: TimeRange, respond: Request -> Response): (run: seq<Action>)
    ensures |run| == 2 && run[0] == PopulationPending
    ensures run[1].PopulationFulfilled? <==> FetchPopulationData(selected, t, respond).Success?
    ensures run[1].PopulationFulfilled? ==> FetchPopulationData(selected, t, respond) == Success(run[1].points)
    ensures !run[1].PopulationFulfilled? ==>
              run[1] == PopulationRejected(Some(FetchPopulationData(selected, t, respond).error))
  {
    match FetchPopulationData(selected, t, respond)
    case Success(points) => [PopulationPending, PopulationFulfilled(points)]
    case Failure(message) => [PopulationPending, PopulationRejected(Some(message))]
  }

  /**
   * A run with an invalid range ends not loading, with "Invalid year range"
   * as the error, and every data field as it was.
   */
  lemma InvalidRangeRun(s: PopulationState, selected: string, t: TimeRange, respond: Request -> Response)
    requires !(t.Span? && CurrentYear - t.years >= EarliestYear)
    ensures var u := ReduceAll(s, PopulationRun(selected, t, respond));
            && !u.loading && u.error == Some(InvalidRangeMessage)
            && forall f :: f !in {LoadingField, ErrorField} ==> AgreeOn(s, u, f)
  {
    var run := PopulationRun(selected, t, respond);
    assert run == [PopulationPending] + [PopulationRejected(Some(InvalidRangeMessage))];
    ReduceAllSnoc(s, [PopulationPending], PopulationRejected(Some(InvalidRangeMessage)));
    assert ReduceAll(s, [PopulationPending]) == Reduce(s, PopulationPending) by {
      ReduceAllSnoc(s, [], PopulationPending);
    }
  }

  /**
   * The slice as the object the reducer's cases assign in place. Each method
   * is one `addCase` callback; `Dispatch` is the reducer.
   */
  class PopulationSlice {
    var totalPopulation: Option<int>
    var changeInPopulation: Option<int>
    var lifeExpectancy: Reading
    var averageDensity: Reading
    var populationData: seq<Point>
    var availableYears: seq<string>
    var tableData: seq<TableRow>
    var loading: bool
    var error: Option<string>

    /** The state record the fields hold. */
    function State(): PopulationState
      reads this
    {
      PopulationState(totalPopulation, changeInPopulation, lifeExpectancy, averageDensity,
                      populationData, availableYears, tableData, loading, error)
    }

    constructor ()
      ensures State() == InitialState
    {
      totalPopulation, changeInPopulation := None, None;
      lifeExpectancy, averageDensity := Null, Null;
      populationData, availableYears, tableData := [], [], [];
      loading, error := false, None;
    }

    method OnHomePending()
      modifies this
      ensures State() == Reduce(old(State()), HomePending)
    {
      loading := true;
      error := None;
    }

    method OnHomeFulfilled(payload: HomePayload)
      modifies this
      ensures State() == Reduce(old(State()), HomeFulfilled(payload))
    {
      loading := false;
      totalPopulation := payload.totalPopulation;
      changeInPopulation := payload.changeInPopulation;
      lifeExpectancy := payload.lifeExpectancy;
      averageDensity := payload.averageDensity;
      populationData := payload.populationData;
    }

    method OnHomeRejected(message: Option<string>)
      modifies this
      ensures State() == Reduce(old(State()), HomeRejected(message))
    {
      loading := false;
      error := Some(ErrorMessage(message, HomeFailureDefault));
    }

    method OnPopulationPending()
      modifies this
      ensures State() == Reduce(old(State()), PopulationPending)
    {
      loading := true;
      error := None;
    }

    method OnPopulationFulfilled(points: seq<Point>)
      modifies this
      ensures State() == Reduce(old(State()), PopulationFulfilled(points))
    {
      loading := false;
      populationData := points;
    }

    method OnTableFulfilled(payload: TablePayload)
      modifies this
      ensures State() == Reduce(old(State()), TableFulfilled(payload))
    {
      availableYears := payload.availableYears;
      tableData := payload.tableData;
    }

    method OnPopulationRejected(message: Option<string>)
      modifies this
      ensures State() == Reduce(old(State()), PopulationRejected(message))
    {
      loading := false;
      error := Some(ErrorMessage(message, PopulationFailureDefault));
    }

    /** The reducer: the case for the action, or nothing for an action without one. */
    method Dispatch(a: Action)
      modifies this
      ensures State() == Reduce(old(State()), a)
    {
      match a
      case HomePending => OnHomePending();
      case HomeFulfilled(p) => OnHomeFulfilled(p);
      case HomeRejected(m) => OnHomeRejected(m);
      case PopulationPending => OnPopulationPending();
      case PopulationFulfilled(points) => OnPopulationFulfilled(points);
      case PopulationRejected(m) => OnPopulationRejected(m);
      case TablePending =>
      case TableFulfilled(p) => OnTableFulfilled(p);
      case TableRejected(_) =>
    }
  }
}

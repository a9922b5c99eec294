/**
 The application store (lib/stores/appStore.ts): one record of data,
 filters and UI flags, and one transition function per action.

 An action that generates data takes the model's stand-ins for the ambient
 inputs (an `Env`, a random cursor `at`, the clock reading `now`) and
 returns the advanced cursor next to the new state.
 */
module AppStore {
  import opened Options
  import opened Types
  import opened Latency
  import opened ExchangeData

  /** The selected pair of exchanges, in click order. */
  datatype Connection = Connection(from: ExchangeServer, to: ExchangeServer)

  datatype AppState = AppState(
    // Data
    exchanges: seq<ExchangeServer>,
    latencyData: seq<LatencyData>,
    selectedConnection: Option<Connection>,
    historicalData: seq<HistoricalLatency>,
    // Filters
    selectedExchanges: seq<string>,
    selectedProviders: seq<CloudProvider>,
    latencyRange: (int, int),
    timeRange: TimeRange,
    // UI state
    showRealtime: bool,
    showHistorical: bool,
    showRegions: bool,
    isDarkMode: bool,
    searchQuery: string)

  /** The store's fields, to say which ones an action may change. */
  datatype Field =
    | ExchangesField | LatencyDataField | SelectedConnectionField | HistoricalDataField
    | SelectedExchangesField | SelectedProvidersField | LatencyRangeField | TimeRangeField
    | ShowRealtimeField | ShowHistoricalField | ShowRegionsField | IsDarkModeField | SearchQueryField

  /** `s` and `t` hold the same value in field `f`. */
  predicate Agree(s: AppState, t: AppState, f: Field) {
    match f
    case ExchangesField => s.exchanges == t.exchanges
    case LatencyDataField => s.latencyData == t.latencyData
    case SelectedConnectionField => s.selectedConnection == t.selectedConnection
    case HistoricalDataField => s.historicalData == t.historicalData
    case SelectedExchangesField => s.selectedExchanges == t.selectedExchanges
    case SelectedProvidersField => s.selectedProviders == t.selectedProviders
    case LatencyRangeField => s.latencyRange == t.latencyRange
    case TimeRangeField => s.timeRange == t.timeRange
    case ShowRealtimeField => s.showRealtime == t.showRealtime
    case ShowHistoricalField => s.showHistorical == t.showHistorical
    case ShowRegionsField => s.showRegions == t.showRegions
    case IsDarkModeField => s.isDarkMode == t.isDarkMode
    case SearchQueryField => s.searchQuery == t.searchQuery
  }

  /** Every field outside `changed` is the same in `s` and `t`. */
  predicate AgreeExcept(s: AppState, t: AppState, changed: set<Field>) {
    forall f :: f !in changed ==> Agree(s, t, f)
  }

  /** Framing composes: changes in `a` then in `b` change at most `a + b`. */
  lemma AgreeExceptTrans(s: AppState, t: AppState, u: AppState, a: set<Field>, b: set<Field>)
    requires AgreeExcept(s, t, a) && AgreeExcept(t, u, b)
    ensures AgreeExcept(s, u, a + b)
  {
    forall f | f !in a + b
      ensures Agree(s, u, f)
    {
      assert Agree(s, t, f) && Agree(t, u, f);
    }
  }

  /** Writing the batch field changes nothing else, whatever the batch. */
  lemma WriteLatencyData(s: AppState, data: seq<LatencyData>)
    ensures AgreeExcept(s, s.(latencyData := data), {LatencyDataField})
  {
  }

  /** Writing the series field changes nothing else, whatever the series. */
  lemma WriteHistoricalData(s: AppState, data: seq<HistoricalLatency>)
    ensures AgreeExcept(s, s.(historicalData := data), {HistoricalDataField})
  {
  }

  /** Agreeing on every field is being the same state. */
  lemma AgreeEverywhere(s: AppState, t: AppState)
    requires AgreeExcept(s, t, {})
    ensures s == t
  {
    assert Agree(s, t, ExchangesField) && Agree(s, t, LatencyDataField);
    assert Agree(s, t, SelectedConnectionField) && Agree(s, t, HistoricalDataField);
    assert Agree(s, t, SelectedExchangesField) && Agree(s, t, SelectedProvidersField);
    assert Agree(s, t, LatencyRangeField) && Agree(s, t, TimeRangeField);
    assert Agree(s, t, ShowRealtimeField) && Agree(s, t, ShowHistoricalField);
    assert Agree(s, t, ShowRegionsField) && Agree(s, t, IsDarkModeField);
    assert Agree(s, t, SearchQueryField);
  }

  /** The lower and upper ends of the latency slider at start-up. */
  const INITIAL_LATENCY_RANGE: (int, int) := (0, 500)

  /** The store as created: nothing measured or selected, everything shown but history. */
  function Initial(): (s: AppState)
    ensures Consistent(s)
    ensures s.selectedConnection == None && s.latencyData == [] && s.historicalData == []
    ensures s.selectedExchanges == [] && s.searchQuery == []
    ensures s.selectedProviders == [AWS, GCP, Azure]
    ensures s.latencyRange == (0, 500) && s.timeRange == OneDay
    ensures s.showRealtime && s.showRegions && !s.showHistorical && !s.isDarkMode
  {
    AppState(
      EXCHANGES, [], None, [],
      [], [AWS, GCP, Azure], INITIAL_LATENCY_RANGE, OneDay,
      true, false, true, false, "")
  }

  // ---------------------------------------------------------------------------
  // Plain setters: each writes one field.
  // ---------------------------------------------------------------------------

  function SetSelectedExchanges(s: AppState, names: seq<string>): (t: AppState)
    ensures t.selectedExchanges == names && AgreeExcept(s, t, {SelectedExchangesField})
  {
    s.(selectedExchanges := names)
  }

  function SetSelectedProviders(s: AppState, providers: seq<CloudProvider>): (t: AppState)
    ensures t.selectedProviders == providers && AgreeExcept(s, t, {SelectedProvidersField})
  {
    s.(selectedProviders := providers)
  }

  function SetLatencyRange(s: AppState, range: (int, int)): (t: AppState)
    ensures t.latencyRange == range && AgreeExcept(s, t, {LatencyRangeField})
  {
    s.(latencyRange := range)
  }

  function SetShowRealtime(s: AppState, show: bool): (t: AppState)
    ensures t.showRealtime == show && AgreeExcept(s, t, {ShowRealtimeField})
  {
    s.(showRealtime := show)
  }

  function SetShowHistorical(s: AppState, show: bool): (t: AppState)
    ensures t.showHistorical == show && AgreeExcept(s, t, {ShowHistoricalField})
  {
    s.(showHistorical := show)
  }

  function SetShowRegions(s: AppState, show: bool): (t: AppState)
    ensures t.showRegions == show && AgreeExcept(s, t, {ShowRegionsField})
  {
    s.(showRegions := show)
  }

  function SetIsDarkMode(s: AppState, isDark: bool): (t: AppState)
    ensures t.isDarkMode == isDark && AgreeExcept(s, t, {IsDarkModeField})
  {
    s.(isDarkMode := isDark)
  }

  function SetSearchQuery(s: AppState, query: string): (t: AppState)
    ensures t.searchQuery == query && AgreeExcept(s, t, {SearchQueryField})
  {
    s.(searchQuery := query)
  }

  /** A plain setter is idempotent and the last write wins. */
  lemma SetterLastWriteWins(s: AppState, a: seq<string>, b: seq<string>)
    ensures SetSelectedExchanges(SetSelectedExchanges(s, a), b) == SetSelectedExchanges(s, b)
    ensures SetSelectedExchanges(s, s.selectedExchanges) == s
  {
  }

  // ---------------------------------------------------------------------------
  // Actions that regenerate data
  // ---------------------------------------------------------------------------

  /**
   `initializeHistoricalData`: with a connection selected, replace the series
   by a fresh one for that pair at the current time range; without one, do
   nothing at all.
   */
  function InitializeHistoricalData(s: AppState, env: Env, at: nat, now: int): (r: (AppState, nat))
    ensures s.selectedConnection.None? ==> r == (s, at)
    ensures s.selectedConnection.Some? ==>
      var c := s.selectedConnection.value;
      r.0.historicalData == HistoricalSeries(c.from, c.to, s.timeRange, env, at, now).0 &&
      |r.0.historicalData| == PointCount(s.timeRange) &&
      r.0.historicalData[|r.0.historicalData| - 1].timestamp == now &&
      r.1 == at + DrawsPerLatency(c.from, c.to) + 3 * PointCount(s.timeRange)
    ensures AgreeExcept(s, r.0, {HistoricalDataField})
  {
    match s.selectedConnection
    case None => (s, at)
    case Some(c) =>
      var series := HistoricalSeries(c.from, c.to, s.timeRange, env, at, now);
      SeriesWindow(c.from, c.to, s.timeRange, env, at, now);
      WriteHistoricalData(s, series.0);
      (s.(historicalData := series.0), series.1)
  }

  /** `setTimeRange`: store the range, then regenerate the series if a connection is selected. */
  function SetTimeRange(s: AppState, range: TimeRange, env: Env, at: nat, now: int): (r: (AppState, nat))
    ensures r.0.timeRange == range
    ensures AgreeExcept(s, r.0, {TimeRangeField, HistoricalDataField})
    ensures s.selectedConnection.None? ==> r.0.historicalData == s.historicalData && r.1 == at
    ensures s.selectedConnection.Some? ==>
      var c := s.selectedConnection.value;
      r.0.historicalData == HistoricalSeries(c.from, c.to, range, env, at, now).0 &&
      r.1 == HistoricalSeries(c.from, c.to, range, env, at, now).1
    ensures s.selectedConnection.Some? ==>
      |r.0.historicalData| == PointCount(range) &&
      r.0.historicalData[0].timestamp == now - RangeSpec(range).0
  {
    var t := SetTimeRangeField(s, range);
    var r := InitializeHistoricalData(t, env, at, now);
    AgreeExceptTrans(s, t, r.0, {TimeRangeField}, {HistoricalDataField});
    if s.selectedConnection.None? then r
    else
      SeriesWindow(s.selectedConnection.value.from, s.selectedConnection.value.to, range, env, at, now);
      r
  }

  /** The assignment half of `setTimeRange`. */
  function SetTimeRangeField(s: AppState, range: TimeRange): (t: AppState)
    ensures t.timeRange == range && AgreeExcept(s, t, {TimeRangeField})
  {
    s.(timeRange := range)
  }

  /** `setSelectedConnection(from, to)`: store the pair, then generate its series. */
  function SetSelectedConnection(s: AppState, from: ExchangeServer, to: ExchangeServer, env: Env, at: nat, now: int)
    : (r: (AppState, nat))
    ensures r.0.selectedConnection == Some(Connection(from, to))
    ensures r.0.historicalData == HistoricalSeries(from, to, s.timeRange, env, at, now).0
    ensures r.1 == HistoricalSeries(from, to, s.timeRange, env, at, now).1
    ensures |r.0.historicalData| == PointCount(s.timeRange)
    ensures AgreeExcept(s, r.0, {SelectedConnectionField, HistoricalDataField})
  {
    var t := SetConnectionField(s, Connection(from, to));
    var r := InitializeHistoricalData(t, env, at, now);
    AgreeExceptTrans(s, t, r.0, {SelectedConnectionField}, {HistoricalDataField});
    r
  }

  /** The assignment half of `setSelectedConnection`. */
  function SetConnectionField(s: AppState, c: Connection): (t: AppState)
    ensures t.selectedConnection == Some(c) && AgreeExcept(s, t, {SelectedConnectionField})
  {
    s.(selectedConnection := Some(c))
  }

  /** `clearSelectedConnection`: drop the pair and its series together. */
  function ClearSelectedConnection(s: AppState): (t: AppState)
    ensures t.selectedConnection == None && t.historicalData == []
    ensures AgreeExcept(s, t, {SelectedConnectionField, HistoricalDataField})
  {
    s.(selectedConnection := None, historicalData := [])
  }

  /**
   `updateLatencyData`: a fresh batch over the static exchange table (not the
   state's own `exchanges` field), so always one entry per pair of the 16.
   */
  function UpdateLatencyData(s: AppState, env: Env, at: nat, now: int): (r: (AppState, nat))
    ensures r.0.latencyData == PairwiseLatencies(EXCHANGES, env, at, now).0
    ensures r.1 == PairwiseLatencies(EXCHANGES, env, at, now).1
    ensures |r.0.latencyData| == 120
    ensures AgreeExcept(s, r.0, {LatencyDataField})
  {
    RefreshFrom(s, EXCHANGES, env, at, now)
  }

  /** A fresh batch over a table of sixteen exchanges: 16 * 15 / 2 = 120 pairs. */
  function RefreshFrom(s: AppState, exs: seq<ExchangeServer>, env: Env, at: nat, now: int): (r: (AppState, nat))
    requires |exs| == 16
    ensures r.0.latencyData == PairwiseLatencies(exs, env, at, now).0
    ensures r.1 == PairwiseLatencies(exs, env, at, now).1
    ensures |r.0.latencyData| == 120
    ensures forall k :: 0 <= k < |r.0.latencyData| ==> r.0.latencyData[k].timestamp == now && r.0.latencyData[k].latency >= 1
    ensures AgreeExcept(s, r.0, {LatencyDataField})
  {
    var batch := PairwiseLatencies(exs, env, at, now);
    WriteLatencyData(s, batch.0);
    (s.(latencyData := batch.0), batch.1)
  }

  /** Editing the state's `exchanges` list has no effect on the next batch. */
  lemma UpdateIgnoresExchangesField(s: AppState, exs: seq<ExchangeServer>, env: Env, at: nat, now: int)
    ensures UpdateLatencyData(s.(exchanges := exs), env, at, now).0.latencyData ==
      UpdateLatencyData(s, env, at, now).0.latencyData
  {
  }

  // ---------------------------------------------------------------------------
  // The store invariant
  // ---------------------------------------------------------------------------

  /**
   What every reachable state satisfies: the exchange list is the static
   table, a batch is either absent or complete, and a series exists exactly
   when a connection does, with one point per sample of the current range.
   */
  predicate Consistent(s: AppState) {
    ConsistentOver(EXCHANGES, s)
  }

  /**
   The invariant for a given sixteen-exchange table. The lemmas below are
   stated over any such table, so that their proofs never unfold the
   concrete one.
   */
  predicate ConsistentOver(table: seq<ExchangeServer>, s: AppState) {
    s.exchanges == table &&
    (|s.latencyData| == 0 || |s.latencyData| == 120) &&
    |s.historicalData| == (if s.selectedConnection.Some? then PointCount(s.timeRange) else 0)
  }

  /** Changing none of the fields the invariant reads keeps it. */
  lemma ConsistentFrame(table: seq<ExchangeServer>, s: AppState, t: AppState, changed: set<Field>)
    requires ConsistentOver(table, s)
    requires AgreeExcept(s, t, changed)
    requires ExchangesField !in changed && LatencyDataField !in changed
    requires SelectedConnectionField !in changed && HistoricalDataField !in changed && TimeRangeField !in changed
    ensures ConsistentOver(table, t)
  {
    assert Agree(s, t, ExchangesField) && Agree(s, t, LatencyDataField);
    assert Agree(s, t, SelectedConnectionField) && Agree(s, t, HistoricalDataField) && Agree(s, t, TimeRangeField);
  }

  /** The invariant survives a fresh batch over the table: it always has 120 entries. */
  lemma RefreshConsistent(table: seq<ExchangeServer>, s: AppState, env: Env, at: nat, now: int)
    requires |table| == 16 && ConsistentOver(table, s)
    ensures ConsistentOver(table, RefreshFrom(s, table, env, at, now).0)
  {
    var t := RefreshFrom(s, table, env, at, now).0;
    assert Agree(s, t, ExchangesField) && Agree(s, t, SelectedConnectionField);
    assert Agree(s, t, HistoricalDataField) && Agree(s, t, TimeRangeField);
  }
}

/**
 The store's actions as data, and one dispatcher over them, so that a
 property of every action can be stated once.
 */
module StoreActions {
  import opened Types
  import opened Latency
  import opened ExchangeData
  import opened AppStore

  datatype Action =
    | SetSelectedExchanges(names: seq<string>)
    | SetSelectedProviders(providers: seq<CloudProvider>)
    | SetLatencyRange(range: (int, int))
    | SetTimeRange(timeRange: TimeRange)
    | SetShowRealtime(showRealtime: bool)
    | SetShowHistorical(showHistorical: bool)
    | SetShowRegions(showRegions: bool)
    | SetIsDarkMode(isDarkMode: bool)
    | SetSearchQuery(query: string)
    | SetSelectedConnection(from: ExchangeServer, to: ExchangeServer)
    | ClearSelectedConnection
    | UpdateLatencyData
    | InitializeHistoricalData

  /**
   Apply one action. The refresh regenerates the batch from the static
   table, exactly as `AppStore.UpdateLatencyData` does; the dispatcher itself
   is written over any sixteen-exchange table.
   */
  function Step(s: AppState, a: Action, env: Env, at: nat, now: int): (r: (AppState, nat))
    ensures r.1 >= at
  {
    StepOver(EXCHANGES, s, a, env, at, now)
  }

  function StepOver(table: seq<ExchangeServer>, s: AppState, a: Action, env: Env, at: nat, now: int): (r: (AppState, nat))
    requires |table| == 16
    ensures r.1 >= at
  {
    match a
    case SetSelectedExchanges(names) => (AppStore.SetSelectedExchanges(s, names), at)
    case SetSelectedProviders(providers) => (AppStore.SetSelectedProviders(s, providers), at)
    case SetLatencyRange(range) => (AppStore.SetLatencyRange(s, range), at)
    case SetTimeRange(range) => AppStore.SetTimeRange(s, range, env, at, now)
    case SetShowRealtime(show) => (AppStore.SetShowRealtime(s, show), at)
    case SetShowHistorical(show) => (AppStore.SetShowHistorical(s, show), at)
    case SetShowRegions(show) => (AppStore.SetShowRegions(s, show), at)
    case SetIsDarkMode(isDark) => (AppStore.SetIsDarkMode(s, isDark), at)
    case SetSearchQuery(query) => (AppStore.SetSearchQuery(s, query), at)
    case SetSelectedConnection(from, to) => AppStore.SetSelectedConnection(s, from, to, env, at, now)
    case ClearSelectedConnection => (AppStore.ClearSelectedConnection(s), at)
    case UpdateLatencyData => RefreshFrom(s, table, env, at, now)
    case InitializeHistoricalData => AppStore.InitializeHistoricalData(s, env, at, now)
  }

  /** The invariant survives the actions that regenerate or drop the series. */
  lemma HistoryStepConsistent(table: seq<ExchangeServer>, s: AppState, a: Action, env: Env, at: nat, now: int)
    requires |table| == 16 && ConsistentOver(table, s)
    requires a.SetTimeRange? || a.SetSelectedConnection? || a.ClearSelectedConnection? || a.InitializeHistoricalData?
    ensures ConsistentOver(table, StepOver(table, s, a, env, at, now).0)
  {
    var t := StepOver(table, s, a, env, at, now).0;
    assert Agree(s, t, ExchangesField) && Agree(s, t, LatencyDataField);
    match a
    case SetTimeRange(range) =>
      assert Agree(s, t, SelectedConnectionField);
    case SetSelectedConnection(from, to) =>
      assert Agree(s, t, TimeRangeField);
    case ClearSelectedConnection =>
    case InitializeHistoricalData =>
  }

  /** Every action keeps the invariant for the table it is run over. */
  lemma StepOverConsistent(table: seq<ExchangeServer>, s: AppState, a: Action, env: Env, at: nat, now: int)
    requires |table| == 16 && ConsistentOver(table, s)
    ensures ConsistentOver(table, StepOver(table, s, a, env, at, now).0)
  {
    var t := StepOver(table, s, a, env, at, now).0;
    match a
    case SetSelectedExchanges(_) => ConsistentFrame(table, s, t, {SelectedExchangesField});
    case SetSelectedProviders(_) => ConsistentFrame(table, s, t, {SelectedProvidersField});
    case SetLatencyRange(_) => ConsistentFrame(table, s, t, {LatencyRangeField});
    case SetShowRealtime(_) => ConsistentFrame(table, s, t, {ShowRealtimeField});
    case SetShowHistorical(_) => ConsistentFrame(table, s, t, {ShowHistoricalField});
    case SetShowRegions(_) => ConsistentFrame(table, s, t, {ShowRegionsField});
    case SetIsDarkMode(_) => ConsistentFrame(table, s, t, {IsDarkModeField});
    case SetSearchQuery(_) => ConsistentFrame(table, s, t, {SearchQueryField});
    case UpdateLatencyData => RefreshConsistent(table, s, env, at, now);
    case _ => HistoryStepConsistent(table, s, a, env, at, now);
  }

  /** The store invariant survives every action. */
  lemma StepConsistent(s: AppState, a: Action, env: Env, at: nat, now: int)
    requires Consistent(s)
    ensures Consistent(Step(s, a, env, at, now).0)
  {
    StepOverConsistent(EXCHANGES, s, a, env, at, now);
  }

  /**
   Apply a list of actions in order, each at its own clock reading
   (`Date.now()` when that action runs).
   */
  function Run(s: AppState, actions: seq<(Action, int)>, env: Env, at: nat): (r: (AppState, nat))
    ensures r.1 >= at
    decreases |actions|
  {
    if |actions| == 0 then (s, at)
    else
      var first := Step(s, actions[0].0, env, at, actions[0].1);
      Run(first.0, actions[1..], env, first.1)
  }

  /** A run of actions from a consistent state ends in a consistent state. */
  lemma {:induction false} RunConsistent(s: AppState, actions: seq<(Action, int)>, env: Env, at: nat)
    requires Consistent(s)
    ensures Consistent(Run(s, actions, env, at).0)
    decreases |actions|
  {
    if |actions| > 0 {
      StepConsistent(s, actions[0].0, env, at, actions[0].1);
      var first := Step(s, actions[0].0, env, at, actions[0].1);
      RunConsistent(first.0, actions[1..], env, first.1);
    }
  }

  /** Every state reachable from the initial store by any actions is consistent. */
  lemma ReachableConsistent(actions: seq<(Action, int)>, env: Env, at: nat)
    ensures Consistent(Run(Initial(), actions, env, at).0)
  {
    RunConsistent(Initial(), actions, env, at);
  }
}

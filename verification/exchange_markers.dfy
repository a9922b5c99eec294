/**
 The exchange markers on the globe (components/globe/ExchangeMarkers.tsx):
 which exchanges are drawn, the two-click selection of a connection, and
 the marker colour.
 */
module ExchangeMarkers {
  import opened Options
  import opened Types
  import opened Seqs
  import opened JsString
  import opened ExchangeData
  import opened Latency
  import opened AppStore
  import StoreActions

  /** The lower-cased query occurs in the lower-cased name or location. */
  predicate MatchesQuery(e: ExchangeServer, query: string) {
    Includes(ToLower(e.name), ToLower(query)) || Includes(ToLower(e.location), ToLower(query))
  }

  /**
   The filter callback: reject on provider, then on name (only when some
   names are selected), then test the search query (only when it is
   non-empty).
   */
  function KeepExchange(s: AppState, e: ExchangeServer): (keep: bool)
    ensures keep <==>
      e.provider in s.selectedProviders &&
      (s.selectedExchanges == [] || e.name in s.selectedExchanges) &&
      (s.searchQuery == [] || MatchesQuery(e, s.searchQuery))
  {
    if e.provider !in s.selectedProviders then false
    else if |s.selectedExchanges| > 0 && e.name !in s.selectedExchanges then false
    else if |s.searchQuery| > 0 then
      var query := ToLower(s.searchQuery);
      Includes(ToLower(e.name), query) || Includes(ToLower(e.location), query)
    else true
  }

  /** `filteredExchanges`: the store's exchanges the callback accepts, in order. */
  function FilteredExchanges(s: AppState): (r: seq<ExchangeServer>)
    ensures IsSubsequence(r, s.exchanges)
    ensures forall i :: 0 <= i < |r| ==> r[i] in s.exchanges && KeepExchange(s, r[i])
    ensures forall i :: 0 <= i < |s.exchanges| ==> (s.exchanges[i] in r <==> KeepExchange(s, s.exchanges[i]))
  {
    var keep := e => KeepExchange(s, e);
    FilterIsSubsequence(s.exchanges, keep);
    Filter(s.exchanges, keep)
  }

  /** Only exchanges of a selected provider are ever drawn. */
  lemma FilteredBySelectedProvider(s: AppState)
    ensures forall i :: 0 <= i < |FilteredExchanges(s)| ==> FilteredExchanges(s)[i].provider in s.selectedProviders
  {
  }

  /** The search is case-insensitive: lower-casing the query changes nothing. */
  lemma QueryCaseInsensitive(s: AppState, e: ExchangeServer)
    ensures KeepExchange(s.(searchQuery := ToLower(s.searchQuery)), e) == KeepExchange(s, e)
  {
    ToLowerIdempotent(s.searchQuery);
  }

  /** Selecting one more provider never hides an exchange that was shown. */
  lemma MoreProvidersShowMore(s: AppState, p: CloudProvider)
    ensures IsSubsequence(FilteredExchanges(s), FilteredExchanges(s.(selectedProviders := s.selectedProviders + [p])))
  {
    var t := s.(selectedProviders := s.selectedProviders + [p]);
    FilterWeaker(s.exchanges, e => KeepExchange(s, e), e => KeepExchange(t, e));
  }

  /** With every provider selected and no name or search filter, every exchange is drawn. */
  lemma UnfilteredShowsAll(s: AppState)
    requires AWS in s.selectedProviders && GCP in s.selectedProviders && Azure in s.selectedProviders
    requires s.selectedExchanges == [] && s.searchQuery == []
    ensures FilteredExchanges(s) == s.exchanges
  {
    forall e: ExchangeServer ensures KeepExchange(s, e) {
      match e.provider
      case AWS =>
      case GCP =>
      case Azure =>
    }
    FilterAll(s.exchanges, e => KeepExchange(s, e));
  }

  /** At start-up all sixteen exchanges are drawn. */
  lemma InitialShowsAllExchanges()
    ensures FilteredExchanges(Initial()) == EXCHANGES
  {
    UnfilteredShowsAll(Initial());
  }

  // ---------------------------------------------------------------------------
  // Two-click selection
  // ---------------------------------------------------------------------------

  /** The component's own state (`firstSelected`) next to the store. */
  datatype Markers = Markers(firstSelected: Option<ExchangeServer>, store: AppState)

  /**
   `handleMarkerClick(exchange)`: the first click remembers the exchange; a
   second click on the same exchange cancels and clears the store's
   connection; a click on another exchange selects the connection, opens the
   historical view and forgets the pending exchange.
   */
  function Click(m: Markers, e: ExchangeServer, env: Env, at: nat, now: int): (r: (Markers, nat))
    ensures m.firstSelected.None? ==> r == (Markers(Some(e), m.store), at)
    ensures m.firstSelected.Some? ==> r.0.firstSelected == None
    ensures m.firstSelected.Some? && m.firstSelected.value.id == e.id ==>
      r.0.store.selectedConnection == None && r.0.store.historicalData == [] && r.1 == at &&
      AgreeExcept(m.store, r.0.store, {SelectedConnectionField, HistoricalDataField})
    ensures m.firstSelected.Some? && m.firstSelected.value.id != e.id ==>
      r.0.store.selectedConnection == Some(Connection(m.firstSelected.value, e)) &&
      r.0.store.showHistorical &&
      r.0.store.historicalData == HistoricalSeries(m.firstSelected.value, e, m.store.timeRange, env, at, now).0 &&
      r.1 == HistoricalSeries(m.firstSelected.value, e, m.store.timeRange, env, at, now).1 &&
      |r.0.store.historicalData| == PointCount(m.store.timeRange) &&
      AgreeExcept(m.store, r.0.store, {SelectedConnectionField, HistoricalDataField, ShowHistoricalField})
  {
    match m.firstSelected
    case None => (Markers(Some(e), m.store), at)
    case Some(first) =>
      if first.id == e.id then
        (Markers(None, ClearSelectedConnection(m.store)), at)
      else
        var selected := SetSelectedConnection(m.store, first, e, env, at, now);
        var shown := SetShowHistorical(selected.0, true);
        AgreeExceptTrans(m.store, selected.0, shown, {SelectedConnectionField, HistoricalDataField}, {ShowHistoricalField});
        (Markers(None, shown), selected.1)
  }

  /** The stored connection, if any, joins two different exchanges. */
  predicate NoSelfConnection(s: AppState) {
    s.selectedConnection.Some? ==> s.selectedConnection.value.from.id != s.selectedConnection.value.to.id
  }

  /** A click never stores a connection from an exchange to itself. */
  lemma ClickNoSelfConnection(m: Markers, e: ExchangeServer, env: Env, at: nat, now: int)
    requires NoSelfConnection(m.store)
    ensures NoSelfConnection(Click(m, e, env, at, now).0.store)
  {
  }

  /** Clicks keep the store invariant. */
  lemma ClickConsistent(m: Markers, e: ExchangeServer, env: Env, at: nat, now: int)
    requires Consistent(m.store)
    ensures Consistent(Click(m, e, env, at, now).0.store)
  {
    if m.firstSelected.Some? {
      var first := m.firstSelected.value;
      if first.id == e.id {
        StoreActions.StepConsistent(m.store, StoreActions.ClearSelectedConnection, env, at, now);
      } else {
        StoreActions.StepConsistent(m.store, StoreActions.SetSelectedConnection(first, e), env, at, now);
        var selected := SetSelectedConnection(m.store, first, e, env, at, now).0;
        StoreActions.StepConsistent(selected, StoreActions.SetShowHistorical(true), env, at, now);
      }
    }
  }

  /** Clicking the same exchange twice from rest leaves nothing pending and no connection. */
  lemma DoubleClickCancels(s: AppState, e: ExchangeServer, env: Env, at: nat, now: int)
    ensures var once := Click(Markers(None, s), e, env, at, now);
      var twice := Click(once.0, e, env, once.1, now);
      twice.0.firstSelected == None && twice.0.store == ClearSelectedConnection(s)
  {
  }

  // ---------------------------------------------------------------------------
  // Marker colour
  // ---------------------------------------------------------------------------

  const SELECTED_COLOR: string := "#FFD700"

  /** `isSelected`: the marker is the pending first click. */
  predicate IsSelected(m: Markers, e: ExchangeServer) {
    m.firstSelected.Some? && m.firstSelected.value.id == e.id
  }

  /** Gold for the pending exchange, otherwise its provider's colour. */
  function MarkerColor(selected: bool, provider: CloudProvider): (color: string)
    ensures selected ==> color == SELECTED_COLOR
    ensures !selected ==> color == ProviderColor(provider)
    ensures color == SELECTED_COLOR <==> selected
  {
    if selected then SELECTED_COLOR else ProviderColor(provider)
  }

  /**
   After any click, a marker is gold exactly when that click was a first
   click and the marker carries the clicked exchange's id: a second click,
   on the same exchange or another, leaves no marker gold.
   */
  lemma GoldAfterClick(m: Markers, e: ExchangeServer, other: ExchangeServer, env: Env, at: nat, now: int)
    ensures var r := Click(m, e, env, at, now).0;
      MarkerColor(IsSelected(r, other), other.provider) == SELECTED_COLOR <==>
        m.firstSelected.None? && other.id == e.id
  {
  }
}

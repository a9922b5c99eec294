/**
 The control panel (components/ui/ControlPanel.tsx): the provider and
 exchange check-lists, the latency slider, the selection reset and the theme
 button, each as an update of the store.
 */
module ControlPanel {
  import opened Types
  import opened Seqs
  import opened JsString
  import opened ExchangeData
  import opened AppStore
  import opened ExchangeMarkers

  /**
   The check-list toggle: an entry that is present is removed (every copy of
   it); an absent entry is appended at the end.
   */
  function Toggle<T(==)>(xs: seq<T>, x: T): (r: seq<T>)
    ensures x in r <==> x !in xs
    ensures forall i :: 0 <= i < |xs| && xs[i] != x ==> xs[i] in r
    ensures forall i :: 0 <= i < |r| && r[i] != x ==> r[i] in xs
    ensures x !in xs ==> r == xs + [x]
    ensures x in xs ==> IsSubsequence(r, xs)
  {
    if x in xs then
      FilterIsSubsequence(xs, y => y != x);
      Filter(xs, y => y != x)
    else xs + [x]
  }

  /** Toggling twice restores membership of every entry. */
  lemma ToggleTwiceMembership<T>(xs: seq<T>, x: T, y: T)
    ensures y in Toggle(Toggle(xs, x), x) <==> y in xs
  {
    var once := Toggle(xs, x);
    var twice := Toggle(once, x);
    if y != x {
      if y in xs {
        var i :| 0 <= i < |xs| && xs[i] == y;
        var j :| 0 <= j < |once| && once[j] == y;
      }
      if y in twice {
        var j :| 0 <= j < |twice| && twice[j] == y;
        var i :| 0 <= i < |once| && once[i] == y;
      }
    }
  }

  /** Toggling an absent entry in and out again gives back the very same list. */
  lemma ToggleInOut<T>(xs: seq<T>, x: T)
    requires x !in xs
    ensures Toggle(Toggle(xs, x), x) == xs
  {
    var keep := y => y != x;
    FilterConcat(xs, [x], keep);
    FilterAll(xs, keep);
    assert Filter([x], keep) == [];
  }

  /** A list without duplicates stays without duplicates. */
  lemma ToggleNoDuplicates<T>(xs: seq<T>, x: T)
    requires NoDuplicates(xs)
    ensures NoDuplicates(Toggle(xs, x))
  {
    if x in xs {
      FilterNoDuplicates(xs, y => y != x);
    }
  }

  /** `handleProviderToggle(provider)`. */
  function ToggleProvider(s: AppState, p: CloudProvider): (t: AppState)
    ensures p in t.selectedProviders <==> p !in s.selectedProviders
    ensures forall q: CloudProvider :: q != p ==> (q in t.selectedProviders <==> q in s.selectedProviders)
    ensures AgreeExcept(s, t, {SelectedProvidersField})
  {
    var r := Toggle(s.selectedProviders, p);
    assert forall q: CloudProvider :: q != p && q in s.selectedProviders ==> q in r;
    assert forall q: CloudProvider :: q != p && q in r ==> q in s.selectedProviders;
    SetSelectedProviders(s, r)
  }

  /** `handleExchangeToggle(name)`. */
  function ToggleExchange(s: AppState, name: string): (t: AppState)
    ensures name in t.selectedExchanges <==> name !in s.selectedExchanges
    ensures forall i :: 0 <= i < |s.selectedExchanges| && s.selectedExchanges[i] != name ==>
      s.selectedExchanges[i] in t.selectedExchanges
    ensures forall i :: 0 <= i < |t.selectedExchanges| && t.selectedExchanges[i] != name ==>
      t.selectedExchanges[i] in s.selectedExchanges
    ensures AgreeExcept(s, t, {SelectedExchangesField})
  {
    SetSelectedExchanges(s, Toggle(s.selectedExchanges, name))
  }

  /** The provider checkbox shows membership. */
  predicate ProviderChecked(s: AppState, p: CloudProvider) {
    p in s.selectedProviders
  }

  /** The exchange checkbox: every box is ticked while nothing is selected. */
  predicate ExchangeChecked(s: AppState, name: string) {
    |s.selectedExchanges| == 0 || name in s.selectedExchanges
  }

  /** Clicking a provider checkbox flips that box and no other. */
  lemma ProviderBoxFlips(s: AppState, p: CloudProvider, q: CloudProvider)
    ensures ProviderChecked(ToggleProvider(s, p), q) == (if q == p then !ProviderChecked(s, q) else ProviderChecked(s, q))
  {
  }

  /**
   An exchange box is ticked exactly when the globe's name filter lets that
   exchange through, so the list and the globe always agree.
   */
  lemma CheckedIffNameFilterPasses(s: AppState, e: ExchangeServer)
    requires e.provider in s.selectedProviders && s.searchQuery == []
    ensures ExchangeChecked(s, e.name) <==> KeepExchange(s, e)
  {
  }

  /**
   From the all-ticked start, clicking one name leaves only that name ticked:
   the click adds it to the empty selection rather than removing it.
   */
  lemma FirstExchangeClickIsolates(s: AppState, name: string, other: string)
    requires s.selectedExchanges == []
    ensures ExchangeChecked(ToggleExchange(s, name), other) <==> other == name
  {
    assert ToggleExchange(s, name).selectedExchanges == [name];
  }

  /** "Clear selection": the name filter is dropped and every box is ticked again. */
  function ClearExchangeSelection(s: AppState): (t: AppState)
    ensures forall name :: ExchangeChecked(t, name)
    ensures AgreeExcept(s, t, {SelectedExchangesField})
  {
    SetSelectedExchanges(s, [])
  }

  /** The slider moves the upper end of the range and keeps the lower end. */
  function MoveSlider(s: AppState, value: int): (t: AppState)
    ensures t.latencyRange.0 == s.latencyRange.0 && t.latencyRange.1 == value
    ensures AgreeExcept(s, t, {LatencyRangeField})
  {
    SetLatencyRange(s, (s.latencyRange.0, value))
  }

  /** The theme button. */
  function ToggleTheme(s: AppState): (t: AppState)
    ensures t.isDarkMode != s.isDarkMode
    ensures AgreeExcept(s, t, {IsDarkModeField})
  {
    SetIsDarkMode(s, !s.isDarkMode)
  }

  /** Two presses of the theme button change nothing. */
  lemma ToggleThemeTwice(s: AppState)
    ensures ToggleTheme(ToggleTheme(s)) == s
  {
  }

  // ---------------------------------------------------------------------------
  // The exchange check-list
  // ---------------------------------------------------------------------------

  function Names(exs: seq<ExchangeServer>): (names: seq<string>)
    ensures |names| == |exs|
    ensures forall i :: 0 <= i < |exs| ==> names[i] == exs[i].name
  {
    seq(|exs|, i requires 0 <= i < |exs| => exs[i].name)
  }

  /** `uniqueExchangeNames` for a table: its names, each once, in ascending order. */
  function UniqueNames(exs: seq<ExchangeServer>): (r: seq<string>)
    ensures StrictlySorted(r)
    ensures NoDuplicates(r)
    ensures forall name :: name in r <==> name in Names(exs)
  {
    var distinct := Dedupe(Names(exs));
    var r := Sort(distinct);
    assert forall name :: name in r <==> name in multiset(r);
    SortedNoDuplicates(r);
    r
  }

  /** A strictly ascending list has no repeats. */
  lemma SortedNoDuplicates(r: seq<string>)
    requires StrictlySorted(r)
    ensures NoDuplicates(r)
  {
    forall i, j | 0 <= i < j < |r| ensures r[i] != r[j] {
      if r[i] == r[j] {
        LessIrreflexive(r[i]);
      }
    }
  }

  /** The names of the sixteen servers, in table order. */
  const TABLE_NAMES: seq<string> :=
    ["Binance", "Binance", "Binance", "OKX", "OKX", "Bybit", "Bybit", "Deribit",
     "Coinbase", "Coinbase", "Kraken", "Kraken", "Bitfinex", "Huobi", "KuCoin", "Gate.io"]

  lemma NamesOfTable()
    ensures Names(EXCHANGES) == TABLE_NAMES
  {
  }

  /** The ten exchange names of the table, in the order the check-list shows them. */
  const EXCHANGE_NAMES: seq<string> :=
    ["Binance", "Bitfinex", "Bybit", "Coinbase", "Deribit", "Gate.io", "Huobi", "Kraken", "KuCoin", "OKX"]

  lemma ExchangeNamesSorted()
    ensures StrictlySorted(EXCHANGE_NAMES)
  {
    var s := EXCHANGE_NAMES;
    forall i | 0 <= i < |s| - 1 ensures Less(s[i], s[i + 1]) {
      NeighboursOrdered(i);
    }
    ChainSorted(s);
  }

  lemma NeighboursOrdered(i: nat)
    requires i < |EXCHANGE_NAMES| - 1
    ensures Less(EXCHANGE_NAMES[i], EXCHANGE_NAMES[i + 1])
  {
    if i == 0 { assert Less("Binance", "Bitfinex"); }
    else if i == 1 { assert Less("Bitfinex", "Bybit"); }
    else if i == 2 { assert Less("Bybit", "Coinbase"); }
    else if i == 3 { assert Less("Coinbase", "Deribit"); }
    else if i == 4 { assert Less("Deribit", "Gate.io"); }
    else if i == 5 { assert Less("Gate.io", "Huobi"); }
    else if i == 6 { assert Less("Huobi", "Kraken"); }
    else if i == 7 { assert Less("Kraken", "KuCoin"); }
    else { assert Less("KuCoin", "OKX"); }
  }

  lemma SameNames(name: string)
    ensures name in TABLE_NAMES <==> name in EXCHANGE_NAMES
  {
  }

  /** The check-list of the shipped table: ten names, alphabetically. */
  lemma UniqueExchangeNamesOfTable()
    ensures UniqueNames(EXCHANGES) == EXCHANGE_NAMES
    ensures |UniqueNames(EXCHANGES)| == 10
  {
    var r := UniqueNames(EXCHANGES);
    NamesOfTable();
    ExchangeNamesSorted();
    forall name ensures name in r <==> name in EXCHANGE_NAMES {
      SameNames(name);
    }
    StrictlySortedUnique(r, EXCHANGE_NAMES);
  }
}

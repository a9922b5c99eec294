# latency-visualizer in Dafny

A Dafny model of the non-visual core of *latency-visualizer*, a Next.js
dashboard that shows simulated network latency between the servers of
cryptocurrency exchanges on a 3D globe. The modelled parts are these:

- the latency simulation utilities (`simulateLatency`, `generateLatencyData`,
  `getLatencyColor`, `generateHistoricalData`, `calculateStats`);
- the zustand store (`useAppStore`): its initial state and every action, as a
  record and transition functions, with a store invariant proved over any
  sequence of actions, each at its own clock reading;
- the filtering and selection rules of the globe and panel components: the
  exchange filter and the two-click connection selection on the markers, the
  check-list toggles, the slider and theme button of the control panel, the
  latency-range filter with its cap of twenty lines, the stats-panel figures
  and colours, and the provider filter on cloud regions;
- the static tables `EXCHANGES`, `CLOUD_REGIONS` and `PROVIDER_COLORS`, with
  the facts they guarantee (16 exchanges, so 120 pairs; 10 distinct names;
  13 regions; every exchange hosted by a listed region).

Ambient inputs become parameters. An `Env` carries three things: the
great-circle distance as a non-negative real in kilometres, `Math.sin` as a
function into [-1, 1], and the stream of `Math.random()` draws in [0, 1). A
`nat` cursor counts the draws consumed so far, and every generating function
returns the advanced cursor, so the draw order is the source's. `Date.now()`
is an `int` parameter `now`. `Math.round(x)` is `floor(x + 0.5)`. Coordinates
are integers in ten-thousandths of a degree: the table's coordinates all have
four decimals.

The pairwise batch is built by functions that take the measuring step as a
parameter (`Latency.Measure`: a pair and a cursor give a latency and the
advanced cursor). The program's batch, `Latency.PairwiseLatencies`, passes
`Latency.Simulator(env)`, which is `simulateLatency`; the loops
`Latency.GenerateRow` and `Latency.GenerateLatencyData` call
`simulateLatency` directly. The structural facts (entry order, endpoints,
timestamps) hold for any step, and the 1 ms floor for any step with that
floor, so those proofs do not depend on the latency arithmetic.

The module layout follows the source files:

| file | module | source |
|---|---|---|
| `types.dfy` | `Types` | `types/index.ts` |
| `exchange_data.dfy` | `ExchangeData` | `latency-visualizer/lib/data/exchanges.ts` |
| `latency.dfy` | `Latency` | `latency-visualizer/lib/utils/latency.ts` |
| `app_store.dfy` | `AppStore`, `StoreActions` | `lib/stores/appStore.ts` |
| `exchange_markers.dfy` | `ExchangeMarkers` | `latency-visualizer/components/globe/ExchangeMarkers.tsx` |
| `control_panel.dfy` | `ControlPanel` | `latency-visualizer/components/ui/ControlPanel.tsx` |
| `latency_connections.dfy` | `LatencyConnections` | `latency-visualizer/components/globe/LatencyConnections.tsx` |
| `stats_panel.dfy` | `StatsPanel` | `components/ui/StatsPanel.tsx` |
| `region_markers.dfy` | `RegionMarkers` | `components/globe/RegionMarkers.tsx` |
| `seqs.dfy`, `jsstring.dfy`, `jsmath.dfy`, `options.dfy` | `Seqs`, `JsString`, `JsMath`, `Options` | JavaScript built-ins: `filter`, `Set`, `sort`, `toLowerCase`, `includes`, `Math.round`, `Math.max` |

The comment at `latency-visualizer/lib/utils/latency.ts:51` calls the jitter
"±20%". The formula on the next line, `baseLatency * 0.2 * (Math.random() -
0.5)`, gives at most ±10% of the pre-jitter latency. The model follows the
code: `Latency.Jitter` proves the ±10% bound, and `Latency.JitterLowestDraw`
shows that the lowest draw takes off exactly 10%, never 20%.

## Model

| member | source | states |
|---|---|---|
| Latency.DistanceLatency | latency-visualizer/lib/utils/latency.ts:43-44 | the distance part is non-negative and is exactly 10 ms per 1000 km |
| Latency.ProviderPenalty | latency-visualizer/lib/utils/latency.ts:46-49 | the cross-provider overhead lies in [5, 15) ms |
| Latency.Jitter | latency-visualizer/lib/utils/latency.ts:51-52 | for a non-negative latency the jitter is within one tenth of it either way, and strictly below +10% for a positive one |
| Latency.JitterLowestDraw | latency-visualizer/lib/utils/latency.ts:51-52 | a zero draw removes exactly 10% of the latency, which is more than -20%, so the comment's ±20% is never reached |
| Latency.PreJitter | latency-visualizer/lib/utils/latency.ts:36-49 | the penalty is added, and one draw consumed, only when the providers differ; the result is non-negative |
| Latency.SimulateLatency | latency-visualizer/lib/utils/latency.ts:32-55 | the latency is an integer of at least 1 ms, lies between the rounded 90% and 110% of the pre-jitter value, and consumes one or two draws |
| Latency.SameProviderSamePlace | latency-visualizer/lib/utils/latency.ts:47-54 | two co-located exchanges of one provider always measure the 1 ms floor |
| Latency.CrossProviderSamePlace | latency-visualizer/lib/utils/latency.ts:47-54 | two co-located exchanges of different providers measure between 5 and 16 ms |
| Latency.TriangleClosedForm | latency-visualizer/lib/utils/latency.ts:66-67 | the nested loops visit m(m-1)/2 pairs |
| Latency.SimulatorWellBehaved | latency-visualizer/lib/utils/latency.ts:32-55 | the measuring step the batch repeats always gives at least 1 ms and never moves the draw cursor back |
| Latency.PairsEntries | latency-visualizer/lib/utils/latency.ts:67-77 | the inner loop for exchange i yields one entry per later exchange j, with fromId of i, toId of j and timestamp `now` |
| Latency.PairsAtLeastOneMs | latency-visualizer/lib/utils/latency.ts:69-76 | with a step that never measures below 1 ms, every entry of a row has a latency of at least 1 |
| Latency.PairsMeasured | latency-visualizer/lib/utils/latency.ts:67-75 | entry k of row i carries the step's measurement of its own pair (i, j + k), taken at the cursor the earlier entries of the row left |
| Latency.PairwiseLatencies | latency-visualizer/lib/utils/latency.ts:60-82 | a batch has n(n-1)/2 entries, all stamped with the same `now` and at least 1 ms; zero or one exchange gives an empty batch |
| Latency.RowsStamped | latency-visualizer/lib/utils/latency.ts:63-79 | every entry of every row carries the single captured `now` and, for a step that never measures below 1 ms, a latency of at least 1 |
| Latency.RowsEntryEndpoints | latency-visualizer/lib/utils/latency.ts:66-77 | each entry joins an exchange to a strictly later one of the list |
| Latency.PairwiseEndpoints | latency-visualizer/lib/utils/latency.ts:66-77 | every batch entry joins exchanges i < j of the input, so no entry pairs an exchange with itself or an unknown id |
| Latency.PairIndexRowMajor | latency-visualizer/lib/utils/latency.ts:66-67 | the batch is in row-major order: pair (i, j) comes before (i', j') when i < i', or when i = i' and j < j' |
| Latency.RowsFromAt | latency-visualizer/lib/utils/latency.ts:66-77 | the pair (i, j) sits at its row-major index in the rows from any earlier start |
| Latency.RowsMeasuredAt | latency-visualizer/lib/utils/latency.ts:66-77 | the entry at the row-major index of (i, j) carries the step's measurement of exchanges i and j themselves |
| Latency.PairwiseEntry | latency-visualizer/lib/utils/latency.ts:66-77 | every pair i < j of the input has its entry in the batch, at its row-major index, with fromId of i, toId of j, and the latency `simulateLatency(exchanges[i], exchanges[j])` gives at the draw cursor reached by then |
| Latency.PairwiseEntryBand | latency-visualizer/lib/utils/latency.ts:43-77 | the latency stored for pair (i, j) lies in that pair's own rounded 90%..110% band of its pre-jitter latency, floored at 1 ms |
| Latency.RowPrefixThenRest | latency-visualizer/lib/utils/latency.ts:67-78 | the entries the inner loop has built, followed by the rest of the row from the loop's cursor, are the whole row, and the final cursors agree |
| Latency.RowsPrefixThenRest | latency-visualizer/lib/utils/latency.ts:66-79 | the rows the outer loop has built, followed by the remaining rows from its cursor, are the whole batch, and the final cursors agree |
| Latency.GenerateRow | latency-visualizer/lib/utils/latency.ts:67-78 | the inner loop computes exactly the row of pairs (i, j > i) and the draw cursor after it |
| Latency.GenerateLatencyData | latency-visualizer/lib/utils/latency.ts:60-82 | the imperative double loop yields exactly the functional batch and draw cursor |
| Latency.LevelOf | latency-visualizer/lib/utils/latency.ts:87-91 | the three buckets are exactly < 50, 50..149 and >= 150 |
| Latency.LatencyColor | latency-visualizer/lib/utils/latency.ts:87-91 | green iff below 50, amber iff 50..149, red iff 150 or more |
| Latency.LevelMonotone | latency-visualizer/lib/utils/latency.ts:87-91 | a larger latency never gets a milder bucket; 50 and 150 open the higher bucket |
| Latency.PointCountQuotient | latency-visualizer/lib/utils/latency.ts:102-113 | the countdown from duration to 0 visits duration/interval + 1 offsets, that is 61, 97, 169 and 121 for 1h, 24h, 7d and 30d |
| Latency.RangeSpec | latency-visualizer/lib/utils/latency.ts:102-107 | every range's interval is positive and divides its duration, giving duration/interval + 1 samples, the range's point count |
| Latency.HistoricalPoint | latency-visualizer/lib/utils/latency.ts:114-130 | a point has timestamp now-offset and latency at least 1, stays within [base-15, base+25] clamped at 1, and keeps min <= latency <= max and min <= avg <= max with max-min <= 20 |
| Latency.SeriesSpacing | latency-visualizer/lib/utils/latency.ts:113-114 | consecutive timestamps are exactly one interval apart |
| Latency.HistoricalSeries | latency-visualizer/lib/utils/latency.ts:96-134 | a series has one point per sample of the range and uses one latency's draws plus three per point |
| Latency.SeriesWindow | latency-visualizer/lib/utils/latency.ts:102-114 | a series starts at now minus the range's duration, ends at `now`, and its samples are one interval apart |
| Latency.SeriesSamplesOrdered | latency-visualizer/lib/utils/latency.ts:111-130 | every sample of a series has a latency of at least 1 ms, min <= latency <= max and min <= avg <= max, and stays within -15..+25 ms (floored at 1) of the pair's baseline `simulateLatency(from, to)` |
| Latency.SeriesSampleAt | latency-visualizer/lib/utils/latency.ts:111-131 | sample k of a series is the point `duration - k * interval` before `now` around the pair's baseline latency, from the three draws after the baseline's and the earlier samples' |
| Latency.SampleSeries | latency-visualizer/lib/utils/latency.ts:113-131 | the countdown loop yields exactly the functional series and draws three values per point |
| Latency.GenerateHistoricalData | latency-visualizer/lib/utils/latency.ts:96-134 | the imperative generator equals the functional series and draw cursor |
| Latency.MinOf | latency-visualizer/lib/utils/latency.ts:153 | the minimum is an element and no element is smaller |
| Latency.MaxOf | latency-visualizer/lib/utils/latency.ts:154 | the maximum is an element and no element is larger |
| Latency.RoundedMean | latency-visualizer/lib/utils/latency.ts:155 | `Math.round(sum / length)` is the integer in (mean - 0.5, mean + 0.5] of the exact mean, and so lies between the minimum and maximum |
| Latency.RoundedMeanUnique | latency-visualizer/lib/utils/latency.ts:155 | any integer within half of the mean, upper end included, is the rounded mean: the contract above determines it |
| Latency.RoundedMeanTieGoesUp | latency-visualizer/lib/utils/latency.ts:155 | a mean halfway between two integers rounds up, as `Math.round` does: 1 and 2 average to 2 |
| Latency.CalculateStats | latency-visualizer/lib/utils/latency.ts:146-157 | an empty series gives {0, 0, 0}; otherwise min and max are latencies of the series and bound every latency, and avg is the rounded mean of the latencies, which they enclose |
| Latency.ConstantSeriesStats | latency-visualizer/lib/utils/latency.ts:146-157 | a constant series gives that constant as min, max and avg |
| JsMath.Round | latency-visualizer/lib/utils/latency.ts:54 | `Math.round(x)` lies in (x-0.5, x+0.5] |
| JsMath.RoundMonotone | latency-visualizer/lib/utils/latency.ts:54 | rounding preserves order |
| JsMath.RoundInt | latency-visualizer/lib/utils/latency.ts:54 | rounding an integer gives it back |
| JsMath.MaxInt | latency-visualizer/lib/utils/latency.ts:54 | `Math.max(a, b)` is one of a and b and no smaller than either |
| JsMath.MaxReal | latency-visualizer/lib/utils/latency.ts:118 | `Math.max(a, b)` on reals is one of a and b and no smaller than either |
| ExchangeData.ProviderColor | latency-visualizer/lib/data/exchanges.ts:281-285 | every provider has an entry in the colour map, and the lookup returns it |
| ExchangeData.ProviderColorsDistinct | latency-visualizer/lib/data/exchanges.ts:281-285 | the three provider colours are pairwise different |
| ExchangeData.CoordinatesInRange | latency-visualizer/lib/data/exchanges.ts:3-279 | every exchange and region lies in latitude [-90, 90] and longitude [-180, 180] |
| ExchangeData.ExchangeIdsDistinct | latency-visualizer/lib/data/exchanges.ts:3-167 | there are 16 exchanges with pairwise-distinct ids |
| ExchangeData.RegionIdsDistinct | latency-visualizer/lib/data/exchanges.ts:169-279 | there are 13 regions (7 AWS, 4 GCP, 2 Azure) with pairwise-distinct ids |
| ExchangeData.RegionBlocksByProvider | latency-visualizer/lib/data/exchanges.ts:169-279 | the region table lists AWS, then GCP, then Azure regions, each block of one provider |
| ExchangeData.ProviderColorsTotal | latency-visualizer/lib/data/exchanges.ts:281-285 | the colour map covers every provider, so every exchange's lookup succeeds |
| ExchangeData.SameNameSameColor | latency-visualizer/lib/data/exchanges.ts:3-167 | exchanges that share a name share a colour; Binance is #F3BA2F |
| ExchangeData.EveryExchangeHasHomeRegion | latency-visualizer/lib/data/exchanges.ts:3-279 | every exchange's (provider, region) is the (provider, code) of a listed region |
| ExchangeData.HomeRegion | latency-visualizer/lib/data/exchanges.ts:3-279 | the region listed for each exchange in a fixed index table hosts that exchange |
| ExchangeData.ColorFollowsName | latency-visualizer/lib/data/exchanges.ts:3-167 | an exchange's colour is determined by its name alone |
| ExchangeData.AwsAmericaEuropeServerCounts | latency-visualizer/lib/data/exchanges.ts:171-202 | the first four AWS regions' server counts equal the exchanges they host |
| ExchangeData.AwsSingaporeServerCount | latency-visualizer/lib/data/exchanges.ts:203-210 | AWS Singapore hosts four exchanges, matching its serverCount |
| ExchangeData.AwsNortheastAsiaServerCounts | latency-visualizer/lib/data/exchanges.ts:211-226 | AWS Tokyo and Seoul server counts equal the exchanges they host |
| ExchangeData.GcpServerCounts | latency-visualizer/lib/data/exchanges.ts:228-261 | each GCP region's server count equals the exchanges it hosts |
| ExchangeData.AzureServerCounts | latency-visualizer/lib/data/exchanges.ts:263-278 | each Azure region's server count equals the exchanges it hosts |
| ExchangeData.ServerCountsMatchExchanges | latency-visualizer/lib/data/exchanges.ts:169-279 | as written, every region's serverCount is the number of exchanges it hosts |
| AppStore.AgreeEverywhere | lib/stores/appStore.ts:12-46 | two states that agree on all thirteen fields are equal |
| AppStore.Initial | lib/stores/appStore.ts:48-66 | the store starts consistent, with no connection, data or series, the providers [AWS, GCP, Azure] in that order, range [0, 500], 24h, real-time and regions shown, history and dark mode off |
| AppStore.SetSelectedExchanges | lib/stores/appStore.ts:69 | stores the names and changes no other field |
| AppStore.SetSelectedProviders | lib/stores/appStore.ts:70 | stores the providers and changes no other field |
| AppStore.SetLatencyRange | lib/stores/appStore.ts:71 | stores the range and changes no other field |
| AppStore.SetShowRealtime | lib/stores/appStore.ts:76 | stores the flag and changes no other field |
| AppStore.SetShowHistorical | lib/stores/appStore.ts:77 | stores the flag and changes no other field |
| AppStore.SetShowRegions | lib/stores/appStore.ts:78 | stores the flag and changes no other field |
| AppStore.SetIsDarkMode | lib/stores/appStore.ts:79 | stores the flag and changes no other field |
| AppStore.SetSearchQuery | lib/stores/appStore.ts:80 | stores the query and changes no other field |
| AppStore.SetterLastWriteWins | lib/stores/appStore.ts:69 | for `setSelectedExchanges`: of two writes the last one wins, and writing the current value changes nothing |
| AppStore.InitializeHistoricalData | lib/stores/appStore.ts:96-106 | without a connection nothing changes and no draw is used; with one, the series for that pair at the current range replaces the old one and ends at `now`; no other field changes |
| AppStore.SetTimeRange | lib/stores/appStore.ts:72-75 | the range is stored; with a connection selected the series becomes exactly that pair's series for the new range (one point per sample, starting one duration before `now`), with the draws it consumes; without one the series and the draws are untouched; nothing else changes |
| AppStore.SetTimeRangeField | lib/stores/appStore.ts:73 | the assignment half stores the range and nothing else |
| AppStore.SetSelectedConnection | lib/stores/appStore.ts:82-85 | the pair is stored in click order and its series for the current range replaces the old one, with the draws that series consumes; no other field changes |
| AppStore.SetConnectionField | lib/stores/appStore.ts:83 | the assignment half stores the pair and nothing else |
| AppStore.ClearSelectedConnection | lib/stores/appStore.ts:87-89 | the pair and its series are dropped together; nothing else changes |
| AppStore.RefreshFrom | lib/stores/appStore.ts:91-94 | a refresh over a 16-exchange table (the static table for `updateLatencyData`) stores that table's batch of 16*15/2 = 120 entries, all stamped `now` and at least 1 ms; nothing else changes |
| AppStore.UpdateLatencyData | lib/stores/appStore.ts:91-94 | `updateLatencyData` stores the batch of the static 16-exchange table, 120 entries, with the draws it consumes; nothing else changes |
| AppStore.UpdateIgnoresExchangesField | lib/stores/appStore.ts:92 | editing the state's own exchange list has no effect on the next batch |
| AppStore.ConsistentFrame | lib/stores/appStore.ts:12-46 | an update that touches none of the invariant's fields keeps the invariant |
| StoreActions.HistoryStepConsistent | lib/stores/appStore.ts:72-106 | the actions that regenerate or drop the series keep the invariant |
| AppStore.RefreshConsistent | lib/stores/appStore.ts:91-94 | a refresh keeps the invariant: it stores a complete batch and touches nothing else |
| StoreActions.StepOverConsistent | lib/stores/appStore.ts:68-106 | over any 16-exchange table, every action keeps the invariant relative to that table |
| StoreActions.StepConsistent | lib/stores/appStore.ts:68-106 | every action keeps the invariant: the static exchange list, no batch or a full one, and a series of the current range's length exactly when a connection is selected |
| StoreActions.RunConsistent | lib/stores/appStore.ts:68-106 | any run of actions, each at its own clock reading, from a consistent state ends consistent |
| StoreActions.ReachableConsistent | lib/stores/appStore.ts:48-106 | every state reachable from the initial store by actions at any clock readings is consistent |
| ExchangeMarkers.KeepExchange | latency-visualizer/components/globe/ExchangeMarkers.tsx:113-137 | an exchange passes iff its provider is selected, the name list is empty or holds its name, and the query is empty or occurs case-insensitively in its name or location |
| ExchangeMarkers.FilteredExchanges | latency-visualizer/components/globe/ExchangeMarkers.tsx:112-138 | the drawn exchanges are an order-preserving subsequence of the store's list, holding exactly those that pass |
| ExchangeMarkers.FilteredBySelectedProvider | latency-visualizer/components/globe/ExchangeMarkers.tsx:115-117 | no exchange of an unselected provider is drawn |
| ExchangeMarkers.QueryCaseInsensitive | latency-visualizer/components/globe/ExchangeMarkers.tsx:128-135 | lower-casing the query changes no filtering decision |
| ExchangeMarkers.MoreProvidersShowMore | latency-visualizer/components/globe/ExchangeMarkers.tsx:115-117 | selecting one more provider never hides a drawn exchange |
| ExchangeMarkers.UnfilteredShowsAll | latency-visualizer/components/globe/ExchangeMarkers.tsx:112-138 | with every provider and no name or query filter, every exchange is drawn |
| ExchangeMarkers.InitialShowsAllExchanges | latency-visualizer/components/globe/ExchangeMarkers.tsx:112-138 | at start-up all sixteen exchanges are drawn |
| ExchangeMarkers.Click | latency-visualizer/components/globe/ExchangeMarkers.tsx:140-154 | the first click records the exchange and leaves the store alone; clicking it again clears it and the store's connection; clicking another stores (pending, clicked) with exactly that pair's series and draws, shows history and clears the pending one |
| ExchangeMarkers.ClickNoSelfConnection | latency-visualizer/components/globe/ExchangeMarkers.tsx:144-153 | a click never stores a connection from an exchange to itself |
| ExchangeMarkers.ClickConsistent | latency-visualizer/components/globe/ExchangeMarkers.tsx:140-154 | clicks keep the store invariant |
| ExchangeMarkers.DoubleClickCancels | latency-visualizer/components/globe/ExchangeMarkers.tsx:141-147 | clicking one exchange twice leaves nothing pending and clears the connection and series |
| ExchangeMarkers.MarkerColor | latency-visualizer/components/globe/ExchangeMarkers.tsx:47 | a marker is gold exactly when selected, otherwise in its provider's colour |
| ExchangeMarkers.IsSelected | latency-visualizer/components/globe/ExchangeMarkers.tsx:163 | a marker is selected when its id is the pending first click's id |
| ExchangeMarkers.GoldAfterClick | latency-visualizer/components/globe/ExchangeMarkers.tsx:140-163 | after a click a marker is gold exactly when the click was a first click and the marker has the clicked id; a second click leaves none gold |
| ControlPanel.Toggle | latency-visualizer/components/ui/ControlPanel.tsx:37-51 | the toggled entry's membership flips, every other entry keeps its membership, an absent entry is appended at the end, and a present one is removed keeping the others in order |
| ControlPanel.ToggleTwiceMembership | latency-visualizer/components/ui/ControlPanel.tsx:37-43 | toggling the same entry twice restores every entry's membership |
| ControlPanel.ToggleInOut | latency-visualizer/components/ui/ControlPanel.tsx:37-43 | adding and then removing an absent entry gives back the very same list |
| ControlPanel.ToggleNoDuplicates | latency-visualizer/components/ui/ControlPanel.tsx:37-43 | a duplicate-free list stays duplicate-free |
| ControlPanel.ToggleProvider | latency-visualizer/components/ui/ControlPanel.tsx:37-43 | the clicked provider's membership flips, every other provider keeps its own, and no other store field changes |
| ControlPanel.ProviderChecked | latency-visualizer/components/ui/ControlPanel.tsx:187 | a provider box is ticked when the provider is in the selection |
| ControlPanel.ToggleExchange | latency-visualizer/components/ui/ControlPanel.tsx:45-51 | the clicked name's membership flips, every other name keeps its own, and no other store field changes |
| ControlPanel.ExchangeChecked | latency-visualizer/components/ui/ControlPanel.tsx:212-215 | an exchange box is ticked while no name is selected, and otherwise when its name is selected |
| ControlPanel.ProviderBoxFlips | latency-visualizer/components/ui/ControlPanel.tsx:187-188 | clicking a provider box flips that box and no other |
| ControlPanel.CheckedIffNameFilterPasses | latency-visualizer/components/ui/ControlPanel.tsx:212-215 | an exchange box is ticked exactly when the globe's name filter lets the exchange through |
| ControlPanel.FirstExchangeClickIsolates | latency-visualizer/components/ui/ControlPanel.tsx:212-216 | from the all-ticked start, one click leaves only the clicked name ticked |
| ControlPanel.ClearExchangeSelection | latency-visualizer/components/ui/ControlPanel.tsx:225-231 | after "Clear selection" every exchange box is ticked, and no other field changes |
| ControlPanel.MoveSlider | latency-visualizer/components/ui/ControlPanel.tsx:245-252 | the slider sets the upper bound, keeps the lower bound, and changes nothing else |
| ControlPanel.ToggleTheme | latency-visualizer/components/ui/ControlPanel.tsx:82 | the theme button negates dark mode and changes nothing else |
| ControlPanel.ToggleThemeTwice | latency-visualizer/components/ui/ControlPanel.tsx:82 | two presses restore the state |
| ControlPanel.UniqueNames | latency-visualizer/components/ui/ControlPanel.tsx:31-33 | the check-list is strictly ascending, duplicate-free, and holds exactly the table's names |
| ControlPanel.UniqueExchangeNamesOfTable | latency-visualizer/components/ui/ControlPanel.tsx:31-33 | the shipped table gives exactly ten names: Binance, Bitfinex, Bybit, Coinbase, Deribit, Gate.io, Huobi, Kraken, KuCoin, OKX |
| LatencyConnections.KeepConnection | latency-visualizer/components/globe/LatencyConnections.tsx:136-143 | an entry is kept iff lower <= latency <= upper, both ends inclusive |
| LatencyConnections.FilteredConnections | latency-visualizer/components/globe/LatencyConnections.tsx:135-144 | the filtered lines are an order-preserving subsequence of the batch, holding exactly the entries in range |
| LatencyConnections.WiderRangeShowsMore | latency-visualizer/components/globe/LatencyConnections.tsx:138 | widening the range never removes a line |
| LatencyConnections.InvertedRangeShowsNothing | latency-visualizer/components/globe/LatencyConnections.tsx:138 | a range with lower > upper shows nothing |
| LatencyConnections.RaisingSliderShowsMore | latency-visualizer/components/globe/LatencyConnections.tsx:135-144 | raising the slider only adds lines |
| LatencyConnections.VisibleConnections | latency-visualizer/components/globe/LatencyConnections.tsx:147-150 | the visible lines are exactly the first min(20, n) filtered ones |
| LatencyConnections.VisibleWithinRange | latency-visualizer/components/globe/LatencyConnections.tsx:135-150 | every visible line is in range, and the visible lines keep batch order |
| LatencyConnections.DrawnLines | latency-visualizer/components/globe/LatencyConnections.tsx:135-160 | with real-time off nothing is drawn (the `showRealtime &&` switch at components/globe/Globe.tsx:43); otherwise exactly the first twenty in-range lines of the batch (`filteredConnections.slice(0, 20)`), all from the batch and in range |
| LatencyConnections.Find | latency-visualizer/components/globe/LatencyConnections.tsx:41-42 | the lookup fails iff no exchange has the id, and otherwise returns an exchange of the list with that id |
| LatencyConnections.FindFirst | latency-visualizer/components/globe/LatencyConnections.tsx:41-42 | the lookup returns the first exchange with the id |
| LatencyConnections.Resolve | latency-visualizer/components/globe/LatencyConnections.tsx:41-64 | a line is drawn iff both endpoints are found, and then joins them with the entry's latency in `getLatencyColor`'s colour |
| LatencyConnections.BatchResolves | latency-visualizer/components/globe/LatencyConnections.tsx:41-64 | every entry of a batch generated from a list resolves against that list |
| LatencyConnections.RefreshedLinesResolve | latency-visualizer/components/globe/LatencyConnections.tsx:123-130 | after a refresh, every stored line has both endpoints in the store's list |
| StatsPanel.ActiveExchanges | components/ui/StatsPanel.tsx:33-35 | the counted exchanges are an order-preserving subsequence holding exactly those of a selected provider |
| StatsPanel.AllProvidersCountAll | components/ui/StatsPanel.tsx:33-35 | with every provider selected, every exchange is counted |
| StatsPanel.InitialCount | components/ui/StatsPanel.tsx:33-35 | at start-up the panel counts 16 exchanges |
| StatsPanel.NoProviderCountsNone | components/ui/StatsPanel.tsx:33-35 | with no provider selected, nothing is counted |
| StatsPanel.CountCoversGlobe | components/ui/StatsPanel.tsx:33-35 | the count includes every exchange the globe draws, and equals it when no name or search filter is set |
| StatsPanel.AvgLatency | components/ui/StatsPanel.tsx:37-42 | 0 for an empty batch; otherwise the rounded mean of the batch's latencies, within half of the exact mean |
| StatsPanel.UniformBatchAverage | components/ui/StatsPanel.tsx:37-42 | a batch of equal latencies averages to that latency |
| StatsPanel.RefreshedPanel | components/ui/StatsPanel.tsx:37-85 | after a refresh the panel shows 120 connections and a mean of at least 1 ms |
| StatsPanel.AvgIndicator | components/ui/StatsPanel.tsx:94-98 | the mean is green iff below 50, yellow iff 50..149, red iff 150 or more |
| StatsPanel.AvgIndicatorMatchesLines | components/ui/StatsPanel.tsx:94-98 | the mean is coloured like a line of the same latency on the globe |
| StatsPanel.FpsIndicator | components/ui/StatsPanel.tsx:58-62 | the frame rate is green iff at least 50, yellow iff 30..49, red iff below 30 |
| StatsPanel.IndicatorsMonotone | components/ui/StatsPanel.tsx:58-98 | more frames never show a worse colour, and a higher mean latency never a better one |
| StatsPanel.FpsReading | components/ui/StatsPanel.tsx:19-20 | a reading over at least one second lies between 0 and the number of frames counted |
| RegionMarkers.RegionsOf | components/globe/RegionMarkers.tsx:98-102 | the shown regions are an order-preserving subsequence holding exactly those of a selected provider |
| RegionMarkers.FilteredRegions | components/globe/RegionMarkers.tsx:98-102 | over the shipped table: an order-preserving subsequence holding exactly the regions of selected providers |
| RegionMarkers.BlockAllOrNothing | components/globe/RegionMarkers.tsx:98-102 | a block of one provider's regions is shown whole or not at all |
| RegionMarkers.FilteredRegionsByBlock | components/globe/RegionMarkers.tsx:98-102 | the result is the AWS, GCP and Azure blocks of the selected providers, in table order |
| RegionMarkers.RegionCount | components/globe/RegionMarkers.tsx:98-102 | the number of rings is 7, 4 and 2 summed over the selected providers |
| RegionMarkers.AllOrNoProviders | components/globe/RegionMarkers.tsx:98-102 | all providers show the whole table of 13; none shows nothing |
| RegionMarkers.MoreProvidersMoreRegions | components/globe/RegionMarkers.tsx:98-102 | selecting one more provider never removes a ring |
| RegionMarkers.RegionColor | components/globe/RegionMarkers.tsx:43 | a ring takes its provider's colour from the map |
| RegionMarkers.RegionColorsTellProvidersApart | components/globe/RegionMarkers.tsx:43 | two rings share a colour iff they share a provider |
| RegionMarkers.DrawnRegions | components/globe/Globe.tsx:46 | with regions off nothing is drawn; otherwise exactly the filtered regions |
| RegionMarkers.InitialDrawsAllRegions | components/globe/RegionMarkers.tsx:98-102 | at start-up all 13 rings are drawn |
| Seqs.SubsequenceElements | latency-visualizer/components/globe/ExchangeMarkers.tsx:113 | a subsequence holds only elements of the original and is no longer |
| Seqs.Filter | latency-visualizer/components/globe/ExchangeMarkers.tsx:113-137 | `filter` keeps exactly the accepted elements and never lengthens the list |
| Seqs.FilterIsSubsequence | latency-visualizer/components/globe/ExchangeMarkers.tsx:113-137 | `filter` keeps order |
| Seqs.FilterWeaker | latency-visualizer/components/globe/LatencyConnections.tsx:136-143 | a weaker test keeps a superset, in the same order |
| Seqs.FilterConcat | components/globe/RegionMarkers.tsx:99-101 | filtering distributes over concatenation |
| Seqs.FilterAll | components/globe/RegionMarkers.tsx:99-101 | a test accepting everything changes nothing |
| Seqs.FilterNone | components/globe/RegionMarkers.tsx:99-101 | a test rejecting everything leaves nothing |
| Seqs.FilterSame | components/ui/StatsPanel.tsx:33-35 | tests that agree on the elements filter alike |
| Seqs.FilterNoDuplicates | latency-visualizer/components/ui/ControlPanel.tsx:39 | filtering introduces no duplicate |
| Seqs.Dedupe | latency-visualizer/components/ui/ControlPanel.tsx:31-32 | `Array.from(new Set(s))` keeps each element of s exactly once and nothing else |
| JsString.LowerChar | latency-visualizer/components/globe/ExchangeMarkers.tsx:129-132 | upper-case ASCII letters move down by 32, other characters stay, no upper-case letter remains |
| JsString.ToLower | latency-visualizer/components/globe/ExchangeMarkers.tsx:129-132 | lower-casing keeps the length and maps every character |
| JsString.ToLowerIdempotent | latency-visualizer/components/globe/ExchangeMarkers.tsx:129-132 | lower-casing twice is lower-casing once |
| JsString.IncludesIffOccurs | latency-visualizer/components/globe/ExchangeMarkers.tsx:131-132 | `includes` holds iff the needle occurs at some offset, both ways |
| JsString.IncludesEmpty | latency-visualizer/components/globe/ExchangeMarkers.tsx:131-132 | every string includes the empty string |
| JsString.LessIrreflexive | latency-visualizer/components/ui/ControlPanel.tsx:33 | no string sorts before itself |
| JsString.LessTransitive | latency-visualizer/components/ui/ControlPanel.tsx:33 | the sort order is transitive |
| JsString.LessTotal | latency-visualizer/components/ui/ControlPanel.tsx:33 | of two different strings one sorts first |
| JsString.LessAsymmetric | latency-visualizer/components/ui/ControlPanel.tsx:33 | two strings never sort before each other |
| JsString.ChainSorted | latency-visualizer/components/ui/ControlPanel.tsx:33 | ordered neighbours make a strictly ascending list |
| JsString.Insert | latency-visualizer/components/ui/ControlPanel.tsx:33 | inserting into an ascending list keeps it ascending and adds exactly the one string |
| JsString.Sort | latency-visualizer/components/ui/ControlPanel.tsx:33 | `sort()` returns a strictly ascending permutation of distinct strings |
| JsString.StrictlySortedUnique | latency-visualizer/components/ui/ControlPanel.tsx:33 | two strictly ascending lists with the same elements are equal |

## Left out

- `calculateDistance` (latency-visualizer/lib/utils/latency.ts:6-27): the Haversine formula is floating-point trigonometry. The model takes the distance as a non-negative real from `Env`.
- `Math.random`, `Math.sin` and `Date.now`: these are parameters (`Env.random`, `Env.sine`, `now`) with their ranges as types, not a random source or a clock.
- Floating point: every real is exact. The model does not reproduce IEEE rounding in the latency arithmetic.
- `formatLatency` (latency-visualizer/lib/utils/latency.ts:139-141): string formatting only.
- 3D geometry and animation: `latLngToVector3`, `createCurve`, the pulse, scale and rotation animations, Earth.tsx, and the scene, camera and lights of Globe.tsx. Only Globe.tsx's `showRealtime` and `showRegions` switches are modelled.
- The 5-second refresh timer (latency-visualizer/components/globe/LatencyConnections.tsx:123-133): one refresh is `AppStore.UpdateLatencyData`; when it fires is not modelled.
- The `requestAnimationFrame` loop (components/ui/StatsPanel.tsx:11-31): only one reading (`StatsPanel.FpsReading`) and the colour thresholds are modelled.
- Data export (latency-visualizer/components/ui/ControlPanel.tsx:53-68): Blob, URL and DOM I/O.
- Rendering: LatencyChart.tsx, page.tsx with its `document.documentElement` class toggle, the marker hover state and all JSX markup.
- zustand and React: the store is a record with transition functions, and component state such as `firstSelected` is a field of `ExchangeMarkers.Markers`. Re-render timing and `useMemo` caching are not modelled.
- `toLowerCase` covers ASCII letters only. `sort()` compares code points of `seq<char>`, which agrees with UTF-16 code units on the table's ASCII names.
- `parseInt` on the slider value (latency-visualizer/components/ui/ControlPanel.tsx:251): `ControlPanel.MoveSlider` takes the parsed integer. The range input only produces integers in 0..500.
- The `FilterState` type (types/index.ts:51-58) is declared but never read by the core. It is kept as a datatype without operations.
- JsString.Sort: it requires distinct strings. The only caller sorts the output of `new Set`, so the stronger precondition is always met there.
- StatsPanel.FpsReading: it requires at least 1000 ms elapsed, the condition under which the source takes a reading (components/ui/StatsPanel.tsx:19).

/**
 The statistics panel (components/ui/StatsPanel.tsx): the number of
 exchanges of the selected providers, the number of lines, the mean latency
 of the current batch and the frame rate, each with its traffic-light colour.
 */
module StatsPanel {
  import opened Types
  import opened Seqs
  import opened JsMath
  import opened ExchangeData
  import opened Latency
  import opened AppStore
  import opened ExchangeMarkers

  /** The panel's three text colours. */
  datatype Indicator = Green | Yellow | Red

  // ---------------------------------------------------------------------------
  // Exchanges
  // ---------------------------------------------------------------------------

  /** The store's exchanges run by a selected provider, in table order. */
  function ActiveExchanges(s: AppState): (r: seq<ExchangeServer>)
    ensures IsSubsequence(r, s.exchanges)
    ensures forall k :: 0 <= k < |r| ==> r[k].provider in s.selectedProviders
    ensures forall k :: 0 <= k < |s.exchanges| ==> (s.exchanges[k] in r <==> s.exchanges[k].provider in s.selectedProviders)
  {
    var keep := (e: ExchangeServer) => e.provider in s.selectedProviders;
    FilterIsSubsequence(s.exchanges, keep);
    Filter(s.exchanges, keep)
  }

  /** With every provider selected the panel counts the whole list; at start-up that is sixteen. */
  lemma AllProvidersCountAll(s: AppState)
    requires AWS in s.selectedProviders && GCP in s.selectedProviders && Azure in s.selectedProviders
    ensures ActiveExchanges(s) == s.exchanges
  {
    forall k | 0 <= k < |s.exchanges| ensures s.exchanges[k].provider in s.selectedProviders {
      match s.exchanges[k].provider
      case AWS =>
      case GCP =>
      case Azure =>
    }
    FilterAll(s.exchanges, (e: ExchangeServer) => e.provider in s.selectedProviders);
  }

  lemma InitialCount()
    ensures |ActiveExchanges(Initial())| == 16
  {
    AllProvidersCountAll(Initial());
  }

  /** With no provider selected the panel counts nothing. */
  lemma NoProviderCountsNone(s: AppState)
    requires s.selectedProviders == []
    ensures ActiveExchanges(s) == []
  {
    FilterNone(s.exchanges, (e: ExchangeServer) => e.provider in s.selectedProviders);
  }

  /**
   The panel ignores the name and search filters: it counts every exchange
   the globe draws, and exactly those when neither filter is set.
   */
  lemma CountCoversGlobe(s: AppState)
    ensures IsSubsequence(FilteredExchanges(s), ActiveExchanges(s))
    ensures s.selectedExchanges == [] && s.searchQuery == [] ==> ActiveExchanges(s) == FilteredExchanges(s)
  {
    var keep := (e: ExchangeServer) => e.provider in s.selectedProviders;
    FilterWeaker(s.exchanges, e => KeepExchange(s, e), keep);
    if s.selectedExchanges == [] && s.searchQuery == [] {
      FilterSame(s.exchanges, keep, e => KeepExchange(s, e));
    }
  }

  // ---------------------------------------------------------------------------
  // Mean latency
  // ---------------------------------------------------------------------------

  /**
   The `latency` fields of a real-time batch, the counterpart of
   `Latency.Latencies` for the other record type: `LatencyData` and
   `HistoricalLatency` are separate types in the program.
   */
  function BatchLatencies(data: seq<LatencyData>): (xs: seq<int>)
    ensures |xs| == |data|
    ensures forall k :: 0 <= k < |data| ==> xs[k] == data[k].latency
  {
    seq(|data|, k requires 0 <= k < |data| => data[k].latency)
  }

  /** `avgLatency`: 0 for an empty batch, else the rounded mean, which lies between the extremes. */
  function AvgLatency(data: seq<LatencyData>): (avg: int)
    ensures |data| == 0 ==> avg == 0
    ensures |data| > 0 ==> Mean(BatchLatencies(data)) - 0.5 < avg as real <= Mean(BatchLatencies(data)) + 0.5
    ensures |data| > 0 ==> MinOf(BatchLatencies(data)) <= avg <= MaxOf(BatchLatencies(data))
  {
    if |data| > 0 then RoundedMean(BatchLatencies(data)) else 0
  }

  /** A batch in which every line has the same latency averages to that latency. */
  lemma UniformBatchAverage(data: seq<LatencyData>, c: int)
    requires |data| > 0
    requires forall k :: 0 <= k < |data| ==> data[k].latency == c
    ensures AvgLatency(data) == c
  {
    var xs := BatchLatencies(data);
    assert MinOf(xs) in xs && MaxOf(xs) in xs;
  }

  /** A non-empty batch whose every line takes at least `lo` ms averages to at least `lo`. */
  lemma AverageAtLeast(data: seq<LatencyData>, lo: int)
    requires |data| > 0
    requires forall k :: 0 <= k < |data| ==> data[k].latency >= lo
    ensures AvgLatency(data) >= lo
  {
    var xs := BatchLatencies(data);
    assert MinOf(xs) in xs;
  }

  /** After a refresh the panel shows 120 lines and a mean of at least 1 ms. */
  lemma RefreshedPanel(s: AppState, env: Env, at: nat, now: int)
    ensures var t := UpdateLatencyData(s, env, at, now).0;
      |t.latencyData| == 120 && AvgLatency(t.latencyData) >= 1
  {
    var t := UpdateLatencyData(s, env, at, now).0;
    AverageAtLeast(t.latencyData, 1);
  }

  /** The colour of the mean: below 50 green, below 150 yellow, otherwise red. */
  function AvgIndicator(avg: int): (c: Indicator)
    ensures c == Green <==> avg < 50
    ensures c == Yellow <==> 50 <= avg < 150
    ensures c == Red <==> avg >= 150
  {
    if avg < 50 then Green else if avg < 150 then Yellow else Red
  }

  /** The colour a line of the given severity is drawn in on the globe. */
  function LevelIndicator(level: LatencyRange): Indicator {
    match level
    case Low => Green
    case Medium => Yellow
    case High => Red
  }

  /** The panel's thresholds are the globe's: the mean is coloured like a line of that latency. */
  lemma AvgIndicatorMatchesLines(avg: int)
    ensures AvgIndicator(avg) == LevelIndicator(LevelOf(avg))
  {
  }

  // ---------------------------------------------------------------------------
  // Frame rate
  // ---------------------------------------------------------------------------

  /** The colour of the frame rate: from 50 green, from 30 yellow, otherwise red. */
  function FpsIndicator(fps: int): (c: Indicator)
    ensures c == Green <==> fps >= 50
    ensures c == Yellow <==> 30 <= fps < 50
    ensures c == Red <==> fps < 30
  {
    if fps >= 50 then Green else if fps >= 30 then Yellow else Red
  }

  function Badness(c: Indicator): nat {
    match c
    case Green => 0
    case Yellow => 1
    case Red => 2
  }

  /** A higher frame rate never shows a worse colour; a higher mean latency never a better one. */
  lemma IndicatorsMonotone(a: int, b: int)
    requires a <= b
    ensures Badness(FpsIndicator(b)) <= Badness(FpsIndicator(a))
    ensures Badness(AvgIndicator(a)) <= Badness(AvgIndicator(b))
  {
  }

  /**
   One frame-rate reading: the frames counted over at least a second,
   scaled to one second and rounded. It never exceeds the frames counted.
   */
  function FpsReading(frames: nat, elapsedMs: real): (fps: int)
    requires elapsedMs >= 1000.0
    ensures 0 <= fps <= frames
  {
    var rate := (frames * 1000) as real / elapsedMs;
    assert 0.0 <= rate <= frames as real by {
      FrameRateBound(frames, elapsedMs);
    }
    RoundMonotone(0.0, rate);
    RoundMonotone(rate, frames as real);
    RoundInt(0);
    RoundInt(frames);
    Round(rate)
  }

  lemma FrameRateBound(frames: nat, elapsedMs: real)
    requires elapsedMs >= 1000.0
    ensures 0.0 <= (frames * 1000) as real / elapsedMs <= frames as real
  {
    var f := frames as real;
    assert (frames * 1000) as real == f * 1000.0;
    assert f * 1000.0 <= f * elapsedMs;
  }
}

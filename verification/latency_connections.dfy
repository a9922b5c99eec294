/**
 The latency lines on the globe (components/globe/LatencyConnections.tsx):
 the store's batch filtered by the latency slider, cut to the first twenty
 entries, and each entry resolved to its two exchanges and a colour.
 */
module LatencyConnections {
  import opened Options
  import opened Types
  import opened Seqs
  import opened ExchangeData
  import opened Latency
  import opened AppStore
  import ControlPanel

  /** At most this many lines are drawn. */
  const MAX_VISIBLE: nat := 20

  /** The filter callback: reject below the lower or above the upper bound. */
  function KeepConnection(range: (int, int), d: LatencyData): (keep: bool)
    ensures keep <==> range.0 <= d.latency <= range.1
  {
    if d.latency < range.0 || d.latency > range.1 then false else true
  }

  /** `filteredConnections`: the entries inside the slider range, in batch order. */
  function FilteredConnections(data: seq<LatencyData>, range: (int, int)): (r: seq<LatencyData>)
    ensures IsSubsequence(r, data)
    ensures forall k :: 0 <= k < |r| ==> r[k] in data && range.0 <= r[k].latency <= range.1
    ensures forall k :: 0 <= k < |data| ==> (data[k] in r <==> range.0 <= data[k].latency <= range.1)
  {
    var keep := d => KeepConnection(range, d);
    FilterIsSubsequence(data, keep);
    Filter(data, keep)
  }

  /** Widening the range never hides a line that was inside it. */
  lemma WiderRangeShowsMore(data: seq<LatencyData>, range: (int, int), wider: (int, int))
    requires wider.0 <= range.0 && range.1 <= wider.1
    ensures IsSubsequence(FilteredConnections(data, range), FilteredConnections(data, wider))
  {
    FilterWeaker(data, d => KeepConnection(range, d), d => KeepConnection(wider, d));
  }

  /** A range whose lower end lies above its upper end lets nothing through. */
  lemma InvertedRangeShowsNothing(data: seq<LatencyData>, range: (int, int))
    requires range.0 > range.1
    ensures FilteredConnections(data, range) == []
  {
    FilterNone(data, d => KeepConnection(range, d));
  }

  /** Raising the slider's value is a widening, so it only adds lines. */
  lemma RaisingSliderShowsMore(s: AppState, value: int)
    requires value >= s.latencyRange.1
    ensures var t := ControlPanel.MoveSlider(s, value);
      IsSubsequence(FilteredConnections(s.latencyData, s.latencyRange), FilteredConnections(t.latencyData, t.latencyRange))
  {
    WiderRangeShowsMore(s.latencyData, s.latencyRange, ControlPanel.MoveSlider(s, value).latencyRange);
  }

  /** `filteredConnections.slice(0, 20)`: the first twenty filtered entries, or all of them if fewer. */
  function VisibleConnections(filtered: seq<LatencyData>): (r: seq<LatencyData>)
    ensures |r| == if |filtered| < MAX_VISIBLE then |filtered| else MAX_VISIBLE
    ensures forall k :: 0 <= k < |r| ==> r[k] == filtered[k]
  {
    if |filtered| <= MAX_VISIBLE then filtered else filtered[..MAX_VISIBLE]
  }

  /** Every drawn line lies inside the slider range, and the drawn lines keep batch order. */
  lemma VisibleWithinRange(data: seq<LatencyData>, range: (int, int))
    ensures var v := VisibleConnections(FilteredConnections(data, range));
      IsSubsequence(v, data) &&
      forall k :: 0 <= k < |v| ==> range.0 <= v[k].latency <= range.1
  {
    var f := FilteredConnections(data, range);
    var v := VisibleConnections(f);
    PrefixIsSubsequence(f, |v|);
    assert v == f[..|v|];
    SubsequenceTrans(v, f, data);
  }

  /** The lines the globe draws: none while real-time lines are switched off, else at most twenty in range. */
  function DrawnLines(s: AppState): (r: seq<LatencyData>)
    ensures !s.showRealtime ==> r == []
    ensures s.showRealtime ==> r == VisibleConnections(FilteredConnections(s.latencyData, s.latencyRange))
    ensures |r| <= MAX_VISIBLE
    ensures forall k :: 0 <= k < |r| ==> r[k] in s.latencyData && s.latencyRange.0 <= r[k].latency <= s.latencyRange.1
  {
    if s.showRealtime then
      var f := FilteredConnections(s.latencyData, s.latencyRange);
      var v := VisibleConnections(f);
      assert forall k :: 0 <= k < |v| ==> v[k] == f[k];
      v
    else []
  }

  lemma {:induction false} PrefixIsSubsequence<T>(s: seq<T>, n: nat)
    requires n <= |s|
    ensures IsSubsequence(s[..n], s)
    decreases |s|
  {
    if n == 0 {
    } else {
      PrefixIsSubsequence(s[1..], n - 1);
      assert s[..n][1..] == s[1..][..n - 1];
    }
  }

  lemma {:induction false} SubsequenceTrans<T>(a: seq<T>, b: seq<T>, c: seq<T>)
    requires IsSubsequence(a, b) && IsSubsequence(b, c)
    ensures IsSubsequence(a, c)
    decreases |c|
  {
    if |a| == 0 {
    } else if |c| == 0 {
    } else if IsSubsequence(b, c[1..]) {
      SubsequenceTrans(a, b, c[1..]);
    } else {
      assert b[0] == c[0] && IsSubsequence(b[1..], c[1..]);
      if a[0] == b[0] && IsSubsequence(a[1..], b[1..]) {
        SubsequenceTrans(a[1..], b[1..], c[1..]);
      } else {
        SubsequenceTrans(a, b[1..], c[1..]);
      }
    }
  }

  // ---------------------------------------------------------------------------
  // One line
  // ---------------------------------------------------------------------------

  /** `exchanges.find((e) => e.id === id)`: the first exchange with that id. */
  function Find(exs: seq<ExchangeServer>, id: string): (r: Option<ExchangeServer>)
    ensures r.None? <==> forall i :: 0 <= i < |exs| ==> exs[i].id != id
    ensures r.Some? ==> r.value in exs && r.value.id == id
  {
    if |exs| == 0 then None
    else if exs[0].id == id then Some(exs[0])
    else
      var r := Find(exs[1..], id);
      assert forall i :: 1 <= i < |exs| ==> exs[i] == exs[1..][i - 1];
      r
  }

  /** The search stops at the first exchange carrying the id. */
  lemma {:induction false} FindFirst(exs: seq<ExchangeServer>, id: string, i: nat)
    requires i < |exs| && exs[i].id == id
    requires forall j :: 0 <= j < i ==> exs[j].id != id
    ensures Find(exs, id) == Some(exs[i])
    decreases i
  {
    if i > 0 {
      assert forall j :: 0 <= j < i - 1 ==> exs[1..][j] == exs[j + 1];
      FindFirst(exs[1..], id, i - 1);
    }
  }

  /**
   A `Connection` element: both endpoints looked up; if either is missing
   nothing is drawn, otherwise the line takes the latency's colour.
   */
  function Resolve(exs: seq<ExchangeServer>, d: LatencyData): (r: Option<LatencyConnection>)
    ensures r.Some? <==> Find(exs, d.fromId).Some? && Find(exs, d.toId).Some?
    ensures r.Some? ==>
      r.value.from in exs && r.value.from.id == d.fromId &&
      r.value.to in exs && r.value.to.id == d.toId &&
      r.value.latency == d.latency && r.value.color == LatencyColor(d.latency)
  {
    match (Find(exs, d.fromId), Find(exs, d.toId))
    case (Some(from), Some(to)) => Some(LatencyConnection(from, to, d.latency, LatencyColor(d.latency)))
    case _ => None
  }

  /** Every entry of a batch generated from a list resolves against that list. */
  lemma BatchResolves(exs: seq<ExchangeServer>, env: Env, at: nat, now: int)
    ensures var b := PairwiseLatencies(exs, env, at, now).0;
      forall k :: 0 <= k < |b| ==> Resolve(exs, b[k]).Some?
  {
    var b := PairwiseLatencies(exs, env, at, now).0;
    PairwiseEndpoints(exs, env, at, now);
    forall k | 0 <= k < |b| ensures Resolve(exs, b[k]).Some? {
      var i, j :| 0 <= i < j < |exs| && b[k].fromId == exs[i].id && b[k].toId == exs[j].id;
      assert Find(exs, b[k].fromId).Some?;
      assert Find(exs, b[k].toId).Some?;
    }
  }

  /** After a refresh, every line the store holds can be drawn: no endpoint is missing. */
  lemma RefreshedLinesResolve(s: AppState, env: Env, at: nat, now: int)
    requires s.exchanges == EXCHANGES
    ensures var t := UpdateLatencyData(s, env, at, now).0;
      forall k :: 0 <= k < |t.latencyData| ==> Resolve(t.exchanges, t.latencyData[k]).Some?
  {
    BatchResolves(EXCHANGES, env, at, now);
  }
}

/**
 Latency simulation (lib/utils/latency.ts): the per-pair latency estimate,
 the pairwise batch over a list of exchanges, the three-bucket colour
 classifier, the historical series generator and the statistics reducer.

 The program's ambient inputs are explicit here. `Math.random` is an
 infinite stream of draws in [0, 1) read at a `nat` cursor; it, `Math.sin`
 and the Haversine distance are fields of an `Env`, and `Date.now()` is the
 integer `now`. With those fixed, every operation is a pure function.
 */
module Latency {
  import opened Types
  import opened JsMath
  import opened Seqs

  /** A great-circle distance in kilometres. */
  type Km = d: real | 0.0 <= d witness 0.0

  /** One result of `Math.random()`. */
  type Draw = u: real | 0.0 <= u < 1.0 witness 0.0

  /** One result of `Math.sin`. */
  type Sine = s: real | -1.0 <= s <= 1.0 witness 0.0

  /**
   The inputs the model does not compute: the Haversine distance between two
   coordinate pairs, `Math.sin`, and the stream of `Math.random()` results
   (`random(k)` is the k-th draw). A cursor of type `nat` says how many draws
   have been consumed so far.
   */
  datatype Env = Env(
    distance: (Coordinates, Coordinates) -> Km,
    sine: real -> Sine,
    random: nat -> Draw)

  // ---------------------------------------------------------------------------
  // simulateLatency
  // ---------------------------------------------------------------------------

  /** Distance-driven part of a latency: 10 ms per 1000 km. */
  function DistanceLatency(distance: Km): (ms: real)
    ensures ms >= 0.0
    ensures ms * 100.0 == distance
  {
    distance / 1000.0 * 10.0
  }

  /** Cross-provider peering overhead drawn from one random value. */
  function ProviderPenalty(u: Draw): (ms: real)
    ensures 5.0 <= ms < 15.0
  {
    5.0 + u * 10.0
  }

  /**
   Random jitter on a latency `pre`. The source's comment calls it ±20%,
   but the drawn factor 0.2 * (u - 0.5) lies in [-0.1, 0.1): the jitter is
   at most one tenth of `pre` either way.
   */
  function Jitter(pre: real, u: Draw): (j: real)
    ensures pre >= 0.0 ==> -pre / 10.0 <= j <= pre / 10.0
    ensures pre > 0.0 ==> j < pre / 10.0
  {
    var factor := 0.2 * (u - 0.5);
    assert pre >= 0.0 ==> pre * -0.1 <= pre * factor <= pre * 0.1 && (pre > 0.0 ==> pre * factor < pre * 0.1) by {
      if pre >= 0.0 {
        ScaleBounds(pre, -0.1, factor, 0.1);
      }
    }
    pre * factor
  }

  lemma ScaleBounds(a: real, lo: real, x: real, hi: real)
    requires a >= 0.0 && lo <= x <= hi
    ensures a * lo <= a * x <= a * hi
    ensures a > 0.0 && x < hi ==> a * x < a * hi
  {
    assert a * (x - lo) >= 0.0;
    assert a * (hi - x) >= 0.0;
  }

  /** The lower jitter bound is reached: a zero draw takes off exactly 10%, never 20%. */
  lemma JitterLowestDraw(pre: real)
    requires pre > 0.0
    ensures Jitter(pre, 0.0) == -pre / 10.0
    ensures Jitter(pre, 0.0) > -pre / 5.0
  {
  }

  /** How many random draws one simulated latency consumes. */
  function DrawsPerLatency(from: ExchangeServer, to: ExchangeServer): nat {
    if from.provider != to.provider then 2 else 1
  }

  /** Latency before jitter, and the source after the penalty draw (if any). */
  function PreJitter(from: ExchangeServer, to: ExchangeServer, env: Env, at: nat): (r: (real, nat))
    ensures r.0 >= 0.0
    ensures from.provider == to.provider ==>
      r.0 == DistanceLatency(env.distance(from.coordinates, to.coordinates)) && r.1 == at
    ensures from.provider != to.provider ==>
      DistanceLatency(env.distance(from.coordinates, to.coordinates)) + 5.0 <= r.0 <
      DistanceLatency(env.distance(from.coordinates, to.coordinates)) + 15.0 &&
      r.1 == at + 1
  {
    var base := DistanceLatency(env.distance(from.coordinates, to.coordinates));
    if from.provider != to.provider then
      (base + ProviderPenalty(env.random(at)), at + 1)
    else
      (base, at)
  }

  /**
   `simulateLatency(from, to)`: a whole number of milliseconds, never below
   1, within 10% (before rounding) of the pre-jitter latency.
   */
  function SimulateLatency(from: ExchangeServer, to: ExchangeServer, env: Env, at: nat): (r: (int, nat))
    ensures r.0 >= 1
    ensures r.1 == at + DrawsPerLatency(from, to)
    ensures MaxInt(1, Round(PreJitter(from, to, env, at).0 * 0.9)) <= r.0
    ensures r.0 <= MaxInt(1, Round(PreJitter(from, to, env, at).0 * 1.1))
  {
    var first := PreJitter(from, to, env, at);
    var pre := first.0;
    var jittered := pre + Jitter(pre, env.random(first.1));
    RoundMonotone(pre * 0.9, jittered);
    RoundMonotone(jittered, pre * 1.1);
    (MaxInt(1, Round(jittered)), first.1 + 1)
  }

  /** Two exchanges of one provider at the same place always measure the 1 ms floor. */
  lemma SameProviderSamePlace(from: ExchangeServer, to: ExchangeServer, env: Env, at: nat)
    requires from.provider == to.provider
    requires env.distance(from.coordinates, to.coordinates) == 0.0
    ensures SimulateLatency(from, to, env, at).0 == 1
  {
  }

  /** Across providers the penalty alone keeps a co-located pair within [5, 16] ms. */
  lemma CrossProviderSamePlace(from: ExchangeServer, to: ExchangeServer, env: Env, at: nat)
    requires from.provider != to.provider
    requires env.distance(from.coordinates, to.coordinates) == 0.0
    ensures 5 <= SimulateLatency(from, to, env, at).0 <= 16
  {
    var pre := PreJitter(from, to, env, at).0;
    assert 5.0 <= pre < 15.0;
    RoundMonotone(4.5, pre * 0.9);
    assert Round(pre * 1.1) <= 16;
  }

  // ---------------------------------------------------------------------------
  // generateLatencyData
  // ---------------------------------------------------------------------------

  /**
   One measuring step of the batch: the latency for a pair and the cursor
   after its draws. The batch builders below are stated for any such step;
   the program's batch uses `Simulator(env)`, which is `simulateLatency`.
   */
  type Measure = (ExchangeServer, ExchangeServer, nat) -> (int, nat)

  function Simulator(env: Env): (sim: Measure) {
    (from: ExchangeServer, to: ExchangeServer, at: nat) => SimulateLatency(from, to, env, at)
  }

  /** Every measured latency is at least 1 ms and the cursor never moves back. */
  ghost predicate WellBehaved(sim: Measure) {
    forall from, to, at :: sim(from, to, at).0 >= 1 && sim(from, to, at).1 >= at
  }

  lemma SimulatorWellBehaved(env: Env)
    ensures WellBehaved(Simulator(env))
  {
    forall from, to, at ensures Simulator(env)(from, to, at).0 >= 1 && Simulator(env)(from, to, at).1 >= at {
      assert Simulator(env)(from, to, at) == SimulateLatency(from, to, env, at);
    }
  }

  /** Number of unordered pairs among `m` items, counted row by row. */
  function Triangle(m: nat): nat {
    if m == 0 then 0 else (m - 1) + Triangle(m - 1)
  }

  lemma {:induction false} TriangleClosedForm(m: nat)
    ensures Triangle(m) == m * (m - 1) / 2
  {
    if m > 0 {
      TriangleClosedForm(m - 1);
      assert m * (m - 1) == (m - 1) * (m - 2) + 2 * (m - 1);
    }
  }

  /** Entries for pairs (i, j), (i, j + 1), ..., (i, n - 1), measuring in that order. */
  function PairsFrom(exs: seq<ExchangeServer>, i: nat, j: nat, sim: Measure, at: nat, now: int)
    : (r: (seq<LatencyData>, nat))
    requires i < j <= |exs|
    ensures |r.0| == |exs| - j
    ensures WellBehaved(sim) ==> r.1 >= at
    decreases |exs| - j
  {
    if j == |exs| then ([], at)
    else
      var step := sim(exs[i], exs[j], at);
      var rest := PairsFrom(exs, i, j + 1, sim, step.1, now);
      ([LatencyData(exs[i].id, exs[j].id, step.0, now)] + rest.0, rest.1)
  }

  /** One step of a row: the entry for (i, j), then the rest of the row from the advanced cursor. */
  lemma PairsFromUnfold(exs: seq<ExchangeServer>, i: nat, j: nat, sim: Measure, at: nat, now: int)
    requires i < j < |exs|
    ensures var step := sim(exs[i], exs[j], at);
      var rest := PairsFrom(exs, i, j + 1, sim, step.1, now);
      PairsFrom(exs, i, j, sim, at, now).0 == [LatencyData(exs[i].id, exs[j].id, step.0, now)] + rest.0 &&
      PairsFrom(exs, i, j, sim, at, now).1 == rest.1
  {
  }

  /** Entry k of row i pairs exchanges i and j + k and is stamped `now`. */
  lemma {:induction false} PairsEntries(exs: seq<ExchangeServer>, i: nat, j: nat, sim: Measure, at: nat, now: int)
    requires i < j <= |exs|
    ensures var b := PairsFrom(exs, i, j, sim, at, now).0;
      forall k :: 0 <= k < |b| ==>
        b[k].fromId == exs[i].id && b[k].toId == exs[j + k].id && b[k].timestamp == now
    decreases |exs| - j
  {
    if j < |exs| {
      var step := sim(exs[i], exs[j], at);
      PairsFromUnfold(exs, i, j, sim, at, now);
      PairsEntries(exs, i, j + 1, sim, step.1, now);
      var rest := PairsFrom(exs, i, j + 1, sim, step.1, now).0;
      var b := PairsFrom(exs, i, j, sim, at, now).0;
      forall k | 1 <= k < |b|
        ensures b[k] == rest[k - 1] && exs[j + k] == exs[(j + 1) + (k - 1)]
      {
        ConcatRight([LatencyData(exs[i].id, exs[j].id, step.0, now)], rest, k - 1);
      }
    }
  }

  /** With a well-behaved step, every entry of a row has a latency of at least 1 ms. */
  lemma {:induction false} PairsAtLeastOneMs(exs: seq<ExchangeServer>, i: nat, j: nat, sim: Measure, at: nat, now: int)
    requires i < j <= |exs| && WellBehaved(sim)
    ensures var b := PairsFrom(exs, i, j, sim, at, now).0;
      forall k :: 0 <= k < |b| ==> b[k].latency >= 1
    decreases |exs| - j
  {
    if j < |exs| {
      var step := sim(exs[i], exs[j], at);
      PairsFromUnfold(exs, i, j, sim, at, now);
      PairsAtLeastOneMs(exs, i, j + 1, sim, step.1, now);
      var rest := PairsFrom(exs, i, j + 1, sim, step.1, now).0;
      var b := PairsFrom(exs, i, j, sim, at, now).0;
      forall k | 1 <= k < |b| ensures b[k] == rest[k - 1] {
        ConcatRight([LatencyData(exs[i].id, exs[j].id, step.0, now)], rest, k - 1);
      }
    }
  }

  /**
   The cursor at which entry `k` of the row built from `j` on is measured:
   the start cursor for the first entry, then whatever the previous pair's
   draws left.
   */
  function PairCursor(exs: seq<ExchangeServer>, i: nat, j: nat, sim: Measure, at: nat, k: nat): nat
    requires i < j <= |exs| && k < |exs| - j
    decreases k
  {
    if k == 0 then at
    else PairCursor(exs, i, j + 1, sim, sim(exs[i], exs[j], at).1, k - 1)
  }

  /** Entry `k` of row `i` is the step's measurement of exactly its own pair (i, j + k). */
  lemma {:induction false} PairsMeasured(exs: seq<ExchangeServer>, i: nat, j: nat, sim: Measure, at: nat, now: int, k: nat)
    requires i < j <= |exs| && k < |exs| - j
    ensures var b := PairsFrom(exs, i, j, sim, at, now).0;
      b[k].latency == sim(exs[i], exs[j + k], PairCursor(exs, i, j, sim, at, k)).0
    decreases k
  {
    var step := sim(exs[i], exs[j], at);
    PairsFromUnfold(exs, i, j, sim, at, now);
    var rest := PairsFrom(exs, i, j + 1, sim, step.1, now).0;
    if k > 0 {
      PairsMeasured(exs, i, j + 1, sim, step.1, now, k - 1);
      ConcatRight([LatencyData(exs[i].id, exs[j].id, step.0, now)], rest, k - 1);
      assert exs[j + k] == exs[(j + 1) + (k - 1)];
    }
  }

  /** Rows i, i + 1, ..., n - 1 of the pairwise batch. */
  function RowsFrom(exs: seq<ExchangeServer>, i: nat, sim: Measure, at: nat, now: int)
    : (r: (seq<LatencyData>, nat))
    requires i <= |exs|
    ensures |r.0| == Triangle(|exs| - i)
    ensures WellBehaved(sim) ==> r.1 >= at
    decreases |exs| - i
  {
    if i == |exs| then ([], at)
    else
      var row := PairsFrom(exs, i, i + 1, sim, at, now);
      var rest := RowsFrom(exs, i + 1, sim, row.1, now);
      (row.0 + rest.0, rest.1)
  }

  /** Rows from `i`: row `i`, then the rows after it from the advanced cursor. */
  lemma RowsFromUnfold(exs: seq<ExchangeServer>, i: nat, sim: Measure, at: nat, now: int)
    requires i < |exs|
    ensures var row := PairsFrom(exs, i, i + 1, sim, at, now);
      var rest := RowsFrom(exs, i + 1, sim, row.1, now);
      RowsFrom(exs, i, sim, at, now).0 == row.0 + rest.0 &&
      RowsFrom(exs, i, sim, at, now).1 == rest.1
  {
  }

  /**
   `generateLatencyData(exchanges)` as a function: one entry per pair i < j
   in row-major order, every entry stamped with the single `now`.
   */
  function PairwiseLatencies(exs: seq<ExchangeServer>, env: Env, at: nat, now: int)
    : (r: (seq<LatencyData>, nat))
    ensures |r.0| == |exs| * (|exs| - 1) / 2
    ensures forall k :: 0 <= k < |r.0| ==> r.0[k].timestamp == now && r.0[k].latency >= 1
    ensures |exs| <= 1 ==> r.0 == []
    ensures r.1 >= at
  {
    TriangleClosedForm(|exs|);
    SimulatorWellBehaved(env);
    RowsStamped(exs, 0, Simulator(env), at, now);
    RowsFrom(exs, 0, Simulator(env), at, now)
  }

  /** Every entry of the rows from `i` on carries `now` and, for a well-behaved step, at least 1 ms. */
  lemma {:induction false} RowsStamped(exs: seq<ExchangeServer>, i: nat, sim: Measure, at: nat, now: int)
    requires i <= |exs| && WellBehaved(sim)
    ensures forall k :: 0 <= k < |RowsFrom(exs, i, sim, at, now).0| ==>
      RowsFrom(exs, i, sim, at, now).0[k].timestamp == now && RowsFrom(exs, i, sim, at, now).0[k].latency >= 1
    decreases |exs| - i
  {
    if i < |exs| {
      RowsFromUnfold(exs, i, sim, at, now);
      PairsEntries(exs, i, i + 1, sim, at, now);
      PairsAtLeastOneMs(exs, i, i + 1, sim, at, now);
      RowsStamped(exs, i + 1, sim, PairsFrom(exs, i, i + 1, sim, at, now).1, now);
    }
  }

  /** Entry `k` of the rows from `i0` on joins an exchange to a later one of the list. */
  lemma {:induction false} RowsEntryEndpoints(exs: seq<ExchangeServer>, i0: nat, sim: Measure, at: nat, now: int, k: nat)
    requires i0 <= |exs| && k < |RowsFrom(exs, i0, sim, at, now).0|
    ensures exists i, j ::
      i0 <= i < j < |exs| &&
      RowsFrom(exs, i0, sim, at, now).0[k].fromId == exs[i].id &&
      RowsFrom(exs, i0, sim, at, now).0[k].toId == exs[j].id
    decreases |exs| - i0
  {
    if i0 == |exs| {
      assert false;
    } else {
      var row := PairsFrom(exs, i0, i0 + 1, sim, at, now);
      var rest := RowsFrom(exs, i0 + 1, sim, row.1, now);
      var b := RowsFrom(exs, i0, sim, at, now).0;
      RowsFromUnfold(exs, i0, sim, at, now);
      if k < |row.0| {
        PairsEntries(exs, i0, i0 + 1, sim, at, now);
        ConcatLeft(row.0, rest.0, k);
        assert b[k].fromId == exs[i0].id && b[k].toId == exs[i0 + 1 + k].id;
      } else {
        ConcatRight(row.0, rest.0, k - |row.0|);
        RowsEntryEndpoints(exs, i0 + 1, sim, row.1, now, k - |row.0|);
        var e := rest.0[k - |row.0|];
        var i, j :| i0 + 1 <= i < j < |exs| && e.fromId == exs[i].id && e.toId == exs[j].id;
      }
    }
  }

  /** Every entry of a batch joins an exchange of the list to a later one. */
  lemma PairwiseEndpoints(exs: seq<ExchangeServer>, env: Env, at: nat, now: int)
    ensures var b := PairwiseLatencies(exs, env, at, now).0;
      forall k :: 0 <= k < |b| ==>
        exists i, j :: 0 <= i < j < |exs| && b[k].fromId == exs[i].id && b[k].toId == exs[j].id
  {
    var b := PairwiseLatencies(exs, env, at, now).0;
    forall k | 0 <= k < |b|
      ensures exists i, j :: 0 <= i < j < |exs| && b[k].fromId == exs[i].id && b[k].toId == exs[j].id
    {
      RowsEntryEndpoints(exs, 0, Simulator(env), at, now, k);
    }
  }

  /** Position of pair (i, j) in the batch of `n` exchanges. */
  function PairIndex(n: nat, i: nat, j: nat): int
    requires i < j < n
  {
    Triangle(n) - Triangle(n - i) + (j - i - 1)
  }

  lemma {:induction false} TriangleMonotone(a: nat, b: nat)
    requires a <= b
    ensures Triangle(a) <= Triangle(b)
    decreases b - a
  {
    if a < b {
      TriangleMonotone(a, b - 1);
    }
  }

  /** Row-major order: a pair earlier in (i, j) order sits earlier in the batch. */
  lemma PairIndexRowMajor(n: nat, i: nat, j: nat, i': nat, j': nat)
    requires i < j < n && i' < j' < n
    requires i < i' || (i == i' && j < j')
    ensures 0 <= PairIndex(n, i, j) < PairIndex(n, i', j') < Triangle(n)
  {
    TriangleMonotone(n - i, n);
    if i < i' {
      TriangleMonotone(n - i', n - i - 1);
    }
    assert Triangle(n - i) == (n - i - 1) + Triangle(n - i - 1);
    assert Triangle(n - i') == (n - i' - 1) + Triangle(n - i' - 1);
  }

  /** The first row of the rows from `i` is row `i` itself. */
  lemma RowsFromHead(exs: seq<ExchangeServer>, i: nat, sim: Measure, at: nat, now: int, j: nat)
    requires i < j < |exs|
    ensures var b := RowsFrom(exs, i, sim, at, now).0;
      j - i - 1 < |b| && b[j - i - 1].fromId == exs[i].id && b[j - i - 1].toId == exs[j].id
  {
    RowsFromUnfold(exs, i, sim, at, now);
    PairsEntries(exs, i, i + 1, sim, at, now);
    var row := PairsFrom(exs, i, i + 1, sim, at, now);
    ConcatLeft(row.0, RowsFrom(exs, i + 1, sim, row.1, now).0, j - i - 1);
  }

  /** Past row `i`, the rows from `i` continue with the rows from `i + 1`. */
  lemma RowsFromTail(exs: seq<ExchangeServer>, i: nat, sim: Measure, at: nat, now: int, k: nat)
    requires i < |exs|
    requires k < Triangle(|exs| - i - 1)
    ensures var row := PairsFrom(exs, i, i + 1, sim, at, now);
      var b := RowsFrom(exs, i, sim, at, now).0;
      |row.0| + k < |b| && b[|row.0| + k] == RowsFrom(exs, i + 1, sim, row.1, now).0[k]
  {
    RowsFromUnfold(exs, i, sim, at, now);
    var row := PairsFrom(exs, i, i + 1, sim, at, now);
    ConcatRight(row.0, RowsFrom(exs, i + 1, sim, row.1, now).0, k);
  }

  /** The entry for pair (i, j) sits at `PairIndex` within the rows from `i0` on. */
  lemma {:induction false} RowsFromAt(
    exs: seq<ExchangeServer>, i0: nat, sim: Measure, at: nat, now: int, i: nat, j: nat)
    requires i0 <= i < j < |exs|
    ensures var b := RowsFrom(exs, i0, sim, at, now).0;
      var k := Triangle(|exs| - i0) - Triangle(|exs| - i) + (j - i - 1);
      0 <= k < |b| && b[k].fromId == exs[i].id && b[k].toId == exs[j].id
    decreases i - i0
  {
    if i == i0 {
      RowsFromHead(exs, i, sim, at, now, j);
    } else {
      var n := |exs|;
      var next := PairsFrom(exs, i0, i0 + 1, sim, at, now).1;
      RowsFromAt(exs, i0 + 1, sim, next, now, i, j);
      assert Triangle(n - i0) == (n - i0 - 1) + Triangle(n - i0 - 1);
      RowsFromTail(exs, i0, sim, at, now, Triangle(n - i0 - 1) - Triangle(n - i) + (j - i - 1));
    }
  }

  /** The cursor at which pair (i, j) is measured when the rows from `i0` on are built from `at`. */
  function RowsCursor(exs: seq<ExchangeServer>, i0: nat, sim: Measure, at: nat, now: int, i: nat, j: nat): nat
    requires i0 <= i < j < |exs|
    decreases i - i0
  {
    if i == i0 then PairCursor(exs, i, i + 1, sim, at, j - i - 1)
    else RowsCursor(exs, i0 + 1, sim, PairsFrom(exs, i0, i0 + 1, sim, at, now).1, now, i, j)
  }

  /** The entry for pair (i, j) within the rows from `i0` on is the step's measurement of that very pair. */
  lemma {:induction false} RowsMeasuredAt(
    exs: seq<ExchangeServer>, i0: nat, sim: Measure, at: nat, now: int, i: nat, j: nat)
    requires i0 <= i < j < |exs|
    ensures var b := RowsFrom(exs, i0, sim, at, now).0;
      var k := Triangle(|exs| - i0) - Triangle(|exs| - i) + (j - i - 1);
      0 <= k < |b| && b[k].latency == sim(exs[i], exs[j], RowsCursor(exs, i0, sim, at, now, i, j)).0
    decreases i - i0
  {
    RowsFromAt(exs, i0, sim, at, now, i, j);
    if i == i0 {
      RowsFromUnfold(exs, i, sim, at, now);
      PairsMeasured(exs, i, i + 1, sim, at, now, j - i - 1);
      var row := PairsFrom(exs, i, i + 1, sim, at, now);
      ConcatLeft(row.0, RowsFrom(exs, i + 1, sim, row.1, now).0, j - i - 1);
      assert exs[(i + 1) + (j - i - 1)] == exs[j];
    } else {
      var n := |exs|;
      var next := PairsFrom(exs, i0, i0 + 1, sim, at, now).1;
      RowsMeasuredAt(exs, i0 + 1, sim, next, now, i, j);
      assert Triangle(n - i0) == (n - i0 - 1) + Triangle(n - i0 - 1);
      RowsFromTail(exs, i0, sim, at, now, Triangle(n - i0 - 1) - Triangle(n - i) + (j - i - 1));
    }
  }

  /** The cursor at which `generateLatencyData` measures pair (i, j). */
  function BatchCursor(exs: seq<ExchangeServer>, env: Env, at: nat, now: int, i: nat, j: nat): nat
    requires i < j < |exs|
  {
    RowsCursor(exs, 0, Simulator(env), at, now, i, j)
  }

  /** The batch entry at `PairIndex(n, i, j)` is the pair (exchanges[i], exchanges[j]). */
  lemma PairwiseEntry(exs: seq<ExchangeServer>, env: Env, at: nat, now: int, i: nat, j: nat)
    requires i < j < |exs|
    ensures var b := PairwiseLatencies(exs, env, at, now).0;
      0 <= PairIndex(|exs|, i, j) < |b| &&
      b[PairIndex(|exs|, i, j)].fromId == exs[i].id && b[PairIndex(|exs|, i, j)].toId == exs[j].id &&
      b[PairIndex(|exs|, i, j)].latency == SimulateLatency(exs[i], exs[j], env, BatchCursor(exs, env, at, now, i, j)).0
  {
    RowsFromAt(exs, 0, Simulator(env), at, now, i, j);
    RowsMeasuredAt(exs, 0, Simulator(env), at, now, i, j);
    var c := BatchCursor(exs, env, at, now, i, j);
    assert Simulator(env)(exs[i], exs[j], c) == SimulateLatency(exs[i], exs[j], env, c);
  }

  /**
   The latency of pair (i, j) in the batch lies within 10% (before
   rounding, floored at 1 ms) of that pair's own pre-jitter latency.
   */
  lemma PairwiseEntryBand(exs: seq<ExchangeServer>, env: Env, at: nat, now: int, i: nat, j: nat)
    requires i < j < |exs|
    ensures var b := PairwiseLatencies(exs, env, at, now).0;
      var c := BatchCursor(exs, env, at, now, i, j);
      0 <= PairIndex(|exs|, i, j) < |b| &&
      MaxInt(1, Round(PreJitter(exs[i], exs[j], env, c).0 * 0.9)) <= b[PairIndex(|exs|, i, j)].latency <=
        MaxInt(1, Round(PreJitter(exs[i], exs[j], env, c).0 * 1.1))
  {
    PairwiseEntry(exs, env, at, now, i, j);
  }

  /**
   The part of row `i` the inner loop has built before reaching `j`: the
   entries for (i, i + 1), ..., (i, j - 1) and the cursor after their draws.
   */
  function RowPrefix(exs: seq<ExchangeServer>, i: nat, j: nat, sim: Measure, at: nat, now: int)
    : (r: (seq<LatencyData>, nat))
    requires i < j <= |exs|
    ensures |r.0| == j - i - 1
    decreases j
  {
    if j == i + 1 then ([], at)
    else
      var prev := RowPrefix(exs, i, j - 1, sim, at, now);
      var step := sim(exs[i], exs[j - 1], prev.1);
      (prev.0 + [LatencyData(exs[i].id, exs[j - 1].id, step.0, now)], step.1)
  }

  /** The built part of a row followed by the rest of the row from its cursor is the whole row. */
  lemma {:induction false} RowPrefixThenRest(exs: seq<ExchangeServer>, i: nat, j: nat, sim: Measure, at: nat, now: int)
    requires i < j <= |exs|
    ensures var p := RowPrefix(exs, i, j, sim, at, now);
      var rest := PairsFrom(exs, i, j, sim, p.1, now);
      p.0 + rest.0 == PairsFrom(exs, i, i + 1, sim, at, now).0 &&
      rest.1 == PairsFrom(exs, i, i + 1, sim, at, now).1
    decreases j
  {
    if j == i + 1 {
      assert [] + PairsFrom(exs, i, j, sim, at, now).0 == PairsFrom(exs, i, j, sim, at, now).0;
    } else {
      RowPrefixThenRest(exs, i, j - 1, sim, at, now);
      var prev := RowPrefix(exs, i, j - 1, sim, at, now);
      PairsFromUnfold(exs, i, j - 1, sim, prev.1, now);
      var step := sim(exs[i], exs[j - 1], prev.1);
      ConcatAssoc(prev.0, [LatencyData(exs[i].id, exs[j - 1].id, step.0, now)], PairsFrom(exs, i, j, sim, step.1, now).0);
    }
  }

  /** The inner loop of `generateLatencyData`: the entries pairing exchange `i` with every later one. */
  method GenerateRow(exs: seq<ExchangeServer>, i: nat, env: Env, at: nat, now: int)
    returns (row: seq<LatencyData>, at': nat)
    requires i < |exs|
    ensures row == PairsFrom(exs, i, i + 1, Simulator(env), at, now).0
    ensures at' == PairsFrom(exs, i, i + 1, Simulator(env), at, now).1
  {
    ghost var sim := Simulator(env);
    row := [];
    var cursor := at;
    var j := i + 1;
    while j < |exs|
      invariant i + 1 <= j <= |exs|
      invariant row == RowPrefix(exs, i, j, sim, at, now).0
      invariant cursor == RowPrefix(exs, i, j, sim, at, now).1
    {
      var step := SimulateLatency(exs[i], exs[j], env, cursor);
      assert step == sim(exs[i], exs[j], cursor);
      row := row + [LatencyData(exs[i].id, exs[j].id, step.0, now)];
      cursor := step.1;
      j := j + 1;
    }
    RowPrefixThenRest(exs, i, j, sim, at, now);
    assert row + [] == row;
    at' := cursor;
  }

  /** The rows the outer loop has built before reaching `i`, and the cursor after their draws. */
  function RowsPrefix(exs: seq<ExchangeServer>, i: nat, sim: Measure, at: nat, now: int)
    : (r: (seq<LatencyData>, nat))
    requires i <= |exs|
    decreases i
  {
    if i == 0 then ([], at)
    else
      var prev := RowsPrefix(exs, i - 1, sim, at, now);
      var row := PairsFrom(exs, i - 1, i, sim, prev.1, now);
      (prev.0 + row.0, row.1)
  }

  /** The built rows followed by the remaining rows from their cursor are the whole batch. */
  lemma {:induction false} RowsPrefixThenRest(exs: seq<ExchangeServer>, i: nat, sim: Measure, at: nat, now: int)
    requires i <= |exs|
    ensures var p := RowsPrefix(exs, i, sim, at, now);
      var rest := RowsFrom(exs, i, sim, p.1, now);
      p.0 + rest.0 == RowsFrom(exs, 0, sim, at, now).0 &&
      rest.1 == RowsFrom(exs, 0, sim, at, now).1
    decreases i
  {
    if i == 0 {
      assert [] + RowsFrom(exs, 0, sim, at, now).0 == RowsFrom(exs, 0, sim, at, now).0;
    } else {
      RowsPrefixThenRest(exs, i - 1, sim, at, now);
      var prev := RowsPrefix(exs, i - 1, sim, at, now);
      RowsFromUnfold(exs, i - 1, sim, prev.1, now);
      var row := PairsFrom(exs, i - 1, i, sim, prev.1, now);
      ConcatAssoc(prev.0, row.0, RowsFrom(exs, i, sim, row.1, now).0);
    }
  }

  /** `generateLatencyData`: the outer loop over the first exchange of each pair. */
  method GenerateLatencyData(exs: seq<ExchangeServer>, env: Env, at: nat, now: int)
    returns (batch: seq<LatencyData>, at': nat)
    ensures batch == PairwiseLatencies(exs, env, at, now).0
    ensures at' == PairwiseLatencies(exs, env, at, now).1
  {
    ghost var sim := Simulator(env);
    batch := [];
    var cursor := at;
    var i := 0;
    while i < |exs|
      invariant 0 <= i <= |exs|
      invariant batch == RowsPrefix(exs, i, sim, at, now).0
      invariant cursor == RowsPrefix(exs, i, sim, at, now).1
    {
      var row, next := GenerateRow(exs, i, env, cursor, now);
      batch := batch + row;
      cursor := next;
      i := i + 1;
    }
    RowsPrefixThenRest(exs, i, sim, at, now);
    assert batch + [] == batch;
    at' := cursor;
  }

  // ---------------------------------------------------------------------------
  // getLatencyColor
  // ---------------------------------------------------------------------------

  /** The severity bucket of a latency: below 50, below 150, or higher. */
  function LevelOf(latency: int): (level: LatencyRange)
    ensures level == Low <==> latency < 50
    ensures level == Medium <==> 50 <= latency < 150
    ensures level == High <==> latency >= 150
  {
    if latency < 50 then Low
    else if latency < 150 then Medium
    else High
  }

  const GREEN: string := "#10B981"
  const AMBER: string := "#F59E0B"
  const RED: string := "#EF4444"

  /** `getLatencyColor`: green, amber or red by bucket. */
  function LatencyColor(latency: int): (color: string)
    ensures color == GREEN <==> latency < 50
    ensures color == AMBER <==> 50 <= latency < 150
    ensures color == RED <==> latency >= 150
  {
    match LevelOf(latency)
    case Low => GREEN
    case Medium => AMBER
    case High => RED
  }

  function Severity(level: LatencyRange): nat {
    match level
    case Low => 0
    case Medium => 1
    case High => 2
  }

  /** A larger latency never lands in a milder bucket; 50 and 150 open the higher bucket. */
  lemma LevelMonotone(a: int, b: int)
    requires a <= b
    ensures Severity(LevelOf(a)) <= Severity(LevelOf(b))
    ensures LevelOf(49) == Low && LevelOf(50) == Medium && LevelOf(149) == Medium && LevelOf(150) == High
  {
  }

  // ---------------------------------------------------------------------------
  // generateHistoricalData
  // ---------------------------------------------------------------------------

  const MINUTE_MS: int := 60 * 1000
  const HOUR_MS: int := 60 * MINUTE_MS
  const DAY_MS: int := 24 * HOUR_MS

  /** Total duration and sampling interval of a time range, in milliseconds. */
  function RangeSpec(range: TimeRange): (spec: (int, int))
    ensures 0 < spec.1 <= spec.0
    ensures spec.0 % spec.1 == 0
    ensures spec.0 / spec.1 + 1 == PointCount(range)
  {
    match range
    case OneHour => (HOUR_MS, MINUTE_MS)
    case OneDay => (24 * HOUR_MS, 15 * MINUTE_MS)
    case SevenDays => (7 * DAY_MS, HOUR_MS)
    case ThirtyDays => (30 * DAY_MS, 6 * HOUR_MS)
  }

  /** Number of samples in a series. */
  function PointCount(range: TimeRange): (n: nat)
    ensures n >= 1
  {
    match range
    case OneHour => 61
    case OneDay => 97
    case SevenDays => 169
    case ThirtyDays => 121
  }

  /**
   The countdown `duration, duration - interval, ..., 0` visits exactly
   `duration / interval + 1` offsets, both ends of the window included:
   every duration is a whole number of intervals.
   */
  lemma PointCountQuotient(range: TimeRange)
    ensures PointCount(range) == RangeSpec(range).0 / RangeSpec(range).1 + 1
    ensures (PointCount(range) - 1) * RangeSpec(range).1 == RangeSpec(range).0
  {
  }

  /**
   One historical sample `offset` milliseconds before `now`, around the
   whole-millisecond `base`, from a sine value and three draws (variation,
   min spread, max spread, in that order).
   */
  function HistoricalPoint(now: int, offset: int, interval: int, base: int, env: Env, u1: Draw, u2: Draw, u3: Draw)
    : (p: HistoricalLatency)
    requires interval > 0
    ensures p.timestamp == now - offset
    ensures p.latency >= 1
    ensures MaxInt(1, base - 15) <= p.latency <= MaxInt(1, base + 25)
    ensures p.min <= p.latency <= p.max
    ensures p.min <= p.avg <= p.max
    ensures p.max - p.min <= 20
  {
    var variation := env.sine(offset as real / interval as real) * 15.0 + u1 * 10.0;
    var latency := MaxReal(1.0, base as real + variation);
    var lo := latency - u2 * 5.0;
    var hi := latency + u3 * 15.0;
    var avg := (lo + hi) / 2.0;
    RoundMonotone(lo, latency);
    RoundMonotone(latency, hi);
    RoundMonotone(lo, avg);
    RoundMonotone(avg, hi);
    RoundMonotone(1.0, latency);
    RoundMonotone(MaxReal(1.0, (base - 15) as real), latency);
    RoundMonotone(latency, MaxReal(1.0, (base + 25) as real));
    RoundInt(MaxInt(1, base - 15));
    RoundInt(MaxInt(1, base + 25));
    HistoricalLatency(now - offset, Round(latency), Round(lo), Round(hi), Round(avg))
  }

  /** Sample `k` of a series: offset `duration - k * interval`, draws 3k, 3k + 1, 3k + 2 after `at`. */
  function SeriesPoint(k: nat, duration: int, interval: int, base: int, env: Env, at: nat, now: int)
    : (p: HistoricalLatency)
    requires interval > 0
  {
    HistoricalPoint(now, duration - k * interval, interval, base, env,
      env.random(at + 3 * k), env.random(at + 3 * k + 1), env.random(at + 3 * k + 2))
  }

  /** The `n` samples at offsets duration, duration - interval, ..., drawing three values each. */
  function SeriesPoints(n: nat, duration: int, interval: int, base: int, env: Env, at: nat, now: int)
    : (points: seq<HistoricalLatency>)
    requires interval > 0
    ensures |points| == n
    ensures forall k :: 0 <= k < n ==> points[k] == SeriesPoint(k, duration, interval, base, env, at, now)
  {
    seq(n, k requires 0 <= k < n => SeriesPoint(k, duration, interval, base, env, at, now))
  }

  lemma MulSucc(k: int, q: int)
    ensures (k + 1) * q == k * q + q
  {
  }

  /** Consecutive samples of a series are exactly one interval apart. */
  lemma SeriesSpacing(points: seq<HistoricalLatency>, n: nat, duration: int, interval: int, base: int, env: Env, at: nat, now: int)
    requires interval > 0
    requires points == SeriesPoints(n, duration, interval, base, env, at, now)
    ensures forall k :: 0 <= k < |points| - 1 ==> points[k + 1].timestamp == points[k].timestamp + interval
  {
    forall k | 0 <= k < |points| - 1
      ensures points[k + 1].timestamp == points[k].timestamp + interval
    {
      MulSucc(k, interval);
    }
  }

  /** A countdown series starts `duration` before `now`, ends at `now`, and every sample is well ordered. */
  lemma SeriesShape(points: seq<HistoricalLatency>, n: nat, duration: int, interval: int, base: int, env: Env, at: nat, now: int)
    requires interval > 0 && n >= 1 && duration == (n - 1) * interval
    requires points == SeriesPoints(n, duration, interval, base, env, at, now)
    ensures |points| == n
    ensures points[0].timestamp == now - duration
    ensures points[n - 1].timestamp == now
    ensures forall k :: 0 <= k < n ==>
      points[k].latency >= 1 && points[k].min <= points[k].latency <= points[k].max && points[k].min <= points[k].avg <= points[k].max
    ensures forall k :: 0 <= k < n ==> MaxInt(1, base - 15) <= points[k].latency <= MaxInt(1, base + 25)
  {
    assert points[0] == SeriesPoint(0, duration, interval, base, env, at, now);
    assert points[n - 1] == SeriesPoint(n - 1, duration, interval, base, env, at, now);
    forall k | 0 <= k < n ensures
      points[k].latency >= 1 && points[k].min <= points[k].latency <= points[k].max && points[k].min <= points[k].avg <= points[k].max &&
      MaxInt(1, base - 15) <= points[k].latency <= MaxInt(1, base + 25)
    {
      assert points[k] == SeriesPoint(k, duration, interval, base, env, at, now);
    }
  }

  /**
   `generateHistoricalData(from, to, range)` as a function: one baseline
   latency, then one sample per interval from `now - duration` up to `now`.
   */
  function HistoricalSeries(from: ExchangeServer, to: ExchangeServer, range: TimeRange, env: Env, at: nat, now: int)
    : (r: (seq<HistoricalLatency>, nat))
    ensures |r.0| == PointCount(range)
    ensures r.1 == at + DrawsPerLatency(from, to) + 3 * |r.0|
  {
    var spec := RangeSpec(range);
    var first := SimulateLatency(from, to, env, at);
    var n := PointCount(range);
    (SeriesPoints(n, spec.0, spec.1, first.0, env, first.1, now), first.1 + 3 * n)
  }

  /**
   A series covers the window from `now - duration` up to `now`, with
   consecutive samples one interval apart.
   */
  lemma SeriesWindow(from: ExchangeServer, to: ExchangeServer, range: TimeRange, env: Env, at: nat, now: int)
    ensures var d := HistoricalSeries(from, to, range, env, at, now).0;
      d[0].timestamp == now - RangeSpec(range).0 &&
      d[|d| - 1].timestamp == now &&
      forall k :: 0 <= k < |d| - 1 ==> d[k + 1].timestamp == d[k].timestamp + RangeSpec(range).1
  {
    var spec := RangeSpec(range);
    var first := SimulateLatency(from, to, env, at);
    var n := PointCount(range);
    var points := SeriesPoints(n, spec.0, spec.1, first.0, env, first.1, now);
    PointCountQuotient(range);
    SeriesShape(points, n, spec.0, spec.1, first.0, env, first.1, now);
    SeriesSpacing(points, n, spec.0, spec.1, first.0, env, first.1, now);
  }

  /**
   Every sample of a series has a latency of at least 1 ms, lies between its
   own min and max, and stays within -15..+25 ms (floored at 1) of the
   pair's baseline `simulateLatency(from, to)`.
   */
  lemma SeriesSamplesOrdered(from: ExchangeServer, to: ExchangeServer, range: TimeRange, env: Env, at: nat, now: int)
    ensures var d := HistoricalSeries(from, to, range, env, at, now).0;
      forall k :: 0 <= k < |d| ==>
        d[k].latency >= 1 && d[k].min <= d[k].latency <= d[k].max && d[k].min <= d[k].avg <= d[k].max
    ensures var d := HistoricalSeries(from, to, range, env, at, now).0;
      var base := SimulateLatency(from, to, env, at).0;
      forall k :: 0 <= k < |d| ==> MaxInt(1, base - 15) <= d[k].latency <= MaxInt(1, base + 25)
  {
    var spec := RangeSpec(range);
    var first := SimulateLatency(from, to, env, at);
    var n := PointCount(range);
    var points := SeriesPoints(n, spec.0, spec.1, first.0, env, first.1, now);
    PointCountQuotient(range);
    SeriesShape(points, n, spec.0, spec.1, first.0, env, first.1, now);
  }

  /**
   Sample `k` of a series is the point `duration - k * interval` before
   `now`, around the pair's baseline, from the three draws that follow the
   baseline's own draws and the earlier samples' draws.
   */
  lemma SeriesSampleAt(from: ExchangeServer, to: ExchangeServer, range: TimeRange, env: Env, at: nat, now: int, k: nat)
    requires k < PointCount(range)
    ensures var d := HistoricalSeries(from, to, range, env, at, now).0;
      var spec := RangeSpec(range);
      var c := at + DrawsPerLatency(from, to) + 3 * k;
      d[k] == HistoricalPoint(now, spec.0 - k * spec.1, spec.1, SimulateLatency(from, to, env, at).0, env,
        env.random(c), env.random(c + 1), env.random(c + 2))
  {
  }

  /** With `duration == (n - 1) * q`, offset `duration - m * q` is non-negative exactly while m < n. */
  lemma CountdownStep(duration: int, n: nat, m: nat, q: int)
    requires q > 0 && n >= 1 && duration == (n - 1) * q
    ensures duration - m * q >= 0 <==> m < n
    ensures duration - m * q - q == duration - (m + 1) * q
  {
    MulSucc(m, q);
    if m < n {
      MulLe(m, n - 1, q);
    } else {
      MulLe(n, m, q);
      MulSucc(n - 1, q);
    }
  }

  /**
   The countdown loop of `generateHistoricalData`: offsets `duration`,
   `duration - interval`, ..., down to 0, three draws per sample.
   */
  method SampleSeries(n: nat, duration: int, interval: int, base: int, env: Env, at: nat, now: int)
    returns (data: seq<HistoricalLatency>, at': nat)
    requires interval > 0 && n >= 1 && duration == (n - 1) * interval
    ensures data == SeriesPoints(n, duration, interval, base, env, at, now)
    ensures at' == at + 3 * n
  {
    ghost var points := SeriesPoints(n, duration, interval, base, env, at, now);
    data := [];
    var cursor := at;
    var i := duration;
    while i >= 0
      invariant |data| <= n
      invariant i == duration - |data| * interval
      invariant i >= 0 <==> |data| < n
      invariant forall k :: 0 <= k < |data| ==> data[k] == points[k]
      invariant cursor == at + 3 * |data|
      decreases n - |data|
    {
      var u1 := env.random(cursor);
      var u2 := env.random(cursor + 1);
      var u3 := env.random(cursor + 2);
      CountdownStep(duration, n, |data|, interval);
      CountdownStep(duration, n, |data| + 1, interval);
      var p := HistoricalPoint(now, i, interval, base, env, u1, u2, u3);
      assert p == points[|data|];
      data := data + [p];
      cursor := cursor + 3;
      i := i - interval;
    }
    assert data == points;
    at' := cursor;
  }

  /** `generateHistoricalData`: one baseline latency, then the sampling loop. */
  method GenerateHistoricalData(from: ExchangeServer, to: ExchangeServer, range: TimeRange, env: Env, at: nat, now: int)
    returns (data: seq<HistoricalLatency>, at': nat)
    ensures data == HistoricalSeries(from, to, range, env, at, now).0
    ensures at' == HistoricalSeries(from, to, range, env, at, now).1
  {
    var spec := RangeSpec(range);
    var first := SimulateLatency(from, to, env, at);
    PointCountQuotient(range);
    data, at' := SampleSeries(PointCount(range), spec.0, spec.1, first.0, env, first.1, now);
  }

  // ---------------------------------------------------------------------------
  // calculateStats
  // ---------------------------------------------------------------------------

  datatype Stats = Stats(min: int, max: int, avg: int)

  function Latencies(data: seq<HistoricalLatency>): (xs: seq<int>)
    ensures |xs| == |data|
    ensures forall k :: 0 <= k < |data| ==> xs[k] == data[k].latency
  {
    seq(|data|, k requires 0 <= k < |data| => data[k].latency)
  }

  function Sum(xs: seq<int>): int {
    if |xs| == 0 then 0 else xs[0] + Sum(xs[1..])
  }

  /** `Math.min(...xs)` on a non-empty list. */
  function MinOf(xs: seq<int>): (m: int)
    requires |xs| > 0
    ensures m in xs
    ensures forall k :: 0 <= k < |xs| ==> m <= xs[k]
  {
    if |xs| == 1 then xs[0]
    else
      var m := MinOf(xs[1..]);
      if xs[0] <= m then xs[0] else m
  }

  /** `Math.max(...xs)` on a non-empty list. */
  function MaxOf(xs: seq<int>): (m: int)
    requires |xs| > 0
    ensures m in xs
    ensures forall k :: 0 <= k < |xs| ==> xs[k] <= m
  {
    if |xs| == 1 then xs[0]
    else
      var m := MaxOf(xs[1..]);
      if xs[0] >= m then xs[0] else m
  }

  /** If every element lies in [lo, hi], the sum lies in [n*lo, n*hi]. */
  lemma {:induction false} SumBounds(xs: seq<int>, lo: int, hi: int)
    requires forall k :: 0 <= k < |xs| ==> lo <= xs[k] <= hi
    ensures |xs| * lo <= Sum(xs) <= |xs| * hi
  {
    if |xs| > 0 {
      SumBounds(xs[1..], lo, hi);
    }
  }

  /** The exact arithmetic mean. */
  function Mean(xs: seq<int>): real
    requires |xs| > 0
  {
    Sum(xs) as real / |xs| as real
  }

  /**
   `Math.round(sum / length)`: the integer within half of the exact mean,
   ties going up, and so never outside the extremes.
   */
  function RoundedMean(xs: seq<int>): (avg: int)
    requires |xs| > 0
    ensures Mean(xs) - 0.5 < avg as real <= Mean(xs) + 0.5
    ensures MinOf(xs) <= avg <= MaxOf(xs)
  {
    var n := |xs| as real;
    var mean := Sum(xs) as real / n;
    SumBounds(xs, MinOf(xs), MaxOf(xs));
    assert MinOf(xs) as real <= mean <= MaxOf(xs) as real by {
      MeanBounds(Sum(xs), |xs|, MinOf(xs), MaxOf(xs));
    }
    RoundMonotone(MinOf(xs) as real, mean);
    RoundMonotone(mean, MaxOf(xs) as real);
    RoundInt(MinOf(xs));
    RoundInt(MaxOf(xs));
    Round(mean)
  }

  /** Only one integer lies within half of the mean, so the rounded mean is determined by it. */
  lemma RoundedMeanUnique(xs: seq<int>, k: int)
    requires |xs| > 0
    requires Mean(xs) - 0.5 < k as real <= Mean(xs) + 0.5
    ensures k == RoundedMean(xs)
  {
  }

  /** A mean exactly halfway between two integers rounds up: 1 and 2 average to 2. */
  lemma RoundedMeanTieGoesUp()
    ensures RoundedMean([1, 2]) == 2
  {
    assert Sum([1, 2]) == 3 by {
      assert [1, 2][1..] == [2];
    }
    RoundedMeanUnique([1, 2], 2);
  }

  lemma MeanBounds(sum: int, n: int, lo: int, hi: int)
    requires n > 0 && n * lo <= sum <= n * hi
    ensures lo as real <= sum as real / n as real <= hi as real
  {
    assert (n * lo) as real == n as real * lo as real;
    assert (n * hi) as real == n as real * hi as real;
  }

  /** `calculateStats(data)` over the `latency` field. */
  function CalculateStats(data: seq<HistoricalLatency>): (s: Stats)
    ensures |data| == 0 ==> s == Stats(0, 0, 0)
    ensures |data| > 0 ==> s.min in Latencies(data) && s.max in Latencies(data)
    ensures forall k :: 0 <= k < |data| ==> s.min <= data[k].latency <= s.max
    ensures s.min <= s.avg <= s.max
    ensures |data| > 0 ==> Mean(Latencies(data)) - 0.5 < s.avg as real <= Mean(Latencies(data)) + 0.5
  {
    if |data| == 0 then Stats(0, 0, 0)
    else
      var xs := Latencies(data);
      Stats(MinOf(xs), MaxOf(xs), RoundedMean(xs))
  }

  /** A series whose every latency is `c` summarises to `c` three times. */
  lemma ConstantSeriesStats(data: seq<HistoricalLatency>, c: int)
    requires |data| > 0
    requires forall k :: 0 <= k < |data| ==> data[k].latency == c
    ensures CalculateStats(data) == Stats(c, c, c)
  {
    var s := CalculateStats(data);
    assert s.min in Latencies(data) && s.max in Latencies(data);
  }
}

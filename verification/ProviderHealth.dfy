/** The sliding window of originate samples of a provider, and the status computed from it. */
module HealthWindow {
  import opened Documents

  datatype Status = Healthy | Degraded | Unhealthy

  datatype Sample = Sample(recordedAt: Time, success: bool, timedOut: bool, latency: int)

  datatype HealthConfig = HealthConfig(
    window: nat,
    minSamples: int,
    unhealthyConsecutiveFailures: int,
    unhealthyTimeoutRate: real,
    degradedFailureRate: real,
    degradedLatency: real)

  ghost predicate Ordered(h: seq<Sample>) {
    forall i, j | 0 <= i < j < |h| :: h[i].recordedAt <= h[j].recordedAt
  }

  /** The samples of a history that a cutoff leaves, wherever they stand. */
  ghost function Since(h: seq<Sample>, cutoff: Time): seq<Sample> {
    if h == [] then []
    else if h[0].recordedAt < cutoff then Since(h[1..], cutoff)
    else [h[0]] + Since(h[1..], cutoff)
  }

  lemma {:induction false} SinceKeepsAll(h: seq<Sample>, cutoff: Time)
    requires forall x <- h :: x.recordedAt >= cutoff
    ensures Since(h, cutoff) == h
  {
    if h != [] {
      SinceKeepsAll(h[1..], cutoff);
      assert h == [h[0]] + h[1..];
    }
  }

  lemma {:induction false} SinceDropsAll(h: seq<Sample>, cutoff: Time)
    requires forall x <- h :: x.recordedAt < cutoff
    ensures Since(h, cutoff) == []
  {
    if h != [] {
      SinceDropsAll(h[1..], cutoff);
    }
  }

  lemma {:induction false} SinceOfAppended(h: seq<Sample>, x: Sample, cutoff: Time)
    ensures Since(h + [x], cutoff) == Since(h, cutoff) + (if x.recordedAt < cutoff then [] else [x])
  {
    if h == [] {
      assert [x][1..] == [];
      assert h + [x] == [x];
    } else {
      SinceOfAppended(h[1..], x, cutoff);
      assert (h + [x])[1..] == h[1..] + [x];
    }
  }

  lemma {:induction false} SinceLater(h: seq<Sample>, earlier: Time, cutoff: Time)
    requires earlier <= cutoff
    ensures Since(Since(h, earlier), cutoff) == Since(h, cutoff)
  {
    if h != [] {
      SinceLater(h[1..], earlier, cutoff);
      if h[0].recordedAt >= earlier {
        assert ([h[0]] + Since(h[1..], earlier))[1..] == Since(h[1..], earlier);
      }
    }
  }

  lemma {:induction false} SinceHas(h: seq<Sample>, cutoff: Time, x: Sample)
    ensures x in Since(h, cutoff) <==> x in h && x.recordedAt >= cutoff
  {
    if h != [] {
      SinceHas(h[1..], cutoff, x);
      assert x in h <==> x == h[0] || x in h[1..];
    }
  }

  lemma {:induction false} SinceIsOrdered(h: seq<Sample>, cutoff: Time)
    requires Ordered(h)
    ensures Ordered(Since(h, cutoff))
  {
    if h != [] {
      SinceIsOrdered(h[1..], cutoff);
      var rest := Since(h[1..], cutoff);
      forall i | 0 <= i < |rest| ensures h[0].recordedAt <= rest[i].recordedAt {
        SinceHas(h[1..], cutoff, rest[i]);
        var k :| 0 <= k < |h[1..]| && h[1..][k] == rest[i];
        assert h[k + 1] == rest[i];
      }
    }
  }

  /** _trim: drop expired samples from the front. On an ordered window that is all of them. */
  method Trim(window: seq<Sample>, cutoff: Time) returns (kept: seq<Sample>)
    requires Ordered(window)
    ensures kept == Since(window, cutoff)
  {
    kept := window;
    while kept != [] && kept[0].recordedAt < cutoff
      invariant Ordered(kept) && Since(kept, cutoff) == Since(window, cutoff)
    {
      kept := kept[1..];
    }
    if kept != [] {
      SinceKeepsAll(kept, cutoff);
    }
  }

  // The figures computed from a window

  ghost function Successes(w: seq<Sample>): nat {
    if w == [] then 0 else (if w[0].success then 1 else 0) + Successes(w[1..])
  }

  ghost function Timeouts(w: seq<Sample>): nat {
    if w == [] then 0 else (if w[0].timedOut then 1 else 0) + Timeouts(w[1..])
  }

  lemma {:induction false} CountOneMore(w: seq<Sample>, n: nat)
    requires n < |w|
    ensures Successes(w[..n + 1]) == Successes(w[..n]) + (if w[n].success then 1 else 0)
    ensures Timeouts(w[..n + 1]) == Timeouts(w[..n]) + (if w[n].timedOut then 1 else 0)
  {
    assert w[..n + 1][1..] == w[1..][..n];
    if n > 0 {
      CountOneMore(w[1..], n - 1);
      assert w[..n][1..] == w[1..][..n - 1];
    }
  }

  method CountOutcomes(w: seq<Sample>) returns (successes: nat, timeouts: nat)
    ensures successes == Successes(w) && timeouts == Timeouts(w)
  {
    successes, timeouts := 0, 0;
    for i := 0 to |w|
      invariant successes == Successes(w[..i]) && timeouts == Timeouts(w[..i])
    {
      CountOneMore(w, i);
      successes := if w[i].success then successes + 1 else successes;
      timeouts := if w[i].timedOut then timeouts + 1 else timeouts;
    }
    assert w[..|w|] == w;
  }

  /** The last n samples failed, and no more than that. */
  ghost predicate TrailingFailures(w: seq<Sample>, n: nat) {
    && n <= |w|
    && (forall i | |w| - n <= i < |w| :: !w[i].success)
    && (n < |w| ==> w[|w| - n - 1].success)
  }

  lemma TrailingFailuresUnique(w: seq<Sample>, m: nat, n: nat)
    requires TrailingFailures(w, m) && TrailingFailures(w, n)
    ensures m == n
  {
    if m < |w| {
      assert w[|w| - m - 1].success;
    }
    if n < |w| {
      assert w[|w| - n - 1].success;
    }
  }

  /** _count_trailing_failures */
  method CountTrailingFailures(w: seq<Sample>) returns (failures: nat)
    ensures TrailingFailures(w, failures)
  {
    failures := 0;
    while failures < |w| && !w[|w| - failures - 1].success
      invariant failures <= |w| && forall i | |w| - failures <= i < |w| :: !w[i].success
    {
      failures := failures + 1;
    }
  }

  // percentile

  function Insert(x: int, sorted: seq<int>): seq<int> {
    if sorted == [] || x <= sorted[0] then [x] + sorted else [sorted[0]] + Insert(x, sorted[1..])
  }

  function Sort(values: seq<int>): seq<int> {
    if values == [] then [] else Insert(values[0], Sort(values[1..]))
  }

  ghost predicate Sorted(values: seq<int>) {
    forall i, j | 0 <= i < j < |values| :: values[i] <= values[j]
  }

  lemma {:induction false} InsertHas(x: int, sorted: seq<int>)
    ensures multiset(Insert(x, sorted)) == multiset(sorted) + multiset{x}
    ensures |Insert(x, sorted)| == |sorted| + 1
  {
    if sorted != [] && x > sorted[0] {
      InsertHas(x, sorted[1..]);
      assert sorted == [sorted[0]] + sorted[1..];
    }
  }

  lemma {:induction false} InsertSorts(x: int, sorted: seq<int>)
    requires Sorted(sorted)
    ensures Sorted(Insert(x, sorted))
  {
    if sorted != [] && x > sorted[0] {
      InsertSorts(x, sorted[1..]);
      InsertHas(x, sorted[1..]);
      var rest := Insert(x, sorted[1..]);
      forall i | 0 <= i < |rest| ensures sorted[0] <= rest[i] {
        assert rest[i] in multiset(rest);
        assert rest[i] == x || rest[i] in multiset(sorted[1..]);
      }
    }
  }

  lemma {:induction false} SortSorts(values: seq<int>)
    ensures Sorted(Sort(values)) && multiset(Sort(values)) == multiset(values) && |Sort(values)| == |values|
  {
    if values != [] {
      SortSorts(values[1..]);
      InsertSorts(values[0], Sort(values[1..]));
      InsertHas(values[0], Sort(values[1..]));
      assert values == [values[0]] + values[1..];
    }
  }

  /** round() of the program's language: to the nearest integer, halves to even. */
  function Round(x: real): int {
    var low := x.Floor;
    var rest := x - low as real;
    if rest < 0.5 then low else if rest > 0.5 then low + 1 else if low % 2 == 0 then low else low + 1
  }

  /** Within half of the number, and even when exactly between two. */
  lemma RoundIsNearest(x: real)
    ensures x - 0.5 <= Round(x) as real <= x + 0.5
    ensures Round(x) as real == x - 0.5 || Round(x) as real == x + 0.5 ==> Round(x) % 2 == 0
  {
  }

  function NearestIndex(n: nat, exact: real): int {
    if Round(exact) < n - 1 then Round(exact) else n - 1
  }

  function PercentileIndex(n: nat, fraction: real): int {
    NearestIndex(n, fraction * (n - 1) as real)
  }

  lemma ProductIsNonNegative(x: real, y: real)
    requires x >= 0.0 && y >= 0.0
    ensures x * y >= 0.0
  {
  }

  lemma PercentileIndexInRange(n: nat, fraction: real)
    requires n > 0 && 0.0 <= fraction <= 1.0
    ensures 0 <= PercentileIndex(n, fraction) < n
  {
    ProductIsNonNegative(fraction, (n - 1) as real);
  }

  /** The index is a valid one within half of the exact position. */
  lemma NearestIndexIsNear(n: nat, exact: real)
    requires n > 0 && 0.0 <= exact <= (n - 1) as real
    ensures 0 <= NearestIndex(n, exact) < n && exact - 0.5 <= NearestIndex(n, exact) as real <= exact + 0.5
  {
    RoundIsNearest(exact);
  }

  lemma ShareOfIsLess(x: real, y: real)
    requires 0.0 <= x <= 1.0 && y >= 0.0
    ensures 0.0 <= x * y <= y
  {
  }

  /** The nearest whole number, the even one of two. */
  ghost predicate IsNearestTo(at: int, exact: real) {
    && exact - 0.5 <= at as real <= exact + 0.5
    && (at as real == exact - 0.5 || at as real == exact + 0.5 ==> at % 2 == 0)
  }

  lemma NearestIsRound(n: nat, exact: real)
    requires n > 0 && 0.0 <= exact <= (n - 1) as real
    ensures IsNearestTo(NearestIndex(n, exact), exact)
  {
    RoundIsNearest(exact);
    RoundStaysBelow(exact, n - 1);
  }

  lemma RoundStaysBelow(x: real, n: nat)
    requires x <= n as real
    ensures Round(x) <= n
  {
  }

  /** The index is never cut off: it is the nearest to its exact place. */
  lemma IndexIsNearest(n: nat, fraction: real)
    requires n > 0 && 0.0 <= fraction <= 1.0
    ensures IsNearestTo(PercentileIndex(n, fraction), fraction * (n - 1) as real)
  {
    var exact := fraction * (n - 1) as real;
    ShareOfIsLess(fraction, (n - 1) as real);
    NearestIsRound(n, exact);
    assert PercentileIndex(n, fraction) == NearestIndex(n, exact);
  }

  /** percentile; the empty list counts as 0. */
  function Percentile(values: seq<int>, fraction: real): int
    requires 0.0 <= fraction <= 1.0
  {
    if values == [] then 0
    else
      PercentileIndexInRange(|values|, fraction);
      SortSorts(values);
      Sort(values)[PercentileIndex(|values|, fraction)]
  }

  ghost function CountAtMost(values: seq<int>, v: int): nat {
    if values == [] then 0 else (if values[0] <= v then 1 else 0) + CountAtMost(values[1..], v)
  }

  ghost function CountAtLeast(values: seq<int>, v: int): nat {
    if values == [] then 0 else (if values[0] >= v then 1 else 0) + CountAtLeast(values[1..], v)
  }

  lemma {:induction false} InsertCounts(x: int, sorted: seq<int>, v: int)
    ensures CountAtMost(Insert(x, sorted), v) == CountAtMost(sorted, v) + (if x <= v then 1 else 0)
    ensures CountAtLeast(Insert(x, sorted), v) == CountAtLeast(sorted, v) + (if x >= v then 1 else 0)
  {
    if sorted == [] || x <= sorted[0] {
      assert ([x] + sorted)[1..] == sorted;
    } else {
      InsertCounts(x, sorted[1..], v);
      assert ([sorted[0]] + Insert(x, sorted[1..]))[1..] == Insert(x, sorted[1..]);
    }
  }

  lemma {:induction false} SortCounts(values: seq<int>, v: int)
    ensures CountAtMost(Sort(values), v) == CountAtMost(values, v)
    ensures CountAtLeast(Sort(values), v) == CountAtLeast(values, v)
  {
    if values != [] {
      SortCounts(values[1..], v);
      InsertCounts(values[0], Sort(values[1..]), v);
    }
  }

  lemma {:induction false} CountsInSorted(sorted: seq<int>, k: nat, v: int)
    requires Sorted(sorted) && k < |sorted| && v == sorted[k]
    ensures CountAtMost(sorted, v) >= k + 1 && CountAtLeast(sorted, v) >= |sorted| - k
  {
    if k > 0 {
      CountsInSorted(sorted[1..], k - 1, v);
    } else {
      AllAtLeast(sorted, v);
    }
  }

  lemma {:induction false} AllAtLeast(sorted: seq<int>, v: int)
    requires forall x <- sorted :: x >= v
    ensures CountAtLeast(sorted, v) == |sorted|
  {
    if sorted != [] {
      assert sorted[0] in sorted && forall x <- sorted[1..] :: x in sorted;
      AllAtLeast(sorted[1..], v);
    }
  }

  /** The percentile is one of the values, no fewer than index + 1 of them are at most it, and no
      fewer than n - index at least it. */
  lemma PercentileIsOrderStatistic(values: seq<int>, fraction: real)
    requires values != [] && 0.0 <= fraction <= 1.0
    ensures var v := Percentile(values, fraction);
            var at := PercentileIndex(|values|, fraction);
            v in values && CountAtMost(values, v) >= at + 1 && CountAtLeast(values, v) >= |values| - at
  {
    PercentileIndexInRange(|values|, fraction);
    SortSorts(values);
    var v := Percentile(values, fraction);
    assert v in multiset(Sort(values));
    CountsInSorted(Sort(values), PercentileIndex(|values|, fraction), v);
    SortCounts(values, v);
  }

  function Latencies(w: seq<Sample>): seq<int> {
    seq(|w|, i requires 0 <= i < |w| => w[i].latency)
  }

  // The status

  /** _derive_status */
  function DeriveStatus(cfg: HealthConfig, failureRate: real, timeoutRate: real, consecutive: nat, p95: real, lowConfidence: bool): Status {
    if consecutive >= cfg.unhealthyConsecutiveFailures then Unhealthy
    else if !lowConfidence && timeoutRate > cfg.unhealthyTimeoutRate then Unhealthy
    else if lowConfidence then Healthy
    else if failureRate > cfg.degradedFailureRate then Degraded
    else if p95 > cfg.degradedLatency then Degraded
    else Healthy
  }

  /** The status of a window, said without computing it. */
  ghost predicate IsStatusOf(cfg: HealthConfig, w: seq<Sample>, status: Status) {
    var n := |w| as real;
    var confident := |w| >= cfg.minSamples;
    var failing := exists m: nat :: TrailingFailures(w, m) && m >= cfg.unhealthyConsecutiveFailures;
    var timingOut := confident && (if w == [] then 0.0 else Timeouts(w) as real / n) > cfg.unhealthyTimeoutRate;
    var flaky := (if w == [] then 0.0 else 1.0 - Successes(w) as real / n) > cfg.degradedFailureRate;
    var slow := Percentile(seq(|w|, i requires 0 <= i < |w| => w[i].latency), 0.95) as real > cfg.degradedLatency;
    && (status.Unhealthy? <==> failing || timingOut)
    && (status.Degraded? <==> !failing && !timingOut && confident && (flaky || slow))
  }

  /** A window has one status, so the status is a function of the filtered history. */
  lemma StatusIsUnique(cfg: HealthConfig, w: seq<Sample>, x: Status, y: Status)
    requires IsStatusOf(cfg, w, x) && IsStatusOf(cfg, w, y)
    ensures x == y
  {
    if x.Healthy? {
      assert !y.Unhealthy? && !y.Degraded?;
    }
  }

  /** An empty window is HEALTHY exactly under a configuration that never calls silence a failure. */
  lemma SilenceIsHealthyIff(cfg: HealthConfig, status: Status)
    requires IsStatusOf(cfg, [], status)
    ensures status.Healthy? <==>
            && cfg.unhealthyConsecutiveFailures > 0
            && (cfg.minSamples > 0
                || (cfg.unhealthyTimeoutRate >= 0.0 && cfg.degradedFailureRate >= 0.0 && cfg.degradedLatency >= 0.0))
  {
    assert TrailingFailures([], 0);
    assert Latencies([]) == [];
  }

  /** A provider that nobody called for a full window is HEALTHY again, whatever happened before:
      UNHEALTHY, which stops all originates, cannot last. */
  lemma SilenceRestoresHealth(cfg: HealthConfig, h: seq<Sample>, now: Time, status: Status)
    requires forall x <- h :: x.recordedAt < now - cfg.window
    requires IsStatusOf(cfg, Since(h, now - cfg.window), status)
    ensures status.Healthy? <==>
            && cfg.unhealthyConsecutiveFailures > 0
            && (cfg.minSamples > 0
                || (cfg.unhealthyTimeoutRate >= 0.0 && cfg.degradedFailureRate >= 0.0 && cfg.degradedLatency >= 0.0))
  {
    SinceDropsAll(h, now - cfg.window);
    SilenceIsHealthyIff(cfg, status);
  }

  // One provider's window against its history

  /** A history recorded by a clock that never ran backwards and now reads clock. */
  ghost predicate RecordedBy(h: seq<Sample>, clock: Time) {
    h == []
    || (h[|h| - 1].recordedAt <= clock && RecordedBy(h[..|h| - 1], h[|h| - 1].recordedAt))
  }

  lemma {:induction false} RecordedIsOrdered(h: seq<Sample>, clock: Time)
    requires RecordedBy(h, clock)
    ensures Ordered(h) && forall i | 0 <= i < |h| :: h[i].recordedAt <= clock
  {
    if h != [] {
      RecordedIsOrdered(h[..|h| - 1], h[|h| - 1].recordedAt);
      forall i | 0 <= i < |h| - 1 ensures h[i].recordedAt <= h[|h| - 1].recordedAt {
        assert h[..|h| - 1][i] == h[i];
      }
      forall i, j | 0 <= i < j < |h| ensures h[i].recordedAt <= h[j].recordedAt {
        if j < |h| - 1 {
          assert h[..|h| - 1][i].recordedAt <= h[..|h| - 1][j].recordedAt;
        }
      }
    }
  }

  ghost predicate Tracks(w: seq<Sample>, h: seq<Sample>, cutoff: Time, clock: Time, span: nat) {
    RecordedBy(h, clock) && cutoff <= clock - span && w == Since(h, cutoff)
  }

  lemma TrackedLater(w: seq<Sample>, h: seq<Sample>, cutoff: Time, clock: Time, span: nat, now: Time)
    requires Tracks(w, h, cutoff, clock, span) && clock <= now
    ensures Tracks(w, h, cutoff, now, span)
  {
  }

  lemma TrackedAppended(w: seq<Sample>, h: seq<Sample>, cutoff: Time, clock: Time, span: nat, x: Sample)
    requires Tracks(w, h, cutoff, clock, span) && clock <= x.recordedAt
    ensures Tracks(w + [x], h + [x], cutoff, x.recordedAt, span)
  {
    SinceOfAppended(h, x, cutoff);
    assert (h + [x])[..|h|] == h;
    TrackedLater(w, h, cutoff, clock, span, x.recordedAt);
  }

  lemma TrackedTrimmed(w: seq<Sample>, h: seq<Sample>, cutoff: Time, clock: Time, span: nat, now: Time)
    requires Tracks(w, h, cutoff, clock, span) && clock <= now
    ensures Ordered(w) && Since(w, now - span) == Since(h, now - span)
    ensures Tracks(Since(w, now - span), h, now - span, now, span)
  {
    RecordedIsOrdered(h, clock);
    SinceIsOrdered(h, cutoff);
    SinceLater(h, cutoff, now - span);
    TrackedLater(w, h, cutoff, clock, span, now);
  }

  // All providers together

  ghost predicate AllTrack(ws: map<Provider, seq<Sample>>, hs: map<Provider, seq<Sample>>, cutoffs: map<Provider, Time>,
                           clock: Time, span: nat) {
    && ws.Keys == hs.Keys == cutoffs.Keys
    && forall p <- ws :: Tracks(ws[p], hs[p], cutoffs[p], clock, span)
  }

  /** setdefault: a provider not seen before has an empty deque. */
  function Samples(ws: map<Provider, seq<Sample>>, p: Provider): seq<Sample> {
    if p in ws then ws[p] else []
  }

  lemma OneOfAll(ws: map<Provider, seq<Sample>>, hs: map<Provider, seq<Sample>>, cutoffs: map<Provider, Time>,
                 clock: Time, span: nat, p: Provider)
    requires AllTrack(ws, hs, cutoffs, clock, span)
    ensures Tracks(Samples(ws, p), Samples(hs, p), LastCutoff(cutoffs, p, clock, span), clock, span)
  {
  }

  lemma OneReplaced(ws: map<Provider, seq<Sample>>, hs: map<Provider, seq<Sample>>, cutoffs: map<Provider, Time>,
                    clock: Time, span: nat, p: Provider, w: seq<Sample>, h: seq<Sample>, cutoff: Time, now: Time)
    requires AllTrack(ws, hs, cutoffs, clock, span) && clock <= now && Tracks(w, h, cutoff, now, span)
    ensures AllTrack(ws[p := w], hs[p := h], cutoffs[p := cutoff], now, span)
  {
    forall q <- ws ensures Tracks(ws[q], hs[q], cutoffs[q], now, span) {
      TrackedLater(ws[q], hs[q], cutoffs[q], clock, span, now);
    }
  }

  /** Trimming p's window w, which tracks h, and putting it in place of the old one. */
  lemma TrimStep(ws: map<Provider, seq<Sample>>, hs: map<Provider, seq<Sample>>, cutoffs: map<Provider, Time>,
                 clock: Time, span: nat, p: Provider, w: seq<Sample>, h: seq<Sample>, cutoff: Time, read: Time, now: Time)
    requires AllTrack(ws, hs, cutoffs, clock, span) && clock <= read <= now && Tracks(w, h, cutoff, read, span)
    ensures Ordered(w) && Since(w, now - span) == Since(h, now - span)
    ensures AllTrack(ws[p := Since(w, now - span)], hs[p := h], cutoffs[p := now - span], now, span)
  {
    TrackedTrimmed(w, h, cutoff, read, span, now);
    OneReplaced(ws, hs, cutoffs, clock, span, p, Since(w, now - span), h, now - span, now);
  }

  function LastCutoff(cutoffs: map<Provider, Time>, p: Provider, clock: Time, span: nat): Time {
    if p in cutoffs then cutoffs[p] else clock - span
  }

  lemma AppendStep(ws: map<Provider, seq<Sample>>, hs: map<Provider, seq<Sample>>, cutoffs: map<Provider, Time>,
                   clock: Time, span: nat, p: Provider, x: Sample)
    requires AllTrack(ws, hs, cutoffs, clock, span) && clock <= x.recordedAt
    ensures Tracks(Samples(ws, p) + [x], Samples(hs, p) + [x], LastCutoff(cutoffs, p, clock, span), x.recordedAt, span)
  {
    OneOfAll(ws, hs, cutoffs, clock, span, p);
    TrackedAppended(Samples(ws, p), Samples(hs, p), LastCutoff(cutoffs, p, clock, span), clock, span, x);
  }
}

/** The manager: one trimmed window per provider, against the full history it stands for. */
module ProviderHealth {
  import opened Documents
  import opened HealthWindow

  class ProviderHealthManager {
    const cfg: HealthConfig
    var samples: map<Provider, seq<Sample>>

    // Every sample ever recorded, the latest clock reading, and the cutoff of each last trim.
    ghost var history: map<Provider, seq<Sample>>
    ghost var clock: Time
    ghost var cutoffs: map<Provider, Time>

    constructor (cfg: HealthConfig, start: Time)
      ensures this.cfg == cfg && Valid() && history == map[] && clock == start
    {
      this.cfg := cfg;
      samples := map[];
      history := map[];
      cutoffs := map[];
      clock := start;
    }

    ghost predicate Valid()
      reads this
    {
      AllTrack(samples, history, cutoffs, clock, cfg.window)
    }

    /** record_originate: the clock is read for the sample and again for the trim. The window is then
        the full history since the cutoff, and no other provider's window moves. */
    method RecordOriginate(p: Provider, success: bool, latency: int, timedOut: bool, now: Time, later: Time)
      requires Valid() && clock <= now <= later
      modifies this
      ensures Valid() && clock == later
      ensures history == old(history)[p := Samples(old(history), p) + [Sample(now, success, timedOut, latency)]]
      ensures samples == old(samples)[p := Since(history[p], later - cfg.window)]
    {
      var x := Sample(now, success, timedOut, latency);
      var window := Samples(samples, p) + [x];
      ghost var h := Samples(history, p) + [x];
      AppendStep(samples, history, cutoffs, clock, cfg.window, p, x);
      Replace(p, window, h, LastCutoff(cutoffs, p, clock, cfg.window), now, later);
    }

    /** Trims a window that tracks h and keeps the rest. */
    method Replace(p: Provider, w: seq<Sample>, ghost h: seq<Sample>, ghost cutoff: Time, ghost read: Time, now: Time)
      requires Valid() && clock <= read <= now && Tracks(w, h, cutoff, read, cfg.window)
      modifies this
      ensures Valid() && clock == now && history == old(history)[p := h]
      ensures samples == old(samples)[p := Since(h, now - cfg.window)]
    {
      TrimStep(samples, history, cutoffs, clock, cfg.window, p, w, h, cutoff, read, now);
      var window := Trim(w, now - cfg.window);
      samples := samples[p := window];
      history := history[p := h];
      cutoffs := cutoffs[p := now - cfg.window];
      clock := now;
    }

    /** get_health: the status is that of the history since the cutoff, however often and whenever
        the window was trimmed before. */
    method GetStatus(p: Provider, now: Time) returns (status: Status)
      requires Valid() && clock <= now
      modifies this
      ensures Valid() && clock == now
      ensures history == old(history)[p := Samples(old(history), p)]
      ensures samples == old(samples)[p := Since(history[p], now - cfg.window)]
      ensures IsStatusOf(cfg, Since(history[p], now - cfg.window), status)
    {
      OneOfAll(samples, history, cutoffs, clock, cfg.window, p);
      Replace(p, Samples(samples, p), Samples(history, p), LastCutoff(cutoffs, p, clock, cfg.window), clock, now);
      status := ComputeStatus(cfg, samples[p]);
    }
  }

  /** _compute_health, as far as the status goes. */
  method ComputeStatus(cfg: HealthConfig, w: seq<Sample>) returns (status: Status)
    ensures IsStatusOf(cfg, w, status)
  {
    var successes, timeouts := CountOutcomes(w);
    var failureRate := if w == [] then 0.0 else 1.0 - successes as real / |w| as real;
    var timeoutRate := if w == [] then 0.0 else timeouts as real / |w| as real;
    var consecutive := CountTrailingFailures(w);
    forall m: nat | TrailingFailures(w, m) ensures m == consecutive {
      TrailingFailuresUnique(w, m, consecutive);
    }
    assert Latencies(w) == seq(|w|, i requires 0 <= i < |w| => w[i].latency);
    status := DeriveStatus(cfg, failureRate, timeoutRate, consecutive, Percentile(Latencies(w), 0.95) as real, |w| < cfg.minSamples);
  }
}

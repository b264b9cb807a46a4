/** The request of one pacing tick, over the reals. */
module Pacing {
  import opened Wrappers
  import opened HealthWindow

  datatype PacingConfig = PacingConfig(soonFreeWeight: real, margin: real, minRate: real, maxRate: real,
                                       volatility: real, volatileFactor: real, maxPerTick: int, forcedRate: Option<real>)

  datatype Snapshot = Snapshot(available: nat, reserved: nat, wrapUp: nat, longConnected: nat, ringing: nat, initiated: nat,
                               recent: Option<real>, previous: Option<real>, baseline: real, status: Status)

  function Clamp(x: real, low: real, high: real): real {
    var capped := if x < high then x else high;
    if capped > low then capped else low
  }

  function BlendedRate(recent: Option<real>, baseline: real, low: real, high: real): real {
    Clamp(if recent.None? then baseline else 0.7 * recent.value + 0.3 * baseline, low, high)
  }

  /** The blend is seven parts recent and three parts baseline, cut off at the limits; without a recent
      rate it is the baseline, cut off likewise. */
  lemma BlendMeans(recent: Option<real>, baseline: real, low: real, high: real)
    requires low <= high
    ensures var rate := BlendedRate(recent, baseline, low, high);
            var tenfold := if recent.Some? then 7.0 * recent.value + 3.0 * baseline else 10.0 * baseline;
            && (10.0 * low <= tenfold <= 10.0 * high ==> 10.0 * rate == tenfold)
            && (tenfold < 10.0 * low ==> rate == low)
            && (tenfold > 10.0 * high ==> rate == high)
  {
  }

  /** Limits in the wrong order leave only the low one. */
  lemma CrossedLimits(recent: Option<real>, baseline: real, low: real, high: real)
    requires high < low
    ensures BlendedRate(recent, baseline, low, high) == low
  {
  }

  predicate IsVolatile(s: Snapshot, threshold: real) {
    s.recent.Some? && s.previous.Some?
    && (s.recent.value - s.previous.value > threshold || s.previous.value - s.recent.value > threshold)
  }

  /** HEALTH_FACTORS */
  function HealthFactor(status: Status): real {
    match status
    case Healthy => 1.0
    case Degraded => 0.5
    case Unhealthy => 0.0
  }

  function EffectiveRate(s: Snapshot, cfg: PacingConfig): real {
    if cfg.forcedRate.Some? then cfg.forcedRate.value else BlendedRate(s.recent, s.baseline, cfg.minRate, cfg.maxRate)
  }

  function FreeCapacity(s: Snapshot, cfg: PacingConfig): real {
    s.available as real + (s.wrapUp + s.longConnected) as real * cfg.soonFreeWeight
  }

  function InFlight(s: Snapshot): nat {
    s.ringing + s.initiated + s.reserved
  }

  function RawRequest(s: Snapshot, cfg: PacingConfig): nat
    requires EffectiveRate(s, cfg) != 0.0
  {
    var missing := FreeCapacity(s, cfg) / EffectiveRate(s, cfg) - InFlight(s) as real;
    if missing > 0.0 then missing.Floor else 0
  }

  function Scale(s: Snapshot, cfg: PacingConfig): real {
    cfg.margin * HealthFactor(s.status) * (if IsVolatile(s, cfg.volatility) then cfg.volatileFactor else 1.0)
  }

  function ScaledRequest(raw: nat, scale: real): int {
    (raw as real * scale).Floor
  }

  /** compute_request; a division by a zero rate is caught and asks for nothing. */
  function ComputeRequest(s: Snapshot, cfg: PacingConfig): int {
    if EffectiveRate(s, cfg) == 0.0 then 0
    else
      var scaled := ScaledRequest(RawRequest(s, cfg), Scale(s, cfg));
      if scaled < cfg.maxPerTick then scaled else cfg.maxPerTick
  }

  /** The settings' shares: weights and factors are proportions. */
  predicate AreShares(cfg: PacingConfig) {
    0.0 <= cfg.soonFreeWeight && 0.0 <= cfg.margin <= 1.0 && 0.0 <= cfg.volatileFactor <= 1.0
  }

  /** The blend stays within its limits, and inside them lies between the two rates it mixes. */
  lemma BlendStaysBetween(recent: Option<real>, baseline: real, low: real, high: real)
    requires low <= high
    ensures low <= BlendedRate(recent, baseline, low, high) <= high
    ensures recent.Some? && low <= recent.value <= baseline <= high ==> recent.value <= BlendedRate(recent, baseline, low, high) <= baseline
    ensures recent.Some? && low <= baseline <= recent.value <= high ==> baseline <= BlendedRate(recent, baseline, low, high) <= recent.value
  {
  }

  lemma ProductOfShares(x: real, y: real)
    requires 0.0 <= x && 0.0 <= y <= 1.0
    ensures 0.0 <= x * y <= x
  {
  }

  lemma ScaleIsShare(s: Snapshot, cfg: PacingConfig)
    requires AreShares(cfg)
    ensures 0.0 <= Scale(s, cfg) <= 1.0
    ensures s.status.Unhealthy? ==> Scale(s, cfg) == 0.0
  {
    ProductOfShares(cfg.margin, HealthFactor(s.status));
    ProductOfShares(cfg.margin * HealthFactor(s.status), if IsVolatile(s, cfg.volatility) then cfg.volatileFactor else 1.0);
  }

  lemma MissingFits(capacity: real, rate: real, inFlight: real, n: real)
    requires rate != 0.0 && capacity >= 0.0 && inFlight >= 0.0
    requires 0.0 < n <= capacity / rate - inFlight
    ensures rate > 0.0 && (n + inFlight) * rate <= capacity
  {
    var q := capacity / rate;
    assert q * rate == capacity;
    assert q > 0.0;
    assert rate < 0.0 ==> q * rate < 0.0;
    assert (n + inFlight) * rate <= q * rate;
  }

  /** The rate a tick works with: forced, or the blend of the recent and the baseline rate. */
  ghost predicate IsRate(s: Snapshot, cfg: PacingConfig, rate: real) {
    var tenfold := if s.recent.Some? then 7.0 * s.recent.value + 3.0 * s.baseline else 10.0 * s.baseline;
    if cfg.forcedRate.Some? then rate == cfg.forcedRate.value
    else if cfg.maxRate < cfg.minRate || tenfold < 10.0 * cfg.minRate then rate == cfg.minRate
    else if tenfold > 10.0 * cfg.maxRate then rate == cfg.maxRate
    else 10.0 * rate == tenfold
  }

  lemma EffectiveRateIs(s: Snapshot, cfg: PacingConfig)
    ensures IsRate(s, cfg, EffectiveRate(s, cfg))
    ensures forall rate :: IsRate(s, cfg, rate) ==> rate == EffectiveRate(s, cfg)
  {
    if cfg.maxRate < cfg.minRate {
      CrossedLimits(s.recent, s.baseline, cfg.minRate, cfg.maxRate);
    } else {
      BlendMeans(s.recent, s.baseline, cfg.minRate, cfg.maxRate);
    }
  }

  /** The safety margin, cut by the volatility factor when the answer rate has moved too much. */
  ghost predicate IsMargin(s: Snapshot, cfg: PacingConfig, margin: real) {
    var moved := s.recent.Some? && s.previous.Some?
                 && (s.recent.value > s.previous.value + cfg.volatility || s.recent.value < s.previous.value - cfg.volatility);
    margin == if moved then cfg.margin * cfg.volatileFactor else cfg.margin
  }

  /** The most calls whose expected answers, with those in flight, fit the free capacity. */
  ghost predicate IsFitting(s: Snapshot, cfg: PacingConfig, rate: real, raw: nat) {
    var free := s.available as real + (s.wrapUp + s.longConnected) as real * cfg.soonFreeWeight;
    var flying := s.ringing + s.initiated + s.reserved;
    && (raw > 0 ==> (raw + flying) as real * rate <= free)
    && (raw + 1 + flying) as real * rate > free
  }

  lemma QuotientSides(free: real, rate: real, n: real)
    requires rate > 0.0
    ensures n <= free / rate <==> n * rate <= free
  {
    var q := free / rate;
    assert q * rate == free;
    assert n <= q ==> n * rate <= q * rate;
    assert n > q ==> n * rate > q * rate;
  }

  lemma RawFits(s: Snapshot, cfg: PacingConfig)
    requires EffectiveRate(s, cfg) > 0.0
    ensures IsFitting(s, cfg, EffectiveRate(s, cfg), RawRequest(s, cfg))
  {
    var raw, rate, flying := RawRequest(s, cfg), EffectiveRate(s, cfg), InFlight(s);
    QuotientSides(FreeCapacity(s, cfg), rate, (raw + flying) as real);
    QuotientSides(FreeCapacity(s, cfg), rate, (raw + 1 + flying) as real);
    RawLeavesLess(s, cfg);
    if raw > 0 {
      RawIsMissing(s, cfg);
    }
  }

  lemma ScaleIsMargin(s: Snapshot, cfg: PacingConfig, margin: real)
    requires IsMargin(s, cfg, margin)
    ensures s.status.Healthy? ==> Scale(s, cfg) == margin
    ensures s.status.Degraded? ==> 2.0 * Scale(s, cfg) == margin
    ensures s.status.Unhealthy? ==> Scale(s, cfg) == 0.0
  {
    var v := if IsVolatile(s, cfg.volatility) then cfg.volatileFactor else 1.0;
    assert margin == cfg.margin * v;
    assert s.status.Degraded? ==> Scale(s, cfg) == 0.5 * (cfg.margin * v);
  }

  lemma ProductTwice(raw: real, scale: real, margin: real)
    requires 2.0 * scale == margin
    ensures 2.0 * (raw * scale) == raw * margin
  {
  }

  /** The request from both sides: the fitting number of calls times the margin, halved while DEGRADED,
      nothing while UNHEALTHY, rounded down and capped by the tick's limit; a rate of zero asks for nothing. */
  lemma RequestMeans(s: Snapshot, cfg: PacingConfig, rate: real, margin: real) returns (raw: nat)
    requires IsRate(s, cfg, rate) && IsMargin(s, cfg, margin)
    ensures rate > 0.0 ==> IsFitting(s, cfg, rate, raw)
    ensures rate == 0.0 ==> ComputeRequest(s, cfg) == 0
    ensures rate > 0.0 ==>
              var n := ComputeRequest(s, cfg);
              && n <= cfg.maxPerTick
              && (s.status.Healthy? ==> n as real <= raw as real * margin && (n < cfg.maxPerTick ==> raw as real * margin < n as real + 1.0))
              && (s.status.Degraded? ==>
                    2.0 * n as real <= raw as real * margin && (n < cfg.maxPerTick ==> raw as real * margin < 2.0 * n as real + 2.0))
              && (s.status.Unhealthy? ==> n == if 0 < cfg.maxPerTick then 0 else cfg.maxPerTick)
  {
    EffectiveRateIs(s, cfg);
    raw := if rate != 0.0 then RawRequest(s, cfg) else 0;
    if rate > 0.0 {
      RawFits(s, cfg);
      ScaleIsMargin(s, cfg, margin);
      if s.status.Degraded? {
        ProductTwice(raw as real, Scale(s, cfg), margin);
      }
    }
  }

  /** Dialling what is asked for never makes the expected answers, calls in flight included, exceed
      the free capacity; the request is within the tick's limit, and nothing while UNHEALTHY. */
  lemma ExpectedAnswersFitCapacity(s: Snapshot, cfg: PacingConfig)
    requires AreShares(cfg)
    ensures ComputeRequest(s, cfg) <= cfg.maxPerTick || ComputeRequest(s, cfg) == 0
    ensures ComputeRequest(s, cfg) > 0 ==>
              && EffectiveRate(s, cfg) > 0.0 && !s.status.Unhealthy?
              && (ComputeRequest(s, cfg) + s.ringing + s.initiated + s.reserved) as real * EffectiveRate(s, cfg)
                 <= s.available as real + (s.wrapUp + s.longConnected) as real * cfg.soonFreeWeight
    ensures cfg.maxPerTick >= 0 ==> ComputeRequest(s, cfg) >= 0
  {
    if EffectiveRate(s, cfg) != 0.0 {
      var n, raw := ComputeRequest(s, cfg), RawRequest(s, cfg);
      ScaleIsShare(s, cfg);
      ScaledFits(raw, Scale(s, cfg));
      if n > 0 {
        assert FreeCapacity(s, cfg) >= 0.0 by {
          WeightedIsNonNegative(s.wrapUp + s.longConnected, cfg.soonFreeWeight);
        }
        RawIsMissing(s, cfg);
        assert n as real <= raw as real;
        MissingFits(FreeCapacity(s, cfg), EffectiveRate(s, cfg), InFlight(s) as real, n as real);
      }
    }
  }

  /** And it is the largest such request when nothing scales it down and the tick's limit does not cut in. */
  lemma RequestIsLargest(s: Snapshot, cfg: PacingConfig)
    requires EffectiveRate(s, cfg) > 0.0 && Scale(s, cfg) == 1.0 && ComputeRequest(s, cfg) < cfg.maxPerTick
    ensures (ComputeRequest(s, cfg) + 1 + s.ringing + s.initiated + s.reserved) as real * EffectiveRate(s, cfg) > FreeCapacity(s, cfg)
  {
    var raw, rate := RawRequest(s, cfg), EffectiveRate(s, cfg);
    assert ScaledRequest(raw, 1.0) == raw;
    assert ComputeRequest(s, cfg) == raw;
    RawLeavesLess(s, cfg);
    PastQuotient(FreeCapacity(s, cfg), rate, (raw + 1 + InFlight(s)) as real);
  }

  lemma RawLeavesLess(s: Snapshot, cfg: PacingConfig)
    requires EffectiveRate(s, cfg) != 0.0
    ensures (RawRequest(s, cfg) + 1 + InFlight(s)) as real > FreeCapacity(s, cfg) / EffectiveRate(s, cfg)
  {
  }

  lemma PastQuotient(capacity: real, rate: real, n: real)
    requires rate > 0.0 && n > capacity / rate
    ensures n * rate > capacity
  {
    var q := capacity / rate;
    assert q * rate == capacity;
    assert n * rate > q * rate;
  }

  lemma RawIsMissing(s: Snapshot, cfg: PacingConfig)
    requires EffectiveRate(s, cfg) != 0.0 && RawRequest(s, cfg) > 0
    ensures RawRequest(s, cfg) as real <= FreeCapacity(s, cfg) / EffectiveRate(s, cfg) - InFlight(s) as real
  {
  }

  lemma ScaledFits(raw: nat, scale: real)
    requires 0.0 <= scale <= 1.0
    ensures 0 <= ScaledRequest(raw, scale) <= raw
  {
    ProductOfShares(raw as real, scale);
  }

  lemma WeightedIsNonNegative(n: nat, weight: real)
    requires weight >= 0.0
    ensures n as real * weight >= 0.0
  {
  }
}

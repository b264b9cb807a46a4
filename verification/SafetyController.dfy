/** The safety decision as a function of a capacity reading. */
module SafetyRules {
  import opened Wrappers
  import opened Documents
  import opened HealthWindow

  datatype DialingMode = Progressive | Predictive

  datatype Verdict = Approved | Reduced | Rejected | FallbackProgressive

  datatype Reason = StaleState | ProviderDegraded | AvailabilityDrop | ExcessiveRinging | HighFailureRate

  datatype Name =
    | AgentCapacity | CampaignConcurrency | RingingCeiling | ProviderHealth
    | ProgressiveMode | StaleSnapshot | AvailabilityFall | FailureRate

  datatype Constraint = Constraint(name: Name, limit: int, binding: bool)

  datatype Reading = Reading(available: nat, reserved: nat, active: nat, ringing: nat, expiredLeases: nat,
                             failureRate: real, status: Status)

  datatype SafetyConfig = SafetyConfig(maxRingingRatio: real, maxSnapshotAge: real, dropThreshold: real, failureThreshold: real)

  /** Everything one evaluation works on. */
  datatype Evaluation = Evaluation(cfg: SafetyConfig, cap: nat, requested: int, mode: DialingMode,
                                   reading: Reading, stale: bool, drop: real)

  /** int(): towards zero. */
  function Truncate(x: real): int {
    if x >= 0.0 then x.Floor else -(-x).Floor
  }

  function Ceiling(e: Evaluation): int {
    Truncate(e.cfg.maxRingingRatio * e.reading.available as real)
  }

  function NonNegative(x: int): nat {
    if x < 0 then 0 else x
  }

  /** should_fallback_to_progressive: the first reason that applies. */
  function FallbackReason(e: Evaluation): Option<Reason> {
    if e.stale then Some(StaleState)
    else if !e.reading.status.Healthy? then Some(ProviderDegraded)
    else if e.drop > e.cfg.dropThreshold then Some(AvailabilityDrop)
    else if e.reading.ringing > Ceiling(e) then Some(ExcessiveRinging)
    else if e.reading.failureRate > e.cfg.failureThreshold then Some(HighFailureRate)
    else None
  }

  /** int() cuts towards zero. */
  lemma TruncateMeans(x: real)
    ensures x >= 0.0 ==> Truncate(x) as real <= x < Truncate(x) as real + 1.0
    ensures x < 0.0 ==> Truncate(x) as real - 1.0 < x <= Truncate(x) as real
  {
  }

  /** Each reason on the raw inputs: the first of the five that applies, and none otherwise. */
  lemma ReasonExactly(e: Evaluation)
    requires e.cfg.maxRingingRatio >= 0.0
    ensures var reason := FallbackReason(e);
            var sick := e.reading.status.Degraded? || e.reading.status.Unhealthy?;
            var dropped := e.drop > e.cfg.dropThreshold;
            var ringing := e.reading.ringing as real > e.cfg.maxRingingRatio * e.reading.available as real;
            var failing := e.reading.failureRate > e.cfg.failureThreshold;
            && (reason == Some(StaleState) <==> e.stale)
            && (reason == Some(ProviderDegraded) <==> !e.stale && sick)
            && (reason == Some(AvailabilityDrop) <==> !e.stale && !sick && dropped)
            && (reason == Some(ExcessiveRinging) <==> !e.stale && !sick && !dropped && ringing)
            && (reason == Some(HighFailureRate) <==> !e.stale && !sick && !dropped && !ringing && failing)
            && (reason == None <==> !e.stale && !sick && !dropped && !ringing && !failing)
  {
    CeilingBounds(e);
    FloorDecides(e.reading.ringing, Ceiling(e), e.cfg.maxRingingRatio * e.reading.available as real);
  }

  lemma ShareIsNonNegative(ratio: real, n: nat)
    requires ratio >= 0.0
    ensures ratio * n as real >= 0.0
  {
  }

  function HealthLimit(e: Evaluation): int {
    match e.reading.status
    case Unhealthy => 0
    case Degraded => e.reading.available
    case Healthy => e.requested
  }

  /** _build_constraints, in the order they are listed. */
  function BuildConstraints(e: Evaluation): seq<Constraint> {
    var r := e.reading;
    [Constraint(AgentCapacity, NonNegative(r.available - r.reserved), false),
     Constraint(CampaignConcurrency, NonNegative(e.cap - r.active), false),
     Constraint(RingingCeiling, NonNegative(Ceiling(e) - r.ringing), false),
     Constraint(ProviderHealth, HealthLimit(e), false),
     Constraint(ProgressiveMode, if e.mode.Progressive? then r.available else e.requested, false),
     Constraint(StaleSnapshot, if e.stale then 0 else e.requested, false),
     Constraint(AvailabilityFall, if e.drop > e.cfg.dropThreshold then r.available else e.requested, false),
     Constraint(FailureRate, if r.failureRate > e.cfg.failureThreshold then r.available else e.requested, false)]
  }

  function Least(x: int, cs: seq<Constraint>): int
    decreases |cs|
  {
    if cs == [] then x else Least(if cs[0].limit < x then cs[0].limit else x, cs[1..])
  }

  /** max(0, min(requested, every limit)) */
  function ApprovedOf(e: Evaluation): nat {
    NonNegative(Least(e.requested, BuildConstraints(e)))
  }

  lemma {:induction false} LeastIsLeast(x: int, cs: seq<Constraint>)
    ensures Least(x, cs) <= x && forall i | 0 <= i < |cs| :: Least(x, cs) <= cs[i].limit
    ensures Least(x, cs) == x || exists i | 0 <= i < |cs| :: cs[i].limit == Least(x, cs)
    decreases |cs|
  {
    if cs != [] {
      var y := if cs[0].limit < x then cs[0].limit else x;
      LeastIsLeast(y, cs[1..]);
      forall i | 0 <= i < |cs| ensures Least(x, cs) <= cs[i].limit {
        if i > 0 {
          assert cs[i] == cs[1..][i - 1];
        }
      }
      if Least(y, cs[1..]) != y {
        var i :| 0 <= i < |cs[1..]| && cs[1..][i].limit == Least(y, cs[1..]);
        assert cs[i + 1].limit == Least(x, cs);
      }
    }
  }

  /** The approved count is at most the request and every limit, and equal to one of them. */
  lemma ApprovedIsLeast(e: Evaluation)
    requires e.requested >= 0
    ensures var cs := BuildConstraints(e);
            && ApprovedOf(e) <= e.requested && (forall i | 0 <= i < |cs| :: ApprovedOf(e) <= cs[i].limit)
            && (ApprovedOf(e) == e.requested || exists i | 0 <= i < |cs| :: cs[i].limit == ApprovedOf(e))
  {
    LeastIsLeast(e.requested, BuildConstraints(e));
  }

  /** A negative request approves nothing. */
  lemma NothingForNegative(e: Evaluation)
    requires e.requested < 0
    ensures ApprovedOf(e) == 0
  {
    LeastIsLeast(e.requested, BuildConstraints(e));
  }

  function Smaller(x: int, y: int): int {
    if x < y then x else y
  }

  /** Three of the eight constraints, and a DEGRADED provider, never decide anything: the approval
      is zero when the provider is UNHEALTHY or the state stale, and otherwise the least of the
      request, the free agents, the campaign's headroom and the ringing headroom. */
  lemma ApprovedInClosedForm(e: Evaluation)
    requires e.requested >= 0
    ensures ApprovedOf(e)
            == if e.reading.status.Unhealthy? || e.stale then 0
               else Smaller(e.requested,
                    Smaller(NonNegative(e.reading.available - e.reading.reserved),
                    Smaller(NonNegative(e.cap - e.reading.active), NonNegative(Ceiling(e) - e.reading.ringing))))
  {
    var cs := BuildConstraints(e);
    ApprovedIsLeast(e);
    assert ApprovedOf(e) <= cs[0].limit && ApprovedOf(e) <= cs[1].limit && ApprovedOf(e) <= cs[2].limit;
    assert ApprovedOf(e) <= cs[3].limit && ApprovedOf(e) <= cs[5].limit;
  }

  lemma CeilingBounds(e: Evaluation)
    requires e.cfg.maxRingingRatio >= 0.0
    ensures Ceiling(e) >= 0
    ensures Ceiling(e) as real <= e.cfg.maxRingingRatio * e.reading.available as real < Ceiling(e) as real + 1.0
  {
    ShareIsNonNegative(e.cfg.maxRingingRatio, e.reading.available);
    TruncateMeans(e.cfg.maxRingingRatio * e.reading.available as real);
  }

  /** Whole numbers against a room and its floor. */
  lemma FloorDecides(n: int, ceiling: int, room: real)
    requires ceiling as real <= room < ceiling as real + 1.0
    ensures n <= ceiling <==> n as real <= room
  {
  }

  /** The ringing ceiling in the program's own numbers: an approval never takes ringing calls beyond the
      ratio of the free agents, and where nothing else holds it back, one call more would. */
  lemma RingingStaysWithinRatio(e: Evaluation)
    requires e.cfg.maxRingingRatio >= 0.0
    ensures ApprovedOf(e) > 0 ==>
              (ApprovedOf(e) + e.reading.ringing) as real <= e.cfg.maxRingingRatio * e.reading.available as real
    ensures ApprovedOf(e) < e.requested && !e.stale && !e.reading.status.Unhealthy?
            && ApprovedOf(e) + e.reading.reserved < e.reading.available && ApprovedOf(e) + e.reading.active < e.cap ==>
              (ApprovedOf(e) + 1 + e.reading.ringing) as real > e.cfg.maxRingingRatio * e.reading.available as real
  {
    var room := e.cfg.maxRingingRatio * e.reading.available as real;
    CeilingBounds(e);
    FloorDecides(ApprovedOf(e) + e.reading.ringing, Ceiling(e), room);
    FloorDecides(ApprovedOf(e) + 1 + e.reading.ringing, Ceiling(e), room);
    ApprovalAgainstCeiling(e);
  }

  lemma ApprovalAgainstCeiling(e: Evaluation)
    ensures ApprovedOf(e) > 0 ==> ApprovedOf(e) + e.reading.ringing <= Ceiling(e)
    ensures ApprovedOf(e) < e.requested && !e.stale && !e.reading.status.Unhealthy?
            && ApprovedOf(e) + e.reading.reserved < e.reading.available && ApprovedOf(e) + e.reading.active < e.cap ==>
              ApprovedOf(e) + 1 + e.reading.ringing > Ceiling(e)
  {
    if e.requested >= 0 {
      ApprovedInClosedForm(e);
    } else {
      NothingForNegative(e);
    }
  }

  /** What each listed constraint allows, by name; all eight are listed once, in this order. */
  lemma ConstraintsAre(e: Evaluation)
    requires e.cfg.maxRingingRatio >= 0.0
    ensures var cs := BuildConstraints(e);
            var free := e.reading.available;
            && |cs| == 8 && (forall c <- cs :: !c.binding)
            && cs[0].name.AgentCapacity? && (cs[0].limit > 0 ==> cs[0].limit + e.reading.reserved == free)
            && (cs[0].limit == 0 <==> free <= e.reading.reserved) && cs[0].limit >= 0
            && cs[1].name.CampaignConcurrency? && (cs[1].limit > 0 ==> cs[1].limit + e.reading.active == e.cap)
            && (cs[1].limit == 0 <==> e.cap <= e.reading.active) && cs[1].limit >= 0
            && cs[2].name.RingingCeiling? && cs[2].limit >= 0
            && (cs[2].limit > 0 ==> (cs[2].limit + e.reading.ringing) as real <= e.cfg.maxRingingRatio * free as real)
            && (cs[2].limit + 1 + e.reading.ringing) as real > e.cfg.maxRingingRatio * free as real
            && cs[3].name.ProviderHealth? && (e.reading.status.Healthy? ==> cs[3].limit == e.requested)
            && (e.reading.status.Degraded? ==> cs[3].limit == free) && (e.reading.status.Unhealthy? ==> cs[3].limit == 0)
            && cs[4].name.ProgressiveMode? && (e.mode.Progressive? ==> cs[4].limit == free) && (e.mode.Predictive? ==> cs[4].limit == e.requested)
            && cs[5].name.StaleSnapshot? && (e.stale ==> cs[5].limit == 0) && (!e.stale ==> cs[5].limit == e.requested)
            && cs[6].name.AvailabilityFall? && (e.drop > e.cfg.dropThreshold ==> cs[6].limit == free)
            && (e.drop <= e.cfg.dropThreshold ==> cs[6].limit == e.requested)
            && cs[7].name.FailureRate? && (e.reading.failureRate > e.cfg.failureThreshold ==> cs[7].limit == free)
            && (e.reading.failureRate <= e.cfg.failureThreshold ==> cs[7].limit == e.requested)
  {
    var n := BuildConstraints(e)[2].limit;
    CeilingBounds(e);
    FloorDecides(n + e.reading.ringing, Ceiling(e), e.cfg.maxRingingRatio * e.reading.available as real);
    FloorDecides(n + 1 + e.reading.ringing, Ceiling(e), e.cfg.maxRingingRatio * e.reading.available as real);
  }

  /** The first constraint with this limit, or the number of constraints. */
  ghost function FirstTight(cs: seq<Constraint>, approved: int): (i: nat)
    ensures i <= |cs| && (i < |cs| ==> cs[i].limit == approved)
    ensures forall j | 0 <= j < i :: cs[j].limit != approved
  {
    if cs == [] || cs[0].limit == approved then 0 else 1 + FirstTight(cs[1..], approved)
  }

  /** _mark_binding */
  method MarkBinding(cs: seq<Constraint>, approved: int, requested: int) returns (result: seq<Constraint>)
    ensures |result| == |cs|
    ensures approved >= requested ==> result == cs
    ensures approved < requested ==>
              forall i | 0 <= i < |cs| :: result[i] == cs[i].(binding := i == FirstTight(cs, approved))
  {
    if approved >= requested {
      return cs;
    }
    var marked := false;
    result := [];
    for i := 0 to |cs|
      invariant |result| == i
      invariant marked <==> FirstTight(cs, approved) < i
      invariant forall j | 0 <= j < i :: result[j] == cs[j].(binding := j == FirstTight(cs, approved))
    {
      var binding := !marked && cs[i].limit == approved;
      marked := marked || binding;
      result := result + [cs[i].(binding := binding)];
    }
  }

  /** Where the first tight constraint can be, for an approval n that is no more than any limit. */
  lemma FirstTightOf(e: Evaluation, n: nat, i: nat)
    requires n < e.requested && i == FirstTight(BuildConstraints(e), n) < 8
    requires n <= NonNegative(e.reading.available - e.reading.reserved)
    ensures i !in {4, 6, 7}
    ensures i == 3 ==> e.reading.status.Unhealthy?
    ensures i == 5 ==> e.stale
  {
    var cs := BuildConstraints(e);
    assert cs[i].limit == n;
    assert i > 0 ==> cs[0].limit != n;
    assert NonNegative(e.reading.available - e.reading.reserved) <= e.reading.available;
  }

  /** A reduced request has exactly one first tight constraint. It is never the progressive-mode
      cap, the availability drop or the failure rate, because the agent capacity is never above
      them; it is the provider's health only when UNHEALTHY and the snapshot only when stale. */
  lemma BindingConstraint(e: Evaluation)
    requires ApprovedOf(e) < e.requested
    ensures var cs := BuildConstraints(e);
            var i := FirstTight(cs, ApprovedOf(e));
            && i < |cs|
            && cs[i].name in {AgentCapacity, CampaignConcurrency, RingingCeiling, ProviderHealth, StaleSnapshot}
            && (cs[i].name.ProviderHealth? ==> e.reading.status.Unhealthy?)
            && (cs[i].name.StaleSnapshot? ==> e.stale)
            && (cs[i].name.AgentCapacity? ==> ApprovedOf(e) == NonNegative(e.reading.available - e.reading.reserved))
            && (cs[i].name.CampaignConcurrency? ==> ApprovedOf(e) == NonNegative(e.cap - e.reading.active))
            && (cs[i].name.RingingCeiling? ==> ApprovedOf(e) == NonNegative(Ceiling(e) - e.reading.ringing))
  {
    var cs := BuildConstraints(e);
    var i := FirstTight(cs, ApprovedOf(e));
    ApprovedIsLeast(e);
    var j :| 0 <= j < |cs| && cs[j].limit == ApprovedOf(e);
    assert i <= j;
    assert ApprovedOf(e) <= cs[0].limit;
    FirstTightOf(e, ApprovedOf(e), i);
  }

  /** _verdict */
  function VerdictOf(requested: int, approved: nat, reason: Option<Reason>): Verdict {
    if requested == 0 then Verdict.Approved
    else if reason.Some? && approved > 0 then FallbackProgressive
    else if approved == 0 then Rejected
    else if approved < requested then Reduced
    else Verdict.Approved
  }

  /** FALLBACK_PROGRESSIVE is only ever given for a DEGRADED provider, an availability drop or a high
      failure rate: a stale state or excessive ringing leaves nothing to approve. */
  lemma FallbackReasons(e: Evaluation)
    requires e.requested >= 0
    requires VerdictOf(e.requested, ApprovedOf(e), FallbackReason(e)).FallbackProgressive?
    ensures var reason := FallbackReason(e).value;
            && !reason.StaleState? && !reason.ExcessiveRinging?
            && (reason.ProviderDegraded? <==> e.reading.status.Degraded?)
            && (reason.AvailabilityDrop? <==> !e.reading.status.Degraded? && e.drop > e.cfg.dropThreshold)
            && (reason.HighFailureRate? ==> e.drop <= e.cfg.dropThreshold && e.reading.failureRate > e.cfg.failureThreshold)
  {
    ApprovedInClosedForm(e);
  }

  /** A request of nothing is approved, a negative one rejected. */
  lemma VerdictOfNothing(e: Evaluation)
    requires e.requested <= 0
    ensures VerdictOf(e.requested, ApprovedOf(e), FallbackReason(e)) == if e.requested == 0 then Verdict.Approved else Rejected
    ensures ApprovedOf(e) == 0
  {
    if e.requested < 0 {
      NothingForNegative(e);
    } else {
      ApprovedIsLeast(e);
    }
  }

  /** What each verdict says about the numbers, for a real request. */
  lemma VerdictMeaning(e: Evaluation)
    requires e.requested > 0
    ensures var v := VerdictOf(e.requested, ApprovedOf(e), FallbackReason(e));
            && (v.Rejected? <==> ApprovedOf(e) == 0)
            && (v.FallbackProgressive? <==> ApprovedOf(e) > 0 && FallbackReason(e).Some?)
            && (v.Reduced? <==> 0 < ApprovedOf(e) < e.requested && FallbackReason(e).None?)
            && (v.Approved? <==> ApprovedOf(e) == e.requested && FallbackReason(e).None?)
  {
    ApprovedIsLeast(e);
  }
}

/** The controller: reads the store, keeps track of availability, decides. */
module SafetyController {
  import opened Wrappers
  import opened Enums
  import opened Documents
  import opened Queries
  import opened Database
  import opened SafetyRules
  import HealthWindow
  import FineProtocol

  class AvailabilityTracker {
    var previous: map<CampaignId, nat>

    constructor ()
      ensures previous == map[]
    {
      previous := map[];
    }

    /** record_and_detect: the drop ratio, when it exceeds the threshold. */
    method RecordAndDetect(k: CampaignId, available: nat, threshold: real) returns (drop: Option<real>)
      modifies this
      ensures previous == old(previous)[k := available]
      ensures drop == DropSince(old(previous), k, available, threshold)
      ensures drop.Some? <==>
                k in old(previous) && available < old(previous)[k]
                && (old(previous)[k] - available) as real > threshold * old(previous)[k] as real
      ensures drop.Some? ==> drop.value * old(previous)[k] as real == (old(previous)[k] - available) as real
    {
      DropMeansShareLost(previous, k, available, threshold);
      drop := DropSince(previous, k, available, threshold);
      previous := previous[k := available];
    }
  }

  function DropSince(previous: map<CampaignId, nat>, k: CampaignId, available: nat, threshold: real): Option<real> {
    if k !in previous || previous[k] == 0 || available >= previous[k] then None
    else
      var ratio := (previous[k] - available) as real / previous[k] as real;
      if ratio <= threshold then None else Some(ratio)
  }

  /** A drop is reported exactly when more than the threshold's share of the last count is gone. */
  lemma DropMeansShareLost(previous: map<CampaignId, nat>, k: CampaignId, available: nat, threshold: real)
    ensures DropSince(previous, k, available, threshold).Some? <==>
            k in previous && available < previous[k] && (previous[k] - available) as real > threshold * previous[k] as real
    ensures var drop := DropSince(previous, k, available, threshold);
            drop.Some? ==> drop.value * previous[k] as real == (previous[k] - available) as real && 0.0 < drop.value <= 1.0
  {
    if k in previous && available < previous[k] {
      QuotientAgainst((previous[k] - available) as real, previous[k] as real, threshold);
    }
  }

  lemma QuotientAgainst(lost: real, all: real, threshold: real)
    requires 0.0 < lost <= all
    ensures lost / all * all == lost && 0.0 < lost / all <= 1.0
    ensures lost / all > threshold <==> lost > threshold * all
  {
    var ratio := lost / all;
    assert ratio * all == lost;
    assert ratio > threshold ==> ratio * all > threshold * all;
    assert ratio <= threshold ==> ratio * all <= threshold * all;
  }

  /** _read_capacity; expired leases are counted over every campaign. */
  function ReadCapacity(s: Store, k: CampaignId, now: Time, failureRate: real, status: HealthWindow.Status): Reading {
    Reading(|ClaimableAgents(s, k)|, |ReservedAgents(s, k)|, |ActiveCallsOf(s, k)|, |RingingCalls(s, k)|,
            |LeaseExpiredAgents(s, now)|, failureRate, status)
  }

  datatype Decision = Decision(requested: int, approved: nat, verdict: Verdict, constraints: seq<Constraint>,
                               binding: Option<Name>, reason: Option<Reason>)

  /** A decision on a reading of the store fits the store that was read. */
  lemma ApprovalFitsStore(s: Store, k: CampaignId, now: Time, e: Evaluation)
    requires e.reading == ReadCapacity(s, k, now, e.reading.failureRate, e.reading.status)
    requires LeaseExpiredAgents(s, now) != {} ==> e.stale
    ensures ApprovedOf(e) <= FineProtocol.Headroom(s, k, map[k := e.cap])
    ensures ApprovedOf(e) > 0 ==>
              && ApprovedOf(e) + |ReservedAgents(s, k)| <= |ClaimableAgents(s, k)|
              && LeaseExpiredAgents(s, now) == {} && !e.reading.status.Unhealthy?
  {
    if e.requested >= 0 {
      ApprovedInClosedForm(e);
    } else {
      NothingForNegative(e);
    }
  }

  /** The decision respects the ringing ratio over these calls and agents; a request that nothing else cut
      down is cut down no further than that; and excessive ringing means excess. */
  ghost predicate RingingFits(d: Decision, e: Evaluation, ringing: nat, free: nat, reserved: nat, active: nat) {
    var room := e.cfg.maxRingingRatio * free as real;
    && (d.approved > 0 ==> (d.approved + ringing) as real <= room)
    && (d.approved < d.requested && !e.stale && !e.reading.status.Unhealthy?
        && d.approved + reserved < free && d.approved + active < e.cap ==>
          (d.approved + 1 + ringing) as real > room)
    && (d.reason == Some(ExcessiveRinging) ==> ringing as real > room)
  }

  lemma RingingFitsReading(d: Decision, e: Evaluation)
    requires e.cfg.maxRingingRatio >= 0.0
    requires d.approved == ApprovedOf(e) && d.requested == e.requested && d.reason == FallbackReason(e)
    ensures RingingFits(d, e, e.reading.ringing, e.reading.available, e.reading.reserved, e.reading.active)
  {
    RingingStaysWithinRatio(e);
    ReasonExactly(e);
  }

  /** Marking changes neither names nor limits. */
  lemma MarkedLimits(e: Evaluation, marked: seq<Constraint>)
    requires |marked| == |BuildConstraints(e)|
    requires forall i | 0 <= i < |marked| :: marked[i] == BuildConstraints(e)[i].(binding := marked[i].binding)
    ensures SameLimits(marked, BuildConstraints(e))
  {
  }

  ghost predicate SameLimits(xs: seq<Constraint>, ys: seq<Constraint>) {
    |xs| == |ys| && forall i | 0 <= i < |xs| :: xs[i].name == ys[i].name && xs[i].limit == ys[i].limit
  }

  /** The name the decision reports as binding, if it reduced the request. */
  ghost function BindingName(e: Evaluation): Option<Name> {
    if ApprovedOf(e) >= e.requested then None
    else
      BindingConstraint(e);
      Some(BuildConstraints(e)[FirstTight(BuildConstraints(e), ApprovedOf(e))].name)
  }

  /** What marking the constraints of an evaluation gives is read back as its binding name. */
  lemma MarkedName(e: Evaluation, marked: seq<Constraint>, name: Option<Name>)
    requires |marked| == |BuildConstraints(e)|
    requires ApprovedOf(e) >= e.requested ==> marked == BuildConstraints(e)
    requires ApprovedOf(e) < e.requested ==>
               forall i | 0 <= i < |marked| ::
                 marked[i] == BuildConstraints(e)[i].(binding := i == FirstTight(BuildConstraints(e), ApprovedOf(e)))
    requires name.None? <==> forall i | 0 <= i < |marked| :: !marked[i].binding
    requires name.Some? ==> exists i | 0 <= i < |marked| :: marked[i].binding && marked[i].name == name.value
    ensures name == BindingName(e)
  {
    if ApprovedOf(e) < e.requested {
      BindingConstraint(e);
      assert marked[FirstTight(BuildConstraints(e), ApprovedOf(e))].binding;
    } else {
      assert forall i | 0 <= i < |marked| :: !marked[i].binding;
    }
  }

  class SafetyController {
    const db: Collections
    const tracker: AvailabilityTracker
    const cfg: SafetyConfig

    constructor (db: Collections, tracker: AvailabilityTracker, cfg: SafetyConfig)
      ensures this.db == db && this.tracker == tracker && this.cfg == cfg
    {
      this.db := db;
      this.tracker := tracker;
      this.cfg := cfg;
    }

    /** _evaluate: never approves more than the campaign's headroom or its free agents, and nothing
        at all while any lease is expired, the snapshot is old or the provider UNHEALTHY. */
    method Evaluate(k: CampaignId, cap: nat, requested: int, mode: DialingMode, snapshotAge: nat,
                    failureRate: real, status: HealthWindow.Status, now: Time)
      returns (d: Decision, ghost e: Evaluation)
      modifies tracker
      ensures e == Evaluation(cfg, cap, requested, mode, ReadCapacity(db.View(), k, now, failureRate, status), e.stale, e.drop)
      ensures e.stale <==> snapshotAge as real > cfg.maxSnapshotAge * 1000.0 || LeaseExpiredAgents(db.View(), now) != {}
      ensures var drop := DropSince(old(tracker.previous), k, e.reading.available, cfg.dropThreshold);
              e.drop == if drop.Some? then drop.value else 0.0
      ensures tracker.previous == old(tracker.previous)[k := e.reading.available]
      ensures d.approved == ApprovedOf(e) && d.reason == FallbackReason(e)
      ensures d.verdict == VerdictOf(requested, d.approved, d.reason)
      ensures d.binding == BindingName(e)
      ensures d.approved <= FineProtocol.Headroom(db.View(), k, map[k := cap])
      ensures d.approved > 0 ==> d.approved + |ReservedAgents(db.View(), k)| <= |ClaimableAgents(db.View(), k)|
      ensures d.approved > 0 ==> LeaseExpiredAgents(db.View(), now) == {} && !status.Unhealthy?
      ensures cfg.maxRingingRatio >= 0.0 ==>
                RingingFits(d, e, |RingingCalls(db.View(), k)|, |ClaimableAgents(db.View(), k)|, |ReservedAgents(db.View(), k)|,
                            |ActiveCallsOf(db.View(), k)|)
      ensures SameLimits(d.constraints, BuildConstraints(e))
    {
      var reading := ReadCapacity(db.View(), k, now, failureRate, status);
      var stale := snapshotAge as real > cfg.maxSnapshotAge * 1000.0 || reading.expiredLeases > 0;
      var drop := tracker.RecordAndDetect(k, reading.available, cfg.dropThreshold);
      var inputs := Evaluation(cfg, cap, requested, mode, reading, stale, if drop.Some? then drop.value else 0.0);
      e := inputs;
      var reason := FallbackReason(inputs);
      var constraints := BuildConstraints(inputs);
      var approved := ApprovedOf(inputs);
      var marked := MarkBinding(constraints, approved, requested);
      var binding := FirstBinding(marked);
      MarkedName(inputs, marked, binding);
      ApprovalFitsStore(db.View(), k, now, inputs);
      MarkedLimits(inputs, marked);
      d := Decision(requested, approved, VerdictOf(requested, approved, reason), marked, binding, reason);
      if cfg.maxRingingRatio >= 0.0 {
        RingingFitsReading(d, inputs);
      }
    }
  }

  /** next(...): the name of the first constraint marked as binding. */
  method FirstBinding(cs: seq<Constraint>) returns (name: Option<Name>)
    ensures name.None? <==> forall i | 0 <= i < |cs| :: !cs[i].binding
    ensures name.Some? ==> exists i | 0 <= i < |cs| ::
                             cs[i].binding && cs[i].name == name.value && forall j | 0 <= j < i :: !cs[j].binding
  {
    for i := 0 to |cs|
      invariant forall j | 0 <= j < i :: !cs[j].binding
    {
      if cs[i].binding {
        return Some(cs[i].name);
      }
    }
    return None;
  }
}

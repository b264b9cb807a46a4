/** A whole recovery pass: what it leaves behind, and that doing it twice changes nothing. */
module RecoveryPass {
  import opened Wrappers
  import opened Enums
  import opened Documents
  import opened Queries
  import opened RecoverySpec
  import AgentRepo
  import BorrowerRepo
  import CallRepo

  /** The documents each sweep handled; orphans also carry their verdict. */
  datatype Picks = Picks(leases: set<AgentId>, borrowers: set<BorrowerId>, orphans: Verdict,
                         heartbeats: set<AgentId>, wrapUps: set<AgentId>)

  /** When each sweep writes. */
  datatype Moments = Moments(leases: Time, orphans: Time, heartbeats: Time, wrapUps: Time)

  function StaleCutoff(cfg: Config, now: Time): Time {
    now - cfg.staleTimeout
  }

  function HeartbeatCutoff(cfg: Config, now: Time): Time {
    now - cfg.heartbeatTimeout
  }

  /** The wrap-up time plus a grace of twice as much. */
  function WrapUpCutoff(cfg: Config, now: Time): Time {
    now - (cfg.wrapUp + cfg.wrapUp * 2)
  }

  /** The store after the first n sweeps. */
  ghost function After(cfg: Config, s: Store, p: Picks, now: Time, at: Moments, n: nat): Store {
    if n == 0 then s
    else
      var s1 := SweepLeases(cfg, s, p.leases, now, at.leases);
      if n == 1 then s1
      else
        var s2 := SweepBorrowers(s1, p.borrowers, now);
        if n == 2 then s2
        else
          var s3 := SweepOrphans(cfg, s2, p.orphans, at.orphans);
          if n == 3 then s3
          else
            var s4 := SweepHeartbeats(cfg, s3, p.heartbeats, at.heartbeats);
            if n == 4 then s4 else SweepWrapUps(s4, p.wrapUps, at.wrapUps)
  }

  ghost predicate Terminal(v: Verdict) {
    forall c <- v :: IsTerminal(v[c])
  }

  /** Every find returned all its matches. */
  ghost predicate IsFull(cfg: Config, s: Store, p: Picks, now: Time, at: Moments) {
    && p.leases == LeaseExpiredAgents(s, now)
    && p.borrowers == LeaseExpiredBorrowers(After(cfg, s, p, now, at, 1), now)
    && p.orphans.Keys == StaleCalls(After(cfg, s, p, now, at, 2), StaleCutoff(cfg, now)) && Terminal(p.orphans)
    && p.heartbeats == HeartbeatExpiredAgents(After(cfg, s, p, now, at, 3), HeartbeatCutoff(cfg, now))
    && p.wrapUps == WrapUpExpiredAgents(After(cfg, s, p, now, at, 4), WrapUpCutoff(cfg, now))
  }

  ghost predicate NoExpiredAgents(s: Store, now: Time) {
    forall a <- s.agents :: !AgentRepo.LeaseExpired(s.agents[a], now)
  }

  ghost predicate NoExpiredBorrowers(s: Store, now: Time) {
    forall b <- s.borrowers :: !BorrowerRepo.LeaseExpired(s.borrowers[b], now)
  }

  ghost predicate NoStaleCalls(s: Store, cutoff: Time) {
    forall c <- s.calls :: !CallRepo.IsStale(s.calls[c], cutoff)
  }

  ghost predicate NoLostAgents(s: Store, cutoff: Time) {
    forall a <- s.agents :: !AgentRepo.HeartbeatExpired(s.agents[a], cutoff)
  }

  ghost predicate NoOverdueWrapUps(s: Store, cutoff: Time) {
    forall a <- s.agents :: !AgentRepo.WrapUpExpired(s.agents[a], cutoff)
  }

  /** Nothing any sweep would find. */
  ghost predicate IsClean(cfg: Config, s: Store, now: Time) {
    && NoExpiredAgents(s, now)
    && NoExpiredBorrowers(s, now)
    && NoStaleCalls(s, StaleCutoff(cfg, now))
    && NoLostAgents(s, HeartbeatCutoff(cfg, now))
    && NoOverdueWrapUps(s, WrapUpCutoff(cfg, now))
  }

  /** A clean store, in the program's own terms. */
  lemma CleanMeans(cfg: Config, s: Store, now: Time)
    requires IsClean(cfg, s, now)
    ensures forall a <- s.agents ::
              var agent := s.agents[a];
              && (agent.state.Reserved? || agent.state.Dialing? || agent.state.Connected? ==>
                    agent.lease.None? || agent.lease.value.expiresAt >= now)
              && (!agent.state.Offline? && agent.lastHeartbeat.Some? ==> agent.lastHeartbeat.value >= now - cfg.heartbeatTimeout)
              && (agent.state.WrapUp? ==> agent.stateChangedAt > now - 3 * cfg.wrapUp)
    ensures forall b <- s.borrowers ::
              var borrower := s.borrowers[b];
              borrower.status.Reserved? ==> borrower.lease.None? || borrower.lease.value.expiresAt >= now
    ensures forall c <- s.calls ::
              s.calls[c].state.Completed? || s.calls[c].state.Failed? || s.calls[c].state.Cancelled?
              || s.calls[c].updatedAt >= now - cfg.staleTimeout
  {
    forall a <- s.agents
      ensures var agent := s.agents[a];
              agent.state.Reserved? || agent.state.Dialing? || agent.state.Connected? ==>
                agent.lease.None? || agent.lease.value.expiresAt >= now
    {
      assert !AgentRepo.LeaseExpired(s.agents[a], now);
    }
    assert forall b <- s.borrowers :: !BorrowerRepo.LeaseExpired(s.borrowers[b], now);
    assert forall c <- s.calls :: !CallRepo.IsStale(s.calls[c], StaleCutoff(cfg, now));
  }

  // What a sweep leaves alone, so that later sweeps do not undo earlier ones.

  lemma EndedCallsStayUnstale(cfg: Config, s: Store, v: Verdict, at: Time, cutoff: Time)
    requires NoStaleCalls(s, cutoff) && Terminal(v)
    ensures NoStaleCalls(EndCalls(cfg, s, v, at), cutoff)
  {
  }

  lemma EndedCallsKeepBorrowers(cfg: Config, s: Store, v: Verdict, at: Time, now: Time)
    requires NoExpiredBorrowers(s, now)
    ensures NoExpiredBorrowers(EndCalls(cfg, s, v, at), now)
  {
  }

  lemma LeasesSwept(cfg: Config, s: Store, now: Time, at: Time)
    ensures NoExpiredAgents(SweepLeases(cfg, s, LeaseExpiredAgents(s, now), now, at), now)
  {
  }

  lemma BorrowersSwept(s: Store, now: Time)
    ensures NoExpiredBorrowers(SweepBorrowers(s, LeaseExpiredBorrowers(s, now), now), now)
  {
  }

  lemma OrphansSwept(cfg: Config, s: Store, v: Verdict, at: Time, cutoff: Time)
    requires v.Keys == StaleCalls(s, cutoff) && Terminal(v)
    ensures NoStaleCalls(SweepOrphans(cfg, s, v, at), cutoff)
  {
    forall c <- s.calls ensures !CallRepo.IsStale(SweepOrphans(cfg, s, v, at).calls[c], cutoff) {
      if CallRepo.IsStale(s.calls[c], cutoff) {
        assert c in v;
      }
    }
  }

  lemma OrphansKeepAgentLeases(cfg: Config, s: Store, v: Verdict, at: Time, now: Time)
    requires NoExpiredAgents(s, now)
    ensures NoExpiredAgents(SweepOrphans(cfg, s, v, at), now)
  {
    forall a <- s.agents ensures !AgentRepo.LeaseExpired(SweepOrphans(cfg, s, v, at).agents[a], now) {
      if IsFreedAgent(s, v, a, at) {
        FreedOnce(s, v, a, 0, at);
      }
    }
  }

  lemma HeartbeatsSwept(cfg: Config, s: Store, at: Time, cutoff: Time)
    ensures NoLostAgents(SweepHeartbeats(cfg, s, HeartbeatExpiredAgents(s, cutoff), at), cutoff)
  {
  }

  lemma HeartbeatsKeepAgentLeases(cfg: Config, s: Store, agents: set<AgentId>, at: Time, now: Time)
    requires NoExpiredAgents(s, now)
    ensures NoExpiredAgents(SweepHeartbeats(cfg, s, agents, at), now)
  {
  }

  lemma WrapUpsSwept(s: Store, at: Time, cutoff: Time)
    ensures NoOverdueWrapUps(SweepWrapUps(s, WrapUpExpiredAgents(s, cutoff), at), cutoff)
  {
  }

  lemma WrapUpsKeepAgents(s: Store, agents: set<AgentId>, at: Time, now: Time, cutoff: Time)
    ensures NoExpiredAgents(s, now) ==> NoExpiredAgents(SweepWrapUps(s, agents, at), now)
    ensures NoLostAgents(s, cutoff) ==> NoLostAgents(SweepWrapUps(s, agents, at), cutoff)
  {
  }

  lemma CancelledIsTerminal(s: Store, agents: set<AgentId>)
    ensures Terminal(CallsOf(s, agents))
  {
  }

  /** The five stores a pass goes through. */
  ghost predicate IsPass(cfg: Config, s: Store, s1: Store, s2: Store, s3: Store, s4: Store, s5: Store,
                         p: Picks, now: Time, at: Moments) {
    && s1 == SweepLeases(cfg, s, p.leases, now, at.leases)
    && s2 == SweepBorrowers(s1, p.borrowers, now)
    && s3 == SweepOrphans(cfg, s2, p.orphans, at.orphans)
    && s4 == SweepHeartbeats(cfg, s3, p.heartbeats, at.heartbeats)
    && s5 == SweepWrapUps(s4, p.wrapUps, at.wrapUps)
  }

  // Whatever the other sweeps picked, the work of a sweep that reached every match is never undone.

  lemma LeaseSweepHolds(cfg: Config, s: Store, s1: Store, s2: Store, s3: Store, s4: Store, s5: Store, p: Picks, now: Time, at: Moments)
    requires IsPass(cfg, s, s1, s2, s3, s4, s5, p, now, at) && p.leases == LeaseExpiredAgents(s, now)
    ensures NoExpiredAgents(s5, now)
  {
    LeasesSwept(cfg, s, now, at.leases);
    assert NoExpiredAgents(s2, now);
    OrphansKeepAgentLeases(cfg, s2, p.orphans, at.orphans, now);
    HeartbeatsKeepAgentLeases(cfg, s3, p.heartbeats, at.heartbeats, now);
    WrapUpsKeepAgents(s4, p.wrapUps, at.wrapUps, now, now);
  }

  lemma BorrowerSweepHolds(cfg: Config, s: Store, s1: Store, s2: Store, s3: Store, s4: Store, s5: Store, p: Picks, now: Time, at: Moments)
    requires IsPass(cfg, s, s1, s2, s3, s4, s5, p, now, at) && p.borrowers == LeaseExpiredBorrowers(s1, now)
    ensures NoExpiredBorrowers(s5, now)
  {
    BorrowersSwept(s1, now);
    EndedCallsKeepBorrowers(cfg, s2, p.orphans, at.orphans, now);
    EndedCallsKeepBorrowers(cfg, s3, CallsOf(s3, p.heartbeats), at.heartbeats, now);
  }

  lemma OrphanSweepHolds(cfg: Config, s: Store, s1: Store, s2: Store, s3: Store, s4: Store, s5: Store, p: Picks, now: Time, at: Moments)
    requires IsPass(cfg, s, s1, s2, s3, s4, s5, p, now, at)
    requires p.orphans.Keys == StaleCalls(s2, StaleCutoff(cfg, now)) && Terminal(p.orphans)
    ensures NoStaleCalls(s5, StaleCutoff(cfg, now))
  {
    OrphansSwept(cfg, s2, p.orphans, at.orphans, StaleCutoff(cfg, now));
    CancelledIsTerminal(s3, p.heartbeats);
    EndedCallsStayUnstale(cfg, s3, CallsOf(s3, p.heartbeats), at.heartbeats, StaleCutoff(cfg, now));
  }

  lemma HeartbeatSweepHolds(cfg: Config, s: Store, s1: Store, s2: Store, s3: Store, s4: Store, s5: Store, p: Picks, now: Time, at: Moments)
    requires IsPass(cfg, s, s1, s2, s3, s4, s5, p, now, at) && p.heartbeats == HeartbeatExpiredAgents(s3, HeartbeatCutoff(cfg, now))
    ensures NoLostAgents(s5, HeartbeatCutoff(cfg, now))
  {
    HeartbeatsSwept(cfg, s3, at.heartbeats, HeartbeatCutoff(cfg, now));
    WrapUpsKeepAgents(s4, p.wrapUps, at.wrapUps, now, HeartbeatCutoff(cfg, now));
  }

  lemma WrapUpSweepHolds(cfg: Config, s: Store, s1: Store, s2: Store, s3: Store, s4: Store, s5: Store, p: Picks, now: Time, at: Moments)
    requires IsPass(cfg, s, s1, s2, s3, s4, s5, p, now, at) && p.wrapUps == WrapUpExpiredAgents(s4, WrapUpCutoff(cfg, now))
    ensures NoOverdueWrapUps(s5, WrapUpCutoff(cfg, now))
  {
    WrapUpsSwept(s4, at.wrapUps, WrapUpCutoff(cfg, now));
  }

  lemma PassIsAfter(cfg: Config, s: Store, p: Picks, now: Time, at: Moments)
    ensures var s1, s2, s3 := After(cfg, s, p, now, at, 1), After(cfg, s, p, now, at, 2), After(cfg, s, p, now, at, 3);
            IsPass(cfg, s, s1, s2, s3, After(cfg, s, p, now, at, 4), After(cfg, s, p, now, at, 5), p, now, at)
  {
  }

  /** Undisturbed and with finds that return everything, one pass leaves no expired agent lease, no
      expired borrower lease, no stale call, no lost agent and no overdue wrap-up. */
  lemma FullPassCleans(cfg: Config, s: Store, p: Picks, now: Time, at: Moments)
    requires IsFull(cfg, s, p, now, at)
    ensures IsClean(cfg, After(cfg, s, p, now, at, 5), now)
  {
    var s1, s2 := After(cfg, s, p, now, at, 1), After(cfg, s, p, now, at, 2);
    var s3, s4, s5 := After(cfg, s, p, now, at, 3), After(cfg, s, p, now, at, 4), After(cfg, s, p, now, at, 5);
    PassIsAfter(cfg, s, p, now, at);
    LeaseSweepHolds(cfg, s, s1, s2, s3, s4, s5, p, now, at);
    BorrowerSweepHolds(cfg, s, s1, s2, s3, s4, s5, p, now, at);
    OrphanSweepHolds(cfg, s, s1, s2, s3, s4, s5, p, now, at);
    HeartbeatSweepHolds(cfg, s, s1, s2, s3, s4, s5, p, now, at);
    WrapUpSweepHolds(cfg, s, s1, s2, s3, s4, s5, p, now, at);
  }

  lemma NothingToEnd(cfg: Config, s: Store, at: Time)
    ensures EndCalls(cfg, s, map[], at) == s
  {
    var e := EndCalls(cfg, s, map[], at);
    assert e.calls == s.calls;
    assert e.borrowers == s.borrowers;
  }

  lemma NothingOfNobody(cfg: Config, s: Store, at: Time)
    ensures CallsOf(s, {}) == map[]
  {
  }

  ghost const NOTHING := Picks({}, {}, map[], {}, {})

  lemma LeasesOfNobody(cfg: Config, s: Store, now: Time, at: Time)
    ensures SweepLeases(cfg, s, {}, now, at) == s
  {
    NothingToEnd(cfg, s, at);
    NothingOfNobody(cfg, s, at);
    assert SweepLeases(cfg, s, {}, now, at).agents == s.agents;
  }

  lemma BorrowersOfNobody(s: Store, now: Time)
    ensures SweepBorrowers(s, {}, now) == s
  {
    assert SweepBorrowers(s, {}, now).borrowers == s.borrowers;
  }

  lemma OrphansOfNobody(cfg: Config, s: Store, at: Time)
    ensures SweepOrphans(cfg, s, map[], at) == s
  {
    NothingToEnd(cfg, s, at);
    assert SweepOrphans(cfg, s, map[], at).agents == s.agents;
  }

  lemma HeartbeatsOfNobody(cfg: Config, s: Store, at: Time)
    ensures SweepHeartbeats(cfg, s, {}, at) == s
  {
    NothingToEnd(cfg, s, at);
    NothingOfNobody(cfg, s, at);
    assert SweepHeartbeats(cfg, s, {}, at).agents == s.agents;
  }

  lemma WrapUpsOfNobody(s: Store, at: Time)
    ensures SweepWrapUps(s, {}, at) == s
  {
    assert SweepWrapUps(s, {}, at).agents == s.agents;
  }

  /** The finds of a pass return only matches; each sweep sees the store the one before it left. */
  ghost predicate IsSound(cfg: Config, s: Store, s1: Store, s2: Store, s3: Store, s4: Store, p: Picks, now: Time) {
    && p.leases <= LeaseExpiredAgents(s, now)
    && p.borrowers <= LeaseExpiredBorrowers(s1, now)
    && p.orphans.Keys <= StaleCalls(s2, StaleCutoff(cfg, now))
    && p.heartbeats <= HeartbeatExpiredAgents(s3, HeartbeatCutoff(cfg, now))
    && p.wrapUps <= WrapUpExpiredAgents(s4, WrapUpCutoff(cfg, now))
  }

  lemma NothingToFind(cfg: Config, s: Store, now: Time)
    requires IsClean(cfg, s, now)
    ensures LeaseExpiredAgents(s, now) == {} && LeaseExpiredBorrowers(s, now) == {}
    ensures StaleCalls(s, StaleCutoff(cfg, now)) == {}
    ensures HeartbeatExpiredAgents(s, HeartbeatCutoff(cfg, now)) == {}
    ensures WrapUpExpiredAgents(s, WrapUpCutoff(cfg, now)) == {}
  {
  }

  /** On a clean store no sweep picks anything, so a pass changes nothing at all. */
  lemma CleanStoreIsFixed(cfg: Config, s: Store, s1: Store, s2: Store, s3: Store, s4: Store, s5: Store,
                          p: Picks, now: Time, at: Moments)
    requires IsClean(cfg, s, now)
    requires IsPass(cfg, s, s1, s2, s3, s4, s5, p, now, at) && IsSound(cfg, s, s1, s2, s3, s4, p, now)
    ensures p == NOTHING && s5 == s
  {
    NothingToFind(cfg, s, now);
    FirstSweepsRest(cfg, s, s1, s2, s3, p, now, at);
    HeartbeatsOfNobody(cfg, s, at.heartbeats);
    assert s4 == s;
    WrapUpsOfNobody(s, at.wrapUps);
  }

  lemma FirstSweepsRest(cfg: Config, s: Store, s1: Store, s2: Store, s3: Store, p: Picks, now: Time, at: Moments)
    requires s1 == SweepLeases(cfg, s, p.leases, now, at.leases) && p.leases == {}
    requires s2 == SweepBorrowers(s1, p.borrowers, now) && p.borrowers <= LeaseExpiredBorrowers(s1, now)
    requires s3 == SweepOrphans(cfg, s2, p.orphans, at.orphans) && p.orphans.Keys <= StaleCalls(s2, StaleCutoff(cfg, now))
    requires LeaseExpiredBorrowers(s, now) == {} && StaleCalls(s, StaleCutoff(cfg, now)) == {}
    ensures p.borrowers == {} && p.orphans == map[] && s3 == s
  {
    LeasesOfNobody(cfg, s, now, at.leases);
    BorrowersOfNobody(s, now);
    assert p.orphans == map[];
    OrphansOfNobody(cfg, s, at.orphans);
  }

  /** Two passes at the same now: the second is the identity. */
  lemma SecondPassChangesNothing(cfg: Config, s: Store, p: Picks, q: Picks, now: Time, at: Moments, later: Moments)
    requires IsFull(cfg, s, p, now, at)
    requires var s' := After(cfg, s, p, now, at, 5); IsFull(cfg, s', q, now, later)
    ensures var s' := After(cfg, s, p, now, at, 5); After(cfg, s', q, now, later, 5) == s' && q == NOTHING
  {
    FullPassCleans(cfg, s, p, now, at);
    var s' := After(cfg, s, p, now, at, 5);
    PassIsAfter(cfg, s', q, now, later);
    CleanStoreIsFixed(cfg, s', After(cfg, s', q, now, later, 1), After(cfg, s', q, now, later, 2),
                      After(cfg, s', q, now, later, 3), After(cfg, s', q, now, later, 4),
                      After(cfg, s', q, now, later, 5), q, now, later);
  }
}

/** The recovery worker: five loops over what the finds return. */
module RecoveryWorker {
  import opened Wrappers
  import opened Enums
  import opened Documents
  import opened StoreOps
  import opened Queries
  import opened RecoverySpec
  import opened RecoveryPass
  import opened Database
  import RecoveryItems
  import AgentSm
  import BorrowerRepo
  import CallRepo
  import Sets

  /** What get_call_status says about a provider call id, or that it failed. */
  datatype Reply = StillActive | ReportedCompleted | ReportedFailed | NotKnown | ProviderError

  type Lookup = Ref -> Reply

  function Reconcile(call: Call, lookup: Lookup): CallState {
    if call.providerCallId.None? then CallState.Failed
    else if lookup(Ref(call.provider, call.providerCallId.value)).ReportedCompleted? then CallState.Completed
    else CallState.Failed
  }

  /** The provider knows the call and reports it completed. */
  predicate IsReportedCompleted(call: Call, lookup: Lookup) {
    match call.providerCallId
    case None => false
    case Some(id) =>
      match lookup(Ref(call.provider, id))
      case ReportedCompleted => true
      case StillActive => false
      case ReportedFailed => false
      case NotKnown => false
      case ProviderError => false
  }

  /** These calls of s have ended in t as the provider says: COMPLETED if it reports that, FAILED in every
      other case, without an identifier and on an error included. */
  ghost predicate EndAsReported(s: Store, t: Store, ids: set<CallId>, lookup: Lookup) {
    forall c <- ids ::
      && c in s.calls && c in t.calls
      && (t.calls[c].state.Completed? <==> IsReportedCompleted(s.calls[c], lookup))
      && (t.calls[c].state.Failed? <==> !IsReportedCompleted(s.calls[c], lookup))
  }

  lemma OrphansEndAsReported(cfg: Config, s: Store, picked: Verdict, lookup: Lookup, cutoff: Time, at: Time)
    requires picked.Keys <= StaleCalls(s, cutoff) && forall c <- picked :: picked[c] == Reconcile(s.calls[c], lookup)
    ensures EndAsReported(s, SweepOrphans(cfg, s, picked, at), picked.Keys, lookup) && Terminal(picked)
  {
    forall c <- picked.Keys
      ensures c in s.calls && c in SweepOrphans(cfg, s, picked, at).calls
              && SweepOrphans(cfg, s, picked, at).calls[c].state == Reconcile(s.calls[c], lookup)
    {
      assert CallRepo.IsStale(s.calls[c], cutoff);
    }
  }

  /** The sweeps before leave a live call's provider and identifier alone. */
  lemma EarlierSweepsKeepIds(cfg: Config, s: Store, s1: Store, s2: Store, p: Picks, now: Time, at: Time, c: CallId)
    requires s1 == SweepLeases(cfg, s, p.leases, now, at) && s2 == SweepBorrowers(s1, p.borrowers, now) && c in s2.calls
    ensures c in s.calls && s.calls[c].provider == s2.calls[c].provider && s.calls[c].providerCallId == s2.calls[c].providerCallId
  {
  }

  /** And the sweeps after leave a call's final state alone. */
  lemma LaterSweepsKeepEnds(cfg: Config, s3: Store, s4: Store, s5: Store, p: Picks, at: Moments, c: CallId)
    requires s4 == SweepHeartbeats(cfg, s3, p.heartbeats, at.heartbeats) && s5 == SweepWrapUps(s4, p.wrapUps, at.wrapUps)
    requires c in s3.calls && IsTerminal(s3.calls[c].state)
    ensures c in s5.calls && s5.calls[c] == s3.calls[c]
  {
  }

  lemma OrphansStayAsReported(cfg: Config, s: Store, s1: Store, s2: Store, s3: Store, s4: Store, s5: Store, p: Picks, now: Time, at: Moments,
                              lookup: Lookup)
    requires IsPass(cfg, s, s1, s2, s3, s4, s5, p, now, at) && EndAsReported(s2, s3, p.orphans.Keys, lookup)
    ensures EndAsReported(s, s5, p.orphans.Keys, lookup)
  {
    forall c <- p.orphans.Keys
      ensures c in s.calls && c in s5.calls && s5.calls[c] == s3.calls[c]
      ensures s.calls[c].provider == s2.calls[c].provider && s.calls[c].providerCallId == s2.calls[c].providerCallId
    {
      EarlierSweepsKeepIds(cfg, s, s1, s2, p, now, at.leases, c);
      LaterSweepsKeepEnds(cfg, s3, s4, s5, p, at, c);
    }
  }

  datatype SweepCounts = SweepCounts(agentLeases: nat, borrowerLeases: nat, orphans: nat, heartbeats: nat, wrapUps: nat)

  datatype SweepName = AgentLeases | BorrowerLeases | Orphans | Heartbeats | WrapUps

  /** Before which item each sweep raises, if it does; at 0 already its find raises. */
  datatype Faults = Faults(leases: Option<nat>, borrowers: Option<nat>, orphans: Option<nat>, heartbeats: Option<nat>, wrapUps: Option<nat>)

  ghost const NO_FAULTS := Faults(None, None, None, None, None)

  /** How far a sweep over this many matches comes. */
  ghost predicate IsOutcome(fault: Option<nat>, limit: nat, matches: nat, raised: bool, picked: nat) {
    && (raised <==> fault.Some? && (fault.value == 0 || fault.value < Min(limit, matches)))
    && picked == if raised then fault.value else Min(limit, matches)
  }

  lemma PrefixIds(found: seq<nat>, i: nat)
    requires Distinct(found) && i < |found|
    ensures Ids(found[..i + 1]) == Ids(found[..i]) + {found[i]} && found[i] !in Ids(found[..i])
    ensures found[i] in Ids(found)
  {
    assert found[..i + 1] == found[..i] + [found[i]];
    var shorter := found[..i];
    assert forall j, k | 0 <= j < k < i :: shorter[j] != shorter[k];
    IdsOneMore(shorter, found[i]);
  }

  lemma {:induction false} PrefixSize(found: seq<nat>, i: nat)
    requires Distinct(found) && i <= |found|
    ensures |Ids(found[..i])| == i && Ids(found[..i]) <= Ids(found)
  {
    if i > 0 {
      PrefixSize(found, i - 1);
      PrefixIds(found, i - 1);
    }
  }

  /** A sweep that stops at the i-th item has handled i of them. */
  lemma StoppedAt(found: seq<nat>, i: nat)
    requires Distinct(found) && i <= |found|
    ensures |Ids(found[..i])| == i && Ids(found[..i]) <= Ids(found) && |Ids(found)| == |found|
  {
    PrefixSize(found, i);
    PrefixSize(found, |found|);
    assert found[..|found|] == found;
  }

  lemma WholeIds(found: seq<nat>)
    ensures found[..|found|] == found && Ids(found[..0]) == {}
  {
    assert found[..0] == [];
  }

  lemma CancelKeepsAgents(cfg: Config, s: Store, seen: Agent, at: Time)
    ensures RecoveryItems.CancelBoundCall(cfg, s, seen, at, 2).agents == s.agents
    ensures RecoveryItems.CancelBoundCall(cfg, s, seen, at, 3) == RecoveryItems.CancelBoundCall(cfg, s, seen, at, 2)
  {
  }

  lemma LeaseItemSucceeds(cfg: Config, s: Store, agents: set<AgentId>, a: AgentId, now: Time, at: Time)
    requires a in LeaseExpiredAgents(s, now) && a !in agents
    ensures var m := RecoveryItems.CancelBoundCall(cfg, SweepLeases(cfg, s, agents, now, at), s.agents[a], at, 2);
            var r := ReleaseExpired(m, a, s.agents[a], now);
            r.Some? && SweepLeases(cfg, s, agents + {a}, now, at) == SetAgent(m, a, r)
  {
    LeaseItemIsOneMore(cfg, s, agents, a, now, at);
    CancelKeepsAgents(cfg, SweepLeases(cfg, s, agents, now, at), s.agents[a], at);
  }

  lemma HeartbeatItemSucceeds(cfg: Config, s: Store, agents: set<AgentId>, a: AgentId, cutoff: Time, at: Time)
    requires a in HeartbeatExpiredAgents(s, cutoff) && a !in agents
    ensures var m := RecoveryItems.CancelBoundCall(cfg, SweepHeartbeats(cfg, s, agents, at), s.agents[a], at, 2);
            var r := TransitionAgent(m, a, s.agents[a].state, AgentState.Offline, AgentSm.Recovery, s.agents[a].version, at);
            r.Some? && SweepHeartbeats(cfg, s, agents + {a}, at) == SetAgent(m, a, r)
  {
    HeartbeatItemIsOneMore(cfg, s, agents, a, at);
    CancelKeepsAgents(cfg, SweepHeartbeats(cfg, s, agents, at), s.agents[a], at);
  }

  lemma ReclaimSucceeds(s: Store, borrowers: set<BorrowerId>, b: BorrowerId, now: Time)
    requires b in LeaseExpiredBorrowers(s, now) && b !in borrowers
    ensures var m := SweepBorrowers(s, borrowers, now);
            var r := ReclaimBorrower(m, b, s.borrowers[b], now);
            r.Some? && SweepBorrowers(s, borrowers + {b}, now) == SetBorrower(m, b, r)
  {
    ReclaimIsOneMore(s, borrowers, b, now);
  }

  lemma WrapUpItemSucceeds(s: Store, agents: set<AgentId>, a: AgentId, cutoff: Time, at: Time)
    requires a in WrapUpExpiredAgents(s, cutoff) && a !in agents
    ensures var m := SweepWrapUps(s, agents, at);
            var r := TransitionAgent(m, a, AgentState.WrapUp, AgentState.Available, AgentSm.Recovery, s.agents[a].version, at);
            r.Some? && SweepWrapUps(s, agents + {a}, at) == SetAgent(m, a, r)
  {
    WrapUpItemIsOneMore(s, agents, a, at);
  }

  lemma OrphanItemSucceeds(cfg: Config, s: Store, v: Verdict, c: CallId, cutoff: Time, target: CallState, at: Time)
    requires c in StaleCalls(s, cutoff) && c !in v && IsTerminal(target)
    ensures var m := SweepOrphans(cfg, s, v, at);
            var r := TransitionCall(m, c, target, at);
            && r.Some?
            && var m1 := SetCall(m, c, r);
               var m2 := SetAgent(m1, r.value.key.agent,
                                  ReleaseAgent(m1, r.value.key.agent, r.value.createdBy, AgentState.Available, AgentSm.Recovery, at));
               SweepOrphans(cfg, s, v[c := target], at) == RecoveryItems.ReleaseCallee(cfg, m2, r.value, at)
  {
    OrphanItemIsOneMore(cfg, s, v, c, target, at);
    UnendedCallStays(cfg, s, v, c, target, at);
  }

  /** The sweep limit is no smaller than any collection. */
  ghost predicate HoldsAll(cfg: Config, s: Store) {
    |s.agents.Keys| <= cfg.sweepLimit && |s.borrowers.Keys| <= cfg.sweepLimit && |s.calls.Keys| <= cfg.sweepLimit
  }

  /** A find under a sufficient limit returns every match. */
  lemma FullFind(picked: set<nat>, matching: set<nat>, all: set<nat>, limit: nat)
    requires picked <= matching <= all && |all| <= limit && |picked| == Min(limit, |matching|)
    ensures picked == matching
  {
    Sets.SubsetCount(matching, all);
    Sets.SubsetCount(picked, matching);
  }

  /** The counts of the sweeps that did not raise. */
  function Reported(raised: seq<bool>, handled: seq<nat>): SweepCounts
    requires |raised| == |handled| == 5
  {
    SweepCounts(if raised[0] then 0 else handled[0], if raised[1] then 0 else handled[1], if raised[2] then 0 else handled[2],
                if raised[3] then 0 else handled[3], if raised[4] then 0 else handled[4])
  }

  /** The names of the sweeps that raised, in order. */
  function Raised(raised: seq<bool>): seq<SweepName>
    requires |raised| == 5
  {
    (if raised[0] then [AgentLeases] else []) + (if raised[1] then [BorrowerLeases] else [])
    + (if raised[2] then [Orphans] else []) + (if raised[3] then [Heartbeats] else []) + (if raised[4] then [WrapUps] else [])
  }

  lemma RaisedNames(raised: seq<bool>)
    requires |raised| == 5
    ensures var errors := Raised(raised);
            && (AgentLeases in errors <==> raised[0]) && (BorrowerLeases in errors <==> raised[1]) && (Orphans in errors <==> raised[2])
            && (Heartbeats in errors <==> raised[3]) && (WrapUps in errors <==> raised[4])
    ensures !raised[0] && !raised[1] && !raised[2] && !raised[3] && !raised[4] ==> Raised(raised) == []
  {
  }

  /** Every kind of leftover is gone, except what a sweep that raised was to find. */
  ghost predicate IsCleanUpTo(cfg: Config, s: Store, now: Time, errors: seq<SweepName>) {
    && (AgentLeases in errors || NoExpiredAgents(s, now))
    && (BorrowerLeases in errors || NoExpiredBorrowers(s, now))
    && (Orphans in errors || NoStaleCalls(s, StaleCutoff(cfg, now)))
    && (Heartbeats in errors || NoLostAgents(s, HeartbeatCutoff(cfg, now)))
    && (WrapUps in errors || NoOverdueWrapUps(s, WrapUpCutoff(cfg, now)))
  }

  /** A sweep that did not raise picked as many of its matches as the limit allows. */
  ghost predicate AreLimited(cfg: Config, s: Store, s1: Store, s2: Store, s3: Store, s4: Store, p: Picks, now: Time, errors: seq<SweepName>) {
    && (AgentLeases in errors || |p.leases| == Min(cfg.sweepLimit, |LeaseExpiredAgents(s, now)|))
    && (BorrowerLeases in errors || |p.borrowers| == Min(cfg.sweepLimit, |LeaseExpiredBorrowers(s1, now)|))
    && (Orphans in errors || |p.orphans.Keys| == Min(cfg.sweepLimit, |StaleCalls(s2, StaleCutoff(cfg, now))|))
    && (Heartbeats in errors || |p.heartbeats| == Min(cfg.sweepLimit, |HeartbeatExpiredAgents(s3, HeartbeatCutoff(cfg, now))|))
    && (WrapUps in errors || |p.wrapUps| == Min(cfg.sweepLimit, |WrapUpExpiredAgents(s4, WrapUpCutoff(cfg, now))|))
  }

  /** What the five sweeps report about how far they came. */
  ghost predicate AreOutcomes(cfg: Config, s: Store, s1: Store, s2: Store, s3: Store, s4: Store, p: Picks, now: Time, faults: Faults,
                              raised: seq<bool>)
    requires |raised| == 5
  {
    && IsOutcome(faults.leases, cfg.sweepLimit, |LeaseExpiredAgents(s, now)|, raised[0], |p.leases|)
    && IsOutcome(faults.borrowers, cfg.sweepLimit, |LeaseExpiredBorrowers(s1, now)|, raised[1], |p.borrowers|)
    && IsOutcome(faults.orphans, cfg.sweepLimit, |StaleCalls(s2, StaleCutoff(cfg, now))|, raised[2], |p.orphans.Keys|)
    && IsOutcome(faults.heartbeats, cfg.sweepLimit, |HeartbeatExpiredAgents(s3, HeartbeatCutoff(cfg, now))|, raised[3], |p.heartbeats|)
    && IsOutcome(faults.wrapUps, cfg.sweepLimit, |WrapUpExpiredAgents(s4, WrapUpCutoff(cfg, now))|, raised[4], |p.wrapUps|)
  }

  lemma OutcomesAreLimits(cfg: Config, s: Store, s1: Store, s2: Store, s3: Store, s4: Store, p: Picks, now: Time, faults: Faults,
                          raised: seq<bool>)
    requires |raised| == 5 && AreOutcomes(cfg, s, s1, s2, s3, s4, p, now, faults, raised)
    ensures AreLimited(cfg, s, s1, s2, s3, s4, p, now, Raised(raised))
    ensures faults == NO_FAULTS ==> Raised(raised) == []
  {
    RaisedNames(raised);
  }

  lemma PassKeepsKeys(cfg: Config, s: Store, s1: Store, s2: Store, s3: Store, s4: Store, s5: Store, p: Picks, now: Time, at: Moments)
    requires IsPass(cfg, s, s1, s2, s3, s4, s5, p, now, at)
    ensures s1.borrowers.Keys == s.borrowers.Keys && s2.calls.Keys == s.calls.Keys
    ensures s3.agents.Keys == s4.agents.Keys == s.agents.Keys
  {
  }

  /** The picks of a pass are all the matches, wherever the sweep did not raise. */
  ghost predicate AreAll(cfg: Config, s: Store, s1: Store, s2: Store, s3: Store, s4: Store, p: Picks, now: Time, errors: seq<SweepName>) {
    && (AgentLeases in errors || p.leases == LeaseExpiredAgents(s, now))
    && (BorrowerLeases in errors || p.borrowers == LeaseExpiredBorrowers(s1, now))
    && (Orphans in errors || p.orphans.Keys == StaleCalls(s2, StaleCutoff(cfg, now)))
    && (Heartbeats in errors || p.heartbeats == HeartbeatExpiredAgents(s3, HeartbeatCutoff(cfg, now)))
    && (WrapUps in errors || p.wrapUps == WrapUpExpiredAgents(s4, WrapUpCutoff(cfg, now)))
  }

  /** Under a sufficient limit they are. */
  lemma FullFinds(cfg: Config, s: Store, s1: Store, s2: Store, s3: Store, s4: Store, p: Picks, now: Time, errors: seq<SweepName>)
    requires HoldsAll(cfg, s)
    requires s1.borrowers.Keys == s.borrowers.Keys && s2.calls.Keys == s.calls.Keys
    requires s3.agents.Keys == s4.agents.Keys == s.agents.Keys
    requires IsSound(cfg, s, s1, s2, s3, s4, p, now) && AreLimited(cfg, s, s1, s2, s3, s4, p, now, errors)
    ensures AreAll(cfg, s, s1, s2, s3, s4, p, now, errors)
  {
    if AgentLeases !in errors {
      FullFind(p.leases, LeaseExpiredAgents(s, now), s.agents.Keys, cfg.sweepLimit);
    }
    if BorrowerLeases !in errors {
      FullFind(p.borrowers, LeaseExpiredBorrowers(s1, now), s.borrowers.Keys, cfg.sweepLimit);
    }
    if Orphans !in errors {
      FullFind(p.orphans.Keys, StaleCalls(s2, StaleCutoff(cfg, now)), s.calls.Keys, cfg.sweepLimit);
    }
    if Heartbeats !in errors {
      FullFind(p.heartbeats, HeartbeatExpiredAgents(s3, HeartbeatCutoff(cfg, now)), s.agents.Keys, cfg.sweepLimit);
    }
    if WrapUps !in errors {
      FullFind(p.wrapUps, WrapUpExpiredAgents(s4, WrapUpCutoff(cfg, now)), s.agents.Keys, cfg.sweepLimit);
    }
  }

  /** A sweep that raises takes nothing from what the others achieve. */
  lemma FinishedSweepsHold(cfg: Config, s: Store, s1: Store, s2: Store, s3: Store, s4: Store, s5: Store, p: Picks, now: Time, at: Moments,
                           errors: seq<SweepName>)
    requires IsPass(cfg, s, s1, s2, s3, s4, s5, p, now, at) && AreAll(cfg, s, s1, s2, s3, s4, p, now, errors) && Terminal(p.orphans)
    ensures IsCleanUpTo(cfg, s5, now, errors)
  {
    if AgentLeases !in errors {
      LeaseSweepHolds(cfg, s, s1, s2, s3, s4, s5, p, now, at);
    }
    if BorrowerLeases !in errors {
      BorrowerSweepHolds(cfg, s, s1, s2, s3, s4, s5, p, now, at);
    }
    if Orphans !in errors {
      OrphanSweepHolds(cfg, s, s1, s2, s3, s4, s5, p, now, at);
    }
    if Heartbeats !in errors {
      HeartbeatSweepHolds(cfg, s, s1, s2, s3, s4, s5, p, now, at);
    }
    if WrapUps !in errors {
      WrapUpSweepHolds(cfg, s, s1, s2, s3, s4, s5, p, now, at);
    }
  }

  lemma AllIsFull(cfg: Config, s: Store, s1: Store, s2: Store, s3: Store, s4: Store, s5: Store, p: Picks, now: Time, at: Moments)
    requires IsPass(cfg, s, s1, s2, s3, s4, s5, p, now, at) && AreAll(cfg, s, s1, s2, s3, s4, p, now, []) && Terminal(p.orphans)
    ensures IsFull(cfg, s, p, now, at)
  {
    PassIsAfter(cfg, s, p, now, at);
  }

  /** What a pass does as a whole, from what its five sweeps did. */
  lemma PassOutcome(cfg: Config, s: Store, s1: Store, s2: Store, s3: Store, s4: Store, s5: Store, p: Picks, now: Time, at: Moments,
                    errors: seq<SweepName>)
    requires IsPass(cfg, s, s1, s2, s3, s4, s5, p, now, at)
    requires IsSound(cfg, s, s1, s2, s3, s4, p, now) && AreLimited(cfg, s, s1, s2, s3, s4, p, now, errors)
    requires Terminal(p.orphans)
    ensures s5 == After(cfg, s, p, now, at, 5)
    ensures HoldsAll(cfg, s) ==> IsCleanUpTo(cfg, s5, now, errors)
    ensures HoldsAll(cfg, s) && errors == [] ==> IsFull(cfg, s, p, now, at) && IsClean(cfg, s5, now)
    ensures IsClean(cfg, s, now) ==> s5 == s && p == NOTHING
  {
    PassIsAfter(cfg, s, p, now, at);
    if HoldsAll(cfg, s) {
      PassKeepsKeys(cfg, s, s1, s2, s3, s4, s5, p, now, at);
      FullFinds(cfg, s, s1, s2, s3, s4, p, now, errors);
      FinishedSweepsHold(cfg, s, s1, s2, s3, s4, s5, p, now, at, errors);
      if errors == [] {
        AllIsFull(cfg, s, s1, s2, s3, s4, s5, p, now, at);
      }
    }
    if IsClean(cfg, s, now) {
      CleanStoreIsFixed(cfg, s, s1, s2, s3, s4, s5, p, now, at);
    }
  }

  ghost function CountsOf(p: Picks, errors: seq<SweepName>): SweepCounts {
    SweepCounts(if AgentLeases in errors then 0 else |p.leases|, if BorrowerLeases in errors then 0 else |p.borrowers|,
                if Orphans in errors then 0 else |p.orphans.Keys|, if Heartbeats in errors then 0 else |p.heartbeats|,
                if WrapUps in errors then 0 else |p.wrapUps|)
  }

  ghost predicate AreSizes(handled: seq<nat>, p: Picks) {
    handled == [|p.leases|, |p.borrowers|, |p.orphans.Keys|, |p.heartbeats|, |p.wrapUps|]
  }

  lemma ReportIsCounts(raised: seq<bool>, handled: seq<nat>, p: Picks)
    requires |raised| == 5 && AreSizes(handled, p)
    ensures Reported(raised, handled) == CountsOf(p, Raised(raised))
  {
    RaisedNames(raised);
  }

  /** What run_sweeps returns and leaves behind, from the store s to the store t. */
  ghost predicate IsReport(cfg: Config, s: Store, t: Store, now: Time, at: Moments, lookup: Lookup, faults: Faults,
                           counts: SweepCounts, errors: seq<SweepName>, p: Picks) {
    && counts == CountsOf(p, errors)
    && (HoldsAll(cfg, s) ==> IsCleanUpTo(cfg, t, now, errors))
    && (HoldsAll(cfg, s) && errors == [] ==> IsFull(cfg, s, p, now, at) && IsClean(cfg, t, now))
    && (IsClean(cfg, s, now) ==> t == s && p == NOTHING)
    && (faults == NO_FAULTS ==> errors == [])
    && EndAsReported(s, t, p.orphans.Keys, lookup)
  }

  lemma PassReport(cfg: Config, s: Store, s1: Store, s2: Store, s3: Store, s4: Store, s5: Store, p: Picks, now: Time, at: Moments,
                   faults: Faults, raised: seq<bool>, handled: seq<nat>, lookup: Lookup)
    requires IsPass(cfg, s, s1, s2, s3, s4, s5, p, now, at) && IsSound(cfg, s, s1, s2, s3, s4, p, now) && Terminal(p.orphans)
    requires |raised| == 5 && AreOutcomes(cfg, s, s1, s2, s3, s4, p, now, faults, raised) && AreSizes(handled, p)
    requires EndAsReported(s2, s3, p.orphans.Keys, lookup)
    ensures s5 == After(cfg, s, p, now, at, 5)
    ensures IsReport(cfg, s, s5, now, at, lookup, faults, Reported(raised, handled), Raised(raised), p)
  {
    OrphansStayAsReported(cfg, s, s1, s2, s3, s4, s5, p, now, at, lookup);
    OutcomesAreLimits(cfg, s, s1, s2, s3, s4, p, now, faults, raised);
    ReportIsCounts(raised, handled, p);
    PassOutcome(cfg, s, s1, s2, s3, s4, s5, p, now, at, Raised(raised));
  }

  /** These calls have been asked about, and their verdicts are the provider's answers. */
  ghost predicate AreReconciled(s: Store, ids: set<CallId>, picked: Verdict, lookup: Lookup) {
    picked.Keys == ids <= s.calls.Keys && forall c <- picked :: picked[c] == Reconcile(s.calls[c], lookup)
  }

  lemma OneMoreReconciled(s: Store, ids: set<CallId>, picked: Verdict, c: CallId, lookup: Lookup)
    requires AreReconciled(s, ids, picked, lookup) && c !in ids && c in s.calls
    ensures c !in picked && |picked.Keys + {c}| == |picked.Keys| + 1
    ensures AreReconciled(s, ids + {c}, picked[c := Reconcile(s.calls[c], lookup)], lookup)
    ensures picked[c := Reconcile(s.calls[c], lookup)].Keys == picked.Keys + {c}
  {
  }

  /** The store after the two releases for an ended call. */
  ghost function PartiesReleased(cfg: Config, s: Store, call: Call, at: Time): Store {
    var freed := ReleaseAgent(s, call.key.agent, call.createdBy, AgentState.Available, AgentSm.Recovery, at);
    RecoveryItems.ReleaseCallee(cfg, SetAgent(s, call.key.agent, freed), call, at)
  }

  /** The loop invariant of the orphan sweep. */
  ghost predicate OrphansSoFar(cfg: Config, s: Store, found: seq<CallId>, i: nat, picked: Verdict, lookup: Lookup, at: Time, view: Store)
    requires i <= |found|
  {
    && AreReconciled(s, Ids(found[..i]), picked, lookup) && |picked.Keys| == i
    && view == SweepOrphans(cfg, s, picked, at)
  }

  lemma NextOrphan(cfg: Config, s: Store, found: seq<CallId>, i: nat, picked: Verdict, lookup: Lookup, cutoff: Time, at: Time, view: Store)
    requires Distinct(found) && i < |found| && Ids(found) <= StaleCalls(s, cutoff)
    requires OrphansSoFar(cfg, s, found, i, picked, lookup, at, view)
    ensures var c := found[i];
            && c in s.calls
            && var target := Reconcile(s.calls[c], lookup);
               var r := TransitionCall(view, c, target, at);
               && r.Some?
               && OrphansSoFar(cfg, s, found, i + 1, picked[c := target], lookup, at, PartiesReleased(cfg, SetCall(view, c, r), r.value, at))
  {
    var c := found[i];
    PrefixIds(found, i);
    OneMoreReconciled(s, Ids(found[..i]), picked, c, lookup);
    OrphanItemSucceeds(cfg, s, picked, c, cutoff, Reconcile(s.calls[c], lookup), at);
  }

  class Worker {
    const db: Collections
    const agents: AgentRepository
    const borrowers: BorrowerRepository
    const calls: CallRepository
    const cfg: Config

    constructor (db: Collections, cfg: Config)
      ensures this.db == db && this.cfg == cfg && Wired()
    {
      this.db := db;
      this.cfg := cfg;
      agents := new AgentRepository(db);
      borrowers := new BorrowerRepository(db);
      calls := new CallRepository(db);
    }

    ghost predicate Wired() {
      agents.db == db && borrowers.db == db && calls.db == db
    }

    method ReleaseCallee(call: Call, at: Time)
      requires Wired()
      modifies db
      ensures db.View() == RecoveryItems.ReleaseCallee(cfg, old(db.View()), call, at)
    {
      var _ := borrowers.ReleaseBorrower(call.key.borrower, call.createdBy, BorrowerRepo.OutcomeFor(false), cfg, at);
    }

    /** _release_parties: the agent first, then the borrower. */
    method ReleaseParties(call: Call, at: Time)
      requires Wired()
      modifies db
      ensures db.View() == PartiesReleased(cfg, old(db.View()), call, at)
    {
      var _ := agents.ReleaseAgent(call.key.agent, call.createdBy, AgentState.Available, AgentSm.Recovery, at);
      ReleaseCallee(call, at);
    }

    method CancelBoundCall(seen: Agent, at: Time)
      requires Wired()
      modifies db
      ensures db.View() == RecoveryItems.CancelBoundCall(cfg, old(db.View()), seen, at, 2)
    {
      if seen.currentCall.None? {
        return;
      }
      var c := seen.currentCall.value;
      if c !in db.calls || IsTerminal(db.calls[c].state) {
        return;
      }
      var cancelled := calls.TransitionCall(c, CallState.Cancelled, at);
      if cancelled.Some? {
        ReleaseCallee(cancelled.value, at);
      }
    }

    method SweepExpiredAgentLeases(now: Time, at: Time, fault: Option<nat>)
      returns (recovered: nat, raised: bool, ghost picked: set<AgentId>)
      requires Wired()
      modifies db
      ensures picked <= LeaseExpiredAgents(old(db.View()), now)
      ensures recovered == |picked| && IsOutcome(fault, cfg.sweepLimit, |LeaseExpiredAgents(old(db.View()), now)|, raised, |picked|)
      ensures db.View() == SweepLeases(cfg, old(db.View()), picked, now, at)
    {
      ghost var s := db.View();
      LeasesOfNobody(cfg, s, now, at);
      if fault.Some? && fault.value == 0 {
        return 0, true, {};
      }
      var found := agents.FindExpiredAgentLeases(now, cfg.sweepLimit);
      var docs := db.agents;
      recovered, raised := 0, false;
      WholeIds(found);
      for i := 0 to |found|
        invariant db.View() == SweepLeases(cfg, s, Ids(found[..i]), now, at)
        invariant recovered == i && (fault.None? || i <= fault.value)
      {
        if fault.Some? && fault.value == i {
          StoppedAt(found, i);
          return recovered, true, Ids(found[..i]);
        }
        var a := found[i];
        PrefixIds(found, i);
        LeaseItemSucceeds(cfg, s, Ids(found[..i]), a, now, at);
        CancelBoundCall(docs[a], at);
        var released := agents.ReleaseExpiredAgentLease(a, docs[a], now);
        if released.Some? {
          recovered := recovered + 1;
        }
      }
      StoppedAt(found, |found|);
      picked := Ids(found);
    }

    method SweepExpiredBorrowerLeases(now: Time, fault: Option<nat>)
      returns (reclaimed: nat, raised: bool, ghost picked: set<BorrowerId>)
      requires Wired()
      modifies db
      ensures picked <= LeaseExpiredBorrowers(old(db.View()), now)
      ensures reclaimed == |picked| && IsOutcome(fault, cfg.sweepLimit, |LeaseExpiredBorrowers(old(db.View()), now)|, raised, |picked|)
      ensures db.View() == SweepBorrowers(old(db.View()), picked, now)
    {
      ghost var s := db.View();
      BorrowersOfNobody(s, now);
      if fault.Some? && fault.value == 0 {
        return 0, true, {};
      }
      var found := borrowers.FindExpiredBorrowerLeases(now, cfg.sweepLimit);
      var docs := db.borrowers;
      reclaimed, raised := 0, false;
      WholeIds(found);
      for i := 0 to |found|
        invariant db.View() == SweepBorrowers(s, Ids(found[..i]), now)
        invariant reclaimed == i && (fault.None? || i <= fault.value)
      {
        if fault.Some? && fault.value == i {
          StoppedAt(found, i);
          return reclaimed, true, Ids(found[..i]);
        }
        var b := found[i];
        PrefixIds(found, i);
        ReclaimSucceeds(s, Ids(found[..i]), b, now);
        var r := borrowers.ReclaimBorrower(b, docs[b], now);
        if r.Some? {
          reclaimed := reclaimed + 1;
        }
      }
      StoppedAt(found, |found|);
      picked := Ids(found);
    }

    method SweepOrphanedCalls(now: Time, at: Time, lookup: Lookup, fault: Option<nat>)
      returns (recovered: nat, raised: bool, ghost picked: Verdict)
      requires Wired()
      modifies db
      ensures picked.Keys <= StaleCalls(old(db.View()), StaleCutoff(cfg, now))
      ensures recovered == |picked.Keys|
      ensures IsOutcome(fault, cfg.sweepLimit, |StaleCalls(old(db.View()), StaleCutoff(cfg, now))|, raised, |picked.Keys|)
      ensures db.View() == SweepOrphans(cfg, old(db.View()), picked, at)
      ensures EndAsReported(old(db.View()), db.View(), picked.Keys, lookup) && Terminal(picked)
    {
      ghost var s := db.View();
      OrphansOfNobody(cfg, s, at);
      if fault.Some? && fault.value == 0 {
        return 0, true, map[];
      }
      var found := calls.FindStaleCalls(StaleCutoff(cfg, now), cfg.sweepLimit);
      var docs := db.calls;
      recovered, raised := 0, false;
      picked := map[];
      WholeIds(found);
      for i := 0 to |found|
        invariant OrphansSoFar(cfg, s, found, i, picked, lookup, at, db.View())
        invariant recovered == i && (fault.None? || i <= fault.value)
      {
        if fault.Some? && fault.value == i {
          StoppedAt(found, i);
          OrphansEndAsReported(cfg, s, picked, lookup, StaleCutoff(cfg, now), at);
          return recovered, true, picked;
        }
        var c := found[i];
        NextOrphan(cfg, s, found, i, picked, lookup, StaleCutoff(cfg, now), at, db.View());
        var target := Reconcile(docs[c], lookup);
        var finished := calls.TransitionCall(c, target, at);
        if finished.Some? {
          recovered := recovered + 1;
          ReleaseParties(finished.value, at);
        }
        picked := picked[c := target];
      }
      StoppedAt(found, |found|);
      OrphansEndAsReported(cfg, s, picked, lookup, StaleCutoff(cfg, now), at);
    }

    method SweepHeartbeatTimeouts(now: Time, at: Time, fault: Option<nat>)
      returns (loggedOut: nat, raised: bool, ghost picked: set<AgentId>)
      requires Wired()
      modifies db
      ensures picked <= HeartbeatExpiredAgents(old(db.View()), HeartbeatCutoff(cfg, now))
      ensures loggedOut == |picked|
      ensures IsOutcome(fault, cfg.sweepLimit, |HeartbeatExpiredAgents(old(db.View()), HeartbeatCutoff(cfg, now))|, raised, |picked|)
      ensures db.View() == SweepHeartbeats(cfg, old(db.View()), picked, at)
    {
      ghost var s := db.View();
      HeartbeatsOfNobody(cfg, s, at);
      if fault.Some? && fault.value == 0 {
        return 0, true, {};
      }
      var found := agents.FindHeartbeatExpired(HeartbeatCutoff(cfg, now), cfg.sweepLimit);
      var docs := db.agents;
      loggedOut, raised := 0, false;
      WholeIds(found);
      for i := 0 to |found|
        invariant db.View() == SweepHeartbeats(cfg, s, Ids(found[..i]), at)
        invariant loggedOut == i && (fault.None? || i <= fault.value)
      {
        if fault.Some? && fault.value == i {
          StoppedAt(found, i);
          return loggedOut, true, Ids(found[..i]);
        }
        var a := found[i];
        PrefixIds(found, i);
        HeartbeatItemSucceeds(cfg, s, Ids(found[..i]), a, HeartbeatCutoff(cfg, now), at);
        CancelBoundCall(docs[a], at);
        var updated := agents.TransitionAgent(a, docs[a].state, AgentState.Offline, AgentSm.Recovery, docs[a].version, at);
        if updated.Some? {
          loggedOut := loggedOut + 1;
        }
      }
      StoppedAt(found, |found|);
      picked := Ids(found);
    }

    method SweepStuckWrapUps(now: Time, at: Time, fault: Option<nat>)
      returns (released: nat, raised: bool, ghost picked: set<AgentId>)
      requires Wired()
      modifies db
      ensures picked <= WrapUpExpiredAgents(old(db.View()), WrapUpCutoff(cfg, now))
      ensures released == |picked|
      ensures IsOutcome(fault, cfg.sweepLimit, |WrapUpExpiredAgents(old(db.View()), WrapUpCutoff(cfg, now))|, raised, |picked|)
      ensures db.View() == SweepWrapUps(old(db.View()), picked, at)
    {
      ghost var s := db.View();
      WrapUpsOfNobody(s, at);
      if fault.Some? && fault.value == 0 {
        return 0, true, {};
      }
      var found := agents.FindExpiredWrapUps(WrapUpCutoff(cfg, now), cfg.sweepLimit);
      var docs := db.agents;
      released, raised := 0, false;
      WholeIds(found);
      for i := 0 to |found|
        invariant db.View() == SweepWrapUps(s, Ids(found[..i]), at)
        invariant released == i && (fault.None? || i <= fault.value)
      {
        if fault.Some? && fault.value == i {
          StoppedAt(found, i);
          return released, true, Ids(found[..i]);
        }
        var a := found[i];
        PrefixIds(found, i);
        WrapUpItemSucceeds(s, Ids(found[..i]), a, WrapUpCutoff(cfg, now), at);
        var updated := agents.TransitionAgent(a, AgentState.WrapUp, AgentState.Available, AgentSm.Recovery, docs[a].version, at);
        if updated.Some? {
          released := released + 1;
        }
      }
      StoppedAt(found, |found|);
      picked := Ids(found);
    }

    /** run_sweeps: the five sweeps in order, all by the same now. A sweep that raises is reported, its
        count stays 0, and the others do their work all the same. */
    method RunSweeps(now: Time, at: Moments, lookup: Lookup, faults: Faults)
      returns (counts: SweepCounts, errors: seq<SweepName>, ghost picks: Picks)
      requires Wired()
      modifies db
      ensures db.View() == After(cfg, old(db.View()), picks, now, at, 5)
      ensures IsReport(cfg, old(db.View()), db.View(), now, at, lookup, faults, counts, errors, picks)
    {
      ghost var s := db.View();
      errors := [];
      var n1, e1, p1 := SweepExpiredAgentLeases(now, at.leases, faults.leases);
      ghost var s1 := db.View();
      var n2, e2, p2 := SweepExpiredBorrowerLeases(now, faults.borrowers);
      ghost var s2 := db.View();
      var n3, e3, p3 := SweepOrphanedCalls(now, at.orphans, lookup, faults.orphans);
      ghost var s3 := db.View();
      var n4, e4, p4 := SweepHeartbeatTimeouts(now, at.heartbeats, faults.heartbeats);
      ghost var s4 := db.View();
      var n5, e5, p5 := SweepStuckWrapUps(now, at.wrapUps, faults.wrapUps);
      picks := Picks(p1, p2, p3, p4, p5);
      var raised, handled := [e1, e2, e3, e4, e5], [n1, n2, n3, n4, n5];
      errors := Raised(raised);
      counts := Reported(raised, handled);
      ghost var s5 := db.View();
      assert IsPass(cfg, s, s1, s2, s3, s4, s5, picks, now, at);
      assert IsSound(cfg, s, s1, s2, s3, s4, picks, now);
      assert AreOutcomes(cfg, s, s1, s2, s3, s4, picks, now, faults, raised);
      PassReport(cfg, s, s1, s2, s3, s4, s5, picks, now, at, faults, raised, handled, lookup);
    }
  }
}

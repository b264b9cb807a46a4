/**
 * What a recovery sweep does to the store as a whole, written down at once for all its items: no
 * order, no loop. The lemmas show that handling one more item is exactly one more step of it.
 */
module RecoverySpec {
  import opened Wrappers
  import opened Enums
  import opened Documents
  import opened StoreOps
  import RecoveryItems
  import AgentSm
  import AgentRepo
  import BorrowerRepo
  import CallRepo

  /** How each call is to end. */
  type Verdict = map<CallId, CallState>

  ghost predicate Ends(s: Store, c: CallId, target: CallState) {
    c in s.calls && CallRepo.TransitionCall(s.calls[c], target, 0).Some?
  }

  ghost predicate Releases(b: Borrower, w: WorkerId) {
    HeldBy(b.lease, w) && BorrowerRepo.IsReleasable(b.status)
  }

  /** Some ended call gives this borrower back. */
  ghost predicate IsFreed(s: Store, v: Verdict, b: BorrowerId) {
    b in s.borrowers
    && exists c <- v :: Ends(s, c, v[c]) && s.calls[c].key.borrower == b && Releases(s.borrowers[b], s.calls[c].createdBy)
  }

  ghost function Ended(c: Call, target: CallState, at: Time): Call {
    if CallRepo.TransitionCall(c, target, at).Some? then CallRepo.TransitionCall(c, target, at).value else c
  }

  ghost function EndCalls(cfg: Config, s: Store, v: Verdict, at: Time): Store {
    s.(calls := map c <- s.calls :: if c in v then Ended(s.calls[c], v[c], at) else s.calls[c],
       borrowers := map b <- s.borrowers ::
                      if IsFreed(s, v, b) then BorrowerRepo.RetryUpdate(s.borrowers[b], cfg.maxAttempts, cfg.backoffBase, at)
                      else s.borrowers[b])
  }

  ghost function EndOne(cfg: Config, s: Store, c: CallId, target: CallState, at: Time): Store {
    var r := TransitionCall(s, c, target, at);
    if r.Some? then RecoveryItems.ReleaseCallee(cfg, SetCall(s, c, r), r.value, at) else s
  }

  lemma FreedByOneMore(s: Store, v: Verdict, c: CallId, target: CallState, b: BorrowerId)
    requires c !in v && b in s.borrowers
    ensures IsFreed(s, v[c := target], b) <==>
            IsFreed(s, v, b)
            || (Ends(s, c, target) && s.calls[c].key.borrower == b && Releases(s.borrowers[b], s.calls[c].createdBy))
  {
    var v' := v[c := target];
    if IsFreed(s, v, b) {
      var d :| d in v && Ends(s, d, v[d]) && s.calls[d].key.borrower == b && Releases(s.borrowers[b], s.calls[d].createdBy);
      assert d in v' && v'[d] == v[d];
    }
    if Ends(s, c, target) && s.calls[c].key.borrower == b && Releases(s.borrowers[b], s.calls[c].createdBy) {
      assert c in v' && v'[c] == target;
    }
  }

  /** What ending one call does, read off document by document. */
  lemma EndOneEffect(cfg: Config, e: Store, c: CallId, target: CallState, at: Time)
    ensures var o := EndOne(cfg, e, c, target, at);
            && o.agents == e.agents && o.byKey == e.byKey && o.byRef == e.byRef && o.events == e.events
            && o.calls == Put(e.calls, c, TransitionCall(e, c, target, at))
            && o.borrowers.Keys == e.borrowers.Keys
            && (forall b <- e.borrowers ::
                  o.borrowers[b]
                  == if Ends(e, c, target) && e.calls[c].key.borrower == b && Releases(e.borrowers[b], e.calls[c].createdBy)
                     then BorrowerRepo.RetryUpdate(e.borrowers[b], cfg.maxAttempts, cfg.backoffBase, at)
                     else e.borrowers[b])
  {
    var r := TransitionCall(e, c, target, at);
    if r.Some? {
      CalleeEffect(cfg, SetCall(e, c, r), r.value, at);
    }
  }

  lemma CalleeEffect(cfg: Config, e: Store, call: Call, at: Time)
    ensures var o := RecoveryItems.ReleaseCallee(cfg, e, call, at);
            && o == e.(borrowers := o.borrowers) && o.borrowers.Keys == e.borrowers.Keys
            && (forall b <- e.borrowers ::
                  o.borrowers[b]
                  == if call.key.borrower == b && Releases(e.borrowers[b], call.createdBy)
                     then BorrowerRepo.RetryUpdate(e.borrowers[b], cfg.maxAttempts, cfg.backoffBase, at)
                     else e.borrowers[b])
  {
  }

  lemma EndOneMoreBorrower(cfg: Config, s: Store, v: Verdict, c: CallId, target: CallState, at: Time, b: BorrowerId)
    requires c !in v && b in s.borrowers
    ensures EndCalls(cfg, s, v[c := target], at).borrowers[b]
            == EndOne(cfg, EndCalls(cfg, s, v, at), c, target, at).borrowers[b]
  {
    EndOneEffect(cfg, EndCalls(cfg, s, v, at), c, target, at);
    FreedByOneMore(s, v, c, target, b);
  }

  lemma EndOneMore(cfg: Config, s: Store, v: Verdict, c: CallId, target: CallState, at: Time)
    requires c !in v
    ensures EndCalls(cfg, s, v[c := target], at) == EndOne(cfg, EndCalls(cfg, s, v, at), c, target, at)
  {
    var e' := EndCalls(cfg, s, v[c := target], at);
    var o := EndOne(cfg, EndCalls(cfg, s, v, at), c, target, at);
    EndOneEffect(cfg, EndCalls(cfg, s, v, at), c, target, at);
    assert e'.calls == o.calls;
    forall b <- s.borrowers ensures e'.borrowers[b] == o.borrowers[b] {
      EndOneMoreBorrower(cfg, s, v, c, target, at, b);
    }
    assert e'.borrowers == o.borrowers;
  }

  lemma EndAgain(cfg: Config, s: Store, v: Verdict, c: CallId, target: CallState, at: Time)
    requires c in v && IsTerminal(v[c]) && IsTerminal(target)
    ensures EndOne(cfg, EndCalls(cfg, s, v, at), c, target, at) == EndCalls(cfg, s, v, at)
  {
  }

  // Sweep 1 and sweep 4: agents, and the calls they are on

  /** The calls the swept agents are on, all to be CANCELLED. */
  ghost function CallsOf(s: Store, agents: set<AgentId>): Verdict {
    map c <- s.calls | IsCallOf(s, agents, c) :: CallState.Cancelled
  }

  ghost predicate IsCallOf(s: Store, agents: set<AgentId>, c: CallId) {
    exists a <- agents :: a in s.agents && s.agents[a].currentCall == Some(c)
  }

  lemma CallsOfOneMore(s: Store, agents: set<AgentId>, a: AgentId)
    requires a in s.agents
    ensures var cur := s.agents[a].currentCall;
            CallsOf(s, agents + {a})
            == if cur.Some? && cur.value in s.calls then CallsOf(s, agents)[cur.value := CallState.Cancelled] else CallsOf(s, agents)
  {
    forall c <- s.calls
      ensures IsCallOf(s, agents + {a}, c) <==> IsCallOf(s, agents, c) || s.agents[a].currentCall == Some(c)
    {
      if IsCallOf(s, agents, c) {
        var x :| x in agents && x in s.agents && s.agents[x].currentCall == Some(c);
        assert x in agents + {a};
      }
      if s.agents[a].currentCall == Some(c) {
        assert a in agents + {a};
      }
    }
  }

  /** Cancelling the call of one more agent. */
  lemma CancelOneMore(cfg: Config, s: Store, agents: set<AgentId>, a: AgentId, at: Time)
    requires a in s.agents
    ensures var e := EndCalls(cfg, s, CallsOf(s, agents), at);
            EndCalls(cfg, s, CallsOf(s, agents + {a}), at) == RecoveryItems.CancelBoundCall(cfg, e, s.agents[a], at, 2)
  {
    var cur := s.agents[a].currentCall;
    var v := CallsOf(s, agents);
    CallsOfOneMore(s, agents, a);
    if cur.Some? && cur.value in s.calls {
      var c := cur.value;
      if c in v {
        assert v[c := CallState.Cancelled] == v;
        EndAgain(cfg, s, v, c, CallState.Cancelled, at);
      } else {
        EndOneMore(cfg, s, v, c, CallState.Cancelled, at);
      }
    }
  }

  ghost function Reclaimed(a: Agent, now: Time): Agent {
    if AgentRepo.ReleaseExpired(a, a, now).Some? then AgentRepo.ReleaseExpired(a, a, now).value else a
  }

  /** Sweep 1 for any selection of agents: their calls end, their borrowers come back, the agents are free. */
  ghost function SweepLeases(cfg: Config, s: Store, agents: set<AgentId>, now: Time, at: Time): Store {
    EndCalls(cfg, s, CallsOf(s, agents), at).(
      agents := map a <- s.agents :: if a in agents then Reclaimed(s.agents[a], now) else s.agents[a])
  }

  lemma CancelIgnoresAgents(cfg: Config, s: Store, agents: map<AgentId, Agent>, seen: Agent, at: Time, n: nat)
    ensures RecoveryItems.CancelBoundCall(cfg, s.(agents := agents), seen, at, n)
            == RecoveryItems.CancelBoundCall(cfg, s, seen, at, n).(agents := agents)
  {
    if seen.currentCall.Some? {
      var r := TransitionCall(s, seen.currentCall.value, CallState.Cancelled, at);
      assert TransitionCall(s.(agents := agents), seen.currentCall.value, CallState.Cancelled, at) == r;
      if r.Some? {
        CalleeIgnoresAgents(cfg, SetCall(s, seen.currentCall.value, r), agents, r.value, at);
      }
    }
  }

  lemma CalleeIgnoresAgents(cfg: Config, s: Store, agents: map<AgentId, Agent>, call: Call, at: Time)
    ensures RecoveryItems.ReleaseCallee(cfg, s.(agents := agents), call, at)
            == RecoveryItems.ReleaseCallee(cfg, s, call, at).(agents := agents)
  {
  }

  lemma LeaseItemIsOneMore(cfg: Config, s: Store, agents: set<AgentId>, a: AgentId, now: Time, at: Time)
    requires a in s.agents && a !in agents
    ensures SweepLeases(cfg, s, agents + {a}, now, at)
            == RecoveryItems.LeaseItem(cfg, SweepLeases(cfg, s, agents, now, at), a, s.agents[a], now, at, 3)
  {
    var e := EndCalls(cfg, s, CallsOf(s, agents), at);
    var before := SweepLeases(cfg, s, agents, now, at);
    CancelOneMore(cfg, s, agents, a, at);
    CancelIgnoresAgents(cfg, e, before.agents, s.agents[a], at, 3);
    CancelIgnoresAgents(cfg, e, before.agents, s.agents[a], at, 2);
    var after := SweepLeases(cfg, s, agents + {a}, now, at);
    var item := RecoveryItems.LeaseItem(cfg, before, a, s.agents[a], now, at, 3);
    assert after.agents == item.agents;
  }

  /** Cut after its two call-side writes, an item has not touched the agent; cut before, only the call. */
  lemma CutItemsKeepAgents(cfg: Config, s: Store, a: AgentId, seen: Agent, now: Time, at: Time)
    ensures RecoveryItems.LeaseItem(cfg, s, a, seen, now, at, 2).agents == s.agents
    ensures RecoveryItems.HeartbeatItem(cfg, s, a, seen, at, 2).agents == s.agents
    ensures RecoveryItems.LeaseItem(cfg, s, a, seen, now, at, 1).borrowers == s.borrowers
    ensures RecoveryItems.HeartbeatItem(cfg, s, a, seen, at, 1).borrowers == s.borrowers
    ensures RecoveryItems.LeaseItem(cfg, s, a, seen, now, at, 0) == s && RecoveryItems.HeartbeatItem(cfg, s, a, seen, at, 0) == s
  {
  }

  ghost function TakenOffline(a: Agent, at: Time): Agent {
    var r := AgentRepo.TransitionAgent(a, a.state, AgentState.Offline, AgentSm.Recovery, a.version, at).ToOption();
    if r.Some? then r.value else a
  }

  /** Sweep 4 for any selection of agents. */
  ghost function SweepHeartbeats(cfg: Config, s: Store, agents: set<AgentId>, at: Time): Store {
    EndCalls(cfg, s, CallsOf(s, agents), at).(
      agents := map a <- s.agents :: if a in agents then TakenOffline(s.agents[a], at) else s.agents[a])
  }

  lemma HeartbeatItemIsOneMore(cfg: Config, s: Store, agents: set<AgentId>, a: AgentId, at: Time)
    requires a in s.agents && a !in agents
    ensures SweepHeartbeats(cfg, s, agents + {a}, at)
            == RecoveryItems.HeartbeatItem(cfg, SweepHeartbeats(cfg, s, agents, at), a, s.agents[a], at, 3)
  {
    var e := EndCalls(cfg, s, CallsOf(s, agents), at);
    var before := SweepHeartbeats(cfg, s, agents, at);
    CancelOneMore(cfg, s, agents, a, at);
    CancelIgnoresAgents(cfg, e, before.agents, s.agents[a], at, 3);
    CancelIgnoresAgents(cfg, e, before.agents, s.agents[a], at, 2);
    var after := SweepHeartbeats(cfg, s, agents + {a}, at);
    var item := RecoveryItems.HeartbeatItem(cfg, before, a, s.agents[a], at, 3);
    assert after.agents == item.agents;
  }

  // Sweep 2

  ghost function SweepBorrowers(s: Store, borrowers: set<BorrowerId>, now: Time): Store {
    s.(borrowers := map b <- s.borrowers ::
                      if b in borrowers && BorrowerRepo.Reclaim(s.borrowers[b], s.borrowers[b], now).Some?
                      then BorrowerRepo.Reclaim(s.borrowers[b], s.borrowers[b], now).value
                      else s.borrowers[b])
  }

  lemma ReclaimIsOneMore(s: Store, borrowers: set<BorrowerId>, b: BorrowerId, now: Time)
    requires b in s.borrowers && b !in borrowers
    ensures var before := SweepBorrowers(s, borrowers, now);
            SweepBorrowers(s, borrowers + {b}, now) == SetBorrower(before, b, ReclaimBorrower(before, b, s.borrowers[b], now))
  {
    var before := SweepBorrowers(s, borrowers, now);
    var after := SweepBorrowers(s, borrowers + {b}, now);
    assert after.borrowers == SetBorrower(before, b, ReclaimBorrower(before, b, s.borrowers[b], now)).borrowers;
  }

  // Sweep 3

  ghost predicate CanFree(a: Agent, w: WorkerId, at: Time) {
    AgentRepo.Release(a, w, AgentState.Available, AgentSm.Recovery, at).Some?
  }

  /** Some ended call gives this agent back. */
  ghost predicate IsFreedAgent(s: Store, v: Verdict, a: AgentId, at: Time) {
    a in s.agents
    && exists c <- v :: Ends(s, c, v[c]) && s.calls[c].key.agent == a && CanFree(s.agents[a], s.calls[c].createdBy, at)
  }

  ghost function FreedAgent(a: Agent, at: Time): Agent
    requires a.lease.Some? && CanFree(a, a.lease.value.worker, at)
  {
    AgentRepo.Release(a, a.lease.value.worker, AgentState.Available, AgentSm.Recovery, at).value
  }

  ghost function SweepOrphans(cfg: Config, s: Store, v: Verdict, at: Time): Store {
    EndCalls(cfg, s, v, at).(
      agents := map a <- s.agents :: if IsFreedAgent(s, v, a, at) then FreedAgent(s.agents[a], at) else s.agents[a])
  }

  lemma FreedAgentByOneMore(s: Store, v: Verdict, c: CallId, target: CallState, a: AgentId, at: Time)
    requires c !in v && a in s.agents
    ensures IsFreedAgent(s, v[c := target], a, at) <==>
            IsFreedAgent(s, v, a, at)
            || (Ends(s, c, target) && s.calls[c].key.agent == a && CanFree(s.agents[a], s.calls[c].createdBy, at))
  {
    var v' := v[c := target];
    if IsFreedAgent(s, v, a, at) {
      var d :| d in v && Ends(s, d, v[d]) && s.calls[d].key.agent == a && CanFree(s.agents[a], s.calls[d].createdBy, at);
      assert d in v' && v'[d] == v[d];
    }
    if Ends(s, c, target) && s.calls[c].key.agent == a && CanFree(s.agents[a], s.calls[c].createdBy, at) {
      assert c in v' && v'[c] == target;
    }
  }

  lemma FreeingIsRelease(a: Agent, w: WorkerId, at: Time)
    requires CanFree(a, w, at)
    ensures a.lease.Some? && a.lease.value.worker == w
    ensures AgentRepo.Release(a, w, AgentState.Available, AgentSm.Recovery, at) == Some(FreedAgent(a, at))
    ensures !CanFree(FreedAgent(a, at), w, at) && FreedAgent(a, at).lease.None?
  {
  }

  /** Releasing the agent of an ended call, read off document by document. */
  lemma FreeOneEffect(e: Store, a: AgentId, w: WorkerId, at: Time)
    ensures var agents := SetAgent(e, a, ReleaseAgent(e, a, w, AgentState.Available, AgentSm.Recovery, at)).agents;
            && agents.Keys == e.agents.Keys
            && (forall x <- e.agents ::
                  agents[x] == if x == a && CanFree(e.agents[x], w, at) then FreedAgent(e.agents[x], at) else e.agents[x])
  {
    if a in e.agents && CanFree(e.agents[a], w, at) {
      FreeingIsRelease(e.agents[a], w, at);
    }
  }

  /** An orphan item is the end of one call plus the release of its agent. */
  lemma OrphanItemShape(cfg: Config, e: Store, c: CallId, target: CallState, at: Time)
    ensures var o := RecoveryItems.OrphanItem(cfg, e, c, target, at, 3);
            o == EndOne(cfg, e, c, target, at).(
                   agents := if Ends(e, c, target)
                             then SetAgent(e, e.calls[c].key.agent,
                                           ReleaseAgent(e, e.calls[c].key.agent, e.calls[c].createdBy, AgentState.Available, AgentSm.Recovery, at)).agents
                             else e.agents)
  {
  }

  /** The agent write of one orphan item, read off document by document. */
  lemma OrphanItemEffect(cfg: Config, e: Store, c: CallId, target: CallState, at: Time)
    ensures var o := RecoveryItems.OrphanItem(cfg, e, c, target, at, 3);
            && o == EndOne(cfg, e, c, target, at).(agents := o.agents)
            && o.agents.Keys == e.agents.Keys
            && (forall a <- e.agents ::
                  o.agents[a]
                  == if Ends(e, c, target) && e.calls[c].key.agent == a && CanFree(e.agents[a], e.calls[c].createdBy, at)
                     then FreedAgent(e.agents[a], at) else e.agents[a])
  {
    OrphanItemShape(cfg, e, c, target, at);
    if c in e.calls {
      FreeOneEffect(e, e.calls[c].key.agent, e.calls[c].createdBy, at);
    }
  }

  lemma UnendedCallStays(cfg: Config, s: Store, v: Verdict, c: CallId, target: CallState, at: Time)
    requires c !in v
    ensures var e := SweepOrphans(cfg, s, v, at);
            && (c in e.calls <==> c in s.calls) && (c in s.calls ==> e.calls[c] == s.calls[c])
            && (Ends(e, c, target) <==> Ends(s, c, target))
  {
  }

  lemma UnleasedCannotBeFreed(a: Agent, w: WorkerId, at: Time)
    requires a.lease.None?
    ensures !CanFree(a, w, at)
  {
  }

  /** Once freed, an agent is not freed again. */
  lemma FreedOnce(s: Store, v: Verdict, a: AgentId, w: WorkerId, at: Time)
    requires IsFreedAgent(s, v, a, at)
    ensures s.agents[a].lease.Some? && CanFree(s.agents[a], s.agents[a].lease.value.worker, at)
    ensures !CanFree(FreedAgent(s.agents[a], at), w, at)
  {
    var d :| d in v && Ends(s, d, v[d]) && s.calls[d].key.agent == a && CanFree(s.agents[a], s.calls[d].createdBy, at);
    FreeingIsRelease(s.agents[a], s.calls[d].createdBy, at);
    UnleasedCannotBeFreed(FreedAgent(s.agents[a], at), w, at);
  }

  lemma OrphanAgentOneMore(cfg: Config, s: Store, v: Verdict, c: CallId, target: CallState, at: Time, a: AgentId)
    requires c !in v && a in s.agents
    ensures SweepOrphans(cfg, s, v[c := target], at).agents[a]
            == RecoveryItems.OrphanItem(cfg, SweepOrphans(cfg, s, v, at), c, target, at, 3).agents[a]
  {
    OrphanItemEffect(cfg, SweepOrphans(cfg, s, v, at), c, target, at);
    UnendedCallStays(cfg, s, v, c, target, at);
    FreedAgentByOneMore(s, v, c, target, a, at);
    if IsFreedAgent(s, v, a, at) && c in s.calls {
      FreedOnce(s, v, a, s.calls[c].createdBy, at);
    }
  }

  lemma OrphanAgentsOneMore(cfg: Config, s: Store, v: Verdict, c: CallId, target: CallState, at: Time)
    requires c !in v
    ensures SweepOrphans(cfg, s, v[c := target], at).agents
            == RecoveryItems.OrphanItem(cfg, SweepOrphans(cfg, s, v, at), c, target, at, 3).agents
  {
    var after := SweepOrphans(cfg, s, v[c := target], at);
    var item := RecoveryItems.OrphanItem(cfg, SweepOrphans(cfg, s, v, at), c, target, at, 3);
    OrphanItemEffect(cfg, SweepOrphans(cfg, s, v, at), c, target, at);
    forall a <- s.agents ensures after.agents[a] == item.agents[a] {
      OrphanAgentOneMore(cfg, s, v, c, target, at, a);
    }
    assert after.agents == item.agents;
  }

  lemma EndIgnoresAgents(cfg: Config, s: Store, agents: map<AgentId, Agent>, c: CallId, target: CallState, at: Time)
    ensures EndOne(cfg, s.(agents := agents), c, target, at) == EndOne(cfg, s, c, target, at).(agents := agents)
  {
  }

  lemma OrphanItemIsOneMore(cfg: Config, s: Store, v: Verdict, c: CallId, target: CallState, at: Time)
    requires c !in v
    ensures SweepOrphans(cfg, s, v[c := target], at)
            == RecoveryItems.OrphanItem(cfg, SweepOrphans(cfg, s, v, at), c, target, at, 3)
  {
    EndOneMore(cfg, s, v, c, target, at);
    EndIgnoresAgents(cfg, EndCalls(cfg, s, v, at), SweepOrphans(cfg, s, v, at).agents, c, target, at);
    OrphanItemEffect(cfg, SweepOrphans(cfg, s, v, at), c, target, at);
    OrphanAgentsOneMore(cfg, s, v, c, target, at);
  }

  // Sweep 5

  ghost function WrappedUp(a: Agent, at: Time): Agent {
    var r := AgentRepo.TransitionAgent(a, AgentState.WrapUp, AgentState.Available, AgentSm.Recovery, a.version, at).ToOption();
    if r.Some? then r.value else a
  }

  ghost function SweepWrapUps(s: Store, agents: set<AgentId>, at: Time): Store {
    s.(agents := map a <- s.agents :: if a in agents then WrappedUp(s.agents[a], at) else s.agents[a])
  }

  lemma WrapUpItemIsOneMore(s: Store, agents: set<AgentId>, a: AgentId, at: Time)
    requires a in s.agents && a !in agents
    ensures SweepWrapUps(s, agents + {a}, at)
            == RecoveryItems.WrapUpItem(SweepWrapUps(s, agents, at), a, s.agents[a], AgentSm.Recovery, at)
  {
    var before := SweepWrapUps(s, agents, at);
    var after := SweepWrapUps(s, agents + {a}, at);
    assert after.agents == RecoveryItems.WrapUpItem(before, a, s.agents[a], AgentSm.Recovery, at).agents;
  }
}

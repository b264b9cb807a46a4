/**
 * What each repository operation does, when it does anything, and what it leaves alone: field by
 * field, in the terms of the documents.
 */
module RepositoryFacts {
  import opened Wrappers
  import opened Enums
  import opened Documents
  import opened Queries
  import AgentSm
  import AgentRepo
  import BorrowerRepo
  import CallRepo

  // Agents

  /** Everything but state, lease, clock, call, ledger and version. */
  ghost predicate SameAgent(x: Agent, y: Agent) {
    y.campaign == x.campaign && y.lastHeartbeat == x.lastHeartbeat
  }

  lemma ClaimOfAgent(a: Agent, k: CampaignId, w: WorkerId, ttl: Time, now: Time)
    ensures var r := AgentRepo.TryReserve(a, k, w, ttl, now);
            && (r.Some? <==> a.campaign == k && a.state.Available?)
            && (r.Some? ==>
                  && SameAgent(a, r.value) && r.value.state.Reserved? && r.value.version == a.version + 1
                  && r.value.lease == Some(Lease(w, now, now + ttl)) && r.value.stateChangedAt == now
                  && r.value.currentCall == a.currentCall && r.value.ledger == a.ledger)
  {
  }

  /** Leaving a state charges the time in it: RESERVED and DIALING as busy, CONNECTED as busy and connected,
      WRAP_UP as busy and wrap-up, AVAILABLE as available, OFFLINE and PAUSED not at all. */
  lemma ChargeOfState(l: Ledger, from: AgentState, since: Time, now: Time)
    ensures var ms := if since < now then now - since else 0;
            var y := AgentRepo.Account(l, from, since, now);
            match from
            case Offline => y == l
            case Paused => y == l
            case Available => y == Ledger(l.busy, l.available + ms, l.connected, l.wrapUp)
            case Reserved => y == Ledger(l.busy + ms, l.available, l.connected, l.wrapUp)
            case Dialing => y == Ledger(l.busy + ms, l.available, l.connected, l.wrapUp)
            case Connected => y == Ledger(l.busy + ms, l.available, l.connected + ms, l.wrapUp)
            case WrapUp => y == Ledger(l.busy + ms, l.available, l.connected, l.wrapUp + ms)
  {
  }

  /** A release gives the agent up: no lease, no call, and the state left is charged. */
  lemma ReleaseOfAgent(a: Agent, w: WorkerId, target: AgentState, actor: AgentSm.Actor, now: Time)
    ensures var r := AgentRepo.Release(a, w, target, actor, now);
            && (r.Some? <==> a.lease.Some? && a.lease.value.worker == w && AgentSm.IsValid(a.state, target, actor))
            && (r.Some? ==>
                  && SameAgent(a, r.value) && r.value.state == target && r.value.version == a.version + 1
                  && r.value.lease.None? && r.value.currentCall.None? && r.value.stateChangedAt == now
                  && r.value.ledger == AgentRepo.Account(a.ledger, a.state, a.stateChangedAt, now))
  {
    if AgentRepo.Release(a, w, target, actor, now).Some? {
      AgentRepo.SwitchIsDirect(a, w, target, actor, now);
    }
  }

  /** A transition keeps lease and call; the wrong edge raises, the wrong state or version misses. */
  lemma TransitionOfAgent(a: Agent, from: AgentState, to: AgentState, actor: AgentSm.Actor, version: nat, now: Time)
    ensures var r := AgentRepo.TransitionAgent(a, from, to, actor, version, now);
            && (r.Raised? <==> !AgentSm.IsValid(from, to, actor))
            && (r.Moved? <==> AgentSm.IsValid(from, to, actor) && a.state == from && a.version == version)
            && (r.Moved? ==>
                  && SameAgent(a, r.agent) && r.agent.state == to && r.agent.version == a.version + 1
                  && r.agent.lease == a.lease && r.agent.currentCall == a.currentCall && r.agent.stateChangedAt == now
                  && r.agent.ledger == AgentRepo.Account(a.ledger, a.state, a.stateChangedAt, now))
  {
  }

  lemma BindOfCall(a: Agent, w: WorkerId, c: CallId)
    ensures var r := AgentRepo.BindCall(a, w, c);
            && (r.Some? <==> a.lease.Some? && a.lease.value.worker == w)
            && (r.Some? ==>
                  && SameAgent(a, r.value) && r.value.currentCall == Some(c) && r.value.state == a.state && r.value.version == a.version
                  && r.value.lease == a.lease && r.value.stateChangedAt == a.stateChangedAt && r.value.ledger == a.ledger)
  {
  }

  lemma BeatOfAgent(a: Agent, now: Time)
    ensures var y := AgentRepo.Heartbeat(a, now); y.lastHeartbeat == Some(now) && y.(lastHeartbeat := a.lastHeartbeat) == a
  {
  }

  /** An expired-lease release lands on the very document that was found, and charges nothing. */
  lemma ExpiredReleaseOfAgent(a: Agent, seen: Agent, now: Time)
    ensures var r := AgentRepo.ReleaseExpired(a, seen, now);
            && (r.Some? <==> a.state == seen.state && a.version == seen.version && a.lease.Some? && a.lease.value.expiresAt < now)
            && (r.Some? ==>
                  && SameAgent(a, r.value) && r.value.state.Available? && r.value.version == a.version + 1
                  && r.value.lease.None? && r.value.currentCall.None? && r.value.stateChangedAt == now && r.value.ledger == a.ledger)
  {
  }

  // Borrowers

  lemma ClaimOfBorrower(b: Borrower, k: CampaignId, w: WorkerId, ttl: Time, now: Time)
    ensures var r := BorrowerRepo.TryReserve(b, k, w, ttl, now);
            && (r.Some? <==> b.campaign == k && b.status.Pending? && b.nextEligibleAt <= now)
            && (r.Some? ==>
                  && r.value.status.Reserved? && r.value.lease == Some(Lease(w, now, now + ttl)) && r.value.version == b.version + 1
                  && r.value.campaign == b.campaign && r.value.attempts == b.attempts
                  && r.value.lastAttemptAt == b.lastAttemptAt && r.value.nextEligibleAt == b.nextEligibleAt)
  {
  }

  /** A reclaim costs no attempt and makes the borrower due at once. */
  lemma ReclaimOfBorrower(b: Borrower, seen: Borrower, now: Time)
    ensures var r := BorrowerRepo.Reclaim(b, seen, now);
            && (r.Some? <==> b.status == seen.status && b.version == seen.version && b.lease.Some? && b.lease.value.expiresAt < now)
            && (r.Some? ==>
                  && r.value.status.Pending? && r.value.lease.None? && r.value.version == b.version + 1 && r.value.nextEligibleAt == now
                  && r.value.campaign == b.campaign && r.value.attempts == b.attempts && r.value.lastAttemptAt == b.lastAttemptAt)
  {
  }

  // Calls

  /** A new call is QUEUED, unattached, unanswered and in its creator's name. */
  lemma InsertOfCall(s: Store, key: Key, provider: Provider, w: WorkerId, id: CallId, now: Time)
    requires id !in s.calls
    ensures var (t, c) := CallRepo.CreateCall(s, key, provider, w, id, now);
            && (key in s.byKey ==> t == s && c == s.byKey[key])
            && (key !in s.byKey ==>
                  && c == id && c in t.calls && t.byKey == s.byKey[key := c] && t.calls == s.calls[c := t.calls[c]]
                  && t.agents == s.agents && t.borrowers == s.borrowers && t.byRef == s.byRef && t.events == s.events
                  && t.calls[c].key == key && t.calls[c].state.Queued? && t.calls[c].provider == provider
                  && t.calls[c].createdBy == w && t.calls[c].updatedAt == now
                  && t.calls[c].providerCallId.None? && t.calls[c].answeredAt.None?)
  {
  }

  /** A call only ever rises, never out of a final state, and ANSWERED alone stamps the answer. */
  lemma MoveOfCall(c: Call, target: CallState, now: Time)
    ensures var r := CallRepo.TransitionCall(c, target, now);
            && (r.Some? <==> c.state !in {CallState.Completed, CallState.Failed, CallState.Cancelled} && Rank(c.state) < Rank(target))
            && (r.Some? ==>
                  && r.value.state == target && r.value.updatedAt == now
                  && r.value.answeredAt == (if target == CallState.Answered then Some(now) else c.answeredAt)
                  && r.value.key == c.key && r.value.provider == c.provider
                  && r.value.providerCallId == c.providerCallId && r.value.createdBy == c.createdBy)
  {
  }

  lemma AttachOfCall(s: Store, c: CallId, pid: nat, now: Time)
    ensures var t := CallRepo.Attach(s, c, pid, now);
            var can := c in s.calls && s.calls[c].providerCallId.None? && Ref(s.calls[c].provider, pid) !in s.byRef;
            && (CallRepo.CanAttach(s, c, pid) <==> can)
            && (!can ==> t == s)
            && (can ==>
                  && t.byRef == s.byRef[Ref(s.calls[c].provider, pid) := c]
                  && t.calls == s.calls[c := s.calls[c].(providerCallId := Some(pid), updatedAt := now)]
                  && t.agents == s.agents && t.borrowers == s.borrowers && t.byKey == s.byKey && t.events == s.events)
  {
  }

  // Finds

  /** Who the finds of agents return. */
  lemma FoundAgents(s: Store, k: CampaignId, now: Time, a: AgentId)
    requires a in s.agents
    ensures var x := s.agents[a];
            var busy := x.state.Reserved? || x.state.Dialing? || x.state.Connected? || x.state.WrapUp?;
            && (a in ClaimableAgents(s, k) <==> x.campaign == k && x.state.Available?)
            && (a in ReservedAgents(s, k) <==> x.campaign == k && x.state.Reserved?)
            && (a in LeaseExpiredAgents(s, now) <==> busy && x.lease.Some? && x.lease.value.expiresAt < now)
            && (a in HeartbeatExpiredAgents(s, now) <==> !x.state.Offline? && x.lastHeartbeat.Some? && x.lastHeartbeat.value < now)
            && (a in WrapUpExpiredAgents(s, now) <==> x.state.WrapUp? && x.stateChangedAt <= now)
  {
    AgentSm.EdgesByActor(s.agents[a].state, AgentState.Available);
  }

  /** And which borrowers and calls. */
  lemma FoundOthers(s: Store, k: CampaignId, now: Time, b: BorrowerId, c: CallId)
    requires b in s.borrowers && c in s.calls
    ensures var x := s.borrowers[b];
            && (b in ClaimableBorrowers(s, k, now) <==> x.campaign == k && x.status.Pending? && x.nextEligibleAt <= now)
            && (b in LeaseExpiredBorrowers(s, now) <==>
                  (x.status.Reserved? || x.status.InCall?) && x.lease.Some? && x.lease.value.expiresAt < now)
    ensures var x := s.calls[c];
            var ended := x.state.Completed? || x.state.Failed? || x.state.Cancelled?;
            && (c in ActiveCallsOf(s, k) <==> x.key.campaign == k && !ended && !x.state.Queued?)
            && (c in RingingCalls(s, k) <==> x.key.campaign == k && x.state == CallState.Ringing)
            && (c in StaleCalls(s, now) <==> !ended && x.updatedAt < now)
  {
  }
}

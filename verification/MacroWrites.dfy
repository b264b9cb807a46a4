/** Each kind of store write keeps the binding invariant, under the condition its callers meet. */
module MacroWrites {
  import opened Wrappers
  import opened Enums
  import opened Documents
  import opened StoreOps
  import opened MacroProtocol
  import opened MacroSafety
  import AgentSm
  import BorrowerRepo
  import CallRepo

  /** Nobody is on a live bound call here. */
  ghost predicate FreeAgent(m: Macro, a: AgentId) {
    forall c | LiveBound(m, c) :: m.store.calls[c].key.agent != a
  }

  ghost predicate FreeBorrower(m: Macro, b: BorrowerId) {
    forall c | LiveBound(m, c) :: m.store.calls[c].key.borrower != b
  }

  /** No live bound call of worker w is on this agent; a release in w's name cannot hurt anybody. */
  ghost predicate NotHisAgent(m: Macro, a: AgentId, w: WorkerId) {
    forall c | LiveBound(m, c) && m.binder[c] == w :: m.store.calls[c].key.agent != a
  }

  ghost predicate NotHisBorrower(m: Macro, b: BorrowerId, w: WorkerId) {
    forall c | LiveBound(m, c) && m.binder[c] == w :: m.store.calls[c].key.borrower != b
  }

  lemma CallWriteFrame(m: Macro, c: CallId, target: CallState, now: Time)
    requires Inv(m)
    ensures CallsFrame(m, SetCall(m.store, c, TransitionCall(m.store, c, target, now)))
  {
  }

  /** Writes to calls alone leave agents and bindings framed. */
  lemma OnlyCallsFrame(m: Macro, s: Store)
    requires Inv(m) && s.agents == m.store.agents && s.borrowers == m.store.borrowers
    ensures AgentsFrame(m, s) && BindingsFrame(m, s)
  {
  }

  lemma CallWrite(m: Macro, c: CallId, target: CallState, now: Time)
    requires Inv(m)
    ensures Inv(m.(store := SetCall(m.store, c, TransitionCall(m.store, c, target, now))))
  {
    var s := SetCall(m.store, c, TransitionCall(m.store, c, target, now));
    CallWriteFrame(m, c, target, now);
    OnlyCallsFrame(m, s);
    FrameKeepsInv(m, s);
  }

  lemma AttachFrame(m: Macro, c: CallId, pid: nat, now: Time)
    requires Inv(m) && c in m.binder
    ensures CallsFrame(m, CallRepo.Attach(m.store, c, pid, now))
  {
  }

  lemma AttachWrite(m: Macro, c: CallId, pid: nat, now: Time)
    requires Inv(m) && c in m.binder
    ensures Inv(m.(store := CallRepo.Attach(m.store, c, pid, now)))
  {
    var s := CallRepo.Attach(m.store, c, pid, now);
    AttachFrame(m, c, pid, now);
    OnlyCallsFrame(m, s);
    FrameKeepsInv(m, s);
  }

  /** Events and heartbeats. */
  lemma NeutralWrite(m: Macro, s: Store)
    requires Inv(m) && s.calls == m.store.calls && s.byKey == m.store.byKey && s.byRef == m.store.byRef
    requires s.borrowers == m.store.borrowers && s.agents.Keys == m.store.agents.Keys
    requires forall a <- s.agents :: s.agents[a] == m.store.agents[a].(lastHeartbeat := s.agents[a].lastHeartbeat)
    ensures Inv(m.(store := s))
  {
    FrameKeepsInv(m, s);
  }

  /** Any single agent write that is framed and leaves every live bound call's agent alone. */
  lemma AgentWrite(m: Macro, a: AgentId, r: Option<Agent>)
    requires Inv(m) && a in m.store.agents
    requires r.Some? ==> AgentFrame(m.store.agents[a], r.value)
    requires r.Some? ==>
               forall c | LiveBound(m, c) && m.store.calls[c].key.agent == a ::
                 OnCall(r.value, c, m.binder[c]) && r.value.lease == m.store.agents[a].lease
    ensures Inv(m.(store := SetAgent(m.store, a, r)))
  {
    FrameKeepsInv(m, SetAgent(m.store, a, r));
  }

  lemma BorrowerWrite(m: Macro, b: BorrowerId, r: Option<Borrower>)
    requires Inv(m)
    requires r.Some? ==> FreeBorrower(m, b)
    ensures Inv(m.(store := SetBorrower(m.store, b, r)))
  {
    FrameKeepsInv(m, SetBorrower(m.store, b, r));
  }

  lemma ReleaseAgentWrite(m: Macro, a: AgentId, w: WorkerId, target: AgentState, actor: AgentSm.Actor, now: Time)
    requires Inv(m) && NotHisAgent(m, a, w)
    ensures Inv(m.(store := SetAgent(m.store, a, ReleaseAgent(m.store, a, w, target, actor, now))))
  {
    var r := ReleaseAgent(m.store, a, w, target, actor, now);
    if a in m.store.agents {
      forall c | LiveBound(m, c) ensures r.Some? ==> m.store.calls[c].key.agent != a {
        assert Binding(m, c);
      }
      AgentWrite(m, a, r);
    }
  }

  lemma ReleaseBorrowerWrite(cfg: Config, m: Macro, b: BorrowerId, w: WorkerId, outcome: BorrowerRepo.Outcome, now: Time)
    requires Inv(m) && NotHisBorrower(m, b, w)
    ensures Inv(m.(store := SetBorrower(m.store, b, ReleaseBorrower(m.store, b, w, outcome, cfg, now))))
  {
    var r := ReleaseBorrower(m.store, b, w, outcome, cfg, now);
    forall c | LiveBound(m, c) ensures r.Some? ==> m.store.calls[c].key.borrower != b {
      assert Binding(m, c);
    }
    BorrowerWrite(m, b, r);
  }

  /** A write filtered on the version of a document whose call is no longer live. */
  lemma VersionedAgentWrite(m: Macro, a: AgentId, seen: Agent, r: Option<Agent>)
    requires Inv(m) && StaleOf(m.store, a, seen)
    requires seen.currentCall.Some? ==> !IsLive(m.store, seen.currentCall.value)
    requires r.Some? ==> m.store.agents[a].version == seen.version && AgentFrame(m.store.agents[a], r.value)
    ensures Inv(m.(store := SetAgent(m.store, a, r)))
  {
    forall c | LiveBound(m, c) ensures r.Some? ==> m.store.calls[c].key.agent != a {
      assert Binding(m, c);
    }
    AgentWrite(m, a, r);
  }

  /** Transitions that start from a state no bound call keeps its agent in. */
  lemma UnengagedTransition(m: Macro, a: AgentId, from: AgentState, to: AgentState, actor: AgentSm.Actor, version: nat, now: Time)
    requires Inv(m) && !from.Dialing? && !from.Connected?
    ensures Inv(m.(store := SetAgent(m.store, a, TransitionAgent(m.store, a, from, to, actor, version, now))))
  {
    var r := TransitionAgent(m.store, a, from, to, actor, version, now);
    if a in m.store.agents {
      forall c | LiveBound(m, c) ensures r.Some? ==> m.store.calls[c].key.agent != a {
        assert Binding(m, c);
      }
      AgentWrite(m, a, r);
    }
  }

  /** The event processor's forward transition keeps the agent on its call. */
  lemma ForwardTransition(m: Macro, a: AgentId, from: AgentState, to: AgentState, version: nat, now: Time)
    requires Inv(m) && (to.Dialing? || to.Connected?)
    ensures Inv(m.(store := SetAgent(m.store, a, TransitionAgent(m.store, a, from, to, AgentSm.EventProcessor, version, now))))
  {
    var r := TransitionAgent(m.store, a, from, to, AgentSm.EventProcessor, version, now);
    if a in m.store.agents {
      forall c | r.Some? && LiveBound(m, c) && m.store.calls[c].key.agent == a
        ensures OnCall(r.value, c, m.binder[c]) && r.value.lease == m.store.agents[a].lease
      {
        assert Binding(m, c);
      }
      AgentWrite(m, a, r);
    }
  }

  /** An AVAILABLE agent is free, so claiming it disturbs nobody. */
  lemma ClaimAgentWrite(m: Macro, k: CampaignId, a: AgentId, w: WorkerId, ttl: Time, now: Time)
    requires Inv(m) && ReserveAgent(m.store, k, a, w, ttl, now).Some?
    ensures FreeAgent(m, a)
    ensures Inv(m.(store := SetAgent(m.store, a, ReserveAgent(m.store, k, a, w, ttl, now))))
  {
    forall c | LiveBound(m, c) ensures m.store.calls[c].key.agent != a {
      assert Binding(m, c);
    }
    AgentWrite(m, a, ReserveAgent(m.store, k, a, w, ttl, now));
  }

  lemma ClaimBorrowerWrite(m: Macro, k: CampaignId, b: BorrowerId, w: WorkerId, ttl: Time, now: Time)
    requires Inv(m)
    ensures ReserveBorrower(m.store, k, b, w, ttl, now).Some? ==> FreeBorrower(m, b)
    ensures Inv(m.(store := SetBorrower(m.store, b, ReserveBorrower(m.store, k, b, w, ttl, now))))
  {
    var r := ReserveBorrower(m.store, k, b, w, ttl, now);
    if r.Some? {
      forall c | LiveBound(m, c) ensures m.store.calls[c].key.borrower != b {
        assert Binding(m, c);
      }
    }
    BorrowerWrite(m, b, r);
  }

  /** At most one live bound call per agent: two would both be its current call. */
  lemma OneCallPerAgent(m: Macro, c: CallId, d: CallId)
    requires Inv(m) && LiveBound(m, c) && LiveBound(m, d)
    ensures m.store.calls[c].key.agent == m.store.calls[d].key.agent ==> c == d
  {
    assert Binding(m, c) && Binding(m, d);
  }

  /** And per borrower: the holder is one call. */
  lemma OneCallPerBorrower(m: Macro, c: CallId, d: CallId)
    requires Inv(m) && LiveBound(m, c) && LiveBound(m, d)
    ensures m.store.calls[c].key.borrower == m.store.calls[d].key.borrower ==> c == d
  {
    assert Binding(m, c) && Binding(m, d);
  }

  lemma GiveBackKeeps(cfg: Config, m: Macro, w: WorkerId, a: AgentId, b: BorrowerId, now: Time, n: nat)
    requires Inv(m) && NotHisAgent(m, a, w) && NotHisBorrower(m, b, w)
    ensures Inv(m.(store := GiveBack(cfg, m.store, w, a, b, now, n)))
  {
    if n == 0 {
      assert m.(store := m.store) == m;
    } else {
      var s1 := SetAgent(m.store, a, ReleaseAgent(m.store, a, w, AgentState.Available, AgentSm.Allocator, now));
      ReleaseAgentWrite(m, a, w, AgentState.Available, AgentSm.Allocator, now);
      if n > 1 {
        SameCallsSameRivals(m, s1, b, w);
        ReleaseBorrowerWrite(cfg, m.(store := s1), b, w, BorrowerRepo.Released, now);
      }
    }
  }

  lemma SameCallsSameRivals(m: Macro, s: Store, b: BorrowerId, w: WorkerId)
    requires s.calls == m.store.calls && NotHisBorrower(m, b, w)
    ensures NotHisBorrower(m.(store := s), b, w)
  {
    forall d | LiveBound(m.(store := s), d) ensures LiveBound(m, d) {}
  }

  // What the creator of a call can release when the call ends

  /** The call's creator is on no other live bound call with the call's agent. */
  ghost predicate SparesAgent(m: Macro, c: CallId)
    requires c in m.store.calls
  {
    forall d | LiveBound(m, d) && d != c && m.binder[d] == m.store.calls[c].createdBy ::
      m.store.calls[d].key.agent != m.store.calls[c].key.agent
  }

  /** Nor with its borrower. */
  ghost predicate SparesBorrower(m: Macro, c: CallId)
    requires c in m.store.calls
  {
    forall d | LiveBound(m, d) && d != c && m.binder[d] == m.store.calls[c].createdBy ::
      m.store.calls[d].key.borrower != m.store.calls[c].key.borrower
  }

  /** A bound call shares its parties with no other. */
  lemma BoundCallsSpare(m: Macro, c: CallId)
    requires Inv(m) && LiveBound(m, c)
    ensures SparesAgent(m, c) && SparesBorrower(m, c)
  {
    forall d | LiveBound(m, d) && d != c
      ensures m.store.calls[d].key.agent != m.store.calls[c].key.agent && m.store.calls[d].key.borrower != m.store.calls[c].key.borrower
    {
      OneCallPerAgent(m, c, d);
      OneCallPerBorrower(m, c, d);
    }
  }

  /** Once the call has ended, a release in its creator's name hits nobody it spares. */
  lemma EndedCallFrees(m: Macro, c: CallId, target: CallState, now: Time)
    requires TransitionCall(m.store, c, target, now).Some? && IsTerminal(target)
    ensures var m' := m.(store := SetCall(m.store, c, TransitionCall(m.store, c, target, now)));
            var call := m.store.calls[c];
            && (SparesAgent(m, c) ==> NotHisAgent(m', call.key.agent, call.createdBy))
            && (SparesBorrower(m, c) ==> NotHisBorrower(m', call.key.borrower, call.createdBy))
  {
    var m' := m.(store := SetCall(m.store, c, TransitionCall(m.store, c, target, now)));
    forall d | LiveBound(m', d) ensures LiveBound(m, d) && d != c && m'.store.calls[d].key == m.store.calls[d].key {}
  }

  /** Ending a bound call leaves nobody its creator's releases could hit. */
  lemma EndedCallFreesParties(m: Macro, c: CallId, target: CallState, now: Time)
    requires Inv(m) && TransitionCall(m.store, c, target, now).Some? && IsTerminal(target) && c in m.binder
    ensures var m' := m.(store := SetCall(m.store, c, TransitionCall(m.store, c, target, now)));
            var call := m.store.calls[c];
            NotHisAgent(m', call.key.agent, call.createdBy) && NotHisBorrower(m', call.key.borrower, call.createdBy)
  {
    BoundCallsSpare(m, c);
    EndedCallFrees(m, c, target, now);
  }

  // The steps that can break a binding

  /** An orphan item that frees, in the name of the ended call's creator, a party this creator holds
      for another live bound call. */
  ghost predicate OrphanHarms(m: Macro, c: CallId, target: CallState, n: nat) {
    && (target.Failed? || target.Completed?) && TransitionCall(m.store, c, target, m.clock).Some?
    && ((n >= 2 && !SparesAgent(m, c)) || (n >= 3 && !SparesBorrower(m, c)))
  }

  /** A reclaim that lands on the borrower of a live bound call. */
  ghost predicate ReclaimHarms(m: Macro, r: nat, b: BorrowerId) {
    && r in m.passes && m.passes[r].BorrowerSweep? && b in m.passes[r].borrowers
    && ReclaimBorrower(m.store, b, m.passes[r].borrowers[b], m.passes[r].now).Some? && !FreeBorrower(m, b)
  }

  /** An agent that logs out of a live bound call. */
  ghost predicate LogoutHarms(m: Macro, a: AgentId, from: AgentState, to: AgentState, version: nat) {
    TransitionAgent(m.store, a, from, to, AgentSm.AgentSelf, version, m.clock).Some? && !FreeAgent(m, a)
  }

  /** A cancellation that gives back a party of the call it leaves live. */
  ghost predicate AbortHarms(m: Macro, w: WorkerId, n: nat, back: nat) {
    && w in m.waiting && n == 0 && LiveBound(m, m.waiting[w].call)
    && (back >= 2
        || (back == 1 && ReleaseAgent(m.store, m.waiting[w].agent, w, AgentState.Available, AgentSm.Allocator, m.clock).Some?))
  }

  ghost predicate Harms(m: Macro, act: Action) {
    match act
    case DoOrphan(c, target, n) => OrphanHarms(m, c, target, n)
    case DoBorrower(r, b) => ReclaimHarms(m, r, b)
    case Self(a, from, to, version) => LogoutHarms(m, a, from, to, version)
    case Abort(w, n, back) => AbortHarms(m, w, n, back)
    case _ => false
  }
}

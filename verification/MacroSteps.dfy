/** Every step of the macro protocol keeps the binding invariant. */
module MacroSteps {
  import opened Wrappers
  import opened Enums
  import opened Documents
  import opened StoreOps
  import opened ProviderEvents
  import opened MacroProtocol
  import opened MacroSafety
  import opened MacroWrites
  import EventWrites
  import RecoveryItems
  import AgentSm
  import BorrowerRepo
  import CallSm

  // Steps that do not write the store

  lemma NoRivalInSubset(m: Macro, m': Macro, w: WorkerId, a: AgentId, b: BorrowerId, c: CallId)
    requires m'.store.calls == m.store.calls && m'.binder == m.binder && NoRival(m, w, a, b, c)
    ensures NoRival(m', w, a, b, c)
  {
  }

  lemma ClockKeeps(m: Macro, t: Time)
    requires Inv(m) && t >= m.clock
    ensures Inv(m.(clock := t))
  {
    var m' := m.(clock := t);
    forall c | LiveBound(m', c) ensures Binding(m', c) { assert Binding(m, c); }
    OwnersKept(m, m');
    forall r <- m.passes ensures PassInv(m', m.passes[r]) { PassKept(m, m', m.passes[r]); }
  }

  lemma PassKept(m: Macro, m': Macro, p: Pass)
    requires PassInv(m, p) && m'.store == m.store && m'.binder == m.binder && m'.clock >= m.clock
    ensures PassInv(m', p)
  {
    forall c | Overdue(m', c, p.now) ensures Overdue(m, c, p.now) {}
  }

  /** Fewer waiting workers, all of them live, hurt no owner fact. */
  lemma OwnersKept(m: Macro, m': Macro)
    requires Inv(m) && m'.store == m.store && m'.binder == m.binder
    requires m'.waiting.Keys <= m.waiting.Keys && m'.waiting.Keys <= m'.live
    requires forall w <- m'.waiting :: m'.waiting[w] == m.waiting[w]
    ensures Waiters(m')
  {
    forall w <- m'.waiting ensures NoRival(m', w, m'.waiting[w].agent, m'.waiting[w].borrower, m'.waiting[w].call) {
      NoRivalInSubset(m, m', w, m.waiting[w].agent, m.waiting[w].borrower, m.waiting[w].call);
    }
  }

  lemma GoneKeeps(m: Macro, w: WorkerId)
    requires Inv(m)
    ensures Inv(Gone(m, w))
  {
    var m' := Gone(m, w);
    forall c | LiveBound(m', c) ensures Binding(m', c) { assert Binding(m, c); }
    OwnersKept(m, m');
    forall r <- m.passes ensures PassInv(m', m.passes[r]) { PassKept(m, m', m.passes[r]); }
  }

  lemma AnsweredKeeps(m: Macro, w: WorkerId)
    requires Inv(m)
    ensures Inv(m.(waiting := m.waiting - {w}))
  {
    var m' := m.(waiting := m.waiting - {w});
    forall c | LiveBound(m', c) ensures Binding(m', c) { assert Binding(m, c); }
    OwnersKept(m, m');
    forall r <- m.passes ensures PassInv(m', m.passes[r]) { PassKept(m, m', m.passes[r]); }
  }

  lemma JoinKeeps(m: Macro, w: WorkerId)
    requires Inv(m) && w !in m.used
    ensures Inv(m.(live := m.live + {w}, used := m.used + {w}))
  {
    var m' := m.(live := m.live + {w}, used := m.used + {w});
    forall c | LiveBound(m', c) ensures Binding(m', c) { assert Binding(m, c); }
    OwnersKept(m, m');
    forall r <- m.passes ensures PassInv(m', m.passes[r]) { PassKept(m, m', m.passes[r]); }
  }

  /** A loop that goes on under its old id. */
  lemma ResumeKeeps(m: Macro, w: WorkerId)
    requires Inv(m) && w in m.used
    ensures Inv(m.(live := m.live + {w}))
  {
    var m' := m.(live := m.live + {w});
    forall c | LiveBound(m', c) ensures Binding(m', c) { assert Binding(m, c); }
    OwnersKept(m, m');
    forall r <- m.passes ensures PassInv(m', m.passes[r]) { PassKept(m, m', m.passes[r]); }
  }

  lemma PassesKeep(m: Macro, passes: map<nat, Pass>)
    requires Inv(m) && forall r <- passes :: PassInv(m, passes[r])
    ensures Inv(m.(passes := passes))
  {
    var m' := m.(passes := passes);
    forall c | LiveBound(m', c) ensures Binding(m', c) { assert Binding(m, c); }
    OwnersKept(m, m');
    forall r <- passes ensures PassInv(m', passes[r]) { PassKept(m, m', passes[r]); }
  }

  lemma SeenKeeps(m: Macro, slot: nat, a: AgentId)
    requires Inv(m) && a in m.store.agents
    ensures Inv(m.(seen := m.seen[slot := (a, m.store.agents[a])]))
  {
    var m' := m.(seen := m.seen[slot := (a, m.store.agents[a])]);
    forall c | LiveBound(m', c) ensures Binding(m', c) { assert Binding(m, c); }
    OwnersKept(m, m');
    forall r <- m.passes ensures PassInv(m', m.passes[r]) { PassKept(m, m', m.passes[r]); }
  }

  // Events

  lemma EventCallKeeps(cfg: Config, m1: Macro, c: CallId, target: CallState, n: nat)
    requires Inv(m1) && n > 1 && Rank(target) >= 3 && c in m1.binder
    requires TransitionCall(m1.store, c, target, m1.clock).Some?
    ensures var call := TransitionCall(m1.store, c, target, m1.clock);
            var s2 := SetCall(m1.store, c, call);
            var s3 := EventWrites.AgentWrite(s2, call.value, target, m1.clock);
            Inv(m1.(store := if n == 2 then s2 else if n == 3 then s3 else EventWrites.BorrowerWrite(cfg, s3, call.value, target, m1.clock)))
  {
    if n == 2 {
      CallWrite(m1, c, target, m1.clock);
    } else {
      EventPartiesKeep(cfg, m1, c, target, n);
    }
  }

  /** What a prefix of process_event can leave behind. */
  lemma PrefixShape(cfg: Config, s: Store, e: Event, now: Time, n: nat)
    ensures var s1 := EventWrites.RecordEvent(s, e);
            var p := EventWrites.Prefix(cfg, s, e, now, n);
            var c := EventWrites.Applicable(s1, e);
            || p == s
            || p == s1
            || (n > 1 && c.Some? && Rank(TargetOf(e.kind).value) >= 3
                && var target := TargetOf(e.kind).value;
                var call := TransitionCall(s1, c.value, target, now);
                call.Some?
                && var s2 := SetCall(s1, c.value, call);
                var s3 := EventWrites.AgentWrite(s2, call.value, target, now);
                p == if n == 2 then s2 else if n == 3 then s3 else EventWrites.BorrowerWrite(cfg, s3, call.value, target, now))
  {
  }

  lemma DeliverKeeps(cfg: Config, m: Macro, e: Event, n: nat)
    requires Inv(m)
    ensures Inv(m.(store := EventWrites.Prefix(cfg, m.store, e, m.clock, n)))
  {
    PrefixShape(cfg, m.store, e, m.clock, n);
    var p := EventWrites.Prefix(cfg, m.store, e, m.clock, n);
    var m1 := m.(store := EventWrites.RecordEvent(m.store, e));
    NeutralWrite(m, m1.store);
    if p == m.store {
      assert m.(store := p) == m;
    } else if p == m1.store {
    } else {
      var c := EventWrites.Applicable(m1.store, e).value;
      EventCallKeeps(cfg, m1, c, TargetOf(e.kind).value, n);
      assert m1.(store := p) == m.(store := p);
    }
  }

  /** The store after an event's call write and agent write. */
  ghost function AgentTold(m: Macro, c: CallId, target: CallState): Store
    requires TransitionCall(m.store, c, target, m.clock).Some?
  {
    var call := TransitionCall(m.store, c, target, m.clock);
    EventWrites.AgentWrite(SetCall(m.store, c, call), call.value, target, m.clock)
  }

  lemma EventPartiesKeep(cfg: Config, m1: Macro, c: CallId, target: CallState, n: nat)
    requires Inv(m1) && n > 2 && Rank(target) >= 3 && c in m1.binder
    requires TransitionCall(m1.store, c, target, m1.clock).Some?
    ensures var call := TransitionCall(m1.store, c, target, m1.clock).value;
            var s3 := AgentTold(m1, c, target);
            Inv(m1.(store := if n == 3 then s3 else EventWrites.BorrowerWrite(cfg, s3, call, target, m1.clock)))
  {
    if IsReleasing(target) {
      AgentToldIsFreed(m1, c, target);
      var call := TransitionCall(m1.store, c, target, m1.clock).value;
      ReleaseBorrowerWrite(cfg, m1.(store := AgentTold(m1, c, target)), call.key.borrower, call.createdBy,
                           BorrowerRepo.OutcomeFor(target.Completed? && call.answeredAt.Some?), m1.clock);
    } else {
      AgentMovesOn(m1, c, target);
    }
  }

  lemma AgentToldShape(m1: Macro, c: CallId, target: CallState)
    requires Rank(target) >= 3 && IsReleasing(target) && TransitionCall(m1.store, c, target, m1.clock).Some?
    ensures var call := TransitionCall(m1.store, c, target, m1.clock).value;
            var s2 := SetCall(m1.store, c, Some(call));
            AgentTold(m1, c, target)
            == SetAgent(s2, call.key.agent,
                        ReleaseAgent(s2, call.key.agent, call.createdBy, EventGoal(target), AgentSm.EventProcessor, m1.clock))
  {
  }

  lemma AgentToldIsFreed(m1: Macro, c: CallId, target: CallState)
    requires Inv(m1) && Rank(target) >= 3 && IsReleasing(target) && c in m1.binder
    requires TransitionCall(m1.store, c, target, m1.clock).Some?
    ensures var call := TransitionCall(m1.store, c, target, m1.clock).value;
            var m3 := m1.(store := AgentTold(m1, c, target));
            Inv(m3) && NotHisBorrower(m3, call.key.borrower, call.createdBy)
  {
    var call := TransitionCall(m1.store, c, target, m1.clock).value;
    var m2 := m1.(store := SetCall(m1.store, c, Some(call)));
    CallWrite(m1, c, target, m1.clock);
    EndedCallFreesParties(m1, c, target, m1.clock);
    AgentToldShape(m1, c, target);
    ReleaseAgentWrite(m2, call.key.agent, call.createdBy, EventGoal(target), AgentSm.EventProcessor, m1.clock);
    SameCallsSameRivals(m2, AgentTold(m1, c, target), call.key.borrower, call.createdBy);
  }

  lemma AgentAdvancedShape(m1: Macro, c: CallId, target: CallState)
    requires Rank(target) >= 3 && !IsReleasing(target) && TransitionCall(m1.store, c, target, m1.clock).Some?
    ensures var call := TransitionCall(m1.store, c, target, m1.clock).value;
            var s2 := SetCall(m1.store, c, Some(call));
            var a := call.key.agent;
            AgentTold(m1, c, target)
            == if a !in s2.agents || s2.agents[a].state == EventGoal(target) then s2
               else SetAgent(s2, a, TransitionAgent(s2, a, s2.agents[a].state, EventGoal(target), AgentSm.EventProcessor,
                                                    s2.agents[a].version, m1.clock))
  {
  }

  lemma AgentMovesOn(m1: Macro, c: CallId, target: CallState)
    requires Inv(m1) && Rank(target) >= 3 && !IsReleasing(target)
    requires TransitionCall(m1.store, c, target, m1.clock).Some?
    ensures Inv(m1.(store := AgentTold(m1, c, target)))
  {
    var call := TransitionCall(m1.store, c, target, m1.clock).value;
    var m2 := m1.(store := SetCall(m1.store, c, Some(call)));
    CallWrite(m1, c, target, m1.clock);
    AgentAdvancedShape(m1, c, target);
    var a := call.key.agent;
    if a in m2.store.agents {
      ForwardTransition(m2, a, m2.store.agents[a].state, EventGoal(target), m2.store.agents[a].version, m1.clock);
    }
  }

  function EventGoal(target: CallState): AgentState
    requires Rank(target) >= 3
  {
    CallSm.AgentStateFor(target).value
  }

  // Recovery items

  lemma EndedCallIsNotLive(s: Store, c: CallId, target: CallState, now: Time)
    requires IsTerminal(target)
    ensures !IsLive(SetCall(s, c, TransitionCall(s, c, target, now)), c)
  {
  }

  lemma EndAndReleaseCallee(cfg: Config, m: Macro, c: CallId, target: CallState, now: Time)
    requires Inv(m) && IsTerminal(target) && TransitionCall(m.store, c, target, now).Some? && c in m.binder
    ensures var call := TransitionCall(m.store, c, target, now);
            Inv(m.(store := RecoveryItems.ReleaseCallee(cfg, SetCall(m.store, c, call), call.value, now)))
  {
    var call := TransitionCall(m.store, c, target, now);
    CallWrite(m, c, target, now);
    EndedCallFreesParties(m, c, target, now);
    ReleaseBorrowerWrite(cfg, m.(store := SetCall(m.store, c, call)), call.value.key.borrower, call.value.createdBy,
                         BorrowerRepo.OutcomeFor(false), now);
  }

  /** An orphan item after its two agent-side writes. */
  ghost function AgentFreed(m: Macro, c: CallId, target: CallState): Macro
    requires TransitionCall(m.store, c, target, m.clock).Some?
  {
    var call := TransitionCall(m.store, c, target, m.clock);
    var s1 := SetCall(m.store, c, call);
    var a := call.value.key.agent;
    m.(store := SetAgent(s1, a, ReleaseAgent(s1, a, call.value.createdBy, AgentState.Available, AgentSm.Recovery, m.clock)))
  }

  lemma EndAndReleaseAgent(m: Macro, c: CallId, target: CallState)
    requires Inv(m) && IsTerminal(target) && TransitionCall(m.store, c, target, m.clock).Some? && SparesAgent(m, c)
    ensures Inv(AgentFreed(m, c, target))
    ensures SparesBorrower(m, c) ==>
              NotHisBorrower(AgentFreed(m, c, target), m.store.calls[c].key.borrower, m.store.calls[c].createdBy)
  {
    var call := TransitionCall(m.store, c, target, m.clock).value;
    var m1 := m.(store := SetCall(m.store, c, Some(call)));
    CallWrite(m, c, target, m.clock);
    EndedCallFrees(m, c, target, m.clock);
    ReleaseAgentWrite(m1, call.key.agent, call.createdBy, AgentState.Available, AgentSm.Recovery, m.clock);
    if SparesBorrower(m, c) {
      SameCallsSameRivals(m1, AgentFreed(m, c, target).store, call.key.borrower, call.createdBy);
    }
  }

  lemma CancelKeeps(cfg: Config, m: Macro, seen: Agent, n: nat)
    requires Inv(m) && (seen.currentCall.Some? ==> seen.currentCall.value in m.binder)
    ensures var m' := m.(store := RecoveryItems.CancelBoundCall(cfg, m.store, seen, m.clock, n));
            && Inv(m') && m'.store.agents == m.store.agents
            && (n > 0 && seen.currentCall.Some? ==> !IsLive(m'.store, seen.currentCall.value))
  {
    if n == 0 || seen.currentCall.None? {
      assert m.(store := m.store) == m;
    } else {
      var c := seen.currentCall.value;
      EndedCallIsNotLive(m.store, c, CallState.Cancelled, m.clock);
      if n == 1 || TransitionCall(m.store, c, CallState.Cancelled, m.clock).None? {
        CallWrite(m, c, CallState.Cancelled, m.clock);
      } else {
        EndAndReleaseCallee(cfg, m, c, CallState.Cancelled, m.clock);
      }
    }
  }

  lemma LeaseItemKeeps(cfg: Config, m: Macro, a: AgentId, seen: Agent, now: Time, n: nat)
    requires Inv(m) && Sighting(m, a, seen)
    ensures var m' := m.(store := RecoveryItems.LeaseItem(cfg, m.store, a, seen, now, m.clock, n));
            && Inv(m') && (n > 0 && seen.currentCall.Some? ==> !IsLive(m'.store, seen.currentCall.value))
  {
    var m1 := m.(store := RecoveryItems.CancelBoundCall(cfg, m.store, seen, m.clock, n));
    CancelKeeps(cfg, m, seen, n);
    if n > 2 {
      VersionedAgentWrite(m1, a, seen, ReleaseExpired(m1.store, a, seen, now));
    }
  }

  lemma HeartbeatItemKeeps(cfg: Config, m: Macro, a: AgentId, seen: Agent, n: nat)
    requires Inv(m) && Sighting(m, a, seen)
    ensures Inv(m.(store := RecoveryItems.HeartbeatItem(cfg, m.store, a, seen, m.clock, n)))
  {
    var m1 := m.(store := RecoveryItems.CancelBoundCall(cfg, m.store, seen, m.clock, n));
    CancelKeeps(cfg, m, seen, n);
    if n > 2 {
      VersionedAgentWrite(m1, a, seen,
        TransitionAgent(m1.store, a, seen.state, AgentState.Offline, AgentSm.Recovery, seen.version, m.clock));
    }
  }

  /** What a prefix of an orphan item leaves behind. */
  lemma OrphanShape(cfg: Config, m: Macro, c: CallId, target: CallState, n: nat)
    ensures var call := TransitionCall(m.store, c, target, m.clock);
            var s := RecoveryItems.OrphanItem(cfg, m.store, c, target, m.clock, n);
            if n == 0 || call.None? then s == m.store
            else if n == 1 then s == SetCall(m.store, c, call)
            else if n == 2 then s == AgentFreed(m, c, target).store
            else s == RecoveryItems.ReleaseCallee(cfg, AgentFreed(m, c, target).store, call.value, m.clock)
  {
  }

  lemma OrphanCalleeKeeps(cfg: Config, m: Macro, c: CallId, target: CallState)
    requires Inv(m) && IsTerminal(target) && TransitionCall(m.store, c, target, m.clock).Some?
    requires SparesAgent(m, c) && SparesBorrower(m, c)
    ensures Inv(m.(store := RecoveryItems.ReleaseCallee(cfg, AgentFreed(m, c, target).store,
                                                        TransitionCall(m.store, c, target, m.clock).value, m.clock)))
  {
    var call := TransitionCall(m.store, c, target, m.clock).value;
    EndAndReleaseAgent(m, c, target);
    ReleaseBorrowerWrite(cfg, AgentFreed(m, c, target), call.key.borrower, call.createdBy, BorrowerRepo.OutcomeFor(false), m.clock);
  }

  lemma OrphanItemKeeps(cfg: Config, m: Macro, c: CallId, target: CallState, n: nat)
    requires Inv(m) && IsTerminal(target)
    requires c in m.store.calls && n >= 2 ==> SparesAgent(m, c)
    requires c in m.store.calls && n >= 3 ==> SparesBorrower(m, c)
    ensures Inv(m.(store := RecoveryItems.OrphanItem(cfg, m.store, c, target, m.clock, n)))
  {
    OrphanShape(cfg, m, c, target, n);
    if n == 0 || TransitionCall(m.store, c, target, m.clock).None? {
      assert m.(store := m.store) == m;
    } else if n == 1 {
      CallWrite(m, c, target, m.clock);
    } else if n == 2 {
      EndAndReleaseAgent(m, c, target);
    } else {
      OrphanCalleeKeeps(cfg, m, c, target);
    }
  }

  // Passes

  /** The first sweep's find sees the agent of every overdue call, still on that call. */
  lemma FindAgentsKeeps(m: Macro, now: Time, found: set<AgentId>)
    requires Inv(m) && now <= m.clock
    ensures PassInv(m, FoundAgents(m.store, now, found))
  {
    forall c | Overdue(m, c, now)
      ensures var a := m.store.calls[c].key.agent;
              a in ExpiredAgents(m.store, now) && ExpiredAgents(m.store, now)[a].currentCall == Some(c)
    {
      assert Binding(m, c);
    }
  }

  lemma DoAgentKeeps(cfg: Config, m: Macro, r: nat, a: AgentId, n: nat)
    requires Inv(m) && r in m.passes && m.passes[r].AgentSweep? && a in m.passes[r].agents
    ensures Inv(PassNext(cfg, m, DoAgent(r, a, n)).value)
  {
    var p := m.passes[r];
    var m' := m.(store := RecoveryItems.LeaseItem(cfg, m.store, a, p.agents[a], p.now, m.clock, n));
    assert PassInv(m, p);
    LeaseItemKeeps(cfg, m, a, p.agents[a], p.now, n);
    assert PassInv(m', p);
    if n >= 3 {
      HandledAgent(m', p, a);
      PassesKeep(m', m.passes[r := p.(agents := p.agents - {a})]);
    } else {
      PassesKeep(m', m.passes[r := AgentSweep(p.now, map[], false)]);
    }
  }

  /** An agent whose call has ended can leave the list. */
  lemma HandledAgent(m: Macro, p: Pass, a: AgentId)
    requires PassInv(m, p) && p.AgentSweep? && a in p.agents
    requires p.agents[a].currentCall.Some? ==> !IsLive(m.store, p.agents[a].currentCall.value)
    ensures PassInv(m, p.(agents := p.agents - {a}))
  {
    var p' := p.(agents := p.agents - {a});
    forall c | p.whole && Overdue(m, c, p.now)
      ensures m.store.calls[c].key.agent in p'.agents && p'.agents[m.store.calls[c].key.agent].currentCall == Some(c)
    {
      assert p.agents[m.store.calls[c].key.agent].currentCall == Some(c);
    }
  }

  /** After a whole first sweep no overdue call is left, so reclaiming a borrower by the same now cannot
      hit a live bound call: its agent's lease, claimed first, would have ended as well. */
  lemma WholePassReclaimsFree(m: Macro, r: nat, b: BorrowerId)
    requires Inv(m) && r in m.passes && m.passes[r].BorrowerSweep? && m.passes[r].whole
    ensures !ReclaimHarms(m, r, b)
  {
    var p := m.passes[r];
    assert PassInv(m, p);
    if b in p.borrowers && ReclaimBorrower(m.store, b, p.borrowers[b], p.now).Some? {
      forall c | LiveBound(m, c) ensures m.store.calls[c].key.borrower != b {
        assert Binding(m, c) && !Overdue(m, c, p.now);
      }
    }
  }

  lemma DoBorrowerKeeps(cfg: Config, m: Macro, r: nat, b: BorrowerId)
    requires Inv(m) && r in m.passes && m.passes[r].BorrowerSweep? && b in m.passes[r].borrowers
    requires !ReclaimHarms(m, r, b)
    ensures Inv(PassNext(cfg, m, DoBorrower(r, b)).value)
  {
    var p := m.passes[r];
    var reclaimed := ReclaimBorrower(m.store, b, p.borrowers[b], p.now);
    assert PassInv(m, p);
    BorrowerWrite(m, b, reclaimed);
    var m' := m.(store := SetBorrower(m.store, b, reclaimed));
    assert PassInv(m', p);
    PassesKeep(m', m.passes[r := p.(borrowers := p.borrowers - {b})]);
  }

  lemma FindBorrowersKeeps(m: Macro, p: Pass)
    requires Inv(m) && PassInv(m, p) && p.AgentSweep? && p.agents == map[]
    ensures PassInv(m, BorrowerSweep(p.now, ExpiredBorrowers(m.store, p.now), p.whole))
  {
  }

  lemma FindsKeep(cfg: Config, m: Macro, act: Action)
    requires (act.FindAgents? || act.FindBorrowers?) && Inv(m) && PassNext(cfg, m, act).Some?
    ensures Inv(PassNext(cfg, m, act).value)
  {
    var p := m.passes[act.r];
    assert PassInv(m, p);
    if act.FindAgents? {
      FindAgentsKeeps(m, p.now, act.picked);
      PassesKeep(m, m.passes[act.r := FoundAgents(m.store, p.now, act.picked)]);
    } else {
      FindBorrowersKeeps(m, p);
      PassesKeep(m, m.passes[act.r := BorrowerSweep(p.now, ExpiredBorrowers(m.store, p.now), p.whole)]);
    }
  }

  lemma PassStepKeeps(cfg: Config, m: Macro, act: Action)
    requires IsPassAction(act) && Inv(m) && PassNext(cfg, m, act).Some? && !Harms(m, act)
    ensures Inv(PassNext(cfg, m, act).value)
  {
    if act.FindAgents? || act.FindBorrowers? {
      FindsKeep(cfg, m, act);
    } else if act.DoAgent? {
      DoAgentKeeps(cfg, m, act.r, act.agent, act.n);
    } else if act.DoBorrower? {
      DoBorrowerKeeps(cfg, m, act.r, act.borrower);
    } else if act.BeginPass? {
      PassesKeep(m, m.passes[act.r := Started(m.clock)]);
    } else {
      PassesKeep(m, m.passes - {act.r});
    }
  }
}

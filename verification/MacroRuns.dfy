/** The binding theorems over whole macro runs: exactly when a binding survives, and what follows. */
module MacroRuns {
  import opened Wrappers
  import opened Enums
  import opened Documents
  import opened StoreOps
  import opened ProviderEvents
  import opened MacroProtocol
  import opened MacroSafety
  import opened MacroWrites
  import opened MacroSteps
  import opened MacroDial
  import opened MacroHarms
  import RecoveryItems
  import AgentSm
  import AgentRepo

  /** An agent's own transition, logging out of a claim or of an ended call included. */
  lemma SelfKeeps(m: Macro, a: AgentId, from: AgentState, to: AgentState, v: nat)
    requires Inv(m) && !LogoutHarms(m, a, from, to, v)
    ensures Inv(m.(store := SetAgent(m.store, a, TransitionAgent(m.store, a, from, to, AgentSm.AgentSelf, v, m.clock))))
  {
    if a in m.store.agents {
      AgentWrite(m, a, TransitionAgent(m.store, a, from, to, AgentSm.AgentSelf, v, m.clock));
    }
  }

  lemma HeartbeatKeeps(cfg: Config, m: Macro, slot: nat, n: nat)
    requires Inv(m) && slot in m.seen
    ensures Inv(m.(store := RecoveryItems.HeartbeatItem(cfg, m.store, m.seen[slot].0, m.seen[slot].1, m.clock, n)))
  {
    HeartbeatItemKeeps(cfg, m, m.seen[slot].0, m.seen[slot].1, n);
  }

  lemma OrphanStepKeeps(cfg: Config, m: Macro, c: CallId, target: CallState, n: nat)
    requires Inv(m) && (target.Failed? || target.Completed?) && !OrphanHarms(m, c, target, n)
    ensures Inv(m.(store := RecoveryItems.OrphanItem(cfg, m.store, c, target, m.clock, n)))
  {
    if TransitionCall(m.store, c, target, m.clock).Some? {
      OrphanItemKeeps(cfg, m, c, target, n);
    } else {
      OrphanShape(cfg, m, c, target, n);
      assert m.(store := m.store) == m;
    }
  }

  lemma OtherStepKeeps(cfg: Config, m: Macro, act: Action)
    requires act.Tick? || act.DoOrphan? || act.See? || act.DoWrapUp? || act.Self? || act.Beat?
    requires Inv(m) && Next(cfg, m, act).Some? && !Harms(m, act)
    ensures Inv(Next(cfg, m, act).value)
  {
    if act.DoOrphan? {
      OrphanStepKeeps(cfg, m, act.call, act.target, act.n);
    } else {
      SimpleStepKeeps(cfg, m, act);
    }
  }

  lemma BeatKeeps(m: Macro, a: AgentId)
    requires Inv(m) && a in m.store.agents
    ensures Inv(m.(store := SetAgent(m.store, a, Some(AgentRepo.Heartbeat(m.store.agents[a], m.clock)))))
  {
    NeutralWrite(m, SetAgent(m.store, a, Some(AgentRepo.Heartbeat(m.store.agents[a], m.clock))));
  }

  lemma WrapUpKeeps(m: Macro, a: AgentId, found: Agent, actor: AgentSm.Actor)
    requires Inv(m)
    ensures Inv(m.(store := RecoveryItems.WrapUpItem(m.store, a, found, actor, m.clock)))
  {
    UnengagedTransition(m, a, AgentState.WrapUp, AgentState.Available, actor, found.version, m.clock);
  }

  lemma AgentStepKeeps(cfg: Config, m: Macro, act: Action)
    requires act.DoWrapUp? || act.Self? || act.Beat?
    requires Inv(m) && Next(cfg, m, act).Some? && !Harms(m, act)
    ensures Inv(Next(cfg, m, act).value)
  {
    if act.Self? {
      SelfStepKeeps(cfg, m, act);
    } else if act.Beat? {
      BeatKeeps(m, act.agent);
    } else {
      WrapUpKeeps(m, act.agent, act.found, act.actor);
    }
  }

  lemma SelfStepKeeps(cfg: Config, m: Macro, act: Action)
    requires act.Self? && Inv(m) && !Harms(m, act)
    ensures Next(cfg, m, act).Some? && Inv(Next(cfg, m, act).value)
  {
    SelfKeeps(m, act.agent, act.from, act.to_state, act.version);
  }

  lemma SimpleStepKeeps(cfg: Config, m: Macro, act: Action)
    requires act.Tick? || act.See? || act.DoWrapUp? || act.Self? || act.Beat?
    requires Inv(m) && Next(cfg, m, act).Some? && !Harms(m, act)
    ensures Inv(Next(cfg, m, act).value)
  {
    if act.Tick? {
      ClockKeeps(m, act.to_);
    } else if act.See? {
      SeenKeeps(m, act.slot, act.agent);
    } else {
      AgentStepKeeps(cfg, m, act);
    }
  }

  lemma StepKeepsInv(cfg: Config, m: Macro, act: Action)
    requires Inv(m) && cfg.ttl >= 0 && Next(cfg, m, act).Some? && !Harms(m, act)
    ensures Inv(Next(cfg, m, act).value)
  {
    if act.Deliver? {
      DeliverKeeps(cfg, m, act.event, act.n);
    } else if act.DoHeartbeat? {
      HeartbeatKeeps(cfg, m, act.slot, act.n);
    } else if IsPassAction(act) {
      PassStepKeeps(cfg, m, act);
    } else if IsWorkerAction(act) {
      WorkerStepKeeps(cfg, m, act);
    } else {
      OtherStepKeeps(cfg, m, act);
    }
  }

  lemma StepOfTrace(cfg: Config, run: seq<Macro>, acts: seq<Action>, n: nat)
    requires IsTrace(cfg, run, acts) && n < |acts|
    ensures Next(cfg, run[n], acts[n]) == Some(run[n + 1])
  {
  }

  /** None of the first n steps is such an item. */
  ghost predicate Unharmed(run: seq<Macro>, acts: seq<Action>, n: nat)
    requires n <= |acts| < |run|
  {
    forall k | 0 <= k < n :: !Harms(run[k], acts[k])
  }

  lemma {:induction false} TraceKeepsInv(cfg: Config, run: seq<Macro>, acts: seq<Action>, n: nat)
    requires IsTrace(cfg, run, acts) && cfg.ttl >= 0 && n < |run| && Unharmed(run, acts, n)
    ensures Inv(run[n])
  {
    if n > 0 {
      TraceKeepsInv(cfg, run, acts, n - 1);
      StepOfTrace(cfg, run, acts, n - 1);
      StepKeepsInv(cfg, run[n - 1], acts[n - 1]);
    }
  }

  lemma {:induction false} FirstHarm(run: seq<Macro>, acts: seq<Action>, n: nat) returns (k: nat)
    requires n <= |acts| < |run| && !Unharmed(run, acts, n)
    ensures k < n && Harms(run[k], acts[k]) && Unharmed(run, acts, k)
  {
    if Unharmed(run, acts, n - 1) {
      k := n - 1;
    } else {
      k := FirstHarm(run, acts, n - 1);
    }
  }

  /** In every run, with crashes, cut writes and worker ids that go on after them, every live bound
      call keeps its parties throughout exactly when no orphan item frees a party that the ended
      call's creator holds for another live bound call. */
  lemma BindingsSurviveIff(cfg: Config, run: seq<Macro>, acts: seq<Action>)
    requires IsTrace(cfg, run, acts) && cfg.ttl >= 0
    ensures (forall n | 0 <= n < |run| :: Bindings(run[n])) <==> Unharmed(run, acts, |acts|)
  {
    if Unharmed(run, acts, |acts|) {
      forall n | 0 <= n < |run| ensures Bindings(run[n]) {
        TraceKeepsInv(cfg, run, acts, n);
      }
    } else {
      var k := FirstHarm(run, acts, |acts|);
      TraceKeepsInv(cfg, run, acts, k);
      StepOfTrace(cfg, run, acts, k);
      HarmBreaks(cfg, run[k], acts[k]);
    }
  }

  /** Every live bound call has its agent DIALING or CONNECTED on exactly this call, and its borrower
      RESERVED for it. */
  lemma BoundCallsOwnTheirParties(cfg: Config, run: seq<Macro>, acts: seq<Action>, n: nat, c: CallId)
    requires IsTrace(cfg, run, acts) && cfg.ttl >= 0 && n < |run| && Unharmed(run, acts, n) && LiveBound(run[n], c)
    ensures var s := run[n].store;
            var key := s.calls[c].key;
            && key.agent in s.agents && (s.agents[key.agent].state.Dialing? || s.agents[key.agent].state.Connected?)
            && s.agents[key.agent].currentCall == Some(c)
            && key.borrower in s.borrowers && s.borrowers[key.borrower].status.Reserved?
  {
    TraceKeepsInv(cfg, run, acts, n);
    assert Binding(run[n], c);
  }

  /** This call is the one its agent is on, as the store says it. */
  predicate IsCurrent(s: Store, c: CallId)
    requires c in s.calls
  {
    s.calls[c].key.agent in s.agents && s.agents[s.calls[c].key.agent].currentCall == Some(c)
  }

  /** Whether a live call was bound can be read from the store: it is its agent's current call. */
  lemma BoundIffCurrent(cfg: Config, run: seq<Macro>, acts: seq<Action>, n: nat, c: CallId)
    requires IsTrace(cfg, run, acts) && cfg.ttl >= 0 && n < |run| && Unharmed(run, acts, n) && IsLive(run[n].store, c)
    ensures c in run[n].binder <==> IsCurrent(run[n].store, c)
  {
    TraceKeepsInv(cfg, run, acts, n);
    if c in run[n].binder {
      assert Binding(run[n], c);
    }
  }

  /** No agent and no borrower is ever in two live bound calls. */
  lemma BindingIsExclusive(cfg: Config, run: seq<Macro>, acts: seq<Action>, n: nat, c: CallId, d: CallId)
    requires IsTrace(cfg, run, acts) && cfg.ttl >= 0 && n < |run| && Unharmed(run, acts, n)
    requires LiveBound(run[n], c) && LiveBound(run[n], d) && c != d
    ensures run[n].store.calls[c].key.agent != run[n].store.calls[d].key.agent
    ensures run[n].store.calls[c].key.borrower != run[n].store.calls[d].key.borrower
  {
    TraceKeepsInv(cfg, run, acts, n);
    OneCallPerAgent(run[n], c, d);
    OneCallPerBorrower(run[n], c, d);
  }

  /** A borrower a reclaim hands back for dialling: every binding survives exactly when it is in no
      live bound call, and after a whole first sweep it never is. */
  lemma ReclaimedBorrowersAreFree(cfg: Config, run: seq<Macro>, acts: seq<Action>, n: nat, b: BorrowerId)
    requires IsTrace(cfg, run, acts) && cfg.ttl >= 0 && n < |acts| && Unharmed(run, acts, n)
    requires acts[n].DoBorrower? && acts[n].borrower == b && run[n + 1].store.borrowers != run[n].store.borrowers
    ensures b in run[n + 1].store.borrowers && run[n + 1].store.borrowers[b].status.Pending?
    ensures Bindings(run[n + 1]) <==> FreeBorrower(run[n], b)
    ensures acts[n].r in run[n].passes && run[n].passes[acts[n].r].BorrowerSweep?
    ensures run[n].passes[acts[n].r].whole ==> FreeBorrower(run[n], b)
  {
    StepOfTrace(cfg, run, acts, n);
    TraceKeepsInv(cfg, run, acts, n);
    ReclaimKeepsIff(cfg, run[n], acts[n].r, b, run[n + 1]);
  }

  lemma ReclaimKeepsIff(cfg: Config, m: Macro, r: nat, b: BorrowerId, m': Macro)
    requires Inv(m) && cfg.ttl >= 0 && PassNext(cfg, m, DoBorrower(r, b)) == Some(m') && m'.store.borrowers != m.store.borrowers
    ensures b in m'.store.borrowers && m'.store.borrowers[b].status.Pending?
    ensures Bindings(m') <==> FreeBorrower(m, b)
    ensures r in m.passes && m.passes[r].BorrowerSweep? && (m.passes[r].whole ==> FreeBorrower(m, b))
  {
    assert ReclaimHarms(m, r, b) <==> !FreeBorrower(m, b);
    if ReclaimHarms(m, r, b) {
      HarmBreaks(cfg, m, DoBorrower(r, b));
    } else {
      DoBorrowerKeeps(cfg, m, r, b);
    }
    if m.passes[r].whole {
      WholePassReclaimsFree(m, r, b);
    }
  }

  // Counting

  predicate IsUsable(a: Agent) {
    !a.state.Offline? && !a.state.Paused?
  }

  lemma {:induction false} InjectionCounts(xs: set<CallId>, f: map<CallId, AgentId>, ys: set<AgentId>)
    requires forall x <- xs :: x in f && f[x] in ys
    requires forall x, y | x in xs && y in xs && f[x] == f[y] :: x == y
    ensures |xs| <= |ys|
  {
    if xs != {} {
      var x :| x in xs;
      InjectionCounts(xs - {x}, f, ys - {f[x]});
    }
  }

  ghost function BoundCalls(m: Macro): set<CallId> {
    set c <- m.store.calls | LiveBound(m, c)
  }

  ghost function UsableAgents(s: Store): set<AgentId> {
    set a <- s.agents | IsUsable(s.agents[a])
  }

  /** There are never more live bound calls than usable agents. */
  lemma BoundCallsFitTheAgents(cfg: Config, run: seq<Macro>, acts: seq<Action>, n: nat)
    requires IsTrace(cfg, run, acts) && cfg.ttl >= 0 && n < |run| && Unharmed(run, acts, n)
    ensures |BoundCalls(run[n])| <= |UsableAgents(run[n].store)|
  {
    var m := run[n];
    TraceKeepsInv(cfg, run, acts, n);
    var f := map c <- m.store.calls :: m.store.calls[c].key.agent;
    var bound := BoundCalls(m);
    forall c <- bound ensures f[c] in UsableAgents(m.store) {
      assert Binding(m, c);
    }
    forall c, d | c in bound && d in bound && f[c] == f[d] ensures c == d {
      OneCallPerAgent(m, c, d);
    }
    InjectionCounts(bound, f, UsableAgents(m.store));
  }
}

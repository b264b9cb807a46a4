/** Each step that harms a live bound call does break its binding. */
module MacroHarms {
  import opened Wrappers
  import opened Enums
  import opened Documents
  import opened StoreOps
  import opened MacroProtocol
  import opened MacroSafety
  import opened MacroWrites
  import opened MacroSteps
  import RecoveryItems
  import AgentSm

  // Orphan items: the rival call stays live, and its agent or its borrower is gone.

  /** The store after an orphan item. */
  ghost function Reconciled(cfg: Config, m: Macro, c: CallId, target: CallState, n: nat): Macro {
    m.(store := RecoveryItems.OrphanItem(cfg, m.store, c, target, m.clock, n))
  }

  lemma RivalStaysLive(cfg: Config, m: Macro, c: CallId, target: CallState, n: nat, d: CallId)
    requires LiveBound(m, d) && d != c
    ensures var m' := Reconciled(cfg, m, c, target, n); LiveBound(m', d) && m'.store.calls[d].key == m.store.calls[d].key
  {
    OrphanShape(cfg, m, c, target, n);
  }

  lemma AgentGoes(cfg: Config, m: Macro, c: CallId, target: CallState, n: nat)
    requires IsTerminal(target) && TransitionCall(m.store, c, target, m.clock).Some? && n >= 2
    requires var call := m.store.calls[c];
             call.key.agent in m.store.agents && HeldBy(m.store.agents[call.key.agent].lease, call.createdBy)
             && (m.store.agents[call.key.agent].state.Dialing? || m.store.agents[call.key.agent].state.Connected?)
    ensures var s := Reconciled(cfg, m, c, target, n).store; var a := m.store.calls[c].key.agent;
            a in s.agents && s.agents[a].state.Available?
  {
    OrphanShape(cfg, m, c, target, n);
  }

  lemma LostAgent(cfg: Config, m: Macro, c: CallId, target: CallState, n: nat)
    requires Inv(m) && IsTerminal(target) && TransitionCall(m.store, c, target, m.clock).Some? && n >= 2 && !SparesAgent(m, c)
    ensures !Bindings(Reconciled(cfg, m, c, target, n))
  {
    var call := m.store.calls[c];
    var d :| LiveBound(m, d) && d != c && m.binder[d] == call.createdBy && m.store.calls[d].key.agent == call.key.agent;
    assert Binding(m, d);
    AgentGoes(cfg, m, c, target, n);
    RivalStaysLive(cfg, m, c, target, n, d);
    assert !Binding(Reconciled(cfg, m, c, target, n), d);
  }

  lemma BorrowerGoes(cfg: Config, m: Macro, c: CallId, target: CallState, n: nat)
    requires IsTerminal(target) && TransitionCall(m.store, c, target, m.clock).Some? && n >= 3
    requires var call := m.store.calls[c];
             call.key.borrower in m.store.borrowers && Kept(m.store.borrowers[call.key.borrower], call.createdBy)
    ensures var s := Reconciled(cfg, m, c, target, n).store; var b := m.store.calls[c].key.borrower;
            b in s.borrowers && !s.borrowers[b].status.Reserved?
  {
    OrphanShape(cfg, m, c, target, n);
  }

  lemma LostBorrower(cfg: Config, m: Macro, c: CallId, target: CallState, n: nat)
    requires Inv(m) && IsTerminal(target) && TransitionCall(m.store, c, target, m.clock).Some? && n >= 3 && !SparesBorrower(m, c)
    ensures !Bindings(Reconciled(cfg, m, c, target, n))
  {
    var call := m.store.calls[c];
    var d :| LiveBound(m, d) && d != c && m.binder[d] == call.createdBy && m.store.calls[d].key.borrower == call.key.borrower;
    assert Binding(m, d);
    BorrowerGoes(cfg, m, c, target, n);
    RivalStaysLive(cfg, m, c, target, n, d);
    assert !Binding(Reconciled(cfg, m, c, target, n), d);
  }

  lemma OrphanBreaks(cfg: Config, m: Macro, c: CallId, target: CallState, n: nat)
    requires Inv(m) && OrphanHarms(m, c, target, n)
    ensures !Bindings(Reconciled(cfg, m, c, target, n))
  {
    if !SparesAgent(m, c) {
      LostAgent(cfg, m, c, target, n);
    } else {
      LostBorrower(cfg, m, c, target, n);
    }
  }

  // Reclaims, logouts and cancellations: the call itself loses a party.

  lemma ReclaimBreaks(cfg: Config, m: Macro, r: nat, b: BorrowerId)
    requires Inv(m) && ReclaimHarms(m, r, b)
    ensures var m' := m.(store := SetBorrower(m.store, b, ReclaimBorrower(m.store, b, m.passes[r].borrowers[b], m.passes[r].now)));
            !Bindings(m')
  {
    var m' := m.(store := SetBorrower(m.store, b, ReclaimBorrower(m.store, b, m.passes[r].borrowers[b], m.passes[r].now)));
    var c :| LiveBound(m, c) && m.store.calls[c].key.borrower == b;
    assert LiveBound(m', c) && !Binding(m', c);
  }

  /** Out of DIALING and CONNECTED an agent can only go OFFLINE by himself. */
  lemma LogoutIsOffline(m: Macro, a: AgentId, from: AgentState, to: AgentState, v: nat)
    requires from.Dialing? || from.Connected?
    ensures var r := TransitionAgent(m.store, a, from, to, AgentSm.AgentSelf, v, m.clock);
            r.Some? ==> r.value.state.Offline? && m.store.agents[a].state == from
  {
  }

  lemma LogoutBreaks(m: Macro, a: AgentId, from: AgentState, to: AgentState, v: nat)
    requires Inv(m) && LogoutHarms(m, a, from, to, v)
    ensures !Bindings(m.(store := SetAgent(m.store, a, TransitionAgent(m.store, a, from, to, AgentSm.AgentSelf, v, m.clock))))
  {
    var m' := m.(store := SetAgent(m.store, a, TransitionAgent(m.store, a, from, to, AgentSm.AgentSelf, v, m.clock)));
    var c :| LiveBound(m, c) && m.store.calls[c].key.agent == a;
    assert Binding(m, c);
    LogoutIsOffline(m, a, from, to, v);
    assert LiveBound(m', c) && !Binding(m', c);
  }

  lemma AbortBreaks(cfg: Config, m: Macro, w: WorkerId, n: nat, back: nat)
    requires Inv(m) && AbortHarms(m, w, n, back)
    ensures var d := m.waiting[w];
            !Bindings(Gone(m, w).(store := GiveBack(cfg, m.store, w, d.agent, d.borrower, m.clock, back)))
  {
    var d := m.waiting[w];
    var m' := Gone(m, w).(store := GiveBack(cfg, m.store, w, d.agent, d.borrower, m.clock, back));
    assert Binding(m, d.call) && WaiterInv(m, w, d);
    assert LiveBound(m', d.call);
    if back >= 2 {
      assert !m'.store.borrowers[d.borrower].status.Reserved?;
    } else {
      assert m'.store.agents[d.agent].state.Available?;
    }
    assert !Binding(m', d.call);
  }

  lemma ReclaimStepBreaks(cfg: Config, m: Macro, r: nat, b: BorrowerId)
    requires Inv(m) && ReclaimHarms(m, r, b)
    ensures PassNext(cfg, m, DoBorrower(r, b)).Some? && !Bindings(PassNext(cfg, m, DoBorrower(r, b)).value)
  {
    var m' := PassNext(cfg, m, DoBorrower(r, b)).value;
    ReclaimBreaks(cfg, m, r, b);
    StoreDecidesBindings(m.(store := m'.store), m');
  }

  lemma AbortStepBreaks(cfg: Config, m: Macro, w: WorkerId, n: nat, back: nat)
    requires Inv(m) && AbortHarms(m, w, n, back)
    ensures WorkerNext(cfg, m, Abort(w, n, back)).Some? && !Bindings(WorkerNext(cfg, m, Abort(w, n, back)).value)
  {
    AbortBreaks(cfg, m, w, n, back);
  }

  /** A harmful step leaves a live bound call without its agent or its borrower. */
  lemma HarmBreaks(cfg: Config, m: Macro, act: Action)
    requires Inv(m) && Harms(m, act) && Next(cfg, m, act).Some?
    ensures !Bindings(Next(cfg, m, act).value)
  {
    if act.DoOrphan? {
      OrphanBreaks(cfg, m, act.call, act.target, act.n);
    } else if act.DoBorrower? {
      ReclaimStepBreaks(cfg, m, act.r, act.borrower);
    } else if act.Self? {
      LogoutBreaks(m, act.agent, act.from, act.to_state, act.version);
    } else {
      AbortStepBreaks(cfg, m, act.w, act.n, act.back);
    }
  }

  lemma StoreDecidesBindings(m: Macro, m': Macro)
    requires m'.store == m.store && m'.binder == m.binder && m'.holder == m.holder
    ensures Bindings(m') ==> Bindings(m)
  {
    forall c | Bindings(m') && LiveBound(m, c) ensures Binding(m, c) {
      assert LiveBound(m', c) && Binding(m', c);
    }
  }
}

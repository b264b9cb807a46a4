/**
 * Exclusive binding. The invariant ties every live bound call to its agent and its borrower; one
 * lemma shows what a store write must leave alone to keep it, and one lemma per kind of write shows
 * that the write does.
 */
module MacroSafety {
  import opened Wrappers
  import opened Enums
  import opened Documents
  import opened MacroProtocol

  ghost predicate IsLive(s: Store, c: CallId) {
    c in s.calls && !IsTerminal(s.calls[c].state)
  }

  ghost predicate LiveBound(m: Macro, c: CallId) {
    IsLive(m.store, c) && c in m.binder
  }

  /** The agent is on this call, for whoever bound it. */
  ghost predicate OnCall(a: Agent, c: CallId, w: WorkerId) {
    (a.state.Dialing? || a.state.Connected?) && a.currentCall == Some(c) && HeldBy(a.lease, w)
  }

  ghost predicate Kept(b: Borrower, w: WorkerId) {
    b.status.Reserved? && HeldBy(b.lease, w)
  }

  ghost predicate Binding(m: Macro, c: CallId)
    requires c in m.store.calls && c in m.binder
  {
    var key := m.store.calls[c].key;
    && key.agent in m.store.agents && OnCall(m.store.agents[key.agent], c, m.binder[c])
    && m.store.agents[key.agent].campaign == key.campaign
    && key.borrower in m.store.borrowers && Kept(m.store.borrowers[key.borrower], m.binder[c])
    && key.borrower in m.holder && m.holder[key.borrower] == c
    && m.store.agents[key.agent].lease.value.expiresAt <= m.store.borrowers[key.borrower].lease.value.expiresAt
  }

  ghost predicate Bindings(m: Macro) {
    forall c | LiveBound(m, c) :: Binding(m, c)
  }

  /** Both unique indexes, and: nothing unbound is attached. */
  ghost predicate Indexes(m: Macro) {
    KeyIndex(m.store) && RefIndex(m) && Binders(m) && m.live <= m.used
  }

  ghost predicate KeyIndex(s: Store) {
    && (forall c <- s.calls :: s.calls[c].key in s.byKey && s.byKey[s.calls[c].key] == c)
    && (forall k <- s.byKey :: s.byKey[k] in s.calls && s.calls[s.byKey[k]].key == k)
  }

  ghost predicate RefIndex(m: Macro) {
    forall r <- m.store.byRef :: m.store.byRef[r] in m.store.calls && m.store.byRef[r] in m.binder
  }

  ghost predicate Binders(m: Macro) {
    forall c <- m.binder :: c in m.store.calls && m.binder[c] in m.used && !m.store.calls[c].state.Queued?
  }

  /** current_call_id only ever names a call that was bound to this very agent. */
  ghost predicate Currents(m: Macro) {
    forall a <- m.store.agents | m.store.agents[a].currentCall.Some? ::
      var c := m.store.agents[a].currentCall.value;
      c in m.binder && c in m.store.calls && m.store.calls[c].key.agent == a
  }

  /** No live bound call of worker w shares agent or borrower with the key, apart from call c. */
  ghost predicate NoRival(m: Macro, w: WorkerId, agent: AgentId, borrower: BorrowerId, c: CallId) {
    forall d | LiveBound(m, d) && d != c && m.binder[d] == w ::
      m.store.calls[d].key.agent != agent && m.store.calls[d].key.borrower != borrower
  }

  ghost predicate WaiterInv(m: Macro, w: WorkerId, d: OpenDial) {
    && w in m.live && d.call in m.binder && m.binder[d.call] == w && d.call in m.store.calls
    && m.store.calls[d.call].key.agent == d.agent && m.store.calls[d.call].key.borrower == d.borrower
    && NoRival(m, w, d.agent, d.borrower, d.call)
  }

  ghost predicate Waiters(m: Macro) {
    forall w <- m.waiting :: WaiterInv(m, w, m.waiting[w])
  }

  /** A document read earlier: while the version is still the same, so are state, call and lease. */
  ghost predicate StaleOf(s: Store, a: AgentId, seen: Agent) {
    && a in s.agents && seen.version <= s.agents[a].version
    && (seen.version == s.agents[a].version ==>
          seen.state == s.agents[a].state && seen.currentCall == s.agents[a].currentCall && seen.lease == s.agents[a].lease)
  }

  /** And the call it names was bound. */
  ghost predicate Sighting(m: Macro, a: AgentId, seen: Agent) {
    StaleOf(m.store, a, seen) && (seen.currentCall.Some? ==> seen.currentCall.value in m.binder)
  }

  ghost predicate Sightings(m: Macro) {
    forall i <- m.seen :: Sighting(m, m.seen[i].0, m.seen[i].1)
  }

  /** The live bound calls whose agent's lease ended before now. */
  ghost predicate Overdue(m: Macro, c: CallId, now: Time) {
    LiveBound(m, c) && m.store.calls[c].key.agent in m.store.agents
    && Expired(m.store.agents[m.store.calls[c].key.agent].lease, now)
  }

  /** While it is whole, the first sweep still has every overdue call ahead of it, and in the second
      there are none. */
  ghost predicate PassInv(m: Macro, p: Pass) {
    && p.now <= m.clock
    && match p
       case Started(_) => true
       case AgentSweep(now, todo, whole) =>
         && (forall a <- todo :: Sighting(m, a, todo[a]))
         && (whole ==> forall c | Overdue(m, c, now) ::
               m.store.calls[c].key.agent in todo && todo[m.store.calls[c].key.agent].currentCall == Some(c))
       case BorrowerSweep(now, _, whole) => whole ==> forall c :: !Overdue(m, c, now)
  }

  ghost predicate Passes(m: Macro) {
    forall r <- m.passes :: PassInv(m, m.passes[r])
  }

  ghost predicate Inv(m: Macro) {
    var documents := Indexes(m) && Bindings(m) && Currents(m);
    var actors := Waiters(m) && Sightings(m) && Passes(m);
    documents && actors
  }

  // What a write must leave alone

  ghost predicate CallsFrame(m: Macro, s: Store) {
    && s.calls.Keys == m.store.calls.Keys && s.byKey == m.store.byKey
    && (forall r <- s.byRef :: s.byRef[r] in s.calls && s.byRef[r] in m.binder)
    && (forall c <- s.calls ::
          && s.calls[c].key == m.store.calls[c].key && s.calls[c].createdBy == m.store.calls[c].createdBy
          && (IsTerminal(m.store.calls[c].state) ==> IsTerminal(s.calls[c].state))
          && (s.calls[c].state.Queued? ==> m.store.calls[c].state.Queued?))
  }

  ghost predicate AgentFrame(x: Agent, y: Agent) {
    && y.campaign == x.campaign
    && (y.currentCall == x.currentCall || y.currentCall.None?)
    && x.version <= y.version
    && (x.version == y.version ==> x.state == y.state && x.currentCall == y.currentCall && x.lease == y.lease)
  }

  ghost predicate AgentsFrame(m: Macro, s: Store) {
    s.agents.Keys == m.store.agents.Keys && forall a <- s.agents :: AgentFrame(m.store.agents[a], s.agents[a])
  }

  /** Calls still live and bound keep their agent on the call and their borrower reserved. */
  ghost predicate BindingsFrame(m: Macro, s: Store) {
    forall c | IsLive(s, c) && LiveBound(m, c) ::
      var key := m.store.calls[c].key;
      && (key.agent in m.store.agents && key.agent in s.agents && OnCall(m.store.agents[key.agent], c, m.binder[c]) ==>
            OnCall(s.agents[key.agent], c, m.binder[c]) && s.agents[key.agent].lease == m.store.agents[key.agent].lease)
      && (key.borrower in m.store.borrowers && Kept(m.store.borrowers[key.borrower], m.binder[c]) ==>
            key.borrower in s.borrowers && Kept(s.borrowers[key.borrower], m.binder[c])
            && s.borrowers[key.borrower].lease == m.store.borrowers[key.borrower].lease)
  }

  ghost predicate Frame(m: Macro, s: Store) {
    CallsFrame(m, s) && AgentsFrame(m, s) && BindingsFrame(m, s)
  }

  lemma FrameKeepsBindings(m: Macro, s: Store)
    requires Inv(m) && Frame(m, s)
    ensures Bindings(m.(store := s))
    ensures forall c | LiveBound(m.(store := s), c) :: LiveBound(m, c)
  {
    var m' := m.(store := s);
    forall c | LiveBound(m', c) ensures LiveBound(m, c) && Binding(m', c) {
      assert LiveBound(m, c);
      assert Binding(m, c);
    }
  }

  lemma FrameKeepsRest(m: Macro, s: Store)
    requires Inv(m) && Frame(m, s)
    ensures var m' := m.(store := s); Indexes(m') && Currents(m') && Sightings(m')
  {
    var m' := m.(store := s);
    forall a <- s.agents | s.agents[a].currentCall.Some?
      ensures var c := s.agents[a].currentCall.value; c in m.binder && c in s.calls && s.calls[c].key.agent == a
    {
      assert AgentFrame(m.store.agents[a], s.agents[a]);
    }
    forall i <- m.seen ensures Sighting(m', m.seen[i].0, m.seen[i].1) {
      FrameKeepsSighting(m, s, m.seen[i].0, m.seen[i].1);
    }
  }

  lemma FrameKeepsSighting(m: Macro, s: Store, a: AgentId, seen: Agent)
    requires AgentsFrame(m, s) && StaleOf(m.store, a, seen)
    ensures StaleOf(s, a, seen)
  {
    assert AgentFrame(m.store.agents[a], s.agents[a]);
  }

  lemma FrameKeepsOwners(m: Macro, s: Store)
    requires Inv(m) && Frame(m, s)
    ensures Waiters(m.(store := s))
  {
    var m' := m.(store := s);
    FrameKeepsBindings(m, s);
    forall w <- m.waiting
      ensures NoRival(m', w, m.waiting[w].agent, m.waiting[w].borrower, m.waiting[w].call)
    {
      assert NoRival(m, w, m.waiting[w].agent, m.waiting[w].borrower, m.waiting[w].call);
    }
  }

  lemma FrameKeepsPass(m: Macro, s: Store, p: Pass)
    requires Inv(m) && Frame(m, s) && PassInv(m, p)
    ensures PassInv(m.(store := s), p)
  {
    var m' := m.(store := s);
    FrameKeepsBindings(m, s);
    forall c | Overdue(m', c, p.now) ensures Overdue(m, c, p.now) {
      assert Binding(m, c);
    }
    if p.AgentSweep? {
      forall a <- p.agents ensures Sighting(m', a, p.agents[a]) {
        FrameKeepsSighting(m, s, a, p.agents[a]);
      }
    }
  }

  /** A framed write keeps the whole invariant. */
  lemma FrameKeepsInv(m: Macro, s: Store)
    requires Inv(m) && Frame(m, s)
    ensures Inv(m.(store := s))
  {
    FrameKeepsBindings(m, s);
    FrameKeepsRest(m, s);
    FrameKeepsOwners(m, s);
    forall r <- m.passes ensures PassInv(m.(store := s), m.passes[r]) {
      FrameKeepsPass(m, s, m.passes[r]);
    }
  }
}

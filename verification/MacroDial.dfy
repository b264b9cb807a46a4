/** The dialer worker's steps keep the binding invariant: reserve-to-bind, cut or whole, the
    give-back of a pair, and the provider's answer. */
module MacroDial {
  import opened Wrappers
  import opened Enums
  import opened Documents
  import opened StoreOps
  import opened MacroProtocol
  import opened MacroSafety
  import opened MacroWrites
  import opened MacroSteps
  import AgentSm
  import BorrowerRepo
  import CallRepo

  /** A new call touches no binding, and nobody is on a call with its parties yet. */
  lemma CreateWrite(m: Macro, key: Key, provider: Provider, w: WorkerId, id: CallId, now: Time)
    requires Inv(m) && id !in m.store.calls && FreeAgent(m, key.agent) && FreeBorrower(m, key.borrower)
    ensures var m' := m.(store := CallRepo.CreateCall(m.store, key, provider, w, id, now).0);
            Inv(m') && FreeAgent(m', key.agent) && FreeBorrower(m', key.borrower)
  {
    if key in m.store.byKey {
      assert m.(store := m.store) == m;
    } else {
      var m' := m.(store := CallRepo.CreateCall(m.store, key, provider, w, id, now).0);
      assert id !in m.binder;
      forall c | LiveBound(m', c) ensures LiveBound(m, c) && Binding(m', c) {
        assert Binding(m, c);
      }
      CreateKeepsRest(m, key, provider, w, id, now);
      CreateKeepsOwners(m, key, provider, w, id, now);
      forall r <- m.passes ensures PassInv(m', m.passes[r]) {
        CreateKeepsPass(m, key, provider, w, id, now, m.passes[r]);
      }
    }
  }

  lemma CreateKeepsRest(m: Macro, key: Key, provider: Provider, w: WorkerId, id: CallId, now: Time)
    requires Inv(m) && id !in m.store.calls && key !in m.store.byKey
    ensures var m' := m.(store := CallRepo.CreateCall(m.store, key, provider, w, id, now).0);
            Indexes(m') && Currents(m') && Sightings(m')
  {
  }

  lemma CreateKeepsOwners(m: Macro, key: Key, provider: Provider, w: WorkerId, id: CallId, now: Time)
    requires Inv(m) && id !in m.store.calls && key !in m.store.byKey
    ensures Waiters(m.(store := CallRepo.CreateCall(m.store, key, provider, w, id, now).0))
  {
    var m' := m.(store := CallRepo.CreateCall(m.store, key, provider, w, id, now).0);
    forall c | LiveBound(m', c) ensures LiveBound(m, c) && m'.store.calls[c] == m.store.calls[c] {}
    forall v <- m'.waiting ensures NoRival(m', v, m'.waiting[v].agent, m'.waiting[v].borrower, m'.waiting[v].call) {
      assert NoRival(m, v, m.waiting[v].agent, m.waiting[v].borrower, m.waiting[v].call);
    }
  }

  lemma CreateKeepsPass(m: Macro, key: Key, provider: Provider, w: WorkerId, id: CallId, now: Time, p: Pass)
    requires Inv(m) && id !in m.store.calls && key !in m.store.byKey && PassInv(m, p)
    ensures PassInv(m.(store := CallRepo.CreateCall(m.store, key, provider, w, id, now).0), p)
  {
    var m' := m.(store := CallRepo.CreateCall(m.store, key, provider, w, id, now).0);
    forall c | Overdue(m', c, p.now) ensures Overdue(m, c, p.now) && m'.store.calls[c] == m.store.calls[c] {}
  }

  /** Both claims of this order succeed, for a worker already written off. */
  ghost predicate Claims(cfg: Config, m: Macro, w: WorkerId, o: Order) {
    && w in m.used && w !in m.live
    && ReserveAgent(m.store, o.campaign, o.agent, w, cfg.ttl, m.clock).Some?
  }

  ghost predicate ClaimsBoth(cfg: Config, m: Macro, w: WorkerId, o: Order) {
    && Claims(cfg, m, w, o) && o.id !in m.store.calls
    && ReserveBorrower(m.store, o.campaign, o.borrower, w, cfg.ttl, o.later).Some?
  }

  ghost function At(cfg: Config, m: Macro, w: WorkerId, o: Order, n: nat): Macro {
    m.(store := DialWrites(cfg, m.store, w, o, m.clock, n))
  }

  lemma ClaimsKeep(cfg: Config, m: Macro, w: WorkerId, o: Order)
    requires Inv(m) && Claims(cfg, m, w, o)
    ensures Inv(At(cfg, m, w, o, 1)) && FreeAgent(At(cfg, m, w, o, 1), o.agent)
    ensures At(cfg, m, w, o, 1).store == SetAgent(m.store, o.agent, ReserveAgent(m.store, o.campaign, o.agent, w, cfg.ttl, m.clock))
    ensures Inv(At(cfg, m, w, o, 2)) && FreeAgent(At(cfg, m, w, o, 2), o.agent)
    ensures ReserveBorrower(m.store, o.campaign, o.borrower, w, cfg.ttl, o.later).Some? ==> FreeBorrower(At(cfg, m, w, o, 2), o.borrower)
  {
    assert DialWrites(cfg, m.store, w, o, m.clock, 0) == m.store;
    ClaimAgentWrite(m, o.campaign, o.agent, w, cfg.ttl, m.clock);
    var m1 := At(cfg, m, w, o, 1);
    SameCallsFree(m, m1.store, o.agent, o.borrower);
    ClaimBorrowerWrite(m1, o.campaign, o.borrower, w, cfg.ttl, o.later);
    SameCallsFree(m1, At(cfg, m, w, o, 2).store, o.agent, o.borrower);
  }

  lemma SameCallsFree(m: Macro, s: Store, a: AgentId, b: BorrowerId)
    requires s.calls == m.store.calls
    ensures FreeAgent(m, a) ==> FreeAgent(m.(store := s), a)
    ensures FreeBorrower(m, b) ==> FreeBorrower(m.(store := s), b)
  {
    forall c | LiveBound(m.(store := s), c) ensures LiveBound(m, c) {}
  }

  /** What the store looks like after both claims and the call's creation. */
  lemma CreationKeeps(cfg: Config, m: Macro, w: WorkerId, o: Order)
    requires Inv(m) && ClaimsBoth(cfg, m, w, o)
    ensures Inv(At(cfg, m, w, o, 3)) && FreeAgent(At(cfg, m, w, o, 3), o.agent) && FreeBorrower(At(cfg, m, w, o, 3), o.borrower)
    ensures At(cfg, m, w, o, 3).store
            == CallRepo.CreateCall(At(cfg, m, w, o, 2).store, KeyOf(m.store, o), o.provider, w, o.id, o.later).0
  {
    ClaimsKeep(cfg, m, w, o);
    CreateWrite(At(cfg, m, w, o, 2), KeyOf(m.store, o), o.provider, w, o.id, o.later);
  }

  lemma InitiationKeeps(cfg: Config, m: Macro, w: WorkerId, o: Order)
    requires Inv(m) && ClaimsBoth(cfg, m, w, o)
    ensures Inv(At(cfg, m, w, o, 4)) && Inv(At(cfg, m, w, o, 5))
  {
    CreationKeeps(cfg, m, w, o);
    CallWrite(At(cfg, m, w, o, 3), DialledCall(m.store, o), CallState.Reserved, o.later);
    CallWrite(At(cfg, m, w, o, 4), DialledCall(m.store, o), CallState.Initiated, o.later);
  }

  lemma DiallingKeeps(cfg: Config, m: Macro, w: WorkerId, o: Order)
    requires Inv(m) && ClaimsBoth(cfg, m, w, o)
    ensures Inv(At(cfg, m, w, o, 6))
  {
    InitiationKeeps(cfg, m, w, o);
    var m5 := At(cfg, m, w, o, 5);
    if o.agent in m5.store.agents {
      UnengagedTransition(m5, o.agent, AgentState.Reserved, AgentState.Dialing, AgentSm.Allocator,
                          m5.store.agents[o.agent].version, o.later);
    } else {
      assert At(cfg, m, w, o, 6) == m5;
    }
  }

  lemma PrefixKeeps(cfg: Config, m: Macro, w: WorkerId, o: Order, n: nat)
    requires Inv(m) && ClaimsBoth(cfg, m, w, o) && n <= 6
    ensures Inv(At(cfg, m, w, o, n))
  {
    if n == 0 {
      assert At(cfg, m, w, o, 0) == m;
    } else if n <= 2 {
      ClaimsKeep(cfg, m, w, o);
    } else if n == 3 {
      CreationKeeps(cfg, m, w, o);
    } else if n <= 5 {
      InitiationKeeps(cfg, m, w, o);
    } else {
      DiallingKeeps(cfg, m, w, o);
    }
  }

  lemma AfterClaims(cfg: Config, m: Macro, w: WorkerId, o: Order)
    requires ClaimsBoth(cfg, m, w, o)
    ensures var s := At(cfg, m, w, o, 2).store;
            && s.calls == m.store.calls && s.byKey == m.store.byKey
            && o.agent in s.agents && s.agents[o.agent].state.Reserved? && s.agents[o.agent].campaign == o.campaign
            && s.agents[o.agent].version == m.store.agents[o.agent].version + 1
            && s.agents[o.agent].lease == NewLease(w, cfg.ttl, m.clock)
            && o.borrower in s.borrowers && s.borrowers[o.borrower].status.Reserved?
            && s.borrowers[o.borrower].lease == NewLease(w, cfg.ttl, o.later)
  {
    assert DialWrites(cfg, m.store, w, o, m.clock, 0) == m.store;
    var s1 := At(cfg, m, w, o, 1).store;
    assert s1 == SetAgent(m.store, o.agent, ReserveAgent(m.store, o.campaign, o.agent, w, cfg.ttl, m.clock));
  }

  /** The call this order works on is fresh, or an older QUEUED one with the same key. */
  ghost predicate Dialable(s: Store, o: Order) {
    && o.id !in s.calls
    && (KeyOf(s, o) in s.byKey ==>
          var c := DialledCall(s, o); c in s.calls && s.calls[c].key == KeyOf(s, o) && s.calls[c].state.Queued?)
  }

  ghost predicate CallAt(s: Store, s': Store, o: Order, state: CallState) {
    var c := DialledCall(s, o);
    var dialled := c in s'.calls && s'.calls[c].state == state && s'.calls[c].key == KeyOf(s, o);
    var others := s'.calls.Keys == s.calls.Keys + {c} && forall d <- s.calls :: d != c ==> s'.calls[d] == s.calls[d];
    dialled && others
  }

  lemma AfterCreate(cfg: Config, m: Macro, w: WorkerId, o: Order)
    requires ClaimsBoth(cfg, m, w, o) && Dialable(m.store, o)
    ensures var s2, s := At(cfg, m, w, o, 2).store, At(cfg, m, w, o, 3).store;
            CallAt(m.store, s, o, CallState.Queued) && s.agents == s2.agents && s.borrowers == s2.borrowers
  {
    AfterClaims(cfg, m, w, o);
  }

  lemma AfterMark(cfg: Config, m: Macro, w: WorkerId, o: Order)
    requires ClaimsBoth(cfg, m, w, o) && Dialable(m.store, o)
    ensures var s2, s := At(cfg, m, w, o, 2).store, At(cfg, m, w, o, 4).store;
            CallAt(m.store, s, o, CallState.Reserved) && s.agents == s2.agents && s.borrowers == s2.borrowers
  {
    AfterCreate(cfg, m, w, o);
  }

  lemma AfterInitiate(cfg: Config, m: Macro, w: WorkerId, o: Order)
    requires ClaimsBoth(cfg, m, w, o) && Dialable(m.store, o)
    ensures var s2, s := At(cfg, m, w, o, 2).store, At(cfg, m, w, o, 5).store;
            CallAt(m.store, s, o, CallState.Initiated) && s.agents == s2.agents && s.borrowers == s2.borrowers
  {
    AfterMark(cfg, m, w, o);
  }

  /** The documents after six writes, spelled out. */
  ghost predicate IsReady(cfg: Config, m: Macro, w: WorkerId, o: Order, s: Store) {
    var dialing :=
      && o.agent in m.store.agents
      && o.agent in s.agents && s.agents[o.agent].state.Dialing? && s.agents[o.agent].campaign == o.campaign
      && s.agents[o.agent].lease == NewLease(w, cfg.ttl, m.clock)
      && s.agents[o.agent].version > m.store.agents[o.agent].version;
    var reserved :=
      && o.borrower in s.borrowers && s.borrowers[o.borrower].status.Reserved?
      && s.borrowers[o.borrower].lease == NewLease(w, cfg.ttl, o.later);
    CallAt(m.store, s, o, CallState.Initiated) && dialing && reserved
  }

  lemma ReadyToBind(cfg: Config, m: Macro, w: WorkerId, o: Order)
    requires ClaimsBoth(cfg, m, w, o) && Dialable(m.store, o)
    ensures IsReady(cfg, m, w, o, At(cfg, m, w, o, 6).store)
  {
    AfterClaims(cfg, m, w, o);
    AfterInitiate(cfg, m, w, o);
  }

  // The bind: worker w is alive again, and so is its new binding.

  ghost function Bound(cfg: Config, g: Macro, w: WorkerId, o: Order): Macro {
    var c := DialledCall(g.store, o);
    g.(store := DialWrites(cfg, g.store, w, o, g.clock, 7), clock := o.later, live := g.live + {w},
       waiting := g.waiting[w := OpenDial(o.agent, o.borrower, c)],
       binder := g.binder[c := w], holder := g.holder[o.borrower := c])
  }

  /** Before the bind, with nothing left to prove about the prefix. */
  ghost predicate Poised(cfg: Config, g: Macro, w: WorkerId, o: Order) {
    var g6 := At(cfg, g, w, o, 6);
    var c := DialledCall(g.store, o);
    var kept := Inv(g) && Inv(g6);
    var called := cfg.ttl >= 0 && o.later >= g.clock && w in g.used && w !in g.live && c !in g.binder;
    var ready := IsReady(cfg, g, w, o, g6.store) && FreeAgent(g, o.agent) && FreeBorrower(g, o.borrower);
    kept && called && ready
  }

  lemma BindStore(cfg: Config, g: Macro, w: WorkerId, o: Order)
    requires Poised(cfg, g, w, o)
    ensures var s6, s := At(cfg, g, w, o, 6).store, DialWrites(cfg, g.store, w, o, g.clock, 7);
            s == s6.(agents := s6.agents[o.agent := s6.agents[o.agent].(currentCall := Some(DialledCall(g.store, o)))])
  {
  }

  /** A bound call that is live afterwards is the new one, or was live and bound before. */
  lemma WhoIsBound(cfg: Config, g: Macro, w: WorkerId, o: Order, d: CallId)
    requires Poised(cfg, g, w, o) && LiveBound(Bound(cfg, g, w, o), d) && d != DialledCall(g.store, o)
    ensures LiveBound(g, d) && LiveBound(At(cfg, g, w, o, 6), d)
    ensures var m' := Bound(cfg, g, w, o);
            m'.store.calls[d] == g.store.calls[d] && m'.store.calls[d].key.agent != o.agent && m'.store.calls[d].key.borrower != o.borrower
  {
    BindStore(cfg, g, w, o);
  }

  lemma BindKeepsBindings(cfg: Config, g: Macro, w: WorkerId, o: Order)
    requires Poised(cfg, g, w, o)
    ensures Bindings(Bound(cfg, g, w, o))
  {
    var m' := Bound(cfg, g, w, o);
    BindStore(cfg, g, w, o);
    forall d | LiveBound(m', d) ensures Binding(m', d) {
      if d != DialledCall(g.store, o) {
        WhoIsBound(cfg, g, w, o, d);
        assert Binding(At(cfg, g, w, o, 6), d);
      }
    }
  }

  lemma BindKeepsKeyIndex(cfg: Config, g: Macro, w: WorkerId, o: Order)
    requires Poised(cfg, g, w, o)
    ensures KeyIndex(Bound(cfg, g, w, o).store)
  {
    BindStore(cfg, g, w, o);
    assert KeyIndex(At(cfg, g, w, o, 6).store);
  }

  lemma BindKeepsRefIndex(cfg: Config, g: Macro, w: WorkerId, o: Order)
    requires Poised(cfg, g, w, o)
    ensures RefIndex(Bound(cfg, g, w, o))
  {
    BindStore(cfg, g, w, o);
    assert RefIndex(At(cfg, g, w, o, 6));
  }

  lemma BindKeepsBinders(cfg: Config, g: Macro, w: WorkerId, o: Order)
    requires Poised(cfg, g, w, o)
    ensures Binders(Bound(cfg, g, w, o))
  {
    BindStore(cfg, g, w, o);
    assert Binders(At(cfg, g, w, o, 6));
  }

  lemma BindKeepsCurrents(cfg: Config, g: Macro, w: WorkerId, o: Order)
    requires Poised(cfg, g, w, o)
    ensures Currents(Bound(cfg, g, w, o))
  {
    BindStore(cfg, g, w, o);
  }

  lemma BindKeepsSightings(cfg: Config, g: Macro, w: WorkerId, o: Order)
    requires Poised(cfg, g, w, o)
    ensures Sightings(Bound(cfg, g, w, o))
  {
    var m' := Bound(cfg, g, w, o);
    BindStore(cfg, g, w, o);
    forall i <- m'.seen ensures Sighting(m', m'.seen[i].0, m'.seen[i].1) {
      BindKeepsSighting(cfg, g, w, o, g.seen[i].0, g.seen[i].1);
    }
  }

  /** The claim raised the version, so no earlier sighting can miss the bind. */
  lemma BindKeepsSighting(cfg: Config, g: Macro, w: WorkerId, o: Order, a: AgentId, seen: Agent)
    requires Poised(cfg, g, w, o) && Sighting(g, a, seen) && Sighting(At(cfg, g, w, o, 6), a, seen)
    ensures Sighting(Bound(cfg, g, w, o), a, seen)
  {
    BindStore(cfg, g, w, o);
  }

  lemma BindKeepsWaiters(cfg: Config, g: Macro, w: WorkerId, o: Order)
    requires Poised(cfg, g, w, o)
    ensures Waiters(Bound(cfg, g, w, o))
  {
    var m' := Bound(cfg, g, w, o);
    BindStore(cfg, g, w, o);
    BinderHasNoRival(cfg, g, w, o);
    forall v <- m'.waiting ensures WaiterInv(m', v, m'.waiting[v]) {
      if v != w {
        WaiterAfterBind(cfg, g, w, o, v);
      }
    }
  }

  lemma WaiterAfterBind(cfg: Config, g: Macro, w: WorkerId, o: Order, v: WorkerId)
    requires Poised(cfg, g, w, o) && v in g.waiting && v != w
    ensures WaiterInv(Bound(cfg, g, w, o), v, g.waiting[v])
  {
    assert WaiterInv(g, v, g.waiting[v]);
    BindStore(cfg, g, w, o);
    NoRivalAfterBind(cfg, g, w, o, v, g.waiting[v].agent, g.waiting[v].borrower, g.waiting[v].call);
  }

  lemma BinderHasNoRival(cfg: Config, g: Macro, w: WorkerId, o: Order)
    requires Poised(cfg, g, w, o)
    ensures NoRival(Bound(cfg, g, w, o), w, o.agent, o.borrower, DialledCall(g.store, o))
  {
    var m' := Bound(cfg, g, w, o);
    forall d | LiveBound(m', d) && d != DialledCall(g.store, o)
      ensures m'.store.calls[d].key.agent != o.agent && m'.store.calls[d].key.borrower != o.borrower
    {
      WhoIsBound(cfg, g, w, o, d);
    }
  }

  lemma NoRivalAfterBind(cfg: Config, g: Macro, w: WorkerId, o: Order, v: WorkerId, a: AgentId, b: BorrowerId, c: CallId)
    requires Poised(cfg, g, w, o) && v != w && NoRival(g, v, a, b, c)
    ensures NoRival(Bound(cfg, g, w, o), v, a, b, c)
  {
    var m' := Bound(cfg, g, w, o);
    forall d | LiveBound(m', d) && d != c && m'.binder[d] == v
      ensures m'.store.calls[d].key.agent != a && m'.store.calls[d].key.borrower != b
    {
      WhoIsBound(cfg, g, w, o, d);
    }
  }

  /** The new lease ends after every running pass began, so no pass is behind on this call. */
  lemma BindKeepsPass(cfg: Config, g: Macro, w: WorkerId, o: Order, p: Pass)
    requires Poised(cfg, g, w, o) && PassInv(g, p) && PassInv(At(cfg, g, w, o, 6), p)
    ensures PassInv(Bound(cfg, g, w, o), p)
  {
    var m' := Bound(cfg, g, w, o);
    BindStore(cfg, g, w, o);
    forall c | Overdue(m', c, p.now) ensures Overdue(At(cfg, g, w, o, 6), c, p.now) && m'.store.calls[c] == At(cfg, g, w, o, 6).store.calls[c] {
      if c != DialledCall(g.store, o) {
        WhoIsBound(cfg, g, w, o, c);
      }
    }
    if p.AgentSweep? {
      BindKeepsAgentSweep(cfg, g, w, o, p);
    }
  }

  lemma BindKeepsAgentSweep(cfg: Config, g: Macro, w: WorkerId, o: Order, p: Pass)
    requires Poised(cfg, g, w, o) && p.AgentSweep? && PassInv(g, p) && PassInv(At(cfg, g, w, o, 6), p)
    ensures forall a <- p.agents :: Sighting(Bound(cfg, g, w, o), a, p.agents[a])
  {
    forall a <- p.agents ensures Sighting(Bound(cfg, g, w, o), a, p.agents[a]) {
      BindKeepsSighting(cfg, g, w, o, a, p.agents[a]);
    }
  }

  lemma BindKeeps(cfg: Config, g: Macro, w: WorkerId, o: Order)
    requires Poised(cfg, g, w, o)
    ensures Inv(Bound(cfg, g, w, o))
  {
    BindKeepsBindings(cfg, g, w, o);
    BindKeepsKeyIndex(cfg, g, w, o);
    BindKeepsRefIndex(cfg, g, w, o);
    BindKeepsBinders(cfg, g, w, o);
    BindKeepsCurrents(cfg, g, w, o);
    BindKeepsSightings(cfg, g, w, o);
    BindKeepsWaiters(cfg, g, w, o);
    forall r <- g.passes ensures PassInv(Bound(cfg, g, w, o), g.passes[r]) {
      BindKeepsPass(cfg, g, w, o, g.passes[r]);
    }
  }

  lemma DialIsBound(cfg: Config, m: Macro, w: WorkerId, o: Order)
    requires CanDial(cfg, m, w, o)
    ensures WorkerNext(cfg, m, Dial(w, o)) == Some(Bound(cfg, Gone(m, w), w, o))
  {
    assert m.waiting - {w} == m.waiting;
    assert m.live - {w} + {w} == m.live;
  }

  lemma DialledIsUnbound(m: Macro, o: Order)
    requires Inv(m) && Dialable(m.store, o)
    ensures DialledCall(m.store, o) !in m.binder
  {
  }

  lemma CanDialIsDialable(cfg: Config, m: Macro, w: WorkerId, o: Order)
    requires Inv(m) && CanDial(cfg, m, w, o)
    ensures Dialable(m.store, o) && ClaimsBoth(cfg, Gone(m, w), w, o)
  {
  }

  lemma DialIsPoised(cfg: Config, m: Macro, w: WorkerId, o: Order)
    requires Inv(m) && CanDial(cfg, m, w, o) && cfg.ttl >= 0
    ensures Poised(cfg, Gone(m, w), w, o)
  {
    var g := Gone(m, w);
    GoneKeeps(m, w);
    CanDialIsDialable(cfg, m, w, o);
    PrefixKeeps(cfg, g, w, o, 6);
    ReadyToBind(cfg, g, w, o);
    ClaimsAreFree(cfg, g, w, o);
    DialledIsUnbound(g, o);
  }

  lemma ClaimsAreFree(cfg: Config, m: Macro, w: WorkerId, o: Order)
    requires Inv(m) && ClaimsBoth(cfg, m, w, o)
    ensures FreeAgent(m, o.agent) && FreeBorrower(m, o.borrower)
  {
    ClaimAgentWrite(m, o.campaign, o.agent, w, cfg.ttl, m.clock);
    ClaimBorrowerWrite(m, o.campaign, o.borrower, w, cfg.ttl, o.later);
  }

  lemma DialKeeps(cfg: Config, m: Macro, w: WorkerId, o: Order)
    requires Inv(m) && CanDial(cfg, m, w, o) && cfg.ttl >= 0
    ensures Inv(WorkerNext(cfg, m, Dial(w, o)).value)
  {
    DialIsPoised(cfg, m, w, o);
    DialIsBound(cfg, m, w, o);
    BindKeeps(cfg, Gone(m, w), w, o);
  }

  /** Ending or advancing a call puts nobody on one. */
  lemma CallWriteFrees(m: Macro, c: CallId, target: CallState, now: Time, a: AgentId, b: BorrowerId)
    requires FreeAgent(m, a) && FreeBorrower(m, b)
    ensures var m' := m.(store := SetCall(m.store, c, TransitionCall(m.store, c, target, now)));
            FreeAgent(m', a) && FreeBorrower(m', b)
  {
    var m' := m.(store := SetCall(m.store, c, TransitionCall(m.store, c, target, now)));
    forall d | LiveBound(m', d) ensures LiveBound(m, d) && m'.store.calls[d].key == m.store.calls[d].key {}
  }

  /** Until the bind nobody is on a live bound call with the claimed pair. */
  lemma PrefixIsFree(cfg: Config, m: Macro, w: WorkerId, o: Order, n: nat)
    requires Inv(m) && ClaimsBoth(cfg, m, w, o) && 2 <= n <= 6
    ensures FreeAgent(At(cfg, m, w, o, n), o.agent) && FreeBorrower(At(cfg, m, w, o, n), o.borrower)
    decreases n
  {
    if n == 2 {
      ClaimsKeep(cfg, m, w, o);
    } else if n == 3 {
      CreationKeeps(cfg, m, w, o);
    } else {
      PrefixIsFree(cfg, m, w, o, n - 1);
      var p := At(cfg, m, w, o, n - 1);
      if n == 4 {
        CallWriteFrees(p, DialledCall(m.store, o), CallState.Reserved, o.later, o.agent, o.borrower);
      } else if n == 5 {
        CallWriteFrees(p, DialledCall(m.store, o), CallState.Initiated, o.later, o.agent, o.borrower);
      } else {
        SameCallsFree(p, At(cfg, m, w, o, n).store, o.agent, o.borrower);
      }
    }
  }

  /** The store of a dial cut after n writes, with the first writes of its compensation. */
  ghost function CutStore(cfg: Config, m: Macro, w: WorkerId, o: Order, n: nat, back: nat): Store {
    GiveBack(cfg, DialWrites(cfg, m.store, w, o, m.clock, n), w, o.agent, o.borrower, o.later, back)
  }

  lemma CutStoreKeeps(cfg: Config, m: Macro, w: WorkerId, o: Order, n: nat, back: nat)
    requires Inv(m) && ClaimsBoth(cfg, m, w, o) && n <= 6 && (back > 0 ==> n >= 2)
    ensures Inv(m.(store := CutStore(cfg, m, w, o, n, back)))
  {
    PrefixKeeps(cfg, m, w, o, n);
    if back > 0 {
      PrefixIsFree(cfg, m, w, o, n);
      GiveBackKeeps(cfg, At(cfg, m, w, o, n), w, o.agent, o.borrower, o.later, back);
    }
  }

  lemma CutDialKeeps(cfg: Config, m: Macro, w: WorkerId, o: Order, n: nat, back: nat)
    requires Inv(m) && WorkerNext(cfg, m, CutDial(w, o, n, back)).Some?
    ensures Inv(WorkerNext(cfg, m, CutDial(w, o, n, back)).value)
  {
    var g := Gone(m, w);
    GoneKeeps(m, w);
    CanDialIsDialable(cfg, m, w, o);
    CutStoreKeeps(cfg, g, w, o, n, back);
    var cut := g.(store := CutStore(cfg, g, w, o, n, back));
    ClockKeeps(cut, o.later);
    CutsAreHistory(cut.(clock := o.later), m.cuts + 1);
    CutDialIs(cfg, m, w, o, n, back);
  }

  lemma CutDialIs(cfg: Config, m: Macro, w: WorkerId, o: Order, n: nat, back: nat)
    requires WorkerNext(cfg, m, CutDial(w, o, n, back)).Some?
    ensures CanDial(cfg, m, w, o) && n < 7 && (back > 0 ==> n >= 2)
    ensures WorkerNext(cfg, m, CutDial(w, o, n, back))
            == Some(Gone(m, w).(store := CutStore(cfg, m, w, o, n, back), clock := o.later, cuts := m.cuts + 1))
  {
  }

  lemma CutsAreHistory(m: Macro, cuts: nat)
    requires Inv(m)
    ensures Inv(m.(cuts := cuts))
  {
    var m' := m.(cuts := cuts);
    forall c | LiveBound(m', c) ensures Binding(m', c) { assert Binding(m, c); }
    OwnersKept(m, m');
    forall r <- m.passes ensures PassInv(m', m.passes[r]) { PassKept(m, m', m.passes[r]); }
  }

  lemma BackOffWritesKeep(cfg: Config, m: Macro, w: WorkerId, o: Order, n: nat)
    requires Inv(m) && Claims(cfg, m, w, o)
    ensures Inv(m.(store := BackOffWrites(cfg, m.store, w, o, m.clock, n)))
    ensures BackOffWrites(cfg, m.store, w, o, m.clock, n).calls == m.store.calls
  {
    BackOffShape(cfg, m, w, o, n);
    if n == 0 {
    } else if n <= 2 {
      ClaimsKeep(cfg, m, w, o);
    } else {
      BackOffAgentKeeps(cfg, m, w, o);
      if n > 3 {
        BackOffBorrowerKeeps(cfg, m, w, o);
      }
    }
  }

  lemma BackOffShape(cfg: Config, m: Macro, w: WorkerId, o: Order, n: nat)
    ensures BackOffWrites(cfg, m.store, w, o, m.clock, n).calls == m.store.calls
    ensures n == 0 ==> m.(store := BackOffWrites(cfg, m.store, w, o, m.clock, n)) == m
    ensures 0 < n <= 2 ==> m.(store := BackOffWrites(cfg, m.store, w, o, m.clock, n)) == At(cfg, m, w, o, n)
    ensures n > 3 ==> BackOffWrites(cfg, m.store, w, o, m.clock, n) == BackOffWrites(cfg, m.store, w, o, m.clock, 4)
  {
    SameCallsAfterClaims(cfg, m, w, o);
    assert DialWrites(cfg, m.store, w, o, m.clock, 0) == m.store;
  }

  lemma BackOffAgentKeeps(cfg: Config, m: Macro, w: WorkerId, o: Order)
    requires Inv(m) && Claims(cfg, m, w, o)
    ensures Inv(m.(store := BackOffWrites(cfg, m.store, w, o, m.clock, 3)))
  {
    var m2 := At(cfg, m, w, o, 2);
    ClaimsKeep(cfg, m, w, o);
    assert NotHisAgent(m2, o.agent, w);
    ReleaseAgentWrite(m2, o.agent, w, AgentState.Available, AgentSm.Allocator, o.later);
  }

  lemma SameCallsAfterClaims(cfg: Config, m: Macro, w: WorkerId, o: Order)
    ensures At(cfg, m, w, o, 1).store.calls == m.store.calls && At(cfg, m, w, o, 2).store.calls == m.store.calls
  {
    assert DialWrites(cfg, m.store, w, o, m.clock, 0) == m.store;
    assert At(cfg, m, w, o, 1).store.calls == m.store.calls;
  }

  lemma BackOffBorrowerIsFree(cfg: Config, m: Macro, w: WorkerId, o: Order)
    requires Inv(m) && Claims(cfg, m, w, o) && ReserveBorrower(m.store, o.campaign, o.borrower, w, cfg.ttl, o.later).Some?
    ensures NotHisBorrower(m.(store := BackOffWrites(cfg, m.store, w, o, m.clock, 3)), o.borrower, w)
  {
    ClaimsKeep(cfg, m, w, o);
    SameCallsFree(At(cfg, m, w, o, 2), BackOffWrites(cfg, m.store, w, o, m.clock, 3), o.agent, o.borrower);
  }

  lemma BackOffBorrowerKeeps(cfg: Config, m: Macro, w: WorkerId, o: Order)
    requires Inv(m) && Claims(cfg, m, w, o)
    requires Inv(m.(store := BackOffWrites(cfg, m.store, w, o, m.clock, 3)))
    ensures Inv(m.(store := BackOffWrites(cfg, m.store, w, o, m.clock, 4)))
  {
    var m3 := m.(store := BackOffWrites(cfg, m.store, w, o, m.clock, 3));
    if ReserveBorrower(m.store, o.campaign, o.borrower, w, cfg.ttl, o.later).Some? {
      BackOffBorrowerIsFree(cfg, m, w, o);
      ReleaseBorrowerWrite(cfg, m3, o.borrower, w, BorrowerRepo.Released, o.later);
    }
  }

  ghost function GaveBack(cfg: Config, m: Macro, w: WorkerId, o: Order, n: nat): Macro {
    Gone(m, w).(store := BackOffWrites(cfg, m.store, w, o, m.clock, n), clock := o.later)
  }

  lemma GaveBackKeeps(cfg: Config, m: Macro, w: WorkerId, o: Order, n: nat)
    requires Inv(m) && WorkerNext(cfg, m, BackOff(w, o, n)).Some?
    ensures Inv(GaveBack(cfg, m, w, o, n)) && GaveBack(cfg, m, w, o, n).store.calls == m.store.calls
  {
    var g := Gone(m, w);
    GoneKeeps(m, w);
    BackOffWritesKeep(cfg, g, w, o, n);
    ClockKeeps(g.(store := BackOffWrites(cfg, m.store, w, o, m.clock, n)), o.later);
  }

  lemma BackOffIsGaveBack(cfg: Config, m: Macro, w: WorkerId, o: Order, n: nat)
    requires WorkerNext(cfg, m, BackOff(w, o, n)).Some?
    ensures var g := GaveBack(cfg, m, w, o, n);
            WorkerNext(cfg, m, BackOff(w, o, n)).value == if n >= 4 then g.(live := g.live + {w}) else g
  {
    assert m.waiting - {w} == m.waiting;
    assert m.live - {w} + {w} == m.live;
  }

  lemma BackOffKeeps(cfg: Config, m: Macro, w: WorkerId, o: Order, n: nat)
    requires Inv(m) && WorkerNext(cfg, m, BackOff(w, o, n)).Some?
    ensures Inv(WorkerNext(cfg, m, BackOff(w, o, n)).value)
  {
    var g := GaveBack(cfg, m, w, o, n);
    GaveBackKeeps(cfg, m, w, o, n);
    BackOffIsGaveBack(cfg, m, w, o, n);
    if n >= 4 {
      assert w in g.used;
      ResumeKeeps(g, w);
    }
  }

  /** Whoever this waiting worker could release is its own, and its call has ended. */
  lemma RefusedCallWrite(m: Macro, w: WorkerId)
    requires Inv(m) && w in m.waiting
    ensures var d := m.waiting[w];
            var m1 := m.(store := SetCall(m.store, d.call, TransitionCall(m.store, d.call, CallState.Failed, m.clock)));
            Inv(m1) && NotHisAgent(m1, d.agent, w) && NotHisBorrower(m1, d.borrower, w)
  {
    var d := m.waiting[w];
    var m1 := m.(store := SetCall(m.store, d.call, TransitionCall(m.store, d.call, CallState.Failed, m.clock)));
    CallWrite(m, d.call, CallState.Failed, m.clock);
    EndedCallIsNotLive(m.store, d.call, CallState.Failed, m.clock);
    assert NoRival(m1, w, d.agent, d.borrower, d.call) by { assert w in m1.waiting; }
  }

  lemma RefusedAgentWrite(m: Macro, w: WorkerId)
    requires Inv(m) && w in m.waiting
    ensures var d := m.waiting[w];
            var s1 := SetCall(m.store, d.call, TransitionCall(m.store, d.call, CallState.Failed, m.clock));
            var m2 := m.(store := SetAgent(s1, d.agent, ReleaseAgent(s1, d.agent, w, AgentState.Available, AgentSm.Allocator, m.clock)));
            Inv(m2) && NotHisBorrower(m2, d.borrower, w)
  {
    var d := m.waiting[w];
    var m1 := m.(store := SetCall(m.store, d.call, TransitionCall(m.store, d.call, CallState.Failed, m.clock)));
    RefusedCallWrite(m, w);
    var r := ReleaseAgent(m1.store, d.agent, w, AgentState.Available, AgentSm.Allocator, m.clock);
    ReleaseAgentWrite(m1, d.agent, w, AgentState.Available, AgentSm.Allocator, m.clock);
    SameCallsSameRivals(m1, SetAgent(m1.store, d.agent, r), d.borrower, w);
    assert m1.(store := SetAgent(m1.store, d.agent, r)) == m.(store := SetAgent(m1.store, d.agent, r));
  }

  lemma RefusedPrefix(cfg: Config, s: Store, w: WorkerId, d: OpenDial, now: Time, n: nat)
    ensures var s1 := SetCall(s, d.call, TransitionCall(s, d.call, CallState.Failed, now));
            var s2 := SetAgent(s1, d.agent, ReleaseAgent(s1, d.agent, w, AgentState.Available, AgentSm.Allocator, now));
            RefusedWrites(cfg, s, w, d, now, n)
            == if n == 0 then s else if n == 1 then s1 else if n == 2 then s2
               else SetBorrower(s2, d.borrower, ReleaseBorrower(s2, d.borrower, w, BorrowerRepo.Retry, cfg, now))
  {
  }

  lemma RefusedWritesKeep(cfg: Config, m: Macro, w: WorkerId, n: nat)
    requires Inv(m) && w in m.waiting
    ensures Inv(m.(store := RefusedWrites(cfg, m.store, w, m.waiting[w], m.clock, n)))
  {
    var d := m.waiting[w];
    RefusedPrefix(cfg, m.store, w, d, m.clock, n);
    var s' := RefusedWrites(cfg, m.store, w, d, m.clock, n);
    if n == 0 {
      assert m.(store := s') == m;
    } else if n == 1 {
      RefusedCallWrite(m, w);
    } else {
      var s2 := RefusedWrites(cfg, m.store, w, d, m.clock, 2);
      RefusedPrefix(cfg, m.store, w, d, m.clock, 2);
      RefusedAgentWrite(m, w);
      if n > 2 {
        ReleaseBorrowerWrite(cfg, m.(store := s2), d.borrower, w, BorrowerRepo.Retry, m.clock);
        assert m.(store := s2).(store := s') == m.(store := s');
      }
    }
  }

  lemma RefusedKeeps(cfg: Config, m: Macro, w: WorkerId, n: nat)
    requires Inv(m) && w in m.waiting
    ensures Inv(WorkerNext(cfg, m, Refused(w, n)).value)
  {
    var m1 := m.(store := RefusedWrites(cfg, m.store, w, m.waiting[w], m.clock, n));
    RefusedWritesKeep(cfg, m, w, n);
    AnsweredKeeps(m1, w);
    GoneKeeps(m1.(waiting := m1.waiting - {w}), w);
  }

  /** Once the call has ended, the worker's releases hit nobody. */
  lemma EndedWaiterFrees(m: Macro, w: WorkerId)
    requires Inv(m) && w in m.waiting && !LiveBound(m, m.waiting[w].call)
    ensures NotHisAgent(m, m.waiting[w].agent, w) && NotHisBorrower(m, m.waiting[w].borrower, w)
  {
    assert WaiterInv(m, w, m.waiting[w]);
  }

  lemma RefusedCallEnds(cfg: Config, m: Macro, w: WorkerId, n: nat)
    requires Inv(m) && w in m.waiting && n > 0
    ensures !IsLive(RefusedWrites(cfg, m.store, w, m.waiting[w], m.clock, n), m.waiting[w].call)
  {
    RefusedPrefix(cfg, m.store, w, m.waiting[w], m.clock, n);
    EndedCallIsNotLive(m.store, m.waiting[w].call, CallState.Failed, m.clock);
  }

  lemma AbortWritesKeep(cfg: Config, m: Macro, w: WorkerId, n: nat, back: nat)
    requires Inv(m) && w in m.waiting && !AbortHarms(m, w, n, back)
    ensures var d := m.waiting[w];
            var s := RefusedWrites(cfg, m.store, w, d, m.clock, n);
            Inv(m.(store := GiveBack(cfg, s, w, d.agent, d.borrower, m.clock, back)))
  {
    var d := m.waiting[w];
    var m1 := m.(store := RefusedWrites(cfg, m.store, w, d, m.clock, n));
    RefusedWritesKeep(cfg, m, w, n);
    if n > 0 {
      RefusedCallEnds(cfg, m, w, n);
    } else {
      assert m1 == m;
    }
    if !LiveBound(m1, d.call) {
      EndedWaiterFrees(m1, w);
      GiveBackKeeps(cfg, m1, w, d.agent, d.borrower, m.clock, back);
    } else {
      NothingGivenBack(cfg, m, w, back);
    }
  }

  /** A compensation that harms no live call has written nothing. */
  lemma NothingGivenBack(cfg: Config, m: Macro, w: WorkerId, back: nat)
    requires w in m.waiting && LiveBound(m, m.waiting[w].call) && !AbortHarms(m, w, 0, back)
    ensures m.(store := GiveBack(cfg, m.store, w, m.waiting[w].agent, m.waiting[w].borrower, m.clock, back)) == m
  {
  }

  lemma AbortKeeps(cfg: Config, m: Macro, w: WorkerId, n: nat, back: nat)
    requires Inv(m) && WorkerNext(cfg, m, Abort(w, n, back)).Some? && !AbortHarms(m, w, n, back)
    ensures Inv(WorkerNext(cfg, m, Abort(w, n, back)).value)
  {
    var d := m.waiting[w];
    AbortWritesKeep(cfg, m, w, n, back);
    GoneKeeps(m.(store := GiveBack(cfg, RefusedWrites(cfg, m.store, w, d, m.clock, n), w, d.agent, d.borrower, m.clock, back)), w);
  }

  lemma AcceptedKeeps(cfg: Config, m: Macro, w: WorkerId, pid: nat)
    requires Inv(m) && WorkerNext(cfg, m, Accepted(w, pid)).Some?
    ensures Inv(WorkerNext(cfg, m, Accepted(w, pid)).value)
  {
    AttachWrite(m, m.waiting[w].call, pid, m.clock);
    AnsweredKeeps(m.(store := CallRepo.Attach(m.store, m.waiting[w].call, pid, m.clock)), w);
  }

  lemma WorkerStepKeeps(cfg: Config, m: Macro, act: Action)
    requires IsWorkerAction(act) && Inv(m) && cfg.ttl >= 0 && WorkerNext(cfg, m, act).Some? && !Harms(m, act)
    ensures Inv(WorkerNext(cfg, m, act).value)
  {
    match act
    case Join(w) => JoinKeeps(m, w);
    case Crash(w) => GoneKeeps(m, w);
    case Resume(w) => ResumeKeeps(m, w);
    case Dial(w, o) => DialKeeps(cfg, m, w, o);
    case CutDial(w, o, n, back) => CutDialKeeps(cfg, m, w, o, n, back);
    case BackOff(w, o, n) => BackOffKeeps(cfg, m, w, o, n);
    case Refused(w, n) => RefusedKeeps(cfg, m, w, n);
    case Abort(w, n, back) => AbortKeeps(cfg, m, w, n, back);
    case Accepted(w, pid) => AcceptedKeeps(cfg, m, w, pid);
  }
}

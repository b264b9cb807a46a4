/** Live calls that were never bound: how many there can be, and whose parties they can touch. */
module MacroOrphans {
  import opened Wrappers
  import opened Enums
  import opened Documents
  import opened StoreOps
  import opened ProviderEvents
  import opened MacroProtocol
  import opened MacroSafety
  import opened MacroWrites
  import opened MacroSteps
  import opened MacroDial
  import opened MacroRuns
  import EventWrites
  import RecoveryItems
  import CallRepo
  import Sets

  // What a step does to the calls

  /** Calls only end, and keep their key and creator. */
  ghost predicate CallsOnlyEnd(s: Store, s': Store) {
    s'.calls.Keys == s.calls.Keys && OldCallsOnlyEnd(s, s')
  }

  ghost predicate OldCallsOnlyEnd(s: Store, s': Store) {
    && s.calls.Keys <= s'.calls.Keys
    && forall c <- s.calls ::
         && (IsLive(s', c) ==> IsLive(s, c))
         && s'.calls[c].key == s.calls[c].key && s'.calls[c].createdBy == s.calls[c].createdBy
  }

  lemma DeliverOnlyEnds(cfg: Config, s: Store, e: Event, now: Time, n: nat)
    ensures CallsOnlyEnd(s, EventWrites.Prefix(cfg, s, e, now, n))
  {
    PrefixShape(cfg, s, e, now, n);
    var s1 := EventWrites.RecordEvent(s, e);
    var c := EventWrites.Applicable(s1, e);
    if n > 1 && c.Some? {
      var target := TargetOf(e.kind).value;
      var call := TransitionCall(s1, c.value, target, now);
      if call.Some? {
        var s2 := SetCall(s1, c.value, call);
        CallWriteOnlyEnds(s1, c.value, target, now);
        PartyWritesKeepCalls(cfg, s2, call.value, target, now);
      }
    }
  }

  lemma CallWriteOnlyEnds(s: Store, c: CallId, target: CallState, now: Time)
    ensures CallsOnlyEnd(s, SetCall(s, c, TransitionCall(s, c, target, now)))
  {
  }

  lemma PartyWritesKeepCalls(cfg: Config, s: Store, call: Call, target: CallState, now: Time)
    ensures var t := EventWrites.AgentWrite(s, call, target, now);
            t.calls == s.calls && EventWrites.BorrowerWrite(cfg, t, call, target, now).calls == s.calls
  {
  }

  lemma CancelOnlyEnds(cfg: Config, s: Store, seen: Agent, now: Time, n: nat)
    ensures CallsOnlyEnd(s, RecoveryItems.CancelBoundCall(cfg, s, seen, now, n))
  {
    if seen.currentCall.Some? {
      CallWriteOnlyEnds(s, seen.currentCall.value, CallState.Cancelled, now);
    }
  }

  lemma BackOffOnlyEnds(cfg: Config, m: Macro, w: WorkerId, o: Order, n: nat)
    ensures BackOffWrites(cfg, m.store, w, o, m.clock, n).calls == m.store.calls
  {
    SameCallsAfterClaims(cfg, m, w, o);
    assert DialWrites(cfg, m.store, w, o, m.clock, 0) == m.store;
  }

  lemma RefusedOnlyEnds(cfg: Config, s: Store, w: WorkerId, d: OpenDial, now: Time, n: nat)
    ensures CallsOnlyEnd(s, RefusedWrites(cfg, s, w, d, now, n))
  {
    RefusedPrefix(cfg, s, w, d, now, n);
  }

  lemma OrphanOnlyEnds(cfg: Config, m: Macro, c: CallId, target: CallState, n: nat)
    ensures CallsOnlyEnd(m.store, RecoveryItems.OrphanItem(cfg, m.store, c, target, m.clock, n))
  {
    OrphanShape(cfg, m, c, target, n);
    CallWriteOnlyEnds(m.store, c, target, m.clock);
  }

  lemma GiveBackKeepsCalls(cfg: Config, s: Store, w: WorkerId, a: AgentId, b: BorrowerId, now: Time, n: nat)
    ensures GiveBack(cfg, s, w, a, b, now, n).calls == s.calls && GiveBack(cfg, s, w, a, b, now, n).byKey == s.byKey
  {
  }

  ghost predicate IsOrdinary(act: Action) {
    !act.Dial? && !act.CutDial?
  }

  lemma WorkerOnlyEnds(cfg: Config, m: Macro, act: Action)
    requires IsWorkerAction(act) && IsOrdinary(act) && WorkerNext(cfg, m, act).Some?
    ensures var m' := WorkerNext(cfg, m, act).value; CallsOnlyEnd(m.store, m'.store) && m'.binder == m.binder
  {
    match act
    case BackOff(w, o, n) => BackOffOnlyEnds(cfg, m, w, o, n);
    case Refused(w, n) => RefusedOnlyEnds(cfg, m.store, w, m.waiting[w], m.clock, n);
    case Abort(w, n, back) =>
      var d := m.waiting[w];
      RefusedOnlyEnds(cfg, m.store, w, d, m.clock, n);
      GiveBackKeepsCalls(cfg, RefusedWrites(cfg, m.store, w, d, m.clock, n), w, d.agent, d.borrower, m.clock, back);
    case _ =>
  }

  lemma PassOnlyEnds(cfg: Config, m: Macro, act: Action)
    requires IsPassAction(act)
    requires PassNext(cfg, m, act).Some?
    ensures var m' := PassNext(cfg, m, act).value; CallsOnlyEnd(m.store, m'.store) && m'.binder == m.binder
  {
    if act.DoAgent? {
      CancelOnlyEnds(cfg, m.store, m.passes[act.r].agents[act.agent], m.clock, act.n);
    }
  }

  lemma OtherOnlyEnds(cfg: Config, m: Macro, act: Action)
    requires act.Tick? || act.See? || act.DoWrapUp? || act.Self? || act.Beat? || act.Deliver? || act.DoHeartbeat? || act.DoOrphan?
    requires Next(cfg, m, act).Some?
    ensures var m' := Next(cfg, m, act).value; CallsOnlyEnd(m.store, m'.store) && m'.binder == m.binder
  {
    if act.Deliver? {
      DeliverOnlyEnds(cfg, m.store, act.event, m.clock, act.n);
    } else if act.DoHeartbeat? {
      CancelOnlyEnds(cfg, m.store, m.seen[act.slot].1, m.clock, act.n);
    } else if act.DoOrphan? {
      OrphanOnlyEnds(cfg, m, act.call, act.target, act.n);
    } else {
      SimpleStepsKeepCalls(cfg, m, act);
    }
  }

  lemma SimpleStepsKeepCalls(cfg: Config, m: Macro, act: Action)
    requires act.Tick? || act.See? || act.DoWrapUp? || act.Self? || act.Beat?
    requires Next(cfg, m, act).Some?
    ensures var m' := Next(cfg, m, act).value; m'.store.calls == m.store.calls && m'.binder == m.binder
  {
  }

  lemma OrdinaryStepsOnlyEnd(cfg: Config, m: Macro, act: Action)
    requires Next(cfg, m, act).Some? && IsOrdinary(act)
    ensures var m' := Next(cfg, m, act).value; CallsOnlyEnd(m.store, m'.store) && m'.binder == m.binder && m'.cuts == m.cuts
  {
    if IsPassAction(act) {
      PassOnlyEnds(cfg, m, act);
    } else if IsWorkerAction(act) {
      WorkerOnlyEnds(cfg, m, act);
    } else {
      OtherOnlyEnds(cfg, m, act);
    }
    CutsAreCounted(cfg, m, act);
  }

  lemma CutsAreCounted(cfg: Config, m: Macro, act: Action)
    requires Next(cfg, m, act).Some?
    ensures Next(cfg, m, act).value.cuts == m.cuts + (if act.CutDial? then 1 else 0)
  {
  }

  /** A dial adds at most its own new call. */
  ghost predicate AddsOwnCall(s: Store, s': Store, w: WorkerId, o: Order) {
    && OldCallsOnlyEnd(s, s') && s'.calls.Keys <= s.calls.Keys + {o.id}
    && (o.id in s'.calls ==> s'.calls[o.id].key == KeyOf(s, o) && s'.calls[o.id].createdBy == w)
    && s'.byKey.Keys <= s.byKey.Keys + {KeyOf(s, o)}
  }

  lemma {:induction false} DialAddsOwnCall(cfg: Config, s: Store, w: WorkerId, o: Order, now: Time, n: nat)
    requires o.id !in s.calls
    ensures AddsOwnCall(s, DialWrites(cfg, s, w, o, now, n), w, o)
    ensures n <= 2 ==> DialWrites(cfg, s, w, o, now, n).calls == s.calls && DialWrites(cfg, s, w, o, now, n).byKey == s.byKey
  {
    if n > 0 {
      DialAddsOwnCall(cfg, s, w, o, now, n - 1);
      DialStepAdds(cfg, s, w, o, now, n);
    }
  }

  lemma DialStepAdds(cfg: Config, s: Store, w: WorkerId, o: Order, now: Time, n: nat)
    requires o.id !in s.calls && n > 0
    requires var p := DialWrites(cfg, s, w, o, now, n - 1);
             AddsOwnCall(s, p, w, o) && (n <= 3 ==> p.calls == s.calls && p.byKey == s.byKey)
    ensures var p := DialWrites(cfg, s, w, o, now, n);
            AddsOwnCall(s, p, w, o) && (n <= 2 ==> p.calls == s.calls && p.byKey == s.byKey)
  {
    if n == 3 {
      CreateAdds(cfg, s, w, o, now);
    } else {
      DialWriteOnlyEnds(cfg, s, w, o, now, n);
      AddedThenEnded(s, DialWrites(cfg, s, w, o, now, n - 1), DialWrites(cfg, s, w, o, now, n), w, o);
    }
  }

  lemma CreateAdds(cfg: Config, s: Store, w: WorkerId, o: Order, now: Time)
    requires o.id !in s.calls
    requires var p := DialWrites(cfg, s, w, o, now, 2); p.calls == s.calls && p.byKey == s.byKey
    ensures AddsOwnCall(s, DialWrites(cfg, s, w, o, now, 3), w, o)
  {
    var p := DialWrites(cfg, s, w, o, now, 2);
    assert DialWrites(cfg, s, w, o, now, 3) == CallRepo.CreateCall(p, KeyOf(s, o), o.provider, w, o.id, o.later).0;
  }

  lemma DialWriteOnlyEnds(cfg: Config, s: Store, w: WorkerId, o: Order, now: Time, n: nat)
    requires n > 0 && n != 3
    ensures var p, q := DialWrites(cfg, s, w, o, now, n - 1), DialWrites(cfg, s, w, o, now, n);
            CallsOnlyEnd(p, q) && q.byKey == p.byKey && (n <= 2 ==> q.calls == p.calls)
  {
    var p, q := DialWrites(cfg, s, w, o, now, n - 1), DialWrites(cfg, s, w, o, now, n);
    if n == 4 || n == 5 {
      var target := if n == 4 then CallState.Reserved else CallState.Initiated;
      CallWriteOnlyEnds(p, DialledCall(s, o), target, o.later);
      assert q == SetCall(p, DialledCall(s, o), TransitionCall(p, DialledCall(s, o), target, o.later));
    } else {
      assert q.calls == p.calls;
    }
  }

  lemma AddedThenEnded(s: Store, p: Store, q: Store, w: WorkerId, o: Order)
    requires AddsOwnCall(s, p, w, o) && CallsOnlyEnd(p, q) && q.byKey == p.byKey
    ensures AddsOwnCall(s, q, w, o)
  {
  }

  lemma CutAddsOwnCall(cfg: Config, m: Macro, w: WorkerId, o: Order, n: nat, back: nat)
    requires o.id !in m.store.calls
    ensures AddsOwnCall(m.store, CutStore(cfg, m, w, o, n, back), w, o)
  {
    DialAddsOwnCall(cfg, m.store, w, o, m.clock, n);
    GiveBackKeepsCalls(cfg, DialWrites(cfg, m.store, w, o, m.clock, n), w, o.agent, o.borrower, o.later, back);
  }

  // Counting

  /** Live calls that no dial bound. */
  ghost function Unbound(m: Macro): set<CallId> {
    set c <- m.store.calls | IsLive(m.store, c) && c !in m.binder
  }

  lemma DialBindsItsCall(cfg: Config, m: Macro, w: WorkerId, o: Order)
    requires CanDial(cfg, m, w, o)
    ensures Unbound(WorkerNext(cfg, m, Dial(w, o)).value) <= Unbound(m)
  {
    var m' := WorkerNext(cfg, m, Dial(w, o)).value;
    DialAddsOwnCall(cfg, m.store, w, o, m.clock, 7);
    NewCallIsDialled(cfg, m.store, w, o, m.clock, 7);
    forall c <- Unbound(m') ensures c in Unbound(m) {
      assert c != DialledCall(m.store, o);
    }
  }

  /** The call a dial adds, if any, is the one it works on. */
  lemma {:induction false} NewCallIsDialled(cfg: Config, s: Store, w: WorkerId, o: Order, now: Time, n: nat)
    requires o.id !in s.calls
    ensures o.id in DialWrites(cfg, s, w, o, now, n).calls ==> DialledCall(s, o) == o.id
    ensures n <= 2 ==> DialWrites(cfg, s, w, o, now, n).byKey == s.byKey && DialWrites(cfg, s, w, o, now, n).calls == s.calls
  {
    if n > 0 {
      NewCallIsDialled(cfg, s, w, o, now, n - 1);
    }
  }

  lemma StepCountsUnbound(cfg: Config, m: Macro, act: Action)
    requires Next(cfg, m, act).Some? && |Unbound(m)| <= m.cuts
    ensures |Unbound(Next(cfg, m, act).value)| <= Next(cfg, m, act).value.cuts
  {
    var m' := Next(cfg, m, act).value;
    CutsAreCounted(cfg, m, act);
    if act.Dial? {
      DialBindsItsCall(cfg, m, act.w, act.order);
      Sets.SubsetCount(Unbound(m'), Unbound(m));
    } else if act.CutDial? {
      CutDialIs(cfg, m, act.w, act.order, act.n, act.back);
      CutAddsOwnCall(cfg, m, act.w, act.order, act.n, act.back);
      assert Unbound(m') <= Unbound(m) + {act.order.id};
      Sets.SubsetCount(Unbound(m'), Unbound(m) + {act.order.id});
    } else {
      OrdinaryStepsOnlyEnd(cfg, m, act);
      Sets.SubsetCount(Unbound(m'), Unbound(m));
    }
  }

  /** In every run there are never more live unbound calls than dials that were cut. */
  lemma {:induction false} UnboundCallsWereCut(cfg: Config, run: seq<Macro>, acts: seq<Action>, n: nat)
    requires IsTrace(cfg, run, acts) && n < |run|
    ensures |Unbound(run[n])| <= run[n].cuts
  {
    if n == 0 {
      NothingUnboundAtStart(run[0]);
    } else {
      UnboundCallsWereCut(cfg, run, acts, n - 1);
      StepOfTrace(cfg, run, acts, n - 1);
      StepCountsUnbound(cfg, run[n - 1], acts[n - 1]);
    }
  }

  // Worker ids that go on after a cut

  /** What a worker can check before it dials: it has no live unbound call of its own, other than the
      one it is about to dial, with this agent or this borrower. */
  ghost predicate IsCareful(m: Macro, act: Action) {
    act.Dial? ==>
      forall d <- Unbound(m) | d != DialledCall(m.store, act.order) && m.store.calls[d].createdBy == act.w ::
        m.store.calls[d].key.agent != act.order.agent && m.store.calls[d].key.borrower != act.order.borrower
  }

  /** No agent logs out of a call, no dial is cancelled between the bind and the provider's answer, and
      no pass begins its second sweep after a first one that was not whole. */
  ghost predicate IsOrderly(m: Macro, act: Action) {
    match act
    case Self(_, from, _, _) => !from.Dialing? && !from.Connected?
    case Abort(_, n, back) => n > 0 || back == 0
    case FindBorrowers(r) => r in m.passes && m.passes[r].AgentSweep? ==> m.passes[r].whole
    case _ => true
  }

  /** Every second sweep follows a whole first one. */
  ghost predicate SecondSweepsAreLate(m: Macro) {
    forall r <- m.passes | m.passes[r].BorrowerSweep? :: m.passes[r].whole
  }

  lemma OrderlyStepsSweepLate(cfg: Config, m: Macro, act: Action)
    requires SecondSweepsAreLate(m) && Next(cfg, m, act).Some? && IsOrderly(m, act)
    ensures SecondSweepsAreLate(Next(cfg, m, act).value)
  {
    if IsPassAction(act) {
      OrderlyPassesSweepLate(cfg, m, act);
    } else {
      OthersKeepPasses(cfg, m, act);
    }
  }

  lemma OrderlyPassesSweepLate(cfg: Config, m: Macro, act: Action)
    requires IsPassAction(act) && SecondSweepsAreLate(m) && PassNext(cfg, m, act).Some? && IsOrderly(m, act)
    ensures SecondSweepsAreLate(PassNext(cfg, m, act).value)
  {
    var m' := PassNext(cfg, m, act).value;
    forall r <- m'.passes | m'.passes[r].BorrowerSweep? ensures m'.passes[r].whole {}
  }

  lemma OthersKeepPasses(cfg: Config, m: Macro, act: Action)
    requires !IsPassAction(act) && Next(cfg, m, act).Some?
    ensures Next(cfg, m, act).value.passes == m.passes
  {
  }

  /** The creator of an unbound call is on no live bound call with its agent or its borrower. */
  ghost predicate OrphansSpare(m: Macro) {
    forall c <- Unbound(m) :: SparesAgent(m, c) && SparesBorrower(m, c)
  }

  lemma OrdinaryStepsSpare(cfg: Config, m: Macro, act: Action)
    requires Next(cfg, m, act).Some? && IsOrdinary(act) && OrphansSpare(m)
    ensures OrphansSpare(Next(cfg, m, act).value)
  {
    var m' := Next(cfg, m, act).value;
    OrdinaryStepsOnlyEnd(cfg, m, act);
    forall c <- Unbound(m') ensures SparesAgent(m', c) && SparesBorrower(m', c) {
      assert c in Unbound(m);
      forall d | LiveBound(m', d) ensures LiveBound(m, d) && m'.store.calls[d].key == m.store.calls[d].key {}
    }
  }

  /** A cut dial leaves its call next to parties nobody is on a call with. */
  lemma CutDialsSpare(cfg: Config, m: Macro, w: WorkerId, o: Order, n: nat, back: nat)
    requires Inv(m) && WorkerNext(cfg, m, CutDial(w, o, n, back)).Some? && OrphansSpare(m)
    ensures OrphansSpare(WorkerNext(cfg, m, CutDial(w, o, n, back)).value)
  {
    var m' := WorkerNext(cfg, m, CutDial(w, o, n, back)).value;
    CutDialIs(cfg, m, w, o, n, back);
    CutAddsOwnCall(cfg, m, w, o, n, back);
    GoneKeeps(m, w);
    CanDialIsDialable(cfg, m, w, o);
    ClaimsAreFree(cfg, Gone(m, w), w, o);
    forall c <- Unbound(m') ensures SparesAgent(m', c) && SparesBorrower(m', c) {
      forall d | LiveBound(m', d)
        ensures LiveBound(m, d) && LiveBound(Gone(m, w), d) && m'.store.calls[d].key == m.store.calls[d].key
      {
      }
      if c != o.id {
        assert c in Unbound(m);
      }
    }
  }

  lemma DialsSpare(cfg: Config, m: Macro, w: WorkerId, o: Order)
    requires Inv(m) && CanDial(cfg, m, w, o) && cfg.ttl >= 0 && OrphansSpare(m) && IsCareful(m, Dial(w, o))
    ensures OrphansSpare(WorkerNext(cfg, m, Dial(w, o)).value)
  {
    var m' := WorkerNext(cfg, m, Dial(w, o)).value;
    DialBindsItsCall(cfg, m, w, o);
    DialIsPoised(cfg, m, w, o);
    DialIsBound(cfg, m, w, o);
    BindKeeps(cfg, Gone(m, w), w, o);
    DialAddsOwnCall(cfg, m.store, w, o, m.clock, 7);
    forall c <- Unbound(m') ensures SparesAgent(m', c) && SparesBorrower(m', c) {
      assert c in Unbound(m) && c != DialledCall(m.store, o);
      OrphanAfterDial(cfg, m, w, o, c);
    }
  }

  /** A live call the dialling worker, or another creator of orphans, is bound to afterwards. */
  lemma BoundAfterDial(cfg: Config, m: Macro, w: WorkerId, o: Order, c: CallId, d: CallId)
    requires Poised(cfg, Gone(m, w), w, o) && OrphansSpare(m) && IsCareful(m, Dial(w, o))
    requires c in Unbound(m) && c != DialledCall(m.store, o)
    requires var m' := Bound(cfg, Gone(m, w), w, o);
             LiveBound(m', d) && d != c && m'.binder[d] == m.store.calls[c].createdBy
    ensures var m' := Bound(cfg, Gone(m, w), w, o); var key := m.store.calls[c].key;
            m'.store.calls[d].key.agent != key.agent && m'.store.calls[d].key.borrower != key.borrower
  {
    var g := Gone(m, w);
    if d == DialledCall(m.store, o) {
      DialledKey(cfg, g, w, o);
    } else {
      WhoIsBound(cfg, g, w, o, d);
      assert LiveBound(m, d);
    }
  }

  lemma OrphanAfterDial(cfg: Config, m: Macro, w: WorkerId, o: Order, c: CallId)
    requires Poised(cfg, Gone(m, w), w, o) && OrphansSpare(m) && IsCareful(m, Dial(w, o))
    requires c in Unbound(m) && c != DialledCall(m.store, o)
    requires var m' := Bound(cfg, Gone(m, w), w, o);
             c in m'.store.calls && m'.store.calls[c].key == m.store.calls[c].key && m'.store.calls[c].createdBy == m.store.calls[c].createdBy
    ensures var m' := Bound(cfg, Gone(m, w), w, o); SparesAgent(m', c) && SparesBorrower(m', c)
  {
    var m' := Bound(cfg, Gone(m, w), w, o);
    forall d | LiveBound(m', d) && d != c && m'.binder[d] == m'.store.calls[c].createdBy
      ensures m'.store.calls[d].key.agent != m'.store.calls[c].key.agent
      ensures m'.store.calls[d].key.borrower != m'.store.calls[c].key.borrower
    {
      BoundAfterDial(cfg, m, w, o, c, d);
    }
  }

  lemma DialledKey(cfg: Config, g: Macro, w: WorkerId, o: Order)
    requires Poised(cfg, g, w, o)
    ensures var c := DialledCall(g.store, o);
            c in Bound(cfg, g, w, o).store.calls && Bound(cfg, g, w, o).store.calls[c].key == KeyOf(g.store, o)
  {
    BindStore(cfg, g, w, o);
  }

  lemma CarefulStepSpares(cfg: Config, m: Macro, act: Action)
    requires Inv(m) && cfg.ttl >= 0 && OrphansSpare(m) && Next(cfg, m, act).Some? && IsCareful(m, act)
    ensures OrphansSpare(Next(cfg, m, act).value)
  {
    if act.Dial? {
      DialsSpare(cfg, m, act.w, act.order);
    } else if act.CutDial? {
      CutDialsSpare(cfg, m, act.w, act.order, act.n, act.back);
    } else {
      OrdinaryStepsSpare(cfg, m, act);
    }
  }

  lemma SparedOrphansDoNoHarm(m: Macro, c: CallId, target: CallState, n: nat)
    requires Inv(m) && OrphansSpare(m)
    ensures !OrphanHarms(m, c, target, n)
  {
    if TransitionCall(m.store, c, target, m.clock).Some? {
      if c in m.binder {
        BoundCallsSpare(m, c);
      } else {
        assert c in Unbound(m);
      }
    }
  }

  /** An agent that is not DIALING or CONNECTED is on no live bound call. */
  lemma OrderlyLogoutsDoNoHarm(m: Macro, a: AgentId, from: AgentState, to: AgentState, v: nat)
    requires Inv(m) && !from.Dialing? && !from.Connected?
    ensures !LogoutHarms(m, a, from, to, v)
  {
    forall c | LiveBound(m, c) && TransitionAgent(m.store, a, from, to, AgentSm.AgentSelf, v, m.clock).Some?
      ensures m.store.calls[c].key.agent != a
    {
      assert Binding(m, c);
    }
  }

  lemma OrderlyIsUnharmed(m: Macro, act: Action)
    requires Inv(m) && OrphansSpare(m) && SecondSweepsAreLate(m) && IsOrderly(m, act)
    ensures !Harms(m, act)
  {
    match act
    case DoOrphan(c, target, n) => SparedOrphansDoNoHarm(m, c, target, n);
    case DoBorrower(r, b) =>
      if r in m.passes && m.passes[r].BorrowerSweep? {
        WholePassReclaimsFree(m, r, b);
      }
    case Self(a, from, to, v) => OrderlyLogoutsDoNoHarm(m, a, from, to, v);
    case _ =>
  }

  /** Every dial among the first n steps is careful. */
  ghost predicate Careful(run: seq<Macro>, acts: seq<Action>, n: nat)
    requires n <= |acts| < |run|
  {
    forall k | 0 <= k < n :: IsCareful(run[k], acts[k])
  }

  /** The first n steps are orderly. */
  ghost predicate Orderly(run: seq<Macro>, acts: seq<Action>, n: nat)
    requires n <= |acts| < |run|
  {
    forall k | 0 <= k < n :: IsOrderly(run[k], acts[k])
  }

  lemma NothingUnboundAtStart(m: Macro)
    requires Init(m)
    ensures Unbound(m) == {} && OrphansSpare(m) && SecondSweepsAreLate(m)
  {
  }

  lemma CarefulStepOfRun(cfg: Config, run: seq<Macro>, acts: seq<Action>, n: nat)
    requires IsTrace(cfg, run, acts) && cfg.ttl >= 0 && n < |acts| && Unharmed(run, acts, n)
    requires OrphansSpare(run[n]) && SecondSweepsAreLate(run[n]) && IsCareful(run[n], acts[n]) && IsOrderly(run[n], acts[n])
    ensures !Harms(run[n], acts[n]) && OrphansSpare(run[n + 1]) && SecondSweepsAreLate(run[n + 1])
  {
    TraceKeepsInv(cfg, run, acts, n);
    StepOfTrace(cfg, run, acts, n);
    OrderlyIsUnharmed(run[n], acts[n]);
    CarefulStepSpares(cfg, run[n], acts[n]);
    OrderlyStepsSweepLate(cfg, run[n], acts[n]);
  }

  /** If no worker dials an agent or a borrower of its own live unbound calls, no orphan item of an
      orderly run does harm, whichever ids go on after a cut; nor does anything else. */
  lemma {:induction false} CarefulRunsAreUnharmed(cfg: Config, run: seq<Macro>, acts: seq<Action>, n: nat)
    requires IsTrace(cfg, run, acts) && cfg.ttl >= 0 && n < |run| && Careful(run, acts, n) && Orderly(run, acts, n)
    ensures Unharmed(run, acts, n) && OrphansSpare(run[n]) && SecondSweepsAreLate(run[n])
  {
    if n == 0 {
      NothingUnboundAtStart(run[0]);
    } else {
      CarefulRunsAreUnharmed(cfg, run, acts, n - 1);
      CarefulStepOfRun(cfg, run, acts, n - 1);
    }
  }

  /** The creators of unbound calls have stopped. */
  ghost predicate CreatorsStopped(m: Macro) {
    m.live <= m.used && forall c <- Unbound(m) :: m.store.calls[c].createdBy in m.used && m.store.calls[c].createdBy !in m.live
  }

  lemma StepKeepsCreatorsStopped(cfg: Config, m: Macro, act: Action)
    requires CreatorsStopped(m) && Next(cfg, m, act).Some? && !act.Resume?
    ensures CreatorsStopped(Next(cfg, m, act).value)
  {
    var m' := Next(cfg, m, act).value;
    if act.Dial? {
      DialBindsItsCall(cfg, m, act.w, act.order);
      DialAddsOwnCall(cfg, m.store, act.w, act.order, m.clock, 7);
    } else if act.CutDial? {
      CutDialIs(cfg, m, act.w, act.order, act.n, act.back);
      CutAddsOwnCall(cfg, m, act.w, act.order, act.n, act.back);
    } else {
      OrdinaryStepsOnlyEnd(cfg, m, act);
      assert Unbound(m') <= Unbound(m);
      NobodyComesBack(cfg, m, act);
    }
  }

  lemma NobodyComesBack(cfg: Config, m: Macro, act: Action)
    requires m.live <= m.used && Next(cfg, m, act).Some? && !act.Resume?
    ensures var m' := Next(cfg, m, act).value;
            m'.live <= m'.used && m.used <= m'.used && forall w <- m'.live :: w in m.live || w !in m.used
  {
  }

  /** Where a cut worker's id never comes back, every dial is careful. */
  lemma {:induction false} RetiredIdsAreCareful(cfg: Config, run: seq<Macro>, acts: seq<Action>, n: nat)
    requires IsTrace(cfg, run, acts) && n < |run| && forall k | 0 <= k < n :: !acts[k].Resume?
    ensures CreatorsStopped(run[n]) && Careful(run, acts, n)
  {
    if n == 0 {
      NothingUnboundAtStart(run[0]);
    } else {
      RetiredIdsAreCareful(cfg, run, acts, n - 1);
      StepOfTrace(cfg, run, acts, n - 1);
      StepKeepsCreatorsStopped(cfg, run[n - 1], acts[n - 1]);
      StoppedIsCareful(cfg, run[n - 1], acts[n - 1]);
    }
  }

  lemma StoppedIsCareful(cfg: Config, m: Macro, act: Action)
    requires CreatorsStopped(m) && Next(cfg, m, act).Some?
    ensures IsCareful(m, act)
  {
  }

  /** So with worker ids that are never reused, every live bound call keeps its parties in every orderly
      run, whatever crashes. */
  lemma RetiredIdsKeepBindings(cfg: Config, run: seq<Macro>, acts: seq<Action>)
    requires IsTrace(cfg, run, acts) && cfg.ttl >= 0 && Orderly(run, acts, |acts|) && forall k | 0 <= k < |acts| :: !acts[k].Resume?
    ensures forall n | 0 <= n < |run| :: Bindings(run[n])
  {
    RetiredIdsAreCareful(cfg, run, acts, |acts|);
    CarefulRunsAreUnharmed(cfg, run, acts, |acts|);
    BindingsSurviveIff(cfg, run, acts);
  }

  /** As long as no dial has been cut, every live call is bound. */
  lemma UncutRunsLeaveNoOrphans(cfg: Config, run: seq<Macro>, acts: seq<Action>, n: nat)
    requires IsTrace(cfg, run, acts) && n < |run| && run[n].cuts == 0
    ensures Unbound(run[n]) == {}
  {
    UnboundCallsWereCut(cfg, run, acts, n);
  }

  lemma CutsOfStep(cfg: Config, run: seq<Macro>, acts: seq<Action>, n: nat)
    requires IsTrace(cfg, run, acts) && n < |acts|
    ensures run[n].cuts <= run[n + 1].cuts
  {
    StepOfTrace(cfg, run, acts, n);
    CutsAreCounted(cfg, run[n], acts[n]);
  }

  ghost predicate CutsGrow(run: seq<Macro>) {
    forall n | 0 <= n < |run| - 1 :: run[n].cuts <= run[n + 1].cuts
  }

  lemma CutsGrowInRuns(cfg: Config, run: seq<Macro>, acts: seq<Action>)
    requires IsTrace(cfg, run, acts)
    ensures CutsGrow(run)
  {
    forall n | 0 <= n < |run| - 1 ensures run[n].cuts <= run[n + 1].cuts {
      CutsOfStep(cfg, run, acts, n);
    }
  }

  lemma {:induction false} CutsOnlyGrow(run: seq<Macro>, k: nat, n: nat)
    requires CutsGrow(run) && k <= n < |run|
    ensures run[k].cuts <= run[n].cuts
  {
    if k < n {
      CutsOnlyGrow(run, k, n - 1);
      assert run[n - 1].cuts <= run[n - 1 + 1].cuts;
    }
  }

  /** And in an orderly run nothing has done harm. */
  lemma UncutRunsAreUnharmed(cfg: Config, run: seq<Macro>, acts: seq<Action>, n: nat)
    requires IsTrace(cfg, run, acts) && cfg.ttl >= 0 && n < |run| && run[n].cuts == 0 && Orderly(run, acts, n)
    ensures Unharmed(run, acts, n)
  {
    CutsGrowInRuns(cfg, run, acts);
    forall k | 0 <= k < n ensures IsCareful(run[k], acts[k]) {
      CutsOnlyGrow(run, k, n);
      UncutRunsLeaveNoOrphans(cfg, run, acts, k);
    }
    CarefulRunsAreUnharmed(cfg, run, acts, n);
  }
}

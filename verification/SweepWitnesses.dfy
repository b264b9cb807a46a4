/** A run in which the first sweep of a pass raises and the second one, by the same now, takes the
    borrower from a live call; and one in which the agent leaves it. */
module SweepWitnesses {
  import opened Wrappers
  import opened Enums
  import opened Documents
  import opened StoreOps
  import opened MacroProtocol
  import opened MacroSafety
  import opened MacroWrites
  import opened MacroRuns
  import opened MacroWitnesses
  import opened AllocatorSpec
  import opened InvariantChecker
  import AgentSm

  /** Two agents, one borrower, two workers. */
  function Crew(): Macro {
    var s := Store(map[0 := IdleAgent(), 1 := IdleAgent()], map[0 := DueBorrower()], map[], map[], map[], {});
    Macro(s, 0, {1, 2}, {1, 2}, map[], map[], map[], map[], map[], 0)
  }

  function OnFirst(cfg: Config): Agent {
    ClaimedOnce(cfg).(state := AgentState.Dialing, version := 2, currentCall := Some(10))
  }

  function Held(cfg: Config): Borrower {
    DueBorrower().(status := BorrowerStatus.Reserved, lease := NewLease(1, cfg.ttl, 0), version := 1)
  }

  function HandedBack(cfg: Config): Borrower {
    Held(cfg).(status := BorrowerStatus.Pending, nextEligibleAt := cfg.ttl + 1, lease := None, version := 2)
  }

  /** The first call is live and bound. */
  function Dialled(cfg: Config): Macro {
    var s := Store(map[0 := OnFirst(cfg), 1 := IdleAgent()], map[0 := Held(cfg)],
                   map[10 := Call(FirstKey(), CallState.Initiated, 0, None, 1, None, 0)], map[FirstKey() := 10], map[], {});
    Crew().(store := s, waiting := map[1 := OpenDial(0, 0, 10)], binder := map[10 := 1], holder := map[0 := 10])
  }

  lemma DialledStep(cfg: Config)
    ensures Next(cfg, Crew(), Dial(1, FirstOrder())) == Some(Dialled(cfg))
  {
    var s, s' := Crew().store, Dialled(cfg).store;
    DialInClosedForm(cfg, s, 1, FirstOrder(), 0);
    var d := DialWrites(cfg, s, 1, FirstOrder(), 0, 7);
    assert d.agents == s'.agents;
    assert d.borrowers == s'.borrowers;
    assert d.calls == s'.calls && d.byKey == s'.byKey;
  }

  /** The other agent with the same borrower. */
  function OtherOrder(at: Time): Order {
    Order(0, 1, 0, 0, 11, at)
  }

  /** The lease runs out during the call; the find of the first sweep raises, the second sweep reclaims
      the borrower, and worker 2 dials him. */
  function Reclaiming(cfg: Config): seq<Action> {
    [Tick(cfg.ttl + 1), BeginPass(0), FindAgents(0, {}), FindBorrowers(0), DoBorrower(0, 0), Dial(2, OtherOrder(cfg.ttl + 1))]
  }

  /** The worlds of those steps, up to the second dial. */
  function Reclaimed(cfg: Config): seq<Macro> {
    var t := cfg.ttl + 1;
    var m := Dialled(cfg).(clock := t);
    [Dialled(cfg), m, m.(passes := map[0 := Started(t)]),
     m.(passes := map[0 := AgentSweep(t, map[], false)]),
     m.(passes := map[0 := BorrowerSweep(t, map[0 := Held(cfg)], false)]),
     m.(passes := map[0 := BorrowerSweep(t, map[], false)], store := m.store.(borrowers := map[0 := HandedBack(cfg)]))]
  }

  lemma NothingFound(cfg: Config)
    requires cfg.ttl >= 0
    ensures FoundAgents(Dialled(cfg).store, cfg.ttl + 1, {}) == AgentSweep(cfg.ttl + 1, map[], false)
  {
    assert 0 in ExpiredAgents(Dialled(cfg).store, cfg.ttl + 1).Keys;
  }

  lemma RaisedFind(cfg: Config)
    requires cfg.ttl >= 0
    ensures Next(cfg, Reclaimed(cfg)[2], FindAgents(0, {})) == Some(Reclaimed(cfg)[3])
  {
    var m, t := Reclaimed(cfg)[2], cfg.ttl + 1;
    NothingFound(cfg);
    assert m.passes[0 := AgentSweep(t, map[], false)] == Reclaimed(cfg)[3].passes;
  }

  lemma SecondFind(cfg: Config)
    requires cfg.ttl >= 0
    ensures Next(cfg, Reclaimed(cfg)[3], FindBorrowers(0)) == Some(Reclaimed(cfg)[4])
  {
    var m, t := Reclaimed(cfg)[3], cfg.ttl + 1;
    assert ExpiredBorrowers(m.store, t) == map[0 := Held(cfg)];
    assert m.passes[0 := BorrowerSweep(t, map[0 := Held(cfg)], false)] == Reclaimed(cfg)[4].passes;
  }

  lemma Reclaim(cfg: Config)
    requires cfg.ttl >= 0
    ensures Next(cfg, Reclaimed(cfg)[4], DoBorrower(0, 0)) == Some(Reclaimed(cfg)[5])
  {
    var m, t := Reclaimed(cfg)[4], cfg.ttl + 1;
    assert ReclaimBorrower(m.store, 0, Held(cfg), t) == Some(HandedBack(cfg));
    assert m.store.borrowers[0 := HandedBack(cfg)] == Reclaimed(cfg)[5].store.borrowers;
    assert m.passes[0].borrowers - {0} == map[];
    assert m.passes[0 := BorrowerSweep(t, map[], false)] == Reclaimed(cfg)[5].passes;
  }

  lemma ReclaimSteps(cfg: Config)
    requires cfg.ttl >= 0
    ensures forall k | 0 <= k < 5 :: Next(cfg, Reclaimed(cfg)[k], Reclaiming(cfg)[k]) == Some(Reclaimed(cfg)[k + 1])
  {
    assert Next(cfg, Reclaimed(cfg)[0], Reclaiming(cfg)[0]) == Some(Reclaimed(cfg)[1]);
    assert Next(cfg, Reclaimed(cfg)[1], Reclaiming(cfg)[1]) == Some(Reclaimed(cfg)[2]);
    RaisedFind(cfg);
    SecondFind(cfg);
    Reclaim(cfg);
  }

  /** Both calls live, bound and current, with one borrower. */
  ghost predicate SharesBorrower(cfg: Config, m: Macro) {
    && m.store.calls == Dialled(cfg).store.calls[11 := Call(Key(0, 1, 0, 1), CallState.Initiated, 0, None, 2, None, cfg.ttl + 1)]
    && m.store.agents.Keys == {0, 1} && m.store.agents[0] == OnFirst(cfg)
    && m.store.agents[1].currentCall == Some(11) && m.store.agents[1].state.Dialing? && m.store.agents[1].campaign == 0
    && m.cuts == 0
  }

  lemma OtherDialIsFree(cfg: Config)
    requires cfg.ttl >= 0
    ensures var m, o := Reclaimed(cfg)[5], OtherOrder(cfg.ttl + 1);
            && KeyOf(m.store, o) == Key(0, 1, 0, 1) && DialledCall(m.store, o) == 11
            && CanDial(cfg, m, 2, o) && CanPair(cfg, m.store, 2, o, cfg.ttl + 1) && CallIsQueued(m.store, o)
  {
  }

  lemma OtherDialShares(cfg: Config, m: Macro)
    requires cfg.ttl >= 0 && m.store == DialWrites(cfg, Reclaimed(cfg)[5].store, 2, OtherOrder(cfg.ttl + 1), cfg.ttl + 1, 7) && m.cuts == 0
    ensures SharesBorrower(cfg, m)
  {
    OtherDialIsFree(cfg);
    DialInClosedForm(cfg, Reclaimed(cfg)[5].store, 2, OtherOrder(cfg.ttl + 1), cfg.ttl + 1);
  }

  lemma OtherDial(cfg: Config) returns (last: Macro)
    requires cfg.ttl >= 0
    ensures Next(cfg, Reclaimed(cfg)[5], Dial(2, OtherOrder(cfg.ttl + 1))) == Some(last) && SharesBorrower(cfg, last)
  {
    OtherDialIsFree(cfg);
    last := Next(cfg, Reclaimed(cfg)[5], Dial(2, OtherOrder(cfg.ttl + 1))).value;
    OtherDialShares(cfg, last);
  }

  /** The run up to the reclaim. */
  lemma ReclaimTrace(cfg: Config) returns (run: seq<Macro>, acts: seq<Action>)
    requires cfg.ttl >= 0
    ensures IsTrace(cfg, run, acts) && acts == [Dial(1, FirstOrder())] + Reclaiming(cfg)[..5]
    ensures run[5] == Reclaimed(cfg)[4] && run[6] == Reclaimed(cfg)[5]
  {
    var first := [Crew()] + [Dialled(cfg)];
    DialledStep(cfg);
    ReclaimSteps(cfg);
    OneMoreStep(cfg, [Crew()], [], Dial(1, FirstOrder()), Dialled(cfg));
    Follow(cfg, first, [] + [Dial(1, FirstOrder())], Reclaimed(cfg), Reclaiming(cfg)[..5]);
    run, acts := first + Reclaimed(cfg)[1..], [Dial(1, FirstOrder())] + Reclaiming(cfg)[..5];
  }

  lemma ReclaimHitsLiveCall(cfg: Config)
    requires cfg.ttl >= 0
    ensures Harms(Reclaimed(cfg)[4], DoBorrower(0, 0))
  {
    var m := Reclaimed(cfg)[4];
    assert LiveBound(m, 10) && m.store.calls[10].key.borrower == 0;
    assert ReclaimBorrower(m.store, 0, Held(cfg), cfg.ttl + 1) == Some(HandedBack(cfg));
  }

  function SharedCalls(): seq<ActiveCall> {
    [ActiveCall(10, 0, 0), ActiveCall(11, 1, 0)]
  }

  lemma CheckerSeesBoth(cfg: Config, m: Macro)
    requires SharesBorrower(cfg, m)
    ensures IsListing(m.store, 0, SharedCalls()) && !AllDiffer(SharedCalls(), ByBorrower) && AllDiffer(SharedCalls(), ByAgent)
    ensures forall i | 0 <= i < |SharedCalls()| :: SharedCalls()[i].id in m.store.calls && IsCurrent(m.store, SharedCalls()[i].id)
  {
    var calls := SharedCalls();
    assert IdOf(calls[0], ByBorrower) == IdOf(calls[1], ByBorrower);
  }

  /** A dial, time, or a step of a pass. */
  predicate IsPlain(act: Action) {
    act.Dial? || act.Tick? || IsPassAction(act)
  }

  lemma PlainSteps(cfg: Config, run: seq<Macro>, acts: seq<Action>)
    requires acts == [Dial(1, FirstOrder())] + Reclaiming(cfg)[..5] && |run| == 7
    ensures (forall k | 0 <= k < 6 :: IsPlain(acts[k])) && acts[5] == DoBorrower(0, 0) && Unharmed(run, acts, 5)
  {
    assert acts == [acts[0], Reclaiming(cfg)[0], Reclaiming(cfg)[1], Reclaiming(cfg)[2], Reclaiming(cfg)[3], Reclaiming(cfg)[4]];
    assert forall k | 0 <= k < 5 :: !CanHarm(acts[k]);
  }

  /** With no dial cut, no id resumed and no orphan item, a raised first sweep ends with one borrower in
      two live calls, each of them its agent's current call. */
  lemma RaisedSweepSharesBorrower(cfg: Config) returns (run: seq<Macro>, acts: seq<Action>, calls: seq<ActiveCall>)
    requires cfg.ttl >= 0
    ensures IsTrace(cfg, run, acts) && |acts| == 7 && run[7].cuts == 0
    ensures forall k | 0 <= k < 7 :: IsPlain(acts[k])
    ensures acts[5] == DoBorrower(0, 0) && Harms(run[5], acts[5]) && Unharmed(run, acts, 5)
    ensures IsListing(run[7].store, 0, calls) && !AllDiffer(calls, ByBorrower)
    ensures forall i | 0 <= i < |calls| :: calls[i].id in run[7].store.calls && IsCurrent(run[7].store, calls[i].id)
  {
    var most, steps := ReclaimTrace(cfg);
    PlainSteps(cfg, most, steps);
    ReclaimHitsLiveCall(cfg);
    var dial := Dial(2, OtherOrder(cfg.ttl + 1));
    var last := OtherDial(cfg);
    OneMoreStep(cfg, most, steps, dial, last);
    run, acts := most + [last], steps + [dial];
    SamePrefix(most, steps, last, dial, 5);
    calls := SharedCalls();
    CheckerSeesBoth(cfg, last);
  }

  lemma SamePrefix(run: seq<Macro>, acts: seq<Action>, m: Macro, act: Action, n: nat)
    requires n < |acts| < |run| && Unharmed(run, acts, n)
    ensures Unharmed(run + [m], acts + [act], n)
    ensures (run + [m])[n] == run[n] && (acts + [act])[n] == acts[n]
    ensures (forall k | 0 <= k < |acts| :: IsPlain(acts[k])) && IsPlain(act) ==> forall k | 0 <= k < |acts| + 1 :: IsPlain((acts + [act])[k])
  {
  }

  function Away(cfg: Config): Agent {
    OnFirst(cfg).(state := AgentState.Offline, version := 3)
  }

  function LeftBehind(cfg: Config): Macro {
    Dialled(cfg).(store := Dialled(cfg).store.(agents := map[0 := Away(cfg), 1 := IdleAgent()]))
  }

  lemma LogoutLands(cfg: Config)
    ensures TransitionAgent(Dialled(cfg).store, 0, AgentState.Dialing, AgentState.Offline, AgentSm.AgentSelf, 2, 0) == Some(Away(cfg))
  {
  }

  lemma LogoutStep(cfg: Config)
    ensures Next(cfg, Dialled(cfg), Self(0, AgentState.Dialing, AgentState.Offline, 2)) == Some(LeftBehind(cfg))
  {
    LogoutLands(cfg);
    assert Dialled(cfg).store.agents[0 := Away(cfg)] == LeftBehind(cfg).store.agents;
  }

  lemma LogoutHits(cfg: Config)
    ensures Harms(Dialled(cfg), Self(0, AgentState.Dialing, AgentState.Offline, 2))
  {
    LogoutLands(cfg);
    assert LiveBound(Dialled(cfg), 10) && Dialled(cfg).store.calls[10].key.agent == 0;
  }

  lemma LeftBehindIsLive(cfg: Config)
    ensures LiveBound(LeftBehind(cfg), 10) && !Bindings(LeftBehind(cfg))
  {
    assert !Binding(LeftBehind(cfg), 10);
  }

  /** An agent that logs out of a live call leaves it live. */
  lemma LogoutLeavesCall(cfg: Config) returns (run: seq<Macro>, acts: seq<Action>)
    ensures IsTrace(cfg, run, acts) && acts == [Dial(1, FirstOrder()), Self(0, AgentState.Dialing, AgentState.Offline, 2)]
    ensures Harms(run[1], acts[1]) && LiveBound(run[2], 10) && !Bindings(run[2])
    ensures 0 in run[2].store.agents && run[2].store.agents[0].state.Offline?
  {
    var leave := Self(0, AgentState.Dialing, AgentState.Offline, 2);
    DialledStep(cfg);
    OneMoreStep(cfg, [Crew()], [], Dial(1, FirstOrder()), Dialled(cfg));
    run, acts := [Crew()] + [Dialled(cfg)], [] + [Dial(1, FirstOrder())];
    LogoutHits(cfg);
    LogoutStep(cfg);
    OneMoreStep(cfg, run, acts, leave, LeftBehind(cfg));
    run, acts := run + [LeftBehind(cfg)], acts + [leave];
    LeftBehindIsLive(cfg);
  }
}

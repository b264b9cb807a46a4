/** Runs that show where the binding theorems end: what a cut dial can leave behind, and what a worker
    id that goes on after one can do. */
module MacroWitnesses {
  import opened Wrappers
  import opened Enums
  import opened Documents
  import opened StoreOps
  import opened MacroProtocol
  import opened MacroSafety
  import opened MacroWrites
  import opened MacroHarms
  import opened MacroRuns
  import opened AllocatorSpec
  import opened InvariantChecker
  import MacroSteps
  import RecoveryItems
  import AgentRepo
  import CallRepo

  function IdleAgent(): Agent {
    Agent(0, AgentState.Available, 0, None, None, None, 0, Ledger(0, 0, 0, 0))
  }

  function DueBorrower(): Borrower {
    Borrower(0, BorrowerStatus.Pending, 0, None, 0, None, 0)
  }

  /** One agent, two borrowers, two workers. */
  function Start(): Macro {
    var s := Store(map[0 := IdleAgent()], map[0 := DueBorrower(), 1 := DueBorrower()], map[], map[], map[], {});
    Macro(s, 0, {1, 2}, {1, 2}, map[], map[], map[], map[], map[], 0)
  }

  function FirstOrder(): Order {
    Order(0, 0, 0, 0, 10, 0)
  }

  /** The same agent with the other borrower. */
  function SecondOrder(at: Time): Order {
    Order(0, 0, 1, 0, 11, at)
  }

  function FirstKey(): Key {
    Key(0, 0, 0, 1)
  }

  function ClaimedOnce(cfg: Config): Agent {
    IdleAgent().(state := AgentState.Reserved, lease := NewLease(1, cfg.ttl, 0), version := 1)
  }

  /** Worker 1 stopped right after INITIATED: the agent never learned about the call. */
  function CutStore(cfg: Config): Store {
    var s := Start().store;
    s.(agents := map[0 := ClaimedOnce(cfg)],
       borrowers := s.borrowers[0 := DueBorrower().(status := BorrowerStatus.Reserved, lease := NewLease(1, cfg.ttl, 0), version := 1)],
       calls := map[10 := Call(FirstKey(), CallState.Initiated, 0, None, 1, None, 0)],
       byKey := map[FirstKey() := 10])
  }

  function AfterCut(cfg: Config): Macro {
    Start().(store := CutStore(cfg), live := {2}, cuts := 1)
  }

  lemma CutStep(cfg: Config)
    ensures Next(cfg, Start(), CutDial(1, FirstOrder(), 5, 0)) == Some(AfterCut(cfg))
  {
    InitiationInClosedForm(cfg, Start().store, 1, FirstOrder(), 0);
    assert DialWrites(cfg, Start().store, 1, FirstOrder(), 0, 5) == CutStore(cfg);
    assert Gone(Start(), 1) == Start().(live := {2});
  }

  /** The lease runs out, the sweep frees the agent without knowing of the call, worker v dials it. */
  function Again(cfg: Config, v: WorkerId): seq<Action> {
    [Tick(cfg.ttl + 1), BeginPass(0), FindAgents(0, {0}), DoAgent(0, 0, 3), Dial(v, SecondOrder(cfg.ttl + 1))]
  }

  function FreedOnce(cfg: Config): Agent {
    ClaimedOnce(cfg).(state := AgentState.Available, stateChangedAt := cfg.ttl + 1, lease := None, version := 2)
  }

  /** The worlds of those five steps, up to the dial. */
  function Swept(cfg: Config, m: Macro): seq<Macro> {
    var t := cfg.ttl + 1;
    var m1 := m.(clock := t);
    [m, m1, m1.(passes := map[0 := Started(t)]),
     m1.(passes := map[0 := AgentSweep(t, map[0 := ClaimedOnce(cfg)], true)]),
     m1.(passes := map[0 := AgentSweep(t, map[], true)], store := m.store.(agents := map[0 := FreedOnce(cfg)]))]
  }

  lemma SweepSteps(cfg: Config, m: Macro, v: WorkerId)
    requires cfg.ttl >= 0 && m.store == CutStore(cfg) && m.clock == 0 && m.passes == map[]
    ensures forall k | 0 <= k < 4 :: Next(cfg, Swept(cfg, m)[k], Again(cfg, v)[k]) == Some(Swept(cfg, m)[k + 1])
  {
    var ms := Swept(cfg, m);
    assert Next(cfg, ms[0], Again(cfg, v)[0]) == Some(ms[1]);
    assert Next(cfg, ms[1], Again(cfg, v)[1]) == Some(ms[2]);
    FindStep(cfg, m);
    FreeStep(cfg, m);
  }

  lemma FindsAgent(cfg: Config, s: Store)
    requires cfg.ttl >= 0 && s == CutStore(cfg)
    ensures FoundAgents(s, cfg.ttl + 1, {0}) == AgentSweep(cfg.ttl + 1, map[0 := ClaimedOnce(cfg)], true)
    ensures ExpiredAgents(s, cfg.ttl + 1).Keys == {0}
  {
    assert ExpiredAgents(s, cfg.ttl + 1) == map[0 := ClaimedOnce(cfg)];
  }

  lemma FindStep(cfg: Config, m: Macro)
    requires cfg.ttl >= 0 && m.store == CutStore(cfg)
    ensures Next(cfg, Swept(cfg, m)[2], FindAgents(0, {0})) == Some(Swept(cfg, m)[3])
  {
    FindsAgent(cfg, m.store);
    assert Swept(cfg, m)[2].passes[0 := AgentSweep(cfg.ttl + 1, map[0 := ClaimedOnce(cfg)], true)] == Swept(cfg, m)[3].passes;
  }

  lemma FreeStep(cfg: Config, m: Macro)
    requires cfg.ttl >= 0 && m.store == CutStore(cfg)
    ensures Next(cfg, Swept(cfg, m)[3], DoAgent(0, 0, 3)) == Some(Swept(cfg, m)[4])
  {
    SweptAgent(cfg, m);
    assert Swept(cfg, m)[3].passes[0].agents - {0} == map[];
    assert Swept(cfg, m)[3].passes[0 := AgentSweep(cfg.ttl + 1, map[], true)] == Swept(cfg, m)[4].passes;
  }

  lemma SweptAgent(cfg: Config, m: Macro)
    requires cfg.ttl >= 0 && m.store == CutStore(cfg)
    ensures RecoveryItems.LeaseItem(cfg, m.store, 0, ClaimedOnce(cfg), cfg.ttl + 1, cfg.ttl + 1, 3)
            == m.store.(agents := map[0 := FreedOnce(cfg)])
  {
    assert AgentRepo.ReleaseExpired(ClaimedOnce(cfg), ClaimedOnce(cfg), cfg.ttl + 1) == Some(FreedOnce(cfg));
  }

  lemma SecondDial(cfg: Config, m: Macro, v: WorkerId) returns (last: Macro)
    requires cfg.ttl >= 0 && m.store == CutStore(cfg).(agents := map[0 := FreedOnce(cfg)]) && m.clock == cfg.ttl + 1
    requires v in m.live && m.waiting == map[]
    requires m.binder == map[]
    ensures Next(cfg, m, Dial(v, SecondOrder(cfg.ttl + 1))) == Some(last)
    ensures IsOnSecond(cfg, last, v) && last.clock == cfg.ttl + 1 && last.cuts == m.cuts
  {
    var o := SecondOrder(cfg.ttl + 1);
    assert KeyOf(m.store, o) == Key(0, 0, 1, 1) && DialledCall(m.store, o) == 11;
    assert CanDial(cfg, m, v, o);
    DialInClosedForm(cfg, m.store, v, o, cfg.ttl + 1);
    last := Next(cfg, m, Dial(v, o)).value;
  }

  /** A crash, a sweep and a dial. */
  lemma CutTrace(cfg: Config) returns (run: seq<Macro>, acts: seq<Action>)
    requires cfg.ttl >= 0
    ensures IsTrace(cfg, run, acts) && acts == [CutDial(1, FirstOrder(), 5, 0)] + Again(cfg, 2)
    ensures IsOnSecond(cfg, run[|acts|], 2) && run[|acts|].cuts == 1
  {
    CutStep(cfg);
    TraceStarts(cfg);
    OneMoreStep(cfg, [Start()], [], CutDial(1, FirstOrder(), 5, 0), AfterCut(cfg));
    run, acts := [Start()] + [AfterCut(cfg)], [] + [CutDial(1, FirstOrder(), 5, 0)];
    var last;
    run, acts, last := DialAgain(cfg, run, acts, 2);
  }

  /** A crash between INITIATED and the bind leaves a call nobody cancels; once the agent's lease is
      swept, another worker dials the same agent, and the checker reports both calls. */
  lemma CutDialsCollide(cfg: Config) returns (run: seq<Macro>, acts: seq<Action>, calls: seq<ActiveCall>)
    requires cfg.ttl >= 0
    ensures IsTrace(cfg, run, acts) && Unharmed(run, acts, |acts|) && forall k | 0 <= k < |acts| :: !acts[k].Resume?
    ensures run[|acts|].cuts == 1 && IsListing(run[|acts|].store, 0, calls) && !AllDiffer(calls, ByAgent)
    ensures Clashes(calls, ByAgent) == 1 && |calls| == |UsableOf(run[|acts|].store, 0)| + 1
  {
    run, acts := CutTrace(cfg);
    calls := BothCalls();
    OthersDoNoHarm(run, acts);
    BothCallsCollide(cfg, run[|acts|]);
  }

  /** A trace goes on with steps known one by one. */
  lemma Follow(cfg: Config, run: seq<Macro>, acts: seq<Action>, ms: seq<Macro>, more: seq<Action>)
    requires IsTrace(cfg, run, acts) && |ms| == |more| + 1 && run[|acts|] == ms[0]
    requires forall k | 0 <= k < |more| :: Next(cfg, ms[k], more[k]) == Some(ms[k + 1])
    ensures IsTrace(cfg, run + ms[1..], acts + more) && (run + ms[1..])[|acts + more|] == ms[|more|]
  {
    var r, a := run + ms[1..], acts + more;
    forall n | 0 <= n < |a| ensures Next(cfg, r[n], a[n]) == Some(r[n + 1]) {
      if n < |acts| {
        assert r[n] == run[n] && r[n + 1] == run[n + 1] && a[n] == acts[n];
      } else {
        assert r[n] == ms[n - |acts|] && r[n + 1] == ms[n - |acts| + 1] && a[n] == more[n - |acts|];
      }
    }
  }

  /** A trace that ends with the cut store goes on with the sweep. */
  lemma SweepAgain(cfg: Config, run: seq<Macro>, acts: seq<Action>, v: WorkerId)
    returns (more: seq<Macro>, all: seq<Action>)
    requires cfg.ttl >= 0 && IsTrace(cfg, run, acts)
    requires run[|acts|].store == CutStore(cfg) && run[|acts|].clock == 0 && run[|acts|].passes == map[]
    ensures IsTrace(cfg, more, all) && all == acts + Again(cfg, v)[..4] && more[|all|] == Swept(cfg, run[|acts|])[4]
  {
    var ms, steps := Swept(cfg, run[|acts|]), Again(cfg, v)[..4];
    SweepSteps(cfg, run[|acts|], v);
    Follow(cfg, run, acts, ms, steps);
    more, all := run + ms[1..], acts + steps;
  }

  /** And then with a dial by v. */
  lemma DialAgain(cfg: Config, run: seq<Macro>, acts: seq<Action>, v: WorkerId)
    returns (more: seq<Macro>, all: seq<Action>, last: Macro)
    requires cfg.ttl >= 0 && IsTrace(cfg, run, acts) && run[|acts|].store == CutStore(cfg)
    requires run[|acts|].clock == 0 && run[|acts|].passes == map[] && run[|acts|].waiting == map[] && v in run[|acts|].live
    requires run[|acts|].binder == map[]
    ensures IsTrace(cfg, more, all) && all == acts + Again(cfg, v) && more[|all|] == last
    ensures IsOnSecond(cfg, last, v) && last.clock == cfg.ttl + 1 && last.cuts == run[|acts|].cuts
  {
    more, all := SweepAgain(cfg, run, acts, v);
    last := SecondDial(cfg, more[|all|], v);
    OneMoreStep(cfg, more, all, Dial(v, SecondOrder(cfg.ttl + 1)), last);
    more, all := more + [last], all + [Dial(v, SecondOrder(cfg.ttl + 1))];
    assert Again(cfg, v) == Again(cfg, v)[..4] + [Dial(v, SecondOrder(cfg.ttl + 1))];
  }

  /** The store of both calls, worker v on the second. */
  ghost predicate IsOnSecond(cfg: Config, m: Macro, v: WorkerId) {
    && m.store.calls == CutStore(cfg).calls[11 := Call(Key(0, 0, 1, 1), CallState.Initiated, 0, None, v, None, cfg.ttl + 1)]
    && m.store.agents.Keys == {0} && HeldBy(m.store.agents[0].lease, v) && m.store.agents[0].state.Dialing?
    && m.store.agents[0].campaign == 0 && m.binder == map[11 := v]
  }

  /** The steps that can do harm. */
  predicate CanHarm(act: Action) {
    act.DoOrphan? || act.DoBorrower? || act.Self? || act.Abort?
  }

  lemma OthersDoNoHarm(run: seq<Macro>, acts: seq<Action>)
    requires |run| == |acts| + 1 && forall k | 0 <= k < |acts| :: !CanHarm(acts[k])
    ensures Unharmed(run, acts, |acts|)
  {
  }

  function BothCalls(): seq<ActiveCall> {
    [ActiveCall(10, 0, 0), ActiveCall(11, 0, 1)]
  }

  lemma BothCallsCollide(cfg: Config, m: Macro)
    requires IsOnSecond(cfg, m, 2)
    ensures IsListing(m.store, 0, BothCalls()) && !AllDiffer(BothCalls(), ByAgent)
    ensures Clashes(BothCalls(), ByAgent) == 1 && |BothCalls()| == |UsableOf(m.store, 0)| + 1
  {
    var calls := BothCalls();
    assert IdOf(calls[0], ByAgent) == IdOf(calls[1], ByAgent);
    assert IdsOf(calls, 0, ByAgent) == {};
    assert IdsOf(calls, 1, ByAgent) == {0};
    assert IdsOf(calls, 2, ByAgent) == {0};
    assert UsableOf(m.store, 0) == {0};
  }

  /** A trace with one more step. */
  lemma OneMoreStep(cfg: Config, run: seq<Macro>, acts: seq<Action>, act: Action, m: Macro)
    requires IsTrace(cfg, run, acts) && Next(cfg, run[|acts|], act) == Some(m)
    ensures IsTrace(cfg, run + [m], acts + [act]) && (run + [m])[|acts + [act]|] == m
  {
    var r, a := run + [m], acts + [act];
    forall n | 0 <= n < |a| ensures Next(cfg, r[n], a[n]) == Some(r[n + 1]) {
      assert r[n] == run[n];
      if n < |acts| {
        assert r[n + 1] == run[n + 1] && a[n] == acts[n];
      }
    }
  }

  lemma TraceStarts(cfg: Config)
    ensures IsTrace(cfg, [Start()], [])
  {
  }

  /** The same worker goes on under its id and dials the agent again; when its lost call goes stale,
      the orphan sweep frees the agent under the new call, which stays live. */
  lemma ResumedIdLosesAgent(cfg: Config) returns (run: seq<Macro>, acts: seq<Action>)
    requires 0 <= cfg.ttl < cfg.staleTimeout
    ensures IsTrace(cfg, run, acts) && |acts| == 9 && acts[8] == DoOrphan(10, CallState.Failed, 3)
    ensures 10 in run[8].store.calls && CallRepo.IsStale(run[8].store.calls[10], run[8].clock - cfg.staleTimeout)
    ensures Unharmed(run, acts, 8) && Harms(run[8], acts[8]) && Bindings(run[8]) && !Bindings(run[9])
    ensures LiveBound(run[9], 11) && 0 in run[9].store.agents && run[9].store.agents[0].state.Available?
  {
    var last := DoOrphan(10, CallState.Failed, 3);
    run, acts := ResumedTrace(cfg);
    LostCallHarms(cfg, run[8]);
    TraceKeepsInv(cfg, run, acts, 8);
    HarmBreaks(cfg, run[8], last);
    FreedUnderCall(cfg, run[8]);
    OneMoreStep(cfg, run, acts, last, Next(cfg, run[8], last).value);
    run, acts := run + [Next(cfg, run[8], last).value], acts + [last];
  }

  /** The cut, and the worker goes on. */
  lemma CutAndResume(cfg: Config) returns (run: seq<Macro>, acts: seq<Action>)
    requires cfg.ttl >= 0
    ensures IsTrace(cfg, run, acts) && acts == [CutDial(1, FirstOrder(), 5, 0), Resume(1)]
    ensures run[2] == AfterCut(cfg).(live := AfterCut(cfg).live + {1})
  {
    CutStep(cfg);
    TraceStarts(cfg);
    var m2 := AfterCut(cfg).(live := AfterCut(cfg).live + {1});
    OneMoreStep(cfg, [Start()], [], CutDial(1, FirstOrder(), 5, 0), AfterCut(cfg));
    run, acts := [Start()] + [AfterCut(cfg)], [] + [CutDial(1, FirstOrder(), 5, 0)];
    OneMoreStep(cfg, run, acts, Resume(1), m2);
    run, acts := run + [m2], acts + [Resume(1)];
  }

  lemma ResumedTrace(cfg: Config) returns (run: seq<Macro>, acts: seq<Action>)
    requires 0 <= cfg.ttl < cfg.staleTimeout
    ensures IsTrace(cfg, run, acts) && |acts| == 8 && IsOnSecond(cfg, run[8], 1) && run[8].clock == cfg.staleTimeout + 1
    ensures Unharmed(run, acts, 8)
  {
    run, acts := CutAndResume(cfg);
    var last;
    run, acts, last := DialAgain(cfg, run, acts, 1);
    var m := last.(clock := cfg.staleTimeout + 1);
    OneMoreStep(cfg, run, acts, Tick(m.clock), m);
    run, acts := run + [m], acts + [Tick(m.clock)];
    OthersDoNoHarm(run, acts);
  }

  lemma LostCallHarms(cfg: Config, m: Macro)
    requires IsOnSecond(cfg, m, 1)
    ensures Harms(m, DoOrphan(10, CallState.Failed, 3))
  {
    assert LiveBound(m, 11) && m.binder[11] == m.store.calls[10].createdBy;
    assert !SparesAgent(m, 10);
  }

  lemma FreedUnderCall(cfg: Config, m: Macro)
    requires IsOnSecond(cfg, m, 1)
    ensures var m' := Next(cfg, m, DoOrphan(10, CallState.Failed, 3)).value;
            LiveBound(m', 11) && 0 in m'.store.agents && m'.store.agents[0].state.Available?
  {
    MacroSteps.OrphanShape(cfg, m, 10, CallState.Failed, 3);
  }
}

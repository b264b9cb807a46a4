/** Fine-grained runs that show where the timeout and time-budget theorems end. */
module FineWitnesses {
  import opened Wrappers
  import opened Enums
  import opened Documents
  import opened StoreOps
  import opened FineProtocol
  import opened Queries
  import opened ProviderEvents
  import opened OrphanTimeout
  import AgentRepo
  import AgentSm
  import AgentTime
  import BorrowerRepo
  import CallRepo
  import MacroWitnesses

  /** max_concurrent_calls of the one campaign. */
  ghost const CAPS: Caps := map[0 := 2]

  /** Two workers, one event processor and one recovery worker. */
  function At(s: Store, t: Time, p1: WorkerPc, p2: WorkerPc, e: EventPc, q: SweepPc, handed: seq<CallId>): World {
    World(s, t, [Worker(1, p1), Worker(2, p2)], [e], [q], handed)
  }

  function Claimed(a: Agent, w: WorkerId, ttl: Time, t: Time): Agent {
    a.(state := AgentState.Reserved, stateChangedAt := t, lease := NewLease(w, ttl, t), version := a.version + 1)
  }

  function Taken(b: Borrower, w: WorkerId, ttl: Time, t: Time): Borrower {
    b.(status := BorrowerStatus.Reserved, lease := NewLease(w, ttl, t), version := b.version + 1)
  }

  /** The store of one agent, one borrower and the call with id 10. */
  function Single(a: Agent, b: Borrower, c: Call): Store {
    Store(map[0 := a], map[0 := b], map[10 := c], map[c.key := 10], map[], {})
  }

  function Empty(a: Agent, b: Borrower): Store {
    Store(map[0 := a], map[0 := b], map[], map[], map[], {})
  }

  function FirstCall(): Call {
    CallRepo.NewCall(MacroWitnesses.FirstKey(), 0, 1, 0)
  }

  ghost predicate EndsIn(cfg: Config, run: seq<World>, w: World) {
    var isRun := IsRun(cfg, CAPS, run);
    isRun && |run| > 0 && run[|run| - 1] == w
  }

  /** The longer run goes on where the shorter one ended. */
  ghost predicate Leads(cfg: Config, run: seq<World>, longer: seq<World>, w: World) {
    var goesOn := run <= longer;
    EndsIn(cfg, longer, w) && goesOn
  }

  lemma OneMoreWorld(cfg: Config, run: seq<World>, act: Action, w: World)
    requires IsRun(cfg, CAPS, run) && Next(cfg, CAPS, run[|run| - 1], act) == Some(w)
    ensures IsRun(cfg, CAPS, run + [w]) && (run + [w])[|run + [w]| - 1] == w
  {
    var longer := run + [w];
    forall n | 0 <= n < |longer| - 1 ensures Step(cfg, CAPS, longer[n], longer[n + 1]) {
      if n < |run| - 1 {
        assert Step(cfg, CAPS, run[n], run[n + 1]);
      } else {
        assert Next(cfg, CAPS, longer[n], act) == Some(longer[n + 1]);
      }
    }
  }

  /** Worker 1 approves one call, claims the pair and creates the call. */
  lemma FirstDial(cfg: Config) returns (run: seq<World>)
    ensures IsRun(cfg, CAPS, run) && |run| == 5 && run[3].clock == 0 && run[3].store.calls == map[]
    ensures run[0].store == Empty(MacroWitnesses.IdleAgent(), MacroWitnesses.DueBorrower()) && run[0].clock == 0
    ensures run[4] == At(Single(Claimed(MacroWitnesses.IdleAgent(), 1, cfg.ttl, 0), Taken(MacroWitnesses.DueBorrower(), 1, cfg.ttl, 0), FirstCall()),
                         0, Dial(Created, 0, 0, Pair(0, 1, 0, 1), 10), Idle, Listening, Resting, [])
  {
    var a, b := MacroWitnesses.IdleAgent(), MacroWitnesses.DueBorrower();
    var w0 := At(Empty(a, b), 0, Idle, Idle, Listening, Resting, []);
    run := [w0];
    assert IsRun(cfg, CAPS, run);
    var s2 := Empty(Claimed(a, 1, cfg.ttl, 0), b);
    var s3 := Empty(Claimed(a, 1, cfg.ttl, 0), Taken(b, 1, cfg.ttl, 0));
    ApproveStep(cfg, Empty(a, b), 0, Idle, Listening, Resting);
    run := Extend(cfg, run, ByWorker(0, Approve(0, 1)), At(Empty(a, b), 0, Ready(0, 1), Idle, Listening, Resting, []));
    ClaimAgentStep(cfg, Empty(a, b), 0, Idle, Listening, Resting, a, s2);
    run := Extend(cfg, run, ByWorker(0, ClaimAgent(0)), At(s2, 0, HasAgent(0, 0, 0, 1), Idle, Listening, Resting, []));
    ClaimBorrowerStep(cfg, s2, 0, Listening, Resting, b, s3);
    run := Extend(cfg, run, ByWorker(0, ClaimBorrower(0)), At(s3, 0, HasPair(0, 0, Pair(0, 1, 0, 1)), Idle, Listening, Resting, []));
    CreateStep(cfg, s3);
    run := Extend(cfg, run, ByWorker(0, Create(10, 0)),
                  At(Single(Claimed(a, 1, cfg.ttl, 0), Taken(b, 1, cfg.ttl, 0), FirstCall()), 0, Dial(Created, 0, 0, Pair(0, 1, 0, 1), 10), Idle, Listening, Resting, []));
  }

  lemma Extend(cfg: Config, run: seq<World>, act: Action, w: World) returns (longer: seq<World>)
    requires IsRun(cfg, CAPS, run) && Next(cfg, CAPS, run[|run| - 1], act) == Some(w)
    ensures IsRun(cfg, CAPS, longer) && longer == run + [w] && longer[|longer| - 1] == w
  {
    OneMoreWorld(cfg, run, act, w);
    longer := run + [w];
  }

  lemma ApproveStep(cfg: Config, s: Store, t: Time, p2: WorkerPc, e: EventPc, q: SweepPc)
    requires s.calls == map[]
    ensures Next(cfg, CAPS, At(s, t, Idle, p2, e, q, []), ByWorker(0, Approve(0, 1))) == Some(At(s, t, Ready(0, 1), p2, e, q, []))
  {
    assert ActiveCallsOf(s, 0) == {};
    assert [Worker(1, Idle), Worker(2, p2)][0 := Worker(1, Ready(0, 1))] == [Worker(1, Ready(0, 1)), Worker(2, p2)];
  }

  lemma ClaimAgentStep(cfg: Config, s: Store, t: Time, p2: WorkerPc, e: EventPc, q: SweepPc, a: Agent, s': Store)
    requires s.agents == map[0 := a] && a.campaign == 0 && a.state.Available?
    requires s' == s.(agents := map[0 := Claimed(a, 1, cfg.ttl, t)])
    ensures Next(cfg, CAPS, At(s, t, Ready(0, 1), p2, e, q, []), ByWorker(0, ClaimAgent(0)))
            == Some(At(s', t, HasAgent(0, 0, 0, a.version + 1), p2, e, q, []))
  {
    assert s.agents[0 := Claimed(a, 1, cfg.ttl, t)] == s'.agents;
    var next := HasAgent(0, 0, 0, a.version + 1);
    assert [Worker(1, Ready(0, 1)), Worker(2, p2)][0 := Worker(1, next)] == [Worker(1, next), Worker(2, p2)];
  }

  lemma ClaimBorrowerStep(cfg: Config, s: Store, t: Time, e: EventPc, q: SweepPc, b: Borrower, s': Store)
    requires s.borrowers == map[0 := b] && b.campaign == 0 && b.status.Pending? && b.nextEligibleAt <= t && b.attempts == 0
    requires s' == s.(borrowers := map[0 := Taken(b, 1, cfg.ttl, t)])
    ensures Next(cfg, CAPS, At(s, t, HasAgent(0, 0, 0, 1), Idle, e, q, []), ByWorker(0, ClaimBorrower(0)))
            == Some(At(s', t, HasPair(0, 0, Pair(0, 1, 0, 1)), Idle, e, q, []))
  {
    assert s.borrowers[0 := Taken(b, 1, cfg.ttl, t)] == s'.borrowers;
    var next := HasPair(0, 0, Pair(0, 1, 0, 1));
    assert [Worker(1, HasAgent(0, 0, 0, 1)), Worker(2, Idle)][0 := Worker(1, next)] == [Worker(1, next), Worker(2, Idle)];
  }

  lemma CreateStep(cfg: Config, s: Store)
    requires s.calls == map[] && s.byKey == map[] && s.byRef == map[] && s.events == {}
    ensures Next(cfg, CAPS, At(s, 0, HasPair(0, 0, Pair(0, 1, 0, 1)), Idle, Listening, Resting, []), ByWorker(0, Create(10, 0)))
            == Some(At(s.(calls := map[10 := FirstCall()], byKey := map[MacroWitnesses.FirstKey() := 10]), 0,
                       Dial(Created, 0, 0, Pair(0, 1, 0, 1), 10), Idle, Listening, Resting, []))
  {
    var p, next := HasPair(0, 0, Pair(0, 1, 0, 1)), Dial(Created, 0, 0, Pair(0, 1, 0, 1), 10);
    assert s.calls[10 := FirstCall()] == map[10 := FirstCall()];
    assert s.byKey[MacroWitnesses.FirstKey() := 10] == map[MacroWitnesses.FirstKey() := 10];
    assert [Worker(1, p), Worker(2, Idle)][0 := Worker(1, next)] == [Worker(1, next), Worker(2, Idle)];
  }

  // A call that its dial found is swept

  /** When the first worker's claims have run out. */
  function Lapsed(cfg: Config): Time {
    cfg.ttl + 1
  }

  /** When the second worker claims: late enough for the call to go stale within its lease. */
  function Later(cfg: Config): Time {
    if cfg.staleTimeout + 1 - cfg.ttl > Lapsed(cfg) then cfg.staleTimeout + 1 - cfg.ttl else Lapsed(cfg)
  }

  function FirstAgent(cfg: Config): Agent {
    Claimed(MacroWitnesses.IdleAgent(), 1, cfg.ttl, 0)
  }

  function FirstBorrower(cfg: Config): Borrower {
    Taken(MacroWitnesses.DueBorrower(), 1, cfg.ttl, 0)
  }

  function FreeAgent(cfg: Config): Agent {
    FirstAgent(cfg).(state := AgentState.Available, stateChangedAt := Lapsed(cfg), lease := None, version := 2)
  }

  function FreeBorrower(cfg: Config): Borrower {
    FirstBorrower(cfg).(status := BorrowerStatus.Pending, nextEligibleAt := Lapsed(cfg), lease := None, version := 2)
  }

  /** Worker 1 has died right after create_call. */
  function Died(): WorkerPc {
    Dial(Created, 0, 0, Pair(0, 1, 0, 1), 10)
  }

  lemma SetSame<K, V>(m: map<K, V>, k: K, x: V, y: V)
    requires m == map[k := x]
    ensures m[k := y] == map[k := y]
  {
  }

  /** The lease sweeps hand agent and borrower back; the call is not touched. */
  lemma LeasesLapse(cfg: Config, run: seq<World>) returns (longer: seq<World>)
    requires cfg.ttl >= 0
    requires EndsIn(cfg, run,
                    At(Single(FirstAgent(cfg), FirstBorrower(cfg), FirstCall()), 0, Died(), Idle, Listening, Resting, []))
    ensures EndsIn(cfg, longer,
                   At(Single(FreeAgent(cfg), FreeBorrower(cfg), FirstCall()), Lapsed(cfg), Died(), Idle, Listening, Resting, []))
  {
    var a, b, t := FirstAgent(cfg), FirstBorrower(cfg), Lapsed(cfg);
    var s1, s2, s3 := Single(a, b, FirstCall()), Single(FreeAgent(cfg), b, FirstCall()), Single(FreeAgent(cfg), FreeBorrower(cfg), FirstCall());
    longer := Extend(cfg, run, Tick(t), At(s1, t, Died(), Idle, Listening, Resting, []));
    SweepAct(cfg, s1, t, Resting, FindAgent(LeaseItem, 0, t), s1, Found(LeaseItem, 0, a, t));
    longer := Extend(cfg, longer, BySweep(0, FindAgent(LeaseItem, 0, t)), At(s1, t, Died(), Idle, Listening, Found(LeaseItem, 0, a, t), []));
    SweepAct(cfg, s1, t, Found(LeaseItem, 0, a, t), Sweep, s1, Freeing(LeaseItem, 0, a, t));
    longer := Extend(cfg, longer, BySweep(0, Sweep), At(s1, t, Died(), Idle, Listening, Freeing(LeaseItem, 0, a, t), []));
    SetSame(s1.agents, 0, a, FreeAgent(cfg));
    SweepAct(cfg, s1, t, Freeing(LeaseItem, 0, a, t), Sweep, s2, Resting);
    longer := Extend(cfg, longer, BySweep(0, Sweep), At(s2, t, Died(), Idle, Listening, Resting, []));
    SweepAct(cfg, s2, t, Resting, FindBorrower(0, t), s2, Reclaiming(0, b, t));
    longer := Extend(cfg, longer, BySweep(0, FindBorrower(0, t)), At(s2, t, Died(), Idle, Listening, Reclaiming(0, b, t), []));
    SetSame(s2.borrowers, 0, b, FreeBorrower(cfg));
    SweepAct(cfg, s2, t, Reclaiming(0, b, t), Sweep, s3, Resting);
    longer := Extend(cfg, longer, BySweep(0, Sweep), At(s3, t, Died(), Idle, Listening, Resting, []));
  }

  /** One step of the recovery worker, from what it does to the store and to its own counter. */
  lemma SweepAct(cfg: Config, s: Store, t: Time, q: SweepPc, act: SweepAction, s': Store, q': SweepPc)
    requires !act.Stop?
    requires var w := At(s, t, Died(), Idle, Listening, q, []);
             if act.Sweep? then SweepStep(cfg, w, q) == (s', q')
             else q.Resting? && FindStep(w, act) == Some(q') && s' == s
    ensures Next(cfg, CAPS, At(s, t, Died(), Idle, Listening, q, []), BySweep(0, act))
            == Some(At(s', t, Died(), Idle, Listening, q', []))
  {
    assert [q][0 := q'] == [q'];
  }

  function SecondAgent(cfg: Config): Agent {
    Claimed(FreeAgent(cfg), 2, cfg.ttl, Later(cfg))
  }

  function SecondBorrower(cfg: Config): Borrower {
    Taken(FreeBorrower(cfg), 2, cfg.ttl, Later(cfg))
  }

  /** The stores worker 2 goes through. */
  function Stored(cfg: Config, a: Agent, b: Borrower): Store {
    Single(a, b, FirstCall())
  }

  lemma SecondApproves(cfg: Config)
    ensures var s := Stored(cfg, FreeAgent(cfg), FreeBorrower(cfg));
            Next(cfg, CAPS, At(s, Later(cfg), Died(), Idle, Listening, Resting, []), ByWorker(1, Approve(0, 1)))
            == Some(At(s, Later(cfg), Died(), Ready(0, 1), Listening, Resting, []))
  {
    var s := Stored(cfg, FreeAgent(cfg), FreeBorrower(cfg));
    assert ActiveCallsOf(s, 0) == {};
    SecondAct(cfg, s, Later(cfg), Idle, Approve(0, 1), s, Ready(0, 1));
  }

  lemma SecondClaimsAgent(cfg: Config)
    ensures Next(cfg, CAPS, At(Stored(cfg, FreeAgent(cfg), FreeBorrower(cfg)), Later(cfg), Died(), Ready(0, 1), Listening, Resting, []), ByWorker(1, ClaimAgent(0)))
            == Some(At(Stored(cfg, SecondAgent(cfg), FreeBorrower(cfg)), Later(cfg), Died(), HasAgent(0, 0, 0, 3), Listening, Resting, []))
  {
    var s, s' := Stored(cfg, FreeAgent(cfg), FreeBorrower(cfg)), Stored(cfg, SecondAgent(cfg), FreeBorrower(cfg));
    SetSame(s.agents, 0, FreeAgent(cfg), SecondAgent(cfg));
    SecondAct(cfg, s, Later(cfg), Ready(0, 1), ClaimAgent(0), s', HasAgent(0, 0, 0, 3));
  }

  lemma SecondClaimsBorrower(cfg: Config)
    requires cfg.ttl >= 0
    ensures Next(cfg, CAPS, At(Stored(cfg, SecondAgent(cfg), FreeBorrower(cfg)), Later(cfg), Died(), HasAgent(0, 0, 0, 3), Listening, Resting, []), ByWorker(1, ClaimBorrower(0)))
            == Some(At(Stored(cfg, SecondAgent(cfg), SecondBorrower(cfg)), Later(cfg), Died(), HasPair(0, 0, Pair(0, 3, 0, 1)), Listening, Resting, []))
  {
    var s, s' := Stored(cfg, SecondAgent(cfg), FreeBorrower(cfg)), Stored(cfg, SecondAgent(cfg), SecondBorrower(cfg));
    SetSame(s.borrowers, 0, FreeBorrower(cfg), SecondBorrower(cfg));
    SecondAct(cfg, s, Later(cfg), HasAgent(0, 0, 0, 3), ClaimBorrower(0), s', HasPair(0, 0, Pair(0, 3, 0, 1)));
  }

  /** create_call runs into the unique key and returns the old call. */
  lemma SecondFindsCall(cfg: Config)
    ensures var s := Stored(cfg, SecondAgent(cfg), SecondBorrower(cfg));
            Next(cfg, CAPS, At(s, Later(cfg), Died(), HasPair(0, 0, Pair(0, 3, 0, 1)), Listening, Resting, []), ByWorker(1, Create(11, 0)))
            == Some(At(s, Later(cfg), Died(), Dial(Created, 0, 0, Pair(0, 3, 0, 1), 10), Listening, Resting, []))
  {
    var s := Stored(cfg, SecondAgent(cfg), SecondBorrower(cfg));
    SecondAct(cfg, s, Later(cfg), HasPair(0, 0, Pair(0, 3, 0, 1)), Create(11, 0), s, Dial(Created, 0, 0, Pair(0, 3, 0, 1), 10));
  }

  /** Worker 2 claims the same pair and is handed the old call. */
  lemma SecondClaims(cfg: Config, run: seq<World>) returns (longer: seq<World>)
    requires 0 <= cfg.ttl < cfg.staleTimeout
    requires EndsIn(cfg, run,
                    At(Stored(cfg, FreeAgent(cfg), FreeBorrower(cfg)), Lapsed(cfg), Died(), Idle, Listening, Resting, []))
    ensures EndsIn(cfg, longer,
                   At(Stored(cfg, SecondAgent(cfg), SecondBorrower(cfg)), Later(cfg), Died(), Dial(Created, 0, 0, Pair(0, 3, 0, 1), 10), Listening, Resting, []))
  {
    var t := Later(cfg);
    var s1, s2, s3 := Stored(cfg, FreeAgent(cfg), FreeBorrower(cfg)), Stored(cfg, SecondAgent(cfg), FreeBorrower(cfg)), Stored(cfg, SecondAgent(cfg), SecondBorrower(cfg));
    longer := Extend(cfg, run, Tick(t), At(s1, t, Died(), Idle, Listening, Resting, []));
    SecondApproves(cfg);
    longer := Extend(cfg, longer, ByWorker(1, Approve(0, 1)), At(s1, t, Died(), Ready(0, 1), Listening, Resting, []));
    SecondClaimsAgent(cfg);
    longer := Extend(cfg, longer, ByWorker(1, ClaimAgent(0)), At(s2, t, Died(), HasAgent(0, 0, 0, 3), Listening, Resting, []));
    SecondClaimsBorrower(cfg);
    longer := Extend(cfg, longer, ByWorker(1, ClaimBorrower(0)), At(s3, t, Died(), HasPair(0, 0, Pair(0, 3, 0, 1)), Listening, Resting, []));
    SecondFindsCall(cfg);
    longer := Extend(cfg, longer, ByWorker(1, Create(11, 0)), At(s3, t, Died(), Dial(Created, 0, 0, Pair(0, 3, 0, 1), 10), Listening, Resting, []));
  }

  lemma SecondAct(cfg: Config, s: Store, t: Time, p: WorkerPc, act: WorkerAction, s': Store, p': WorkerPc)
    requires var w := At(s, t, Died(), p, Listening, Resting, []);
             if act.Proceed? then p.Dial? && !p.stage.Waiting? && DialStep(cfg, w, 2, p) == (w.(store := s'), p')
             else !act.Restart? && !act.Cancel? && !act.Refuse? && !act.Accept?
                  && ClaimStep(cfg, CAPS, w, Worker(2, p), act) == Some((w.(store := s'), p'))
    ensures Next(cfg, CAPS, At(s, t, Died(), p, Listening, Resting, []), ByWorker(1, act))
            == Some(At(s', t, Died(), p', Listening, Resting, []))
  {
    assert [Worker(1, Died()), Worker(2, p)][1 := Worker(2, p')] == [Worker(1, Died()), Worker(2, p')];
  }

  /** The run behind FoundCallIsSafeIff: under every accepted configuration there is a run in which a
      live worker holds a pair by an unexpired lease, the call it found is selected as orphaned and
      ended, and its dial then fails to initiate it. */
  lemma FoundCallIsLost(cfg: Config, providerTimeout: Time) returns (run: seq<World>, n: nat)
    requires IsAccepted(cfg, providerTimeout) && cfg.ttl >= 0 && providerTimeout >= 0
    ensures IsRun(cfg, CAPS, run) && n + 4 == |run|
    ensures |run[n].workers| == 2 && run[n].workers[1].pc == Dial(Created, 0, 0, Pair(0, 3, 0, 1), 10)
    ensures 0 in run[n].store.agents && HeldBy(run[n].store.agents[0].lease, 2) && !Expired(run[n].store.agents[0].lease, run[n].clock)
    ensures SelectedAt(cfg, run[n], 10) && !IsTerminal(run[n].store.calls[10].state)
    ensures |run[n + 3].workers| == 2 && run[n + 3].workers[1].pc.Dial? && run[n + 3].workers[1].pc.stage.Marked?
    ensures TransitionCall(run[n + 3].store, 10, CallState.Initiated, run[n + 3].clock).None?
  {
    run := FirstDial(cfg);
    run := LeasesLapse(cfg, run);
    run := SecondClaims(cfg, run);
    var t := cfg.staleTimeout + 1;
    var p, s := Dial(Created, 0, 0, Pair(0, 3, 0, 1), 10), Single(SecondAgent(cfg), SecondBorrower(cfg), FirstCall());
    run := Extend(cfg, run, Tick(t), At(s, t, Died(), p, Listening, Resting, []));
    n := |run| - 1;
    run := CallIsSwept(cfg, run);
  }

  lemma CallIsSwept(cfg: Config, run: seq<World>) returns (longer: seq<World>)
    requires 0 <= cfg.ttl < cfg.staleTimeout && IsRun(cfg, CAPS, run)
    requires var p := Dial(Created, 0, 0, Pair(0, 3, 0, 1), 10);
             run[|run| - 1] == At(Single(SecondAgent(cfg), SecondBorrower(cfg), FirstCall()), cfg.staleTimeout + 1, Died(), p, Listening, Resting, [])
    ensures IsRun(cfg, CAPS, longer) && |longer| == |run| + 3 && run <= longer
    ensures var w := longer[|longer| - 1];
            && |w.workers| == 2 && w.workers[1].pc == Dial(Marked, 0, 0, Pair(0, 3, 0, 1), 10)
            && TransitionCall(w.store, 10, CallState.Initiated, w.clock).None?
  {
    var t := cfg.staleTimeout + 1;
    var p, q := Dial(Created, 0, 0, Pair(0, 3, 0, 1), 10), Dial(Marked, 0, 0, Pair(0, 3, 0, 1), 10);
    var lost := FirstCall().(state := CallState.Failed, updatedAt := t);
    var s1, s2 := Single(SecondAgent(cfg), SecondBorrower(cfg), FirstCall()), Single(SecondAgent(cfg), SecondBorrower(cfg), lost);
    var find := FindCall(10, CallState.Failed, t - cfg.staleTimeout);
    assert [Resting][0 := Reconciled(10, CallState.Failed)] == [Reconciled(10, CallState.Failed)];
    longer := Extend(cfg, run, BySweep(0, find), At(s1, t, Died(), p, Listening, Reconciled(10, CallState.Failed), []));
    SetSame(s1.calls, 10, FirstCall(), lost);
    assert [Reconciled(10, CallState.Failed)][0 := FreeingParties(lost)] == [FreeingParties(lost)];
    longer := Extend(cfg, longer, BySweep(0, Sweep), At(s2, t, Died(), p, Listening, FreeingParties(lost), []));
    assert [Worker(1, Died()), Worker(2, p)][1 := Worker(2, q)] == [Worker(1, Died()), Worker(2, q)];
    longer := Extend(cfg, longer, ByWorker(1, Proceed), At(s2, t, Died(), q, Listening, FreeingParties(lost), []));
  }

  // A late release counts time twice

  /** The store with the call attached to a provider reference, and the events recorded so far. */
  function With(a: Agent, b: Borrower, c: Call, events: set<Ref>): Store {
    Store(map[0 := a], map[0 := b], map[10 := c], map[c.key := 10],
          if c.providerCallId.Some? then map[Ref(0, 7) := 10] else map[], events)
  }

  function InState(c: Call, state: CallState, t: Time): Call {
    c.(state := state, updatedAt := t)
  }

  function DialingAgent(cfg: Config): Agent {
    FirstAgent(cfg).(state := AgentState.Dialing, version := 2)
  }

  function BoundAgent(cfg: Config): Agent {
    DialingAgent(cfg).(currentCall := Some(10))
  }

  function HandedCall(): Call {
    InState(FirstCall(), CallState.Initiated, 0).(providerCallId := Some(7))
  }

  lemma FirstAct(cfg: Config, s: Store, p: WorkerPc, handed: seq<CallId>, s': Store, p': WorkerPc, handed': seq<CallId>)
    requires var w := At(s, 0, p, Idle, Listening, Resting, handed);
             p.Dial? && !p.stage.Waiting? && DialStep(cfg, w, 1, p) == (w.(store := s', handed := handed'), p')
    ensures Next(cfg, CAPS, At(s, 0, p, Idle, Listening, Resting, handed), ByWorker(0, Proceed))
            == Some(At(s', 0, p', Idle, Listening, Resting, handed'))
  {
    assert [Worker(1, p), Worker(2, Idle)][0 := Worker(1, p')] == [Worker(1, p'), Worker(2, Idle)];
  }

  function Stage1(stage: Stage): WorkerPc {
    Dial(stage, 0, 0, Pair(0, 1, 0, 1), 10)
  }

  /** From create_call to INITIATED. */
  lemma FirstInitiates(cfg: Config, run: seq<World>) returns (longer: seq<World>)
    requires EndsIn(cfg, run,
                    At(With(FirstAgent(cfg), FirstBorrower(cfg), FirstCall(), {}), 0, Stage1(Created), Idle, Listening, Resting, []))
    ensures Leads(cfg, run, longer,
                  At(With(FirstAgent(cfg), FirstBorrower(cfg), InState(FirstCall(), CallState.Initiated, 0), {}), 0, Stage1(Stage.Initiated), Idle, Listening, Resting, []))
    ensures |longer| == |run| + 2 && longer[|run|].clock == 0
    ensures 10 in longer[|run|].store.calls && longer[|run|].store.calls[10].state.Reserved?
  {
    var a, b := FirstAgent(cfg), FirstBorrower(cfg);
    var c0, c1, c2 := FirstCall(), InState(FirstCall(), CallState.Reserved, 0), InState(FirstCall(), CallState.Initiated, 0);
    SetSame(With(a, b, c0, {}).calls, 10, c0, c1);
    FirstAct(cfg, With(a, b, c0, {}), Stage1(Created), [], With(a, b, c1, {}), Stage1(Marked), []);
    longer := Extend(cfg, run, ByWorker(0, Proceed), At(With(a, b, c1, {}), 0, Stage1(Marked), Idle, Listening, Resting, []));
    SetSame(With(a, b, c1, {}).calls, 10, c1, c2);
    FirstAct(cfg, With(a, b, c1, {}), Stage1(Marked), [], With(a, b, c2, {}), Stage1(Stage.Initiated), []);
    longer := Extend(cfg, longer, ByWorker(0, Proceed), At(With(a, b, c2, {}), 0, Stage1(Stage.Initiated), Idle, Listening, Resting, []));
  }

  /** The agent goes DIALING and is bound to the call. */
  lemma FirstBinds(cfg: Config, run: seq<World>) returns (longer: seq<World>)
    requires EndsIn(cfg, run,
                    At(With(FirstAgent(cfg), FirstBorrower(cfg), InState(FirstCall(), CallState.Initiated, 0), {}), 0, Stage1(Stage.Initiated), Idle, Listening, Resting, []))
    ensures Leads(cfg, run, longer,
                  At(With(BoundAgent(cfg), FirstBorrower(cfg), InState(FirstCall(), CallState.Initiated, 0), {}), 0, Stage1(Bound), Idle, Listening, Resting, []))
  {
    var a, b, c := FirstAgent(cfg), FirstBorrower(cfg), InState(FirstCall(), CallState.Initiated, 0);
    SetSame(With(a, b, c, {}).agents, 0, a, DialingAgent(cfg));
    FirstAct(cfg, With(a, b, c, {}), Stage1(Stage.Initiated), [], With(DialingAgent(cfg), b, c, {}), Stage1(AgentMoved), []);
    longer := Extend(cfg, run, ByWorker(0, Proceed), At(With(DialingAgent(cfg), b, c, {}), 0, Stage1(AgentMoved), Idle, Listening, Resting, []));
    SetSame(With(DialingAgent(cfg), b, c, {}).agents, 0, DialingAgent(cfg), BoundAgent(cfg));
    FirstAct(cfg, With(DialingAgent(cfg), b, c, {}), Stage1(AgentMoved), [], With(BoundAgent(cfg), b, c, {}), Stage1(Bound), []);
    longer := Extend(cfg, longer, ByWorker(0, Proceed), At(With(BoundAgent(cfg), b, c, {}), 0, Stage1(Bound), Idle, Listening, Resting, []));
  }

  // What the stale timeout must be

  /** A lease longer than the stale timeout: the call goes stale while its claim is still good. */
  lemma LongLeasesExpose(cfg: Config, providerTimeout: Time)
    requires cfg.ttl >= 0 && cfg.ttl > cfg.staleTimeout
    ensures !ProtectsSetup(cfg, providerTimeout)
  {
    var run := FirstDial(cfg);
    var w := run[4].(clock := cfg.ttl);
    var longer := Extend(cfg, run, Tick(cfg.ttl), w);
    assert Writes(longer, 3, 10);
    assert IsInSetup(cfg, CAPS, longer, providerTimeout, 3, 3, 0, 5, 10) && SelectedAt(cfg, longer[5], 10);
  }

  /** The same while the provider's answer is still due. */
  lemma SlowProvidersExpose(cfg: Config, providerTimeout: Time)
    requires providerTimeout >= 0 && providerTimeout > cfg.staleTimeout
    ensures !ProtectsSetup(cfg, providerTimeout)
  {
    var run := FirstDial(cfg);
    var dialled := FirstInitiates(cfg, run);
    assert dialled[3] == run[3] && dialled[4] == run[4];
    var longer := Extend(cfg, dialled, Tick(providerTimeout), dialled[6].(clock := providerTimeout));
    assert Writes(longer, 3, 10) && Writes(longer, 5, 10);
    assert IsInSetup(cfg, CAPS, longer, providerTimeout, 3, 3, 5, 7, 10) && SelectedAt(cfg, longer[7], 10);
  }

  /** The settings protect every dial that inserts its call exactly when the stale timeout is neither
      less than the lease nor less than the provider's timeout; the sum the program asks for is more
      than that. */
  lemma SettingsProtectIff(cfg: Config, providerTimeout: Time)
    requires cfg.ttl >= 0 && providerTimeout >= 0
    ensures ProtectsSetup(cfg, providerTimeout) <==> cfg.ttl <= cfg.staleTimeout && providerTimeout <= cfg.staleTimeout
    ensures IsAccepted(cfg, providerTimeout) ==> ProtectsSetup(cfg, providerTimeout)
  {
    if cfg.ttl > cfg.staleTimeout {
      LongLeasesExpose(cfg, providerTimeout);
    } else if providerTimeout > cfg.staleTimeout {
      SlowProvidersExpose(cfg, providerTimeout);
    } else {
      EnoughIsSafe(cfg, providerTimeout);
    }
  }

  lemma EnoughIsSafe(cfg: Config, providerTimeout: Time)
    requires cfg.ttl <= cfg.staleTimeout && providerTimeout <= cfg.staleTimeout
    ensures ProtectsSetup(cfg, providerTimeout)
  {
    forall caps: Caps, run: seq<World>, p: nat, m: nat, r: nat, n: nat, c: CallId
      | IsInSetup(cfg, caps, run, providerTimeout, p, m, r, n, c) ensures !SelectedAt(cfg, run[n], c)
    {
      LiveSetupIsNeverStale(cfg, caps, run, providerTimeout, p, m, r, n, c);
    }
  }

  // A dial cancelled after the bind

  function GivenBackAgent(cfg: Config): Agent {
    BoundAgent(cfg).(state := AgentState.Available, currentCall := None, lease := None, version := 3)
  }

  function GivenBackBorrower(cfg: Config): Borrower {
    FirstBorrower(cfg).(status := BorrowerStatus.Pending, lease := None, version := 2)
  }

  lemma CompensateAct(cfg: Config, s: Store, p: WorkerPc, act: WorkerAction, s': Store, p': WorkerPc)
    requires var w := At(s, 0, p, Idle, Listening, Resting, []);
             if act.Cancel? then InDial(p) && s' == s && p' == Compensating(p)
             else act.Proceed? && p.Drop? && DropStep(cfg, w, 1, p) == (w.(store := s'), p')
    ensures Next(cfg, CAPS, At(s, 0, p, Idle, Listening, Resting, []), ByWorker(0, act))
            == Some(At(s', 0, p', Idle, Listening, Resting, []))
  {
    assert [Worker(1, p), Worker(2, Idle)][0 := Worker(1, p')] == [Worker(1, p'), Worker(2, Idle)];
  }

  /** The compensation gives the pair back but does not end the call: it stays INITIATED, its agent is
      AVAILABLE and its borrower PENDING. */
  lemma CancelledDialLeavesCall(cfg: Config) returns (run: seq<World>, n: nat)
    ensures IsRun(cfg, CAPS, run) && n + 4 == |run|
    ensures 0 in run[n].store.agents && run[n].store.agents[0].currentCall == Some(10)
    ensures Next(cfg, CAPS, run[n], ByWorker(0, Cancel)) == Some(run[n + 1])
    ensures var w := run[n + 3];
            && w.workers == [Worker(1, Ready(0, 0)), Worker(2, Idle)] && w.clock == run[n].clock
            && 10 in w.store.calls && w.store.calls[10].state.Initiated?
            && 0 in w.store.agents && w.store.agents[0].state.Available? && w.store.agents[0].currentCall.None?
            && 0 in w.store.borrowers && w.store.borrowers[0].status.Pending?
  {
    run := FirstDial(cfg);
    run := FirstInitiates(cfg, run);
    run := FirstBinds(cfg, run);
    n := |run| - 1;
    run := GivenBack(cfg, run);
  }

  lemma GivenBack(cfg: Config, run: seq<World>) returns (longer: seq<World>)
    requires EndsIn(cfg, run,
                    At(With(BoundAgent(cfg), FirstBorrower(cfg), InState(FirstCall(), CallState.Initiated, 0), {}), 0, Stage1(Bound), Idle, Listening, Resting, []))
    ensures IsRun(cfg, CAPS, longer) && |longer| == |run| + 3 && run <= longer
    ensures Next(cfg, CAPS, run[|run| - 1], ByWorker(0, Cancel)) == Some(longer[|run|])
    ensures longer[|longer| - 1] == At(With(GivenBackAgent(cfg), GivenBackBorrower(cfg), InState(FirstCall(), CallState.Initiated, 0), {}), 0, Ready(0, 0), Idle, Listening, Resting, [])
  {
    var b, c := FirstBorrower(cfg), InState(FirstCall(), CallState.Initiated, 0);
    var s0, s1, s2 := With(BoundAgent(cfg), b, c, {}), With(GivenBackAgent(cfg), b, c, {}), With(GivenBackAgent(cfg), GivenBackBorrower(cfg), c, {});
    var drop := Compensating(Stage1(Bound));
    CompensateAct(cfg, s0, Stage1(Bound), Cancel, s0, drop);
    longer := Extend(cfg, run, ByWorker(0, Cancel), At(s0, 0, drop, Idle, Listening, Resting, []));
    SetSame(s0.agents, 0, BoundAgent(cfg), GivenBackAgent(cfg));
    CompensateAct(cfg, s0, drop, Proceed, s1, drop.(agentDone := true));
    longer := Extend(cfg, longer, ByWorker(0, Proceed), At(s1, 0, drop.(agentDone := true), Idle, Listening, Resting, []));
    SetSame(s1.borrowers, 0, b, GivenBackBorrower(cfg));
    CompensateAct(cfg, s1, drop.(agentDone := true), Proceed, s2, Ready(0, 0));
    longer := Extend(cfg, longer, ByWorker(0, Proceed), At(s2, 0, Ready(0, 0), Idle, Listening, Resting, []));
  }

  /** The provider accepts, and its call id is attached. */
  lemma FirstIsAccepted(cfg: Config, run: seq<World>) returns (longer: seq<World>)
    requires EndsIn(cfg, run,
                    At(With(BoundAgent(cfg), FirstBorrower(cfg), InState(FirstCall(), CallState.Initiated, 0), {}), 0, Stage1(Bound), Idle, Listening, Resting, []))
    ensures Leads(cfg, run, longer,
                  At(With(BoundAgent(cfg), FirstBorrower(cfg), HandedCall(), {}), 0, Ready(0, 0), Idle, Listening, Resting, [10]))
  {
    var a, b, c := BoundAgent(cfg), FirstBorrower(cfg), InState(FirstCall(), CallState.Initiated, 0);
    var s, s' := With(a, b, c, {}), With(a, b, HandedCall(), {});
    assert [] + [10] == [10];
    FirstAct(cfg, s, Stage1(Bound), [], s, Stage1(Waiting), [10]);
    longer := Extend(cfg, run, ByWorker(0, Proceed), At(s, 0, Stage1(Waiting), Idle, Listening, Resting, [10]));
    assert [Worker(1, Stage1(Waiting)), Worker(2, Idle)][0 := Worker(1, Stage1(Accepted(7)))] == [Worker(1, Stage1(Accepted(7))), Worker(2, Idle)];
    longer := Extend(cfg, longer, ByWorker(0, Accept(7)), At(s, 0, Stage1(Accepted(7)), Idle, Listening, Resting, [10]));
    SetSame(s.calls, 10, c, HandedCall());
    assert s.byRef[Ref(0, 7) := 10] == s'.byRef;
    FirstAct(cfg, s, Stage1(Accepted(7)), [10], s', Ready(0, 0), [10]);
    longer := Extend(cfg, longer, ByWorker(0, Proceed), At(s', 0, Ready(0, 0), Idle, Listening, Resting, [10]));
  }

  function Answer(): Event {
    Event(Ref(0, 1), Ref(0, 7), Known(CallState.Answered))
  }

  function AnsweredCall(t: Time): Call {
    HandedCall().(state := CallState.Answered, updatedAt := t, answeredAt := Some(t))
  }

  function ConnectedAgent(cfg: Config, t: Time): Agent {
    BoundAgent(cfg).(state := AgentState.Connected, stateChangedAt := t, version := 3, ledger := Ledger(t, 0, 0, 0))
  }

  lemma EventAct(cfg: Config, s: Store, t: Time, e: EventPc, act: EventAction, s': Store, e': EventPc)
    requires var w := At(s, t, Ready(0, 0), Idle, e, Resting, [10]);
             if act.Process? then EventStep(cfg, w, e) == (s', e')
             else act.Record? && e.Listening? && act.event.id !in s.events
                  && s' == s.(events := s.events + {act.event.id}) && e' == Recorded(act.event)
    ensures Next(cfg, CAPS, At(s, t, Ready(0, 0), Idle, e, Resting, [10]), ByProcessor(0, act))
            == Some(At(s', t, Ready(0, 0), Idle, e', Resting, [10]))
  {
    assert [e][0 := e'] == [e'];
  }

  /** The ANSWERED event arrives at t and moves the call. */
  lemma AnswerLands(cfg: Config, run: seq<World>, t: Time) returns (longer: seq<World>)
    requires t >= 0
    requires EndsIn(cfg, run,
                    At(With(BoundAgent(cfg), FirstBorrower(cfg), HandedCall(), {}), 0, Ready(0, 0), Idle, Listening, Resting, [10]))
    ensures Leads(cfg, run, longer,
                  At(With(BoundAgent(cfg), FirstBorrower(cfg), AnsweredCall(t), {Ref(0, 1)}), t, Ready(0, 0), Idle,
                  Applied(AnsweredCall(t), CallState.Answered), Resting, [10]))
  {
    var a, b, c, e := BoundAgent(cfg), FirstBorrower(cfg), HandedCall(), Answer();
    var s0, s1, s2 := With(a, b, c, {}), With(a, b, c, {Ref(0, 1)}), With(a, b, AnsweredCall(t), {Ref(0, 1)});
    longer := Extend(cfg, run, Tick(t), At(s0, t, Ready(0, 0), Idle, Listening, Resting, [10]));
    EventAct(cfg, s0, t, Listening, Record(e), s1, Recorded(e));
    longer := Extend(cfg, longer, ByProcessor(0, Record(e)), At(s1, t, Ready(0, 0), Idle, Recorded(e), Resting, [10]));
    EventAct(cfg, s1, t, Recorded(e), Process, s1, Decided(10, CallState.Answered));
    longer := Extend(cfg, longer, ByProcessor(0, Process), At(s1, t, Ready(0, 0), Idle, Decided(10, CallState.Answered), Resting, [10]));
    SetSame(s1.calls, 10, c, AnsweredCall(t));
    EventAct(cfg, s1, t, Decided(10, CallState.Answered), Process, s2, Applied(AnsweredCall(t), CallState.Answered));
    longer := Extend(cfg, longer, ByProcessor(0, Process), At(s2, t, Ready(0, 0), Idle, Applied(AnsweredCall(t), CallState.Answered), Resting, [10]));
  }

  lemma AgentConnects(cfg: Config, t: Time)
    requires t >= 0
    ensures var s := With(BoundAgent(cfg), FirstBorrower(cfg), AnsweredCall(t), {Ref(0, 1)});
            var s' := With(ConnectedAgent(cfg, t), FirstBorrower(cfg), AnsweredCall(t), {Ref(0, 1)});
            var read := AgentRead(AnsweredCall(t), CallState.Answered, BoundAgent(cfg));
            EventStep(cfg, At(s, t, Ready(0, 0), Idle, read, Resting, [10]), read) == (s', Listening)
  {
    SetSame(map[0 := BoundAgent(cfg)], 0, BoundAgent(cfg), ConnectedAgent(cfg, t));
    assert AgentRepo.TransitionAgent(BoundAgent(cfg), AgentState.Dialing, AgentState.Connected, AgentSm.Actor.EventProcessor, 2, t)
           == AgentRepo.Moved(ConnectedAgent(cfg, t));
  }

  /** Somebody picks up at t. */
  lemma PickedUpAt(cfg: Config, run: seq<World>, t: Time) returns (longer: seq<World>)
    requires t >= 0
    requires EndsIn(cfg, run,
                    At(With(BoundAgent(cfg), FirstBorrower(cfg), HandedCall(), {}), 0, Ready(0, 0), Idle, Listening, Resting, [10]))
    ensures Leads(cfg, run, longer,
                  At(With(ConnectedAgent(cfg, t), FirstBorrower(cfg), AnsweredCall(t), {Ref(0, 1)}), t, Ready(0, 0), Idle, Listening, Resting, [10]))
  {
    var call, a := AnsweredCall(t), BoundAgent(cfg);
    var s2, s3 := With(a, FirstBorrower(cfg), call, {Ref(0, 1)}), With(ConnectedAgent(cfg, t), FirstBorrower(cfg), call, {Ref(0, 1)});
    var applied, read := Applied(call, CallState.Answered), AgentRead(call, CallState.Answered, a);
    longer := AnswerLands(cfg, run, t);
    EventAct(cfg, s2, t, applied, Process, s2, read);
    longer := Extend(cfg, longer, ByProcessor(0, Process), At(s2, t, Ready(0, 0), Idle, read, Resting, [10]));
    AgentConnects(cfg, t);
    EventAct(cfg, s2, t, read, Process, s3, Listening);
    longer := Extend(cfg, longer, ByProcessor(0, Process), At(s3, t, Ready(0, 0), Idle, Listening, Resting, [10]));
  }

  lemma LateSweepAct(cfg: Config, s: Store, t: Time, q: SweepPc, act: SweepAction, s': Store, q': SweepPc)
    requires !act.Stop?
    requires var w := At(s, t, Ready(0, 0), Idle, Listening, q, [10]);
             if act.Sweep? then SweepStep(cfg, w, q) == (s', q')
             else q.Resting? && FindStep(w, act) == Some(q') && s' == s
    ensures Next(cfg, CAPS, At(s, t, Ready(0, 0), Idle, Listening, q, [10]), BySweep(0, act))
            == Some(At(s', t, Ready(0, 0), Idle, Listening, q', [10]))
  {
    assert [q][0 := q'] == [q'];
  }

  function LateAgent(cfg: Config, t: Time): Agent {
    ConnectedAgent(cfg, t).(state := AgentState.Available, stateChangedAt := Lapsed(cfg), currentCall := None, lease := None, version := 4)
  }

  function Retried(cfg: Config, t: Time): Borrower {
    BorrowerRepo.RetryUpdate(FirstBorrower(cfg), cfg.maxAttempts, cfg.backoffBase, t)
  }

  /** A pass that began when the lease had just ended reaches the agent only now, and ends its call. */
  lemma CancelledLate(cfg: Config, run: seq<World>, t: Time) returns (longer: seq<World>)
    requires 0 <= cfg.ttl && Lapsed(cfg) <= t
    requires EndsIn(cfg, run,
                    At(With(ConnectedAgent(cfg, t), FirstBorrower(cfg), AnsweredCall(t), {Ref(0, 1)}), t, Ready(0, 0), Idle, Listening, Resting, [10]))
    ensures var a, d := ConnectedAgent(cfg, t), InState(AnsweredCall(t), CallState.Cancelled, t);
            Leads(cfg, run, longer,
                  At(With(a, FirstBorrower(cfg), d, {Ref(0, 1)}), t, Ready(0, 0), Idle, Listening, SweepPc.Cancelled(LeaseItem, 0, a, Lapsed(cfg), d), [10]))
  {
    var a, b, c, now := ConnectedAgent(cfg, t), FirstBorrower(cfg), AnsweredCall(t), Lapsed(cfg);
    var d := InState(c, CallState.Cancelled, t);
    var s0, s1 := With(a, b, c, {Ref(0, 1)}), With(a, b, d, {Ref(0, 1)});
    LateSweepAct(cfg, s0, t, Resting, FindAgent(LeaseItem, 0, now), s0, Found(LeaseItem, 0, a, now));
    longer := Extend(cfg, run, BySweep(0, FindAgent(LeaseItem, 0, now)), At(s0, t, Ready(0, 0), Idle, Listening, Found(LeaseItem, 0, a, now), [10]));
    SetSame(s0.calls, 10, c, d);
    LateSweepAct(cfg, s0, t, Found(LeaseItem, 0, a, now), Sweep, s1, SweepPc.Cancelled(LeaseItem, 0, a, now, d));
    longer := Extend(cfg, longer, BySweep(0, Sweep), At(s1, t, Ready(0, 0), Idle, Listening, SweepPc.Cancelled(LeaseItem, 0, a, now, d), [10]));
  }

  /** Then it gives the borrower back and frees the agent. */
  lemma SweptLate(cfg: Config, run: seq<World>, t: Time) returns (longer: seq<World>)
    requires 0 <= cfg.ttl && Lapsed(cfg) <= t
    requires var a, d := ConnectedAgent(cfg, t), InState(AnsweredCall(t), CallState.Cancelled, t);
             EndsIn(cfg, run,
                    At(With(a, FirstBorrower(cfg), d, {Ref(0, 1)}), t, Ready(0, 0), Idle, Listening, SweepPc.Cancelled(LeaseItem, 0, a, Lapsed(cfg), d), [10]))
    ensures Leads(cfg, run, longer,
                  At(With(LateAgent(cfg, t), Retried(cfg, t), InState(AnsweredCall(t), CallState.Cancelled, t), {Ref(0, 1)}), t, Ready(0, 0), Idle, Listening, Resting, [10]))
  {
    var a, b, now := ConnectedAgent(cfg, t), FirstBorrower(cfg), Lapsed(cfg);
    var d := InState(AnsweredCall(t), CallState.Cancelled, t);
    var s1, s2, s3 := With(a, b, d, {Ref(0, 1)}), With(a, Retried(cfg, t), d, {Ref(0, 1)}), With(LateAgent(cfg, t), Retried(cfg, t), d, {Ref(0, 1)});
    SetSame(s1.borrowers, 0, b, Retried(cfg, t));
    LateSweepAct(cfg, s1, t, SweepPc.Cancelled(LeaseItem, 0, a, now, d), Sweep, s2, Freeing(LeaseItem, 0, a, now));
    longer := Extend(cfg, run, BySweep(0, Sweep), At(s2, t, Ready(0, 0), Idle, Listening, Freeing(LeaseItem, 0, a, now), [10]));
    SetSame(s2.agents, 0, a, LateAgent(cfg, t));
    LateSweepAct(cfg, s2, t, Freeing(LeaseItem, 0, a, now), Sweep, s3, Resting);
    longer := Extend(cfg, longer, BySweep(0, Sweep), At(s3, t, Ready(0, 0), Idle, Listening, Resting, [10]));
  }

  function PausedAgent(cfg: Config, t: Time, u: Time): Agent {
    LateAgent(cfg, t).(state := AgentState.Paused, stateChangedAt := u, version := 5, ledger := Ledger(t, u - Lapsed(cfg), 0, 0))
  }

  lemma PausesAt(cfg: Config, s: Store, t: Time, u: Time)
    requires Lapsed(cfg) < t <= u && s.agents == map[0 := LateAgent(cfg, t)]
    ensures Next(cfg, CAPS, At(s, u, Ready(0, 0), Idle, Listening, Resting, [10]), BySelf(0, AgentState.Available, AgentState.Paused, 4))
            == Some(At(s.(agents := map[0 := PausedAgent(cfg, t, u)]), u, Ready(0, 0), Idle, Listening, Resting, [10]))
  {
    SetSame(s.agents, 0, LateAgent(cfg, t), PausedAgent(cfg, t, u));
  }

  /** A run in which the agent is reserved and dialled at 0, connected at t, released by a sweep that
      began before t, and pauses at u: it is counted for longer than the run has lasted, by exactly
      what the release was late. */
  lemma LateReleaseInARun(cfg: Config, t: Time, u: Time) returns (run: seq<World>)
    requires 0 <= cfg.ttl && Lapsed(cfg) < t <= u
    ensures IsRun(cfg, CAPS, run) && run[0].clock == 0 && run[|run| - 1].clock == u && 0 in run[|run| - 1].store.agents
    ensures AgentTime.Counted(run[|run| - 1].store.agents[0]) == u + (t - Lapsed(cfg))
  {
    run := FirstDial(cfg);
    run := FirstInitiates(cfg, run);
    run := FirstBinds(cfg, run);
    run := FirstIsAccepted(cfg, run);
    run := PickedUpAt(cfg, run, t);
    run := CancelledLate(cfg, run, t);
    run := SweptLate(cfg, run, t);
    var s := With(LateAgent(cfg, t), Retried(cfg, t), InState(AnsweredCall(t), CallState.Cancelled, t), {Ref(0, 1)});
    run := Extend(cfg, run, Tick(u), At(s, u, Ready(0, 0), Idle, Listening, Resting, [10]));
    PausesAt(cfg, s, t, u);
    run := Extend(cfg, run, BySelf(0, AgentState.Available, AgentState.Paused, 4),
                  At(s.(agents := map[0 := PausedAgent(cfg, t, u)]), u, Ready(0, 0), Idle, Listening, Resting, [10]));
  }
}

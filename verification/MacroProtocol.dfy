/**
 * The protocol at the grain where exclusive binding holds: a live worker's reserve-to-bind is one
 * step, process_event is one step and a recovery item is one step, but a crash may cut each of them
 * after any of its writes, and a dial may be cancelled and compensated. Waiting for the provider is
 * where everybody else interleaves. A worker that is cut stops; Resume lets its loop go on under the
 * same id, as after an error that is logged and survived. A sweep that raises is over, and the pass
 * goes on with the next one.
 */
module MacroProtocol {
  import opened Wrappers
  import opened Enums
  import opened Documents
  import opened StoreOps
  import opened ProviderEvents
  import EventWrites
  import RecoveryItems
  import AgentSm
  import AgentRepo
  import BorrowerRepo
  import CallRepo

  /** A worker waiting for the provider's answer. */
  datatype OpenDial = OpenDial(agent: AgentId, borrower: BorrowerId, call: CallId)

  /** A recovery pass inside its first two sweeps; both use the pass's own now. whole is history: the
      first sweep's find returned every match, and the sweep did not raise. */
  datatype Pass =
    | Started(now: Time)
    | AgentSweep(now: Time, agents: map<AgentId, Agent>, whole: bool)
    | BorrowerSweep(now: Time, borrowers: map<BorrowerId, Borrower>, whole: bool)

  /**
   * binder and holder are history: which worker bound a call, and the call a borrower was last bound
   * for. seen holds documents found by sweeps and not yet acted on. cuts counts interrupted dials.
   */
  datatype Macro = Macro(
    store: Store,
    clock: Time,
    live: set<WorkerId>,
    used: set<WorkerId>,
    waiting: map<WorkerId, OpenDial>,
    binder: map<CallId, WorkerId>,
    holder: map<BorrowerId, CallId>,
    seen: map<nat, (AgentId, Agent)>,
    passes: map<nat, Pass>,
    cuts: nat)

  /** What one dial is about: campaign, agent, borrower, provider, a fresh id and two clock readings. */
  datatype Order = Order(campaign: CampaignId, agent: AgentId, borrower: BorrowerId, provider: Provider, id: CallId, later: Time)

  datatype Action =
    | Tick(to_: Time)
    | Join(w: WorkerId)
    | Crash(w: WorkerId)
    | Resume(w: WorkerId)
    | Dial(w: WorkerId, order: Order)
    | CutDial(w: WorkerId, order: Order, n: nat, back: nat)
    | BackOff(w: WorkerId, order: Order, n: nat)
    | Refused(w: WorkerId, n: nat)
    | Abort(w: WorkerId, n: nat, back: nat)
    | Accepted(w: WorkerId, pid: nat)
    | Deliver(event: Event, n: nat)
    | BeginPass(r: nat)
    | FindAgents(r: nat, picked: set<AgentId>)
    | DoAgent(r: nat, agent: AgentId, n: nat)
    | FindBorrowers(r: nat)
    | DoBorrower(r: nat, borrower: BorrowerId)
    | EndPass(r: nat)
    | DoOrphan(call: CallId, target: CallState, n: nat)
    | See(slot: nat, agent: AgentId)
    | DoHeartbeat(slot: nat, n: nat)
    | DoWrapUp(agent: AgentId, found: Agent, actor: AgentSm.Actor)
    | Self(agent: AgentId, from: AgentState, to_state: AgentState, version: nat)
    | Beat(agent: AgentId)

  predicate IsWorkerAction(act: Action) {
    act.Join? || act.Crash? || act.Resume? || act.Dial? || act.CutDial? || act.BackOff? || act.Refused? || act.Abort? || act.Accepted?
  }

  predicate IsPassAction(act: Action) {
    act.BeginPass? || act.FindAgents? || act.DoAgent? || act.FindBorrowers? || act.DoBorrower? || act.EndPass?
  }

  function KeyOf(s: Store, o: Order): Key {
    Key(o.campaign, o.agent, o.borrower, if o.borrower in s.borrowers then s.borrowers[o.borrower].attempts + 1 else 1)
  }

  /** The store after the first n writes of a dial: claim agent, claim borrower, create the call,
      RESERVED, INITIATED, agent DIALING, bind. */
  function DialWrites(cfg: Config, s: Store, w: WorkerId, o: Order, now: Time, n: nat): Store {
    if n == 0 then s
    else
      var p := DialWrites(cfg, s, w, o, now, n - 1);
      if n == 1 then SetAgent(p, o.agent, ReserveAgent(p, o.campaign, o.agent, w, cfg.ttl, now))
      else if n == 2 then SetBorrower(p, o.borrower, ReserveBorrower(p, o.campaign, o.borrower, w, cfg.ttl, o.later))
      else if n == 3 then CallRepo.CreateCall(p, KeyOf(s, o), o.provider, w, o.id, o.later).0
      else if n == 4 then SetCall(p, DialledCall(s, o), TransitionCall(p, DialledCall(s, o), CallState.Reserved, o.later))
      else if n == 5 then SetCall(p, DialledCall(s, o), TransitionCall(p, DialledCall(s, o), CallState.Initiated, o.later))
      else if n == 6 && o.agent in p.agents then
        SetAgent(p, o.agent,
                 TransitionAgent(p, o.agent, AgentState.Reserved, AgentState.Dialing, AgentSm.Allocator,
                                 p.agents[o.agent].version, o.later))
      else if n == 7 then SetAgent(p, o.agent, BindCall(p, o.agent, w, DialledCall(s, o)))
      else p
  }

  /** The call create_call returns: the fresh one, or an older one with the same key. */
  function DialledCall(s: Store, o: Order): CallId {
    if KeyOf(s, o) in s.byKey then s.byKey[KeyOf(s, o)] else o.id
  }

  /** Both claims succeed, and the call is one this dial may go on with. */
  predicate CanDial(cfg: Config, m: Macro, w: WorkerId, o: Order) {
    && w in m.live && w !in m.waiting && o.later >= m.clock && o.id !in m.store.calls
    && ReserveAgent(m.store, o.campaign, o.agent, w, cfg.ttl, m.clock).Some?
    && ReserveBorrower(m.store, o.campaign, o.borrower, w, cfg.ttl, o.later).Some?
    && (KeyOf(m.store, o) in m.store.byKey ==>
          var c := DialledCall(m.store, o);
          c in m.store.calls && m.store.calls[c].state.Queued?)
  }

  /** The first n writes of the compensation of a cancelled dial. */
  function GiveBack(cfg: Config, s: Store, w: WorkerId, a: AgentId, b: BorrowerId, now: Time, n: nat): Store {
    if n == 0 then s
    else
      var s1 := SetAgent(s, a, ReleaseAgent(s, a, w, AgentState.Available, AgentSm.Allocator, now));
      if n == 1 then s1
      else SetBorrower(s1, b, ReleaseBorrower(s1, b, w, BorrowerRepo.Released, cfg, now))
  }

  /** An iteration that gives the pair back: claim agent, claim borrower (which may fail), release
      agent, and release the borrower if it was claimed. */
  function BackOffWrites(cfg: Config, s: Store, w: WorkerId, o: Order, now: Time, n: nat): Store {
    var p := DialWrites(cfg, s, w, o, now, if n <= 2 then n else 2);
    if n <= 2 then p
    else
      var q := SetAgent(p, o.agent, ReleaseAgent(p, o.agent, w, AgentState.Available, AgentSm.Allocator, o.later));
      if n == 3 || ReserveBorrower(s, o.campaign, o.borrower, w, cfg.ttl, o.later).None? then q
      else SetBorrower(q, o.borrower, ReleaseBorrower(q, o.borrower, w, BorrowerRepo.Released, cfg, o.later))
  }

  /** The provider refused, timed out, or its call id could not be attached. */
  function RefusedWrites(cfg: Config, s: Store, w: WorkerId, d: OpenDial, now: Time, n: nat): Store {
    if n == 0 then s
    else
      var s1 := SetCall(s, d.call, TransitionCall(s, d.call, CallState.Failed, now));
      if n == 1 then s1
      else
        var s2 := SetAgent(s1, d.agent, ReleaseAgent(s1, d.agent, w, AgentState.Available, AgentSm.Allocator, now));
        if n == 2 then s2
        else SetBorrower(s2, d.borrower, ReleaseBorrower(s2, d.borrower, w, BorrowerRepo.Retry, cfg, now))
  }

  function Gone(m: Macro, w: WorkerId): Macro {
    m.(live := m.live - {w}, waiting := m.waiting - {w})
  }

  function ExpiredAgents(s: Store, now: Time): map<AgentId, Agent> {
    map a <- s.agents | AgentRepo.LeaseExpired(s.agents[a], now) :: s.agents[a]
  }

  function ExpiredBorrowers(s: Store, now: Time): map<BorrowerId, Borrower> {
    map b <- s.borrowers | BorrowerRepo.LeaseExpired(s.borrowers[b], now) :: s.borrowers[b]
  }

  /** What a limited find of the first sweep gives; a find that raises gives nothing. */
  function FoundAgents(s: Store, now: Time, found: set<AgentId>): Pass {
    var expired := ExpiredAgents(s, now);
    AgentSweep(now, map a <- found | a in expired :: expired[a], expired.Keys <= found)
  }

  function WorkerNext(cfg: Config, m: Macro, act: Action): Option<Macro>
    requires IsWorkerAction(act)
  {
    match act
    case Join(w) => if w in m.used then None else Some(m.(live := m.live + {w}, used := m.used + {w}))
    case Crash(w) => Some(Gone(m, w))
    case Resume(w) => if w in m.used then Some(m.(live := m.live + {w})) else None
    case Dial(w, o) =>
      if !CanDial(cfg, m, w, o) then None
      else
        var c := DialledCall(m.store, o);
        Some(m.(store := DialWrites(cfg, m.store, w, o, m.clock, 7), clock := o.later,
                waiting := m.waiting[w := OpenDial(o.agent, o.borrower, c)],
                binder := m.binder[c := w], holder := m.holder[o.borrower := c]))
    case CutDial(w, o, n, back) =>
      if !CanDial(cfg, m, w, o) || n >= 7 || (back > 0 && n < 2) then None
      else
        var s := GiveBack(cfg, DialWrites(cfg, m.store, w, o, m.clock, n), w, o.agent, o.borrower, o.later, back);
        Some(Gone(m, w).(store := s, clock := o.later, cuts := m.cuts + 1))
    case BackOff(w, o, n) =>
      if w !in m.live || w in m.waiting || o.later < m.clock
         || ReserveAgent(m.store, o.campaign, o.agent, w, cfg.ttl, m.clock).None? then None
      else
        var next := m.(store := BackOffWrites(cfg, m.store, w, o, m.clock, n), clock := o.later);
        Some(if n >= 4 then next else Gone(next, w))
    case Refused(w, n) =>
      if w !in m.waiting then None
      else
        var next := m.(store := RefusedWrites(cfg, m.store, w, m.waiting[w], m.clock, n), waiting := m.waiting - {w});
        Some(if n >= 3 then next else Gone(next, w))
    case Abort(w, n, back) =>
      if w !in m.waiting || n > 2 then None
      else
        var d := m.waiting[w];
        var s := GiveBack(cfg, RefusedWrites(cfg, m.store, w, d, m.clock, n), w, d.agent, d.borrower, m.clock, back);
        Some(Gone(m, w).(store := s))
    case Accepted(w, pid) =>
      if w !in m.waiting || !CallRepo.CanAttach(m.store, m.waiting[w].call, pid) then None
      else Some(m.(store := CallRepo.Attach(m.store, m.waiting[w].call, pid, m.clock), waiting := m.waiting - {w}))
  }

  function PassNext(cfg: Config, m: Macro, act: Action): Option<Macro>
    requires IsPassAction(act)
  {
    match act
    case BeginPass(r) => Some(m.(passes := m.passes[r := Started(m.clock)]))
    case FindAgents(r, found) =>
      if r !in m.passes || !m.passes[r].Started? || !(found <= ExpiredAgents(m.store, m.passes[r].now).Keys) then None
      else Some(m.(passes := m.passes[r := FoundAgents(m.store, m.passes[r].now, found)]))
    case DoAgent(r, a, n) =>
      if r !in m.passes || !m.passes[r].AgentSweep? || a !in m.passes[r].agents then None
      else
        var p := m.passes[r];
        var s := RecoveryItems.LeaseItem(cfg, m.store, a, p.agents[a], p.now, m.clock, n);
        Some(m.(store := s,
                passes := m.passes[r := if n >= 3 then p.(agents := p.agents - {a}) else AgentSweep(p.now, map[], false)]))
    case FindBorrowers(r) =>
      if r !in m.passes || !m.passes[r].AgentSweep? || m.passes[r].agents != map[] then None
      else
        var now := m.passes[r].now;
        Some(m.(passes := m.passes[r := BorrowerSweep(now, ExpiredBorrowers(m.store, now), m.passes[r].whole)]))
    case DoBorrower(r, b) =>
      if r !in m.passes || !m.passes[r].BorrowerSweep? || b !in m.passes[r].borrowers then None
      else
        var p := m.passes[r];
        Some(m.(store := SetBorrower(m.store, b, ReclaimBorrower(m.store, b, p.borrowers[b], p.now)),
                passes := m.passes[r := p.(borrowers := p.borrowers - {b})]))
    case EndPass(r) => Some(m.(passes := m.passes - {r}))
  }

  function Next(cfg: Config, m: Macro, act: Action): Option<Macro> {
    match act
    case Tick(t) => if t >= m.clock then Some(m.(clock := t)) else None
    case Deliver(e, n) => Some(m.(store := EventWrites.Prefix(cfg, m.store, e, m.clock, n)))
    case DoOrphan(c, target, n) =>
      if target.Failed? || target.Completed? then
        Some(m.(store := RecoveryItems.OrphanItem(cfg, m.store, c, target, m.clock, n)))
      else None
    case See(slot, a) =>
      if a in m.store.agents then Some(m.(seen := m.seen[slot := (a, m.store.agents[a])])) else None
    case DoHeartbeat(slot, n) =>
      if slot !in m.seen || m.seen[slot].1.state.Offline? then None
      else Some(m.(store := RecoveryItems.HeartbeatItem(cfg, m.store, m.seen[slot].0, m.seen[slot].1, m.clock, n)))
    case DoWrapUp(a, found, actor) => Some(m.(store := RecoveryItems.WrapUpItem(m.store, a, found, actor, m.clock)))
    case Self(a, from, to, v) =>
      Some(m.(store := SetAgent(m.store, a, TransitionAgent(m.store, a, from, to, AgentSm.AgentSelf, v, m.clock))))
    case Beat(a) =>
      if a in m.store.agents then
        Some(m.(store := SetAgent(m.store, a, Some(AgentRepo.Heartbeat(m.store.agents[a], m.clock)))))
      else None
    case BeginPass(_) => PassNext(cfg, m, act)
    case FindAgents(_, _) => PassNext(cfg, m, act)
    case DoAgent(_, _, _) => PassNext(cfg, m, act)
    case FindBorrowers(_) => PassNext(cfg, m, act)
    case DoBorrower(_, _) => PassNext(cfg, m, act)
    case EndPass(_) => PassNext(cfg, m, act)
    case _ => WorkerNext(cfg, m, act)
  }

  ghost predicate Init(m: Macro) {
    && m.store.calls == map[] && m.store.byKey == map[] && m.store.byRef == map[]
    && m.binder == map[] && m.holder == map[] && m.waiting == map[] && m.passes == map[] && m.seen == map[]
    && m.live <= m.used && m.cuts == 0
    && (forall a <- m.store.agents :: m.store.agents[a].currentCall.None?)
  }

  /** A run together with the action behind each of its steps. */
  ghost predicate IsTrace(cfg: Config, run: seq<Macro>, acts: seq<Action>) {
    var begins := |run| == |acts| + 1 && Init(run[0]);
    var continues := forall n | 0 <= n < |acts| < |run| :: Next(cfg, run[n], acts[n]) == Some(run[n + 1]);
    begins && continues
  }
}

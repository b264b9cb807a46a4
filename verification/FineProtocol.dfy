/**
 * The protocol at its finest grain: every store operation is a step of its own, so any number of
 * dialer workers, event processors, recovery items and agents interleave between any two writes,
 * and any of them may stop anywhere. Local state is a program counter per actor.
 */
module FineProtocol {
  import opened Wrappers
  import opened Enums
  import opened Documents
  import opened StoreOps
  import opened ProviderEvents
  import opened Queries
  import CallSm
  import AgentSm
  import AgentRepo
  import BorrowerRepo
  import CallRepo

  /** What reserve_pair returns: the claimed agent and its version, the borrower, and the attempt. */
  datatype Pair = Pair(agent: AgentId, version: nat, borrower: BorrowerId, attempt: nat)

  /** Where _dial stands between two operations, for the call it works on. */
  datatype Stage = Created | Marked | Initiated | AgentMoved | Bound | Waiting | Accepted(pid: nat) | Failing

  /** A dialer worker inside allocate; rest counts the approvals after the current iteration. */
  datatype WorkerPc =
    | Idle
    | Ready(campaign: CampaignId, left: nat)
    | HasAgent(campaign: CampaignId, rest: nat, agent: AgentId, version: nat)
    | DropAgent(campaign: CampaignId, rest: nat, agent: AgentId)
    | HasPair(campaign: CampaignId, rest: nat, pair: Pair)
    | Dial(stage: Stage, campaign: CampaignId, rest: nat, pair: Pair, call: CallId)
    | Drop(campaign: CampaignId, rest: nat, pair: Pair, outcome: BorrowerRepo.Outcome, agentDone: bool)

  datatype Worker = Worker(id: WorkerId, pc: WorkerPc)

  /** An event processor between two operations of process_event. */
  datatype EventPc =
    | Listening
    | Recorded(event: Event)
    | Decided(callId: CallId, target: CallState)
    | Applied(call: Call, target: CallState)
    | AgentRead(call: Call, target: CallState, agent: Agent)
    | ReleasingBorrower(call: Call, target: CallState)

  datatype ItemKind = LeaseItem | HeartbeatItem | WrapUpItem

  /** One item of a recovery sweep, holding the document its find returned. */
  datatype SweepPc =
    | Resting
    | Found(kind: ItemKind, agent: AgentId, seen: Agent, now: Time)
    | Cancelled(kind: ItemKind, agent: AgentId, seen: Agent, now: Time, call: Call)
    | Freeing(kind: ItemKind, agent: AgentId, seen: Agent, now: Time)
    | Reclaiming(borrower: BorrowerId, seenBorrower: Borrower, now: Time)
    | Reconciled(callId: CallId, target: CallState)
    | FreeingParties(call: Call)
    | FreeingBorrower(call: Call)

  datatype World = World(
    store: Store,
    clock: Time,
    workers: seq<Worker>,
    processors: seq<EventPc>,
    sweeps: seq<SweepPc>,
    handed: seq<CallId>)

  datatype WorkerAction =
    | Restart(id: WorkerId)
    | Approve(campaign: CampaignId, approved: nat)
    | ClaimAgent(agent: AgentId)
    | GiveUp
    | ClaimBorrower(borrower: BorrowerId)
    | NoBorrower
    | CloseGate
    | Create(id: CallId, provider: Provider)
    | Refuse
    | Accept(pid: nat)
    | Proceed
    | Cancel

  datatype EventAction = Forget | Record(event: Event) | Process

  datatype SweepAction =
    | Stop
    | FindAgent(kind: ItemKind, agent: AgentId, now: Time)
    | FindBorrower(borrower: BorrowerId, now: Time)
    | FindCall(callId: CallId, target: CallState, olderThan: Time)
    | Sweep

  datatype Action =
    | ByWorker(i: nat, worker: WorkerAction)
    | ByProcessor(j: nat, event: EventAction)
    | BySweep(n: nat, sweep: SweepAction)
    | BySelf(agent: AgentId, from: AgentState, to: AgentState, version: nat)
    | ByTimer(agent: AgentId, version: nat)
    | Beat(agent: AgentId)
    | Tick(to_: Time)

  /** Campaign limits: max_concurrent_calls. */
  type Caps = map<CampaignId, nat>

  /** The concurrency limit of a fresh capacity reading. */
  ghost function Headroom(s: Store, k: CampaignId, caps: Caps): nat {
    if k in caps && caps[k] > |ActiveCallsOf(s, k)| then caps[k] - |ActiveCallsOf(s, k)| else 0
  }

  function KeyOf(k: CampaignId, p: Pair): Key {
    Key(k, p.agent, p.borrower, p.attempt)
  }

  /** The next operation of a worker's own dial. */
  function DialStep(cfg: Config, w: World, id: WorkerId, pc: WorkerPc): (World, WorkerPc)
    requires pc.Dial? && !pc.stage.Waiting?
  {
    var s := w.store;
    match pc.stage
    case Created =>
      (w.(store := SetCall(s, pc.call, TransitionCall(s, pc.call, CallState.Reserved, w.clock))), pc.(stage := Marked))
    case Marked =>
      var r := TransitionCall(s, pc.call, CallState.Initiated, w.clock);
      (w.(store := SetCall(s, pc.call, r)),
       if r.Some? then pc.(stage := Stage.Initiated)
       else Drop(pc.campaign, pc.rest, pc.pair, BorrowerRepo.Released, false))
    case Initiated =>
      (w.(store := SetAgent(s, pc.pair.agent,
                            TransitionAgent(s, pc.pair.agent, AgentState.Reserved, AgentState.Dialing,
                                            AgentSm.Allocator, pc.pair.version, w.clock))),
       pc.(stage := AgentMoved))
    case AgentMoved =>
      (w.(store := SetAgent(s, pc.pair.agent, BindCall(s, pc.pair.agent, id, pc.call))), pc.(stage := Bound))
    case Bound =>
      (w.(handed := w.handed + [pc.call]), pc.(stage := Waiting))
    case Accepted(pid) =>
      if CallRepo.CanAttach(s, pc.call, pid) then
        (w.(store := CallRepo.Attach(s, pc.call, pid, w.clock)), Ready(pc.campaign, pc.rest))
      else (w, pc.(stage := Failing))
    case Failing =>
      (w.(store := SetCall(s, pc.call, TransitionCall(s, pc.call, CallState.Failed, w.clock))),
       Drop(pc.campaign, pc.rest, pc.pair, BorrowerRepo.Retry, false))
  }

  function DropStep(cfg: Config, w: World, id: WorkerId, pc: WorkerPc): (World, WorkerPc)
    requires pc.Drop? || pc.DropAgent?
  {
    var s := w.store;
    if pc.DropAgent? then
      (w.(store := SetAgent(s, pc.agent,
                            ReleaseAgent(s, pc.agent, id, AgentState.Available, AgentSm.Allocator, w.clock))),
       Ready(pc.campaign, pc.rest))
    else if !pc.agentDone then
      (w.(store := SetAgent(s, pc.pair.agent,
                            ReleaseAgent(s, pc.pair.agent, id, AgentState.Available, AgentSm.Allocator, w.clock))),
       pc.(agentDone := true))
    else
      (w.(store := SetBorrower(s, pc.pair.borrower,
                               ReleaseBorrower(s, pc.pair.borrower, id, pc.outcome, cfg, w.clock))),
       Ready(pc.campaign, pc.rest))
  }

  /** reserve_pair and the gate in front of create_call. */
  ghost function ClaimStep(cfg: Config, caps: Caps, w: World, me: Worker, act: WorkerAction): Option<(World, WorkerPc)> {
    var s := w.store;
    match (me.pc, act)
    case (Idle, Approve(k, n)) =>
      if n <= Headroom(s, k, caps) then Some((w, Ready(k, n))) else None
    case (Ready(k, left), ClaimAgent(a)) =>
      var r := ReserveAgent(s, k, a, me.id, cfg.ttl, w.clock);
      if left == 0 then None
      else Some((w.(store := SetAgent(s, a, r)), if r.Some? then HasAgent(k, left - 1, a, r.value.version) else me.pc))
    case (Ready(k, left), GiveUp) => Some((w, if left == 0 then Idle else Ready(k, left - 1)))
    case (HasAgent(k, rest, a, v), ClaimBorrower(b)) =>
      var r := ReserveBorrower(s, k, b, me.id, cfg.ttl, w.clock);
      Some((w.(store := SetBorrower(s, b, r)),
            if r.Some? then HasPair(k, rest, Pair(a, v, b, r.value.attempts + 1)) else me.pc))
    case (HasAgent(k, rest, a, v), NoBorrower) => Some((w, DropAgent(k, rest, a)))
    case (HasPair(k, rest, pair), CloseGate) =>
      if pair.attempt > 1 then Some((w, Drop(k, rest, pair, BorrowerRepo.Released, false))) else None
    case (HasPair(k, rest, pair), Create(id, provider)) =>
      if id in s.calls then None
      else
        var (s', c) := CallRepo.CreateCall(s, KeyOf(k, pair), provider, me.id, id, w.clock);
        Some((w.(store := s'),
              if c in s'.calls && s'.calls[c].state.Queued? then Dial(Created, k, rest, pair, c)
              else Drop(k, rest, pair, BorrowerRepo.Released, false)))
    case _ => None
  }

  /** Anywhere inside _dial. */
  predicate InDial(pc: WorkerPc) {
    pc.HasPair? || pc.Dial? || pc.Drop?
  }

  /** _compensate_cancelled_dial: the pair is released, the call is left as it is, and the loop ends. */
  function Compensating(pc: WorkerPc): WorkerPc
    requires InDial(pc)
  {
    Drop(pc.campaign, 0, pc.pair, BorrowerRepo.Released, false)
  }

  ghost function WorkerStep(cfg: Config, caps: Caps, w: World, i: nat, act: WorkerAction): Option<World> {
    if i >= |w.workers| then None
    else
      var me := w.workers[i];
      if act.Restart? then Some(w.(workers := w.workers[i := Worker(act.id, Idle)]))
      else
        var r :=
          if act.Proceed? && me.pc.Dial? && !me.pc.stage.Waiting? then Some(DialStep(cfg, w, me.id, me.pc))
          else if act.Proceed? && (me.pc.Drop? || me.pc.DropAgent?) then Some(DropStep(cfg, w, me.id, me.pc))
          else if act.Cancel? && InDial(me.pc) then Some((w, Compensating(me.pc)))
          else if act.Refuse? && me.pc.Dial? && me.pc.stage.Waiting? then Some((w, me.pc.(stage := Failing)))
          else if act.Accept? && me.pc.Dial? && me.pc.stage.Waiting? then Some((w, me.pc.(stage := Accepted(act.pid))))
          else ClaimStep(cfg, caps, w, me, act);
        if r.None? then None
        else Some(r.value.0.(workers := w.workers[i := Worker(me.id, r.value.1)]))
  }

  function EventStep(cfg: Config, w: World, pc: EventPc): (Store, EventPc) {
    var s := w.store;
    match pc
    case Listening => (s, pc)
    case Recorded(e) =>
      var found := CallRepo.FindByRef(s, e.call);
      var target := TargetOf(e.kind);
      if found.None? || found.value !in s.calls || target.None? then (s, Listening)
      else if !CallSm.ShouldApplyEvent(s.calls[found.value].state, target.value).Apply? then (s, Listening)
      else (s, Decided(found.value, target.value))
    case Decided(c, target) =>
      var r := TransitionCall(s, c, target, w.clock);
      (SetCall(s, c, r), if r.Some? then Applied(r.value, target) else Listening)
    case Applied(call, target) =>
      var next := if IsReleasing(target) then ReleasingBorrower(call, target) else Listening;
      var goal := CallSm.AgentStateFor(target);
      if goal.None? || call.key.agent !in s.agents || s.agents[call.key.agent].state == goal.value then (s, next)
      else (s, AgentRead(call, target, s.agents[call.key.agent]))
    case AgentRead(call, target, seen) =>
      var goal := CallSm.AgentStateFor(target);
      if goal.None? then (s, Listening)
      else if IsReleasing(target) then
        (SetAgent(s, call.key.agent,
                  ReleaseAgent(s, call.key.agent, call.createdBy, goal.value, AgentSm.EventProcessor, w.clock)),
         ReleasingBorrower(call, target))
      else
        (SetAgent(s, call.key.agent,
                  TransitionAgent(s, call.key.agent, seen.state, goal.value, AgentSm.EventProcessor, seen.version, w.clock)),
         Listening)
    case ReleasingBorrower(call, target) =>
      (SetBorrower(s, call.key.borrower,
                   ReleaseBorrower(s, call.key.borrower, call.createdBy,
                                   BorrowerRepo.OutcomeFor(target.Completed? && call.answeredAt.Some?), cfg, w.clock)),
       Listening)
  }

  function ProcessorStep(cfg: Config, w: World, j: nat, act: EventAction): Option<World> {
    if j >= |w.processors| then None
    else
      match act
      case Forget => Some(w.(processors := w.processors[j := Listening]))
      case Record(e) =>
        if !w.processors[j].Listening? then None
        else if e.id in w.store.events then Some(w)
        else Some(w.(store := w.store.(events := w.store.events + {e.id}), processors := w.processors[j := Recorded(e)]))
      case Process =>
        var (s, pc) := EventStep(cfg, w, w.processors[j]);
        Some(w.(store := s, processors := w.processors[j := pc]))
  }

  predicate Matches(kind: ItemKind, a: Agent, now: Time) {
    match kind
    case LeaseItem => AgentRepo.LeaseExpired(a, now)
    case HeartbeatItem => AgentRepo.HeartbeatExpired(a, now)
    case WrapUpItem => AgentRepo.WrapUpExpired(a, now)
  }

  function FindStep(w: World, act: SweepAction): Option<SweepPc> {
    match act
    case FindAgent(kind, a, now) =>
      if a in w.store.agents && now <= w.clock && Matches(kind, w.store.agents[a], now) then
        Some(if kind.WrapUpItem? then Freeing(kind, a, w.store.agents[a], now) else Found(kind, a, w.store.agents[a], now))
      else None
    case FindBorrower(b, now) =>
      if b in w.store.borrowers && now <= w.clock && BorrowerRepo.LeaseExpired(w.store.borrowers[b], now) then
        Some(Reclaiming(b, w.store.borrowers[b], now))
      else None
    case FindCall(c, target, olderThan) =>
      if c in w.store.calls && CallRepo.IsStale(w.store.calls[c], olderThan)
         && (target.Failed? || (target.Completed? && w.store.calls[c].providerCallId.Some?)) then
        Some(Reconciled(c, target))
      else None
    case _ => None
  }

  /** The final write of an agent item. */
  function FreeAgent(w: World, kind: ItemKind, a: AgentId, seen: Agent, now: Time): Option<Agent> {
    match kind
    case LeaseItem => ReleaseExpired(w.store, a, seen, now)
    case HeartbeatItem =>
      TransitionAgent(w.store, a, seen.state, AgentState.Offline, AgentSm.Recovery, seen.version, w.clock)
    case WrapUpItem =>
      TransitionAgent(w.store, a, AgentState.WrapUp, AgentState.Available, AgentSm.Recovery, seen.version, w.clock)
  }

  function SweepStep(cfg: Config, w: World, pc: SweepPc): (Store, SweepPc) {
    var s := w.store;
    match pc
    case Resting => (s, pc)
    case Found(kind, a, seen, now) =>
      if seen.currentCall.None? then (s, Freeing(kind, a, seen, now))
      else
        var r := TransitionCall(s, seen.currentCall.value, CallState.Cancelled, w.clock);
        (SetCall(s, seen.currentCall.value, r),
         if r.Some? then SweepPc.Cancelled(kind, a, seen, now, r.value) else Freeing(kind, a, seen, now))
    case Cancelled(kind, a, seen, now, call) =>
      (SetBorrower(s, call.key.borrower,
                   ReleaseBorrower(s, call.key.borrower, call.createdBy, BorrowerRepo.Retry, cfg, w.clock)),
       Freeing(kind, a, seen, now))
    case Freeing(kind, a, seen, now) => (SetAgent(s, a, FreeAgent(w, kind, a, seen, now)), Resting)
    case Reclaiming(b, seen, now) => (SetBorrower(s, b, ReclaimBorrower(s, b, seen, now)), Resting)
    case Reconciled(c, target) =>
      var r := TransitionCall(s, c, target, w.clock);
      (SetCall(s, c, r), if r.Some? then FreeingParties(r.value) else Resting)
    case FreeingParties(call) =>
      (SetAgent(s, call.key.agent,
                ReleaseAgent(s, call.key.agent, call.createdBy, AgentState.Available, AgentSm.Recovery, w.clock)),
       FreeingBorrower(call))
    case FreeingBorrower(call) =>
      (SetBorrower(s, call.key.borrower,
                   ReleaseBorrower(s, call.key.borrower, call.createdBy, BorrowerRepo.Retry, cfg, w.clock)),
       Resting)
  }

  function RecoveryStep(cfg: Config, w: World, n: nat, act: SweepAction): Option<World> {
    if n >= |w.sweeps| then None
    else if act.Stop? then Some(w.(sweeps := w.sweeps[n := Resting]))
    else if act.Sweep? then
      var (s, pc) := SweepStep(cfg, w, w.sweeps[n]);
      Some(w.(store := s, sweeps := w.sweeps[n := pc]))
    else if !w.sweeps[n].Resting? then None
    else
      var found := FindStep(w, act);
      if found.None? then None else Some(w.(sweeps := w.sweeps[n := found.value]))
  }

  ghost function Next(cfg: Config, caps: Caps, w: World, act: Action): Option<World> {
    match act
    case ByWorker(i, wa) => WorkerStep(cfg, caps, w, i, wa)
    case ByProcessor(j, ea) => ProcessorStep(cfg, w, j, ea)
    case BySweep(n, sa) => RecoveryStep(cfg, w, n, sa)
    case BySelf(a, from, to, v) =>
      Some(w.(store := SetAgent(w.store, a, TransitionAgent(w.store, a, from, to, AgentSm.AgentSelf, v, w.clock))))
    case ByTimer(a, v) =>
      Some(w.(store := SetAgent(w.store, a,
                                TransitionAgent(w.store, a, AgentState.WrapUp, AgentState.Available, AgentSm.WorkerTimer, v, w.clock))))
    case Beat(a) =>
      if a in w.store.agents then
        Some(w.(store := SetAgent(w.store, a, Some(AgentRepo.Heartbeat(w.store.agents[a], w.clock)))))
      else None
    case Tick(t) => if t >= w.clock then Some(w.(clock := t)) else None
  }

  /** The actor a step's agent write is made as. */
  function ActorOf(act: Action): AgentSm.Actor {
    match act
    case ByWorker(_, _) => AgentSm.Allocator
    case ByProcessor(_, _) => AgentSm.EventProcessor
    case BySweep(_, _) => AgentSm.Recovery
    case BySelf(_, _, _, _) => AgentSm.AgentSelf
    case ByTimer(_, _) => AgentSm.WorkerTimer
    case Beat(_) => AgentSm.AgentSelf
    case Tick(_) => AgentSm.AgentSelf
  }

  ghost predicate Step(cfg: Config, caps: Caps, w: World, w': World) {
    exists act :: Next(cfg, caps, w, act) == Some(w')
  }

  /** Fresh documents, no calls yet, everybody idle. */
  ghost predicate Init(cfg: Config, w: World) {
    && w.store.calls == map[] && w.store.byKey == map[] && w.store.byRef == map[] && w.handed == []
    && (forall a <- w.store.agents :: w.store.agents[a].lease.None? && w.store.agents[a].currentCall.None?
          && w.store.agents[a].ledger == Ledger(0, 0, 0, 0) && w.store.agents[a].stateChangedAt <= w.clock
          && !(w.store.agents[a].state.Reserved? || w.store.agents[a].state.Dialing? || w.store.agents[a].state.Connected?))
    && (forall b <- w.store.borrowers :: w.store.borrowers[b].lease.None? && w.store.borrowers[b].version == 0
          && w.store.borrowers[b].attempts == 0
          && !w.store.borrowers[b].status.Reserved? && !w.store.borrowers[b].status.InCall?)
    && (forall i | 0 <= i < |w.workers| :: w.workers[i].pc.Idle?)
    && (forall j | 0 <= j < |w.processors| :: w.processors[j].Listening?)
    && (forall n | 0 <= n < |w.sweeps| :: w.sweeps[n].Resting?)
  }

  ghost predicate IsRun(cfg: Config, caps: Caps, run: seq<World>) {
    var begins := |run| > 0 && Init(cfg, run[0]);
    var continues := forall n | 0 <= n < |run| - 1 :: Step(cfg, caps, run[n], run[n + 1]);
    begins && continues
  }
}

/**
 * What one fine-grained step can do to one document: a relation per collection, and the proof that
 * every step of every actor stays inside it.
 */
module FineDocuments {
  import opened Wrappers
  import opened Enums
  import opened Documents
  import opened StoreOps
  import opened FineProtocol
  import opened ProviderEvents
  import AgentSm
  import AgentRepo
  import BorrowerRepo
  import CallRepo
  import CallSm

  /** A state change: a permitted edge, one version up, and what happens to lease, clock and ledger. */
  ghost predicate AgentMoves(x: Agent, y: Agent, actor: AgentSm.Actor, clock: Time) {
    && AgentSm.IsValid(x.state, y.state, actor)
    && y.version == x.version + 1
    && y.campaign == x.campaign && y.lastHeartbeat == x.lastHeartbeat
    && y.stateChangedAt <= clock
    && (if y.state.Reserved? then y.lease.Some?
        else if y.state.WrapUp? then y.lease.None?
        else y.lease == x.lease || (y.lease.None? && y.state.Available?))
    && (|| Charges(x, y, clock)
        || (y.ledger == x.ledger && y.state.Reserved? && y.stateChangedAt == clock)
        || (y.ledger == x.ledger && y.state.Available? && actor.Recovery?))
  }

  /** The state left is charged up to the moment of the write. */
  ghost predicate Charges(x: Agent, y: Agent, clock: Time) {
    && y.ledger == AgentRepo.Account(x.ledger, x.state, x.stateChangedAt, clock)
    && y.stateChangedAt == clock
  }

  ghost predicate AgentEvolves(x: Agent, y: Agent, actor: AgentSm.Actor, clock: Time) {
    || y == x
    || (x.lease.Some? && y == x.(currentCall := y.currentCall))
    || y == x.(lastHeartbeat := Some(clock))
    || AgentMoves(x, y, actor, clock)
  }

  ghost predicate AgentsEvolve(m: map<AgentId, Agent>, m': map<AgentId, Agent>, actor: AgentSm.Actor, clock: Time) {
    m'.Keys == m.Keys && forall a <- m :: AgentEvolves(m[a], m'[a], actor, clock)
  }

  /** The five writes a borrower document can receive. */
  ghost predicate BorrowerEvolves(cfg: Config, x: Borrower, y: Borrower, clock: Time) {
    || y == x
    || (x.status.Pending? && x.nextEligibleAt <= clock
        && y == x.(status := BorrowerStatus.Reserved, version := x.version + 1, lease := y.lease)
        && y.lease.Some? && y.lease.value.reservedAt == clock && y.lease.value.expiresAt == clock + cfg.ttl)
    || (BorrowerRepo.IsReleasable(x.status) && x.lease.Some?
        && y == x.(status := BorrowerStatus.Pending, version := x.version + 1, lease := None))
    || (BorrowerRepo.IsReleasable(x.status) && x.lease.Some?
        && y == x.(status := BorrowerStatus.Contacted, version := x.version + 1, lease := None,
                   attempts := x.attempts + 1, lastAttemptAt := Some(clock)))
    || (BorrowerRepo.IsReleasable(x.status) && x.lease.Some?
        && y == BorrowerRepo.RetryUpdate(x, cfg.maxAttempts, cfg.backoffBase, clock))
    || (BorrowerRepo.IsReleasable(x.status) && Expired(x.lease, y.nextEligibleAt) && y.nextEligibleAt <= clock
        && y == x.(status := BorrowerStatus.Pending, version := x.version + 1, lease := None,
                   nextEligibleAt := y.nextEligibleAt))
  }

  ghost predicate BorrowersEvolve(cfg: Config, m: map<BorrowerId, Borrower>, m': map<BorrowerId, Borrower>, clock: Time) {
    m'.Keys == m.Keys && forall b <- m :: BorrowerEvolves(cfg, m[b], m'[b], clock)
  }

  /** A landed transition, or a landed attach. */
  ghost predicate CallEvolves(x: Call, y: Call, clock: Time) {
    || y == x
    || CallRepo.TransitionCall(x, y.state, clock) == Some(y)
    || (x.providerCallId.None? && y == x.(providerCallId := y.providerCallId, updatedAt := clock))
  }

  /** Calls are never removed; a new one is QUEUED, unattached and written now. */
  ghost predicate CallsEvolve(m: map<CallId, Call>, m': map<CallId, Call>, clock: Time) {
    && m.Keys <= m'.Keys
    && (forall c <- m :: CallEvolves(m[c], m'[c], clock))
    && (forall c <- m' :: c !in m ==> m'[c].state.Queued? && m'[c].providerCallId.None? && m'[c].updatedAt == clock)
  }

  /** What a sweep item remembers about the documents its find returned. */
  ghost predicate SweepInv(w: World, pc: SweepPc) {
    match pc
    case Found(kind, a, seen, now) =>
      now <= w.clock && (kind.LeaseItem? ==> AgentSm.IsValid(seen.state, AgentState.Available, AgentSm.Recovery))
      && (kind.HeartbeatItem? ==> !seen.state.Offline?)
    case Cancelled(kind, a, seen, now, call) =>
      now <= w.clock && (kind.LeaseItem? ==> AgentSm.IsValid(seen.state, AgentState.Available, AgentSm.Recovery))
      && (kind.HeartbeatItem? ==> !seen.state.Offline?)
    case Freeing(kind, a, seen, now) =>
      now <= w.clock && (kind.LeaseItem? ==> AgentSm.IsValid(seen.state, AgentState.Available, AgentSm.Recovery))
      && (kind.HeartbeatItem? ==> !seen.state.Offline?)
    case Reclaiming(b, seen, now) => now <= w.clock && BorrowerRepo.IsReleasable(seen.status)
    case _ => true
  }

  ghost predicate SweepsInv(w: World) {
    forall n | 0 <= n < |w.sweeps| :: SweepInv(w, w.sweeps[n])
  }

  lemma ReserveEvolves(a: Agent, k: CampaignId, id: WorkerId, ttl: Time, clock: Time)
    ensures var r := AgentRepo.TryReserve(a, k, id, ttl, clock); r.Some? ==> AgentMoves(a, r.value, AgentSm.Allocator, clock)
  {
  }

  lemma ReleaseEvolves(a: Agent, id: WorkerId, target: AgentState, actor: AgentSm.Actor, clock: Time)
    requires target.Available? || target.WrapUp?
    ensures var r := AgentRepo.Release(a, id, target, actor, clock); r.Some? ==> AgentMoves(a, r.value, actor, clock)
  {
    if AgentRepo.Release(a, id, target, actor, clock).Some? {
      AgentRepo.SwitchIsDirect(a, id, target, actor, clock);
    }
  }

  lemma TransitionEvolves(a: Agent, from: AgentState, to: AgentState, actor: AgentSm.Actor, version: nat, clock: Time)
    requires !to.Reserved? && !to.WrapUp?
    ensures var r := AgentRepo.TransitionAgent(a, from, to, actor, version, clock).ToOption();
            r.Some? ==> AgentMoves(a, r.value, actor, clock)
  {
  }

  lemma DialKeepsAgents(cfg: Config, w: World, id: WorkerId, pc: WorkerPc)
    requires pc.Dial? && !pc.stage.Waiting?
    ensures AgentsEvolve(w.store.agents, DialStep(cfg, w, id, pc).0.store.agents, AgentSm.Allocator, w.clock)
  {
    if pc.pair.agent in w.store.agents {
      TransitionEvolves(w.store.agents[pc.pair.agent], AgentState.Reserved, AgentState.Dialing, AgentSm.Allocator,
                        pc.pair.version, w.clock);
    }
  }

  lemma DropKeepsAgents(cfg: Config, w: World, id: WorkerId, pc: WorkerPc)
    requires pc.Drop? || pc.DropAgent?
    ensures AgentsEvolve(w.store.agents, DropStep(cfg, w, id, pc).0.store.agents, AgentSm.Allocator, w.clock)
  {
    var a := if pc.DropAgent? then pc.agent else pc.pair.agent;
    if a in w.store.agents {
      ReleaseEvolves(w.store.agents[a], id, AgentState.Available, AgentSm.Allocator, w.clock);
    }
  }

  lemma ClaimKeepsAgents(cfg: Config, caps: Caps, w: World, me: Worker, act: WorkerAction)
    requires ClaimStep(cfg, caps, w, me, act).Some?
    ensures AgentsEvolve(w.store.agents, ClaimStep(cfg, caps, w, me, act).value.0.store.agents, AgentSm.Allocator, w.clock)
  {
    if me.pc.Ready? && act.ClaimAgent? && act.agent in w.store.agents {
      ReserveEvolves(w.store.agents[act.agent], me.pc.campaign, me.id, cfg.ttl, w.clock);
    }
  }

  lemma WorkerKeepsAgents(cfg: Config, caps: Caps, w: World, i: nat, act: WorkerAction)
    requires WorkerStep(cfg, caps, w, i, act).Some?
    ensures AgentsEvolve(w.store.agents, WorkerStep(cfg, caps, w, i, act).value.store.agents, AgentSm.Allocator, w.clock)
  {
    var me := w.workers[i];
    if act.Proceed? && me.pc.Dial? && !me.pc.stage.Waiting? {
      DialKeepsAgents(cfg, w, me.id, me.pc);
    } else if act.Proceed? && (me.pc.Drop? || me.pc.DropAgent?) {
      DropKeepsAgents(cfg, w, me.id, me.pc);
    } else if ClaimStep(cfg, caps, w, me, act).Some? {
      ClaimKeepsAgents(cfg, caps, w, me, act);
    }
  }

  lemma EventKeepsAgents(cfg: Config, w: World, pc: EventPc)
    ensures AgentsEvolve(w.store.agents, EventStep(cfg, w, pc).0.agents, AgentSm.EventProcessor, w.clock)
  {
    if pc.AgentRead? && pc.call.key.agent in w.store.agents && CallSm.AgentStateFor(pc.target).Some? {
      var goal := CallSm.AgentStateFor(pc.target).value;
      var a := w.store.agents[pc.call.key.agent];
      if IsReleasing(pc.target) {
        ReleaseEvolves(a, pc.call.createdBy, goal, AgentSm.EventProcessor, w.clock);
      } else {
        TransitionEvolves(a, pc.agent.state, goal, AgentSm.EventProcessor, pc.agent.version, w.clock);
      }
    }
  }

  lemma SweepKeepsAgents(cfg: Config, w: World, pc: SweepPc)
    requires SweepInv(w, pc)
    ensures AgentsEvolve(w.store.agents, SweepStep(cfg, w, pc).0.agents, AgentSm.Recovery, w.clock)
  {
    if pc.Freeing? && pc.agent in w.store.agents {
      TransitionEvolves(w.store.agents[pc.agent], pc.seen.state, AgentState.Offline, AgentSm.Recovery, pc.seen.version, w.clock);
      TransitionEvolves(w.store.agents[pc.agent], AgentState.WrapUp, AgentState.Available, AgentSm.Recovery, pc.seen.version, w.clock);
    } else if pc.FreeingParties? && pc.call.key.agent in w.store.agents {
      ReleaseEvolves(w.store.agents[pc.call.key.agent], pc.call.createdBy, AgentState.Available, AgentSm.Recovery, w.clock);
    }
  }

  /** Every agent write of every step is an edge its actor may take, or leaves the state alone. */
  lemma StepKeepsAgents(cfg: Config, caps: Caps, w: World, act: Action)
    requires SweepsInv(w) && Next(cfg, caps, w, act).Some?
    ensures AgentsEvolve(w.store.agents, Next(cfg, caps, w, act).value.store.agents, ActorOf(act), w.clock)
  {
    match act
    case ByWorker(i, wa) => WorkerKeepsAgents(cfg, caps, w, i, wa);
    case ByProcessor(j, ea) => EventKeepsAgents(cfg, w, w.processors[j]);
    case BySweep(n, sa) => SweepKeepsAgents(cfg, w, w.sweeps[n]);
    case BySelf(a, from, to, v) =>
      if AgentSm.IsValid(from, to, AgentSm.AgentSelf) && a in w.store.agents {
        TransitionEvolves(w.store.agents[a], from, to, AgentSm.AgentSelf, v, w.clock);
      }
    case ByTimer(a, v) =>
    case Beat(a) =>
    case Tick(t) =>
  }

  lemma BorrowerReserveEvolves(cfg: Config, b: Borrower, k: CampaignId, id: WorkerId, clock: Time)
    ensures var r := BorrowerRepo.TryReserve(b, k, id, cfg.ttl, clock); r.Some? ==> BorrowerEvolves(cfg, b, r.value, clock)
  {
  }

  lemma BorrowerReleaseEvolves(cfg: Config, b: Borrower, id: WorkerId, outcome: BorrowerRepo.Outcome, clock: Time)
    ensures var r := BorrowerRepo.Release(b, id, outcome, cfg, clock);
            r.Some? ==>
              && BorrowerEvolves(cfg, b, r.value, clock)
              && (r.value.status.Contacted? <==> outcome.Contacted?)
              && (outcome.Released? <==> r.value.attempts == b.attempts)
  {
    BorrowerRepo.ReleaseByOutcome(b, id, outcome, cfg, clock);
  }

  lemma ClaimKeepsBorrowers(cfg: Config, caps: Caps, w: World, me: Worker, act: WorkerAction)
    requires ClaimStep(cfg, caps, w, me, act).Some?
    ensures BorrowersEvolve(cfg, w.store.borrowers, ClaimStep(cfg, caps, w, me, act).value.0.store.borrowers, w.clock)
  {
    if me.pc.HasAgent? && act.ClaimBorrower? && act.borrower in w.store.borrowers {
      BorrowerReserveEvolves(cfg, w.store.borrowers[act.borrower], me.pc.campaign, me.id, w.clock);
    }
  }

  lemma DropKeepsBorrowers(cfg: Config, w: World, id: WorkerId, pc: WorkerPc)
    requires pc.Drop? || pc.DropAgent?
    ensures BorrowersEvolve(cfg, w.store.borrowers, DropStep(cfg, w, id, pc).0.store.borrowers, w.clock)
  {
    if pc.Drop? && pc.pair.borrower in w.store.borrowers {
      BorrowerReleaseEvolves(cfg, w.store.borrowers[pc.pair.borrower], id, pc.outcome, w.clock);
    }
  }

  lemma DialKeepsBorrowers(cfg: Config, w: World, id: WorkerId, pc: WorkerPc)
    requires pc.Dial? && !pc.stage.Waiting?
    ensures DialStep(cfg, w, id, pc).0.store.borrowers == w.store.borrowers
  {
  }

  lemma WorkerKeepsBorrowers(cfg: Config, caps: Caps, w: World, i: nat, act: WorkerAction)
    requires WorkerStep(cfg, caps, w, i, act).Some?
    ensures BorrowersEvolve(cfg, w.store.borrowers, WorkerStep(cfg, caps, w, i, act).value.store.borrowers, w.clock)
  {
    var me := w.workers[i];
    if act.Proceed? && me.pc.Dial? && !me.pc.stage.Waiting? {
      DialKeepsBorrowers(cfg, w, me.id, me.pc);
    } else if act.Proceed? && (me.pc.Drop? || me.pc.DropAgent?) {
      DropKeepsBorrowers(cfg, w, me.id, me.pc);
    } else if ClaimStep(cfg, caps, w, me, act).Some? {
      ClaimKeepsBorrowers(cfg, caps, w, me, act);
    }
  }

  lemma EventKeepsBorrowers(cfg: Config, w: World, pc: EventPc)
    ensures BorrowersEvolve(cfg, w.store.borrowers, EventStep(cfg, w, pc).0.borrowers, w.clock)
  {
    if pc.ReleasingBorrower? && pc.call.key.borrower in w.store.borrowers {
      BorrowerReleaseEvolves(cfg, w.store.borrowers[pc.call.key.borrower], pc.call.createdBy,
                             BorrowerRepo.OutcomeFor(pc.target.Completed? && pc.call.answeredAt.Some?), w.clock);
    }
  }

  lemma SweepKeepsBorrowers(cfg: Config, w: World, pc: SweepPc)
    requires SweepInv(w, pc)
    ensures BorrowersEvolve(cfg, w.store.borrowers, SweepStep(cfg, w, pc).0.borrowers, w.clock)
  {
    if (pc.Cancelled? || pc.FreeingBorrower?) && pc.call.key.borrower in w.store.borrowers {
      BorrowerReleaseEvolves(cfg, w.store.borrowers[pc.call.key.borrower], pc.call.createdBy, BorrowerRepo.Retry, w.clock);
    }
  }

  /** Every borrower write of every step is one of the five. */
  lemma StepKeepsBorrowers(cfg: Config, caps: Caps, w: World, act: Action)
    requires SweepsInv(w) && Next(cfg, caps, w, act).Some?
    ensures BorrowersEvolve(cfg, w.store.borrowers, Next(cfg, caps, w, act).value.store.borrowers, w.clock)
  {
    match act
    case ByWorker(i, wa) => WorkerKeepsBorrowers(cfg, caps, w, i, wa);
    case ByProcessor(j, ea) => EventKeepsBorrowers(cfg, w, w.processors[j]);
    case BySweep(n, sa) => SweepKeepsBorrowers(cfg, w, w.sweeps[n]);
    case BySelf(a, from, to, v) =>
    case ByTimer(a, v) =>
    case Beat(a) =>
    case Tick(t) =>
  }

  lemma StepKeepsBorrower(cfg: Config, caps: Caps, w: World, act: Action, b: BorrowerId)
    requires SweepsInv(w) && Next(cfg, caps, w, act).Some? && b in w.store.borrowers
    ensures var w' := Next(cfg, caps, w, act).value;
            b in w'.store.borrowers && BorrowerEvolves(cfg, w.store.borrowers[b], w'.store.borrowers[b], w.clock)
  {
    StepKeepsBorrowers(cfg, caps, w, act);
  }

  lemma StepKeepsAgent(cfg: Config, caps: Caps, w: World, act: Action, a: AgentId)
    requires SweepsInv(w) && Next(cfg, caps, w, act).Some? && a in w.store.agents
    ensures var w' := Next(cfg, caps, w, act).value;
            a in w'.store.agents && AgentEvolves(w.store.agents[a], w'.store.agents[a], ActorOf(act), w.clock)
  {
    StepKeepsAgents(cfg, caps, w, act);
  }

  lemma StepTakesTime(cfg: Config, caps: Caps, w: World, act: Action)
    requires Next(cfg, caps, w, act).Some?
    ensures w.clock <= Next(cfg, caps, w, act).value.clock
  {
    match act
    case ByWorker(i, wa) => assert Next(cfg, caps, w, act).value.clock == w.clock;
    case _ =>
  }

  lemma CallWriteEvolves(s: Store, c: CallId, target: CallState, clock: Time)
    ensures CallsEvolve(s.calls, SetCall(s, c, TransitionCall(s, c, target, clock)).calls, clock)
  {
  }

  lemma AttachEvolves(s: Store, c: CallId, pid: nat, clock: Time)
    ensures CallsEvolve(s.calls, CallRepo.Attach(s, c, pid, clock).calls, clock)
  {
  }

  lemma DialKeepsCalls(cfg: Config, w: World, id: WorkerId, pc: WorkerPc)
    requires pc.Dial? && !pc.stage.Waiting?
    ensures CallsEvolve(w.store.calls, DialStep(cfg, w, id, pc).0.store.calls, w.clock)
  {
    match pc.stage
    case Created => CallWriteEvolves(w.store, pc.call, CallState.Reserved, w.clock);
    case Marked => CallWriteEvolves(w.store, pc.call, CallState.Initiated, w.clock);
    case Initiated =>
    case AgentMoved =>
    case Bound =>
    case Accepted(pid) => AttachEvolves(w.store, pc.call, pid, w.clock);
    case Failing => CallWriteEvolves(w.store, pc.call, CallState.Failed, w.clock);
  }

  lemma DropKeepsCalls(cfg: Config, w: World, id: WorkerId, pc: WorkerPc)
    requires pc.Drop? || pc.DropAgent?
    ensures DropStep(cfg, w, id, pc).0.store.calls == w.store.calls
  {
  }

  lemma ClaimKeepsCalls(cfg: Config, caps: Caps, w: World, me: Worker, act: WorkerAction)
    requires ClaimStep(cfg, caps, w, me, act).Some?
    ensures CallsEvolve(w.store.calls, ClaimStep(cfg, caps, w, me, act).value.0.store.calls, w.clock)
  {
  }

  lemma WorkerKeepsCalls(cfg: Config, caps: Caps, w: World, i: nat, act: WorkerAction)
    requires WorkerStep(cfg, caps, w, i, act).Some?
    ensures CallsEvolve(w.store.calls, WorkerStep(cfg, caps, w, i, act).value.store.calls, w.clock)
  {
    var me := w.workers[i];
    if act.Proceed? && me.pc.Dial? && !me.pc.stage.Waiting? {
      DialKeepsCalls(cfg, w, me.id, me.pc);
    } else if act.Proceed? && (me.pc.Drop? || me.pc.DropAgent?) {
      DropKeepsCalls(cfg, w, me.id, me.pc);
    } else if ClaimStep(cfg, caps, w, me, act).Some? {
      ClaimKeepsCalls(cfg, caps, w, me, act);
    }
  }

  lemma EventKeepsCalls(cfg: Config, w: World, pc: EventPc)
    ensures CallsEvolve(w.store.calls, EventStep(cfg, w, pc).0.calls, w.clock)
  {
  }

  lemma SweepKeepsCalls(cfg: Config, w: World, pc: SweepPc)
    ensures CallsEvolve(w.store.calls, SweepStep(cfg, w, pc).0.calls, w.clock)
  {
  }

  lemma StepKeepsCalls(cfg: Config, caps: Caps, w: World, act: Action)
    requires Next(cfg, caps, w, act).Some?
    ensures CallsEvolve(w.store.calls, Next(cfg, caps, w, act).value.store.calls, w.clock)
  {
    match act
    case ByWorker(i, wa) => WorkerKeepsCalls(cfg, caps, w, i, wa);
    case ByProcessor(j, ea) => EventKeepsCalls(cfg, w, w.processors[j]);
    case BySweep(n, sa) => SweepKeepsCalls(cfg, w, w.sweeps[n]);
    case BySelf(a, from, to, v) =>
    case ByTimer(a, v) =>
    case Beat(a) =>
    case Tick(t) =>
  }

  lemma StepKeepsSweeps(cfg: Config, caps: Caps, w: World, act: Action)
    requires SweepsInv(w) && Next(cfg, caps, w, act).Some?
    ensures SweepsInv(Next(cfg, caps, w, act).value)
  {
    var w' := Next(cfg, caps, w, act).value;
    forall n | 0 <= n < |w'.sweeps| ensures SweepInv(w', w'.sweeps[n]) {
      assert SweepInv(w, w.sweeps[n]);
    }
  }
}

/** Single-document agent operations: each function is one find_one_and_update, None when its
    filter does not match. */
module AgentRepo {
  import opened Wrappers
  import opened Enums
  import opened Documents
  import opened AgentSm

  datatype TimeField = Busy | Available | Connected | WrapUp

  /** TIME_ACCOUNTING_FIELDS */
  predicate Charged(s: AgentState, f: TimeField) {
    match f
    case Busy => s.Reserved? || s.Dialing? || s.Connected? || s.WrapUp?
    case Available => s.Available?
    case Connected => s.Connected?
    case WrapUp => s.WrapUp?
  }

  function Elapsed(since: Time, now: Time): nat {
    if now > since then now - since else 0
  }

  function Field(t: Ledger, f: TimeField): int {
    match f
    case Busy => t.busy
    case Available => t.available
    case Connected => t.connected
    case WrapUp => t.wrapUp
  }

  /** time_accounting_updates: what leaving a state adds to every field. */
  function Account(t: Ledger, from: AgentState, since: Time, now: Time): Ledger {
    var ms := Elapsed(since, now);
    Ledger(
      if Charged(from, Busy) then t.busy + ms else t.busy,
      if Charged(from, TimeField.Available) then t.available + ms else t.available,
      if Charged(from, TimeField.Connected) then t.connected + ms else t.connected,
      if Charged(from, TimeField.WrapUp) then t.wrapUp + ms else t.wrapUp)
  }

  /** One $switch of _conditional_accounting: a branch per source state that charges the field,
      tested against the document's own state, with the unchanged field as default. */
  function Switch(t: Ledger, f: TimeField, sources: set<AgentState>, state: AgentState, since: Time, now: Time): int {
    if exists s <- sources :: Charged(s, f) && state == s then Field(t, f) + Elapsed(since, now) else Field(t, f)
  }

  function ConditionalAccounting(t: Ledger, sources: set<AgentState>, state: AgentState, since: Time, now: Time): Ledger {
    Ledger(
      Switch(t, Busy, sources, state, since, now),
      Switch(t, TimeField.Available, sources, state, since, now),
      Switch(t, TimeField.Connected, sources, state, since, now),
      Switch(t, TimeField.WrapUp, sources, state, since, now))
  }

  function TryReserve(a: Agent, campaign: CampaignId, w: WorkerId, ttl: Time, now: Time): Option<Agent> {
    if a.campaign == campaign && a.state.Available? then
      Some(a.(state := AgentState.Reserved, stateChangedAt := now, lease := NewLease(w, ttl, now),
              version := a.version + 1))
    else None
  }

  function Release(a: Agent, w: WorkerId, target: AgentState, actor: Actor, now: Time): Option<Agent> {
    if HeldBy(a.lease, w) && IsValid(a.state, target, actor) then
      Some(a.(ledger := ConditionalAccounting(a.ledger, AllowedSources(target, actor), a.state, a.stateChangedAt, now),
              state := target, stateChangedAt := now, currentCall := None, version := a.version + 1,
              lease := None))
    else None
  }

  /** transition_agent raises before it touches the store, finds no document, or moves it. */
  datatype Transition = Raised | Missed | Moved(agent: Agent) {
    function ToOption(): Option<Agent> {
      if Moved? then Some(agent) else None
    }
  }

  function TransitionAgent(a: Agent, from: AgentState, to: AgentState, actor: Actor, version: nat, now: Time): Transition {
    if !IsValid(from, to, actor) then Raised
    else if a.state == from && a.version == version then
      Moved(a.(state := to, stateChangedAt := now, version := a.version + 1,
               ledger := Account(a.ledger, from, a.stateChangedAt, now)))
    else Missed
  }

  function BindCall(a: Agent, w: WorkerId, c: CallId): Option<Agent> {
    if HeldBy(a.lease, w) then Some(a.(currentCall := Some(c))) else None
  }

  function Heartbeat(a: Agent, now: Time): Agent {
    a.(lastHeartbeat := Some(now))
  }

  predicate LeaseExpired(a: Agent, now: Time) {
    IsValid(a.state, AgentState.Available, Recovery) && Expired(a.lease, now)
  }

  function ReleaseExpired(a: Agent, seen: Agent, now: Time): Option<Agent> {
    if a.state == seen.state && a.version == seen.version && Expired(a.lease, now) then
      Some(a.(state := AgentState.Available, stateChangedAt := now, currentCall := None, lease := None,
              version := a.version + 1))
    else None
  }

  predicate HeartbeatExpired(a: Agent, olderThan: Time) {
    !a.state.Offline? && a.lastHeartbeat.Some? && a.lastHeartbeat.value < olderThan
  }

  predicate WrapUpExpired(a: Agent, olderThan: Time) {
    a.state.WrapUp? && a.stateChangedAt <= olderThan
  }

  /** Whatever the source table, the $switch charges exactly what a direct charge to the state the
      document is in would, for every document the release filter can select. */
  lemma SwitchIsDirect(a: Agent, w: WorkerId, target: AgentState, actor: Actor, now: Time)
    requires Release(a, w, target, actor, now).Some?
    ensures Release(a, w, target, actor, now).value.ledger == Account(a.ledger, a.state, a.stateChangedAt, now)
  {
    assert a.state in AllowedSources(target, actor);
  }
}

/** Single-document borrower operations. */
module BorrowerRepo {
  import opened Wrappers
  import opened Enums
  import opened Documents

  datatype Outcome = Released | Retry | Contacted

  predicate IsReleasable(s: BorrowerStatus) {
    s.Reserved? || s.InCall?
  }

  function TryReserve(b: Borrower, campaign: CampaignId, w: WorkerId, ttl: Time, now: Time): Option<Borrower> {
    if b.campaign == campaign && b.status.Pending? && b.nextEligibleAt <= now then
      Some(b.(status := BorrowerStatus.Reserved, lease := NewLease(w, ttl, now), version := b.version + 1))
    else None
  }

  function Power(n: nat): nat {
    if n == 0 then 1 else 2 * Power(n - 1)
  }

  /** _build_retry_update: the second stage reads the attempt count the first stage wrote. */
  function RetryUpdate(b: Borrower, maxAttempts: int, backoffBase: Time, now: Time): Borrower {
    var counted := b.(attempts := b.attempts + 1, lastAttemptAt := Some(now), version := b.version + 1, lease := None);
    counted.(status := if counted.attempts >= maxAttempts then BorrowerStatus.Exhausted else BorrowerStatus.Pending,
             nextEligibleAt := now + backoffBase * Power(counted.attempts - 1))
  }

  function Release(b: Borrower, w: WorkerId, outcome: Outcome, cfg: Config, now: Time): Option<Borrower> {
    if HeldBy(b.lease, w) && IsReleasable(b.status) then
      Some(match outcome
           case Released => b.(status := BorrowerStatus.Pending, lease := None, version := b.version + 1)
           case Contacted =>
             b.(status := BorrowerStatus.Contacted, lastAttemptAt := Some(now), lease := None,
                version := b.version + 1, attempts := b.attempts + 1)
           case Retry => RetryUpdate(b, cfg.maxAttempts, cfg.backoffBase, now))
    else None
  }

  /** The n-th power of two, said by doubling. */
  lemma PowerDoubles(n: nat)
    ensures Power(0) == 1 && Power(1) == 2 && Power(n + 1) == Power(n) + Power(n)
  {
  }

  /** What a release does, outcome by outcome: RELEASED costs the borrower nothing, CONTACTED settles him,
      RETRY counts the attempt and doubles the wait, until the attempts are used up. */
  lemma ReleaseByOutcome(b: Borrower, w: WorkerId, outcome: Outcome, cfg: Config, now: Time)
    ensures Release(b, w, outcome, cfg, now).Some? <==>
            b.lease.Some? && b.lease.value.worker == w && (b.status.Reserved? || b.status.InCall?)
    ensures Release(b, w, outcome, cfg, now).Some? ==>
              var x := Release(b, w, outcome, cfg, now).value;
              && x.campaign == b.campaign && x.version == b.version + 1 && x.lease.None?
              && (outcome.Released? ==>
                    && x.status.Pending? && x.attempts == b.attempts
                    && x.lastAttemptAt == b.lastAttemptAt && x.nextEligibleAt == b.nextEligibleAt)
              && (outcome.Contacted? ==>
                    && x.status.Contacted? && x.attempts == b.attempts + 1
                    && x.lastAttemptAt == Some(now) && x.nextEligibleAt == b.nextEligibleAt)
              && (outcome.Retry? ==>
                    && x.attempts == b.attempts + 1 && x.lastAttemptAt == Some(now)
                    && (x.status.Exhausted? <==> b.attempts + 1 >= cfg.maxAttempts)
                    && (x.status.Pending? <==> b.attempts + 1 < cfg.maxAttempts)
                    && x.nextEligibleAt == now + cfg.backoffBase * Power(b.attempts))
  {
  }

  predicate LeaseExpired(b: Borrower, now: Time) {
    IsReleasable(b.status) && Expired(b.lease, now)
  }

  function Reclaim(b: Borrower, seen: Borrower, now: Time): Option<Borrower> {
    if b.status == seen.status && b.version == seen.version && Expired(b.lease, now) then
      Some(b.(status := BorrowerStatus.Pending, nextEligibleAt := now, lease := None, version := b.version + 1))
    else None
  }

  /** RetryService.outcome_for_terminal_call */
  function OutcomeFor(answered: bool): Outcome {
    if answered then Outcome.Contacted else Retry
  }
}

/** Call and event operations, including the unique indexes they run into. */
module CallRepo {
  import opened Wrappers
  import opened Enums
  import opened Documents

  function NewCall(key: Key, provider: Provider, w: WorkerId, now: Time): Call {
    Call(key, CallState.Queued, provider, None, w, None, now)
  }

  /** insert_one; a duplicate key leaves the store alone and the older document is returned. */
  function CreateCall(s: Store, key: Key, provider: Provider, w: WorkerId, id: CallId, now: Time): (Store, CallId) {
    if key in s.byKey then (s, s.byKey[key])
    else (s.(calls := s.calls[id := NewCall(key, provider, w, now)], byKey := s.byKey[key := id]), id)
  }

  function TransitionCall(c: Call, target: CallState, now: Time): Option<Call> {
    if !IsTerminal(c.state) && Rank(c.state) < Rank(target) then
      Some(c.(state := target, updatedAt := now,
              answeredAt := if target.Answered? then Some(now) else c.answeredAt))
    else None
  }

  /** attach_provider_call_id: the filter wants an unattached call, the index an unused reference. */
  predicate CanAttach(s: Store, c: CallId, pid: nat) {
    c in s.calls && s.calls[c].providerCallId.None? && Ref(s.calls[c].provider, pid) !in s.byRef
  }

  function Attach(s: Store, c: CallId, pid: nat, now: Time): Store {
    if CanAttach(s, c, pid) then
      s.(calls := s.calls[c := s.calls[c].(providerCallId := Some(pid), updatedAt := now)],
         byRef := s.byRef[Ref(s.calls[c].provider, pid) := c])
    else s
  }

  function FindByRef(s: Store, r: Ref): Option<CallId> {
    if r in s.byRef then Some(s.byRef[r]) else None
  }

  predicate IsStale(c: Call, olderThan: Time) {
    !IsTerminal(c.state) && c.updatedAt < olderThan
  }

  /** The states read_capacity counts as active. */
  predicate IsActive(c: Call) {
    !IsTerminal(c.state) && !c.state.Queued?
  }
}

/** The same operations lifted to the whole store: a missing document or a filter that does not
    match leaves the store unchanged. */
module StoreOps {
  import opened Wrappers
  import opened Enums
  import opened Documents
  import AgentSm
  import AgentRepo
  import BorrowerRepo
  import CallRepo

  function ReserveAgent(s: Store, campaign: CampaignId, a: AgentId, w: WorkerId, ttl: Time, now: Time): Option<Agent> {
    if a in s.agents then AgentRepo.TryReserve(s.agents[a], campaign, w, ttl, now) else None
  }

  function ReleaseAgent(s: Store, a: AgentId, w: WorkerId, target: AgentState, actor: AgentSm.Actor, now: Time): Option<Agent> {
    if a in s.agents then AgentRepo.Release(s.agents[a], w, target, actor, now) else None
  }

  function TransitionAgent(s: Store, a: AgentId, from: AgentState, to: AgentState, actor: AgentSm.Actor,
                           version: nat, now: Time): Option<Agent> {
    if a in s.agents then AgentRepo.TransitionAgent(s.agents[a], from, to, actor, version, now).ToOption() else None
  }

  function BindCall(s: Store, a: AgentId, w: WorkerId, c: CallId): Option<Agent> {
    if a in s.agents then AgentRepo.BindCall(s.agents[a], w, c) else None
  }

  function ReleaseExpired(s: Store, a: AgentId, seen: Agent, now: Time): Option<Agent> {
    if a in s.agents then AgentRepo.ReleaseExpired(s.agents[a], seen, now) else None
  }

  function ReserveBorrower(s: Store, campaign: CampaignId, b: BorrowerId, w: WorkerId, ttl: Time, now: Time): Option<Borrower> {
    if b in s.borrowers then BorrowerRepo.TryReserve(s.borrowers[b], campaign, w, ttl, now) else None
  }

  function ReleaseBorrower(s: Store, b: BorrowerId, w: WorkerId, outcome: BorrowerRepo.Outcome, cfg: Config, now: Time): Option<Borrower> {
    if b in s.borrowers then BorrowerRepo.Release(s.borrowers[b], w, outcome, cfg, now) else None
  }

  function ReclaimBorrower(s: Store, b: BorrowerId, seen: Borrower, now: Time): Option<Borrower> {
    if b in s.borrowers then BorrowerRepo.Reclaim(s.borrowers[b], seen, now) else None
  }

  function TransitionCall(s: Store, c: CallId, target: CallState, now: Time): Option<Call> {
    if c in s.calls then CallRepo.TransitionCall(s.calls[c], target, now) else None
  }

  function SetAgent(s: Store, a: AgentId, r: Option<Agent>): Store {
    s.(agents := Put(s.agents, a, r))
  }

  function SetBorrower(s: Store, b: BorrowerId, r: Option<Borrower>): Store {
    s.(borrowers := Put(s.borrowers, b, r))
  }

  function SetCall(s: Store, c: CallId, r: Option<Call>): Store {
    s.(calls := Put(s.calls, c, r))
  }
}

/** The filters of the repositories' finds. */
module Queries {
  import opened Enums
  import opened Documents
  import AgentRepo
  import BorrowerRepo
  import CallRepo

  function ClaimableAgents(s: Store, k: CampaignId): set<AgentId> {
    set a <- s.agents | s.agents[a].campaign == k && s.agents[a].state.Available?
  }

  function LeaseExpiredAgents(s: Store, now: Time): set<AgentId> {
    set a <- s.agents | AgentRepo.LeaseExpired(s.agents[a], now)
  }

  function HeartbeatExpiredAgents(s: Store, olderThan: Time): set<AgentId> {
    set a <- s.agents | AgentRepo.HeartbeatExpired(s.agents[a], olderThan)
  }

  function WrapUpExpiredAgents(s: Store, olderThan: Time): set<AgentId> {
    set a <- s.agents | AgentRepo.WrapUpExpired(s.agents[a], olderThan)
  }

  function ClaimableBorrowers(s: Store, k: CampaignId, now: Time): set<BorrowerId> {
    set b <- s.borrowers | s.borrowers[b].campaign == k && s.borrowers[b].status.Pending? && s.borrowers[b].nextEligibleAt <= now
  }

  function LeaseExpiredBorrowers(s: Store, now: Time): set<BorrowerId> {
    set b <- s.borrowers | BorrowerRepo.LeaseExpired(s.borrowers[b], now)
  }

  function ReservedAgents(s: Store, k: CampaignId): set<AgentId> {
    set a <- s.agents | s.agents[a].campaign == k && s.agents[a].state.Reserved?
  }

  function ActiveCallsOf(s: Store, k: CampaignId): set<CallId> {
    set c <- s.calls | s.calls[c].key.campaign == k && CallRepo.IsActive(s.calls[c])
  }

  function RingingCalls(s: Store, k: CampaignId): set<CallId> {
    set c <- s.calls | s.calls[c].key.campaign == k && s.calls[c].state.Ringing?
  }

  function StaleCalls(s: Store, olderThan: Time): set<CallId> {
    set c <- s.calls | CallRepo.IsStale(s.calls[c], olderThan)
  }
}

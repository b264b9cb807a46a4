/** The documents of the shared store and the store itself. */
module Documents {
  import opened Wrappers
  import opened Enums

  // Identifiers are compared for equality only. Times and durations are milliseconds.
  type AgentId = nat
  type BorrowerId = nat
  type CallId = nat
  type CampaignId = nat
  type WorkerId = nat
  type Provider = nat
  type Time = int

  /** The three lease fields of a document are always written and cleared together. */
  datatype Lease = Lease(worker: WorkerId, reservedAt: Time, expiresAt: Time)

  /** Milliseconds an agent has been charged for, per accounting field. */
  datatype Ledger = Ledger(busy: int, available: int, connected: int, wrapUp: int)

  datatype Agent = Agent(
    campaign: CampaignId,
    state: AgentState,
    version: nat,
    lease: Option<Lease>,
    currentCall: Option<CallId>,
    lastHeartbeat: Option<Time>,
    stateChangedAt: Time,
    ledger: Ledger)

  datatype Borrower = Borrower(
    campaign: CampaignId,
    status: BorrowerStatus,
    version: nat,
    lease: Option<Lease>,
    attempts: nat,
    lastAttemptAt: Option<Time>,
    nextEligibleAt: Time)

  /** The idempotency key, as the tuple its string is built from. */
  datatype Key = Key(campaign: CampaignId, agent: AgentId, borrower: BorrowerId, attempt: nat)

  datatype Call = Call(
    key: Key,
    state: CallState,
    provider: Provider,
    providerCallId: Option<nat>,
    createdBy: WorkerId,
    answeredAt: Option<Time>,
    updatedAt: Time)

  /** A provider's name together with an identifier it handed out. */
  datatype Ref = Ref(provider: Provider, id: nat)

  /** The collections, with the two unique indexes on calls and the one on events. */
  datatype Store = Store(
    agents: map<AgentId, Agent>,
    borrowers: map<BorrowerId, Borrower>,
    calls: map<CallId, Call>,
    byKey: map<Key, CallId>,
    byRef: map<Ref, CallId>,
    events: set<Ref>)

  datatype Config = Config(
    ttl: Time,
    maxAttempts: int,
    backoffBase: Time,
    staleTimeout: Time,
    heartbeatTimeout: Time,
    wrapUp: Time,
    sweepLimit: nat)

  predicate HeldBy(lease: Option<Lease>, w: WorkerId) {
    lease.Some? && lease.value.worker == w
  }

  predicate Expired(lease: Option<Lease>, now: Time) {
    lease.Some? && lease.value.expiresAt < now
  }

  function NewLease(w: WorkerId, ttl: Time, now: Time): Option<Lease> {
    Some(Lease(w, now, now + ttl))
  }

  /** A collection after a find_one_and_update: the returned document replaces the old one. */
  function Put<K, V>(m: map<K, V>, k: K, r: Option<V>): map<K, V> {
    if r.Some? then m[k := r.value] else m
  }
}

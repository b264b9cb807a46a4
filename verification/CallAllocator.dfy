/** Claiming an agent and a borrower, and giving them back. */
module Reservations {
  import opened Wrappers
  import opened Enums
  import opened Documents
  import opened StoreOps
  import opened Queries
  import opened Database
  import opened AllocatorSpec
  import AgentSm
  import BorrowerRepo

  /** candidate_window(1) */
  const WINDOW: nat := 3

  /** A claimed pair; borrower carries the document as the claim returned it. */
  datatype Pair = Pair(agent: AgentId, agentVersion: nat, borrower: BorrowerId, callee: Borrower)

  class ReservationService {
    const db: Collections
    const agents: AgentRepository
    const borrowers: BorrowerRepository
    const cfg: Config

    constructor (db: Collections, cfg: Config)
      ensures this.db == db && this.cfg == cfg && Wired()
    {
      this.db := db;
      this.cfg := cfg;
      agents := new AgentRepository(db);
      borrowers := new BorrowerRepository(db);
    }

    ghost predicate Wired() {
      agents.db == db && borrowers.db == db
    }

    /** Tries candidates in order until one can be claimed; some may have been taken since they were found. */
    method ClaimFirstAgent(k: CampaignId, candidates: seq<AgentId>, w: WorkerId, now: Time) returns (r: Option<(AgentId, Agent)>)
      requires Wired()
      modifies db
      ensures r.None? ==> db.View() == old(db.View())
                          && forall i | 0 <= i < |candidates| :: ReserveAgent(db.View(), k, candidates[i], w, cfg.ttl, now).None?
      ensures r.Some? ==> ReserveAgent(old(db.View()), k, r.value.0, w, cfg.ttl, now) == Some(r.value.1)
                          && db.View() == SetAgent(old(db.View()), r.value.0, Some(r.value.1))
    {
      for i := 0 to |candidates|
        invariant db.View() == old(db.View())
        invariant forall j | 0 <= j < i :: ReserveAgent(db.View(), k, candidates[j], w, cfg.ttl, now).None?
      {
        var claimed := agents.TryReserveAgent(k, candidates[i], w, cfg.ttl, now);
        if claimed.Some? {
          return Some((candidates[i], claimed.value));
        }
      }
      return None;
    }

    method ClaimFirstBorrower(k: CampaignId, candidates: seq<BorrowerId>, w: WorkerId, now: Time) returns (r: Option<(BorrowerId, Borrower)>)
      requires Wired()
      modifies db
      ensures r.None? ==> db.View() == old(db.View())
                          && forall i | 0 <= i < |candidates| :: ReserveBorrower(db.View(), k, candidates[i], w, cfg.ttl, now).None?
      ensures r.Some? ==> ReserveBorrower(old(db.View()), k, r.value.0, w, cfg.ttl, now) == Some(r.value.1)
                          && db.View() == SetBorrower(old(db.View()), r.value.0, Some(r.value.1))
    {
      for i := 0 to |candidates|
        invariant db.View() == old(db.View())
        invariant forall j | 0 <= j < i :: ReserveBorrower(db.View(), k, candidates[j], w, cfg.ttl, now).None?
      {
        var claimed := borrowers.TryReserveBorrower(k, candidates[i], w, cfg.ttl, now);
        if claimed.Some? {
          return Some((candidates[i], claimed.value));
        }
      }
      return None;
    }

    method ClaimAgent(k: CampaignId, w: WorkerId, now: Time) returns (r: Option<(AgentId, Agent)>)
      requires Wired()
      modifies db
      ensures r.None? <==> ClaimableAgents(old(db.View()), k) == {}
      ensures r.None? ==> db.View() == old(db.View())
      ensures r.Some? ==> ReserveAgent(old(db.View()), k, r.value.0, w, cfg.ttl, now) == Some(r.value.1)
                          && db.View() == SetAgent(old(db.View()), r.value.0, Some(r.value.1))
    {
      var found := agents.FindClaimableAgents(k, WINDOW);
      if found != [] {
        assert found[0] in Ids(found);
      }
      r := ClaimFirstAgent(k, found, w, now);
      if r.Some? {
        assert r.value.0 in ClaimableAgents(old(db.View()), k);
      }
    }

    method ClaimBorrower(k: CampaignId, w: WorkerId, now: Time) returns (r: Option<(BorrowerId, Borrower)>)
      requires Wired()
      modifies db
      ensures r.None? <==> ClaimableBorrowers(old(db.View()), k, now) == {}
      ensures r.None? ==> db.View() == old(db.View())
      ensures r.Some? ==> ReserveBorrower(old(db.View()), k, r.value.0, w, cfg.ttl, now) == Some(r.value.1)
                          && db.View() == SetBorrower(old(db.View()), r.value.0, Some(r.value.1))
    {
      var found := borrowers.FindClaimableBorrowers(k, now, WINDOW);
      if found != [] {
        assert found[0] in Ids(found);
      }
      r := ClaimFirstBorrower(k, found, w, now);
      if r.Some? {
        assert r.value.0 in ClaimableBorrowers(old(db.View()), k, now);
      }
    }

    /** reserve_pair: nobody to pair leaves no trace but an agent claimed and released. */
    method ReservePair(k: CampaignId, w: WorkerId, now: Time) returns (pair: Option<Pair>)
      requires Wired()
      modifies db
      ensures pair.None? <==> ClaimableAgents(old(db.View()), k) == {} || ClaimableBorrowers(old(db.View()), k, now) == {}
      ensures pair.None? ==> Compensated(old(db.View()), db.View()) && db.calls == old(db.calls) && db.byKey == old(db.byKey)
                             && db.borrowers == old(db.borrowers)
      ensures pair.Some? ==> IsClaimed(cfg, old(db.View()), db.View(), k, w, now, pair.value)
    {
      ghost var s := db.View();
      var agent := ClaimAgent(k, w, now);
      if agent.None? {
        return None;
      }
      assert ClaimableBorrowers(db.View(), k, now) == ClaimableBorrowers(s, k, now);
      var borrower := ClaimBorrower(k, w, now);
      if borrower.None? {
        var _ := agents.ReleaseAgent(agent.value.0, w, AgentState.Available, AgentSm.Allocator, now);
        return None;
      }
      return Some(Pair(agent.value.0, agent.value.1.version, borrower.value.0, borrower.value.1));
    }

    /** release_pair */
    method ReleasePair(pair: Pair, w: WorkerId, outcome: BorrowerRepo.Outcome, now: Time)
      requires Wired()
      modifies db
      ensures db.View() == AllocatorSpec.ReleasePair(cfg, old(db.View()), w, pair.agent, pair.borrower, outcome, now)
    {
      var _ := agents.ReleaseAgent(pair.agent, w, AgentState.Available, AgentSm.Allocator, now);
      var _ := borrowers.ReleaseBorrower(pair.borrower, w, outcome, cfg, now);
    }
  }

  /** Both claims of the pair have just been made in s. */
  ghost predicate IsClaimed(cfg: Config, s: Store, t: Store, k: CampaignId, w: WorkerId, now: Time, pair: Pair) {
    var agent := ReserveAgent(s, k, pair.agent, w, cfg.ttl, now);
    && agent.Some? && agent.value.version == pair.agentVersion
    && ReserveBorrower(s, k, pair.borrower, w, cfg.ttl, now) == Some(pair.callee)
    && t == SetBorrower(SetAgent(s, pair.agent, agent), pair.borrower, Some(pair.callee))
  }
}

/** The call allocator: a loop that dials pairs until the approval is spent or nobody is left. */
module CallAllocator {
  import opened Wrappers
  import opened Enums
  import opened Documents
  import opened StoreOps
  import opened Queries
  import opened Database
  import opened MacroProtocol
  import opened AllocatorSpec
  import opened Reservations
  import AgentSm
  import BorrowerRepo
  import CallRepo

  const MAX_CONSECUTIVE_CONTENTIONS: nat := 3

  datatype AllocationResult = AllocationResult(attempted: nat, dialled: nat, failed: nat, contended: nat)

  datatype Attempted = Contended | Dialled | Failed

  /** What the worker does not control, iteration by iteration: its clock, the provider's answer and health. */
  type World = seq<Turn>

  /** No AVAILABLE agent in the campaign, or no borrower due. */
  predicate NobodyToPair(s: Store, k: CampaignId, now: Time) {
    ClaimableAgents(s, k) == {} || ClaimableBorrowers(s, k, now) == {}
  }

  /** The counters of the loop, next to what it has done so far. */
  datatype Tally = Tally(result: AllocationResult, consecutive: nat)

  const NO_TALLY := Tally(AllocationResult(0, 0, 0, 0), 0)

  function Count(tally: Tally, outcome: Attempted): Tally {
    var r := tally.result.(attempted := tally.result.attempted + 1);
    match outcome
    case Contended => Tally(r.(contended := r.contended + 1), tally.consecutive + 1)
    case Dialled => Tally(r.(dialled := r.dialled + 1), 0)
    case Failed => Tally(r.(failed := r.failed + 1), 0)
  }

  /** The attempt before the n-th was the third in a row to come back empty. */
  predicate IsThirdMiss(outcomes: seq<Attempted>, n: nat)
    requires n <= |outcomes|
  {
    n >= 3 && outcomes[n - 1].Contended? && outcomes[n - 2].Contended? && outcomes[n - 3].Contended?
  }

  /** The counters count these attempts, none of which came after a third miss in a row. */
  ghost predicate Tallied(outcomes: seq<Attempted>, r: AllocationResult) {
    && |outcomes| == r.attempted
    && multiset(outcomes)[Contended] == r.contended
    && multiset(outcomes)[Dialled] == r.dialled
    && multiset(outcomes)[Attempted.Failed] == r.failed
    && forall n :: 0 <= n < |outcomes| ==> !IsThirdMiss(outcomes, n)
  }

  /** The misses since the last pair are counted, too. */
  ghost predicate IsTail(outcomes: seq<Attempted>, misses: nat) {
    && misses <= |outcomes|
    && (forall i :: |outcomes| - misses <= i < |outcomes| ==> outcomes[i].Contended?)
    && (misses < |outcomes| ==> !outcomes[|outcomes| - 1 - misses].Contended?)
  }

  lemma ThirdMissEndsTail(outcomes: seq<Attempted>, misses: nat)
    requires IsTail(outcomes, misses)
    ensures IsThirdMiss(outcomes, |outcomes|) <==> misses >= 3
  {
    if misses < 3 && misses < |outcomes| {
      assert !outcomes[|outcomes| - 1 - misses].Contended?;
    }
  }

  lemma TalliedOneMore(outcomes: seq<Attempted>, tally: Tally, outcome: Attempted)
    requires Tallied(outcomes, tally.result) && IsTail(outcomes, tally.consecutive) && tally.consecutive < 3
    ensures Tallied(outcomes + [outcome], Count(tally, outcome).result)
    ensures IsTail(outcomes + [outcome], Count(tally, outcome).consecutive)
  {
    var next := outcomes + [outcome];
    ThirdMissEndsTail(outcomes, tally.consecutive);
    forall n | 0 <= n < |next| ensures !IsThirdMiss(next, n) {
      assert !IsThirdMiss(outcomes, n);
    }
  }

  ghost predicate SoFar(s: Store, t: Store, k: CampaignId, w: WorkerId, tally: Tally, last: Time,
                        A: set<AgentId>, B: set<BorrowerId>, C: set<CallId>) {
    && Allocation(s, t, k, w, A, B, C) && KeysIndexed(t)
    && |A| == tally.result.dialled && |B| == tally.result.dialled && |C| == tally.result.dialled
    && tally.result.attempted == tally.result.dialled + tally.result.failed + tally.result.contended
    && tally.consecutive <= tally.result.contended
    && (tally.consecutive > 0 ==> NobodyToPair(t, k, last))
  }

  lemma NothingSoFar(s: Store, k: CampaignId, w: WorkerId, last: Time)
    requires KeysIndexed(s)
    ensures SoFar(s, s, k, w, NO_TALLY, last, {}, {}, {})
  {
    NoAllocationYet(s, k, w);
  }

  /** What one iteration may do. */
  ghost predicate Iterated(t: Store, u: Store, k: CampaignId, w: WorkerId, at: Time, outcome: Attempted,
                           a: AgentId, b: BorrowerId, c: CallId) {
    && KeysIndexed(u)
    && (outcome.Contended? <==> NobodyToPair(t, k, at))
    && (outcome.Contended? ==> NobodyToPair(u, k, at))
    && if outcome.Dialled? then Allocation(t, u, k, w, {a}, {b}, {c}) else Compensated(t, u)
  }

  ghost function Grown(x: set<nat>, outcome: Attempted, e: nat): set<nat> {
    if outcome.Dialled? then x + {e} else x
  }

  lemma IterationSoFar(s: Store, t: Store, u: Store, k: CampaignId, w: WorkerId, tally: Tally, last: Time, at: Time, outcome: Attempted,
                       A: set<AgentId>, B: set<BorrowerId>, C: set<CallId>, a: AgentId, b: BorrowerId, c: CallId)
    requires SoFar(s, t, k, w, tally, last, A, B, C) && Iterated(t, u, k, w, at, outcome, a, b, c)
    ensures SoFar(s, u, k, w, Count(tally, outcome), at, Grown(A, outcome, a), Grown(B, outcome, b), Grown(C, outcome, c))
  {
    if outcome.Dialled? {
      DialExtendsAllocation(s, t, u, k, w, A, B, C, a, b, c);
      OneMoreEach(A, B, C, a, b, c);
    } else {
      CompensationKeepsAllocation(s, t, u, k, w, A, B, C);
    }
  }

  lemma OneMoreEach(A: set<AgentId>, B: set<BorrowerId>, C: set<CallId>, a: AgentId, b: BorrowerId, c: CallId)
    requires a !in A && b !in B && c !in C
    ensures |A + {a}| == |A| + 1 && |B + {b}| == |B| + 1 && |C + {c}| == |C| + 1
  {
  }

  class Allocator {
    const db: Collections
    const reservations: ReservationService
    const calls: CallRepository
    const agents: AgentRepository
    const cfg: Config

    constructor (db: Collections, cfg: Config)
      ensures this.db == db && this.cfg == cfg && Wired()
    {
      this.db := db;
      this.cfg := cfg;
      reservations := new ReservationService(db, cfg);
      calls := new CallRepository(db);
      agents := new AgentRepository(db);
    }

    ghost predicate Wired() {
      calls.db == db && agents.db == db && reservations.db == db && reservations.cfg == cfg && reservations.Wired()
    }

    /** _dial, for a pair claimed in s. The order it returns adds the id a new call gets. A closed gate gives
        the pair back uncharged and touches no call; an open one initiates a QUEUED call. */
    method Dial(k: CampaignId, provider: Provider, w: WorkerId, pair: Pair, turn: Turn, ghost s: Store)
      returns (dialled: bool, ghost o: Order)
      requires Wired() && KeysIndexed(s)
      requires IsClaimed(cfg, s, db.View(), k, w, turn.at, pair)
      modifies db
      ensures o == Order(k, pair.agent, pair.borrower, provider, o.id, turn.at) && o.id !in s.calls
      ensures CanPair(cfg, s, w, o, turn.at)
      ensures dialled <==> Dials(cfg, s, w, o, turn)
      ensures db.View() == DialResult(cfg, s, w, o, turn)
      ensures IsGateShut(cfg, pair.callee, turn) ==> !dialled && IsUntouched(old(db.View()), db.View(), pair)
      ensures !IsGateShut(cfg, pair.callee, turn) && CallIsQueued(s, o) ==> IsInitiated(db.View(), DialledCall(s, o), dialled)
    {
      o := Order(k, pair.agent, pair.borrower, provider, 0, turn.at);
      ClaimedOrder(cfg, s, db.View(), w, o, pair);
      if GateIsClosed(cfg, pair.callee, turn) {
        o := Refuse(k, provider, w, pair, turn, s);
        dialled := false;
      } else {
        dialled, o := DialOpen(k, provider, w, pair, turn, s);
      }
      ClaimedOrder(cfg, s, old(db.View()), w, o, pair);
      DialReport(cfg, s, old(db.View()), w, o, turn, pair);
    }

    /** The gate is closed. */
    method Refuse(k: CampaignId, provider: Provider, w: WorkerId, pair: Pair, turn: Turn, ghost s: Store) returns (ghost o: Order)
      requires Wired() && KeysIndexed(s)
      requires IsClaimed(cfg, s, db.View(), k, w, turn.at, pair) && GateIsClosed(cfg, pair.callee, turn)
      modifies db
      ensures o == Order(k, pair.agent, pair.borrower, provider, o.id, turn.at) && o.id !in s.calls
      ensures CanPair(cfg, s, w, o, turn.at) && !Dials(cfg, s, w, o, turn)
      ensures db.View() == DialResult(cfg, s, w, o, turn)
    {
      var id := db.UnusedCallId();
      o := Order(k, pair.agent, pair.borrower, provider, id, turn.at);
      ClaimedOrder(cfg, s, db.View(), w, o, pair);
      BackOffCompensates(cfg, s, w, o, turn.at);
      reservations.ReleasePair(pair, w, BorrowerRepo.Released, turn.at);
    }

    /** The gate is open: create the call, and go on if it is QUEUED. */
    method DialOpen(k: CampaignId, provider: Provider, w: WorkerId, pair: Pair, turn: Turn, ghost s: Store)
      returns (dialled: bool, ghost o: Order)
      requires Wired() && KeysIndexed(s)
      requires IsClaimed(cfg, s, db.View(), k, w, turn.at, pair) && !GateIsClosed(cfg, pair.callee, turn)
      modifies db
      ensures o == Order(k, pair.agent, pair.borrower, provider, o.id, turn.at) && o.id !in s.calls
      ensures CanPair(cfg, s, w, o, turn.at)
      ensures dialled <==> Dials(cfg, s, w, o, turn)
      ensures db.View() == DialResult(cfg, s, w, o, turn)
    {
      o := Order(k, pair.agent, pair.borrower, provider, 0, turn.at);
      ClaimedOrder(cfg, s, db.View(), w, o, pair);
      var key := Key(k, pair.agent, pair.borrower, pair.callee.attempts + 1);
      var c: CallId;
      ghost var t, id := db.View(), 0;
      c, id := calls.CreateCall(key, provider, w, turn.at);
      o := o.(id := id);
      ClaimedOrder(cfg, s, t, w, o, pair);
      CreatedCall(cfg, s, t, w, o, turn.at);
      if !db.calls[c].state.Queued? {
        BackOffCompensates(cfg, s, w, o, turn.at);
        reservations.ReleasePair(pair, w, BorrowerRepo.Released, turn.at);
        return false, o;
      }
      Initiate(c, w, pair, turn.at, s, o);
      dialled := Conclude(c, w, pair, turn);
    }

    /** RESERVED, INITIATED, agent DIALING, bind. Undisturbed, a QUEUED call is always initiated. */
    method Initiate(c: CallId, w: WorkerId, pair: Pair, now: Time, ghost s: Store, ghost o: Order)
      requires Wired() && CanPair(cfg, s, w, o, now) && CallIsQueued(s, o)
      requires o.agent == pair.agent && c == DialledCall(s, o) && pair.agentVersion == ClaimedAgent(cfg, s, w, o, now).version
      requires db.View() == DialWrites(cfg, s, w, o, now, 3)
      modifies db
      ensures db.View() == DialWrites(cfg, s, w, o, now, 7)
    {
      InitiationSucceeds(cfg, s, w, o, now);
      var _ := calls.TransitionCall(c, CallState.Reserved, now);
      var _ := calls.TransitionCall(c, CallState.Initiated, now);
      var _ := agents.TransitionAgent(pair.agent, AgentState.Reserved, AgentState.Dialing, AgentSm.Allocator, pair.agentVersion, now);
      var _ := agents.BindCall(pair.agent, w, c);
    }

    /** What the provider's answer leads to. */
    method Conclude(c: CallId, w: WorkerId, pair: Pair, turn: Turn) returns (dialled: bool)
      requires Wired()
      modifies db
      ensures dialled <==> turn.answer.Accept? && CallRepo.CanAttach(old(db.View()), c, turn.answer.pid)
      ensures dialled ==> db.View() == CallRepo.Attach(old(db.View()), c, turn.answer.pid, turn.at)
      ensures !dialled ==>
                db.View() == RefusedWrites(cfg, old(db.View()), w, OpenDial(pair.agent, pair.borrower, c), turn.at, 3)
    {
      ghost var s := db.View();
      dialled := false;
      if turn.answer.Accept? {
        dialled := calls.AttachProviderCallId(c, turn.answer.pid, turn.at);
      }
      if !dialled {
        assert db.View() == s;
        var _ := calls.TransitionCall(c, CallState.Failed, turn.at);
        reservations.ReleasePair(pair, w, BorrowerRepo.Retry, turn.at);
      }
    }

    /** One iteration: a pair is claimed and dialled, or claimed and given back, or nobody is left. */
    method Attempt(k: CampaignId, provider: Provider, w: WorkerId, turn: Turn)
      returns (outcome: Attempted, ghost a: AgentId, ghost b: BorrowerId, ghost c: CallId)
      requires Wired() && KeysIndexed(db.View())
      modifies db
      ensures Iterated(old(db.View()), db.View(), k, w, turn.at, outcome, a, b, c)
    {
      ghost var s := db.View();
      a, b, c := 0, 0, 0;
      var pair := reservations.ReservePair(k, w, turn.at);
      if pair.None? {
        CompensationKeepsClaimable(s, db.View(), k);
        return Contended, a, b, c;
      }
      var dialled, o := Dial(k, provider, w, pair.value, turn, s);
      IterationBalances(cfg, s, w, o, turn);
      a, b, c := o.agent, o.borrower, DialledCall(s, o);
      outcome := if dialled then Dialled else Attempted.Failed;
    }

    /** The loop of allocate: until the approval is spent, or three claims in a row came back empty. */
    method DialLoop(k: CampaignId, provider: Provider, approved: nat, w: WorkerId, world: World)
      returns (tally: Tally, ghost last: Time, ghost outcomes: seq<Attempted>,
               ghost A: set<AgentId>, ghost B: set<BorrowerId>, ghost C: set<CallId>)
      requires Wired() && KeysIndexed(db.View()) && |world| >= approved
      modifies db
      ensures SoFar(old(db.View()), db.View(), k, w, tally, last, A, B, C)
      ensures tally.result.attempted <= approved
      ensures Tallied(outcomes, tally.result)
      ensures tally.result.attempted < approved ==>
                && IsThirdMiss(outcomes, |outcomes|)
                && tally.consecutive >= 3 && last == world[tally.result.attempted - 1].at
    {
      ghost var s := db.View();
      tally, last, outcomes := NO_TALLY, 0, [];
      A, B, C := {}, {}, {};
      NothingSoFar(s, k, w, last);
      while tally.result.attempted < approved && tally.consecutive < MAX_CONSECUTIVE_CONTENTIONS
        invariant tally.result.attempted <= approved
        invariant tally.consecutive > 0 ==> tally.result.attempted > 0 && last == world[tally.result.attempted - 1].at
        invariant Tallied(outcomes, tally.result) && IsTail(outcomes, tally.consecutive)
        invariant SoFar(s, db.View(), k, w, tally, last, A, B, C)
      {
        ghost var t := db.View();
        var turn := world[tally.result.attempted];
        var outcome, a, b, c := Attempt(k, provider, w, turn);
        IterationSoFar(s, t, db.View(), k, w, tally, last, turn.at, outcome, A, B, C, a, b, c);
        TalliedOneMore(outcomes, tally, outcome);
        A, B, C := Grown(A, outcome, a), Grown(B, outcome, b), Grown(C, outcome, c);
        last, outcomes := turn.at, outcomes + [outcome];
        tally := Count(tally, outcome);
      }
      ThirdMissEndsTail(outcomes, tally.consecutive);
    }

    /** allocate: the counters add up, the approval is never exceeded, exactly the dialled pairs are
        gone from the campaign, and everything else that was claimed was given back. It stops short
        exactly at the third miss in a row, when nobody is left to pair. */
    method Allocate(k: CampaignId, provider: Provider, approved: nat, w: WorkerId, world: World)
      returns (r: AllocationResult, ghost outcomes: seq<Attempted>,
               ghost A: set<AgentId>, ghost B: set<BorrowerId>, ghost C: set<CallId>)
      requires Wired() && KeysIndexed(db.View()) && |world| >= approved
      modifies db
      ensures r.attempted == r.dialled + r.failed + r.contended <= approved
      ensures Tallied(outcomes, r)
      ensures r.attempted < approved ==>
                IsThirdMiss(outcomes, |outcomes|) && NobodyToPair(db.View(), k, world[r.attempted - 1].at)
      ensures Allocation(old(db.View()), db.View(), k, w, A, B, C) && KeysIndexed(db.View())
      ensures |A| == |B| == |C| == r.dialled
      ensures |ClaimableAgents(db.View(), k)| == |ClaimableAgents(old(db.View()), k)| - r.dialled
      ensures |ActiveCalls(db.View())| == |ActiveCalls(old(db.View()))| + r.dialled
      ensures |ReservedBorrowers(db.View())| == |ReservedBorrowers(old(db.View()))| + r.dialled
    {
      ghost var s := db.View();
      var tally;
      ghost var last;
      tally, last, outcomes, A, B, C := DialLoop(k, provider, approved, w, world);
      r := tally.result;
      AllocationBalances(s, db.View(), k, w, A, B, C);
    }
  }

  /** A later attempt that has none left, is not due, or meets a provider that is down. */
  predicate IsGateShut(cfg: Config, callee: Borrower, turn: Turn) {
    callee.attempts >= 1 && (callee.attempts >= cfg.maxAttempts || callee.nextEligibleAt > turn.at || !turn.healthy)
  }

  /** No call has changed, and the borrower is back with as many attempts as before. */
  ghost predicate IsUntouched(s: Store, t: Store, pair: Pair) {
    && t.calls == s.calls && t.byKey == s.byKey
    && pair.borrower in t.borrowers && t.borrowers[pair.borrower].status.Pending?
    && t.borrowers[pair.borrower].attempts == pair.callee.attempts
  }

  ghost predicate IsInitiated(t: Store, c: CallId, dialled: bool) {
    c in t.calls && t.calls[c].state == if dialled then CallState.Initiated else CallState.Failed
  }

  lemma DialReport(cfg: Config, s: Store, t: Store, w: WorkerId, o: Order, turn: Turn, pair: Pair)
    requires CanPair(cfg, s, w, o, turn.at) && pair.callee == ClaimedBorrower(cfg, s, w, o, turn.at) && pair.borrower == o.borrower
    requires t.calls == s.calls && t.byKey == s.byKey
    ensures IsGateShut(cfg, pair.callee, turn) ==>
              !Dials(cfg, s, w, o, turn) && IsUntouched(t, DialResult(cfg, s, w, o, turn), pair)
    ensures !IsGateShut(cfg, pair.callee, turn) && CallIsQueued(s, o) ==>
              IsInitiated(DialResult(cfg, s, w, o, turn), DialledCall(s, o), Dials(cfg, s, w, o, turn))
  {
    DialMeans(cfg, s, w, o, turn);
  }

  /** A claimed pair read as an order of the protocol. */
  lemma ClaimedOrder(cfg: Config, s: Store, t: Store, w: WorkerId, o: Order, pair: Pair)
    requires IsClaimed(cfg, s, t, o.campaign, w, o.later, pair) && o.agent == pair.agent && o.borrower == pair.borrower
    ensures CanPair(cfg, s, w, o, o.later) && t == DialWrites(cfg, s, w, o, o.later, 2)
    ensures pair.callee == ClaimedBorrower(cfg, s, w, o, o.later)
    ensures pair.agentVersion == ClaimedAgent(cfg, s, w, o, o.later).version
    ensures KeyOf(s, o) == Key(o.campaign, o.agent, o.borrower, pair.callee.attempts + 1)
    ensures t.calls == s.calls && t.byKey == s.byKey
  {
    ClaimsInClosedForm(cfg, s, w, o, o.later);
  }

  /** What create_call returns in a dial: the call the order is about, QUEUED if the order may go on. */
  lemma CreatedCall(cfg: Config, s: Store, t: Store, w: WorkerId, o: Order, now: Time)
    requires CanPair(cfg, s, w, o, now) && KeysIndexed(s) && o.id !in s.calls
    requires t == DialWrites(cfg, s, w, o, now, 2) && t.calls == s.calls && t.byKey == s.byKey
    ensures var (u, c) := CallRepo.CreateCall(t, KeyOf(s, o), o.provider, w, o.id, now);
            && c == DialledCall(s, o) && c in u.calls && u == DialWrites(cfg, s, w, o, now, 3)
            && (u.calls[c].state.Queued? <==> CallIsQueued(s, o))
            && (!CallIsQueued(s, o) ==> u == t)
  {
    assert o.later == now;
  }

  /** Undisturbed, both transitions of a QUEUED call succeed and the agent's version is the claim's. */
  lemma InitiationSucceeds(cfg: Config, s: Store, w: WorkerId, o: Order, now: Time)
    requires CanPair(cfg, s, w, o, now) && CallIsQueued(s, o)
    ensures var p4, p5 := DialWrites(cfg, s, w, o, now, 4), DialWrites(cfg, s, w, o, now, 5);
            var c := DialledCall(s, o);
            && TransitionCall(p4, c, CallState.Initiated, now).Some?
            && o.agent in p5.agents && p5.agents[o.agent] == ClaimedAgent(cfg, s, w, o, now)
    ensures var p3 := DialWrites(cfg, s, w, o, now, 3);
            var p4 := SetCall(p3, DialledCall(s, o), TransitionCall(p3, DialledCall(s, o), CallState.Reserved, now));
            var p5 := SetCall(p4, DialledCall(s, o), TransitionCall(p4, DialledCall(s, o), CallState.Initiated, now));
            var p6 := SetAgent(p5, o.agent, TransitionAgent(p5, o.agent, AgentState.Reserved, AgentState.Dialing, AgentSm.Allocator,
                                                            ClaimedAgent(cfg, s, w, o, now).version, now));
            var p7 := SetAgent(p6, o.agent, BindCall(p6, o.agent, w, DialledCall(s, o)));
            p4 == DialWrites(cfg, s, w, o, now, 4) && p7 == DialWrites(cfg, s, w, o, now, 7)
  {
    ClaimsInClosedForm(cfg, s, w, o, now);
    var p2, p3, p4 := DialWrites(cfg, s, w, o, now, 2), DialWrites(cfg, s, w, o, now, 3), DialWrites(cfg, s, w, o, now, 4);
    var p5, p6, p7 := DialWrites(cfg, s, w, o, now, 5), DialWrites(cfg, s, w, o, now, 6), DialWrites(cfg, s, w, o, now, 7);
    var c := DialledCall(s, o);
    assert p3 == CallRepo.CreateCall(p2, KeyOf(s, o), o.provider, w, o.id, now).0;
    assert p3.calls == s.calls[c := QueuedCall(s, w, o, now)];
    assert p4 == SetCall(p3, c, TransitionCall(p3, c, CallState.Reserved, now));
    assert p5 == SetCall(p4, c, TransitionCall(p4, c, CallState.Initiated, now));
    assert p6 == SetAgent(p5, o.agent,
                          TransitionAgent(p5, o.agent, AgentState.Reserved, AgentState.Dialing, AgentSm.Allocator, p5.agents[o.agent].version, now));
    assert p7 == SetAgent(p6, o.agent, BindCall(p6, o.agent, w, c));
  }
}

/**
 * What an allocation does to the store, document by document: which pairs it dialled, and that
 * every other pair it touched was given back.
 */
module AllocatorSpec {
  import opened Wrappers
  import opened Enums
  import opened Documents
  import opened StoreOps
  import opened Queries
  import opened MacroProtocol
  import AgentSm
  import AgentRepo
  import BorrowerRepo
  import CallRepo

  function ActiveCalls(s: Store): set<CallId> {
    set c <- s.calls | CallRepo.IsActive(s.calls[c])
  }

  function ReservedBorrowers(s: Store): set<BorrowerId> {
    set b <- s.borrowers | s.borrowers[b].status.Reserved?
  }

  /** The unique key index points at documents that carry the key. */
  ghost predicate KeysIndexed(s: Store) {
    forall k <- s.byKey :: s.byKey[k] in s.calls && s.calls[s.byKey[k]].key == k
  }

  /** An agent claimed and given back: AVAILABLE, unleased, on no call. */
  ghost predicate AgentGivenBack(x: Agent, y: Agent) {
    x.state.Available? && y.state.Available? && y.campaign == x.campaign && y.lease.None? && y.currentCall.None?
  }

  /** A borrower claimed and given back: unleased, and PENDING or out of attempts. */
  ghost predicate BorrowerGivenBack(x: Borrower, y: Borrower) {
    x.status.Pending? && (y.status.Pending? || y.status.Exhausted?) && y.campaign == x.campaign && y.lease.None?
  }

  /** A call that was never active, and is not now. */
  ghost predicate CallGivenUp(s: Store, c: CallId, y: Call) {
    (c in s.calls ==> s.calls[c].state.Queued? && s.calls[c].key == y.key) && IsTerminal(y.state)
  }

  /** Whatever was touched was given back. */
  ghost predicate Compensated(s: Store, t: Store) {
    && t.agents.Keys == s.agents.Keys && t.borrowers.Keys == s.borrowers.Keys && s.calls.Keys <= t.calls.Keys
    && (forall a <- s.agents :: t.agents[a] == s.agents[a] || AgentGivenBack(s.agents[a], t.agents[a]))
    && (forall b <- s.borrowers :: t.borrowers[b] == s.borrowers[b] || BorrowerGivenBack(s.borrowers[b], t.borrowers[b]))
    && (forall c <- t.calls :: (c in s.calls && t.calls[c] == s.calls[c]) || CallGivenUp(s, c, t.calls[c]))
  }

  /** This agent went from AVAILABLE in the campaign to DIALING one of these calls for w. */
  ghost predicate AgentDials(x: Agent, y: Agent, k: CampaignId, w: WorkerId, t: Store, a: AgentId) {
    && x.state.Available? && x.campaign == k && y.campaign == k
    && y.state.Dialing? && HeldBy(y.lease, w)
    && y.currentCall.Some? && y.currentCall.value in t.calls && t.calls[y.currentCall.value].key.agent == a
  }

  ghost predicate BorrowerDialled(x: Borrower, y: Borrower, k: CampaignId, w: WorkerId) {
    x.status.Pending? && x.campaign == k && y.campaign == k && y.status.Reserved? && HeldBy(y.lease, w)
  }

  /** This call was QUEUED or did not exist, and is now with the provider. */
  ghost predicate CallDialled(s: Store, c: CallId, y: Call) {
    (c in s.calls ==> s.calls[c].state.Queued? && s.calls[c].key == y.key) && y.state.Initiated? && y.providerCallId.Some?
  }

  /** t is s after an allocation by w that dialled the agents A and the borrowers B on the calls C. */
  ghost predicate Allocation(s: Store, t: Store, k: CampaignId, w: WorkerId,
                             A: set<AgentId>, B: set<BorrowerId>, C: set<CallId>) {
    && t.agents.Keys == s.agents.Keys && t.borrowers.Keys == s.borrowers.Keys && s.calls.Keys <= t.calls.Keys
    && A <= s.agents.Keys && B <= s.borrowers.Keys && C <= t.calls.Keys
    && (forall a <- s.agents ::
          if a in A then AgentDials(s.agents[a], t.agents[a], k, w, t, a) && t.agents[a].currentCall.value in C
          else t.agents[a] == s.agents[a] || AgentGivenBack(s.agents[a], t.agents[a]))
    && (forall b <- s.borrowers ::
          if b in B then BorrowerDialled(s.borrowers[b], t.borrowers[b], k, w)
          else t.borrowers[b] == s.borrowers[b] || BorrowerGivenBack(s.borrowers[b], t.borrowers[b]))
    && (forall c <- t.calls ::
          if c in C then CallDialled(s, c, t.calls[c]) && t.calls[c].key.agent in A && t.calls[c].key.borrower in B
          else (c in s.calls && t.calls[c] == s.calls[c]) || CallGivenUp(s, c, t.calls[c]))
  }

  lemma NoAllocationYet(s: Store, k: CampaignId, w: WorkerId)
    ensures Allocation(s, s, k, w, {}, {}, {})
  {
  }

  lemma CompensationKeepsClaimable(s: Store, t: Store, k: CampaignId)
    requires Compensated(s, t)
    ensures ClaimableAgents(t, k) == ClaimableAgents(s, k)
  {
    forall a <- s.agents ensures a in ClaimableAgents(t, k) <==> a in ClaimableAgents(s, k) {
      assert t.agents[a] == s.agents[a] || AgentGivenBack(s.agents[a], t.agents[a]);
    }
  }

  /** An iteration that is compensated leaves the allocation as it was. */
  lemma CompensationKeepsAllocation(s: Store, t: Store, u: Store, k: CampaignId, w: WorkerId,
                                    A: set<AgentId>, B: set<BorrowerId>, C: set<CallId>)
    requires Allocation(s, t, k, w, A, B, C) && Compensated(t, u)
    ensures Allocation(s, u, k, w, A, B, C)
  {
    forall a <- s.agents
      ensures if a in A then AgentDials(s.agents[a], u.agents[a], k, w, u, a) && u.agents[a].currentCall.value in C
              else u.agents[a] == s.agents[a] || AgentGivenBack(s.agents[a], u.agents[a])
    {
      assert u.agents[a] == t.agents[a] || AgentGivenBack(t.agents[a], u.agents[a]);
    }
    forall b <- s.borrowers
      ensures if b in B then BorrowerDialled(s.borrowers[b], u.borrowers[b], k, w)
              else u.borrowers[b] == s.borrowers[b] || BorrowerGivenBack(s.borrowers[b], u.borrowers[b])
    {
      assert u.borrowers[b] == t.borrowers[b] || BorrowerGivenBack(t.borrowers[b], u.borrowers[b]);
    }
    forall c <- u.calls
      ensures if c in C then CallDialled(s, c, u.calls[c]) && u.calls[c].key.agent in A && u.calls[c].key.borrower in B
              else (c in s.calls && u.calls[c] == s.calls[c]) || CallGivenUp(s, c, u.calls[c])
    {
      assert (c in t.calls && u.calls[c] == t.calls[c]) || CallGivenUp(t, c, u.calls[c]);
    }
  }

  /** An iteration that dials adds its pair and its call. */
  lemma DialExtendsAgents(s: Store, t: Store, u: Store, k: CampaignId, w: WorkerId,
                          A: set<AgentId>, B: set<BorrowerId>, C: set<CallId>, a: AgentId, b: BorrowerId, c: CallId, x: AgentId)
    requires Allocation(s, t, k, w, A, B, C) && Allocation(t, u, k, w, {a}, {b}, {c}) && x in s.agents
    ensures x == a ==> x !in A
    ensures if x in A + {a} then AgentDials(s.agents[x], u.agents[x], k, w, u, x) && u.agents[x].currentCall.value in C + {c}
            else u.agents[x] == s.agents[x] || AgentGivenBack(s.agents[x], u.agents[x])
  {
    assert x !in {a} ==> u.agents[x] == t.agents[x] || AgentGivenBack(t.agents[x], u.agents[x]);
    if x in A {
      var d := u.agents[x].currentCall.value;
      assert d in t.calls && d in C;
    }
  }

  lemma DialExtendsBorrowers(s: Store, t: Store, u: Store, k: CampaignId, w: WorkerId,
                             A: set<AgentId>, B: set<BorrowerId>, C: set<CallId>, a: AgentId, b: BorrowerId, c: CallId, x: BorrowerId)
    requires Allocation(s, t, k, w, A, B, C) && Allocation(t, u, k, w, {a}, {b}, {c}) && x in s.borrowers
    ensures x == b ==> x !in B
    ensures if x in B + {b} then BorrowerDialled(s.borrowers[x], u.borrowers[x], k, w)
            else u.borrowers[x] == s.borrowers[x] || BorrowerGivenBack(s.borrowers[x], u.borrowers[x])
  {
    assert x !in {b} ==> u.borrowers[x] == t.borrowers[x] || BorrowerGivenBack(t.borrowers[x], u.borrowers[x]);
  }

  lemma DialExtendsCalls(s: Store, t: Store, u: Store, k: CampaignId, w: WorkerId,
                         A: set<AgentId>, B: set<BorrowerId>, C: set<CallId>, a: AgentId, b: BorrowerId, c: CallId, d: CallId)
    requires Allocation(s, t, k, w, A, B, C) && Allocation(t, u, k, w, {a}, {b}, {c}) && d in u.calls
    ensures d == c ==> d !in C
    ensures if d in C + {c} then CallDialled(s, d, u.calls[d]) && u.calls[d].key.agent in A + {a} && u.calls[d].key.borrower in B + {b}
            else (d in s.calls && u.calls[d] == s.calls[d]) || CallGivenUp(s, d, u.calls[d])
  {
    assert d !in {c} ==> (d in t.calls && u.calls[d] == t.calls[d]) || CallGivenUp(t, d, u.calls[d]);
  }

  lemma DialExtendsAllocation(s: Store, t: Store, u: Store, k: CampaignId, w: WorkerId,
                              A: set<AgentId>, B: set<BorrowerId>, C: set<CallId>, a: AgentId, b: BorrowerId, c: CallId)
    requires Allocation(s, t, k, w, A, B, C) && Allocation(t, u, k, w, {a}, {b}, {c})
    ensures a !in A && b !in B && c !in C
    ensures Allocation(s, u, k, w, A + {a}, B + {b}, C + {c})
  {
    forall x <- s.agents
      ensures x == a ==> x !in A
      ensures if x in A + {a} then AgentDials(s.agents[x], u.agents[x], k, w, u, x) && u.agents[x].currentCall.value in C + {c}
              else u.agents[x] == s.agents[x] || AgentGivenBack(s.agents[x], u.agents[x])
    {
      DialExtendsAgents(s, t, u, k, w, A, B, C, a, b, c, x);
    }
    forall x <- s.borrowers
      ensures x == b ==> x !in B
      ensures if x in B + {b} then BorrowerDialled(s.borrowers[x], u.borrowers[x], k, w)
              else u.borrowers[x] == s.borrowers[x] || BorrowerGivenBack(s.borrowers[x], u.borrowers[x])
    {
      DialExtendsBorrowers(s, t, u, k, w, A, B, C, a, b, c, x);
    }
    forall d <- u.calls
      ensures d == c ==> d !in C
      ensures if d in C + {c} then CallDialled(s, d, u.calls[d]) && u.calls[d].key.agent in A + {a} && u.calls[d].key.borrower in B + {b}
              else (d in s.calls && u.calls[d] == s.calls[d]) || CallGivenUp(s, d, u.calls[d])
    {
      DialExtendsCalls(s, t, u, k, w, A, B, C, a, b, c, d);
    }
  }

  lemma AgentsBalance(s: Store, t: Store, k: CampaignId, w: WorkerId,
                      A: set<AgentId>, B: set<BorrowerId>, C: set<CallId>, other: CampaignId)
    requires Allocation(s, t, k, w, A, B, C)
    ensures A <= ClaimableAgents(s, k)
    ensures ClaimableAgents(t, other) == ClaimableAgents(s, other) - (if other == k then A else {})
  {
    forall a <- s.agents
      ensures a in ClaimableAgents(t, other) <==> a in ClaimableAgents(s, other) && !(other == k && a in A)
    {
      assert a !in A ==> t.agents[a] == s.agents[a] || AgentGivenBack(s.agents[a], t.agents[a]);
    }
  }

  lemma CallsBalance(s: Store, t: Store, k: CampaignId, w: WorkerId,
                     A: set<AgentId>, B: set<BorrowerId>, C: set<CallId>)
    requires Allocation(s, t, k, w, A, B, C)
    ensures C !! ActiveCalls(s) && ActiveCalls(t) == ActiveCalls(s) + C
  {
    forall c <- t.calls ensures c in ActiveCalls(t) <==> c in ActiveCalls(s) || c in C {
      assert c !in C ==> (c in s.calls && t.calls[c] == s.calls[c]) || CallGivenUp(s, c, t.calls[c]);
    }
    forall c <- C ensures c !in ActiveCalls(s) {
      assert CallDialled(s, c, t.calls[c]);
    }
  }

  lemma BorrowersBalance(s: Store, t: Store, k: CampaignId, w: WorkerId,
                         A: set<AgentId>, B: set<BorrowerId>, C: set<CallId>)
    requires Allocation(s, t, k, w, A, B, C)
    ensures B !! ReservedBorrowers(s) && ReservedBorrowers(t) == ReservedBorrowers(s) + B
  {
    forall b <- s.borrowers ensures b in ReservedBorrowers(t) <==> b in ReservedBorrowers(s) || b in B {
      assert b !in B ==> t.borrowers[b] == s.borrowers[b] || BorrowerGivenBack(s.borrowers[b], t.borrowers[b]);
    }
    forall b <- B ensures b !in ReservedBorrowers(s) {
      assert BorrowerDialled(s.borrowers[b], t.borrowers[b], k, w);
    }
  }

  /** The books of an allocation: AVAILABLE agents of the campaign fall by exactly the dialled ones,
      active calls and RESERVED borrowers rise by exactly the dialled ones. */
  lemma AllocationBalances(s: Store, t: Store, k: CampaignId, w: WorkerId,
                           A: set<AgentId>, B: set<BorrowerId>, C: set<CallId>)
    requires Allocation(s, t, k, w, A, B, C)
    ensures |ClaimableAgents(t, k)| == |ClaimableAgents(s, k)| - |A|
    ensures forall other | other != k :: ClaimableAgents(t, other) == ClaimableAgents(s, other)
    ensures |ActiveCalls(t)| == |ActiveCalls(s)| + |C|
    ensures |ReservedBorrowers(t)| == |ReservedBorrowers(s)| + |B|
  {
    AgentsBalance(s, t, k, w, A, B, C, k);
    forall other | other != k ensures ClaimableAgents(t, other) == ClaimableAgents(s, other) {
      AgentsBalance(s, t, k, w, A, B, C, other);
    }
    CallsBalance(s, t, k, w, A, B, C);
    BorrowersBalance(s, t, k, w, A, B, C);
  }

  // One iteration in closed form

  /** Both claims of an order succeed. */
  ghost predicate CanPair(cfg: Config, s: Store, w: WorkerId, o: Order, now: Time) {
    && ReserveAgent(s, o.campaign, o.agent, w, cfg.ttl, now).Some?
    && ReserveBorrower(s, o.campaign, o.borrower, w, cfg.ttl, now).Some?
    && o.later == now
  }

  /** create_call makes a new document or finds one still QUEUED. */
  ghost predicate CallIsQueued(s: Store, o: Order) {
    KeyOf(s, o) in s.byKey ==> DialledCall(s, o) in s.calls && s.calls[DialledCall(s, o)].state.Queued?
  }

  ghost function ClaimedAgent(cfg: Config, s: Store, w: WorkerId, o: Order, now: Time): Agent
    requires CanPair(cfg, s, w, o, now)
  {
    ReserveAgent(s, o.campaign, o.agent, w, cfg.ttl, now).value
  }

  ghost function ClaimedBorrower(cfg: Config, s: Store, w: WorkerId, o: Order, now: Time): Borrower
    requires CanPair(cfg, s, w, o, now)
  {
    ReserveBorrower(s, o.campaign, o.borrower, w, cfg.ttl, now).value
  }

  lemma ClaimsInClosedForm(cfg: Config, s: Store, w: WorkerId, o: Order, now: Time)
    requires CanPair(cfg, s, w, o, now)
    ensures DialWrites(cfg, s, w, o, now, 2)
            == s.(agents := s.agents[o.agent := ClaimedAgent(cfg, s, w, o, now)],
                  borrowers := s.borrowers[o.borrower := ClaimedBorrower(cfg, s, w, o, now)])
  {
    assert DialWrites(cfg, s, w, o, now, 0) == s;
    assert DialWrites(cfg, s, w, o, now, 1) == SetAgent(s, o.agent, ReserveAgent(s, o.campaign, o.agent, w, cfg.ttl, now));
  }

  /** The call document a dial works on, before it moves. */
  ghost function QueuedCall(s: Store, w: WorkerId, o: Order, now: Time): Call
    requires CallIsQueued(s, o)
  {
    if KeyOf(s, o) in s.byKey then s.calls[DialledCall(s, o)] else CallRepo.NewCall(KeyOf(s, o), o.provider, w, now)
  }

  ghost function InitiatedCall(s: Store, w: WorkerId, o: Order, now: Time): Call
    requires CallIsQueued(s, o)
  {
    QueuedCall(s, w, o, now).(state := CallState.Initiated, updatedAt := now)
  }

  ghost function DialingAgent(cfg: Config, s: Store, w: WorkerId, o: Order, now: Time): Agent
    requires CanPair(cfg, s, w, o, now)
  {
    var a := ClaimedAgent(cfg, s, w, o, now);
    a.(state := AgentState.Dialing, stateChangedAt := now, version := a.version + 1,
       ledger := AgentRepo.Account(a.ledger, AgentState.Reserved, a.stateChangedAt, now),
       currentCall := Some(DialledCall(s, o)))
  }

  /** The last two writes of a dial, on the agent the claim left. */
  lemma DialledAgent(cfg: Config, s: Store, p5: Store, w: WorkerId, o: Order, now: Time)
    requires CanPair(cfg, s, w, o, now) && p5.agents == s.agents[o.agent := ClaimedAgent(cfg, s, w, o, now)]
    ensures var p6 := SetAgent(p5, o.agent,
                               TransitionAgent(p5, o.agent, AgentState.Reserved, AgentState.Dialing, AgentSm.Allocator,
                                               p5.agents[o.agent].version, now));
            SetAgent(p6, o.agent, BindCall(p6, o.agent, w, DialledCall(s, o)))
            == p5.(agents := s.agents[o.agent := DialingAgent(cfg, s, w, o, now)])
  {
  }

  /** The call's three writes of a dial. */
  lemma CallWritesInClosedForm(s: Store, p2: Store, w: WorkerId, o: Order, now: Time)
    requires CallIsQueued(s, o) && o.later == now && p2.calls == s.calls && p2.byKey == s.byKey
    ensures var c := DialledCall(s, o);
            var p3 := CallRepo.CreateCall(p2, KeyOf(s, o), o.provider, w, o.id, now).0;
            var p4 := SetCall(p3, c, TransitionCall(p3, c, CallState.Reserved, now));
            SetCall(p4, c, TransitionCall(p4, c, CallState.Initiated, now))
            == p2.(calls := s.calls[c := InitiatedCall(s, w, o, now)], byKey := KeysAfter(s, o))
  {
    var p3 := CallRepo.CreateCall(p2, KeyOf(s, o), o.provider, w, o.id, now).0;
    assert p3 == p2.(calls := s.calls[DialledCall(s, o) := QueuedCall(s, w, o, now)], byKey := KeysAfter(s, o));
  }

  ghost function KeysAfter(s: Store, o: Order): map<Key, CallId> {
    if KeyOf(s, o) in s.byKey then s.byKey else s.byKey[KeyOf(s, o) := o.id]
  }

  /** The store once the call is INITIATED. */
  lemma InitiationInClosedForm(cfg: Config, s: Store, w: WorkerId, o: Order, now: Time)
    requires CanPair(cfg, s, w, o, now) && CallIsQueued(s, o)
    ensures DialWrites(cfg, s, w, o, now, 5)
            == s.(agents := s.agents[o.agent := ClaimedAgent(cfg, s, w, o, now)],
                  borrowers := s.borrowers[o.borrower := ClaimedBorrower(cfg, s, w, o, now)],
                  calls := s.calls[DialledCall(s, o) := InitiatedCall(s, w, o, now)],
                  byKey := KeysAfter(s, o))
  {
    ClaimsInClosedForm(cfg, s, w, o, now);
    var p2, p3, p4 := DialWrites(cfg, s, w, o, now, 2), DialWrites(cfg, s, w, o, now, 3), DialWrites(cfg, s, w, o, now, 4);
    var c := DialledCall(s, o);
    assert p3 == CallRepo.CreateCall(p2, KeyOf(s, o), o.provider, w, o.id, now).0;
    assert p4 == SetCall(p3, c, TransitionCall(p3, c, CallState.Reserved, now));
    CallWritesInClosedForm(s, p2, w, o, now);
  }

  lemma DialInClosedForm(cfg: Config, s: Store, w: WorkerId, o: Order, now: Time)
    requires CanPair(cfg, s, w, o, now) && CallIsQueued(s, o)
    ensures DialWrites(cfg, s, w, o, now, 7)
            == s.(agents := s.agents[o.agent := DialingAgent(cfg, s, w, o, now)],
                  borrowers := s.borrowers[o.borrower := ClaimedBorrower(cfg, s, w, o, now)],
                  calls := s.calls[DialledCall(s, o) := InitiatedCall(s, w, o, now)],
                  byKey := KeysAfter(s, o))
  {
    InitiationInClosedForm(cfg, s, w, o, now);
    var p5, p6 := DialWrites(cfg, s, w, o, now, 5), DialWrites(cfg, s, w, o, now, 6);
    DialledAgent(cfg, s, p5, w, o, now);
    assert p6 == SetAgent(p5, o.agent,
                          TransitionAgent(p5, o.agent, AgentState.Reserved, AgentState.Dialing, AgentSm.Allocator, p5.agents[o.agent].version, now));
  }

  /** release_pair: the agent, then the borrower. */
  ghost function ReleasePair(cfg: Config, s: Store, w: WorkerId, a: AgentId, b: BorrowerId, outcome: BorrowerRepo.Outcome, now: Time): Store {
    var s1 := SetAgent(s, a, ReleaseAgent(s, a, w, AgentState.Available, AgentSm.Allocator, now));
    SetBorrower(s1, b, ReleaseBorrower(s1, b, w, outcome, cfg, now))
  }

  /** The provider's answer, or what the retry gate says before it is asked. */
  datatype Answer = Accept(pid: nat) | Refuse | NoAnswer
  datatype Turn = Turn(healthy: bool, answer: Answer, at: Time)

  /** RetryService.should_retry */
  predicate ShouldRetry(cfg: Config, b: Borrower, turn: Turn) {
    b.attempts < cfg.maxAttempts && b.nextEligibleAt <= turn.at && turn.healthy
  }

  predicate GateIsClosed(cfg: Config, b: Borrower, turn: Turn) {
    b.attempts > 0 && !ShouldRetry(cfg, b, turn)
  }

  /** Whether _dial goes through, for a pair both of whose claims succeeded. */
  ghost predicate Dials(cfg: Config, s: Store, w: WorkerId, o: Order, turn: Turn)
    requires CanPair(cfg, s, w, o, turn.at)
  {
    && !GateIsClosed(cfg, ClaimedBorrower(cfg, s, w, o, turn.at), turn) && CallIsQueued(s, o)
    && turn.answer.Accept? && CallRepo.CanAttach(DialWrites(cfg, s, w, o, turn.at, 7), DialledCall(s, o), turn.answer.pid)
  }

  /** The store _dial leaves, from the store before the pair was claimed. */
  ghost function DialResult(cfg: Config, s: Store, w: WorkerId, o: Order, turn: Turn): Store
    requires CanPair(cfg, s, w, o, turn.at)
  {
    if GateIsClosed(cfg, ClaimedBorrower(cfg, s, w, o, turn.at), turn) || !CallIsQueued(s, o) then
      BackOffWrites(cfg, s, w, o, turn.at, 4)
    else if Dials(cfg, s, w, o, turn) then
      CallRepo.Attach(DialWrites(cfg, s, w, o, turn.at, 7), DialledCall(s, o), turn.answer.pid, turn.at)
    else
      RefusedWrites(cfg, DialWrites(cfg, s, w, o, turn.at, 7), w, OpenDial(o.agent, o.borrower, DialledCall(s, o)), turn.at, 3)
  }

  lemma BackOffCompensates(cfg: Config, s: Store, w: WorkerId, o: Order, now: Time)
    requires CanPair(cfg, s, w, o, now)
    ensures BackOffWrites(cfg, s, w, o, now, 4) == ReleasePair(cfg, DialWrites(cfg, s, w, o, now, 2), w, o.agent, o.borrower, BorrowerRepo.Released, now)
    ensures Compensated(s, BackOffWrites(cfg, s, w, o, now, 4))
    ensures KeysIndexed(s) ==> KeysIndexed(BackOffWrites(cfg, s, w, o, now, 4))
  {
    ClaimsInClosedForm(cfg, s, w, o, now);
  }

  /** Giving back a pair that was dialled: the agent is AVAILABLE, the borrower charged an attempt. */
  lemma GiveBackAfterDial(cfg: Config, s: Store, w: WorkerId, o: Order, now: Time)
    requires CanPair(cfg, s, w, o, now) && CallIsQueued(s, o)
    ensures var a := AgentRepo.Release(DialingAgent(cfg, s, w, o, now), w, AgentState.Available, AgentSm.Allocator, now);
            a.Some? && AgentGivenBack(s.agents[o.agent], a.value)
    ensures var b := BorrowerRepo.Release(ClaimedBorrower(cfg, s, w, o, now), w, BorrowerRepo.Retry, cfg, now);
            b.Some? && BorrowerGivenBack(s.borrowers[o.borrower], b.value)
            && b.value.attempts == s.borrowers[o.borrower].attempts + 1
  {
  }

  lemma RefusalInClosedForm(cfg: Config, s: Store, w: WorkerId, o: Order, now: Time)
    requires CanPair(cfg, s, w, o, now) && CallIsQueued(s, o)
    ensures var t := RefusedWrites(cfg, DialWrites(cfg, s, w, o, now, 7), w, OpenDial(o.agent, o.borrower, DialledCall(s, o)), now, 3);
            && t.agents == s.agents[o.agent := AgentRepo.Release(DialingAgent(cfg, s, w, o, now), w, AgentState.Available, AgentSm.Allocator, now).value]
            && t.borrowers == s.borrowers[o.borrower := BorrowerRepo.Release(ClaimedBorrower(cfg, s, w, o, now), w, BorrowerRepo.Retry, cfg, now).value]
            && t.calls == s.calls[DialledCall(s, o) := InitiatedCall(s, w, o, now).(state := CallState.Failed)]
            && t.byKey == (if KeyOf(s, o) in s.byKey then s.byKey else s.byKey[KeyOf(s, o) := o.id])
  {
    DialInClosedForm(cfg, s, w, o, now);
    GiveBackAfterDial(cfg, s, w, o, now);
  }

  lemma RefusalCompensates(cfg: Config, s: Store, w: WorkerId, o: Order, now: Time)
    requires CanPair(cfg, s, w, o, now) && CallIsQueued(s, o) && o.id !in s.calls && KeysIndexed(s)
    ensures var t := RefusedWrites(cfg, DialWrites(cfg, s, w, o, now, 7), w, OpenDial(o.agent, o.borrower, DialledCall(s, o)), now, 3);
            Compensated(s, t) && KeysIndexed(t)
  {
    RefusalInClosedForm(cfg, s, w, o, now);
    GiveBackAfterDial(cfg, s, w, o, now);
  }

  lemma AcceptanceAllocates(cfg: Config, s: Store, w: WorkerId, o: Order, turn: Turn)
    requires CanPair(cfg, s, w, o, turn.at) && o.id !in s.calls && KeysIndexed(s)
    requires Dials(cfg, s, w, o, turn)
    ensures var t := DialResult(cfg, s, w, o, turn);
            Allocation(s, t, o.campaign, w, {o.agent}, {o.borrower}, {DialledCall(s, o)}) && KeysIndexed(t)
  {
    DialInClosedForm(cfg, s, w, o, turn.at);
  }

  /** An iteration either dials its pair or gives it back. */
  lemma IterationBalances(cfg: Config, s: Store, w: WorkerId, o: Order, turn: Turn)
    requires CanPair(cfg, s, w, o, turn.at) && o.id !in s.calls && KeysIndexed(s)
    ensures var t := DialResult(cfg, s, w, o, turn);
            && KeysIndexed(t)
            && if Dials(cfg, s, w, o, turn)
               then Allocation(s, t, o.campaign, w, {o.agent}, {o.borrower}, {DialledCall(s, o)})
               else Compensated(s, t)
  {
    if GateIsClosed(cfg, ClaimedBorrower(cfg, s, w, o, turn.at), turn) || !CallIsQueued(s, o) {
      BackOffCompensates(cfg, s, w, o, turn.at);
    } else if Dials(cfg, s, w, o, turn) {
      AcceptanceAllocates(cfg, s, w, o, turn);
    } else {
      RefusalCompensates(cfg, s, w, o, turn.at);
    }
  }

  /** The retry gate, on the claimed document and the turn: a first attempt always passes, a later one only
      with attempts left, when due, and while the provider may be retried. */
  lemma GateMeans(cfg: Config, b: Borrower, turn: Turn)
    ensures GateIsClosed(cfg, b, turn) <==>
            b.attempts >= 1 && (b.attempts >= cfg.maxAttempts || b.nextEligibleAt > turn.at || !turn.healthy)
  {
  }

  /** The provider reference a dial would attach: of the older call, or of the order's own provider. */
  ghost function RefToAttach(s: Store, o: Order, pid: nat): Ref
    requires CallIsQueued(s, o)
  {
    Ref(if KeyOf(s, o) in s.byKey then s.calls[DialledCall(s, o)].provider else o.provider, pid)
  }

  /** What _dial comes to. With the gate closed, or on a call that is no longer QUEUED, nothing happens to
      any call and the pair is given back uncharged. Otherwise the call is INITIATED, and stays so exactly
      when the provider accepts it under an identifier it can keep; else it is FAILED. */
  lemma DialMeans(cfg: Config, s: Store, w: WorkerId, o: Order, turn: Turn)
    requires CanPair(cfg, s, w, o, turn.at)
    ensures var b := ClaimedBorrower(cfg, s, w, o, turn.at);
            var t := DialResult(cfg, s, w, o, turn);
            var closed := b.attempts >= 1 && (b.attempts >= cfg.maxAttempts || b.nextEligibleAt > turn.at || !turn.healthy);
            && o.borrower in t.borrowers && o.agent in t.agents
            && (closed || !CallIsQueued(s, o) ==>
                  && !Dials(cfg, s, w, o, turn) && t.calls == s.calls && t.byKey == s.byKey && t.byRef == s.byRef
                  && t.borrowers[o.borrower].status.Pending? && t.borrowers[o.borrower].attempts == b.attempts
                  && t.agents[o.agent].state.Available?)
            && (!closed && CallIsQueued(s, o) ==>
                  && (Dials(cfg, s, w, o, turn) <==>
                        turn.answer.Accept? && RefToAttach(s, o, turn.answer.pid) !in s.byRef
                        && (KeyOf(s, o) in s.byKey ==> s.calls[DialledCall(s, o)].providerCallId.None?))
                  && DialledCall(s, o) in t.calls && KeyOf(s, o) in t.byKey && t.byKey[KeyOf(s, o)] == DialledCall(s, o)
                  && t.calls[DialledCall(s, o)].state == if Dials(cfg, s, w, o, turn) then CallState.Initiated else CallState.Failed)
  {
    GateMeans(cfg, ClaimedBorrower(cfg, s, w, o, turn.at), turn);
    if GateIsClosed(cfg, ClaimedBorrower(cfg, s, w, o, turn.at), turn) || !CallIsQueued(s, o) {
      GivenBackUncharged(cfg, s, w, o, turn.at);
    } else {
      DialInClosedForm(cfg, s, w, o, turn.at);
      RefusalInClosedForm(cfg, s, w, o, turn.at);
    }
  }

  lemma GivenBackUncharged(cfg: Config, s: Store, w: WorkerId, o: Order, now: Time)
    requires CanPair(cfg, s, w, o, now)
    ensures var b, t := ClaimedBorrower(cfg, s, w, o, now), BackOffWrites(cfg, s, w, o, now, 4);
            && t.calls == s.calls && t.byKey == s.byKey && t.byRef == s.byRef
            && o.borrower in t.borrowers && t.borrowers[o.borrower].status.Pending? && t.borrowers[o.borrower].attempts == b.attempts
            && o.agent in t.agents && t.agents[o.agent].state.Available?
  {
    ClaimsInClosedForm(cfg, s, w, o, now);
    BackOffCompensates(cfg, s, w, o, now);
    BorrowerRepo.ReleaseByOutcome(ClaimedBorrower(cfg, s, w, o, now), w, BorrowerRepo.Released, cfg, now);
  }
}

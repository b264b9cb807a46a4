/**
 * The two granularities meet: the fine steps of one actor, with nobody else in between, come to
 * exactly the store writes the macro protocol takes as one step.
 */
module FineUndisturbed {
  import opened Wrappers
  import opened Enums
  import opened Documents
  import opened StoreOps
  import opened FineProtocol
  import opened ProviderEvents
  import AllocatorSpec
  import AgentSm
  import BorrowerRepo
  import CallRepo
  import EventWrites
  import MacroProtocol
  import Queries
  import RecoveryItems

  // Events

  /** n operations of process_event in a row. */
  ghost function EventSteps(cfg: Config, w: World, pc: EventPc, n: nat): (Store, EventPc)
    decreases n
  {
    if n == 0 then (w.store, pc)
    else
      var (s, next) := EventStep(cfg, w, pc);
      EventSteps(cfg, w.(store := s), next, n - 1)
  }

  lemma {:induction false} IdleEventStays(cfg: Config, w: World, n: nat)
    ensures EventSteps(cfg, w, Listening, n) == (w.store, Listening)
    decreases n
  {
    if n > 0 {
      assert w.(store := w.store) == w;
      IdleEventStays(cfg, w, n - 1);
    }
  }

  /** The operations after the call has moved. */
  lemma PartySteps(cfg: Config, w: World, call: Call, target: CallState)
    requires Rank(target) >= 3
    ensures EventSteps(cfg, w, Applied(call, target), 3)
            == (EventWrites.BorrowerWrite(cfg, EventWrites.AgentWrite(w.store, call, target, w.clock), call, target, w.clock), Listening)
  {
    var s3 := EventWrites.AgentWrite(w.store, call, target, w.clock);
    var (s1, pc1) := EventStep(cfg, w, Applied(call, target));
    assert s1 == w.store && w.(store := s1) == w;
    if pc1.AgentRead? {
      var (s2, pc2) := EventStep(cfg, w, pc1);
      assert s2 == s3;
      LastPartyStep(cfg, w.(store := s3), pc2, call, target);
      assert EventSteps(cfg, w, pc1, 2) == EventSteps(cfg, w.(store := s3), pc2, 1);
    } else {
      assert s3 == w.store && w.(store := s3) == w;
      LastPartyStep(cfg, w, pc1, call, target);
      var (s2, pc2) := EventStep(cfg, w, pc1);
      assert EventSteps(cfg, w, pc1, 2) == EventSteps(cfg, w.(store := s2), pc2, 1);
    }
  }

  lemma LastPartyStep(cfg: Config, w: World, pc: EventPc, call: Call, target: CallState)
    requires pc == if IsReleasing(target) then ReleasingBorrower(call, target) else Listening
    ensures EventStep(cfg, w, pc) == (EventWrites.BorrowerWrite(cfg, w.store, call, target, w.clock), Listening)
    ensures EventSteps(cfg, w, pc, 1) == EventStep(cfg, w, pc)
  {
  }

  /** An event handled without interference is process_event as one step. */
  lemma UndisturbedEvent(cfg: Config, w: World, e: Event)
    requires e.id !in w.store.events
    ensures EventSteps(cfg, w.(store := EventWrites.RecordEvent(w.store, e)), Recorded(e), 5)
            == (EventWrites.Process(cfg, w.store, e, w.clock), Listening)
  {
    var w1 := w.(store := EventWrites.RecordEvent(w.store, e));
    var c := EventWrites.Applicable(w1.store, e);
    assert w1.(store := w1.store) == w1;
    if c.None? {
      assert EventStep(cfg, w1, Recorded(e)) == (w1.store, Listening);
      IdleEventStays(cfg, w1, 4);
    } else {
      var target := TargetOf(e.kind).value;
      var r := TransitionCall(w1.store, c.value, target, w.clock);
      assert EventStep(cfg, w1, Recorded(e)) == (w1.store, Decided(c.value, target));
      var w2 := w1.(store := SetCall(w1.store, c.value, r));
      assert EventStep(cfg, w1, Decided(c.value, target)) == (w2.store, Applied(r.value, target));
      PartySteps(cfg, w2, r.value, target);
      assert EventSteps(cfg, w1, Decided(c.value, target), 4) == EventSteps(cfg, w2, Applied(r.value, target), 3);
    }
  }

  // Recovery items

  ghost function SweepSteps(cfg: Config, w: World, pc: SweepPc, n: nat): (Store, SweepPc)
    decreases n
  {
    if n == 0 then (w.store, pc)
    else
      var (s, next) := SweepStep(cfg, w, pc);
      SweepSteps(cfg, w.(store := s), next, n - 1)
  }

  /** Cancelling the call of a found agent, and giving its borrower back. */
  lemma UndisturbedCancel(cfg: Config, w: World, kind: ItemKind, a: AgentId, seen: Agent, now: Time)
    ensures var m := RecoveryItems.CancelBoundCall(cfg, w.store, seen, w.clock, 2);
            var (s, next) := SweepStep(cfg, w, Found(kind, a, seen, now));
            if next.Freeing? then s == m && next == Freeing(kind, a, seen, now)
            else SweepStep(cfg, w.(store := s), next) == (m, Freeing(kind, a, seen, now))
  {
  }

  /** A found agent handled without interference is a recovery item as one step. */
  lemma UndisturbedAgentItem(cfg: Config, w: World, kind: ItemKind, a: AgentId, seen: Agent, now: Time)
    requires kind.LeaseItem? || kind.HeartbeatItem?
    ensures var item := if kind.LeaseItem? then RecoveryItems.LeaseItem(cfg, w.store, a, seen, now, w.clock, 3)
                        else RecoveryItems.HeartbeatItem(cfg, w.store, a, seen, w.clock, 3);
            SweepSteps(cfg, w, Found(kind, a, seen, now), 3) == (item, Resting)
  {
    var m := RecoveryItems.CancelBoundCall(cfg, w.store, seen, w.clock, 2);
    var (s, next) := SweepStep(cfg, w, Found(kind, a, seen, now));
    var free := Freeing(kind, a, seen, now);
    UndisturbedCancel(cfg, w, kind, a, seen, now);
    FreeingStep(cfg, w, kind, a, seen, now, m);
    if next.Freeing? {
      var (s2, rest) := SweepStep(cfg, w.(store := m), free);
      assert SweepStep(cfg, w.(store := s2), Resting) == (s2, Resting);
      assert SweepSteps(cfg, w.(store := m), free, 2) == SweepSteps(cfg, w.(store := s2), Resting, 1);
    } else {
      assert SweepSteps(cfg, w.(store := s), next, 2) == SweepSteps(cfg, w.(store := m), free, 1);
    }
  }

  lemma FreeingStep(cfg: Config, w: World, kind: ItemKind, a: AgentId, seen: Agent, now: Time, m: Store)
    requires kind.LeaseItem? || kind.HeartbeatItem?
    requires m == RecoveryItems.CancelBoundCall(cfg, w.store, seen, w.clock, 2)
    ensures var item := if kind.LeaseItem? then RecoveryItems.LeaseItem(cfg, w.store, a, seen, now, w.clock, 3)
                        else RecoveryItems.HeartbeatItem(cfg, w.store, a, seen, w.clock, 3);
            SweepStep(cfg, w.(store := m), Freeing(kind, a, seen, now)) == (item, Resting)
  {
    assert m == RecoveryItems.CancelBoundCall(cfg, w.store, seen, w.clock, 3);
  }

  /** And so is a stale call. */
  lemma UndisturbedOrphanItem(cfg: Config, w: World, c: CallId, target: CallState)
    ensures SweepSteps(cfg, w, Reconciled(c, target), 3)
            == (RecoveryItems.OrphanItem(cfg, w.store, c, target, w.clock, 3), Resting)
  {
    var r := TransitionCall(w.store, c, target, w.clock);
    if r.None? {
      assert SweepStep(cfg, w, Reconciled(c, target)) == (w.store, Resting);
      assert w.(store := w.store) == w;
      assert SweepStep(cfg, w, Resting) == (w.store, Resting);
      assert SweepSteps(cfg, w, Resting, 2) == SweepSteps(cfg, w, Resting, 1);
    } else {
      var w1 := w.(store := SetCall(w.store, c, r));
      var (s2, next) := SweepStep(cfg, w1, FreeingParties(r.value));
      var w2 := w.(store := s2);
      assert SweepSteps(cfg, w1, FreeingParties(r.value), 2) == SweepSteps(cfg, w2, FreeingBorrower(r.value), 1);
      assert SweepSteps(cfg, w2, FreeingBorrower(r.value), 1) == SweepStep(cfg, w2, FreeingBorrower(r.value));
    }
  }

  // Dials

  ghost function DialSteps(cfg: Config, w: World, id: WorkerId, pc: WorkerPc, n: nat): (World, WorkerPc)
    decreases n
  {
    if n == 0 || !pc.Dial? || pc.stage.Waiting? then (w, pc)
    else
      var (v, next) := DialStep(cfg, w, id, pc);
      DialSteps(cfg, v, id, next, n - 1)
  }

  /** From create_call to the bind without interference: the writes of a macro dial. */
  lemma UndisturbedDial(cfg: Config, w: World, id: WorkerId, rest: nat, pair: Pair, o: MacroProtocol.Order, s: Store)
    requires AllocatorSpec.CanPair(cfg, s, id, o, w.clock) && AllocatorSpec.CallIsQueued(s, o)
    requires pair == Pair(o.agent, AllocatorSpec.ClaimedAgent(cfg, s, id, o, w.clock).version, o.borrower,
                          AllocatorSpec.ClaimedBorrower(cfg, s, id, o, w.clock).attempts + 1)
    requires w.store == MacroProtocol.DialWrites(cfg, s, id, o, w.clock, 3)
    ensures DialSteps(cfg, w, id, Dial(Created, o.campaign, rest, pair, MacroProtocol.DialledCall(s, o)), 4)
            == (w.(store := MacroProtocol.DialWrites(cfg, s, id, o, w.clock, 7)),
                Dial(Bound, o.campaign, rest, pair, MacroProtocol.DialledCall(s, o)))
  {
    var c := MacroProtocol.DialledCall(s, o);
    var p4 := MacroProtocol.DialWrites(cfg, s, id, o, w.clock, 4);
    var p5 := MacroProtocol.DialWrites(cfg, s, id, o, w.clock, 5);
    var p6 := MacroProtocol.DialWrites(cfg, s, id, o, w.clock, 6);
    var p7 := MacroProtocol.DialWrites(cfg, s, id, o, w.clock, 7);
    var pc := Dial(Created, o.campaign, rest, pair, c);
    CallSteps(cfg, w, id, rest, pair, o, s);
    AgentSteps(cfg, w, id, rest, pair, o, s);
    var w5 := w.(store := p5);
    assert DialSteps(cfg, w.(store := p6), id, pc.(stage := AgentMoved), 1) == (w.(store := p7), pc.(stage := Bound));
    assert DialSteps(cfg, w5, id, pc.(stage := Stage.Initiated), 2) == (w.(store := p7), pc.(stage := Bound));
    assert DialSteps(cfg, w.(store := p4), id, pc.(stage := Marked), 3) == (w.(store := p7), pc.(stage := Bound));
  }

  // Claims and what gives them back

  /** reserve_pair and create_call without interference. */
  lemma UndisturbedClaims(cfg: Config, caps: Caps, w: World, id: WorkerId, left: nat, o: MacroProtocol.Order)
    requires AllocatorSpec.CanPair(cfg, w.store, id, o, w.clock) && o.id !in w.store.calls && left > 0
    requires AllocatorSpec.KeysIndexed(w.store)
    ensures var s, t := w.store, w.clock;
            var v := AllocatorSpec.ClaimedAgent(cfg, s, id, o, t).version;
            var pair := Pair(o.agent, v, o.borrower, AllocatorSpec.ClaimedBorrower(cfg, s, id, o, t).attempts + 1);
            var w1 := w.(store := MacroProtocol.DialWrites(cfg, s, id, o, t, 1));
            var w2 := w.(store := MacroProtocol.DialWrites(cfg, s, id, o, t, 2));
            var w3 := w.(store := MacroProtocol.DialWrites(cfg, s, id, o, t, 3));
            var ready, has, both := Ready(o.campaign, left), HasAgent(o.campaign, left - 1, o.agent, v), HasPair(o.campaign, left - 1, pair);
            && ClaimStep(cfg, caps, w, Worker(id, ready), ClaimAgent(o.agent)) == Some((w1, has))
            && ClaimStep(cfg, caps, w1, Worker(id, has), ClaimBorrower(o.borrower)) == Some((w2, both))
            && ClaimStep(cfg, caps, w2, Worker(id, both), Create(o.id, o.provider))
               == Some((w3, if AllocatorSpec.CallIsQueued(s, o) then Dial(Created, o.campaign, left - 1, pair, MacroProtocol.DialledCall(s, o))
                            else Drop(o.campaign, left - 1, pair, BorrowerRepo.Released, false)))
  {
    var s, t := w.store, w.clock;
    var p1, p2 := MacroProtocol.DialWrites(cfg, s, id, o, t, 1), MacroProtocol.DialWrites(cfg, s, id, o, t, 2);
    assert MacroProtocol.DialWrites(cfg, s, id, o, t, 0) == s;
    assert p1 == SetAgent(s, o.agent, ReserveAgent(s, o.campaign, o.agent, id, cfg.ttl, t));
    assert p2 == SetBorrower(p1, o.borrower, ReserveBorrower(p1, o.campaign, o.borrower, id, cfg.ttl, o.later));
    assert MacroProtocol.DialWrites(cfg, s, id, o, t, 3)
           == CallRepo.CreateCall(p2, MacroProtocol.KeyOf(s, o), o.provider, id, o.id, o.later).0;
  }

  /** Giving a pair back, with any outcome. */
  lemma UndisturbedDrop(cfg: Config, w: World, id: WorkerId, k: CampaignId, rest: nat, pair: Pair, outcome: BorrowerRepo.Outcome)
    ensures var s1 := SetAgent(w.store, pair.agent, ReleaseAgent(w.store, pair.agent, id, AgentState.Available, AgentSm.Allocator, w.clock));
            var drop := Drop(k, rest, pair, outcome, false);
            && DropStep(cfg, w, id, drop) == (w.(store := s1), drop.(agentDone := true))
            && DropStep(cfg, w.(store := s1), id, drop.(agentDone := true))
               == (w.(store := SetBorrower(s1, pair.borrower, ReleaseBorrower(s1, pair.borrower, id, outcome, cfg, w.clock))), Ready(k, rest))
  {
  }

  /** Where a dial turns back before the provider is asked, the attempt is not counted: at the gate of a
      later attempt, and where somebody else has ended the call. An agent without a borrower is freed. */
  lemma UndisturbedRetreat(cfg: Config, caps: Caps, w: World, id: WorkerId, k: CampaignId, rest: nat, pair: Pair, c: CallId)
    ensures var back := Drop(k, rest, pair, BorrowerRepo.Released, false);
            && ClaimStep(cfg, caps, w, Worker(id, HasPair(k, rest, pair)), CloseGate)
               == (if pair.attempt > 1 then Some((w, back)) else None)
            && (c !in w.store.calls || IsTerminal(w.store.calls[c].state) ==>
                  DialStep(cfg, w, id, Dial(Marked, k, rest, pair, c)) == (w, back))
    ensures ClaimStep(cfg, caps, w, Worker(id, Ready(k, 0)), ClaimAgent(pair.agent)).None?
    ensures var a := pair.agent;
            a in w.store.agents && w.store.agents[a].state.Reserved? && HeldBy(w.store.agents[a].lease, id) ==>
              var (v, next) := DropStep(cfg, w, id, DropAgent(k, rest, a));
              && next == Ready(k, rest)
              && v == w.(store := w.store.(agents := v.store.agents)) && v.store.agents.Keys == w.store.agents.Keys
              && v.store.agents[a].state.Available? && v.store.agents[a].lease.None?
              && forall x :: x in w.store.agents && x != a ==> v.store.agents[x] == w.store.agents[x]
  {
  }

  /** A refused dial: the call fails, and the pair goes back with an attempt counted. */
  lemma UndisturbedRefusal(cfg: Config, w: World, id: WorkerId, k: CampaignId, rest: nat, pair: Pair, c: CallId)
    ensures var d := MacroProtocol.OpenDial(pair.agent, pair.borrower, c);
            var (w1, drop) := DialStep(cfg, w, id, Dial(Failing, k, rest, pair, c));
            && drop == Drop(k, rest, pair, BorrowerRepo.Retry, false)
            && w1 == w.(store := MacroProtocol.RefusedWrites(cfg, w.store, id, d, w.clock, 1))
            && DropStep(cfg, w1, id, drop) == (w.(store := MacroProtocol.RefusedWrites(cfg, w.store, id, d, w.clock, 2)), drop.(agentDone := true))
            && DropStep(cfg, w.(store := MacroProtocol.RefusedWrites(cfg, w.store, id, d, w.clock, 2)), id, drop.(agentDone := true))
               == (w.(store := MacroProtocol.RefusedWrites(cfg, w.store, id, d, w.clock, 3)), Ready(k, rest))
  {
    var s := w.store;
    var d := MacroProtocol.OpenDial(pair.agent, pair.borrower, c);
    var s1 := SetCall(s, c, TransitionCall(s, c, CallState.Failed, w.clock));
    assert MacroProtocol.RefusedWrites(cfg, s, id, d, w.clock, 1) == s1;
    UndisturbedDrop(cfg, w.(store := s1), id, k, rest, pair, BorrowerRepo.Retry);
  }

  /** A cancelled dial, wherever it is, gives its pair back as the macro compensation does, and the loop ends. */
  lemma UndisturbedCancellation(cfg: Config, w: World, id: WorkerId, pc: WorkerPc)
    requires InDial(pc)
    ensures var a, b := pc.pair.agent, pc.pair.borrower;
            var w1 := w.(store := MacroProtocol.GiveBack(cfg, w.store, id, a, b, w.clock, 1));
            var w2 := w.(store := MacroProtocol.GiveBack(cfg, w.store, id, a, b, w.clock, 2));
            var drop := Compensating(pc);
            && DropStep(cfg, w, id, drop) == (w1, drop.(agentDone := true))
            && DropStep(cfg, w1, id, drop.(agentDone := true)) == (w2, Ready(pc.campaign, 0))
  {
  }

  /** A macro dial that meets nobody starts exactly where both claims succeed and the call is QUEUED. */
  lemma UndisturbedStart(cfg: Config, m: MacroProtocol.Macro, id: WorkerId, o: MacroProtocol.Order)
    requires o.later == m.clock && id in m.live && id !in m.waiting && o.id !in m.store.calls
    ensures MacroProtocol.CanDial(cfg, m, id, o)
            <==> AllocatorSpec.CanPair(cfg, m.store, id, o, m.clock) && AllocatorSpec.CallIsQueued(m.store, o)
  {
  }

  /** An accepted one: the identifier is attached and the loop goes on, or the dial fails. */
  lemma UndisturbedAcceptance(cfg: Config, w: World, id: WorkerId, k: CampaignId, rest: nat, pair: Pair, c: CallId, pid: nat)
    ensures DialStep(cfg, w, id, Dial(Accepted(pid), k, rest, pair, c))
            == if CallRepo.CanAttach(w.store, c, pid) then (w.(store := CallRepo.Attach(w.store, c, pid, w.clock)), Ready(k, rest))
               else (w, Dial(Failing, k, rest, pair, c))
  {
  }

  /** The last write of a wrap-up item, the same by its timer, and a reclaim. */
  lemma UndisturbedOthers(cfg: Config, caps: Caps, w: World, a: AgentId, seen: Agent, b: BorrowerId, found: Borrower, now: Time)
    ensures SweepStep(cfg, w, Freeing(WrapUpItem, a, seen, now))
            == (RecoveryItems.WrapUpItem(w.store, a, seen, AgentSm.Recovery, w.clock), Resting)
    ensures Next(cfg, caps, w, ByTimer(a, seen.version))
            == Some(w.(store := RecoveryItems.WrapUpItem(w.store, a, seen, AgentSm.WorkerTimer, w.clock)))
    ensures SweepStep(cfg, w, Reclaiming(b, found, now)) == (SetBorrower(w.store, b, ReclaimBorrower(w.store, b, found, now)), Resting)
  {
  }

  /** What a sweep may find, now or earlier in its pass: exactly what the finds of the store return. */
  lemma FindsAreQueries(w: World, kind: ItemKind, a: AgentId, b: BorrowerId, c: CallId, target: CallState, now: Time)
    requires now <= w.clock
    ensures FindStep(w, FindAgent(kind, a, now)).Some? <==>
            a in (if kind.LeaseItem? then Queries.LeaseExpiredAgents(w.store, now)
                  else if kind.HeartbeatItem? then Queries.HeartbeatExpiredAgents(w.store, now)
                  else Queries.WrapUpExpiredAgents(w.store, now))
    ensures FindStep(w, FindBorrower(b, now)).Some? <==> b in Queries.LeaseExpiredBorrowers(w.store, now)
    ensures FindStep(w, FindCall(c, CallState.Failed, now)).Some? <==> c in Queries.StaleCalls(w.store, now)
    ensures FindStep(w, FindCall(c, CallState.Completed, now)).Some? <==>
            c in Queries.StaleCalls(w.store, now) && w.store.calls[c].providerCallId.Some?
  {
  }

  lemma AgentSteps(cfg: Config, w: World, id: WorkerId, rest: nat, pair: Pair, o: MacroProtocol.Order, s: Store)
    requires AllocatorSpec.CanPair(cfg, s, id, o, w.clock) && AllocatorSpec.CallIsQueued(s, o)
    requires pair.agent == o.agent && pair.version == AllocatorSpec.ClaimedAgent(cfg, s, id, o, w.clock).version
    ensures var pc := Dial(Stage.Initiated, o.campaign, rest, pair, MacroProtocol.DialledCall(s, o));
            var w5 := w.(store := MacroProtocol.DialWrites(cfg, s, id, o, w.clock, 5));
            var w6 := w.(store := MacroProtocol.DialWrites(cfg, s, id, o, w.clock, 6));
            var w7 := w.(store := MacroProtocol.DialWrites(cfg, s, id, o, w.clock, 7));
            && DialStep(cfg, w5, id, pc) == (w6, pc.(stage := AgentMoved))
            && DialStep(cfg, w6, id, pc.(stage := AgentMoved)) == (w7, pc.(stage := Bound))
  {
    AllocatorSpec.InitiationInClosedForm(cfg, s, id, o, w.clock);
    var p5 := MacroProtocol.DialWrites(cfg, s, id, o, w.clock, 5);
    var p6 := MacroProtocol.DialWrites(cfg, s, id, o, w.clock, 6);
    assert p5.agents[o.agent].version == pair.version;
    assert p6 == SetAgent(p5, o.agent, TransitionAgent(p5, o.agent, AgentState.Reserved, AgentState.Dialing, AgentSm.Allocator, pair.version, w.clock));
    assert MacroProtocol.DialWrites(cfg, s, id, o, w.clock, 7) == SetAgent(p6, o.agent, BindCall(p6, o.agent, id, MacroProtocol.DialledCall(s, o)));
  }

  lemma CallSteps(cfg: Config, w: World, id: WorkerId, rest: nat, pair: Pair, o: MacroProtocol.Order, s: Store)
    requires AllocatorSpec.CanPair(cfg, s, id, o, w.clock) && AllocatorSpec.CallIsQueued(s, o)
    requires w.store == MacroProtocol.DialWrites(cfg, s, id, o, w.clock, 3)
    ensures var pc := Dial(Created, o.campaign, rest, pair, MacroProtocol.DialledCall(s, o));
            var p4 := MacroProtocol.DialWrites(cfg, s, id, o, w.clock, 4);
            var p5 := MacroProtocol.DialWrites(cfg, s, id, o, w.clock, 5);
            && DialStep(cfg, w, id, pc) == (w.(store := p4), pc.(stage := Marked))
            && DialStep(cfg, w.(store := p4), id, pc.(stage := Marked)) == (w.(store := p5), pc.(stage := Stage.Initiated))
  {
    AllocatorSpec.ClaimsInClosedForm(cfg, s, id, o, w.clock);
    var c := MacroProtocol.DialledCall(s, o);
    var p2, p3, p4 := MacroProtocol.DialWrites(cfg, s, id, o, w.clock, 2), w.store, MacroProtocol.DialWrites(cfg, s, id, o, w.clock, 4);
    assert p3 == CallRepo.CreateCall(p2, MacroProtocol.KeyOf(s, o), o.provider, id, o.id, w.clock).0;
    assert p4 == SetCall(p3, c, TransitionCall(p3, c, CallState.Reserved, w.clock));
    assert TransitionCall(p4, c, CallState.Initiated, w.clock).Some?;
  }
}

/** What a list of provider events does to the two parties of a call: its borrower and its agent. */
module EventParties {
  import opened Wrappers
  import opened Enums
  import opened Documents
  import opened ProviderEvents
  import opened EventWrites
  import opened EventLists
  import BorrowerRepo
  import CallSm

  /** An event about the call itself, about a finished call, or about other people's call. */
  ghost predicate Apart(s: Store, r: Ref, c: CallId, e: Event)
    requires c in s.calls
  {
    e.call == r || e.call !in s.byRef || s.byRef[e.call] !in s.calls
    || var other := s.calls[s.byRef[e.call]];
       IsTerminal(other.state) || (other.key.borrower != s.calls[c].key.borrower && other.key.agent != s.calls[c].key.agent)
  }

  ghost predicate AllApart(s: Store, r: Ref, c: CallId, ds: seq<Delivery>)
    requires c in s.calls
  {
    forall d <- ds :: Apart(s, r, c, d.event)
  }

  /** One event of a list, seen from the parties of call c. */
  lemma ProcessOnParties(cfg: Config, s: Store, r: Ref, c: CallId, e: Event, now: Time)
    requires IsRefOf(s, r, c) && Apart(s, r, c, e)
    requires s.calls[c].key.borrower in s.borrowers && s.calls[c].key.agent in s.agents
    ensures var t := Process(cfg, s, e, now);
            && t.borrowers.Keys == s.borrowers.Keys && t.agents.Keys == s.agents.Keys
            && (!(IsHeard(s.events, r, e) && CallSm.ShouldApplyEvent(s.calls[c].state, TargetOf(e.kind).value).Apply?) ==>
                  && t.borrowers[s.calls[c].key.borrower] == s.borrowers[s.calls[c].key.borrower]
                  && t.agents[s.calls[c].key.agent] == s.agents[s.calls[c].key.agent])
  {
    ProcessShape(cfg, s, e, now);
    if e.id !in s.events && Applicable(s, e).Some? {
      var target := TargetOf(e.kind).value;
      var call := MovedCall(s, e, now);
      var s2 := RecordEvent(s, e).(calls := s.calls[Applicable(s, e).value := call]);
      AgentWriteIsLocal(s2, call, target, now);
      BorrowerWriteIsLocal(cfg, AgentWrite(s2, call, target, now), call, target, now);
    }
  }

  /** An event that moves c: the two party writes, side by side. */
  lemma MovingEventOnParties(cfg: Config, s: Store, r: Ref, c: CallId, e: Event, now: Time)
    requires IsRefOf(s, r, c) && IsHeard(s.events, r, e)
    requires s.calls[c].key.borrower in s.borrowers && s.calls[c].key.agent in s.agents
    requires CallSm.ShouldApplyEvent(s.calls[c].state, TargetOf(e.kind).value).Apply?
    ensures var t := Process(cfg, s, e, now);
            var call := s.calls[c];
            var target := TargetOf(e.kind).value;
            && t.borrowers == (if IsReleasing(target)
                               then Put(s.borrowers, call.key.borrower,
                                        BorrowerRepo.Release(s.borrowers[call.key.borrower], call.createdBy,
                                                             BorrowerRepo.OutcomeFor(target.Completed? && call.answeredAt.Some?), cfg, now))
                               else s.borrowers)
            && t.agents == AgentWrite(s, call, target, now).agents
  {
    ProcessShape(cfg, s, e, now);
    assert Applicable(s, e) == Some(c);
    var target := TargetOf(e.kind).value;
    var call := MovedCall(s, e, now);
    var s2 := RecordEvent(s, e).(calls := s.calls[c := call]);
    AgentWriteIsLocal(s2, call, target, now);
  }

  /** Finished calls stay as they are, so what is apart stays apart. */
  lemma ApartStays(cfg: Config, s: Store, r: Ref, c: CallId, e: Event, now: Time, ds: seq<Delivery>)
    requires IsRefOf(s, r, c) && AllApart(s, r, c, ds)
    ensures IsRefOf(Process(cfg, s, e, now), r, c) && AllApart(Process(cfg, s, e, now), r, c, ds)
  {
    ProcessIsHear(cfg, s, r, c, e, now);
    ProcessShape(cfg, s, e, now);
    var t := Process(cfg, s, e, now);
    if e.id !in s.events && Applicable(s, e).Some? {
      var target := TargetOf(e.kind).value;
      var call := MovedCall(s, e, now);
      var s2 := RecordEvent(s, e).(calls := s.calls[Applicable(s, e).value := call]);
      AgentWriteIsLocal(s2, call, target, now);
      BorrowerWriteIsLocal(cfg, AgentWrite(s2, call, target, now), call, target, now);
    }
    assert forall x <- s.calls :: IsTerminal(s.calls[x].state) ==> t.calls[x] == s.calls[x];
    forall d <- ds ensures Apart(t, r, c, d.event) {
      assert Apart(s, r, c, d.event);
    }
  }

  // The outcome for the borrower

  datatype Ruling = Ruling(outcome: BorrowerRepo.Outcome, at: Time)

  /** The outcome chosen when a call in progress p first hears a terminal state. */
  ghost function Ruled(p: Progress, ns: seq<Note>): Option<Ruling>
    decreases |ns|
  {
    if ns == [] then None
    else if IsTerminal(ns[0].target) then
      Some(Ruling(BorrowerRepo.OutcomeFor(ns[0].target.Completed? && p.answered), ns[0].at))
    else Ruled(Hear(p, ns[0].target), ns[1..])
  }

  /** An ANSWERED that precedes every CONNECTED and every terminal state. */
  ghost predicate AnsweredInTime(ns: seq<Note>) {
    exists j | 0 <= j < |ns| ::
      ns[j].target.Answered? && forall k | 0 <= k < j :: !ns[k].target.Connected? && !IsTerminal(ns[k].target)
  }

  lemma AnsweredInTimeStep(ns: seq<Note>)
    requires ns != []
    ensures AnsweredInTime(ns) <==>
            ns[0].target.Answered?
            || (!ns[0].target.Connected? && !IsTerminal(ns[0].target) && AnsweredInTime(ns[1..]))
  {
    var rest := ns[1..];
    if AnsweredInTime(ns) && !ns[0].target.Answered? {
      var j :| 0 <= j < |ns| && ns[j].target.Answered?
               && forall k | 0 <= k < j :: !ns[k].target.Connected? && !IsTerminal(ns[k].target);
      assert rest[j - 1].target.Answered?;
      forall k | 0 <= k < j - 1 ensures !rest[k].target.Connected? && !IsTerminal(rest[k].target) {
        assert rest[k] == ns[k + 1];
      }
    }
    if !ns[0].target.Connected? && !IsTerminal(ns[0].target) && AnsweredInTime(rest) {
      var j :| 0 <= j < |rest| && rest[j].target.Answered?
               && forall k | 0 <= k < j :: !rest[k].target.Connected? && !IsTerminal(rest[k].target);
      assert ns[j + 1].target.Answered?;
      forall k | 0 <= k < j + 1 ensures !ns[k].target.Connected? && !IsTerminal(ns[k].target) {
        assert k > 0 ==> ns[k] == rest[k - 1];
      }
    }
  }

  lemma {:induction false} RulingOf(p: Progress, ns: seq<Note>)
    requires !IsTerminal(p.state) && Rank(p.state) >= 2 && FromEvents(ns)
    ensures var i := FirstTerminal(ns);
            Ruled(p, ns)
            == if i == |ns| then None
               else Some(Ruling(if ns[i].target.Completed? && (p.answered || (Rank(p.state) < 4 && AnsweredInTime(ns)))
                                then BorrowerRepo.Outcome.Contacted else BorrowerRepo.Outcome.Retry,
                                ns[i].at))
    decreases |ns|
  {
    if ns != [] {
      AnsweredInTimeStep(ns);
      HearByRank(p, ns[0].target);
      if !IsTerminal(ns[0].target) {
        RulingOf(Hear(p, ns[0].target), ns[1..]);
      }
    }
  }

  /** CONTACTED exactly when COMPLETED is the first terminal state an initiated call hears and an
      ANSWERED preceded every CONNECTED and every terminal one; RETRY for every other terminal. */
  lemma ContactedExactlyWhen(cfg: Config, s: Store, r: Ref, c: CallId, ds: seq<Delivery>)
    requires IsRefOf(s, r, c) && s.calls[c].state.Initiated? && s.calls[c].answeredAt.None?
    ensures var ns := Heard(s.events, r, ds);
            var i := FirstTerminal(ns);
            var ruling := Ruled(ProgressOf(s.calls[c]), ns);
            && (ruling.Some? <==> i < |ns|)
            && (ruling.Some? ==>
                  && ruling.value.at == ns[i].at
                  && (ruling.value.outcome.Contacted? <==> ns[i].target.Completed? && AnsweredInTime(ns))
                  && (ruling.value.outcome.Retry? <==> !(ns[i].target.Completed? && AnsweredInTime(ns))))
  {
    HeardComesFromEvents(s.events, r, ds);
    RulingOf(ProgressOf(s.calls[c]), Heard(s.events, r, ds));
  }

  ghost predicate HasParties(s: Store, c: CallId) {
    c in s.calls && s.calls[c].key.borrower in s.borrowers && s.calls[c].key.agent in s.agents
  }

  lemma {:induction false} FinishedCallKeepsParties(cfg: Config, s: Store, r: Ref, c: CallId, ds: seq<Delivery>)
    requires IsRefOf(s, r, c) && HasParties(s, c) && AllApart(s, r, c, ds) && IsTerminal(s.calls[c].state)
    ensures var t := ProcessAll(cfg, s, ds);
            && t.borrowers.Keys == s.borrowers.Keys && t.agents.Keys == s.agents.Keys
            && t.borrowers[s.calls[c].key.borrower] == s.borrowers[s.calls[c].key.borrower]
            && t.agents[s.calls[c].key.agent] == s.agents[s.calls[c].key.agent]
    decreases |ds|
  {
    if ds != [] {
      ProcessOnParties(cfg, s, r, c, ds[0].event, ds[0].at);
      ProcessIsHear(cfg, s, r, c, ds[0].event, ds[0].at);
      ApartStays(cfg, s, r, c, ds[0].event, ds[0].at, ds[1..]);
      FinishedCallKeepsParties(cfg, Process(cfg, s, ds[0].event, ds[0].at), r, c, ds[1..]);
    }
  }

  /** The borrower document after a ruling: one release with the chosen outcome, or nothing. */
  ghost function AfterRuling(cfg: Config, b: Borrower, w: WorkerId, ruling: Option<Ruling>): Borrower {
    if ruling.None? then b
    else
      var r := BorrowerRepo.Release(b, w, ruling.value.outcome, cfg, ruling.value.at);
      if r.Some? then r.value else b
  }

  /** Whatever list of events arrives, the borrower of an initiated call is released at most once,
      by the outcome and at the time of the first terminal event, and is untouched otherwise. */
  lemma {:induction false} BorrowerFollowsRuling(cfg: Config, s: Store, r: Ref, c: CallId, ds: seq<Delivery>)
    requires IsRefOf(s, r, c) && HasParties(s, c) && AllApart(s, r, c, ds)
    requires !IsTerminal(s.calls[c].state) && Rank(s.calls[c].state) >= 2
    ensures var t := ProcessAll(cfg, s, ds);
            var b := s.calls[c].key.borrower;
            b in t.borrowers
            && t.borrowers[b] == AfterRuling(cfg, s.borrowers[b], s.calls[c].createdBy, Ruled(ProgressOf(s.calls[c]), Heard(s.events, r, ds)))
    decreases |ds|
  {
    if ds != [] {
      var e, at := ds[0].event, ds[0].at;
      var t := Process(cfg, s, e, at);
      var rest := Heard(s.events + {e.id}, r, ds[1..]);
      ProcessOnParties(cfg, s, r, c, e, at);
      ProcessIsHear(cfg, s, r, c, e, at);
      ApartStays(cfg, s, r, c, e, at, ds[1..]);
      if IsHeard(s.events, r, e) {
        var note := Note(TargetOf(e.kind).value, at);
        assert ([note] + rest)[1..] == rest;
        HearByRank(ProgressOf(s.calls[c]), note.target);
        if Rank(s.calls[c].state) < Rank(note.target) {
          CallSm.TableIsRankAboveInitiated(s.calls[c].state, note.target);
          MovingEventOnParties(cfg, s, r, c, e, at);
        }
      }
      if IsTerminal(t.calls[c].state) {
        FinishedCallKeepsParties(cfg, t, r, c, ds[1..]);
      } else {
        BorrowerFollowsRuling(cfg, t, r, c, ds[1..]);
      }
    }
  }

  /** Where a RESERVED borrower of an initiated call ends, whatever list of events arrives: CONTACTED for
      good exactly when COMPLETED is the first terminal state and somebody had answered in time; after any
      other terminal state he has one attempt fewer and waits, or is EXHAUSTED; without one nothing happens. */
  lemma BorrowerEndsWhere(cfg: Config, s: Store, r: Ref, c: CallId, ds: seq<Delivery>)
    requires IsRefOf(s, r, c) && HasParties(s, c) && AllApart(s, r, c, ds)
    requires s.calls[c].state.Initiated? && s.calls[c].answeredAt.None?
    requires var b := s.borrowers[s.calls[c].key.borrower];
             b.status.Reserved? && b.lease.Some? && b.lease.value.worker == s.calls[c].createdBy
    ensures s.calls[c].key.borrower in ProcessAll(cfg, s, ds).borrowers
    ensures var b := s.borrowers[s.calls[c].key.borrower];
            var x := ProcessAll(cfg, s, ds).borrowers[s.calls[c].key.borrower];
            var ns := Heard(s.events, r, ds);
            var i := FirstTerminal(ns);
            && (x.status.Contacted? <==> i < |ns| && ns[i].target.Completed? && AnsweredInTime(ns))
            && (x.status.Reserved? <==> i == |ns|) && (i == |ns| ==> x == b)
            && (i < |ns| ==>
                  && x.lease.None? && x.version == b.version + 1
                  && x.attempts == b.attempts + 1 && x.lastAttemptAt == Some(ns[i].at))
            && (x.status.Contacted? ==> x.nextEligibleAt == b.nextEligibleAt)
            && (i < |ns| && !x.status.Contacted? ==>
                  && (x.status.Exhausted? <==> b.attempts + 1 >= cfg.maxAttempts)
                  && (x.status.Pending? <==> b.attempts + 1 < cfg.maxAttempts)
                  && x.nextEligibleAt == ns[i].at + cfg.backoffBase * BorrowerRepo.Power(b.attempts))
  {
    var b, w := s.borrowers[s.calls[c].key.borrower], s.calls[c].createdBy;
    var ruling := Ruled(ProgressOf(s.calls[c]), Heard(s.events, r, ds));
    BorrowerFollowsRuling(cfg, s, r, c, ds);
    ContactedExactlyWhen(cfg, s, r, c, ds);
    if ruling.Some? {
      BorrowerRepo.ReleaseByOutcome(b, w, ruling.value.outcome, cfg, ruling.value.at);
    }
  }

  // The agent

  /** Where the agent of a call in a live state stands. */
  ghost function StateOnCall(s: CallState): AgentState {
    if Rank(s) < 4 then AgentState.Dialing else AgentState.Connected
  }

  ghost predicate Accompanies(a: Agent, c: Call) {
    a.state == StateOnCall(c.state) && HeldBy(a.lease, c.createdBy)
  }

  /** Where the agent of a call in progress p stands after the notes. */
  ghost function AgentAfter(p: Progress, ns: seq<Note>): AgentState
    decreases |ns|
  {
    if ns == [] then StateOnCall(p.state)
    else if ns[0].target.Failed? || ns[0].target.Cancelled? then AgentState.Available
    else if ns[0].target.Completed? then
      if StateOnCall(p.state).Connected? then AgentState.WrapUp else AgentState.Dialing
    else AgentAfter(Hear(p, ns[0].target), ns[1..])
  }

  /** Somebody picked up before the call ended. */
  ghost predicate PickedUp(ns: seq<Note>) {
    exists j | 0 <= j < |ns| :: IsPickedUpAt(ns, j)
  }

  ghost predicate IsPickedUpAt(ns: seq<Note>, j: nat)
    requires j < |ns|
  {
    Rank(ns[j].target) >= 4 && forall k | 0 <= k <= j :: !IsTerminal(ns[k].target)
  }

  lemma PickedUpLater(ns: seq<Note>, j: nat)
    requires j + 1 < |ns|
    ensures IsPickedUpAt(ns, j + 1) <==> !IsTerminal(ns[0].target) && IsPickedUpAt(ns[1..], j)
  {
    var rest := ns[1..];
    if IsPickedUpAt(ns, j + 1) {
      forall k | 0 <= k <= j ensures !IsTerminal(rest[k].target) {
        assert !IsTerminal(ns[k + 1].target);
      }
    }
    if !IsTerminal(ns[0].target) && IsPickedUpAt(rest, j) {
      forall k | 0 <= k <= j + 1 ensures !IsTerminal(ns[k].target) {
        assert k > 0 ==> !IsTerminal(rest[k - 1].target);
      }
    }
  }

  lemma PickedUpStep(ns: seq<Note>)
    requires ns != []
    ensures PickedUp(ns) <==> !IsTerminal(ns[0].target) && (Rank(ns[0].target) >= 4 || PickedUp(ns[1..]))
  {
    assert IsPickedUpAt(ns, 0) <==> !IsTerminal(ns[0].target) && Rank(ns[0].target) >= 4;
    forall j: nat | j + 1 < |ns| ensures IsPickedUpAt(ns, j + 1) <==> !IsTerminal(ns[0].target) && IsPickedUpAt(ns[1..], j) {
      PickedUpLater(ns, j);
    }
    if PickedUp(ns) {
      var j :| 0 <= j < |ns| && IsPickedUpAt(ns, j);
      assert j > 0 ==> IsPickedUpAt(ns[1..], j - 1);
    }
    if !IsTerminal(ns[0].target) && PickedUp(ns[1..]) {
      var j :| 0 <= j < |ns| - 1 && IsPickedUpAt(ns[1..], j);
      assert IsPickedUpAt(ns, j + 1);
    }
  }

  lemma {:induction false} AgentAfterNotes(p: Progress, ns: seq<Note>)
    requires !IsTerminal(p.state) && Rank(p.state) >= 2 && FromEvents(ns)
    ensures var i := FirstTerminal(ns);
            var up := Rank(p.state) >= 4 || PickedUp(ns);
            AgentAfter(p, ns)
            == if i == |ns| then (if up then AgentState.Connected else AgentState.Dialing)
               else if !ns[i].target.Completed? then AgentState.Available
               else if up then AgentState.WrapUp else AgentState.Dialing
    decreases |ns|
  {
    if ns != [] {
      PickedUpStep(ns);
      HearByRank(p, ns[0].target);
      if !IsTerminal(ns[0].target) {
        AgentAfterNotes(Hear(p, ns[0].target), ns[1..]);
      }
    }
  }

  /** One applied event, seen from the agent that accompanies the call. */
  lemma MovingEventOnAgent(s: Store, c: CallId, target: CallState, at: Time)
    requires HasParties(s, c) && Accompanies(s.agents[s.calls[c].key.agent], s.calls[c])
    requires !IsTerminal(s.calls[c].state) && 2 <= Rank(s.calls[c].state) < Rank(target) && Rank(target) >= 3
    ensures var a := AgentWrite(s, s.calls[c], target, at).agents[s.calls[c].key.agent];
            && a.state == (if target.Failed? || target.Cancelled? then AgentState.Available
                           else if !target.Completed? then StateOnCall(target)
                           else if StateOnCall(s.calls[c].state).Connected? then AgentState.WrapUp else AgentState.Dialing)
            && (HeldBy(a.lease, s.calls[c].createdBy) <==> a.state.Dialing? || a.state.Connected?)
  {
  }

  /** The agent that accompanies an initiated call ends AVAILABLE after FAILED or CANCELLED, in
      WRAP_UP after a COMPLETED that somebody picked up before, and with its lease gone. A COMPLETED
      straight from ringing moves nobody: the agent stays DIALING with its lease, for a sweep to find. */
  lemma {:induction false} AgentFollowsCall(cfg: Config, s: Store, r: Ref, c: CallId, ds: seq<Delivery>)
    requires IsRefOf(s, r, c) && HasParties(s, c) && AllApart(s, r, c, ds)
    requires !IsTerminal(s.calls[c].state) && Rank(s.calls[c].state) >= 2
    requires Accompanies(s.agents[s.calls[c].key.agent], s.calls[c])
    ensures var t := ProcessAll(cfg, s, ds);
            var a := s.calls[c].key.agent;
            && a in t.agents
            && t.agents[a].state == AgentAfter(ProgressOf(s.calls[c]), Heard(s.events, r, ds))
            && (HeldBy(t.agents[a].lease, s.calls[c].createdBy) <==> t.agents[a].state.Dialing? || t.agents[a].state.Connected?)
    decreases |ds|
  {
    if ds != [] {
      var e, at := ds[0].event, ds[0].at;
      var t := Process(cfg, s, e, at);
      var rest := Heard(s.events + {e.id}, r, ds[1..]);
      ProcessOnParties(cfg, s, r, c, e, at);
      ProcessIsHear(cfg, s, r, c, e, at);
      ApartStays(cfg, s, r, c, e, at, ds[1..]);
      if IsHeard(s.events, r, e) {
        var note := Note(TargetOf(e.kind).value, at);
        assert ([note] + rest)[1..] == rest;
        HearByRank(ProgressOf(s.calls[c]), note.target);
        if Rank(s.calls[c].state) < Rank(note.target) {
          CallSm.TableIsRankAboveInitiated(s.calls[c].state, note.target);
          MovingEventOnParties(cfg, s, r, c, e, at);
          MovingEventOnAgent(s, c, note.target, at);
        }
      }
      if IsTerminal(t.calls[c].state) {
        FinishedCallKeepsParties(cfg, t, r, c, ds[1..]);
      } else {
        AgentFollowsCall(cfg, t, r, c, ds[1..]);
      }
    }
  }

  lemma AgentEndsWhere(cfg: Config, s: Store, r: Ref, c: CallId, ds: seq<Delivery>)
    requires IsRefOf(s, r, c) && HasParties(s, c) && AllApart(s, r, c, ds) && s.calls[c].state.Initiated?
    requires Accompanies(s.agents[s.calls[c].key.agent], s.calls[c])
    ensures s.calls[c].key.agent in ProcessAll(cfg, s, ds).agents
    ensures var a := ProcessAll(cfg, s, ds).agents[s.calls[c].key.agent];
            var ns := Heard(s.events, r, ds);
            var i := FirstTerminal(ns);
            && a.state == (if i == |ns| then (if PickedUp(ns) then AgentState.Connected else AgentState.Dialing)
                           else if !ns[i].target.Completed? then AgentState.Available
                           else if PickedUp(ns) then AgentState.WrapUp else AgentState.Dialing)
            && (HeldBy(a.lease, s.calls[c].createdBy) <==> a.state.Dialing? || a.state.Connected?)
  {
    HeardComesFromEvents(s.events, r, ds);
    AgentFollowsCall(cfg, s, r, c, ds);
    AgentAfterNotes(ProgressOf(s.calls[c]), Heard(s.events, r, ds));
  }
}

/**
 * Whole lists of provider events: in any order, with any duplicates, about any calls. One call is
 * followed through the list as a pair of its state and whether it was ever ANSWERED, driven by the
 * new events about it only.
 */
module EventLists {
  import opened Wrappers
  import opened Enums
  import opened Documents
  import opened StoreOps
  import opened ProviderEvents
  import opened EventWrites
  import CallSm

  datatype Delivery = Delivery(event: Event, at: Time)

  ghost function ProcessAll(cfg: Config, s: Store, ds: seq<Delivery>): Store
    decreases |ds|
  {
    if ds == [] then s else ProcessAll(cfg, Process(cfg, s, ds[0].event, ds[0].at), ds[1..])
  }

  ghost function EventIds(ds: seq<Delivery>): set<Ref> {
    if ds == [] then {} else {ds[0].event.id} + EventIds(ds[1..])
  }

  /** What a call hears: the target states of the new events about it, each with its time. */
  datatype Note = Note(target: CallState, at: Time)

  predicate IsHeard(seen: set<Ref>, r: Ref, e: Event) {
    e.id !in seen && e.call == r && TargetOf(e.kind).Some?
  }

  ghost function Heard(seen: set<Ref>, r: Ref, ds: seq<Delivery>): seq<Note>
    decreases |ds|
  {
    if ds == [] then []
    else
      var d := ds[0];
      var rest := Heard(seen + {d.event.id}, r, ds[1..]);
      if IsHeard(seen, r, d.event) then [Note(TargetOf(d.event.kind).value, d.at)] + rest else rest
  }

  /** An event is heard when it is new, about the call, and of a type that stands for a state; every state
      from RINGING on has its type, and the note carries that state. */
  lemma HeardExactly(seen: set<Ref>, r: Ref, e: Event, at: Time)
    ensures Heard(seen, r, [Delivery(e, at)])
            == if e.id !in seen && e.call == r && e.kind.Known? && e.kind.state !in {CallState.Queued, CallState.Reserved, CallState.Initiated}
               then [Note(e.kind.state, at)] else []
  {
    assert [Delivery(e, at)][1..] == [];
    assert Heard(seen + {e.id}, r, []) == [];
  }

  /** A call seen from outside the store. */
  datatype Progress = Progress(state: CallState, answered: bool)

  ghost function ProgressOf(c: Call): Progress {
    Progress(c.state, c.answeredAt.Some?)
  }

  ghost function Hear(p: Progress, target: CallState): Progress {
    if CallSm.ShouldApplyEvent(p.state, target).Apply? then Progress(target, p.answered || target.Answered?) else p
  }

  ghost function HearAll(p: Progress, ns: seq<Note>): Progress
    decreases |ns|
  {
    if ns == [] then p else HearAll(Hear(p, ns[0].target), ns[1..])
  }

  /** r is the one provider reference of call c. */
  ghost predicate IsRefOf(s: Store, r: Ref, c: CallId) {
    && c in s.calls && r in s.byRef
    && forall x <- s.byRef :: s.byRef[x] == c <==> x == r
  }

  /** What processing any event leaves alone. */
  ghost predicate SameIndexes(s: Store, t: Store) {
    && t.byRef == s.byRef && t.byKey == s.byKey && t.calls.Keys == s.calls.Keys
    && forall c <- s.calls :: t.calls[c].key == s.calls[c].key && t.calls[c].createdBy == s.calls[c].createdBy
  }

  lemma AgentWriteIsLocal(s: Store, call: Call, target: CallState, now: Time)
    ensures var t := AgentWrite(s, call, target, now);
            t == s.(agents := t.agents) && t.agents.Keys == s.agents.Keys
    ensures forall a <- s.agents :: a != call.key.agent ==> AgentWrite(s, call, target, now).agents[a] == s.agents[a]
  {
  }

  lemma BorrowerWriteIsLocal(cfg: Config, s: Store, call: Call, target: CallState, now: Time)
    ensures var t := BorrowerWrite(cfg, s, call, target, now);
            t == s.(borrowers := t.borrowers) && t.borrowers.Keys == s.borrowers.Keys
    ensures forall b <- s.borrowers :: b != call.key.borrower ==> BorrowerWrite(cfg, s, call, target, now).borrowers[b] == s.borrowers[b]
  {
  }

  /** process_event unfolded once: the call that moves, if any, and the two writes that follow it. */
  lemma ProcessShape(cfg: Config, s: Store, e: Event, now: Time)
    ensures e.id in s.events ==> Process(cfg, s, e, now) == s
    ensures e.id !in s.events && Applicable(s, e).None? ==> Process(cfg, s, e, now) == RecordEvent(s, e)
    ensures e.id !in s.events && Applicable(s, e).Some? ==>
              && TransitionCall(s, Applicable(s, e).value, TargetOf(e.kind).value, now).Some?
              && Process(cfg, s, e, now) == Applied(cfg, s, e, now)
  {
    assert Applicable(RecordEvent(s, e), e) == Applicable(s, e);
  }

  ghost function MovedCall(s: Store, e: Event, now: Time): Call
    requires Applicable(s, e).Some?
  {
    s.calls[Applicable(s, e).value].(state := TargetOf(e.kind).value, updatedAt := now,
      answeredAt := if TargetOf(e.kind).value.Answered? then Some(now) else s.calls[Applicable(s, e).value].answeredAt)
  }

  /** The store after an event that applies. */
  ghost function Applied(cfg: Config, s: Store, e: Event, now: Time): Store
    requires Applicable(s, e).Some?
  {
    var target := TargetOf(e.kind).value;
    var call := MovedCall(s, e, now);
    var s2 := RecordEvent(s, e).(calls := s.calls[Applicable(s, e).value := call]);
    BorrowerWrite(cfg, AgentWrite(s2, call, target, now), call, target, now)
  }

  /** One event, seen from call c: it records its id, touches no index, and moves c as Hear says
      when it is a new event about c, not at all otherwise. */
  lemma ProcessIsHear(cfg: Config, s: Store, r: Ref, c: CallId, e: Event, now: Time)
    requires IsRefOf(s, r, c)
    ensures var t := Process(cfg, s, e, now);
            && SameIndexes(s, t) && IsRefOf(t, r, c) && t.events == s.events + {e.id}
            && ProgressOf(t.calls[c])
               == if IsHeard(s.events, r, e) then Hear(ProgressOf(s.calls[c]), TargetOf(e.kind).value) else ProgressOf(s.calls[c])
  {
    ProcessShape(cfg, s, e, now);
    if e.id !in s.events && Applicable(s, e).Some? {
      var target := TargetOf(e.kind).value;
      var call := MovedCall(s, e, now);
      var s2 := RecordEvent(s, e).(calls := s.calls[Applicable(s, e).value := call]);
      AgentWriteIsLocal(s2, call, target, now);
      BorrowerWriteIsLocal(cfg, AgentWrite(s2, call, target, now), call, target, now);
    }
  }

  /** A call ends up where the new events about it, in the order they came, take it: duplicates,
      events about other calls and events of unknown type make no difference. */
  lemma {:induction false} CallFollowsHeard(cfg: Config, s: Store, r: Ref, c: CallId, ds: seq<Delivery>)
    requires IsRefOf(s, r, c)
    ensures var t := ProcessAll(cfg, s, ds);
            && IsRefOf(t, r, c) && t.events == s.events + EventIds(ds)
            && ProgressOf(t.calls[c]) == HearAll(ProgressOf(s.calls[c]), Heard(s.events, r, ds))
    decreases |ds|
  {
    if ds != [] {
      var e, at := ds[0].event, ds[0].at;
      ProcessIsHear(cfg, s, r, c, e, at);
      var s1 := Process(cfg, s, e, at);
      CallFollowsHeard(cfg, s1, r, c, ds[1..]);
      if IsHeard(s.events, r, e) {
        var note := Note(TargetOf(e.kind).value, at);
        var rest := Heard(s.events + {e.id}, r, ds[1..]);
        assert ([note] + rest)[1..] == rest;
      }
    }
  }

  // What a list of notes amounts to

  ghost function FirstTerminal(ns: seq<Note>): (i: nat)
    ensures i <= |ns|
    ensures i < |ns| ==> IsTerminal(ns[i].target)
    ensures forall j | 0 <= j < i :: !IsTerminal(ns[j].target)
  {
    if ns == [] then 0 else if IsTerminal(ns[0].target) then 0 else 1 + FirstTerminal(ns[1..])
  }

  /** Notes only carry states events stand for. */
  ghost predicate FromEvents(ns: seq<Note>) {
    forall n <- ns :: Rank(n.target) >= 3
  }

  lemma {:induction false} HeardComesFromEvents(seen: set<Ref>, r: Ref, ds: seq<Delivery>)
    ensures FromEvents(Heard(seen, r, ds))
    decreases |ds|
  {
    if ds != [] {
      HeardComesFromEvents(seen + {ds[0].event.id}, r, ds[1..]);
    }
  }

  lemma {:induction false} TerminalIsDeaf(p: Progress, ns: seq<Note>)
    requires IsTerminal(p.state)
    ensures HearAll(p, ns) == p
  {
    if ns != [] {
      TerminalIsDeaf(p, ns[1..]);
    }
  }

  /** Above QUEUED and RESERVED the table refuses nothing the ranks allow. */
  lemma HearByRank(p: Progress, target: CallState)
    requires !IsTerminal(p.state) && Rank(p.state) >= 2
    ensures Hear(p, target) == if Rank(p.state) < Rank(target) then Progress(target, p.answered || target.Answered?) else p
  {
    CallSm.TableIsRankAboveInitiated(p.state, target);
  }

  /** An initiated call ends in the first terminal state it hears, whatever came before or after. */
  lemma {:induction false} FirstTerminalWins(p: Progress, ns: seq<Note>)
    requires !IsTerminal(p.state) && Rank(p.state) >= 2
    requires FirstTerminal(ns) < |ns|
    ensures HearAll(p, ns).state == ns[FirstTerminal(ns)].target
    decreases |ns|
  {
    HearByRank(p, ns[0].target);
    if IsTerminal(ns[0].target) {
      TerminalIsDeaf(Hear(p, ns[0].target), ns[1..]);
    } else {
      FirstTerminalWins(Hear(p, ns[0].target), ns[1..]);
    }
  }

  /** With no terminal state among the notes, it ends in the highest state heard, or where it was. */
  lemma {:induction false} HighestWins(p: Progress, ns: seq<Note>)
    requires !IsTerminal(p.state) && Rank(p.state) >= 2
    requires FirstTerminal(ns) == |ns|
    ensures var last := HearAll(p, ns).state;
            && (last == p.state || exists n <- ns :: n.target == last)
            && !IsTerminal(last) && Rank(last) >= Rank(p.state) && forall n <- ns :: Rank(n.target) <= Rank(last)
    decreases |ns|
  {
    if ns != [] {
      HearByRank(p, ns[0].target);
      var next := Hear(p, ns[0].target);
      HighestWins(next, ns[1..]);
      var last := HearAll(next, ns[1..]).state;
      forall n <- ns ensures Rank(n.target) <= Rank(last) {
        if n != ns[0] {
          assert n in ns[1..];
        }
      }
      if last != p.state && last != next.state {
        var n :| n in ns[1..] && n.target == last;
        assert n in ns;
      } else if last != p.state {
        assert ns[0] in ns;
      }
    }
  }

  /** For any finite list of events, duplicated and in any order, applied to an initiated call: its
      final state is the first terminal one among the new events about it, or else the highest. */
  lemma FinalState(cfg: Config, s: Store, r: Ref, c: CallId, ds: seq<Delivery>)
    requires IsRefOf(s, r, c) && s.calls[c].state.Initiated?
    ensures c in ProcessAll(cfg, s, ds).calls
    ensures var ns := Heard(s.events, r, ds);
            var i := FirstTerminal(ns);
            var last := ProcessAll(cfg, s, ds).calls[c].state;
            if i < |ns| then last == ns[i].target
            else
              && (last.Initiated? || exists n <- ns :: n.target == last)
              && !IsTerminal(last) && forall n <- ns :: Rank(n.target) <= Rank(last)
  {
    var ns := Heard(s.events, r, ds);
    CallFollowsHeard(cfg, s, r, c, ds);
    if FirstTerminal(ns) < |ns| {
      FirstTerminalWins(ProgressOf(s.calls[c]), ns);
    } else {
      HighestWins(ProgressOf(s.calls[c]), ns);
    }
  }

  // Replays

  lemma {:induction false} EventIdsOf(ds: seq<Delivery>, i: nat)
    requires i < |ds|
    ensures ds[i].event.id in EventIds(ds)
  {
    if i > 0 {
      EventIdsOf(ds[1..], i - 1);
    }
  }

  lemma ProcessRecords(cfg: Config, s: Store, e: Event, now: Time)
    ensures Process(cfg, s, e, now).events == s.events + {e.id}
  {
    ProcessShape(cfg, s, e, now);
    if e.id !in s.events && Applicable(s, e).Some? {
      var target := TargetOf(e.kind).value;
      var call := MovedCall(s, e, now);
      var s2 := RecordEvent(s, e).(calls := s.calls[Applicable(s, e).value := call]);
      AgentWriteIsLocal(s2, call, target, now);
      BorrowerWriteIsLocal(cfg, AgentWrite(s2, call, target, now), call, target, now);
    }
  }

  lemma {:induction false} AllRecord(cfg: Config, s: Store, ds: seq<Delivery>)
    ensures ProcessAll(cfg, s, ds).events == s.events + EventIds(ds)
    decreases |ds|
  {
    if ds != [] {
      ProcessRecords(cfg, s, ds[0].event, ds[0].at);
      AllRecord(cfg, Process(cfg, s, ds[0].event, ds[0].at), ds[1..]);
    }
  }

  lemma {:induction false} RecordedEventsAreInert(cfg: Config, s: Store, ds: seq<Delivery>)
    requires EventIds(ds) <= s.events
    ensures ProcessAll(cfg, s, ds) == s
  {
    if ds != [] {
      ProcessShape(cfg, s, ds[0].event, ds[0].at);
      RecordedEventsAreInert(cfg, s, ds[1..]);
    }
  }

  /** Replaying events, all or some of them, in any order, at any later time and however often,
      changes no document of the store. */
  lemma ReplayChangesNothing(cfg: Config, s: Store, ds: seq<Delivery>, again: seq<Delivery>)
    requires EventIds(again) <= s.events + EventIds(ds)
    ensures ProcessAll(cfg, ProcessAll(cfg, s, ds), again) == ProcessAll(cfg, s, ds)
  {
    AllRecord(cfg, s, ds);
    RecordedEventsAreInert(cfg, ProcessAll(cfg, s, ds), again);
  }
}

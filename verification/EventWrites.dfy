/** Provider events as they arrive, and which call state each type stands for. */
module ProviderEvents {
  import opened Wrappers
  import opened Enums
  import opened Documents

  datatype EventType = Known(state: CallState) | Unknown

  datatype Event = Event(id: Ref, call: Ref, kind: EventType)

  /** EVENT_TYPE_TO_CALL_STATE: it has no entry below RINGING. */
  function TargetOf(kind: EventType): Option<CallState> {
    if kind.Known? && Rank(kind.state) >= 3 then Some(kind.state) else None
  }

  predicate IsReleasing(target: CallState) {
    target.Completed? || target.Failed? || target.Cancelled?
  }
}

/** process_event as the ordered store writes it makes. */
module EventWrites {
  import opened Wrappers
  import opened Enums
  import opened Documents
  import opened StoreOps
  import opened ProviderEvents
  import AgentSm
  import BorrowerRepo
  import CallRepo
  import CallSm

  function RecordEvent(s: Store, e: Event): Store {
    s.(events := s.events + {e.id})
  }

  /** The call an event is about, when the event applies to it. */
  function Applicable(s: Store, e: Event): Option<CallId> {
    var found := CallRepo.FindByRef(s, e.call);
    var target := TargetOf(e.kind);
    if found.Some? && found.value in s.calls && target.Some?
       && CallSm.ShouldApplyEvent(s.calls[found.value].state, target.value).Apply?
    then found else None
  }

  /** _apply_agent_transition: nothing if the agent is already there, a release on a terminal state,
      a validated transition of the freshly read document otherwise. */
  function AgentWrite(s: Store, call: Call, target: CallState, now: Time): Store {
    var goal := CallSm.AgentStateFor(target);
    var a := call.key.agent;
    if goal.None? || a !in s.agents || s.agents[a].state == goal.value then s
    else if IsReleasing(target) then
      SetAgent(s, a, ReleaseAgent(s, a, call.createdBy, goal.value, AgentSm.EventProcessor, now))
    else
      SetAgent(s, a, TransitionAgent(s, a, s.agents[a].state, goal.value, AgentSm.EventProcessor, s.agents[a].version, now))
  }

  function BorrowerWrite(cfg: Config, s: Store, call: Call, target: CallState, now: Time): Store {
    if !IsReleasing(target) then s
    else
      SetBorrower(s, call.key.borrower,
                  ReleaseBorrower(s, call.key.borrower, call.createdBy,
                                  BorrowerRepo.OutcomeFor(target.Completed? && call.answeredAt.Some?), cfg, now))
  }

  /** The store after the first n of the at most four writes: record, call, agent, borrower. */
  function Prefix(cfg: Config, s: Store, e: Event, now: Time, n: nat): Store {
    if n == 0 || e.id in s.events then s
    else
      var s1 := RecordEvent(s, e);
      var c := Applicable(s1, e);
      if n == 1 || c.None? then s1
      else
        var target := TargetOf(e.kind).value;
        var call := TransitionCall(s1, c.value, target, now);
        if call.None? then s1
        else
          var s2 := SetCall(s1, c.value, call);
          if n == 2 then s2
          else
            var s3 := AgentWrite(s2, call.value, target, now);
            if n == 3 then s3 else BorrowerWrite(cfg, s3, call.value, target, now)
  }

  function Process(cfg: Config, s: Store, e: Event, now: Time): Store {
    Prefix(cfg, s, e, now, 4)
  }
}

/** Stock option type, used wherever the program returns a document or None. */
module Wrappers {
  datatype Option<+T> = None | Some(value: T)
}

/** Counting subsets. */
module Sets {
  lemma {:induction false} SubsetCount<T>(x: set<T>, y: set<T>)
    requires x <= y
    ensures |x| <= |y|
    ensures |x| == |y| ==> x == y
  {
    if x != {} {
      var e :| e in x;
      SubsetCount(x - {e}, y - {e});
    }
  }
}

/** The enumerations of app/models/enums.py, with the rank and terminal tables of calls. */
module Enums {
  datatype AgentState = Offline | Available | Reserved | Dialing | Connected | WrapUp | Paused

  datatype CallState =
    | Queued | Reserved | Initiated | Ringing | Answered | Connected
    | Completed | Failed | Cancelled

  datatype BorrowerStatus = Pending | Reserved | InCall | Contacted | Failed | Exhausted | Dnc

  function Rank(s: CallState): nat {
    match s
    case Queued => 0
    case Reserved => 1
    case Initiated => 2
    case Ringing => 3
    case Answered => 4
    case Connected => 5
    case Completed => 6
    case Failed => 6
    case Cancelled => 6
  }

  predicate IsTerminal(s: CallState) {
    s.Completed? || s.Failed? || s.Cancelled?
  }
}

/** Call lifecycle: the transition table, and the ordering rules for provider events. */
module CallSm {
  import opened Enums
  import opened Wrappers

  datatype Applicability = Apply | IgnoreTerminal | IgnoreStale | IgnoreInvalid

  predicate CanTransition(current: CallState, target: CallState) {
    match current
    case Queued => target in {CallState.Reserved, CallState.Initiated, CallState.Failed, CallState.Cancelled}
    case Reserved => target in {CallState.Initiated, CallState.Failed, CallState.Cancelled}
    case Initiated =>
      target in {CallState.Ringing, CallState.Answered, CallState.Connected,
                 CallState.Completed, CallState.Failed, CallState.Cancelled}
    case Ringing =>
      target in {CallState.Answered, CallState.Connected,
                 CallState.Completed, CallState.Failed, CallState.Cancelled}
    case Answered =>
      target in {CallState.Connected, CallState.Completed, CallState.Failed, CallState.Cancelled}
    case Connected => target in {CallState.Completed, CallState.Failed, CallState.Cancelled}
    case Completed => false
    case Failed => false
    case Cancelled => false
  }

  function ShouldApplyEvent(current: CallState, target: CallState): Applicability {
    if IsTerminal(current) then IgnoreTerminal
    else if Rank(target) <= Rank(current) then IgnoreStale
    else if !CanTransition(current, target) then IgnoreInvalid
    else Apply
  }

  function AgentStateFor(s: CallState): Option<AgentState> {
    match s
    case Initiated => Some(AgentState.Dialing)
    case Ringing => Some(AgentState.Dialing)
    case Answered => Some(AgentState.Connected)
    case Connected => Some(AgentState.Connected)
    case Completed => Some(AgentState.WrapUp)
    case Failed => Some(AgentState.Available)
    case Cancelled => Some(AgentState.Available)
    case Queued => None
    case Reserved => None
  }

  /** Once a call is INITIATED the table is exactly "any strictly higher rank"; below that it also
      shuts out provider progress and COMPLETED. The rank filter of a write is therefore enough
      exactly when the call has been initiated or the target needs no provider. */
  lemma TableIsRankAboveInitiated(current: CallState, target: CallState)
    ensures CanTransition(current, target) <==>
            !IsTerminal(current) && Rank(current) < Rank(target)
            && (Rank(current) >= 2 || target.Reserved? || target.Initiated? || target.Failed? || target.Cancelled?)
  {
    match current
    case Queued =>
    case Reserved =>
    case Initiated =>
    case Ringing =>
    case Answered =>
    case Connected =>
    case Completed =>
    case Failed =>
    case Cancelled =>
  }
}

/** Agent lifecycle: the transition table and which actor may take each edge. */
module AgentSm {
  import opened Enums

  datatype Actor = Allocator | EventProcessor | Recovery | AgentSelf | WorkerTimer

  /** On a call, or claimed for one. */
  predicate IsEngaged(s: AgentState) {
    s.Reserved? || s.Dialing? || s.Connected?
  }

  predicate CanTransition(current: AgentState, target: AgentState) {
    match current
    case Offline => target.Available?
    case Available => target.Reserved? || target.Paused? || target.Offline?
    case Reserved => target.Dialing? || target.Available? || target.Offline?
    case Dialing => target.Connected? || target.Available? || target.Offline?
    case Connected => target.WrapUp? || target.Available? || target.Offline?
    case WrapUp => target.Available? || target.Paused? || target.Offline?
    case Paused => target.Available? || target.Offline?
  }

  predicate IsActorAllowed(current: AgentState, target: AgentState, actor: Actor) {
    match (current, target)
    case (Offline, Available) => actor.AgentSelf?
    case (Available, Reserved) => actor.Allocator?
    case (Available, Paused) => actor.AgentSelf?
    case (Available, Offline) => actor.AgentSelf? || actor.Recovery?
    case (Reserved, Dialing) => actor.Allocator?
    case (Reserved, Available) => actor.Allocator? || actor.Recovery?
    case (Reserved, Offline) => actor.AgentSelf? || actor.Recovery?
    case (Dialing, Connected) => actor.EventProcessor?
    case (Dialing, Available) => actor.Allocator? || actor.EventProcessor? || actor.Recovery?
    case (Dialing, Offline) => actor.AgentSelf? || actor.Recovery?
    case (Connected, WrapUp) => actor.EventProcessor?
    case (Connected, Available) => actor.EventProcessor? || actor.Recovery?
    case (Connected, Offline) => actor.AgentSelf? || actor.Recovery?
    case (WrapUp, Available) => actor.WorkerTimer? || actor.Recovery?
    case (WrapUp, Paused) => actor.AgentSelf?
    case (WrapUp, Offline) => actor.AgentSelf? || actor.Recovery?
    case (Paused, Available) => actor.AgentSelf?
    case (Paused, Offline) => actor.AgentSelf? || actor.Recovery?
    case _ => false
  }

  /** What validate_transition accepts without raising. */
  predicate IsValid(current: AgentState, target: AgentState, actor: Actor) {
    CanTransition(current, target) && IsActorAllowed(current, target, actor)
  }

  /** The table read by actor: who may take an agent where. Every edge belongs to somebody. */
  lemma EdgesByActor(from: AgentState, to: AgentState)
    ensures IsValid(from, to, Allocator) <==>
            (from.Available? && to.Reserved?) || (from.Reserved? && to.Dialing?) || ((from.Reserved? || from.Dialing?) && to.Available?)
    ensures IsValid(from, to, EventProcessor) <==>
            (from.Dialing? && to.Connected?) || (from.Connected? && to.WrapUp?) || ((from.Dialing? || from.Connected?) && to.Available?)
    ensures IsValid(from, to, Recovery) <==>
            (to.Offline? && !from.Offline?) || (to.Available? && (IsEngaged(from) || from.WrapUp?))
    ensures IsValid(from, to, AgentSelf) <==>
            (to.Offline? && !from.Offline?) || (to.Available? && (from.Offline? || from.Paused?))
            || (to.Paused? && (from.Available? || from.WrapUp?))
    ensures IsValid(from, to, WorkerTimer) <==> from.WrapUp? && to.Available?
    ensures IsEngaged(from) <==> from != AgentState.Offline && from != AgentState.Available && from != AgentState.WrapUp && from != AgentState.Paused
    ensures CanTransition(from, to) <==>
            IsValid(from, to, Allocator) || IsValid(from, to, EventProcessor) || IsValid(from, to, Recovery)
            || IsValid(from, to, AgentSelf) || IsValid(from, to, WorkerTimer)
  {
    match from
    case Offline =>
    case Available =>
    case Reserved =>
    case Dialing =>
    case Connected =>
    case WrapUp =>
    case Paused =>
  }

  /** The states from which an actor may move an agent to the target. */
  function AllowedSources(target: AgentState, actor: Actor): set<AgentState> {
    set s: AgentState | IsValid(s, target, actor)
  }
}

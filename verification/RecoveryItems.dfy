/** One item of a recovery sweep as the ordered store writes it makes. */
module RecoveryItems {
  import opened Wrappers
  import opened Enums
  import opened Documents
  import opened StoreOps
  import AgentSm
  import BorrowerRepo

  /** _release_borrower of the recovery worker. */
  function ReleaseCallee(cfg: Config, s: Store, call: Call, now: Time): Store {
    SetBorrower(s, call.key.borrower,
                ReleaseBorrower(s, call.key.borrower, call.createdBy, BorrowerRepo.OutcomeFor(false), cfg, now))
  }

  /** _cancel_bound_call for the agent document the sweep found: first n of its two writes. */
  function CancelBoundCall(cfg: Config, s: Store, seen: Agent, now: Time, n: nat): Store {
    if n == 0 || seen.currentCall.None? then s
    else
      var call := TransitionCall(s, seen.currentCall.value, CallState.Cancelled, now);
      var s1 := SetCall(s, seen.currentCall.value, call);
      if n == 1 || call.None? then s1 else ReleaseCallee(cfg, s1, call.value, now)
  }

  /** An expired-lease item; sweepNow is when the sweep began, now the clock of its writes. */
  function LeaseItem(cfg: Config, s: Store, a: AgentId, seen: Agent, sweepNow: Time, now: Time, n: nat): Store {
    var s1 := CancelBoundCall(cfg, s, seen, now, n);
    if n <= 2 then s1 else SetAgent(s1, a, ReleaseExpired(s1, a, seen, sweepNow))
  }

  function HeartbeatItem(cfg: Config, s: Store, a: AgentId, seen: Agent, now: Time, n: nat): Store {
    var s1 := CancelBoundCall(cfg, s, seen, now, n);
    if n <= 2 then s1
    else
      SetAgent(s1, a, TransitionAgent(s1, a, seen.state, AgentState.Offline, AgentSm.Recovery, seen.version, now))
  }

  /** An orphaned-call item: the call, then its agent, then its borrower. */
  function OrphanItem(cfg: Config, s: Store, c: CallId, target: CallState, now: Time, n: nat): Store {
    var call := TransitionCall(s, c, target, now);
    if n == 0 || call.None? then s
    else
      var s1 := SetCall(s, c, call);
      var a := call.value.key.agent;
      if n == 1 then s1
      else
        var s2 := SetAgent(s1, a, ReleaseAgent(s1, a, call.value.createdBy, AgentState.Available, AgentSm.Recovery, now));
        if n == 2 then s2 else ReleaseCallee(cfg, s2, call.value, now)
  }

  function WrapUpItem(s: Store, a: AgentId, seen: Agent, actor: AgentSm.Actor, now: Time): Store {
    SetAgent(s, a, TransitionAgent(s, a, AgentState.WrapUp, AgentState.Available, actor, seen.version, now))
  }
}

/** The event processor: records an event, then updates its call, agent and borrower in order. */
module EventService {
  import opened Wrappers
  import opened Enums
  import opened Documents
  import opened ProviderEvents
  import opened Database
  import EventWrites
  import EventLists
  import AgentSm
  import BorrowerRepo
  import CallRepo
  import CallSm

  datatype ProcessingStatus = DuplicateIgnored | InvalidIgnored | StaleIgnored | Processed

  /** The status an event gets for the store it arrives at. */
  ghost function StatusOf(s: Store, e: Event): ProcessingStatus {
    var target := TargetOf(e.kind);
    if e.id in s.events then DuplicateIgnored
    else if e.call !in s.byRef || s.byRef[e.call] !in s.calls || target.None? then InvalidIgnored
    else
      var state := s.calls[s.byRef[e.call]].state;
      if IsTerminal(state) || Rank(target.value) <= Rank(state) then StaleIgnored
      else if !CallSm.CanTransition(state, target.value) then InvalidIgnored
      else Processed
  }

  class EventProcessor {
    const db: Collections
    const events: EventRepository
    const calls: CallRepository
    const agents: AgentRepository
    const borrowers: BorrowerRepository
    const cfg: Config

    constructor (db: Collections, cfg: Config)
      ensures this.db == db && this.cfg == cfg && Wired()
    {
      this.db := db;
      this.cfg := cfg;
      events := new EventRepository(db);
      calls := new CallRepository(db);
      agents := new AgentRepository(db);
      borrowers := new BorrowerRepository(db);
    }

    ghost predicate Wired() {
      events.db == db && calls.db == db && agents.db == db && borrowers.db == db
    }

    /** process_event */
    method ProcessEvent(e: Event, now: Time) returns (status: ProcessingStatus)
      requires Wired()
      modifies db
      ensures status == StatusOf(old(db.View()), e)
      ensures db.View() == EventWrites.Process(cfg, old(db.View()), e, now)
      ensures !status.Processed? ==>
                db.agents == old(db.agents) && db.borrowers == old(db.borrowers) && db.calls == old(db.calls)
    {
      ghost var s := db.View();
      EventLists.ProcessShape(cfg, s, e, now);
      var recorded := events.RecordEvent(e.id);
      if !recorded {
        return DuplicateIgnored;
      }
      var found := CallRepo.FindByRef(db.View(), e.call);
      var target := TargetOf(e.kind);
      if found.None? || found.value !in db.calls || target.None? {
        return InvalidIgnored;
      }
      var c := found.value;
      match CallSm.ShouldApplyEvent(db.calls[c].state, target.value)
      case IgnoreTerminal => return StaleIgnored;
      case IgnoreStale => return StaleIgnored;
      case IgnoreInvalid => return InvalidIgnored;
      case Apply =>
        var updated := calls.TransitionCall(c, target.value, now);
        if updated.None? {
          return StaleIgnored;
        }
        ApplyAgentTransition(updated.value, target.value, now);
        if IsReleasing(target.value) {
          ReleaseBorrower(updated.value, target.value, now);
        }
        return Processed;
    }

    method ApplyAgentTransition(call: Call, target: CallState, now: Time)
      requires Wired()
      modifies db
      ensures db.View() == EventWrites.AgentWrite(old(db.View()), call, target, now)
    {
      var goal := CallSm.AgentStateFor(target);
      var a := call.key.agent;
      if goal.None? || a !in db.agents || db.agents[a].state == goal.value {
        return;
      }
      if IsReleasing(target) {
        var _ := agents.ReleaseAgent(a, call.createdBy, goal.value, AgentSm.Actor.EventProcessor, now);
        return;
      }
      var _ := agents.TransitionAgent(a, db.agents[a].state, goal.value, AgentSm.Actor.EventProcessor, db.agents[a].version, now);
    }

    method ReleaseBorrower(call: Call, target: CallState, now: Time)
      requires Wired() && IsReleasing(target)
      modifies db
      ensures db.View() == EventWrites.BorrowerWrite(cfg, old(db.View()), call, target, now)
      ensures call.key.borrower in old(db.borrowers) && old(db.borrowers)[call.key.borrower].status.Reserved?
              && HeldBy(old(db.borrowers)[call.key.borrower].lease, call.createdBy) ==>
                && call.key.borrower in db.borrowers
                && (db.borrowers[call.key.borrower].status.Contacted? <==> target.Completed? && call.answeredAt.Some?)
                && db.borrowers[call.key.borrower].attempts == old(db.borrowers)[call.key.borrower].attempts + 1
    {
      var answered := target.Completed? && call.answeredAt.Some?;
      if call.key.borrower in db.borrowers {
        BorrowerRepo.ReleaseByOutcome(db.borrowers[call.key.borrower], call.createdBy, BorrowerRepo.OutcomeFor(answered), cfg, now);
      }
      var _ := borrowers.ReleaseBorrower(call.key.borrower, call.createdBy, BorrowerRepo.OutcomeFor(answered), cfg, now);
    }
  }
}

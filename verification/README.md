# Verified model of the dialer's reservation, call, event and recovery protocol

The dialer pairs agents with borrowers and calls them through a provider. Any number of dialer
workers, event processors, recovery workers and agents share one document store; nothing protects
them but single-document filters, leases, ranks, versions and compensating writes. This project
models those operations and proves what they add up to.

## How it is laid out

| files | content |
|---|---|
| StateMachines, Documents, Repositories | enumerations, transition tables, documents, and every `find_one_and_update` / `insert_one` as a function on one document or on the store |
| RepositoryFacts | what each of these operations does, when it does anything, and what it leaves alone, field by field |
| Database | the store as an object; the repositories as classes that query and update it in place |
| EventWrites, RecoveryItems | `process_event` and the recovery items as ordered store writes, cuttable after any of them |
| FineProtocol, FineDocuments, FineSafety, FineCapacity, BorrowerHistory, AgentTime, OrphanTimeout | the protocol with every store operation a step of its own, and what holds in every interleaving |
| FineUndisturbed, FineWitnesses | how the fine steps of one actor alone add up to the macro writes; fine runs in which a promise fails |
| MacroProtocol, MacroSafety, MacroWrites, MacroSteps, MacroDial, MacroHarms, MacroRuns | the protocol at the grain where exclusive binding can be decided, and exactly when it survives |
| MacroOrphans, InvariantChecker, MacroWitnesses, SweepWitnesses | calls that were never bound, what the program's own checker can report, and runs that show it |
| EventProcessor, EventLists, EventParties | the event processor class, and whole lists of provider events |
| RecoverySpec, RecoveryWorker | the five sweeps as loops, against a closed form without order or loop |
| AllocatorSpec, CallAllocator | reservation service and allocator loop, and their books |
| SafetyController, Pacing, ProviderHealth | the safety decision, the request that feeds it, and the health window |

Two granularities are used. In the *fine* protocol (`FineProtocol.Next`) every store operation is
one step, any actor may stop between any two of its operations, a dial may be cancelled at any of
them, workers restart under any id, and an approval is taken at the instant its capacity reading is.
In the *macro* protocol (`MacroProtocol.Next`) a live worker's reserve-to-bind, a `process_event` and
a recovery item are one step each, but a crash or an error may cut each of them after any of its
writes, and a dial may be cancelled and compensated. A worker that was cut may go on under the same
id (`Resume`), as the dialer loop does after an error it logs. A recovery pass may end anywhere; a
sweep that raises is over, and the pass goes on with the next one by the same `now`; a find may
return any part of its matches. Agents log out whenever they like. Waiting for the provider is where
the others interleave. `FineUndisturbed` proves that the fine steps of one actor, with nobody in
between, are the writes of one macro step.

The classes change their fields as the program does; each method is proved equal to a function of
the old store (`EventWrites.Process`, `AllocatorSpec.DialResult`, `RecoverySpec.SweepLeases`, …), and
the properties are lemmas about those functions.

## What turned out not to hold

* **Time budget.** `release_expired_agent_lease` stamps `state_changed_at` with the time the sweep
  began. When an agent changed state after that, the stamp lies in its past and time already counted
  is counted again, so busy + available can exceed the elapsed time. `ReleaseKeepsBudgetIff` gives the
  exact condition (the sweep's `now` is not older than the agent's last state change). In every run
  counted time exceeds elapsed time by at most what the late releases were late in all
  (`CountedWithinElapsedInRuns`), and `LateReleaseInARun` is a run that reaches this bound.
  Utilization stays within 0..1 regardless.
* **Available time.** `try_reserve_agent` charges nothing, so AVAILABLE time that ends in a claim is never
  counted and drops out of the utilization denominator (`ClaimForgetsAvailableTime`).
* **Orphan timeout.** The configuration check asks for more than it needs: every call that its own dial
  inserted is protected, in every run, exactly when the stale timeout is neither less than the lease
  nor less than the provider's timeout (`SettingsProtectIff`). But `create_call` may also return an
  older QUEUED call, which keeps its old `updated_at` until it is marked RESERVED. Such a call is safe
  from the orphan sweep throughout the lease, in every continuation of the run, exactly when it was
  last written late enough (`FoundCallIsSafeIff`). Otherwise, under every configuration the program
  accepts, there is a run in which the sweep ends it and the dial loses it (`FoundCallIsLost`).
* **One call per agent.** A dial that stops between INITIATED and the bind leaves a live call that its
  agent does not know of; once the agent's lease is swept, the agent is dialled again and the program's
  own checker reports both calls (`CutDialsCollide`). There are never more such calls than dials that
  were cut (`UnboundCallsWereCut`), so never more clashes, by agent or by borrower, and never more calls
  beyond the usable agents (`ClashesWereCut`, `CarefulClashesWereCut`), as long as no step of the next
  point occurs. Every clash then names a call that is not its agent's current call
  (`ClashesAreNotCurrent`), and where every listed call is, the checker is silent (`CurrentCallsPass`).
* **Exclusive binding.** Every live bound call keeps its agent and its borrower throughout a run exactly
  when none of four kinds of step occurs (`BindingsSurviveIff`, `MacroWrites.Harms`): an orphan item
  that frees a party which the ended call's creator holds for another live call; a reclaim that lands
  on the borrower of a live call; an agent that logs out of one; a dial cancelled between its bind and
  the provider's answer. Each is reachable, and the next four points say when.
* **Worker ids.** The orphan sweep frees agent and borrower in the name of the worker that created the
  ended call (app/workers/recovery_worker.py:237-244). A database error inside a dial is not compensated
  (app/services/call_allocator.py:89-93) and the loop goes on with the same id
  (app/workers/dialer_worker.py:81-97), so a worker can hold the same agent for a new call when its lost
  call is swept, and the sweep takes the agent from under the new call (`ResumedIdLosesAgent`). It is
  enough that no worker dials an agent or a borrower of a live unbound call of its own
  (`CarefulRunsAreUnharmed`), which is so when a cut worker's id never comes back
  (`RetiredIdsKeepBindings`).
* **Failed first sweep.** An error in the agent-lease sweep is caught and the borrower-lease sweep runs
  next with the same `now` (app/workers/recovery_worker.py:100-112). If a lease has ended during a call
  whose agent the first sweep did not reach, because it raised or because its limit cut in, the second
  hands the borrower back while the call is live; the next dial puts him in two calls, each its agent's
  current call, and no dial was cut (`RaisedSweepSharesBorrower`). A landing reclaim keeps the bindings
  exactly when its borrower is in no live bound call, which is always so after a whole first sweep
  (`ReclaimedBorrowersAreFree`).
* **Logouts.** An agent may go OFFLINE out of DIALING or CONNECTED; his call stays live
  (`LogoutLeavesCall`). From any other state a logout harms nobody (`CarefulRunsAreUnharmed`).
* **Cancelled dials.** The compensation of a cancelled dial gives the pair back but does not end the
  call; after the bind this leaves an INITIATED call next to an AVAILABLE agent and a PENDING borrower
  (`CancelledDialLeavesCall`).
* **Final check.** The checker limits its find of stale calls before it filters by campaign, so it can
  miss a campaign's stale calls exactly when other campaigns have enough of them to fill the find
  (`StaleCallsHideIff`).
* **COMPLETED from ringing.** A COMPLETED that nobody picked up before cannot move the agent
  (DIALING to WRAP_UP is no edge), so the agent stays DIALING with its lease until a sweep finds it
  (`AgentEndsWhere`).
* **Dead constraints.** Of the eight safety limits, three can never bind and a DEGRADED provider never
  lowers an approval (`ApprovedInClosedForm`, `BindingConstraint`).
* **Documentation.** docs/agent-state-machine.md ties RESERVED to DIALING to the provider accepting the
  call; the code moves the agent before it asks the provider, and the model follows the code.

## Model

| member | source | states |
|---|---|---|
| CallSm.TableIsRankAboveInitiated | app/state_machines/call_sm.py:13-48 | from INITIATED on, the transition table is exactly "strictly higher rank"; below it, only targets that need no provider |
| AgentSm.EdgesByActor | app/state_machines/agent_sm.py:15-83 | the table read by actor: which edges each of the five may take, and that every edge belongs to somebody |
| AgentRepo.SwitchIsDirect | app/repositories/agent_repo.py:127-140 | the `$switch` accounting of a release charges exactly what a direct charge to the document's own state would |
| RepositoryFacts.ChargeOfState | app/repositories/agent_repo.py:22-36 | which ledger fields the time in each state goes to, and that OFFLINE and PAUSED time goes to none |
| RepositoryFacts.ReleaseOfAgent | app/repositories/agent_repo.py:89-125 | a release lands exactly for the lease's holder on a permitted edge, clears lease and call, and charges the state left |
| RepositoryFacts.FoundAgents | app/repositories/agent_repo.py:194-258 | who each find of agents returns, in terms of state, lease, heartbeat and clock |
| RepositoryFacts.FoundOthers | app/repositories/call_repo.py:115-139 | which borrowers and calls the finds return |
| BorrowerRepo.ReleaseByOutcome | app/repositories/borrower_repo.py:87-168 | RELEASED costs nothing, CONTACTED settles the borrower, RETRY counts an attempt and either exhausts him or makes him wait the base times two to the attempts before |
| FineDocuments.ReserveEvolves | app/repositories/agent_repo.py:48-74 | a landed claim is the permitted edge AVAILABLE to RESERVED, one version up, leased |
| FineDocuments.ReleaseEvolves | app/repositories/agent_repo.py:89-125 | a landed release is a permitted edge for its actor, one version up, unleased, and charges the state left up to now |
| FineDocuments.TransitionEvolves | app/repositories/agent_repo.py:142-172 | a landed transition is a permitted edge, one version up, keeps the lease, and charges the state left |
| FineDocuments.BorrowerReleaseEvolves | app/repositories/borrower_repo.py:87-168 | each release is one of the five writes, CONTACTED exactly for that outcome, and uncounted exactly for RELEASED |
| FineDocuments.StepKeepsAgents | app/repositories/agent_repo.py:48-226 | whatever any actor does in one step, each agent document moves by one of four permitted kinds of write |
| FineDocuments.StepKeepsBorrowers | app/repositories/borrower_repo.py:36-205 | whatever any actor does in one step, each borrower document moves by one of five kinds of write |
| FineSafety.RunKeepsInv | app/repositories/call_repo.py:24-113 | in every interleaving: the key index is exact, an attached call is at least INITIATED, and every actor's remembered facts still hold |
| FineSafety.CallWritesAreEdges | app/repositories/call_repo.py:84-113 | every call write that lands in any interleaving is an edge of CALL_TRANSITIONS, though the write checks rank only and legality was judged on an older read |
| FineSafety.HandedAtMostOnce | app/services/call_allocator.py:141-168 | each (campaign, agent, borrower, attempt) key reaches the provider at most once in any run |
| FineSafety.AgentWritesAreEdges | app/state_machines/agent_sm.py:15-103 | every agent state change in any interleaving is an edge permitted to its actor and raises the version by one; nothing else touches the version |
| FineSafety.BusyAgentsAreLeased | app/repositories/agent_repo.py:48-226 | RESERVED, DIALING and CONNECTED agents always carry a lease, WRAP_UP agents never |
| FineSafety.BusyAgentsComeDue | app/repositories/agent_repo.py:194-258 | so a busy agent is found exactly once its lease is past, or in the wrap-up sweep exactly once its time is up |
| FineSafety.HeartbeatSweepNeverRaises | app/workers/recovery_worker.py:172-195 | whoever the heartbeat sweep found may be taken OFFLINE by it, so its transition never raises |
| FineCapacity.ActiveCallsAreBounded | app/safety/safety_controller.py:160-180 | with N workers reading capacity on their own, active calls plus unspent approvals never exceed N times the campaign limit |
| FineCapacity.SingleWorkerRespectsLimit | app/safety/safety_controller.py:206-210 | one worker never exceeds the limit, however events and recovery interleave |
| BorrowerHistory.RunIsHistory | app/repositories/borrower_repo.py:36-205 | every fine run, seen from one borrower, is a sequence of the five writes at non-decreasing times |
| BorrowerHistory.VersionTracksReservations | app/repositories/borrower_repo.py:36-62 | RESERVED exactly when the version is odd and exactly when leased; attempts never exceed successful reservations; IN_CALL is never written |
| BorrowerHistory.AttemptsStayBelowMax | app/repositories/borrower_repo.py:126-168 | PENDING and RESERVED borrowers have attempts left, nobody more than the maximum |
| BorrowerHistory.FinalStatusIsAbsorbing | app/repositories/borrower_repo.py:87-124 | once EXHAUSTED or CONTACTED, the document never changes again |
| BorrowerHistory.BorrowersInRuns | app/repositories/borrower_repo.py:36-205 | the three facts above for the worlds of every fine run |
| BorrowerHistory.ExhaustionTakesTheWholeBackoff | app/repositories/borrower_repo.py:144-167 | EXHAUSTED no sooner than base * (2^(MAX-1) - 1) after the first counted attempt, releases and reclaims in between or not |
| BorrowerHistory.ExhaustionInRuns | app/repositories/borrower_repo.py:144-167 | the same bound for the worlds of every fine run |
| AgentTime.LedgerIsSound | app/repositories/agent_repo.py:22-36 | connected plus wrap-up time never exceeds busy time, nothing is negative |
| AgentTime.OnlyLateReleasesOvercount | app/repositories/agent_repo.py:205-226 | only an expired-lease release stamped before the last state change counts time twice, by exactly its jump back |
| AgentTime.OnlyThreeWritesSkip | app/repositories/agent_repo.py:22-74 | time goes uncounted only in OFFLINE and PAUSED, at a claim, and at an expired-lease release |
| AgentTime.CountedWithinElapsed | app/repositories/agent_repo.py:127-140 | in every history busy plus available time exceeds the elapsed time by no more than the late releases were late in all |
| AgentTime.CountedWithinElapsedInRuns | app/repositories/agent_repo.py:205-226 | the same bound for the worlds of every fine run |
| FineWitnesses.LateReleaseInARun | app/workers/recovery_worker.py:117-121 | a fine run whose agent is counted for exactly as much too long as its release was late |
| AgentTime.ReleaseKeepsBudgetIff | app/repositories/agent_repo.py:205-226 | an expired-lease release keeps the time budget of every agent exactly when its timestamp is not older than the last state change |
| AgentTime.LateReleaseOvercounts | app/workers/recovery_worker.py:117-121 | a reserve, dial, connect, late sweep, pause sequence that counts more time than passed |
| AgentTime.LiveTotalsByState | app/metrics/utilization.py:45-63 | the three live totals of an agent, state by state, on the ledger fields and the time in the current state |
| AgentTime.CampaignMeans | app/metrics/utilization.py:81-97 | talk and productive time of all agents as shares of their counted time, given exactly when that is positive |
| AgentTime.LiveTotalsAreContinuous | app/metrics/utilization.py:45-63 | the live totals do not jump at a transition or a release: what ran in the old state is what the write charges |
| AgentTime.ClaimForgetsAvailableTime | app/repositories/agent_repo.py:48-74 | a claim takes the AVAILABLE time shown so far out of the denominator |
| AgentTime.UtilizationIsAShareInEveryRun | app/metrics/utilization.py:51-97 | in every run, for any agents and moment, 0 <= talk <= productive <= 1, per agent and per campaign |
| MacroRuns.TraceKeepsInv | app/services/call_allocator.py:121-208 | the binding invariant holds in every macro run with any number of workers, crashes, cut writes, cancelled dials, failed sweeps and ids that go on, up to the first harmful step |
| MacroRuns.BindingsSurviveIff | app/workers/recovery_worker.py:87-115 | every live bound call keeps its agent and borrower throughout a run exactly when no orphan item, reclaim, logout or cancellation takes a party of one |
| MacroHarms.HarmBreaks | app/workers/recovery_worker.py:237-244 | each of these four steps leaves a live bound call without its agent or its borrower |
| MacroSteps.WholePassReclaimsFree | app/workers/recovery_worker.py:117-146 | after a first sweep that reached all its matches no reclaim by the same now lands on the borrower of a live bound call |
| SweepWitnesses.RaisedSweepSharesBorrower | app/workers/recovery_worker.py:100-112 | a run without cut dials in which the first sweep raises, the second reclaims the borrower of a live call, and he ends in two current calls |
| SweepWitnesses.LogoutLeavesCall | app/state_machines/agent_sm.py:52-61 | a run in which an agent goes OFFLINE out of a live call |
| MacroOrphans.CarefulRunsAreUnharmed | app/workers/dialer_worker.py:81-97 | no harmful step occurs if no worker dials an agent or a borrower of its own live unbound calls, nobody logs out of a call or cancels after the bind, and second sweeps follow whole first ones |
| MacroOrphans.RetiredIdsKeepBindings | app/services/call_allocator.py:89-93 | with ids that never come back after a cut, every live bound call keeps its parties in every such orderly run |
| MacroWitnesses.ResumedIdLosesAgent | app/workers/recovery_worker.py:148-170 | a run in which a worker goes on after an error and the sweep of its lost call takes the agent from its next one |
| MacroRuns.BoundCallsOwnTheirParties | app/simulation/invariants.py:55-76 | up to the first harmful step every live bound call has its agent DIALING or CONNECTED on exactly this call and its borrower RESERVED |
| MacroRuns.BindingIsExclusive | app/simulation/invariants.py:55-76 | up to the first harmful step no agent and no borrower is in two live bound calls |
| MacroRuns.BoundIffCurrent | app/services/call_allocator.py:159-166 | a live call is bound exactly when it is its agent's current call |
| MacroRuns.ReclaimedBorrowersAreFree | app/repositories/borrower_repo.py:170-205 | a landing reclaim keeps every binding exactly when its borrower is in no live bound call, and after a whole first sweep he never is |
| MacroRuns.BoundCallsFitTheAgents | app/simulation/invariants.py:78-96 | live bound calls never outnumber usable agents; ClashesWereCut adds the unbound ones |
| MacroOrphans.UnboundCallsWereCut | app/services/call_allocator.py:153-168 | in every run there are never more live unbound calls than dials that were cut |
| MacroOrphans.UncutRunsLeaveNoOrphans | app/services/call_allocator.py:153-168 | while no dial was cut, every live call is bound |
| InvariantChecker.FindOffenders | app/simulation/invariants.py:55-76 | the scan reports nothing exactly when all identifiers differ, and everything it reports are two listed calls that share one |
| InvariantChecker.CheckCalls | app/simulation/invariants.py:55-96 | one violation for agents, borrowers and capacity each, present exactly when calls share an agent, share a borrower or outnumber the usable agents, and naming what was found |
| InvariantChecker.CheckFinalState | app/simulation/invariants.py:98-122 | reports RESERVED agents and stale calls of the campaign, and stays silent over stale calls only where the limited find can hide them |
| InvariantChecker.StaleCallsHideIff | app/simulation/invariants.py:104-106 | a limited find can show none of a campaign's stale calls exactly when the others alone fill it |
| InvariantChecker.Check | app/simulation/invariants.py:44-53 | what the store lists is checked, with the final state on request; silence and soundness imply each other up to hidden stale calls |
| InvariantChecker.ClashesWereCut | app/simulation/invariants.py:55-96 | at every point of every run up to the first harmful step, whatever is listed, clashes by agent, clashes by borrower and calls beyond the usable agents are each at most the dials that were cut |
| InvariantChecker.CarefulClashesWereCut | app/simulation/invariants.py:55-96 | the same at every point of every orderly run whose workers are careful or whose cut ids never come back |
| InvariantChecker.ClashesAreNotCurrent | app/simulation/invariants.py:55-76 | up to the first harmful step, of the two calls of a reported clash one is not its agent's current call |
| InvariantChecker.CurrentCallsPass | app/simulation/invariants.py:44-96 | up to the first harmful step, where every listed call is its agent's current call the checker finds nothing, cut dials or not |
| InvariantChecker.CheckerStaysSilent | app/simulation/invariants.py:44-96 | in an orderly run without cut dials the checker finds nothing |
| MacroWitnesses.CutDialsCollide | app/services/call_allocator.py:154-166 | a crash between INITIATED and the bind, a lease sweep and a second dial, after which the checker reports a clash and a call too many |
| OrphanTimeout.UpdatedSince | app/repositories/call_repo.py:133-139 | in every interleaving a call's updated_at is no older than any write it received |
| OrphanTimeout.AcceptedMeans | app/config.py:74-84 | the program accepts exactly the settings under which no live call is selected before lease and provider timeout have run out one after the other |
| OrphanTimeout.LiveSetupIsNeverStale | app/config.py:74-84 | with a stale timeout not below the lease nor the provider's timeout, no call inserted by its dial is selected as orphaned while the claim's lease or, once INITIATED, the provider timeout lasts |
| FineWitnesses.SettingsProtectIff | app/config.py:74-84 | the settings protect every such dial in every run exactly under that condition, which the configuration check implies |
| OrphanTimeout.RecentCallOutlivesLease | app/repositories/call_repo.py:46-50 | in every run a call last written late enough is not selected while a lease claimed at that moment lasts, however it was obtained |
| OrphanTimeout.FoundCallIsSafeIff | app/repositories/call_repo.py:46-50 | at any point of any run, no continuation selects a live call within a lease claimed there exactly when it was last written late enough |
| FineWitnesses.FoundCallIsLost | app/workers/recovery_worker.py:148-170 | under every accepted configuration, a run in which a found call is selected inside an unexpired lease, ended, and refused to its dial |
| OrphanTimeout.FoundCallIsSwept | app/workers/recovery_worker.py:148-151 | timings with default settings where the sweep ends a found call inside its new lease and the dial loses it |
| Database.Take | app/repositories/agent_repo.py:194-203 | a limited find returns distinct matches, all of them unless the limit cuts in |
| Database.AgentRepository.ReleaseAgent | app/repositories/agent_repo.py:89-125 | lands exactly when the worker holds the lease and the edge is the actor's; then the agent is unleased, off its call, one version up and charged for the state left, otherwise nothing changes |
| Database.CallRepository.CreateCall | app/repositories/call_repo.py:24-51 | inserts under the unique key, or leaves the store alone and returns the older call |
| Database.CallRepository.AttachProviderCallId | app/repositories/call_repo.py:71-82 | attaches to an unattached call under the unique reference, changes nothing otherwise |
| Database.EventRepository.RecordEvent | app/repositories/event_repo.py:19-31 | records a new event id once, reports duplicates |
| FineUndisturbed.UndisturbedEvent | app/services/event_processor.py:67-126 | the store operations of one event with nobody in between are process_event as one step |
| FineUndisturbed.UndisturbedAgentItem | app/workers/recovery_worker.py:117-133 | the store operations for one found agent with nobody in between are one recovery item |
| FineUndisturbed.UndisturbedOrphanItem | app/workers/recovery_worker.py:148-170 | the store operations for one stale call with nobody in between are one recovery item |
| FineUndisturbed.UndisturbedClaims | app/services/reservation_service.py:40-60 | the store operations from the agent claim to create_call with nobody in between are the first writes of one macro dial |
| FineUndisturbed.UndisturbedDial | app/services/call_allocator.py:141-166 | the store operations from create_call to the bind with nobody in between are the writes of one macro dial |
| FineUndisturbed.UndisturbedRetreat | app/services/call_allocator.py:121-158 | a dial that turns back before the provider is asked, at the gate or because somebody ended its call, counts no attempt; an agent without a borrower is freed |
| FineUndisturbed.UndisturbedRefusal | app/services/call_allocator.py:168-194 | the store operations of a refused dial with nobody in between are the macro refusal |
| FineUndisturbed.UndisturbedCancellation | app/services/call_allocator.py:265-271 | a dial cancelled anywhere releases its pair uncounted, leaves its call alone and ends the loop, as in the macro protocol |
| FineUndisturbed.FindsAreQueries | app/workers/recovery_worker.py:117-211 | a fine sweep may find exactly what the finds of the store return |
| FineWitnesses.CancelledDialLeavesCall | app/services/call_allocator.py:265-271 | a run in which a cancelled dial gives its pair back and leaves its call INITIATED |
| EventService.EventProcessor.ProcessEvent | app/services/event_processor.py:67-126 | the store becomes Process of the old one and the status says why nothing was applied |
| EventService.EventProcessor.ApplyAgentTransition | app/services/event_processor.py:128-160 | the agent write of an event: nothing, a release, or a versioned transition |
| EventService.EventProcessor.ReleaseBorrower | app/services/event_processor.py:162-172 | a RESERVED borrower held by the call's creator is CONTACTED exactly for an answered COMPLETED, and one attempt is counted |
| EventLists.HeardExactly | app/services/event_processor.py:24-32 | which event types stand for a state: every one from RINGING on, and no other |
| EventLists.ProcessIsHear | app/services/event_processor.py:95-126 | one event moves a call only if it is new, about the call, of known type and legal; it touches no index |
| EventLists.CallFollowsHeard | app/services/event_processor.py:67-126 | a call ends where the new events about it take it, in any list |
| EventLists.FinalState | app/state_machines/call_sm.py:74-81 | for any list the final state is the first terminal event after de-duplication, or else the highest-ranked |
| EventLists.ReplayChangesNothing | app/repositories/event_repo.py:19-31 | replaying recorded events in any order changes no document |
| EventParties.ContactedExactlyWhen | app/services/event_processor.py:162-172 | CONTACTED exactly when COMPLETED is the first terminal event and an ANSWERED preceded every CONNECTED and terminal one, else RETRY |
| EventParties.BorrowerFollowsRuling | app/services/event_processor.py:162-172 | whatever list arrives, the borrower is released at most once, by that outcome and at that event's time |
| EventParties.BorrowerEndsWhere | app/services/event_processor.py:95-172 | for any list, a RESERVED borrower ends CONTACTED exactly when COMPLETED is the first terminal event and was answered in time; otherwise untouched, or one attempt further, EXHAUSTED or waiting the stated time |
| EventParties.AgentEndsWhere | app/services/event_processor.py:128-160 | the agent ends AVAILABLE after FAILED or CANCELLED, in WRAP_UP after a COMPLETED somebody picked up before, and otherwise keeps its lease |
| RecoverySpec.LeaseItemIsOneMore | app/workers/recovery_worker.py:117-133 | handling one more expired agent is one more step of the closed form of the sweep |
| RecoverySpec.OrphanItemIsOneMore | app/workers/recovery_worker.py:148-170 | handling one more stale call is one more step of the closed form |
| RecoverySpec.HeartbeatItemIsOneMore | app/workers/recovery_worker.py:172-195 | handling one more lost agent is one more step of the closed form |
| RecoveryPass.FullPassCleans | app/workers/recovery_worker.py:87-211 | a full undisturbed pass leaves nothing for any of the five sweeps to find; later sweeps undo nothing |
| RecoveryWorker.FinishedSweepsHold | app/workers/recovery_worker.py:100-112 | whichever sweeps raise, what the others were to find is gone at the end of the pass |
| RecoveryPass.CleanMeans | app/workers/recovery_worker.py:117-211 | a clean store in raw terms: no expired lease, no call, heartbeat or wrap-up older than its timeout |
| RecoveryPass.CleanStoreIsFixed | app/workers/recovery_worker.py:87-211 | on a clean store no sweep picks anything and the store stays as it is |
| RecoveryPass.SecondPassChangesNothing | app/workers/recovery_worker.py:87-211 | a second pass at the same now is the identity |
| RecoveryWorker.Worker.CancelBoundCall | app/workers/recovery_worker.py:223-235 | ends the agent's call and gives its borrower back, or does nothing |
| RecoveryWorker.Worker.SweepExpiredAgentLeases | app/workers/recovery_worker.py:117-133 | the loop reaches the closed form for the picked agents and counts exactly them |
| RecoveryWorker.Worker.SweepExpiredBorrowerLeases | app/repositories/borrower_repo.py:170-205 | the reclaim loop reaches the closed form for the picked borrowers and counts exactly them |
| RecoveryWorker.OrphansEndAsReported | app/workers/recovery_worker.py:213-221 | each picked call ends COMPLETED exactly when it has an identifier and the provider reports it completed, FAILED in every other case |
| RecoveryWorker.Worker.SweepOrphanedCalls | app/workers/recovery_worker.py:148-170 | the loop ends the picked calls as the provider reports, on the store it leaves, and frees their parties |
| RecoveryWorker.Worker.SweepHeartbeatTimeouts | app/workers/recovery_worker.py:172-195 | the loop cancels the calls of the picked agents and takes them OFFLINE |
| RecoveryWorker.Worker.SweepStuckWrapUps | app/workers/recovery_worker.py:197-211 | the loop frees exactly the picked overdue wrap-ups |
| RecoveryWorker.Worker.RunSweeps | app/workers/recovery_worker.py:87-115 | a sweep that raises is reported with count 0 and the others do all their work; without one and with a sufficient limit the pass picks every match and leaves a clean store; orphans end as reported; on a clean store it changes nothing |
| Reservations.ReservationService.ReservePair | app/services/reservation_service.py:40-60 | None exactly when no agent or no borrower can be claimed, and then nothing stays claimed; otherwise both claims of one pair |
| Reservations.ReservationService.ClaimFirstAgent | app/services/reservation_service.py:76-97 | tries candidates in order; None exactly when all were taken |
| Reservations.ReservationService.ReleasePair | app/services/reservation_service.py:62-74 | releases the agent, then the borrower with the outcome |
| AllocatorSpec.IterationBalances | app/services/call_allocator.py:121-208 | one iteration either dials its pair or gives everything back |
| AllocatorSpec.GateMeans | app/services/retry_service.py:14-19 | a first attempt always passes; a later one only with attempts left, when due, and while the provider may be retried |
| AllocatorSpec.DialMeans | app/services/call_allocator.py:121-208 | with the gate closed or the call not QUEUED no call changes and the pair is back uncharged; otherwise the call is INITIATED, and FAILED exactly when the provider does not take it under a usable identifier |
| AllocatorSpec.AllocationBalances | app/services/call_allocator.py:66-105 | AVAILABLE agents fall, active calls and RESERVED borrowers rise, by exactly the dialled pairs; no other campaign's agents move |
| CallAllocator.Allocator.Dial | app/services/call_allocator.py:121-208 | a closed gate touches no call and gives the borrower back with his attempts; an open one initiates a QUEUED call, which stays INITIATED exactly when it is dialled; each refusal has its own compensation |
| CallAllocator.Allocator.Allocate | app/services/call_allocator.py:66-105 | attempted = dialled + failed + contended <= approved, the books balance, and it stops short exactly at the third miss in a row, when nobody is left to pair |
| SafetyRules.ApprovedIsLeast | app/safety/safety_controller.py:132-145 | for a request of at least 0 the approval is at most the request and every limit and equals one of them |
| SafetyRules.ApprovedInClosedForm | app/safety/safety_controller.py:182-253 | zero when UNHEALTHY or stale, else the least of request, free agents, campaign headroom and ringing headroom; nothing else ever decides |
| SafetyRules.RingingStaysWithinRatio | app/safety/safety_controller.py:114-116 | an approval never takes ringing calls beyond the ratio times the free agents, and where nothing else holds it back one call more would |
| SafetyRules.ConstraintsAre | app/safety/safety_controller.py:182-253 | what each of the eight listed constraints allows, on the raw inputs |
| SafetyRules.MarkBinding | app/safety/safety_controller.py:255-276 | exactly the first tight constraint is marked, and only for a reduced request |
| SafetyRules.BindingConstraint | app/safety/safety_controller.py:182-276 | the binding constraint exists and is never progressive-mode, availability-drop or failure-rate; provider health only when UNHEALTHY; the others only at their own limit |
| SafetyRules.ReasonExactly | app/safety/fallback.py:24-35 | each of the five reasons, and none, exactly when it is the first that applies to the raw inputs |
| SafetyRules.FallbackReasons | app/safety/fallback.py:24-35 | a FALLBACK verdict never has reason stale_state or excessive_ringing, and gives provider_degraded and availability_drop exactly when they are the first to apply |
| SafetyRules.VerdictMeaning | app/safety/safety_controller.py:278-292 | each verdict exactly in terms of request, approval and fallback reason |
| SafetyRules.VerdictOfNothing | app/safety/safety_controller.py:278-292 | a request of zero is approved, a negative one rejected, and neither gets a call |
| SafetyController.ApprovalFitsStore | app/safety/safety_controller.py:160-210 | an approval fits the campaign's headroom and free agents of the store that was read, and needs no expired lease anywhere |
| SafetyController.SafetyController.Evaluate | app/safety/safety_controller.py:100-158 | the decision for the store as read, within headroom, free agents and the ringing ratio of the store's own calls, its constraints and binding constraint, and the tracker's new reading |
| SafetyController.DropMeansShareLost | app/services/agent_availability.py:23-48 | a drop is reported exactly when more than the threshold's share of the last count is gone |
| SafetyController.AvailabilityTracker.RecordAndDetect | app/services/agent_availability.py:23-48 | reports the share lost since the last count exactly when it exceeds the threshold, and remembers the new count for that campaign only |
| Pacing.BlendMeans | app/pacing/answer_rate.py:1-27 | seven parts recent and three parts baseline, cut off at the limits; the baseline alone without a recent rate |
| Pacing.BlendStaysBetween | app/pacing/answer_rate.py:5-27 | the blended rate stays within its limits and between the rates it mixes |
| Pacing.RequestMeans | app/pacing/pacing_engine.py:34-64 | the request from both sides: the most calls that fit the free capacity at that rate, times the margin and the volatility factor, halved while DEGRADED, nothing while UNHEALTHY, capped by the tick's limit |
| Pacing.ExpectedAnswersFitCapacity | app/pacing/pacing_engine.py:34-64 | dialling the request never makes expected answers, in-flight calls included, exceed the free capacity; nothing is requested while UNHEALTHY |
| Pacing.RequestIsLargest | app/pacing/pacing_engine.py:34-64 | unscaled and below the tick's limit, one call more would exceed the free capacity |
| HealthWindow.Trim | app/services/provider_health.py:187-190 | on an ordered window dropping from the front keeps exactly the samples since the cutoff |
| HealthWindow.CountTrailingFailures | app/services/provider_health.py:179-185 | the length of the longest all-failing suffix |
| HealthWindow.PercentileIsOrderStatistic | app/services/provider_health.py:45-50 | the percentile is one of the values with the right numbers of values on either side |
| HealthWindow.NearestIndexIsNear | app/services/provider_health.py:45-50 | the index is valid and within half of the exact position |
| HealthWindow.IndexIsNearest | app/services/provider_health.py:45-50 | the index of a fraction is the nearest whole number to its exact place, the even one of two, and never cut off |
| HealthWindow.StatusIsUnique | app/services/provider_health.py:158-177 | the status is a function of the filtered history |
| HealthWindow.SilenceRestoresHealth | app/services/provider_health.py:112-177 | after a full window without originates the status is HEALTHY exactly under the stated configuration condition, so UNHEALTHY is not absorbing |
| ProviderHealth.ProviderHealthManager.RecordOriginate | app/services/provider_health.py:60-76 | the incrementally trimmed window equals the full history filtered by the cutoff |
| ProviderHealth.ProviderHealthManager.GetStatus | app/services/provider_health.py:81-156 | the status returned is that of the filtered history |
| ProviderHealth.ComputeStatus | app/services/provider_health.py:112-177 | counts, rates, suffix and percentile computed by loops give the status of the window |

## Left out

- Identifiers are numbers compared for equality; the idempotency key is the tuple its string is built from.
- Times are integers in milliseconds; rates and ratios are exact reals, so floating-point rounding is not captured.
- Document fields no decision depends on: names, phone numbers, failure reasons, per-state call timestamps other than answered_at, created_at, and the processing status written back to an event.
- Sort orders of finds: candidates come in any order.
- MongoDB, Motor and asyncio: each single-document operation is one atomic step; indexes are the two uniqueness rules on calls and the one on events.
- The mock provider, metrics sampling, decision persistence, the simulation engine, routes, dashboard and scripts.
- Database errors inside an operation, and the handlers that catch them (`_reserve_pair`, `evaluate`, `get_health`, `process_event`, `_run`); the macro protocol has what they leave behind: a cut, a worker that goes on, a sweep that is over.
- CallAllocator.Allocator.Allocate: one clock reading per iteration and no concurrent actors; the branch for a QUEUED call that somebody else ended before INITIATED is in the fine protocol only.
- RecoveryWorker.Worker.RunSweeps: one timestamp for the writes of a sweep, and a sweep raises between two items; the macro protocol has items cut after any of their writes.
- SafetyController.SafetyController.Evaluate: the call failure rate and the snapshot's age are inputs; failure reasons of calls are not modelled.
- MacroRuns.BindingIsExclusive: speaks of bound calls, up to the first harmful step; calls whose dial was cut before the bind are counted by ClashesWereCut.
- MacroRuns.BoundCallsFitTheAgents: the same.
- InvariantChecker.ClashesWereCut: up to the first harmful step; CarefulClashesWereCut says when there is none.
- OrphanTimeout.LiveSetupIsNeverStale: covers calls the dial inserted, where SettingsProtectIff is exact; for found ones FoundCallIsSafeIff is exact.
- Explanation texts and the inputs dictionary of a pacing request.

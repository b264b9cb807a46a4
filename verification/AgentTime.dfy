/**
 * Time accounting of agents over whole runs, and the utilization computed from it. An agent's
 * history is the sequence of states its document goes through in a fine-grained interleaving.
 */
module AgentTime {
  import opened Wrappers
  import opened Enums
  import opened Documents
  import opened FineProtocol
  import opened FineDocuments
  import FineSafety
  import AgentSm
  import AgentRepo

  ghost predicate IsHistory(docs: seq<Agent>, times: seq<Time>, actors: seq<AgentSm.Actor>) {
    && |docs| == |times| == |actors| > 0
    && docs[0].ledger == Ledger(0, 0, 0, 0) && docs[0].stateChangedAt <= times[0]
    && (forall n | 0 <= n < |docs| - 1 :: times[n] <= times[n + 1])
    && (forall n | 0 <= n < |docs| - 1 :: AgentEvolves(docs[n], docs[n + 1], actors[n], times[n]))
  }

  lemma AgentStays(cfg: Config, caps: Caps, run: seq<World>, a: AgentId, n: nat)
    requires IsRun(cfg, caps, run) && a in run[0].store.agents && n < |run|
    ensures a in run[n].store.agents
  {
    for k := 0 to n
      invariant a in run[k].store.agents
    {
      var act := FineSafety.ActionAt(cfg, caps, run, k);
      StepKeepsAgent(cfg, caps, run[k], act, a);
    }
  }

  lemma {:induction false} PrefixIsHistory(cfg: Config, caps: Caps, run: seq<World>, a: AgentId, n: nat)
    returns (docs: seq<Agent>, times: seq<Time>, actors: seq<AgentSm.Actor>)
    requires IsRun(cfg, caps, run) && a in run[0].store.agents && n < |run|
    ensures IsHistory(docs, times, actors) && |docs| == n + 1
    ensures a in run[n].store.agents && docs[n] == run[n].store.agents[a] && times[n] == run[n].clock
    ensures docs[0] == run[0].store.agents[a] && times[0] == run[0].clock
    ensures forall k | 0 <= k <= n :: a in run[k].store.agents && docs[k] == run[k].store.agents[a]
  {
    AgentStays(cfg, caps, run, a, n);
    if n == 0 {
      docs, times, actors := [run[0].store.agents[a]], [run[0].clock], [AgentSm.AgentSelf];
    } else {
      var ds, ts, xs := PrefixIsHistory(cfg, caps, run, a, n - 1);
      var act := FineSafety.ActionAt(cfg, caps, run, n - 1);
      StepKeepsAgent(cfg, caps, run[n - 1], act, a);
      StepTakesTime(cfg, caps, run[n - 1], act);
      docs, times := ds + [run[n].store.agents[a]], ts + [run[n].clock];
      actors := xs[..n - 1] + [ActorOf(act), AgentSm.AgentSelf];
      ExtendHistory(ds, ts, xs, run[n].store.agents[a], run[n].clock, ActorOf(act));
    }
  }

  lemma ExtendHistory(docs: seq<Agent>, times: seq<Time>, actors: seq<AgentSm.Actor>, y: Agent, t: Time, actor: AgentSm.Actor)
    requires IsHistory(docs, times, actors) && times[|times| - 1] <= t
    requires AgentEvolves(docs[|docs| - 1], y, actor, times[|times| - 1])
    ensures IsHistory(docs + [y], times + [t], actors[..|actors| - 1] + [actor, AgentSm.AgentSelf])
  {
    var ds, ts, xs := docs + [y], times + [t], actors[..|actors| - 1] + [actor, AgentSm.AgentSelf];
    forall n | 0 <= n < |ds| - 1 ensures ts[n] <= ts[n + 1] && AgentEvolves(ds[n], ds[n + 1], xs[n], ts[n]) {
      if n < |docs| - 1 {
        assert times[n] <= times[n + 1] && AgentEvolves(docs[n], docs[n + 1], actors[n], times[n]);
      }
    }
  }

  /** Time connected and in wrap-up is always part of the busy time, and nothing goes negative. */
  ghost predicate Sound(a: Agent) {
    && a.ledger.connected >= 0 && a.ledger.wrapUp >= 0 && a.ledger.available >= 0
    && a.ledger.connected + a.ledger.wrapUp <= a.ledger.busy
  }

  lemma {:induction false} LedgerIsSound(docs: seq<Agent>, times: seq<Time>, actors: seq<AgentSm.Actor>, n: nat)
    requires IsHistory(docs, times, actors) && n < |docs|
    ensures Sound(docs[n]) && docs[n].stateChangedAt <= times[n]
  {
    if n > 0 {
      LedgerIsSound(docs, times, actors, n - 1);
      assert times[n - 1] <= times[n - 1 + 1] && AgentEvolves(docs[n - 1], docs[n - 1 + 1], actors[n - 1], times[n - 1]);
    }
  }

  // Where the milliseconds go

  /** Charged to busy or to available. */
  function Counted(a: Agent): int {
    a.ledger.busy + a.ledger.available
  }

  /** What one write leaves uncounted: all the time it moves state_changed_at over without charging
      it. Negative when the write moves state_changed_at back. */
  ghost function SkippedBy(x: Agent, y: Agent): int {
    (y.stateChangedAt - x.stateChangedAt) - (Counted(y) - Counted(x))
  }

  ghost function Skipped(docs: seq<Agent>, n: nat): int
    requires n < |docs|
  {
    if n == 0 then 0 else Skipped(docs, n - 1) + SkippedBy(docs[n - 1], docs[n])
  }

  /** The write is an expired-lease release stamped before the agent's last state change. */
  ghost predicate IsLateRelease(x: Agent, y: Agent) {
    y.stateChangedAt < x.stateChangedAt
  }

  /** Only a late expired-lease release can skip a negative amount; it charges nothing, so what it
      skips is exactly its jump back. */
  lemma OnlyLateReleasesOvercount(x: Agent, y: Agent, actor: AgentSm.Actor, clock: Time)
    requires AgentEvolves(x, y, actor, clock) && x.stateChangedAt <= clock
    ensures SkippedBy(x, y) < 0 <==> IsLateRelease(x, y)
    ensures IsLateRelease(x, y) ==>
              actor.Recovery? && y.state.Available? && y.ledger == x.ledger
              && SkippedBy(x, y) == y.stateChangedAt - x.stateChangedAt
  {
  }

  /** Time goes uncounted in three ways only: nobody charges OFFLINE and PAUSED time, a claim does not
      charge the AVAILABLE time it ends, and an expired-lease release charges nothing. */
  lemma OnlyThreeWritesSkip(x: Agent, y: Agent, actor: AgentSm.Actor, clock: Time)
    requires AgentEvolves(x, y, actor, clock) && x.stateChangedAt <= clock && SkippedBy(x, y) != 0
    ensures (x.state.Offline? || x.state.Paused?) || (x.state.Available? && y.state.Reserved?)
            || (actor.Recovery? && y.state.Available? && y.ledger == x.ledger)
  {
  }

  /** Every millisecond between the first and the last state change is counted as busy,
      counted as available, or skipped by a write. */
  lemma {:induction false} TimeIsConserved(docs: seq<Agent>, n: nat)
    requires n < |docs| && docs[0].ledger == Ledger(0, 0, 0, 0)
    ensures Counted(docs[n]) + Skipped(docs, n) == docs[n].stateChangedAt - docs[0].stateChangedAt
  {
    if n > 0 {
      TimeIsConserved(docs, n - 1);
    }
  }

  /** By how much a write moves state_changed_at back: how late a late release is. */
  ghost function Lateness(x: Agent, y: Agent): nat {
    if IsLateRelease(x, y) then x.stateChangedAt - y.stateChangedAt else 0
  }

  ghost function TotalLateness(docs: seq<Agent>, n: nat): nat
    requires n < |docs|
  {
    if n == 0 then 0 else TotalLateness(docs, n - 1) + Lateness(docs[n - 1], docs[n])
  }

  /** In every history, counted time exceeds elapsed time by no more than the late releases were late
      in all. */
  lemma {:induction false} CountedWithinElapsed(docs: seq<Agent>, times: seq<Time>, actors: seq<AgentSm.Actor>, n: nat)
    requires IsHistory(docs, times, actors) && n < |docs|
    ensures Skipped(docs, n) + TotalLateness(docs, n) >= 0
    ensures Counted(docs[n]) <= docs[n].stateChangedAt - docs[0].stateChangedAt + TotalLateness(docs, n)
    ensures docs[n].stateChangedAt <= times[n]
  {
    LedgerIsSound(docs, times, actors, n);
    TimeIsConserved(docs, n);
    if n > 0 {
      CountedWithinElapsed(docs, times, actors, n - 1);
      LedgerIsSound(docs, times, actors, n - 1);
      assert AgentEvolves(docs[n - 1], docs[n - 1 + 1], actors[n - 1], times[n - 1]);
      OnlyLateReleasesOvercount(docs[n - 1], docs[n], actors[n - 1], times[n - 1]);
    }
  }

  /** How late the releases of agent a were in the first n steps of a run. */
  ghost function LatenessInRun(run: seq<World>, a: AgentId, n: nat): nat
    requires n < |run| && forall k | 0 <= k <= n :: a in run[k].store.agents
  {
    if n == 0 then 0
    else LatenessInRun(run, a, n - 1) + Lateness(run[n - 1].store.agents[a], run[n].store.agents[a])
  }

  lemma {:induction false} SameLateness(run: seq<World>, a: AgentId, docs: seq<Agent>, n: nat)
    requires n < |run| && n < |docs|
    requires forall k | 0 <= k <= n :: a in run[k].store.agents && docs[k] == run[k].store.agents[a]
    ensures LatenessInRun(run, a, n) == TotalLateness(docs, n)
  {
    if n > 0 {
      SameLateness(run, a, docs, n - 1);
    }
  }

  /** So in every fine run an agent is never counted for more time than has passed plus what its late
      releases were late; without one, never for more than has passed. */
  lemma CountedWithinElapsedInRuns(cfg: Config, caps: Caps, run: seq<World>, a: AgentId, n: nat)
    requires IsRun(cfg, caps, run) && a in run[0].store.agents && n < |run|
    ensures forall k | 0 <= k <= n :: a in run[k].store.agents
    ensures Counted(run[n].store.agents[a]) <= run[n].clock - run[0].store.agents[a].stateChangedAt + LatenessInRun(run, a, n)
    ensures Sound(run[n].store.agents[a])
  {
    var docs, times, actors := PrefixIsHistory(cfg, caps, run, a, n);
    CountedWithinElapsed(docs, times, actors, n);
    LedgerIsSound(docs, times, actors, n);
    SameLateness(run, a, docs, n);
  }

  /** The agent has been counted for no more than the time up to its last state change. */
  ghost predicate WithinBudget(a: Agent, created: Time) {
    Counted(a) <= a.stateChangedAt - created
  }

  /** Exactly when the sweep's release is safe for the time budget of every agent it may find: its
      timestamp must not be older than the agent's last state change. */
  lemma ReleaseKeepsBudgetIff(lease: Lease, state: AgentState, since: Time, now: Time, created: Time)
    requires lease.expiresAt < now && created <= since
    ensures (forall a: Agent, seen: Agent ::
               a.lease == Some(lease) && a.state == state && a.stateChangedAt == since && WithinBudget(a, created)
               && AgentRepo.ReleaseExpired(a, seen, now).Some?
               ==> WithinBudget(AgentRepo.ReleaseExpired(a, seen, now).value, created))
            <==> since <= now
  {
    if now < since {
      var full := Agent(0, state, 0, Some(lease), None, None, since, Ledger(since - created, 0, 0, 0));
      assert WithinBudget(full, created);
      assert AgentRepo.ReleaseExpired(full, full, now).Some?;
      assert !WithinBudget(AgentRepo.ReleaseExpired(full, full, now).value, created);
    }
  }

  /** The overcount is reachable: an agent reserved and dialled at t0, connected at t, released by a
      sweep that began at s between its lease's end and t, then paused at u, is counted for t - s
      more than the time that passed. */
  lemma LateReleaseOvercounts(a0: Agent, w: WorkerId, c: CallId, ttl: Time, t0: Time, s: Time, t: Time, u: Time)
    requires a0.state.Available? && a0.stateChangedAt == t0 && a0.ledger == Ledger(0, 0, 0, 0)
    requires t0 <= t0 + ttl < s <= t <= u
    ensures
      var a1 := AgentRepo.TryReserve(a0, a0.campaign, w, ttl, t0);
      && a1.Some?
      && var a2 := AgentRepo.TransitionAgent(a1.value, AgentState.Reserved, AgentState.Dialing, AgentSm.Allocator, a1.value.version, t0);
      && a2.Moved?
      && var a3 := AgentRepo.TransitionAgent(a2.agent, AgentState.Dialing, AgentState.Connected, AgentSm.EventProcessor, a2.agent.version, t);
      && a3.Moved?
      && var a4 := AgentRepo.ReleaseExpired(a3.agent, a3.agent, s);
      && a4.Some? && AgentRepo.LeaseExpired(a3.agent, s)
      && var a5 := AgentRepo.TransitionAgent(a4.value, AgentState.Available, AgentState.Paused, AgentSm.AgentSelf, a4.value.version, u);
      && a5.Moved?
      && Counted(a5.agent) == (u - t0) + (t - s)
  {
  }

  // Utilization

  predicate InDenominator(s: AgentState) {
    !s.Offline? && !s.Paused?
  }

  function ElapsedInState(a: Agent, now: Time): int {
    if !InDenominator(a.state) then 0 else if now - a.stateChangedAt > 0 then now - a.stateChangedAt else 0
  }

  datatype Totals = Totals(connected: int, productive: int, counted: int)

  function LiveTotals(a: Agent, now: Time): Totals {
    var elapsed := ElapsedInState(a, now);
    var connected := a.ledger.connected + (if a.state.Connected? then elapsed else 0);
    var wrapUp := a.ledger.wrapUp + (if a.state.WrapUp? then elapsed else 0);
    Totals(connected, connected + wrapUp, a.ledger.busy + a.ledger.available + elapsed)
  }

  /** The totals, state by state: the ledger, and the time in the current state where it counts. */
  lemma LiveTotalsByState(a: Agent, now: Time)
    ensures var l, t := a.ledger, LiveTotals(a, now);
            var run := if a.stateChangedAt < now then now - a.stateChangedAt else 0;
            && (a.state.Offline? || a.state.Paused? ==>
                  t == Totals(l.connected, l.connected + l.wrapUp, l.busy + l.available))
            && (a.state.Available? || a.state.Reserved? || a.state.Dialing? ==>
                  t == Totals(l.connected, l.connected + l.wrapUp, l.busy + l.available + run))
            && (a.state.Connected? ==>
                  t == Totals(l.connected + run, l.connected + l.wrapUp + run, l.busy + l.available + run))
            && (a.state.WrapUp? ==>
                  t == Totals(l.connected, l.connected + l.wrapUp + run, l.busy + l.available + run))
  {
  }

  function Ratio(numerator: int, denominator: int): Option<real> {
    if denominator <= 0 then None else Some(numerator as real / denominator as real)
  }

  function Sum(ts: seq<Totals>): Totals {
    if |ts| == 0 then Totals(0, 0, 0)
    else
      var r := Sum(ts[1..]);
      Totals(ts[0].connected + r.connected, ts[0].productive + r.productive, ts[0].counted + r.counted)
  }

  /** A ratio is given exactly for a positive denominator, and it is the quotient. */
  lemma RatioMeans(numerator: int, denominator: int)
    ensures Ratio(numerator, denominator).Some? <==> denominator > 0
    ensures denominator > 0 ==> Ratio(numerator, denominator).value * denominator as real == numerator as real
  {
  }

  /** The totals of two groups of agents add up. */
  lemma {:induction false} SumsAdd(ts: seq<Totals>, us: seq<Totals>)
    ensures var x, y := Sum(ts), Sum(us);
            Sum(ts + us) == Totals(x.connected + y.connected, x.productive + y.productive, x.counted + y.counted)
    ensures Sum([]) == Totals(0, 0, 0) && forall t: Totals :: Sum([t]) == t
  {
    forall t: Totals ensures Sum([t]) == t {
      assert [t][1..] == [];
    }
    if ts == [] {
      assert ts + us == us;
    } else {
      SumsAdd(ts[1..], us);
      assert (ts + us)[1..] == ts[1..] + us;
    }
  }

  /** The live totals do not jump when an agent changes state: what they showed as running in the old
      state is what the write charges. */
  lemma LiveTotalsAreContinuous(a: Agent, from: AgentState, to: AgentState, actor: AgentSm.Actor, version: nat, w: WorkerId, now: Time)
    requires a.stateChangedAt <= now
    ensures var r := AgentRepo.TransitionAgent(a, from, to, actor, version, now);
            r.Moved? ==> LiveTotals(r.agent, now) == LiveTotals(a, now)
    ensures var r := AgentRepo.Release(a, w, to, actor, now);
            r.Some? ==> LiveTotals(r.value, now) == LiveTotals(a, now)
  {
    if AgentRepo.Release(a, w, to, actor, now).Some? {
      AgentRepo.SwitchIsDirect(a, w, to, actor, now);
    }
  }

  /** Except at a claim, where the AVAILABLE time shown so far disappears from the denominator. */
  lemma ClaimForgetsAvailableTime(a: Agent, k: CampaignId, w: WorkerId, ttl: Time, now: Time)
    requires a.stateChangedAt <= now
    ensures var r := AgentRepo.TryReserve(a, k, w, ttl, now);
            r.Some? ==> LiveTotals(r.value, now) == LiveTotals(a, now).(counted := LiveTotals(a, now).counted - (now - a.stateChangedAt))
  {
  }

  datatype Utilization = Utilization(talk: Option<real>, productive: Option<real>)

  function CampaignUtilization(agents: seq<Agent>, now: Time): Utilization {
    var t := Sum(seq(|agents|, n requires 0 <= n < |agents| => LiveTotals(agents[n], now)));
    Utilization(Ratio(t.connected, t.counted), Ratio(t.productive, t.counted))
  }

  /** Talk time and productive time of all the agents together, as shares of their counted time. */
  lemma CampaignMeans(agents: seq<Agent>, now: Time)
    ensures var t := Sum(seq(|agents|, n requires 0 <= n < |agents| => LiveTotals(agents[n], now)));
            var u := CampaignUtilization(agents, now);
            && (u.talk.Some? <==> t.counted > 0) && (u.productive.Some? <==> t.counted > 0)
            && (t.counted > 0 ==>
                  && u.talk.value * t.counted as real == t.connected as real
                  && u.productive.value * t.counted as real == t.productive as real)
  {
    var t := Sum(seq(|agents|, n requires 0 <= n < |agents| => LiveTotals(agents[n], now)));
    RatioMeans(t.connected, t.counted);
    RatioMeans(t.productive, t.counted);
  }

  ghost predicate Ordered(t: Totals) {
    0 <= t.connected <= t.productive <= t.counted
  }

  ghost predicate IsShare(u: Utilization) {
    && (u.talk.Some? <==> u.productive.Some?)
    && (u.talk.Some? ==> 0.0 <= u.talk.value <= u.productive.value <= 1.0)
  }

  lemma {:induction false} SumIsOrdered(ts: seq<Totals>)
    requires forall n | 0 <= n < |ts| :: Ordered(ts[n])
    ensures Ordered(Sum(ts))
  {
    if |ts| > 0 {
      assert Ordered(ts[0]);
      SumIsOrdered(ts[1..]);
    }
  }

  lemma QuotientOrder(a: real, b: real, c: real)
    requires 0.0 <= a <= b <= c && c > 0.0
    ensures 0.0 <= a / c <= b / c <= 1.0
  {
    assert a / c * c == a && b / c * c == b;
  }

  lemma OrderedTotalsAreShares(t: Totals)
    requires Ordered(t)
    ensures IsShare(Utilization(Ratio(t.connected, t.counted), Ratio(t.productive, t.counted)))
  {
    if t.counted > 0 {
      QuotientOrder(t.connected as real, t.productive as real, t.counted as real);
    }
  }

  lemma SoundAgentsHaveShares(agents: seq<Agent>, now: Time)
    requires forall n | 0 <= n < |agents| :: Sound(agents[n])
    ensures IsShare(CampaignUtilization(agents, now))
  {
    var ts := seq(|agents|, n requires 0 <= n < |agents| => LiveTotals(agents[n], now));
    forall n | 0 <= n < |ts| ensures Ordered(ts[n]) {
      assert Sound(agents[n]);
    }
    SumIsOrdered(ts);
    OrderedTotalsAreShares(Sum(ts));
  }

  /** In every interleaving, for any selection of agents and any moment, talk utilization and
      productive utilization are shares with talk no larger than productive. Late releases do not
      matter here: they add to the denominator only. */
  lemma UtilizationIsAShareInEveryRun(cfg: Config, caps: Caps, run: seq<World>, n: nat, ids: seq<AgentId>, now: Time)
    requires IsRun(cfg, caps, run) && n < |run|
    requires forall i | 0 <= i < |ids| :: ids[i] in run[0].store.agents
    ensures forall i | 0 <= i < |ids| :: ids[i] in run[n].store.agents
    ensures IsShare(CampaignUtilization(
                      seq(|ids|, i requires 0 <= i < |ids| && ids[i] in run[n].store.agents => run[n].store.agents[ids[i]]), now))
  {
    forall i | 0 <= i < |ids| ensures ids[i] in run[n].store.agents && Sound(run[n].store.agents[ids[i]]) {
      var docs, times, actors := PrefixIsHistory(cfg, caps, run, ids[i], n);
      LedgerIsSound(docs, times, actors, n);
    }
    SoundAgentsHaveShares(
      seq(|ids|, i requires 0 <= i < |ids| && ids[i] in run[n].store.agents => run[n].store.agents[ids[i]]), now);
  }
}

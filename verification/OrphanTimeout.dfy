/**
 * The orphaned-call sweep against calls that are still being set up: what the configuration
 * inequality protects, and what it does not.
 */
module OrphanTimeout {
  import opened Wrappers
  import opened Enums
  import opened Documents
  import opened StoreOps
  import opened FineProtocol
  import opened FineDocuments
  import opened FineSafety
  import CallRepo
  import RecoveryItems

  /** check_recovery_timeout_invariant */
  predicate IsAccepted(cfg: Config, providerTimeout: Time) {
    cfg.staleTimeout > providerTimeout + cfg.ttl
  }

  /** The program accepts exactly the settings under which no call written at a claim or later is selected
      before the lease and then the provider's timeout have both run out, one after the other. */
  lemma AcceptedMeans(cfg: Config, providerTimeout: Time)
    ensures IsAccepted(cfg, providerTimeout) <==> providerTimeout + cfg.ttl < cfg.staleTimeout
    ensures IsAccepted(cfg, providerTimeout) <==>
            forall c: Call, t: Time ::
              IsLiveSince(c, t) ==> !IsSelected(cfg, c, t + cfg.ttl + providerTimeout + 1)
  {
    if !IsAccepted(cfg, providerTimeout) {
      var c := CallRepo.NewCall(Key(0, 0, 0, 1), 0, 0, 0);
      assert IsLiveSince(c, 0) && IsSelected(cfg, c, cfg.ttl + providerTimeout + 1);
    }
  }

  /** A live call last written at t or later. */
  predicate IsLiveSince(c: Call, t: Time) {
    !IsTerminal(c.state) && c.updatedAt >= t
  }

  /** The orphan sweep of a pass at now selects this call. */
  predicate IsSelected(cfg: Config, c: Call, now: Time) {
    CallRepo.IsStale(c, now - cfg.staleTimeout)
  }

  /** Step m wrote call c: it inserted the document or changed it. */
  ghost predicate Writes(run: seq<World>, m: nat, c: CallId)
    requires m + 1 < |run|
  {
    c in run[m + 1].store.calls && (c in run[m].store.calls ==> run[m + 1].store.calls[c] != run[m].store.calls[c])
  }

  lemma StepTimesCalls(cfg: Config, caps: Caps, w: World, w': World, act: Action, c: CallId)
    requires Next(cfg, caps, w, act) == Some(w')
    ensures c in w.store.calls ==> c in w'.store.calls
    ensures c in w'.store.calls && (c in w.store.calls ==> w'.store.calls[c] != w.store.calls[c]) ==>
              w'.store.calls[c].updatedAt == w.clock
  {
    StepKeepsCalls(cfg, caps, w, act);
    if c in w.store.calls {
      assert CallEvolves(w.store.calls[c], w'.store.calls[c], w.clock);
    }
  }

  /** What time does in one step: the clock does not turn back, no call disappears, and a written
      call carries the step's time. */
  ghost predicate TimedStep(run: seq<World>, n: nat, c: CallId)
    requires n + 1 < |run|
  {
    && run[n].clock <= run[n + 1].clock
    && (c in run[n].store.calls ==> c in run[n + 1].store.calls)
    && (Writes(run, n, c) ==> run[n + 1].store.calls[c].updatedAt == run[n].clock)
  }

  ghost predicate Timed(run: seq<World>, c: CallId) {
    forall n | 0 <= n < |run| - 1 :: TimedStep(run, n, c)
  }

  lemma RunsAreTimed(cfg: Config, caps: Caps, run: seq<World>, c: CallId)
    requires IsRun(cfg, caps, run)
    ensures Timed(run, c)
  {
    forall n | 0 <= n < |run| - 1 ensures TimedStep(run, n, c) {
      var act := ActionAt(cfg, caps, run, n);
      StepTakesTime(cfg, caps, run[n], act);
      StepTimesCalls(cfg, caps, run[n], run[n + 1], act, c);
    }
  }

  lemma {:induction false} ClockNeverTurnsBack(run: seq<World>, m: nat, n: nat, c: CallId)
    requires Timed(run, c) && m <= n < |run|
    ensures run[m].clock <= run[n].clock
    decreases n
  {
    if m < n {
      ClockNeverTurnsBack(run, m, n - 1, c);
      assert TimedStep(run, n - 1, c);
    }
  }

  /** A call's last write is never older than any of its writes: updated_at is at least the time of
      each step that wrote the call. */
  lemma {:induction false} UpdatedSince(run: seq<World>, m: nat, n: nat, c: CallId)
    requires Timed(run, c) && m < n < |run| && Writes(run, m, c)
    ensures c in run[n].store.calls && run[n].store.calls[c].updatedAt >= run[m].clock
    decreases n
  {
    assert TimedStep(run, n - 1, c);
    if m < n - 1 {
      UpdatedSince(run, m, n - 1, c);
      ClockNeverTurnsBack(run, m, n - 1, c);
    }
  }

  /** At n of the run, call c is still being set up by its own dial: inserted after a claim at step p
      whose lease lasts, or INITIATED at step r with the provider's timeout still running. */
  ghost predicate IsInSetup(cfg: Config, caps: Caps, run: seq<World>, providerTimeout: Time, p: nat, m: nat, r: nat, n: nat, c: CallId) {
    && IsRun(cfg, caps, run) && p <= m < n < |run| && r < n
    && Writes(run, m, c) && c !in run[m].store.calls
    && (run[n].clock <= run[p].clock + cfg.ttl
        || (Writes(run, r, c) && run[r + 1].store.calls[c].state.Initiated? && run[n].clock <= run[r].clock + providerTimeout))
  }

  /** No run selects, as orphaned, a call that its dial inserted and still sets up, if the stale timeout
      is neither less than the lease nor less than the provider's timeout. */
  lemma LiveSetupIsNeverStale(cfg: Config, caps: Caps, run: seq<World>, providerTimeout: Time, p: nat, m: nat, r: nat, n: nat, c: CallId)
    requires cfg.ttl <= cfg.staleTimeout && providerTimeout <= cfg.staleTimeout
    requires IsInSetup(cfg, caps, run, providerTimeout, p, m, r, n, c)
    ensures c in run[n].store.calls && !IsSelected(cfg, run[n].store.calls[c], run[n].clock)
  {
    RunsAreTimed(cfg, caps, run, c);
    UpdatedSince(run, m, n, c);
    ClockNeverTurnsBack(run, p, m, c);
    if run[n].clock > run[p].clock + cfg.ttl {
      UpdatedSince(run, r, n, c);
    }
  }

  /** The settings protect every dial that inserts its call, in every run. */
  ghost predicate ProtectsSetup(cfg: Config, providerTimeout: Time) {
    forall caps: Caps, run: seq<World>, p: nat, m: nat, r: nat, n: nat, c: CallId
      | IsInSetup(cfg, caps, run, providerTimeout, p, m, r, n, c) :: !SelectedAt(cfg, run[n], c)
  }

  // Calls that create_call found

  lemma {:induction false} UnwrittenOrRecent(run: seq<World>, p: nat, n: nat, c: CallId)
    requires Timed(run, c) && p <= n < |run| && c in run[p].store.calls
    ensures c in run[n].store.calls
    ensures run[n].store.calls[c].updatedAt == run[p].store.calls[c].updatedAt || run[n].store.calls[c].updatedAt >= run[p].clock
    decreases n
  {
    if p < n {
      UnwrittenOrRecent(run, p, n - 1, c);
      ClockNeverTurnsBack(run, p, n - 1, c);
      assert TimedStep(run, n - 1, c);
    }
  }

  /** In every run: a call that was last written late enough before a claim is not selected while the
      claim's lease lasts, whether the dial inserted it or found it. */
  lemma RecentCallOutlivesLease(cfg: Config, caps: Caps, run: seq<World>, p: nat, n: nat, c: CallId)
    requires IsRun(cfg, caps, run) && p <= n < |run| && c in run[p].store.calls && cfg.ttl <= cfg.staleTimeout
    requires run[p].store.calls[c].updatedAt >= run[p].clock + cfg.ttl - cfg.staleTimeout
    requires run[n].clock <= run[p].clock + cfg.ttl
    ensures c in run[n].store.calls && !IsSelected(cfg, run[n].store.calls[c], run[n].clock)
  {
    RunsAreTimed(cfg, caps, run, c);
    UnwrittenOrRecent(run, p, n, c);
  }

  ghost predicate SelectedAt(cfg: Config, w: World, c: CallId) {
    c in w.store.calls && IsSelected(cfg, w.store.calls[c], w.clock)
  }

  /** Some continuation of the run has the call selected within the lease of a claim made now. */
  ghost predicate CanBeSelected(cfg: Config, caps: Caps, run: seq<World>, c: CallId)
    requires |run| > 0
  {
    exists longer: seq<World>, n: nat ::
      IsRun(cfg, caps, longer) && run <= longer && |run| - 1 <= n < |longer|
      && longer[n].clock <= run[|run| - 1].clock + cfg.ttl && SelectedAt(cfg, longer[n], c)
  }

  lemma WaitingIsAStep(cfg: Config, caps: Caps, run: seq<World>, t: Time)
    requires IsRun(cfg, caps, run) && t >= run[|run| - 1].clock
    ensures IsRun(cfg, caps, run + [run[|run| - 1].(clock := t)])
  {
    var longer := run + [run[|run| - 1].(clock := t)];
    forall n | 0 <= n < |longer| - 1 ensures Step(cfg, caps, longer[n], longer[n + 1]) {
      if n < |run| - 1 {
        assert Step(cfg, caps, run[n], run[n + 1]);
      } else {
        assert Next(cfg, caps, longer[n], Tick(t)) == Some(longer[n + 1]);
      }
    }
  }

  lemma RecentCallIsNeverSelected(cfg: Config, caps: Caps, run: seq<World>, c: CallId)
    requires IsRun(cfg, caps, run) && cfg.ttl <= cfg.staleTimeout && c in run[|run| - 1].store.calls
    requires var w := run[|run| - 1]; w.store.calls[c].updatedAt >= w.clock + cfg.ttl - cfg.staleTimeout
    ensures !CanBeSelected(cfg, caps, run, c)
  {
    if CanBeSelected(cfg, caps, run, c) {
      var longer: seq<World>, n: nat :|
        IsRun(cfg, caps, longer) && run <= longer && |run| - 1 <= n < |longer|
        && longer[n].clock <= run[|run| - 1].clock + cfg.ttl && SelectedAt(cfg, longer[n], c);
      assert longer[|run| - 1] == run[|run| - 1];
      RecentCallOutlivesLease(cfg, caps, longer, |run| - 1, n, c);
    }
  }

  /** Nothing but waiting is needed. */
  lemma OldCallCanBeSelected(cfg: Config, caps: Caps, run: seq<World>, c: CallId)
    requires IsRun(cfg, caps, run) && cfg.ttl >= 0
    requires var w := run[|run| - 1];
             && c in w.store.calls && !IsTerminal(w.store.calls[c].state)
             && w.store.calls[c].updatedAt < w.clock + cfg.ttl - cfg.staleTimeout
    ensures CanBeSelected(cfg, caps, run, c)
  {
    var w := run[|run| - 1];
    var longer := run + [w.(clock := w.clock + cfg.ttl)];
    WaitingIsAStep(cfg, caps, run, w.clock + cfg.ttl);
    assert run <= longer && SelectedAt(cfg, longer[|run|], c);
  }

  /** At any point of any run, a live call that a dial finds is safe throughout the lease of a claim
      made there, in every continuation, exactly when it was last written late enough. That is what
      create_call can check before it hands an older call out. */
  lemma FoundCallIsSafeIff(cfg: Config, caps: Caps, run: seq<World>, c: CallId)
    requires IsRun(cfg, caps, run) && 0 <= cfg.ttl <= cfg.staleTimeout
    requires var w := run[|run| - 1]; c in w.store.calls && !IsTerminal(w.store.calls[c].state)
    ensures !CanBeSelected(cfg, caps, run, c) <==>
            var w := run[|run| - 1]; w.store.calls[c].updatedAt >= w.clock + cfg.ttl - cfg.staleTimeout
  {
    var w := run[|run| - 1];
    if w.store.calls[c].updatedAt >= w.clock + cfg.ttl - cfg.staleTimeout {
      RecentCallIsNeverSelected(cfg, caps, run, c);
    } else {
      OldCallCanBeSelected(cfg, caps, run, c);
    }
  }

  /** With 30 s leases, a 5 s provider timeout and the default 120 s: a worker died at 0 just after
      create_call; 100 s later another worker claims the same pair and finds the old call; 21 s into
      its lease the sweep selects the call and the dial under way loses it. */
  lemma FoundCallIsSwept(cfg: Config, s: Store, key: Key, c: CallId)
    requires cfg.ttl == 30000 && cfg.staleTimeout == 120000
    requires c in s.calls && s.calls[c] == CallRepo.NewCall(key, 0, 1, 0) && key in s.byKey && s.byKey[key] == c
    ensures IsAccepted(cfg, 5000)
    ensures CallRepo.CreateCall(s, key, 0, 2, c + 1, 100000) == (s, c)
    ensures 121000 <= 100000 + cfg.ttl && IsSelected(cfg, s.calls[c], 121000)
    ensures var swept := RecoveryItems.OrphanItem(cfg, s, c, CallState.Failed, 121000, 1);
            TransitionCall(swept, c, CallState.Initiated, 121000).None?
  {
    var swept := RecoveryItems.OrphanItem(cfg, s, c, CallState.Failed, 121000, 1);
    assert swept.calls[c].state.Failed?;
  }
}

/**
 * One borrower over a whole run. A history is the sequence of states its document goes through in
 * some fine-grained interleaving, with the clock at each step.
 */
module BorrowerHistory {
  import opened Wrappers
  import opened Enums
  import opened Documents
  import opened FineProtocol
  import opened FineDocuments
  import FineSafety
  import BorrowerRepo

  ghost predicate IsHistory(cfg: Config, docs: seq<Borrower>, times: seq<Time>) {
    && |docs| == |times| > 0
    && docs[0].lease.None? && docs[0].version == 0 && docs[0].attempts == 0
    && !docs[0].status.Reserved? && !docs[0].status.InCall?
    && (forall n | 0 <= n < |docs| - 1 :: times[n] <= times[n + 1])
    && (forall n | 0 <= n < |docs| - 1 :: BorrowerEvolves(cfg, docs[n], docs[n + 1], times[n]))
  }

  ghost function Docs(run: seq<World>, b: BorrowerId): seq<Borrower>
    requires forall n | 0 <= n < |run| :: b in run[n].store.borrowers
  {
    seq(|run|, n requires 0 <= n < |run| => run[n].store.borrowers[b])
  }

  ghost function Times(run: seq<World>): seq<Time> {
    seq(|run|, n requires 0 <= n < |run| => run[n].clock)
  }

  lemma StepOfRun(cfg: Config, caps: Caps, run: seq<World>, b: BorrowerId, n: nat)
    requires IsRun(cfg, caps, run) && n < |run| - 1 && b in run[n].store.borrowers
    ensures b in run[n + 1].store.borrowers && run[n].clock <= run[n + 1].clock
    ensures BorrowerEvolves(cfg, run[n].store.borrowers[b], run[n + 1].store.borrowers[b], run[n].clock)
  {
    var act := FineSafety.ActionAt(cfg, caps, run, n);
    StepKeepsBorrower(cfg, caps, run[n], act, b);
    StepTakesTime(cfg, caps, run[n], act);
  }

  lemma {:induction false} BorrowerStays(cfg: Config, caps: Caps, run: seq<World>, b: BorrowerId, n: nat)
    requires IsRun(cfg, caps, run) && b in run[0].store.borrowers && n < |run|
    ensures b in run[n].store.borrowers
  {
    if n > 0 {
      BorrowerStays(cfg, caps, run, b, n - 1);
      StepOfRun(cfg, caps, run, b, n - 1);
    }
  }

  /** Every fine-grained run, seen from one borrower document, is a history. */
  lemma RunIsHistory(cfg: Config, caps: Caps, run: seq<World>, b: BorrowerId)
    requires IsRun(cfg, caps, run) && b in run[0].store.borrowers
    ensures forall n | 0 <= n < |run| :: b in run[n].store.borrowers
    ensures IsHistory(cfg, Docs(run, b), Times(run))
  {
    forall n | 0 <= n < |run| ensures b in run[n].store.borrowers {
      BorrowerStays(cfg, caps, run, b, n);
    }
    var docs, times := Docs(run, b), Times(run);
    forall n | 0 <= n < |docs| - 1
      ensures times[n] <= times[n + 1] && BorrowerEvolves(cfg, docs[n], docs[n + 1], times[n])
    {
      StepOfRun(cfg, caps, run, b, n);
    }
  }

  /** Successful reservations among the first n steps. */
  ghost function Reservations(docs: seq<Borrower>, n: nat): nat
    requires n < |docs|
  {
    if n == 0 then 0
    else Reservations(docs, n - 1) + (if docs[n - 1].status.Pending? && docs[n].status.Reserved? then 1 else 0)
  }

  /** The version counts reservations and their ends, so its parity says whether one is open; every
      counted attempt used up a reservation; and IN_CALL is never written. */
  lemma {:induction false} VersionTracksReservations(cfg: Config, docs: seq<Borrower>, times: seq<Time>, n: nat)
    requires IsHistory(cfg, docs, times) && n < |docs|
    ensures docs[n].status.Reserved? <==> docs[n].version % 2 == 1
    ensures docs[n].status.Reserved? <==> docs[n].lease.Some?
    ensures !docs[n].status.InCall?
    ensures docs[n].version == 2 * Reservations(docs, n) - (if docs[n].status.Reserved? then 1 else 0)
    ensures docs[n].attempts + (if docs[n].status.Reserved? then 1 else 0) <= Reservations(docs, n)
  {
    if n > 0 {
      VersionTracksReservations(cfg, docs, times, n - 1);
      assert BorrowerEvolves(cfg, docs[n - 1], docs[n - 1 + 1], times[n - 1]);
    }
  }

  /** Who can still be dialled has attempts left. */
  lemma {:induction false} AttemptsStayBelowMax(cfg: Config, docs: seq<Borrower>, times: seq<Time>, n: nat)
    requires IsHistory(cfg, docs, times) && n < |docs| && cfg.maxAttempts >= 1
    ensures docs[n].status.Pending? || docs[n].status.Reserved? ==> docs[n].attempts < cfg.maxAttempts
    ensures docs[n].attempts <= cfg.maxAttempts
  {
    if n > 0 {
      AttemptsStayBelowMax(cfg, docs, times, n - 1);
      VersionTracksReservations(cfg, docs, times, n - 1);
      assert BorrowerEvolves(cfg, docs[n - 1], docs[n - 1 + 1], times[n - 1]);
    }
  }

  /** EXHAUSTED and CONTACTED (and any status outside the protocol) are final: no write of any
      interleaving touches the document again. */
  lemma {:induction false} FinalStatusIsAbsorbing(cfg: Config, docs: seq<Borrower>, times: seq<Time>, n: nat, m: nat)
    requires IsHistory(cfg, docs, times) && n <= m < |docs|
    requires !docs[n].status.Pending? && !docs[n].status.Reserved?
    ensures docs[m] == docs[n]
  {
    VersionTracksReservations(cfg, docs, times, n);
    if n < m {
      FinalStatusIsAbsorbing(cfg, docs, times, n, m - 1);
      assert BorrowerEvolves(cfg, docs[m - 1], docs[m - 1 + 1], times[m - 1]);
    }
  }

  /** The same for the worlds of every fine run. */
  lemma BorrowersInRuns(cfg: Config, caps: Caps, run: seq<World>, b: BorrowerId, n: nat, m: nat)
    requires IsRun(cfg, caps, run) && b in run[0].store.borrowers && n <= m < |run| && cfg.maxAttempts >= 1
    ensures b in run[n].store.borrowers && b in run[m].store.borrowers
    ensures var x := run[n].store.borrowers[b];
            && (x.status.Reserved? <==> x.version % 2 == 1) && (x.status.Reserved? <==> x.lease.Some?) && !x.status.InCall?
            && (x.status.Pending? || x.status.Reserved? ==> x.attempts < cfg.maxAttempts) && x.attempts <= cfg.maxAttempts
            && 2 * x.attempts <= x.version
            && (!x.status.Pending? && !x.status.Reserved? ==> run[m].store.borrowers[b] == x)
  {
    RunIsHistory(cfg, caps, run, b);
    DocsInRuns(cfg, run, b, n, m);
  }

  lemma DocsInRuns(cfg: Config, run: seq<World>, b: BorrowerId, n: nat, m: nat)
    requires (forall k | 0 <= k < |run| :: b in run[k].store.borrowers) && n <= m < |run| && cfg.maxAttempts >= 1
    requires IsHistory(cfg, Docs(run, b), Times(run))
    ensures var x := run[n].store.borrowers[b];
            && (x.status.Reserved? <==> x.version % 2 == 1) && (x.status.Reserved? <==> x.lease.Some?) && !x.status.InCall?
            && (x.status.Pending? || x.status.Reserved? ==> x.attempts < cfg.maxAttempts) && x.attempts <= cfg.maxAttempts
            && 2 * x.attempts <= x.version
            && (!x.status.Pending? && !x.status.Reserved? ==> run[m].store.borrowers[b] == x)
  {
    var docs, times := Docs(run, b), Times(run);
    VersionTracksReservations(cfg, docs, times, n);
    AttemptsStayBelowMax(cfg, docs, times, n);
    if !docs[n].status.Pending? && !docs[n].status.Reserved? {
      FinalStatusIsAbsorbing(cfg, docs, times, n, m);
    }
  }

  // Backoff

  /** Delay accumulated by the first k retries: base * (2^k - 1). */
  ghost function Backoff(base: Time, k: nat): Time {
    base * (BorrowerRepo.Power(k) - 1)
  }

  lemma BackoffGrows(base: Time, k: nat)
    ensures Backoff(base, k) + base * BorrowerRepo.Power(k) == Backoff(base, k + 1)
  {
    var p: int := BorrowerRepo.Power(k);
    assert base * (2 * p - 1) == base * (p - 1) + base * p;
  }

  /** After the first counted attempt, at time first, the document cannot be reserved again before
      the whole backoff so far has passed. */
  ghost predicate Waits(cfg: Config, b: Borrower, first: Time, now: Time) {
    b.attempts >= 1
    && (b.status.Pending? || b.status.Reserved? ==> b.nextEligibleAt >= first + Backoff(cfg.backoffBase, b.attempts))
    && (b.status.Reserved? ==>
          b.lease.Some? && b.nextEligibleAt <= b.lease.value.reservedAt <= now
          && b.lease.value.reservedAt <= b.lease.value.expiresAt)
  }

  lemma RetryWaits(cfg: Config, b: Borrower, first: Time, now: Time)
    requires Waits(cfg, b, first, now) && b.status.Reserved?
    ensures now >= first + Backoff(cfg.backoffBase, b.attempts)
    ensures BorrowerRepo.RetryUpdate(b, cfg.maxAttempts, cfg.backoffBase, now).nextEligibleAt
            >= first + Backoff(cfg.backoffBase, b.attempts + 1)
  {
    BackoffGrows(cfg.backoffBase, b.attempts);
  }

  lemma StepWaits(cfg: Config, x: Borrower, y: Borrower, first: Time, clock: Time, clock': Time)
    requires cfg.ttl >= 0 && clock <= clock'
    requires Waits(cfg, x, first, clock) && BorrowerEvolves(cfg, x, y, clock) && !x.status.InCall?
    ensures Waits(cfg, y, first, clock')
  {
    if x.status.Reserved? {
      RetryWaits(cfg, x, first, clock);
    }
  }

  lemma {:induction false} HistoryWaits(cfg: Config, docs: seq<Borrower>, times: seq<Time>, i: nat, n: nat)
    requires IsHistory(cfg, docs, times) && cfg.ttl >= 0 && i < n < |docs|
    requires docs[i].attempts == 0 && docs[i + 1].attempts == 1
    ensures Waits(cfg, docs[n], times[i], times[n])
  {
    if n == i + 1 {
      assert BorrowerEvolves(cfg, docs[i], docs[i + 1], times[i]);
      assert BorrowerRepo.Power(1) == 2 * BorrowerRepo.Power(0);
    } else {
      HistoryWaits(cfg, docs, times, i, n - 1);
      VersionTracksReservations(cfg, docs, times, n - 1);
      assert BorrowerEvolves(cfg, docs[n - 1], docs[n - 1 + 1], times[n - 1]);
      assert times[n - 1] <= times[n - 1 + 1];
      StepWaits(cfg, docs[n - 1], docs[n], times[i], times[n - 1], times[n]);
    }
  }

  /** A borrower runs out of attempts no sooner than base * (2^(MAX-1) - 1) after the first one was
      counted, whatever releases and lease reclaims happen in between. */
  lemma ExhaustionTakesTheWholeBackoff(cfg: Config, docs: seq<Borrower>, times: seq<Time>, i: nat, m: nat)
    requires IsHistory(cfg, docs, times) && cfg.ttl >= 0 && cfg.maxAttempts >= 1 && i <= m && m + 1 < |docs|
    requires docs[i].attempts == 0 && docs[i + 1].attempts == 1
    requires !docs[m].status.Exhausted? && docs[m + 1].status.Exhausted?
    ensures docs[m + 1].attempts == cfg.maxAttempts
    ensures times[m] >= times[i] + Backoff(cfg.backoffBase, cfg.maxAttempts - 1)
  {
    assert BorrowerEvolves(cfg, docs[m], docs[m + 1], times[m]);
    AttemptsStayBelowMax(cfg, docs, times, m);
    AttemptsStayBelowMax(cfg, docs, times, m + 1);
    VersionTracksReservations(cfg, docs, times, m);
    if m > i {
      HistoryWaits(cfg, docs, times, i, m);
      RetryWaits(cfg, docs[m], times[i], times[m]);
    } else {
      assert BorrowerRepo.Power(0) == 1;
    }
  }

  /** The same bound, stated of the worlds of a run. */
  lemma ExhaustionInRuns(cfg: Config, caps: Caps, run: seq<World>, b: BorrowerId, i: nat, m: nat)
    requires IsRun(cfg, caps, run) && cfg.ttl >= 0 && cfg.maxAttempts >= 1 && i <= m && m + 1 < |run|
    requires forall n | 0 <= n < |run| :: b in run[n].store.borrowers
    requires run[i].store.borrowers[b].attempts == 0 && run[i + 1].store.borrowers[b].attempts == 1
    requires !run[m].store.borrowers[b].status.Exhausted? && run[m + 1].store.borrowers[b].status.Exhausted?
    ensures run[m].clock >= run[i].clock + Backoff(cfg.backoffBase, cfg.maxAttempts - 1)
  {
    RunIsHistory(cfg, caps, run, b);
    ExhaustionOfDocs(cfg, run, b, i, m);
  }

  lemma ExhaustionOfDocs(cfg: Config, run: seq<World>, b: BorrowerId, i: nat, m: nat)
    requires cfg.ttl >= 0 && cfg.maxAttempts >= 1 && i <= m && m + 1 < |run|
    requires forall n | 0 <= n < |run| :: b in run[n].store.borrowers
    requires IsHistory(cfg, Docs(run, b), Times(run))
    requires run[i].store.borrowers[b].attempts == 0 && run[i + 1].store.borrowers[b].attempts == 1
    requires !run[m].store.borrowers[b].status.Exhausted? && run[m + 1].store.borrowers[b].status.Exhausted?
    ensures run[m].clock >= run[i].clock + Backoff(cfg.backoffBase, cfg.maxAttempts - 1)
  {
    ExhaustionTakesTheWholeBackoff(cfg, Docs(run, b), Times(run), i, m);
  }
}

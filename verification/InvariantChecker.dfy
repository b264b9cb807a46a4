/** The program's own run-time invariant checker, and why it stays silent. */
module InvariantChecker {
  import opened Documents
  import opened Database
  import opened Queries
  import opened MacroProtocol
  import opened MacroSafety
  import opened MacroRuns
  import opened MacroOrphans
  import CallRepo
  import Sets

  /** What the checker looks at of an active call. */
  datatype ActiveCall = ActiveCall(id: CallId, agent: AgentId, borrower: BorrowerId)

  datatype KeyName = ByAgent | ByBorrower

  datatype Offender = Offender(identifier: nat, earlier: CallId, later: CallId)

  datatype Violation =
    | AgentDoubleBooked(offenders: seq<Offender>)
    | BorrowerDoubleBooked(offenders: seq<Offender>)
    | CallsExceedAgents(calls: nat, usable: nat)
    | StaleCall(ids: seq<CallId>)
    | StuckReservation(agents: nat)

  function IdOf(c: ActiveCall, name: KeyName): nat {
    if name.ByAgent? then c.agent else c.borrower
  }

  /** The identifiers among the first n calls. */
  ghost function IdsOf(calls: seq<ActiveCall>, n: nat, name: KeyName): set<nat>
    requires n <= |calls|
  {
    if n == 0 then {} else IdsOf(calls, n - 1, name) + {IdOf(calls[n - 1], name)}
  }

  lemma {:induction false} IdsAreSeen(calls: seq<ActiveCall>, n: nat, name: KeyName, id: nat)
    requires n <= |calls|
    ensures id in IdsOf(calls, n, name) <==> exists i | 0 <= i < n :: IdOf(calls[i], name) == id
  {
    if n > 0 {
      IdsAreSeen(calls, n - 1, name, id);
    }
  }

  ghost predicate DifferUpTo(calls: seq<ActiveCall>, n: nat, name: KeyName)
    requires n <= |calls|
  {
    forall i, j | 0 <= i < j < n :: IdOf(calls[i], name) != IdOf(calls[j], name)
  }

  ghost predicate AllDiffer(calls: seq<ActiveCall>, name: KeyName) {
    DifferUpTo(calls, |calls|, name)
  }

  /** An offender names two listed calls with the same identifier, the later one after the earlier. */
  ghost predicate Accuses(calls: seq<ActiveCall>, name: KeyName, o: Offender) {
    exists i, j | 0 <= i < j < |calls| ::
      IdOf(calls[i], name) == o.identifier == IdOf(calls[j], name) && calls[i].id == o.earlier && calls[j].id == o.later
  }

  /** Each identifier in the dict was last set by one of the first n calls. */
  ghost predicate Remembers(calls: seq<ActiveCall>, n: nat, name: KeyName, seen: map<nat, CallId>)
    requires n <= |calls|
  {
    forall id <- seen :: WasSeen(calls, n, name, id, seen[id])
  }

  ghost predicate WasSeen(calls: seq<ActiveCall>, n: nat, name: KeyName, id: nat, call: CallId)
    requires n <= |calls|
  {
    exists j | 0 <= j < n :: IdOf(calls[j], name) == id && calls[j].id == call
  }

  lemma RemembersOneMore(calls: seq<ActiveCall>, n: nat, name: KeyName, seen: map<nat, CallId>)
    requires n < |calls| && Remembers(calls, n, name, seen)
    ensures Remembers(calls, n + 1, name, seen[IdOf(calls[n], name) := calls[n].id])
  {
    var seen' := seen[IdOf(calls[n], name) := calls[n].id];
    forall id <- seen' ensures WasSeen(calls, n + 1, name, id, seen'[id]) {
      if id != IdOf(calls[n], name) {
        assert WasSeen(calls, n, name, id, seen[id]);
      }
    }
  }

  lemma SeenBeforeAccuses(calls: seq<ActiveCall>, n: nat, name: KeyName, call: CallId)
    requires n < |calls| && WasSeen(calls, n, name, IdOf(calls[n], name), call)
    ensures Accuses(calls, name, Offender(IdOf(calls[n], name), call, calls[n].id))
  {
  }

  ghost predicate AllAccuse(calls: seq<ActiveCall>, name: KeyName, offenders: seq<Offender>) {
    forall n | 0 <= n < |offenders| :: Accuses(calls, name, offenders[n])
  }

  lemma OneMoreOffender(calls: seq<ActiveCall>, name: KeyName, offenders: seq<Offender>, o: Offender)
    requires AllAccuse(calls, name, offenders) && Accuses(calls, name, o)
    ensures AllAccuse(calls, name, offenders + [o])
  {
    forall n | 0 <= n < |offenders + [o]| ensures Accuses(calls, name, (offenders + [o])[n]) {
      if n < |offenders| {
        assert (offenders + [o])[n] == offenders[n];
      }
    }
  }

  lemma OneMoreCall(calls: seq<ActiveCall>, n: nat, name: KeyName)
    requires n < |calls|
    ensures DifferUpTo(calls, n + 1, name) <==>
            DifferUpTo(calls, n, name) && IdOf(calls[n], name) !in IdsOf(calls, n, name)
  {
    IdsAreSeen(calls, n, name, IdOf(calls[n], name));
  }

  lemma KeysOneMore(seen: map<nat, CallId>, id: nat, call: CallId)
    ensures seen[id := call].Keys == seen.Keys + {id}
    ensures |seen[id := call].Keys| == |seen.Keys| + (if id in seen then 0 else 1)
  {
    assert seen[id := call].Keys == seen.Keys + {id};
  }

  lemma KnownCallAccuses(calls: seq<ActiveCall>, n: nat, name: KeyName, seen: map<nat, CallId>, offenders: seq<Offender>)
    requires n < |calls| && Remembers(calls, n, name, seen) && IdOf(calls[n], name) in seen
    requires AllAccuse(calls, name, offenders)
    ensures AllAccuse(calls, name, offenders + [Offender(IdOf(calls[n], name), seen[IdOf(calls[n], name)], calls[n].id)])
  {
    var id := IdOf(calls[n], name);
    assert WasSeen(calls, n, name, id, seen[id]);
    SeenBeforeAccuses(calls, n, name, seen[id]);
    OneMoreOffender(calls, name, offenders, Offender(id, seen[id], calls[n].id));
  }

  /** The loop invariant of the scan. */
  ghost predicate Scanned(calls: seq<ActiveCall>, n: nat, name: KeyName, seen: map<nat, CallId>, offenders: seq<Offender>)
    requires n <= |calls|
  {
    && seen.Keys == IdsOf(calls, n, name)
    && |offenders| + |seen.Keys| == n
    && Remembers(calls, n, name, seen)
    && AllAccuse(calls, name, offenders)
  }

  lemma ScannedOneMore(calls: seq<ActiveCall>, n: nat, name: KeyName, seen: map<nat, CallId>, offenders: seq<Offender>)
    requires n < |calls| && Scanned(calls, n, name, seen, offenders)
    ensures var id := IdOf(calls[n], name);
            Scanned(calls, n + 1, name, seen[id := calls[n].id],
                    if id in seen then offenders + [Offender(id, seen[id], calls[n].id)] else offenders)
  {
    var id := IdOf(calls[n], name);
    RemembersOneMore(calls, n, name, seen);
    KeysOneMore(seen, id, calls[n].id);
    if id in seen {
      KnownCallAccuses(calls, n, name, seen, offenders);
    }
  }

  /** The inner loop of _check_duplicate_bindings: one offender for every call whose identifier was
      seen before. */
  method FindOffenders(calls: seq<ActiveCall>, name: KeyName) returns (offenders: seq<Offender>)
    ensures |offenders| + |IdsOf(calls, |calls|, name)| == |calls|
    ensures |offenders| == Clashes(calls, name)
    ensures offenders == [] <==> AllDiffer(calls, name)
    ensures AllAccuse(calls, name, offenders)
  {
    var seen: map<nat, CallId> := map[];
    offenders := [];
    for i := 0 to |calls|
      invariant Scanned(calls, i, name, seen, offenders)
    {
      var id := IdOf(calls[i], name);
      ScannedOneMore(calls, i, name, seen, offenders);
      if id in seen {
        offenders := offenders + [Offender(id, seen[id], calls[i].id)];
      }
      seen := seen[id := calls[i].id];
    }
    FullCountMeansDistinct(calls, |calls|, name);
  }

  /** A reported violation names what was found. */
  ghost predicate Names(calls: seq<ActiveCall>, usableAgents: nat, v: Violation) {
    match v
    case AgentDoubleBooked(o) => AllAccuse(calls, ByAgent, o) && |o| == Clashes(calls, ByAgent) > 0
    case BorrowerDoubleBooked(o) => AllAccuse(calls, ByBorrower, o) && |o| == Clashes(calls, ByBorrower) > 0
    case CallsExceedAgents(n, usable) => n == |calls| > usable == usableAgents
    case _ => false
  }

  /** Duplicates by agent, by borrower, then capacity. */
  method CheckCalls(calls: seq<ActiveCall>, usableAgents: nat) returns (violations: seq<Violation>)
    ensures forall v <- violations :: Names(calls, usableAgents, v)
    ensures (exists v <- violations :: v.AgentDoubleBooked?) <==> !AllDiffer(calls, ByAgent)
    ensures (exists v <- violations :: v.BorrowerDoubleBooked?) <==> !AllDiffer(calls, ByBorrower)
    ensures (exists v <- violations :: v.CallsExceedAgents?) <==> |calls| > usableAgents
  {
    violations := [];
    var byAgent := FindOffenders(calls, ByAgent);
    if byAgent != [] {
      violations := violations + [AgentDoubleBooked(byAgent)];
      assert violations[|violations| - 1].AgentDoubleBooked?;
    }
    var byBorrower := FindOffenders(calls, ByBorrower);
    if byBorrower != [] {
      violations := violations + [BorrowerDoubleBooked(byBorrower)];
      assert violations[|violations| - 1].BorrowerDoubleBooked?;
    }
    if |calls| > usableAgents {
      violations := violations + [CallsExceedAgents(|calls|, usableAgents)];
      assert violations[|violations| - 1].CallsExceedAgents?;
    }
  }

  /** What find_active may return: distinct non-terminal, non-QUEUED calls of the campaign. */
  ghost predicate IsListing(s: Store, k: CampaignId, calls: seq<ActiveCall>) {
    && (forall i | 0 <= i < |calls| ::
          && calls[i].id in s.calls && CallRepo.IsActive(s.calls[calls[i].id])
          && s.calls[calls[i].id].key.campaign == k
          && s.calls[calls[i].id].key.agent == calls[i].agent && s.calls[calls[i].id].key.borrower == calls[i].borrower)
    && (forall i, j | 0 <= i < j < |calls| :: calls[i].id != calls[j].id)
  }

  function UsableOf(s: Store, k: CampaignId): set<AgentId> {
    set a <- s.agents | s.agents[a].campaign == k && IsUsable(s.agents[a])
  }

  /** Usable are the campaign's agents that are there to take calls or on one. */
  lemma UsableAre(s: Store, k: CampaignId, a: AgentId)
    requires a in s.agents
    ensures var x := s.agents[a].state;
            a in UsableOf(s, k) <==>
            s.agents[a].campaign == k && (x.Available? || x.Reserved? || x.Dialing? || x.Connected? || x.WrapUp?)
  {
  }

  // The final state

  /** The final-state find asks for stale calls of every campaign, this many at most. */
  const FINAL_LIMIT: nat := 50

  /** The limit of find_active. */
  const ACTIVE_LIMIT: nat := 5000

  function StaleCallsOf(s: Store, k: CampaignId, cutoff: Time): set<CallId> {
    set c <- StaleCalls(s, cutoff) | s.calls[c].key.campaign == k
  }

  /** The found calls of one campaign, in the order found. */
  method OfCampaign(s: Store, found: seq<CallId>, k: CampaignId) returns (own: seq<CallId>)
    requires Ids(found) <= s.calls.Keys
    ensures Ids(own) == set c <- Ids(found) | s.calls[c].key.campaign == k
  {
    own := [];
    for i := 0 to |found|
      invariant forall c :: c in Ids(own) <==> exists j | 0 <= j < i :: found[j] == c && s.calls[c].key.campaign == k
    {
      assert found[i] in Ids(found);
      if s.calls[found[i]].key.campaign == k {
        AppendedIds(own, found[i]);
        own := own + [found[i]];
      }
    }
  }

  lemma AppendedIds(ids: seq<nat>, id: nat)
    ensures Ids(ids + [id]) == Ids(ids) + {id}
  {
    var more := ids + [id];
    assert more[|ids|] == id;
    forall x <- Ids(ids) ensures x in Ids(more) {
      var i :| 0 <= i < |ids| && ids[i] == x;
      assert more[i] == x;
    }
  }

  /** A find that may show none of this campaign's stale calls although there are some. */
  ghost predicate CanHide(s: Store, k: CampaignId, cutoff: Time, limit: nat) {
    exists found: set<CallId> ::
      found <= StaleCalls(s, cutoff) && |found| == Min(limit, |StaleCalls(s, cutoff)|) && found !! StaleCallsOf(s, k, cutoff)
  }

  lemma {:induction false} SubsetOfSize(xs: set<nat>, n: nat) returns (ys: set<nat>)
    requires n <= |xs|
    ensures ys <= xs && |ys| == n
  {
    if n == 0 {
      ys := {};
    } else {
      var x :| x in xs;
      ys := SubsetOfSize(xs - {x}, n - 1);
      ys := ys + {x};
    }
  }

  /** The limit cuts in before the campaign filter does, so the final state can miss stale calls of a
      campaign exactly when the other campaigns alone have enough stale calls to fill the find. */
  lemma StaleCallsHideIff(s: Store, k: CampaignId, cutoff: Time, limit: nat)
    requires StaleCallsOf(s, k, cutoff) != {}
    ensures CanHide(s, k, cutoff, limit) <==> |StaleCalls(s, cutoff) - StaleCallsOf(s, k, cutoff)| >= limit
  {
    var stale, own := StaleCalls(s, cutoff), StaleCallsOf(s, k, cutoff);
    Sets.SubsetCount(stale - own, stale);
    if CanHide(s, k, cutoff, limit) {
      var found :| found <= stale && |found| == Min(limit, |stale|) && found !! own;
      Sets.SubsetCount(found, stale - own);
    }
    if |stale - own| >= limit {
      var found := SubsetOfSize(stale - own, limit);
      assert found !! own;
    }
  }

  /** What the campaign filter keeps of a find. */
  lemma StaleIdsFound(s: Store, k: CampaignId, cutoff: Time, found: set<CallId>, own: set<CallId>)
    requires found <= StaleCalls(s, cutoff) && own == set c <- found | s.calls[c].key.campaign == k
    ensures own <= StaleCallsOf(s, k, cutoff)
    ensures own == {} ==> found !! StaleCallsOf(s, k, cutoff)
  {
    forall c <- found ensures c in own <==> c in StaleCallsOf(s, k, cutoff) {}
  }

  /** _check_final_state. */
  method CheckFinalState(calls: CallRepository, k: CampaignId, cutoff: Time) returns (violations: seq<Violation>)
    ensures var s := calls.db.View();
            && (violations == [] ==> ReservedAgents(s, k) == {} && (StaleCallsOf(s, k, cutoff) == {} || CanHide(s, k, cutoff, 50)))
            && (ReservedAgents(s, k) == {} && StaleCallsOf(s, k, cutoff) == {} ==> violations == [])
            && (forall v <- violations ::
                  || (v.StaleCall? && Ids(v.ids) <= StaleCallsOf(s, k, cutoff))
                  || v == StuckReservation(|ReservedAgents(s, k)|))
  {
    violations := [];
    var found := calls.FindStaleCalls(cutoff, FINAL_LIMIT);
    var stale := OfCampaign(calls.db.View(), found, k);
    StaleIdsFound(calls.db.View(), k, cutoff, Ids(found), Ids(stale));
    if stale != [] {
      assert stale[0] in Ids(stale);
      violations := violations + [StaleCall(stale)];
    } else {
      assert Ids(stale) == {};
    }
    var reserved := ReservedAgents(calls.db.View(), k);
    if |reserved| > 0 {
      violations := violations + [StuckReservation(|reserved|)];
    }
  }

  /** What the duplicate and capacity checks look for. */
  ghost predicate CallsAreSound(s: Store, k: CampaignId, listed: seq<ActiveCall>) {
    AllDiffer(listed, ByAgent) && AllDiffer(listed, ByBorrower) && |listed| <= |UsableOf(s, k)|
  }

  lemma FoundIsListing(s: Store, k: CampaignId, found: seq<CallId>)
    requires Distinct(found) && Ids(found) <= ActiveCallsOf(s, k)
    ensures forall c <- found :: c in s.calls
    ensures IsListing(s, k, seq(|found|, i requires 0 <= i < |found| =>
              ActiveCall(found[i], s.calls[found[i]].key.agent, s.calls[found[i]].key.borrower)))
  {
    forall i | 0 <= i < |found| ensures found[i] in ActiveCallsOf(s, k) {
      assert found[i] in Ids(found);
    }
  }

  /** check: what find_active returns is checked for duplicates and capacity, and at the end of a
      simulation the final state as well. */
  method Check(calls: CallRepository, k: CampaignId, cutoff: Time, final: bool)
    returns (violations: seq<Violation>, ghost listed: seq<ActiveCall>)
    ensures IsListing(calls.db.View(), k, listed)
    ensures |listed| == Min(5000, |ActiveCallsOf(calls.db.View(), k)|)
    ensures var s := calls.db.View();
            violations == [] ==>
              CallsAreSound(s, k, listed)
              && (final ==> ReservedAgents(s, k) == {} && (StaleCallsOf(s, k, cutoff) == {} || CanHide(s, k, cutoff, 50)))
    ensures var s := calls.db.View();
            CallsAreSound(s, k, listed) && (final ==> ReservedAgents(s, k) == {} && StaleCallsOf(s, k, cutoff) == {}) ==> violations == []
  {
    var s := calls.db.View();
    var found := calls.FindActive(k, ACTIVE_LIMIT);
    FoundIsListing(s, k, found);
    var active := seq(|found|, i requires 0 <= i < |found| =>
      ActiveCall(found[i], s.calls[found[i]].key.agent, s.calls[found[i]].key.borrower));
    listed := active;
    violations := CheckCalls(active, |UsableOf(s, k)|);
    assert violations != [] ==> Names(active, |UsableOf(s, k)|, violations[0]) && violations[0] in violations;
    if final {
      var leftovers := CheckFinalState(calls, k, cutoff);
      violations := violations + leftovers;
    }
  }

  /** Fewer identifiers than calls means two calls share one. */
  lemma {:induction false} FullCountMeansDistinct(calls: seq<ActiveCall>, n: nat, name: KeyName)
    requires n <= |calls|
    ensures |IdsOf(calls, n, name)| <= n
    ensures |IdsOf(calls, n, name)| == n <==> DifferUpTo(calls, n, name)
  {
    if n > 0 {
      FullCountMeansDistinct(calls, n - 1, name);
      OneMoreCall(calls, n - 1, name);
    }
  }

  // What the checker finds in runs

  ghost predicate IsBoundAt(m: Macro, calls: seq<ActiveCall>, i: nat)
    requires i < |calls|
  {
    calls[i].id in m.binder
  }

  /** The listed calls among the first n that were never bound. */
  ghost function UnboundIds(m: Macro, calls: seq<ActiveCall>, n: nat): set<CallId>
    requires n <= |calls|
  {
    if n == 0 then {}
    else if IsBoundAt(m, calls, n - 1) then UnboundIds(m, calls, n - 1)
    else UnboundIds(m, calls, n - 1) + {calls[n - 1].id}
  }

  lemma {:induction false} UnboundIdsAreListed(m: Macro, calls: seq<ActiveCall>, n: nat, id: CallId)
    requires n <= |calls|
    ensures id in UnboundIds(m, calls, n) <==> exists i | 0 <= i < n :: calls[i].id == id && !IsBoundAt(m, calls, i)
  {
    if n > 0 {
      UnboundIdsAreListed(m, calls, n - 1, id);
    }
  }

  /** The calls of a listing that were bound share no agent and no borrower. */
  lemma BoundOnesDiffer(cfg: Config, run: seq<Macro>, acts: seq<Action>, n: nat, k: CampaignId, calls: seq<ActiveCall>, i: nat, j: nat)
    requires IsTrace(cfg, run, acts) && cfg.ttl >= 0 && n < |run| && Unharmed(run, acts, n)
    requires IsListing(run[n].store, k, calls) && i < j < |calls| && IsBoundAt(run[n], calls, i) && IsBoundAt(run[n], calls, j)
    ensures calls[i].agent != calls[j].agent && calls[i].borrower != calls[j].borrower
  {
    assert IsLive(run[n].store, calls[i].id) && IsLive(run[n].store, calls[j].id);
    BindingIsExclusive(cfg, run, acts, n, calls[i].id, calls[j].id);
  }

  ghost predicate BoundDiffer(m: Macro, calls: seq<ActiveCall>, n: nat, name: KeyName)
    requires n <= |calls|
  {
    forall i, j | 0 <= i < j < n && IsBoundAt(m, calls, i) && IsBoundAt(m, calls, j) :: IdOf(calls[i], name) != IdOf(calls[j], name)
  }

  lemma BoundOnesAllDiffer(cfg: Config, run: seq<Macro>, acts: seq<Action>, n: nat, k: CampaignId, calls: seq<ActiveCall>, name: KeyName)
    requires IsTrace(cfg, run, acts) && cfg.ttl >= 0 && n < |run| && Unharmed(run, acts, n)
    requires IsListing(run[n].store, k, calls)
    ensures BoundDiffer(run[n], calls, |calls|, name)
  {
    forall i, j | 0 <= i < j < |calls| && IsBoundAt(run[n], calls, i) && IsBoundAt(run[n], calls, j)
      ensures IdOf(calls[i], name) != IdOf(calls[j], name)
    {
      BoundOnesDiffer(cfg, run, acts, n, k, calls, i, j);
    }
  }

  /** Bound calls that differ, one by one: what is missing to a full set of identifiers are calls that
      were never bound. */
  lemma {:induction false} MissingIdsAreUnbound(m: Macro, calls: seq<ActiveCall>, n: nat, name: KeyName)
    requires n <= |calls| && (forall i, j | 0 <= i < j < |calls| :: calls[i].id != calls[j].id)
    requires BoundDiffer(m, calls, n, name)
    ensures |BoundIds(m, calls, n, name)| + |UnboundIds(m, calls, n)| == n
    ensures BoundIds(m, calls, n, name) <= IdsOf(calls, n, name)
  {
    if n > 0 {
      MissingIdsAreUnbound(m, calls, n - 1, name);
      BoundIdsAreListed(m, calls, n - 1, name, IdOf(calls[n - 1], name));
      UnboundIdsAreListed(m, calls, n - 1, calls[n - 1].id);
    }
  }

  /** The identifiers of the bound ones among the first n calls. */
  ghost function BoundIds(m: Macro, calls: seq<ActiveCall>, n: nat, name: KeyName): set<nat>
    requires n <= |calls|
  {
    if n == 0 then {}
    else if IsBoundAt(m, calls, n - 1) then BoundIds(m, calls, n - 1, name) + {IdOf(calls[n - 1], name)}
    else BoundIds(m, calls, n - 1, name)
  }

  lemma {:induction false} BoundIdsAreListed(m: Macro, calls: seq<ActiveCall>, n: nat, name: KeyName, id: nat)
    requires n <= |calls|
    ensures id in BoundIds(m, calls, n, name) <==> exists i | 0 <= i < n :: IdOf(calls[i], name) == id && IsBoundAt(m, calls, i)
  {
    if n > 0 {
      BoundIdsAreListed(m, calls, n - 1, name, id);
    }
  }

  /** How many offenders FindOffenders reports. */
  ghost function Clashes(calls: seq<ActiveCall>, name: KeyName): int {
    |calls| - |IdsOf(calls, |calls|, name)|
  }

  lemma ListedUnboundWereCut(cfg: Config, run: seq<Macro>, acts: seq<Action>, n: nat, k: CampaignId, calls: seq<ActiveCall>)
    requires IsTrace(cfg, run, acts) && n < |run| && IsListing(run[n].store, k, calls)
    ensures |UnboundIds(run[n], calls, |calls|)| <= run[n].cuts
  {
    forall id <- UnboundIds(run[n], calls, |calls|) ensures id in Unbound(run[n]) {
      UnboundIdsAreListed(run[n], calls, |calls|, id);
    }
    Sets.SubsetCount(UnboundIds(run[n], calls, |calls|), Unbound(run[n]));
    UnboundCallsWereCut(cfg, run, acts, n);
  }

  /** At every point of every run, up to the first harmful step, the checker reports no more
      clashes, by agent or by borrower, and no more calls beyond the usable agents, than dials that were
      cut. */
  lemma ClashesWereCut(cfg: Config, run: seq<Macro>, acts: seq<Action>, n: nat, k: CampaignId, calls: seq<ActiveCall>, name: KeyName)
    requires IsTrace(cfg, run, acts) && cfg.ttl >= 0 && n < |run| && Unharmed(run, acts, n)
    requires IsListing(run[n].store, k, calls)
    ensures Clashes(calls, name) <= run[n].cuts
    ensures |calls| <= |UsableOf(run[n].store, k)| + run[n].cuts
  {
    var m := run[n];
    BoundOnesAllDiffer(cfg, run, acts, n, k, calls, name);
    BoundOnesAllDiffer(cfg, run, acts, n, k, calls, ByAgent);
    MissingIdsAreUnbound(m, calls, |calls|, name);
    MissingIdsAreUnbound(m, calls, |calls|, ByAgent);
    ListedUnboundWereCut(cfg, run, acts, n, k, calls);
    Sets.SubsetCount(BoundIds(m, calls, |calls|, name), IdsOf(calls, |calls|, name));
    forall a <- BoundIds(m, calls, |calls|, ByAgent) ensures a in UsableOf(m.store, k) {
      BoundIdsAreListed(m, calls, |calls|, ByAgent, a);
      var i :| 0 <= i < |calls| && IdOf(calls[i], ByAgent) == a && IsBoundAt(m, calls, i);
      BoundAgentIsUsable(cfg, run, acts, n, k, calls, i);
    }
    Sets.SubsetCount(BoundIds(m, calls, |calls|, ByAgent), UsableOf(m.store, k));
  }

  /** So in every orderly run in which no worker dials a party of its own live unbound calls; in
      particular where the ids of cut workers never come back. */
  lemma CarefulClashesWereCut(cfg: Config, run: seq<Macro>, acts: seq<Action>, n: nat, k: CampaignId, calls: seq<ActiveCall>,
                              name: KeyName)
    requires IsTrace(cfg, run, acts) && cfg.ttl >= 0 && n < |run| && IsListing(run[n].store, k, calls)
    requires Orderly(run, acts, n) && (Careful(run, acts, n) || forall j | 0 <= j < n :: !acts[j].Resume?)
    ensures Clashes(calls, name) <= run[n].cuts
    ensures |calls| <= |UsableOf(run[n].store, k)| + run[n].cuts
  {
    if !Careful(run, acts, n) {
      RetiredIdsAreCareful(cfg, run, acts, n);
    }
    CarefulRunsAreUnharmed(cfg, run, acts, n);
    ClashesWereCut(cfg, run, acts, n, k, calls, name);
  }

  lemma BoundAgentIsUsable(cfg: Config, run: seq<Macro>, acts: seq<Action>, n: nat, k: CampaignId, calls: seq<ActiveCall>, i: nat)
    requires IsTrace(cfg, run, acts) && cfg.ttl >= 0 && n < |run| && Unharmed(run, acts, n)
    requires IsListing(run[n].store, k, calls) && i < |calls| && IsBoundAt(run[n], calls, i)
    ensures calls[i].agent in UsableOf(run[n].store, k)
  {
    TraceKeepsInv(cfg, run, acts, n);
    assert IsLive(run[n].store, calls[i].id);
    assert Binding(run[n], calls[i].id);
  }

  /** Every clash names a call that its agent is not on. */
  lemma ClashesAreNotCurrent(cfg: Config, run: seq<Macro>, acts: seq<Action>, n: nat, k: CampaignId, calls: seq<ActiveCall>,
                             name: KeyName, o: Offender)
    requires IsTrace(cfg, run, acts) && cfg.ttl >= 0 && n < |run| && Unharmed(run, acts, n)
    requires IsListing(run[n].store, k, calls) && Accuses(calls, name, o)
    ensures o.earlier in run[n].store.calls && o.later in run[n].store.calls
    ensures !IsCurrent(run[n].store, o.earlier) || !IsCurrent(run[n].store, o.later)
  {
    var i, j :| 0 <= i < j < |calls| && IdOf(calls[i], name) == o.identifier == IdOf(calls[j], name)
                && calls[i].id == o.earlier && calls[j].id == o.later;
    assert IsLive(run[n].store, calls[i].id) && IsLive(run[n].store, calls[j].id);
    BoundIffCurrent(cfg, run, acts, n, o.earlier);
    BoundIffCurrent(cfg, run, acts, n, o.later);
    if IsBoundAt(run[n], calls, i) && IsBoundAt(run[n], calls, j) {
      BoundOnesDiffer(cfg, run, acts, n, k, calls, i, j);
    }
  }

  /** A condition read from the store alone: where every listed call is its agent's current call, the
      checker finds nothing. */
  lemma CurrentCallsPass(cfg: Config, run: seq<Macro>, acts: seq<Action>, n: nat, k: CampaignId, calls: seq<ActiveCall>)
    requires IsTrace(cfg, run, acts) && cfg.ttl >= 0 && n < |run| && Unharmed(run, acts, n)
    requires IsListing(run[n].store, k, calls) && forall i | 0 <= i < |calls| :: IsCurrent(run[n].store, calls[i].id)
    ensures CallsAreSound(run[n].store, k, calls)
  {
    var m := run[n];
    forall i | 0 <= i < |calls| ensures IsBoundAt(m, calls, i) {
      assert IsLive(m.store, calls[i].id) && IsCurrent(m.store, calls[i].id);
      BoundIffCurrent(cfg, run, acts, n, calls[i].id);
    }
    forall i, j | 0 <= i < j < |calls| ensures calls[i].agent != calls[j].agent && calls[i].borrower != calls[j].borrower {
      BoundOnesDiffer(cfg, run, acts, n, k, calls, i, j);
    }
    FullCountMeansDistinct(calls, |calls|, ByAgent);
    forall a <- IdsOf(calls, |calls|, ByAgent) ensures a in UsableOf(m.store, k) {
      IdsAreSeen(calls, |calls|, ByAgent, a);
      var i :| 0 <= i < |calls| && IdOf(calls[i], ByAgent) == a;
      BoundAgentIsUsable(cfg, run, acts, n, k, calls, i);
    }
    Sets.SubsetCount(IdsOf(calls, |calls|, ByAgent), UsableOf(m.store, k));
  }

  /** In particular at every point of an orderly run in which no dial was cut. */
  lemma CheckerStaysSilent(cfg: Config, run: seq<Macro>, acts: seq<Action>, n: nat, k: CampaignId, calls: seq<ActiveCall>)
    requires IsTrace(cfg, run, acts) && cfg.ttl >= 0 && n < |run| && run[n].cuts == 0 && Orderly(run, acts, n)
    requires IsListing(run[n].store, k, calls)
    ensures CallsAreSound(run[n].store, k, calls)
  {
    UncutRunsAreUnharmed(cfg, run, acts, n);
    UncutRunsLeaveNoOrphans(cfg, run, acts, n);
    forall i | 0 <= i < |calls| ensures IsCurrent(run[n].store, calls[i].id) {
      assert IsLive(run[n].store, calls[i].id) && calls[i].id !in Unbound(run[n]);
      BoundIffCurrent(cfg, run, acts, n, calls[i].id);
    }
    CurrentCallsPass(cfg, run, acts, n, k, calls);
  }
}

/** The bound on active calls when several workers read capacity independently. */
module FineCapacity {
  import opened Wrappers
  import opened Enums
  import opened Documents
  import opened StoreOps
  import opened FineProtocol
  import opened Queries
  import opened FineSafety
  import Sets

  function CapOf(caps: Caps, k: CampaignId): nat {
    if k in caps then caps[k] else 0
  }

  /** Approvals of campaign k that a worker has not yet turned into an active call. */
  function Unspent(pc: WorkerPc, k: CampaignId): nat {
    match pc
    case Idle => 0
    case Ready(c, left) => if c == k then left else 0
    case HasAgent(c, rest, _, _) => if c == k then rest + 1 else 0
    case DropAgent(c, rest, _) => if c == k then rest else 0
    case HasPair(c, rest, _) => if c == k then rest + 1 else 0
    case Dial(stage, c, rest, _, _) => if c != k then 0 else if stage.Created? then rest + 1 else rest
    case Drop(c, rest, _, _, _) => if c == k then rest else 0
  }

  ghost function Total(ws: seq<Worker>, k: CampaignId): nat {
    if |ws| == 0 then 0 else Total(ws[..|ws| - 1], k) + Unspent(ws[|ws| - 1].pc, k)
  }

  lemma {:induction false} TotalAfterUpdate(ws: seq<Worker>, i: nat, x: Worker, k: CampaignId)
    requires i < |ws|
    ensures Total(ws[i := x], k) == Total(ws, k) - Unspent(ws[i].pc, k) + Unspent(x.pc, k)
  {
    var last := |ws| - 1;
    if i == last {
      assert ws[i := x][..last] == ws[..last];
    } else {
      assert ws[i := x][..last] == ws[..last][i := x];
      TotalAfterUpdate(ws[..last], i, x, k);
    }
  }

  lemma {:induction false} TotalIsBounded(ws: seq<Worker>, k: CampaignId, cap: nat)
    requires forall i | 0 <= i < |ws| :: Unspent(ws[i].pc, k) <= cap
    ensures Total(ws, k) <= |ws| * cap
  {
    if |ws| > 0 {
      TotalIsBounded(ws[..|ws| - 1], k, cap);
      assert |ws| * cap == (|ws| - 1) * cap + cap;
    }
  }

  ghost predicate Bounded(caps: Caps, w: World, k: CampaignId) {
    && (forall i | 0 <= i < |w.workers| :: Unspent(w.workers[i].pc, k) <= CapOf(caps, k))
    && |ActiveCallsOf(w.store, k)| + Total(w.workers, k) <= |w.workers| * CapOf(caps, k)
  }

  /** A write that starts from a call already active, or ends one, makes no call active. */
  lemma WriteActivatesNothing(s: Store, c: CallId, target: CallState, now: Time, k: CampaignId)
    requires c in s.calls ==> Rank(s.calls[c].state) >= 1 || IsTerminal(target)
    ensures ActiveCallsOf(SetCall(s, c, TransitionCall(s, c, target, now)), k) <= ActiveCallsOf(s, k)
  {
  }

  /** Marking a call RESERVED activates at most that call, and only in its own campaign. */
  lemma MarkActivatesOne(s: Store, c: CallId, now: Time, k: CampaignId)
    requires c in s.calls
    ensures |ActiveCallsOf(SetCall(s, c, TransitionCall(s, c, CallState.Reserved, now)), k)|
            <= |ActiveCallsOf(s, k)| + (if s.calls[c].key.campaign == k then 1 else 0)
  {
    var after := ActiveCallsOf(SetCall(s, c, TransitionCall(s, c, CallState.Reserved, now)), k);
    var most := ActiveCallsOf(s, k) + (if s.calls[c].key.campaign == k then {c} else {});
    assert after <= most;
    Sets.SubsetCount(after, most);
  }

  /** What the three kinds of worker step do to active calls and unspent approvals together. */
  lemma DialSpends(cfg: Config, w: World, id: WorkerId, pc: WorkerPc, k: CampaignId)
    requires pc.Dial? && !pc.stage.Waiting? && WorkerInv(w.store, pc)
    ensures var (v, next) := DialStep(cfg, w, id, pc);
            && |ActiveCallsOf(v.store, k)| + Unspent(next, k) <= |ActiveCallsOf(w.store, k)| + Unspent(pc, k)
            && Unspent(next, k) <= Unspent(pc, k)
  {
    var (v, next) := DialStep(cfg, w, id, pc);
    if pc.stage.Created? {
      MarkActivatesOne(w.store, pc.call, w.clock, k);
    } else {
      assert ActiveCallsOf(v.store, k) <= ActiveCallsOf(w.store, k) by {
        WriteActivatesNothing(w.store, pc.call, CallState.Initiated, w.clock, k);
        WriteActivatesNothing(w.store, pc.call, CallState.Failed, w.clock, k);
      }
      Sets.SubsetCount(ActiveCallsOf(v.store, k), ActiveCallsOf(w.store, k));
    }
  }

  lemma ClaimSpends(cfg: Config, caps: Caps, w: World, me: Worker, act: WorkerAction, k: CampaignId)
    requires ClaimStep(cfg, caps, w, me, act).Some?
    ensures var (v, next) := ClaimStep(cfg, caps, w, me, act).value;
            && (if me.pc.Idle? then Unspent(next, k) <= Headroom(w.store, k, caps)
                else Unspent(next, k) <= Unspent(me.pc, k))
            && |ActiveCallsOf(v.store, k)| <= |ActiveCallsOf(w.store, k)|
  {
    var (v, next) := ClaimStep(cfg, caps, w, me, act).value;
    assert ActiveCallsOf(v.store, k) <= ActiveCallsOf(w.store, k);
    Sets.SubsetCount(ActiveCallsOf(v.store, k), ActiveCallsOf(w.store, k));
  }

  /** Either the sum does not grow, or the worker was idle and took no more than the headroom. */
  ghost predicate Spends(caps: Caps, w: World, s: Store, pc: WorkerPc, next: WorkerPc, k: CampaignId) {
    var before, after := Unspent(pc, k), Unspent(next, k);
    var active, now := |ActiveCallsOf(w.store, k)|, |ActiveCallsOf(s, k)|;
    && (now + after <= active + before || (before == 0 && after <= Headroom(w.store, k, caps) && now <= active))
    && (after <= before || after <= CapOf(caps, k))
  }

  lemma ClaimIsSpending(cfg: Config, caps: Caps, w: World, me: Worker, act: WorkerAction, k: CampaignId)
    requires ClaimStep(cfg, caps, w, me, act).Some?
    ensures var (v, next) := ClaimStep(cfg, caps, w, me, act).value; Spends(caps, w, v.store, me.pc, next, k)
  {
    ClaimSpends(cfg, caps, w, me, act, k);
  }

  /** Dials and what they give back. */
  lemma OwnStepIsSpending(cfg: Config, caps: Caps, w: World, me: Worker, k: CampaignId)
    requires WorkerInv(w.store, me.pc) && ((me.pc.Dial? && !me.pc.stage.Waiting?) || me.pc.Drop? || me.pc.DropAgent?)
    ensures var (v, next) := if me.pc.Dial? then DialStep(cfg, w, me.id, me.pc) else DropStep(cfg, w, me.id, me.pc);
            Spends(caps, w, v.store, me.pc, next, k)
  {
    if me.pc.Dial? {
      DialSpends(cfg, w, me.id, me.pc, k);
    }
  }

  ghost predicate WorkerSpent(caps: Caps, w: World, w': World, i: nat, k: CampaignId) {
    && i < |w.workers| == |w'.workers| && w'.workers == w.workers[i := w'.workers[i]]
    && Spends(caps, w, w'.store, w.workers[i].pc, w'.workers[i].pc, k)
  }

  /** Steps that touch no document. */
  predicate IsSilent(pc: WorkerPc, act: WorkerAction) {
    act.Restart? || (act.Cancel? && InDial(pc)) || ((act.Refuse? || act.Accept?) && pc.Dial?)
  }

  predicate IsOwn(pc: WorkerPc, act: WorkerAction) {
    act.Proceed? && ((pc.Dial? && !pc.stage.Waiting?) || pc.Drop? || pc.DropAgent?)
  }

  lemma SilentStepSpends(cfg: Config, caps: Caps, w: World, i: nat, act: WorkerAction, k: CampaignId)
    requires WorkerStep(cfg, caps, w, i, act).Some? && IsSilent(w.workers[i].pc, act)
    ensures WorkerSpent(caps, w, WorkerStep(cfg, caps, w, i, act).value, i, k)
  {
  }

  lemma OwnStepSpends(cfg: Config, caps: Caps, w: World, i: nat, act: WorkerAction, k: CampaignId)
    requires WorkerStep(cfg, caps, w, i, act).Some? && WorkerInv(w.store, w.workers[i].pc) && IsOwn(w.workers[i].pc, act)
    ensures WorkerSpent(caps, w, WorkerStep(cfg, caps, w, i, act).value, i, k)
  {
    OwnStepIsSpending(cfg, caps, w, w.workers[i], k);
  }

  lemma ClaimStepSpends(cfg: Config, caps: Caps, w: World, i: nat, act: WorkerAction, k: CampaignId)
    requires WorkerStep(cfg, caps, w, i, act).Some? && !IsSilent(w.workers[i].pc, act) && !IsOwn(w.workers[i].pc, act)
    ensures WorkerSpent(caps, w, WorkerStep(cfg, caps, w, i, act).value, i, k)
  {
    ClaimIsSpending(cfg, caps, w, w.workers[i], act, k);
  }

  lemma WorkerSpends(cfg: Config, caps: Caps, w: World, i: nat, act: WorkerAction, k: CampaignId)
    requires Inv(w) && WorkerStep(cfg, caps, w, i, act).Some?
    ensures WorkerSpent(caps, w, WorkerStep(cfg, caps, w, i, act).value, i, k)
  {
    assert WorkerInv(w.store, w.workers[i].pc);
    if IsSilent(w.workers[i].pc, act) {
      SilentStepSpends(cfg, caps, w, i, act, k);
    } else if IsOwn(w.workers[i].pc, act) {
      OwnStepSpends(cfg, caps, w, i, act, k);
    } else {
      ClaimStepSpends(cfg, caps, w, i, act, k);
    }
  }

  lemma WorkerKeepsBound(cfg: Config, caps: Caps, w: World, i: nat, act: WorkerAction, k: CampaignId)
    requires Inv(w) && WorkerStep(cfg, caps, w, i, act).Some? && Bounded(caps, w, k)
    ensures Bounded(caps, WorkerStep(cfg, caps, w, i, act).value, k)
  {
    WorkerSpends(cfg, caps, w, i, act, k);
    SpendingKeepsBound(caps, w, WorkerStep(cfg, caps, w, i, act).value, i, k);
  }

  lemma SpendingKeepsBound(caps: Caps, w: World, w': World, i: nat, k: CampaignId)
    requires Bounded(caps, w, k) && WorkerSpent(caps, w, w', i, k)
    ensures Bounded(caps, w', k)
  {
    TotalAfterUpdate(w.workers, i, w'.workers[i], k);
    TotalOfOthers(w.workers, i, k, CapOf(caps, k));
    OneMore(|w.workers|, CapOf(caps, k));
  }

  /** All workers but one hold at most one cap each. */
  lemma TotalOfOthers(ws: seq<Worker>, i: nat, k: CampaignId, cap: nat)
    requires i < |ws| && forall j | 0 <= j < |ws| :: Unspent(ws[j].pc, k) <= cap
    ensures Total(ws, k) - Unspent(ws[i].pc, k) <= (|ws| - 1) * cap
  {
    TotalAfterUpdate(ws, i, Worker(0, Idle), k);
    TotalWithOneIdle(ws[i := Worker(0, Idle)], i, k, cap);
  }

  lemma OneMore(n: int, cap: int)
    ensures (n - 1) * cap + cap == n * cap
  {
  }

  lemma {:induction false} TotalWithOneIdle(ws: seq<Worker>, i: nat, k: CampaignId, cap: nat)
    requires i < |ws| && ws[i].pc.Idle? && forall j | 0 <= j < |ws| :: Unspent(ws[j].pc, k) <= cap
    ensures Total(ws, k) <= (|ws| - 1) * cap
  {
    var last := |ws| - 1;
    if i == last {
      TotalIsBounded(ws[..last], k, cap);
    } else {
      TotalWithOneIdle(ws[..last], i, k, cap);
      OneMore(last, cap);
    }
  }

  lemma StepKeepsBound(cfg: Config, caps: Caps, w: World, act: Action, k: CampaignId)
    requires Inv(w) && Next(cfg, caps, w, act).Some? && Bounded(caps, w, k)
    ensures Bounded(caps, Next(cfg, caps, w, act).value, k)
    ensures |Next(cfg, caps, w, act).value.workers| == |w.workers|
  {
    if act.ByWorker? {
      WorkerKeepsBound(cfg, caps, w, act.i, act.worker, k);
    } else {
      OthersKeepBound(cfg, caps, w, act, k);
    }
  }

  lemma OthersKeepBound(cfg: Config, caps: Caps, w: World, act: Action, k: CampaignId)
    requires Inv(w) && Next(cfg, caps, w, act).Some? && Bounded(caps, w, k) && !act.ByWorker?
    ensures Bounded(caps, Next(cfg, caps, w, act).value, k)
    ensures Next(cfg, caps, w, act).value.workers == w.workers
  {
    var w' := Next(cfg, caps, w, act).value;
    OthersActivateNothing(cfg, caps, w, act, k);
    Sets.SubsetCount(ActiveCallsOf(w'.store, k), ActiveCallsOf(w.store, k));
  }

  lemma EventsActivateNothing(cfg: Config, w: World, pc: EventPc, k: CampaignId)
    requires ProcessorInv(w.store, pc) && CallsInv(w.store)
    ensures ActiveCallsOf(EventStep(cfg, w, pc).0, k) <= ActiveCallsOf(w.store, k)
  {
    if pc.Decided? {
      WriteActivatesNothing(w.store, pc.callId, pc.target, w.clock, k);
    }
  }

  lemma SweepsActivateNothing(cfg: Config, w: World, pc: SweepPc, k: CampaignId)
    requires ReconcileInv(w.store, pc)
    ensures ActiveCallsOf(SweepStep(cfg, w, pc).0, k) <= ActiveCallsOf(w.store, k)
  {
    if pc.Found? && pc.seen.currentCall.Some? {
      WriteActivatesNothing(w.store, pc.seen.currentCall.value, CallState.Cancelled, w.clock, k);
    } else if pc.Reconciled? {
      WriteActivatesNothing(w.store, pc.callId, pc.target, w.clock, k);
    }
  }

  lemma OthersActivateNothing(cfg: Config, caps: Caps, w: World, act: Action, k: CampaignId)
    requires Inv(w) && Next(cfg, caps, w, act).Some? && !act.ByWorker?
    ensures ActiveCallsOf(Next(cfg, caps, w, act).value.store, k) <= ActiveCallsOf(w.store, k)
  {
    match act
    case ByProcessor(j, ea) =>
      assert ProcessorInv(w.store, w.processors[j]);
      EventsActivateNothing(cfg, w, w.processors[j], k);
    case BySweep(n, sa) =>
      assert ReconcileInv(w.store, w.sweeps[n]);
      SweepsActivateNothing(cfg, w, w.sweeps[n], k);
    case _ =>
  }

  /** With N workers that read capacity on their own, active calls and unspent approvals of a
      campaign together never exceed N times its limit, however everything interleaves. */
  lemma {:induction false} ActiveCallsAreBounded(cfg: Config, caps: Caps, run: seq<World>, n: nat, k: CampaignId)
    requires IsRun(cfg, caps, run) && n < |run|
    ensures |run[n].workers| == |run[0].workers|
    ensures |ActiveCallsOf(run[n].store, k)| + Total(run[n].workers, k) <= |run[0].workers| * CapOf(caps, k)
    ensures Bounded(caps, run[n], k)
  {
    if n == 0 {
      TotalIsBounded(run[0].workers, k, 0);
      assert ActiveCallsOf(run[0].store, k) == {};
    } else {
      ActiveCallsAreBounded(cfg, caps, run, n - 1, k);
      RunKeepsInv(cfg, caps, run, n - 1);
      var act := ActionAt(cfg, caps, run, n - 1);
      StepKeepsBound(cfg, caps, run[n - 1], act, k);
    }
  }

  /** One worker alone never exceeds the limit. */
  lemma SingleWorkerRespectsLimit(cfg: Config, caps: Caps, run: seq<World>, n: nat, k: CampaignId)
    requires IsRun(cfg, caps, run) && n < |run| && |run[0].workers| == 1
    ensures |ActiveCallsOf(run[n].store, k)| <= CapOf(caps, k)
  {
    ActiveCallsAreBounded(cfg, caps, run, n, k);
  }
}

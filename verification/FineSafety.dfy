/** Safety of every fine-grained run: calls, hand-over to the provider, agents and leases. */
module FineSafety {
  import opened Wrappers
  import opened Enums
  import opened Documents
  import opened StoreOps
  import opened FineProtocol
  import opened FineDocuments
  import AgentSm
  import AgentRepo
  import CallRepo
  import CallSm

  ghost predicate Attached(s: Store, c: CallId) {
    c in s.calls && s.calls[c].providerCallId.Some?
  }

  ghost predicate KeysInv(s: Store) {
    && (forall c <- s.calls :: s.calls[c].key in s.byKey && s.byKey[s.calls[c].key] == c)
    && (forall k <- s.byKey :: s.byKey[k] in s.calls && s.calls[s.byKey[k]].key == k)
  }

  /** The unique key index lists every call, the reference index only attached ones, and nothing is
      attached before it was INITIATED. */
  ghost predicate CallsInv(s: Store) {
    && KeysInv(s)
    && (forall r <- s.byRef :: Attached(s, s.byRef[r]))
    && (forall c <- s.calls :: Attached(s, c) ==> Rank(s.calls[c].state) >= 2)
  }

  predicate Owes(pc: WorkerPc) {
    pc.Dial? && (pc.stage.Initiated? || pc.stage.AgentMoved? || pc.stage.Bound?)
  }

  function StageRank(stage: Stage): nat {
    match stage
    case Created => 0
    case Marked => 1
    case _ => 2
  }

  ghost predicate WorkerInv(s: Store, pc: WorkerPc) {
    pc.Dial? ==>
      && pc.call in s.calls && s.calls[pc.call].key == KeyOf(pc.campaign, pc.pair)
      && Rank(s.calls[pc.call].state) >= StageRank(pc.stage)
  }

  ghost predicate ProcessorInv(s: Store, pc: EventPc) {
    match pc
    case Decided(c, target) => Attached(s, c) && Rank(target) >= 3
    case _ => true
  }

  ghost predicate ReconcileInv(s: Store, pc: SweepPc) {
    match pc
    case Reconciled(c, target) => c in s.calls && (target.Failed? || (target.Completed? && Attached(s, c)))
    case _ => true
  }

  /** Who may still hand a call over, and that nobody may do so twice. */
  ghost predicate HandInv(w: World) {
    && (forall p | 0 <= p < |w.handed| :: w.handed[p] in w.store.calls && Rank(w.store.calls[w.handed[p]].state) >= 2)
    && (forall p, q | 0 <= p < q < |w.handed| :: w.handed[p] != w.handed[q])
    && (forall i | 0 <= i < |w.workers| :: Owes(w.workers[i].pc) ==> w.workers[i].pc.call !in w.handed)
    && (forall i, j | 0 <= i < j < |w.workers| ::
          Owes(w.workers[i].pc) && Owes(w.workers[j].pc) ==> w.workers[i].pc.call != w.workers[j].pc.call)
  }

  ghost predicate Inv(w: World) {
    && CallsInv(w.store)
    && (forall i | 0 <= i < |w.workers| :: WorkerInv(w.store, w.workers[i].pc))
    && (forall j | 0 <= j < |w.processors| :: ProcessorInv(w.store, w.processors[j]))
    && (forall n | 0 <= n < |w.sweeps| :: ReconcileInv(w.store, w.sweeps[n]))
    && SweepsInv(w)
    && HandInv(w)
  }

  // Calls only move forward, so what an actor once saw of a call stays true of it.

  ghost predicate CallsGrow(s: Store, s': Store) {
    && s.calls.Keys <= s'.calls.Keys
    && (forall c <- s.calls ::
          && s'.calls[c].key == s.calls[c].key
          && Rank(s'.calls[c].state) >= Rank(s.calls[c].state)
          && (s.calls[c].providerCallId.Some? ==> s'.calls[c].providerCallId.Some?))
  }

  lemma CallWriteGrows(s: Store, c: CallId, target: CallState, now: Time)
    ensures CallsGrow(s, SetCall(s, c, TransitionCall(s, c, target, now)))
  {
  }

  lemma CallWriteKeeps(s: Store, c: CallId, target: CallState, now: Time)
    requires CallsInv(s)
    ensures var s' := SetCall(s, c, TransitionCall(s, c, target, now)); CallsInv(s') && CallsGrow(s, s')
  {
    var s' := SetCall(s, c, TransitionCall(s, c, target, now));
    CallWriteGrows(s, c, target, now);
    CallWriteKeepsKeys(s, c, target, now);
    forall r <- s'.byRef ensures Attached(s', s'.byRef[r]) {
      assert Attached(s, s.byRef[r]);
    }
    forall d <- s'.calls ensures Attached(s', d) ==> Rank(s'.calls[d].state) >= 2 {
      assert Attached(s', d) ==> Attached(s, d);
    }
  }

  lemma CallWriteKeepsKeys(s: Store, c: CallId, target: CallState, now: Time)
    requires KeysInv(s)
    ensures KeysInv(SetCall(s, c, TransitionCall(s, c, target, now)))
  {
  }

  lemma AttachGrows(s: Store, c: CallId, pid: nat, now: Time)
    requires c in s.calls
    ensures CallsGrow(s, CallRepo.Attach(s, c, pid, now))
    ensures KeysInv(s) ==> KeysInv(CallRepo.Attach(s, c, pid, now))
  {
  }

  lemma AttachKeeps(s: Store, c: CallId, pid: nat, now: Time)
    requires CallsInv(s) && c in s.calls && Rank(s.calls[c].state) >= 2
    ensures var s' := CallRepo.Attach(s, c, pid, now); CallsInv(s') && CallsGrow(s, s')
  {
    var s' := CallRepo.Attach(s, c, pid, now);
    AttachGrows(s, c, pid, now);
    forall r <- s'.byRef ensures Attached(s', s'.byRef[r]) {
      assert s'.byRef[r] == c || Attached(s, s.byRef[r]);
    }
    forall d <- s'.calls ensures Attached(s', d) ==> Rank(s'.calls[d].state) >= 2 {
      assert d == c || (Attached(s', d) ==> Attached(s, d));
    }
  }

  lemma CreateKeeps(s: Store, key: Key, provider: Provider, w: WorkerId, id: CallId, now: Time)
    requires CallsInv(s) && id !in s.calls
    ensures var (s', c) := CallRepo.CreateCall(s, key, provider, w, id, now);
            CallsInv(s') && CallsGrow(s, s') && c in s'.calls && s'.calls[c].key == key
  {
    var (s', c) := CallRepo.CreateCall(s, key, provider, w, id, now);
    forall r <- s'.byRef ensures Attached(s', s'.byRef[r]) {
      assert Attached(s, s.byRef[r]);
    }
    forall d <- s'.calls ensures Attached(s', d) ==> Rank(s'.calls[d].state) >= 2 {
      assert Attached(s', d) ==> Attached(s, d);
    }
    CreateKeepsKeys(s, key, provider, w, id, now);
  }

  lemma CreateKeepsKeys(s: Store, key: Key, provider: Provider, w: WorkerId, id: CallId, now: Time)
    requires KeysInv(s) && id !in s.calls
    ensures KeysInv(CallRepo.CreateCall(s, key, provider, w, id, now).0)
  {
  }

  /** A step of worker i: what it does to the calls, to its own counter and to the hand-over log. */
  ghost predicate WorkerMoves(w: World, w': World, i: nat) {
    && i < |w.workers| == |w'.workers|
    && (forall j | 0 <= j < |w.workers| && j != i :: w'.workers[j] == w.workers[j])
    && w'.processors == w.processors && w'.sweeps == w.sweeps && w'.clock == w.clock
    && CallsInv(w'.store) && CallsGrow(w.store, w'.store)
    && WorkerInv(w'.store, w'.workers[i].pc)
    && (w'.handed == w.handed || (Owes(w.workers[i].pc) && w'.handed == w.handed + [w.workers[i].pc.call] && !Owes(w'.workers[i].pc)))
    && (Owes(w'.workers[i].pc) ==>
          || (Owes(w.workers[i].pc) && w'.workers[i].pc.call == w.workers[i].pc.call && w'.handed == w.handed)
          || (w'.workers[i].pc.call in w.store.calls && Rank(w.store.calls[w'.workers[i].pc.call].state) < 2 && w'.handed == w.handed))
  }

  /** What one step of a dial does to calls, to the list of handed calls and to what it still owes. */
  ghost predicate DialMoved(w: World, pc: WorkerPc, v: World, next: WorkerPc)
    requires pc.Dial? && pc.call in w.store.calls
  {
    && CallsInv(v.store) && CallsGrow(w.store, v.store) && WorkerInv(v.store, next)
    && v.workers == w.workers && v.processors == w.processors && v.sweeps == w.sweeps && v.clock == w.clock
    && (if pc.stage.Bound? then v.handed == w.handed + [pc.call] && !Owes(next) else v.handed == w.handed)
    && (Owes(next) ==> next.call == pc.call && (Owes(pc) || Rank(w.store.calls[pc.call].state) < 2))
  }

  lemma DialMoves(cfg: Config, w: World, id: WorkerId, pc: WorkerPc)
    requires pc.Dial? && !pc.stage.Waiting? && CallsInv(w.store) && WorkerInv(w.store, pc)
    ensures var (v, next) := DialStep(cfg, w, id, pc); DialMoved(w, pc, v, next)
  {
    if pc.stage.Created? {
      CreatedMoves(cfg, w, id, pc);
    } else if pc.stage.Marked? {
      MarkedMoves(cfg, w, id, pc);
    } else if pc.stage.Failing? {
      FailingMoves(cfg, w, id, pc);
    } else if pc.stage.Accepted? {
      AcceptedMoves(cfg, w, id, pc);
    } else {
      QuietStageMoves(cfg, w, id, pc);
    }
  }

  lemma CreatedMoves(cfg: Config, w: World, id: WorkerId, pc: WorkerPc)
    requires pc.Dial? && pc.stage.Created? && CallsInv(w.store) && WorkerInv(w.store, pc)
    ensures var (v, next) := DialStep(cfg, w, id, pc); DialMoved(w, pc, v, next)
  {
    CallWriteKeeps(w.store, pc.call, CallState.Reserved, w.clock);
  }

  lemma MarkedMoves(cfg: Config, w: World, id: WorkerId, pc: WorkerPc)
    requires pc.Dial? && pc.stage.Marked? && CallsInv(w.store) && WorkerInv(w.store, pc)
    ensures var (v, next) := DialStep(cfg, w, id, pc); DialMoved(w, pc, v, next)
  {
    CallWriteKeeps(w.store, pc.call, CallState.Initiated, w.clock);
  }

  lemma FailingMoves(cfg: Config, w: World, id: WorkerId, pc: WorkerPc)
    requires pc.Dial? && pc.stage.Failing? && CallsInv(w.store) && WorkerInv(w.store, pc)
    ensures var (v, next) := DialStep(cfg, w, id, pc); DialMoved(w, pc, v, next)
  {
    CallWriteKeeps(w.store, pc.call, CallState.Failed, w.clock);
  }

  lemma AcceptedMoves(cfg: Config, w: World, id: WorkerId, pc: WorkerPc)
    requires pc.Dial? && pc.stage.Accepted? && CallsInv(w.store) && WorkerInv(w.store, pc)
    ensures var (v, next) := DialStep(cfg, w, id, pc); DialMoved(w, pc, v, next)
  {
    AttachKeeps(w.store, pc.call, pc.stage.pid, w.clock);
  }

  /** The stages that do not write the call. */
  lemma QuietStageMoves(cfg: Config, w: World, id: WorkerId, pc: WorkerPc)
    requires pc.Dial? && (pc.stage.Initiated? || pc.stage.AgentMoved? || pc.stage.Bound?)
    requires CallsInv(w.store) && WorkerInv(w.store, pc)
    ensures var (v, next) := DialStep(cfg, w, id, pc); DialMoved(w, pc, v, next)
  {
    SameCallsKeep(w.store, DialStep(cfg, w, id, pc).0.store);
  }

  /** Writes to agents, borrowers and events leave every fact about calls alone. */
  lemma SameCallsKeep(s: Store, s': Store)
    requires CallsInv(s) && s'.calls == s.calls && s'.byKey == s.byKey && s'.byRef == s.byRef
    ensures CallsInv(s') && CallsGrow(s, s')
  {
    forall r <- s'.byRef ensures Attached(s', s'.byRef[r]) {
      assert Attached(s, s.byRef[r]);
    }
    forall d <- s'.calls ensures Attached(s', d) ==> Rank(s'.calls[d].state) >= 2 {
      assert Attached(s', d) ==> Attached(s, d);
    }
  }

  lemma ClaimMoves(cfg: Config, caps: Caps, w: World, me: Worker, act: WorkerAction)
    requires ClaimStep(cfg, caps, w, me, act).Some? && CallsInv(w.store)
    ensures var (v, next) := ClaimStep(cfg, caps, w, me, act).value;
            && CallsInv(v.store) && CallsGrow(w.store, v.store) && WorkerInv(v.store, next) && !Owes(next)
            && v.workers == w.workers && v.processors == w.processors && v.sweeps == w.sweeps && v.clock == w.clock
            && v.handed == w.handed
  {
    var (v, next) := ClaimStep(cfg, caps, w, me, act).value;
    if me.pc.HasPair? && act.Create? {
      CreateKeeps(w.store, KeyOf(me.pc.campaign, me.pc.pair), act.provider, me.id, act.id, w.clock);
    } else {
      SameCallsKeep(w.store, v.store);
    }
  }

  lemma MovedWorker(w: World, v: World, next: WorkerPc, i: nat, id: WorkerId)
    requires i < |w.workers| && v.workers == w.workers && v.processors == w.processors && v.sweeps == w.sweeps && v.clock == w.clock
    requires CallsInv(v.store) && CallsGrow(w.store, v.store) && WorkerInv(v.store, next) && WorkerInv(w.store, w.workers[i].pc)
    requires v.handed == w.handed
             || (Owes(w.workers[i].pc) && v.handed == w.handed + [w.workers[i].pc.call] && !Owes(next))
    requires Owes(next) ==>
               w.workers[i].pc.Dial? && next.call == w.workers[i].pc.call
               && (Owes(w.workers[i].pc) || Rank(w.store.calls[next.call].state) < 2)
    ensures WorkerMoves(w, v.(workers := w.workers[i := Worker(id, next)]), i)
  {
  }

  lemma OwnStepMoves(cfg: Config, caps: Caps, w: World, i: nat)
    requires CallsInv(w.store) && i < |w.workers| && WorkerInv(w.store, w.workers[i].pc)
    requires var pc := w.workers[i].pc; (pc.Dial? && !pc.stage.Waiting?) || pc.Drop? || pc.DropAgent?
    ensures WorkerMoves(w, WorkerStep(cfg, caps, w, i, Proceed).value, i)
  {
    var me := w.workers[i];
    if me.pc.Dial? {
      DialMoves(cfg, w, me.id, me.pc);
      var (v, next) := DialStep(cfg, w, me.id, me.pc);
      MovedWorker(w, v, next, i, me.id);
    } else {
      var (v, next) := DropStep(cfg, w, me.id, me.pc);
      SameCallsKeep(w.store, v.store);
      MovedWorker(w, v, next, i, me.id);
    }
  }

  lemma WorkerStepMoves(cfg: Config, caps: Caps, w: World, i: nat, act: WorkerAction)
    requires Inv(w) && WorkerStep(cfg, caps, w, i, act).Some?
    ensures WorkerMoves(w, WorkerStep(cfg, caps, w, i, act).value, i)
  {
    assert WorkerInv(w.store, w.workers[i].pc);
    WorkerActionMoves(cfg, caps, w, i, act);
  }

  lemma WorkerActionMoves(cfg: Config, caps: Caps, w: World, i: nat, act: WorkerAction)
    requires CallsInv(w.store) && WorkerStep(cfg, caps, w, i, act).Some? && WorkerInv(w.store, w.workers[i].pc)
    ensures WorkerMoves(w, WorkerStep(cfg, caps, w, i, act).value, i)
  {
    var me := w.workers[i];
    if act.Restart? {
      SameCallsKeep(w.store, w.store);
      MovedWorker(w, w, Idle, i, act.id);
    } else if act.Proceed? && ((me.pc.Dial? && !me.pc.stage.Waiting?) || me.pc.Drop? || me.pc.DropAgent?) {
      OwnStepMoves(cfg, caps, w, i);
    } else if act.Cancel? && InDial(me.pc) {
      SameCallsKeep(w.store, w.store);
      MovedWorker(w, w, Compensating(me.pc), i, me.id);
    } else if (act.Refuse? || act.Accept?) && me.pc.Dial? {
      SameCallsKeep(w.store, w.store);
      MovedWorker(w, w, me.pc.(stage := if act.Refuse? then Failing else Accepted(act.pid)), i, me.id);
    } else {
      ClaimMoves(cfg, caps, w, me, act);
      var (v, next) := ClaimStep(cfg, caps, w, me, act).value;
      MovedWorker(w, v, next, i, me.id);
    }
  }

  lemma WorkersStayConsistent(w: World, w': World, i: nat)
    requires Inv(w) && WorkerMoves(w, w', i)
    ensures forall j | 0 <= j < |w'.workers| :: WorkerInv(w'.store, w'.workers[j].pc)
  {
    forall j | 0 <= j < |w'.workers| ensures WorkerInv(w'.store, w'.workers[j].pc) {
      if j != i {
        assert WorkerInv(w.store, w.workers[j].pc);
      }
    }
  }

  /** Nobody else owes the call worker i comes to owe, and it has not been handed over. */
  lemma OwedOnlyByMover(w: World, w': World, i: nat, j: nat)
    requires Inv(w) && WorkerMoves(w, w', i) && j < |w.workers| && Owes(w'.workers[j].pc)
    ensures w'.workers[j].pc.call !in w'.handed
    ensures j != i && Owes(w'.workers[i].pc) ==> w'.workers[i].pc.call != w'.workers[j].pc.call
  {
    assert WorkerInv(w.store, w.workers[i].pc);
    assert WorkerInv(w.store, w.workers[j].pc);
    if j == i {
    } else if j < i {
      assert w'.workers[j] == w.workers[j];
      assert Owes(w.workers[i].pc) ==> w.workers[j].pc.call != w.workers[i].pc.call;
    } else {
      assert w'.workers[j] == w.workers[j];
      assert Owes(w.workers[i].pc) ==> w.workers[i].pc.call != w.workers[j].pc.call;
    }
  }

  lemma HandedStayInitiated(w: World, w': World, i: nat)
    requires Inv(w) && WorkerMoves(w, w', i)
    ensures forall p | 0 <= p < |w'.handed| :: w'.handed[p] in w'.store.calls && Rank(w'.store.calls[w'.handed[p]].state) >= 2
  {
    assert WorkerInv(w.store, w.workers[i].pc);
  }

  lemma HandedStaysDistinct(w: World, w': World, i: nat)
    requires Inv(w) && WorkerMoves(w, w', i)
    ensures forall p, q | 0 <= p < q < |w'.handed| :: w'.handed[p] != w'.handed[q]
  {
    forall p, q | 0 <= p < q < |w'.handed| ensures w'.handed[p] != w'.handed[q] {
      assert w'.handed[p] in w.handed;
    }
  }

  lemma WorkersKeep(w: World, w': World, i: nat)
    requires Inv(w) && WorkerMoves(w, w', i)
    ensures forall j | 0 <= j < |w'.workers| :: WorkerInv(w'.store, w'.workers[j].pc)
    ensures HandInv(w')
  {
    WorkersStayConsistent(w, w', i);
    HandedStayInitiated(w, w', i);
    HandedStaysDistinct(w, w', i);
    forall j | 0 <= j < |w'.workers| && Owes(w'.workers[j].pc)
      ensures w'.workers[j].pc.call !in w'.handed
    {
      OwedOnlyByMover(w, w', i, j);
    }
    forall j, l | 0 <= j < l < |w'.workers| && Owes(w'.workers[j].pc) && Owes(w'.workers[l].pc)
      ensures w'.workers[j].pc.call != w'.workers[l].pc.call
    {
      OwedOnlyByMover(w, w', i, j);
      OwedOnlyByMover(w, w', i, l);
    }
  }

  lemma OthersKeep(w: World, w': World)
    requires Inv(w) && CallsGrow(w.store, w'.store)
    ensures forall j | 0 <= j < |w.processors| :: ProcessorInv(w'.store, w.processors[j])
    ensures forall n | 0 <= n < |w.sweeps| :: ReconcileInv(w'.store, w.sweeps[n])
  {
    forall j | 0 <= j < |w.processors| ensures ProcessorInv(w'.store, w.processors[j]) {
      assert ProcessorInv(w.store, w.processors[j]);
    }
    forall n | 0 <= n < |w.sweeps| ensures ReconcileInv(w'.store, w.sweeps[n]) {
      assert ReconcileInv(w.store, w.sweeps[n]);
    }
  }

  lemma WorkerKeepsInv(cfg: Config, caps: Caps, w: World, i: nat, act: WorkerAction)
    requires Inv(w) && WorkerStep(cfg, caps, w, i, act).Some?
    ensures Inv(WorkerStep(cfg, caps, w, i, act).value)
  {
    var w' := WorkerStep(cfg, caps, w, i, act).value;
    WorkerStepMoves(cfg, caps, w, i, act);
    WorkersKeep(w, w', i);
    OthersKeep(w, w');
    StepKeepsSweeps(cfg, caps, w, ByWorker(i, act));
  }

  /** Steps that leave workers and hand-over log alone. */
  lemma WorkersUntouched(w: World, w': World)
    requires Inv(w) && CallsGrow(w.store, w'.store) && w'.workers == w.workers && w'.handed == w.handed
    ensures forall j | 0 <= j < |w'.workers| :: WorkerInv(w'.store, w'.workers[j].pc)
    ensures HandInv(w')
  {
    forall j | 0 <= j < |w'.workers| ensures WorkerInv(w'.store, w'.workers[j].pc) {
      assert WorkerInv(w.store, w.workers[j].pc);
    }
  }

  lemma DecidedMoves(cfg: Config, w: World, pc: EventPc)
    requires CallsInv(w.store) && ProcessorInv(w.store, pc) && pc.Decided?
    ensures var (s, next) := EventStep(cfg, w, pc);
            CallsInv(s) && CallsGrow(w.store, s) && ProcessorInv(s, next)
  {
    CallWriteKeeps(w.store, pc.callId, pc.target, w.clock);
  }

  /** Every other operation of an event leaves calls and indexes alone. */
  lemma OtherEventStepsKeepCalls(cfg: Config, w: World, pc: EventPc)
    requires CallsInv(w.store) && ProcessorInv(w.store, pc) && !pc.Decided?
    ensures var (s, next) := EventStep(cfg, w, pc);
            s.calls == w.store.calls && s.byKey == w.store.byKey && s.byRef == w.store.byRef && ProcessorInv(s, next)
  {
  }

  lemma EventMoves(cfg: Config, w: World, pc: EventPc)
    requires CallsInv(w.store) && ProcessorInv(w.store, pc)
    ensures var (s, next) := EventStep(cfg, w, pc);
            CallsInv(s) && CallsGrow(w.store, s) && ProcessorInv(s, next)
  {
    if pc.Decided? {
      DecidedMoves(cfg, w, pc);
    } else {
      OtherEventStepsKeepCalls(cfg, w, pc);
      SameCallsKeep(w.store, EventStep(cfg, w, pc).0);
    }
  }

  lemma ProcessorMoves(cfg: Config, w: World, j: nat, act: EventAction)
    requires CallsInv(w.store) && ProcessorStep(cfg, w, j, act).Some? && ProcessorInv(w.store, w.processors[j])
    ensures var w' := ProcessorStep(cfg, w, j, act).value;
            && CallsInv(w'.store) && CallsGrow(w.store, w'.store)
            && w'.workers == w.workers && w'.handed == w.handed && w'.sweeps == w.sweeps
            && |w'.processors| == |w.processors| && w'.processors == w.processors[j := w'.processors[j]]
            && ProcessorInv(w'.store, w'.processors[j])
  {
    if act.Process? {
      EventMoves(cfg, w, w.processors[j]);
    } else {
      SameCallsKeep(w.store, ProcessorStep(cfg, w, j, act).value.store);
    }
  }

  lemma ProcessorKeepsInv(cfg: Config, w: World, j: nat, act: EventAction)
    requires Inv(w) && ProcessorStep(cfg, w, j, act).Some?
    ensures Inv(ProcessorStep(cfg, w, j, act).value)
  {
    var w' := ProcessorStep(cfg, w, j, act).value;
    assert ProcessorInv(w.store, w.processors[j]);
    ProcessorMoves(cfg, w, j, act);
    WorkersUntouched(w, w');
    OthersKeep(w, w');
    StepKeepsSweeps(cfg, map[], w, ByProcessor(j, act));
  }

  lemma SweepMoves(cfg: Config, w: World, pc: SweepPc)
    requires CallsInv(w.store) && ReconcileInv(w.store, pc)
    ensures var (s, next) := SweepStep(cfg, w, pc);
            CallsInv(s) && CallsGrow(w.store, s) && ReconcileInv(s, next)
  {
    if pc.Found? && pc.seen.currentCall.Some? {
      CallWriteKeeps(w.store, pc.seen.currentCall.value, CallState.Cancelled, w.clock);
    } else if pc.Reconciled? {
      CallWriteKeeps(w.store, pc.callId, pc.target, w.clock);
    } else {
      SameCallsKeep(w.store, SweepStep(cfg, w, pc).0);
    }
  }

  lemma RecoveryMoves(cfg: Config, w: World, n: nat, act: SweepAction)
    requires CallsInv(w.store) && RecoveryStep(cfg, w, n, act).Some? && ReconcileInv(w.store, w.sweeps[n])
    ensures var w' := RecoveryStep(cfg, w, n, act).value;
            && CallsInv(w'.store) && CallsGrow(w.store, w'.store)
            && w'.workers == w.workers && w'.handed == w.handed && w'.processors == w.processors
            && |w'.sweeps| == |w.sweeps| && w'.sweeps == w.sweeps[n := w'.sweeps[n]]
            && ReconcileInv(w'.store, w'.sweeps[n])
  {
    if act.Sweep? {
      SweepMoves(cfg, w, w.sweeps[n]);
    } else {
      SameCallsKeep(w.store, RecoveryStep(cfg, w, n, act).value.store);
    }
  }

  lemma RecoveryKeepsInv(cfg: Config, w: World, n: nat, act: SweepAction)
    requires Inv(w) && RecoveryStep(cfg, w, n, act).Some?
    ensures Inv(RecoveryStep(cfg, w, n, act).value)
  {
    var w' := RecoveryStep(cfg, w, n, act).value;
    assert ReconcileInv(w.store, w.sweeps[n]);
    RecoveryMoves(cfg, w, n, act);
    WorkersUntouched(w, w');
    OthersKeep(w, w');
    StepKeepsSweeps(cfg, map[], w, BySweep(n, act));
  }

  lemma StepKeepsInv(cfg: Config, caps: Caps, w: World, act: Action)
    requires Inv(w) && Next(cfg, caps, w, act).Some?
    ensures Inv(Next(cfg, caps, w, act).value)
  {
    match act
    case ByWorker(i, wa) => WorkerKeepsInv(cfg, caps, w, i, wa);
    case ByProcessor(j, ea) => ProcessorKeepsInv(cfg, w, j, ea);
    case BySweep(n, sa) => RecoveryKeepsInv(cfg, w, n, sa);
    case _ =>
      var w' := Next(cfg, caps, w, act).value;
      SameCallsKeep(w.store, w'.store);
      WorkersUntouched(w, w');
      OthersKeep(w, w');
      StepKeepsSweeps(cfg, caps, w, act);
  }

  lemma {:induction false} RunKeepsInv(cfg: Config, caps: Caps, run: seq<World>, n: nat)
    requires IsRun(cfg, caps, run) && n < |run|
    ensures Inv(run[n])
  {
    if n > 0 {
      RunKeepsInv(cfg, caps, run, n - 1);
      assert Step(cfg, caps, run[n - 1], run[n - 1 + 1]);
      var act :| Next(cfg, caps, run[n - 1], act) == Some(run[n]);
      StepKeepsInv(cfg, caps, run[n - 1], act);
    }
  }

  /** The action behind step n of a run. */
  lemma ActionAt(cfg: Config, caps: Caps, run: seq<World>, n: nat) returns (act: Action)
    requires IsRun(cfg, caps, run) && n + 1 < |run|
    ensures SweepsInv(run[n]) && Next(cfg, caps, run[n], act) == Some(run[n + 1])
  {
    RunKeepsInv(cfg, caps, run, n);
    assert Step(cfg, caps, run[n], run[n + 1]);
    act :| Next(cfg, caps, run[n], act) == Some(run[n + 1]);
  }

  /** In every interleaving each call key reaches the provider at most once, however often the call
      is created, its workers crash and recovery steps in. */
  lemma HandedAtMostOnce(cfg: Config, caps: Caps, run: seq<World>, n: nat, p: nat, q: nat)
    requires IsRun(cfg, caps, run) && n < |run| && p < q < |run[n].handed|
    ensures run[n].handed[p] in run[n].store.calls && run[n].handed[q] in run[n].store.calls
    ensures run[n].store.calls[run[n].handed[p]].key != run[n].store.calls[run[n].handed[q]].key
  {
    RunKeepsInv(cfg, caps, run, n);
  }

  /** A call's state may change from one world to the next only along an edge of the table. */
  ghost predicate EdgesOnly(m: map<CallId, Call>, m': map<CallId, Call>) {
    forall c <- m' ::
      if c in m then m'[c].state == m[c].state || CallSm.CanTransition(m[c].state, m'[c].state)
      else m'[c].state.Queued?
  }

  lemma CallWriteIsEdge(s: Store, c: CallId, target: CallState, now: Time)
    requires c in s.calls ==> Rank(s.calls[c].state) >= 2 || target.Reserved? || target.Initiated? || target.Failed? || target.Cancelled?
    ensures EdgesOnly(s.calls, SetCall(s, c, TransitionCall(s, c, target, now)).calls)
  {
    if c in s.calls {
      CallSm.TableIsRankAboveInitiated(s.calls[c].state, target);
    }
  }

  lemma DialCallEdges(cfg: Config, w: World, id: WorkerId, pc: WorkerPc)
    requires pc.Dial? && !pc.stage.Waiting? && CallsInv(w.store) && WorkerInv(w.store, pc)
    ensures EdgesOnly(w.store.calls, DialStep(cfg, w, id, pc).0.store.calls)
  {
    match pc.stage
    case Created => CallWriteIsEdge(w.store, pc.call, CallState.Reserved, w.clock);
    case Marked => CallWriteIsEdge(w.store, pc.call, CallState.Initiated, w.clock);
    case Failing => CallWriteIsEdge(w.store, pc.call, CallState.Failed, w.clock);
    case _ =>
  }

  lemma ClaimCallEdges(cfg: Config, caps: Caps, w: World, me: Worker, act: WorkerAction)
    requires ClaimStep(cfg, caps, w, me, act).Some?
    ensures EdgesOnly(w.store.calls, ClaimStep(cfg, caps, w, me, act).value.0.store.calls)
  {
  }

  lemma WorkerCallEdges(cfg: Config, caps: Caps, w: World, i: nat, act: WorkerAction)
    requires Inv(w) && WorkerStep(cfg, caps, w, i, act).Some?
    ensures EdgesOnly(w.store.calls, WorkerStep(cfg, caps, w, i, act).value.store.calls)
  {
    var me := w.workers[i];
    assert WorkerInv(w.store, me.pc);
    if act.Proceed? && me.pc.Dial? && !me.pc.stage.Waiting? {
      DialCallEdges(cfg, w, me.id, me.pc);
    } else if act.Proceed? && (me.pc.Drop? || me.pc.DropAgent?) {
      DropKeepsCalls(cfg, w, me.id, me.pc);
    } else if ClaimStep(cfg, caps, w, me, act).Some? {
      ClaimCallEdges(cfg, caps, w, me, act);
    }
  }

  lemma EventCallEdges(cfg: Config, w: World, pc: EventPc)
    requires CallsInv(w.store) && ProcessorInv(w.store, pc)
    ensures EdgesOnly(w.store.calls, EventStep(cfg, w, pc).0.calls)
  {
    if pc.Decided? {
      CallWriteIsEdge(w.store, pc.callId, pc.target, w.clock);
    }
  }

  lemma SweepCallEdges(cfg: Config, w: World, pc: SweepPc)
    requires CallsInv(w.store) && ReconcileInv(w.store, pc)
    ensures EdgesOnly(w.store.calls, SweepStep(cfg, w, pc).0.calls)
  {
    if pc.Found? && pc.seen.currentCall.Some? {
      CallWriteIsEdge(w.store, pc.seen.currentCall.value, CallState.Cancelled, w.clock);
    } else if pc.Reconciled? {
      CallWriteIsEdge(w.store, pc.callId, pc.target, w.clock);
    }
  }

  lemma StepCallEdges(cfg: Config, caps: Caps, w: World, act: Action)
    requires Inv(w) && Next(cfg, caps, w, act).Some?
    ensures EdgesOnly(w.store.calls, Next(cfg, caps, w, act).value.store.calls)
  {
    match act
    case ByWorker(i, wa) => WorkerCallEdges(cfg, caps, w, i, wa);
    case ByProcessor(j, ea) =>
      assert ProcessorInv(w.store, w.processors[j]);
      EventCallEdges(cfg, w, w.processors[j]);
    case BySweep(n, sa) =>
      assert ReconcileInv(w.store, w.sweeps[n]);
      SweepCallEdges(cfg, w, w.sweeps[n]);
    case _ =>
  }

  /** Although a write filters on rank only and its legality was judged on an older read, every
      call write that lands in any interleaving is an edge of the transition table. */
  lemma CallWritesAreEdges(cfg: Config, caps: Caps, run: seq<World>, n: nat)
    requires IsRun(cfg, caps, run) && n + 1 < |run|
    ensures run[n].store.calls.Keys <= run[n + 1].store.calls.Keys
    ensures EdgesOnly(run[n].store.calls, run[n + 1].store.calls)
  {
    RunKeepsInv(cfg, caps, run, n);
    assert Step(cfg, caps, run[n], run[n + 1]);
    var act :| Next(cfg, caps, run[n], act) == Some(run[n + 1]);
    StepCallEdges(cfg, caps, run[n], act);
    StepKeepsCalls(cfg, caps, run[n], act);
  }

  // Agents

  /** Where recovery can find a busy agent: by its lease, or in the wrap-up sweep. */
  ghost predicate WithinReach(a: Agent) {
    && (AgentSm.IsEngaged(a.state) ==> a.lease.Some?)
    && (a.state.WrapUp? ==> a.lease.None?)
  }

  lemma EvolvingStaysWithinReach(x: Agent, y: Agent, actor: AgentSm.Actor, clock: Time)
    requires WithinReach(x) && AgentEvolves(x, y, actor, clock)
    ensures WithinReach(y)
  {
  }

  lemma StepStaysWithinReach(cfg: Config, caps: Caps, w: World, act: Action)
    requires SweepsInv(w) && Next(cfg, caps, w, act).Some?
    requires forall a <- w.store.agents :: WithinReach(w.store.agents[a])
    ensures var w' := Next(cfg, caps, w, act).value;
            forall a <- w'.store.agents :: WithinReach(w'.store.agents[a])
  {
    var w' := Next(cfg, caps, w, act).value;
    StepKeepsAgents(cfg, caps, w, act);
    forall a <- w'.store.agents ensures WithinReach(w'.store.agents[a]) {
      EvolvingStaysWithinReach(w.store.agents[a], w'.store.agents[a], ActorOf(act), w.clock);
    }
  }

  /** In every interleaving a RESERVED, DIALING or CONNECTED agent carries a lease and a WRAP_UP agent
      carries none, so each busy agent is found by the lease sweep or the wrap-up sweep. */
  lemma {:induction false} BusyAgentsAreLeased(cfg: Config, caps: Caps, run: seq<World>, n: nat)
    requires IsRun(cfg, caps, run) && n < |run|
    ensures forall a <- run[n].store.agents :: WithinReach(run[n].store.agents[a])
  {
    if n > 0 {
      BusyAgentsAreLeased(cfg, caps, run, n - 1);
      var act := ActionAt(cfg, caps, run, n - 1);
      StepStaysWithinReach(cfg, caps, run[n - 1], act);
    }
  }

  /** So each busy agent is found once its time is up, even if every other actor has died: the lease
      sweep finds the engaged ones past their expiry, the wrap-up sweep the others. */
  lemma BusyAgentsComeDue(cfg: Config, caps: Caps, run: seq<World>, n: nat, a: AgentId, now: Time)
    requires IsRun(cfg, caps, run) && n < |run| && a in run[n].store.agents
    ensures var agent := run[n].store.agents[a];
            && (AgentSm.IsEngaged(agent.state) ==>
                  agent.lease.Some? && (AgentRepo.LeaseExpired(agent, now) <==> now > agent.lease.value.expiresAt))
            && (agent.state.WrapUp? ==>
                  !AgentRepo.LeaseExpired(agent, now) && (AgentRepo.WrapUpExpired(agent, now) <==> now >= agent.stateChangedAt))
  {
    BusyAgentsAreLeased(cfg, caps, run, n);
    assert WithinReach(run[n].store.agents[a]);
  }

  /** A state change of an agent is a table edge permitted to the acting party, and lifts the
      version by one; a write that keeps the state keeps the version. */
  ghost predicate AgentEdgesOnly(m: map<AgentId, Agent>, m': map<AgentId, Agent>, actor: AgentSm.Actor) {
    m'.Keys == m.Keys
    && forall a <- m ::
         if m'[a].state != m[a].state then
           && AgentSm.CanTransition(m[a].state, m'[a].state)
           && AgentSm.IsActorAllowed(m[a].state, m'[a].state, actor)
           && m'[a].version == m[a].version + 1
         else m'[a].version == m[a].version
  }

  lemma AgentWritesAreEdges(cfg: Config, caps: Caps, run: seq<World>, n: nat)
    requires IsRun(cfg, caps, run) && n + 1 < |run|
    ensures exists act ::
              Next(cfg, caps, run[n], act) == Some(run[n + 1])
              && AgentEdgesOnly(run[n].store.agents, run[n + 1].store.agents, ActorOf(act))
  {
    RunKeepsInv(cfg, caps, run, n);
    assert Step(cfg, caps, run[n], run[n + 1]);
    var act :| Next(cfg, caps, run[n], act) == Some(run[n + 1]);
    StepKeepsAgents(cfg, caps, run[n], act);
    assert AgentEdgesOnly(run[n].store.agents, run[n + 1].store.agents, ActorOf(act)) by {
      forall a <- run[n].store.agents
        ensures var x, y := run[n].store.agents[a], run[n + 1].store.agents[a];
                if y.state != x.state then AgentSm.IsValid(x.state, y.state, ActorOf(act)) && y.version == x.version + 1
                else y.version == x.version
      {
        assert AgentEvolves(run[n].store.agents[a], run[n + 1].store.agents[a], ActorOf(act), run[n].clock);
      }
    }
  }

  /** The heartbeat sweep's transition never raises: whoever it finds may be taken OFFLINE. */
  lemma HeartbeatSweepNeverRaises(cfg: Config, caps: Caps, run: seq<World>, n: nat, m: nat)
    requires IsRun(cfg, caps, run) && n < |run| && m < |run[n].sweeps|
    requires run[n].sweeps[m].Freeing? && run[n].sweeps[m].kind.HeartbeatItem?
    ensures AgentSm.IsValid(run[n].sweeps[m].seen.state, AgentState.Offline, AgentSm.Recovery)
  {
    RunKeepsInv(cfg, caps, run, n);
    assert SweepInv(run[n], run[n].sweeps[m]);
  }
}

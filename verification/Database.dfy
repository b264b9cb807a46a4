/** The shared store as an object, and the repositories that query and update it in place. */
module Database {
  import opened Wrappers
  import opened Enums
  import opened Documents
  import opened StoreOps
  import opened Queries
  import AgentSm
  import AgentRepo
  import BorrowerRepo
  import CallRepo

  class Collections {
    var agents: map<AgentId, Agent>
    var borrowers: map<BorrowerId, Borrower>
    var calls: map<CallId, Call>
    var byKey: map<Key, CallId>
    var byRef: map<Ref, CallId>
    var events: set<Ref>

    function View(): Store
      reads this
    {
      Store(agents, borrowers, calls, byKey, byRef, events)
    }

    /** An identifier no call carries yet. */
    method UnusedCallId() returns (id: CallId)
      ensures id !in calls
    {
      id := 0;
      var rest := calls.Keys;
      while rest != {}
        invariant rest <= calls.Keys && forall c <- calls :: c in rest || c < id
        decreases rest
      {
        var c :| c in rest;
        if id <= c {
          id := c + 1;
        }
        rest := rest - {c};
      }
    }
  }

  ghost predicate Distinct(ids: seq<nat>) {
    forall i, j | 0 <= i < j < |ids| :: ids[i] != ids[j]
  }

  ghost function Ids(ids: seq<nat>): set<nat> {
    set i | 0 <= i < |ids| :: ids[i]
  }

  function Min(a: nat, b: nat): nat {
    if a <= b then a else b
  }

  lemma IdsOneMore(ids: seq<nat>, id: nat)
    requires Distinct(ids) && id !in Ids(ids)
    ensures Distinct(ids + [id]) && Ids(ids + [id]) == Ids(ids) + {id}
  {
    var more := ids + [id];
    forall i | 0 <= i < |ids| ensures more[i] in Ids(ids) {}
    forall x <- Ids(ids) + {id} ensures x in Ids(more) {
      if x == id {
        assert more[|ids|] == id;
      } else {
        var i :| 0 <= i < |ids| && ids[i] == x;
        assert more[i] == x;
      }
    }
  }

  /** A limited find: some of the wanted keys, all of them unless the limit cuts in. */
  method Take(wanted: set<nat>, limit: nat) returns (found: seq<nat>)
    ensures Distinct(found) && Ids(found) <= wanted
    ensures |found| == Min(limit, |wanted|) == |Ids(found)|
  {
    found := [];
    var rest := wanted;
    while rest != {} && |found| < limit
      invariant Distinct(found) && Ids(found) == wanted - rest && rest <= wanted
      invariant |found| + |rest| == |wanted| && |found| == |Ids(found)| && |found| <= limit
      decreases rest
    {
      var id :| id in rest;
      IdsOneMore(found, id);
      found := found + [id];
      rest := rest - {id};
    }
  }

  class AgentRepository {
    const db: Collections

    constructor (db: Collections)
      ensures this.db == db
    {
      this.db := db;
    }

    method TryReserveAgent(campaign: CampaignId, a: AgentId, w: WorkerId, ttl: Time, now: Time) returns (r: Option<Agent>)
      modifies db
      ensures r == ReserveAgent(old(db.View()), campaign, a, w, ttl, now)
      ensures db.View() == SetAgent(old(db.View()), a, r)
    {
      r := ReserveAgent(db.View(), campaign, a, w, ttl, now);
      db.agents := Put(db.agents, a, r);
    }

    method FindClaimableAgents(campaign: CampaignId, window: nat) returns (found: seq<AgentId>)
      ensures Distinct(found)
      ensures Ids(found) <= ClaimableAgents(db.View(), campaign)
      ensures |found| == Min(window, |ClaimableAgents(db.View(), campaign)|)
    {
      found := Take(ClaimableAgents(db.View(), campaign), window);
    }

    /** Nothing happens unless the worker holds the lease and the edge is the actor's to take; otherwise
        the agent is unleased, off its call and charged for the state it leaves. */
    method ReleaseAgent(a: AgentId, w: WorkerId, target: AgentState, actor: AgentSm.Actor, now: Time) returns (r: Option<Agent>)
      modifies db
      ensures r == StoreOps.ReleaseAgent(old(db.View()), a, w, target, actor, now)
      ensures db.View() == SetAgent(old(db.View()), a, r)
      ensures r.Some? <==>
                a in old(db.agents) && HeldBy(old(db.agents)[a].lease, w) && AgentSm.CanTransition(old(db.agents)[a].state, target)
                && AgentSm.IsActorAllowed(old(db.agents)[a].state, target, actor)
      ensures r.None? ==> db.View() == old(db.View())
      ensures r.Some? ==>
                var x := old(db.agents)[a];
                && db.View() == old(db.View()).(agents := old(db.agents)[a := r.value])
                && r.value == x.(state := target, lease := None, currentCall := None, version := x.version + 1, stateChangedAt := now,
                                 ledger := AgentRepo.Account(x.ledger, x.state, x.stateChangedAt, now))
    {
      if a in db.agents && AgentRepo.Release(db.agents[a], w, target, actor, now).Some? {
        AgentRepo.SwitchIsDirect(db.agents[a], w, target, actor, now);
      }
      r := StoreOps.ReleaseAgent(db.View(), a, w, target, actor, now);
      db.agents := Put(db.agents, a, r);
    }

    method TransitionAgent(a: AgentId, from: AgentState, to: AgentState, actor: AgentSm.Actor, version: nat, now: Time)
      returns (r: Option<Agent>)
      modifies db
      ensures r == StoreOps.TransitionAgent(old(db.View()), a, from, to, actor, version, now)
      ensures db.View() == SetAgent(old(db.View()), a, r)
    {
      r := StoreOps.TransitionAgent(db.View(), a, from, to, actor, version, now);
      db.agents := Put(db.agents, a, r);
    }

    method BindCall(a: AgentId, w: WorkerId, c: CallId) returns (r: Option<Agent>)
      modifies db
      ensures r == StoreOps.BindCall(old(db.View()), a, w, c)
      ensures db.View() == SetAgent(old(db.View()), a, r)
    {
      r := StoreOps.BindCall(db.View(), a, w, c);
      db.agents := Put(db.agents, a, r);
    }

    method FindExpiredAgentLeases(now: Time, limit: nat) returns (found: seq<AgentId>)
      ensures Distinct(found)
      ensures Ids(found) <= LeaseExpiredAgents(db.View(), now)
      ensures |Ids(found)| == Min(limit, |LeaseExpiredAgents(db.View(), now)|)
    {
      found := Take(LeaseExpiredAgents(db.View(), now), limit);
    }

    method ReleaseExpiredAgentLease(a: AgentId, seen: Agent, now: Time) returns (r: Option<Agent>)
      modifies db
      ensures r == ReleaseExpired(old(db.View()), a, seen, now)
      ensures db.View() == SetAgent(old(db.View()), a, r)
    {
      r := ReleaseExpired(db.View(), a, seen, now);
      db.agents := Put(db.agents, a, r);
    }

    method FindHeartbeatExpired(olderThan: Time, limit: nat) returns (found: seq<AgentId>)
      ensures Distinct(found)
      ensures Ids(found) <= HeartbeatExpiredAgents(db.View(), olderThan)
      ensures |Ids(found)| == Min(limit, |HeartbeatExpiredAgents(db.View(), olderThan)|)
    {
      found := Take(HeartbeatExpiredAgents(db.View(), olderThan), limit);
    }

    method FindExpiredWrapUps(olderThan: Time, limit: nat) returns (found: seq<AgentId>)
      ensures Distinct(found)
      ensures Ids(found) <= WrapUpExpiredAgents(db.View(), olderThan)
      ensures |Ids(found)| == Min(limit, |WrapUpExpiredAgents(db.View(), olderThan)|)
    {
      found := Take(WrapUpExpiredAgents(db.View(), olderThan), limit);
    }
  }

  class BorrowerRepository {
    const db: Collections

    constructor (db: Collections)
      ensures this.db == db
    {
      this.db := db;
    }

    method TryReserveBorrower(campaign: CampaignId, b: BorrowerId, w: WorkerId, ttl: Time, now: Time) returns (r: Option<Borrower>)
      modifies db
      ensures r == ReserveBorrower(old(db.View()), campaign, b, w, ttl, now)
      ensures db.View() == SetBorrower(old(db.View()), b, r)
    {
      r := ReserveBorrower(db.View(), campaign, b, w, ttl, now);
      db.borrowers := Put(db.borrowers, b, r);
    }

    method FindClaimableBorrowers(campaign: CampaignId, now: Time, window: nat) returns (found: seq<BorrowerId>)
      ensures Distinct(found)
      ensures Ids(found) <= ClaimableBorrowers(db.View(), campaign, now)
      ensures |found| == Min(window, |ClaimableBorrowers(db.View(), campaign, now)|)
    {
      found := Take(ClaimableBorrowers(db.View(), campaign, now), window);
    }

    method ReleaseBorrower(b: BorrowerId, w: WorkerId, outcome: BorrowerRepo.Outcome, cfg: Config, now: Time) returns (r: Option<Borrower>)
      modifies db
      ensures r == StoreOps.ReleaseBorrower(old(db.View()), b, w, outcome, cfg, now)
      ensures db.View() == SetBorrower(old(db.View()), b, r)
    {
      r := StoreOps.ReleaseBorrower(db.View(), b, w, outcome, cfg, now);
      db.borrowers := Put(db.borrowers, b, r);
    }

    method FindExpiredBorrowerLeases(now: Time, limit: nat) returns (found: seq<BorrowerId>)
      ensures Distinct(found)
      ensures Ids(found) <= LeaseExpiredBorrowers(db.View(), now)
      ensures |Ids(found)| == Min(limit, |LeaseExpiredBorrowers(db.View(), now)|)
    {
      found := Take(LeaseExpiredBorrowers(db.View(), now), limit);
    }

    method ReclaimBorrower(b: BorrowerId, seen: Borrower, now: Time) returns (r: Option<Borrower>)
      modifies db
      ensures r == StoreOps.ReclaimBorrower(old(db.View()), b, seen, now)
      ensures db.View() == SetBorrower(old(db.View()), b, r)
    {
      r := StoreOps.ReclaimBorrower(db.View(), b, seen, now);
      db.borrowers := Put(db.borrowers, b, r);
    }
  }

  class CallRepository {
    const db: Collections

    constructor (db: Collections)
      ensures this.db == db
    {
      this.db := db;
    }

    /** insert_one under the unique key index; on a duplicate the older document is read back. */
    method CreateCall(key: Key, provider: Provider, w: WorkerId, now: Time) returns (c: CallId, ghost id: CallId)
      modifies db
      ensures id !in old(db.calls)
      ensures (db.View(), c) == CallRepo.CreateCall(old(db.View()), key, provider, w, id, now)
    {
      c := db.UnusedCallId();
      id := c;
      if key in db.byKey {
        c := db.byKey[key];
      } else {
        db.calls := db.calls[c := CallRepo.NewCall(key, provider, w, now)];
        db.byKey := db.byKey[key := c];
      }
    }

    method TransitionCall(c: CallId, target: CallState, now: Time) returns (r: Option<Call>)
      modifies db
      ensures r == StoreOps.TransitionCall(old(db.View()), c, target, now)
      ensures db.View() == SetCall(old(db.View()), c, r)
    {
      r := StoreOps.TransitionCall(db.View(), c, target, now);
      db.calls := Put(db.calls, c, r);
    }

    method AttachProviderCallId(c: CallId, pid: nat, now: Time) returns (attached: bool)
      modifies db
      ensures attached == CallRepo.CanAttach(old(db.View()), c, pid)
      ensures db.View() == CallRepo.Attach(old(db.View()), c, pid, now)
    {
      attached := CallRepo.CanAttach(db.View(), c, pid);
      if attached {
        var r := Ref(db.calls[c].provider, pid);
        db.calls := db.calls[c := db.calls[c].(providerCallId := Some(pid), updatedAt := now)];
        db.byRef := db.byRef[r := c];
      }
    }

    method FindActive(campaign: CampaignId, limit: nat) returns (found: seq<CallId>)
      ensures Distinct(found)
      ensures Ids(found) <= ActiveCallsOf(db.View(), campaign)
      ensures |found| == Min(limit, |ActiveCallsOf(db.View(), campaign)|)
    {
      found := Take(ActiveCallsOf(db.View(), campaign), limit);
    }

    method FindStaleCalls(olderThan: Time, limit: nat) returns (found: seq<CallId>)
      ensures Distinct(found)
      ensures Ids(found) <= StaleCalls(db.View(), olderThan)
      ensures |Ids(found)| == Min(limit, |StaleCalls(db.View(), olderThan)|)
    {
      found := Take(StaleCalls(db.View(), olderThan), limit);
    }
  }

  class EventRepository {
    const db: Collections

    constructor (db: Collections)
      ensures this.db == db
    {
      this.db := db;
    }

    /** insert_one under the unique event id; false on a duplicate. */
    method RecordEvent(id: Ref) returns (recorded: bool)
      modifies db
      ensures recorded == (id !in old(db.events))
      ensures db.View() == old(db.View()).(events := old(db.events) + {id})
    {
      recorded := id !in db.events;
      db.events := db.events + {id};
    }
  }
}

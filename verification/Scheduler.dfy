/** internal/scheduler/scheduler.go: the per-service slots (Enqueue and the locked part of
    loop) and restart recovery. */
module Scheduler {
  import opened Model
  import opened Wrappers
  import opened Store
  import Lane

  datatype SvcState = SvcState(busy: bool, pending: Option<DeployId>)

  // ---- recovery, as a statement about the tables ----

  ghost function InFlight(t: Tables): set<DeployId> {
    set d | d in t.deploys && LeftInFlight(t, d)
  }

  lemma {:induction false} ClosedOutSettles(r: ExecRow, d: DeployId, reason: string)
    requires r.deploy == d
    ensures ClosedOut(r, d, reason).status.Terminal()
    ensures Unsettled(r.status) ==> ClosedOut(r, d, reason).status.Bad()
    ensures !Unsettled(r.status) ==> ClosedOut(r, d, reason) == r
  {
  }

  lemma {:induction false} BadAndSettledIsOver(t: Tables, d: DeployId, id: ExecId)
    requires id in t.execs && t.execs[id].deploy == d && t.execs[id].status.Bad()
    requires forall k :: k in t.execs && t.execs[k].deploy == d ==> t.execs[k].status.Terminal()
    ensures RolloutOver(t, d)
  {
    var present := t.StatusesOf(d);
    assert t.execs[id].status in present;
    assert present != {Superseded, Succeeded};
    TerminalMixAggregates(present);
  }

  ghost predicate HoldsUnsettled(t: Tables, d: DeployId, id: ExecId) {
    id in t.execs && t.execs[id].deploy == d && Unsettled(t.execs[id].status)
  }

  lemma {:induction false} LeftInFlightHolds(t: Tables, d: DeployId) returns (id: ExecId)
    requires LeftInFlight(t, d)
    ensures HoldsUnsettled(t, d, id)
  {
    id :| id in t.execs && t.execs[id].deploy == d && Unsettled(t.execs[id].status);
  }

  // A closed-out rollout is over, so its recompute finishes the deploy.
  lemma {:induction false} ClosedOutIsOver(t: Tables, t': Tables, reason: string, d: DeployId, id: ExecId)
    requires HoldsUnsettled(t, d, id) && t'.execs.Keys == t.execs.Keys
    requires forall k :: k in t.execs && t.execs[k].deploy == d ==> t'.execs[k] == ClosedOut(t.execs[k], d, reason)
    requires forall k :: k in t.execs ==> t'.execs[k].deploy == t.execs[k].deploy
    ensures RolloutOver(t', d)
    ensures forall k :: k in t'.execs && t'.execs[k].deploy == d ==> t'.execs[k].status.Terminal()
  {
    forall k | k in t'.execs && t'.execs[k].deploy == d
      ensures t'.execs[k].status.Terminal()
    {
      ClosedOutSettles(t.execs[k], d, reason);
    }
    ClosedOutSettles(t.execs[id], d, reason);
    BadAndSettledIsOver(t', d, id);
  }

  // ... and every recomputed row.
  ghost predicate RecomputedTables(t: Tables, t': Tables, ids: set<DeployId>) {
    && t'.execs == t.execs && t'.created == t.created
    && t'.deploys.Keys == t.deploys.Keys
    && forall d :: d in t.deploys ==>
         t'.deploys[d] == if d in ids then RecomputedRow(t, d, t.deploys[d]) else t.deploys[d]
  }

  // Which deploys a restart may put back on their service's lane: still queued, never started.
  ghost predicate Waiting(t: Tables, d: DeployId) {
    d in t.deploys && t.deploys[d].status.Queued? && !LeftInFlight(t, d)
  }

  // d waits and is followed by another waiting deploy of its service.
  ghost predicate OvertakenBy(t: Tables, d: DeployId, e: DeployId) {
    Before(t.created, d, e) && Waiting(t, d) && Waiting(t, e) && t.deploys[e].service == t.deploys[d].service
  }

  ghost function Overtaken(t: Tables): set<DeployId> {
    set d | d in t.deploys && exists e :: OvertakenBy(t, d, e)
  }

  ghost predicate Enqueues(t: Tables, d: DeployId) {
    Waiting(t, d) && d !in Overtaken(t)
  }

  // What Recover makes of the tables a crash left behind: the rollouts in `closed` are closed
  // out and finished, the deploys in `stale` superseded, everything else is untouched.
  ghost predicate RecoveredWith(t: Tables, t': Tables, reason: string, closed: set<DeployId>, stale: set<DeployId>) {
    && t'.created == t.created && t'.deploys.Keys == t.deploys.Keys && t'.execs.Keys == t.execs.Keys
    && (forall d :: d in t.deploys ==>
          t'.deploys[d] == if d in closed then t.deploys[d].(status := AggregateOf(t'.StatusesOf(d)), finished := true)
                           else if d in stale then SupersededDeploy(t.deploys[d])
                           else t.deploys[d])
    && (forall id :: id in t.execs ==>
          t'.execs[id] == if t.execs[id].deploy in closed then ClosedOut(t.execs[id], t.execs[id].deploy, reason)
                          else if t.execs[id].deploy in stale then SupersededExec(t.execs[id], t.execs[id].deploy)
                          else t.execs[id])
  }

  ghost predicate Recovered(t: Tables, t': Tables, reason: string) {
    RecoveredWith(t, t', reason, InFlight(t), Overtaken(t))
  }

  // ---- what recovery achieves, for any tables a crash may have left ----

  // Every started rollout that still had an unsettled execution is finished with a terminal
  // status, and all its executions are settled.
  lemma {:induction false} RecoveryFinishesStarted(t: Tables, t': Tables, reason: string, d: DeployId)
    requires Recovered(t, t', reason) && LeftInFlight(t, d)
    ensures t'.deploys[d].finished && t'.deploys[d].status.Terminal()
    ensures t'.deploys[d].status == AggregateOf(t'.StatusesOf(d))
    ensures forall id :: id in t'.execs && t'.execs[id].deploy == d ==> t'.execs[id].status.Terminal()
  {
    var id := LeftInFlightHolds(t, d);
    RecoveredRows(t, t', reason, InFlight(t), Overtaken(t), d);
    ClosedOutIsOver(t, t', reason, d, id);
  }

  lemma {:induction false} RecoveredRows(t: Tables, t': Tables, reason: string, closed: set<DeployId>,
          stale: set<DeployId>, d: DeployId)
    requires RecoveredWith(t, t', reason, closed, stale) && d in closed
    ensures forall k :: k in t.execs ==> t'.execs[k].deploy == t.execs[k].deploy
    ensures forall k :: k in t.execs && t.execs[k].deploy == d ==> t'.execs[k] == ClosedOut(t.execs[k], d, reason)
  {
  }

  // Results that were already recorded are never rewritten.
  lemma {:induction false} RecoveryKeepsResults(t: Tables, t': Tables, reason: string, id: ExecId)
    requires Recovered(t, t', reason) && id in t.execs && t.execs[id].status.Terminal()
    ensures t'.execs[id] == t.execs[id]
  {
  }

  // A started, unfinished deploy is finished by recovery exactly when it still had an
  // unsettled execution: a crash between the last transition and its recompute leaves a row
  // that stays unfinished.
  lemma {:induction false} RecoveryFinishesExactly(t: Tables, t': Tables, reason: string, d: DeployId)
    requires Recovered(t, t', reason) && d in t.deploys && !t.deploys[d].finished && !t.deploys[d].status.Queued?
    ensures t'.deploys[d].finished <==> exists id :: id in t.execs && t.execs[id].deploy == d && Unsettled(t.execs[id].status)
  {
  }

  // Of the waiting deploys of one service exactly the last created one is put back on the
  // lane; the others are superseded and finished.
  lemma {:induction false} RecoveryKeepsNewestOnly(t: Tables, t': Tables, reason: string, d: DeployId)
    requires t.Valid() && Recovered(t, t', reason) && Waiting(t, d)
    ensures Enqueues(t, d) ==> t'.deploys[d] == t.deploys[d]
    ensures !Enqueues(t, d) ==> t'.deploys[d].status == Superseded && t'.deploys[d].finished
    ensures exists e :: Enqueues(t, e) && t.deploys[e].service == t.deploys[d].service
  {
    assert d in t.created;
    var i :| 0 <= i < |t.created| && t.created[i] == d;
    var _ := LastWaiting(t, i, |t.created|, t.deploys[d].service);
  }

  // A deploy that recovery supersedes has no queued execution left; if it held nothing else it
  // is over, and its row reads what its executions aggregate to.
  lemma {:induction false} RecoverySupersedes(t: Tables, t': Tables, reason: string, d: DeployId)
    requires Recovered(t, t', reason) && Waiting(t, d) && !Enqueues(t, d)
    ensures QueuedSuperseded(t, t', d)
    ensures forall id :: id in t'.execs && t'.execs[id].deploy == d ==> t'.execs[id].status != Queued
    ensures OnlyQueued(t, d) ==> RolloutOver(t', d) && t'.deploys[d].status == AggregateOf(t'.StatusesOf(d)) == Superseded
  {
    SupersededIsOver(t, t', d);
  }

  // What was under way in a rollout that is closed out has failed, what was queued is
  // canceled, both for the reason given.
  lemma {:induction false} RecoveryClosesOut(t: Tables, t': Tables, reason: string, id: ExecId)
    requires Recovered(t, t', reason) && id in t.execs && LeftInFlight(t, t.execs[id].deploy)
    requires t.execs[id].deploy in t.deploys
    ensures t.execs[id].status in {Dispatching, Running} ==>
      t'.execs[id] == t.execs[id].(status := Failed, error := reason, finished := true)
    ensures t.execs[id].status == Queued ==>
      t'.execs[id] == t.execs[id].(status := Canceled, error := reason, finished := true)
    ensures t.execs[id].status.Terminal() ==> t'.execs[id] == t.execs[id]
  {
  }

  // Executions of deploys that are neither closed out nor superseded are left alone.
  lemma {:induction false} RecoveryLeavesTheRest(t: Tables, t': Tables, reason: string, id: ExecId)
    requires Recovered(t, t', reason) && id in t.execs
    requires !LeftInFlight(t, t.execs[id].deploy) && (Waiting(t, t.execs[id].deploy) ==> Enqueues(t, t.execs[id].deploy))
    ensures t'.execs[id] == t.execs[id]
  {
  }

  lemma {:induction false} LastWaiting(t: Tables, i: nat, n: nat, s: Service) returns (last: DeployId)
    requires t.Valid() && i < n <= |t.created|
    requires Waiting(t, t.created[i]) && t.deploys[t.created[i]].service == s
    requires forall j :: n <= j < |t.created| && Waiting(t, t.created[j]) ==> t.deploys[t.created[j]].service != s
    ensures Enqueues(t, last) && t.deploys[last].service == s
    decreases n
  {
    var d := t.created[n - 1];
    if Waiting(t, d) && t.deploys[d].service == s {
      last := d;
      forall k, j | 0 <= k < j < |t.created| && t.created[k] == d && Waiting(t, t.created[j])
        ensures t.deploys[t.created[j]].service != s
      {
        assert k == n - 1;
      }
    } else {
      last := LastWaiting(t, i, n - 1, s);
    }
  }

  lemma {:induction false} OneNewestPerService(t: Tables, d: DeployId, e: DeployId)
    requires t.Valid() && Enqueues(t, d) && Enqueues(t, e) && t.deploys[d].service == t.deploys[e].service
    ensures d == e
  {
    assert d in t.created && e in t.created;
    var i :| 0 <= i < |t.created| && t.created[i] == d;
    var j :| 0 <= j < |t.created| && t.created[j] == e;
    assert i < j ==> Before(t.created, d, e) && OvertakenBy(t, d, e);
    assert j < i ==> Before(t.created, e, d) && OvertakenBy(t, e, d);
  }

  // ---- the steps of Recover ----

  ghost predicate SameService(t: Tables, d: DeployId, e: DeployId) {
    d in t.deploys && e in t.deploys && t.deploys[d].service == t.deploys[e].service
  }

  ghost predicate OvertakenIn(t: Tables, queued: seq<DeployId>, d: DeployId) {
    exists e :: Before(queued, d, e) && SameService(t, d, e)
  }

  ghost function AllOvertaken(t: Tables, queued: seq<DeployId>): set<DeployId> {
    set d | d in t.deploys && OvertakenIn(t, queued, d)
  }

  ghost predicate SupersededTables(t: Tables, t': Tables, stale: set<DeployId>) {
    && t'.created == t.created && t'.deploys.Keys == t.deploys.Keys && t'.execs.Keys == t.execs.Keys
    && (forall d :: d in t.deploys ==>
          t'.deploys[d] == if d in stale then SupersededDeploy(t.deploys[d]) else t.deploys[d])
    && (forall id :: id in t.execs ==>
          t'.execs[id] == if t.execs[id].deploy in stale then SupersededExec(t.execs[id], t.execs[id].deploy) else t.execs[id])
  }

  ghost predicate IsLatest(t: Tables, queued: seq<DeployId>, latest: map<Service, DeployId>) {
    && (forall s :: s in latest ==> latest[s] in queued && latest[s] in t.deploys && t.deploys[latest[s]].service == s
                                    && !OvertakenIn(t, queued, latest[s]))
    && (forall d :: d in queued && d in t.deploys ==>
          t.deploys[d].service in latest && (OvertakenIn(t, queued, d) || latest[t.deploys[d].service] == d))
  }

  class Scheduler {
    const store: Store
    var services: map<Service, SvcState>
    var shutdown: bool                          // the root context is done
    ghost var lanes: map<Service, Lane.Lane>    // each slot with its loops and history

    ghost predicate Valid()
      reads this
    {
      && lanes.Keys == services.Keys
      && forall s :: s in services ==> services[s] == SvcState(lanes[s].busy, lanes[s].pending)
    }

    ghost function LaneOf(s: Service): Lane.Lane
      reads this
    {
      if s in lanes then lanes[s] else Lane.Empty()
    }

    constructor (st: Store)
      ensures store == st && Valid() && services == map[] && !shutdown
    {
      store := st;
      services := map[];
      shutdown := false;
      lanes := map[];
    }

    method Enqueue(service: Service, d: DeployId)
      requires Valid()
      modifies this`services, this`lanes, store`deploys, store`execs, store`published
      ensures Valid()
      ensures lanes == old(lanes)[service := Lane.Enqueued(old(LaneOf(service)), d)]
      ensures store.T() ==
              if old(LaneOf(service).busy && LaneOf(service).pending.Some?)
              then Supersede(old(store.T()), old(LaneOf(service).pending.value)) else old(store.T())
      ensures old(LaneOf(service).busy && LaneOf(service).pending.Some?) ==>
                var displaced := old(LaneOf(service).pending.value);
                && QueuedSuperseded(old(store.T()), store.T(), displaced)
                && (OnlyQueued(old(store.T()), displaced) ==>
                      && RolloutOver(store.T(), displaced) && store.deploys[displaced].finished
                      && store.deploys[displaced].status == AggregateOf(store.T().StatusesOf(displaced)) == Superseded)
    {
      if LaneOf(service).pending.Some? {
        SupersedeSettles(store.T(), LaneOf(service).pending.value);
      }
      var st := if service in services then services[service] else SvcState(false, None);
      lanes := lanes[service := Lane.Enqueued(LaneOf(service), d)];
      if st.busy {
        if st.pending.Some? {
          store.MarkDeploySuperseded(st.pending.value);
        }
        services := services[service := SvcState(true, Some(d))];
        return;
      }
      services := services[service := SvcState(true, st.pending)];
    }

    // What loop does under the lock each time runDeploy returns; None means it exits.
    method LoopNext(service: Service, ghost k: nat) returns (next: Option<DeployId>)
      requires Valid() && service in services && k < |lanes[service].loops|
      modifies this`services, this`lanes
      ensures Valid()
      ensures lanes == old(lanes)[service := Lane.LoopNext(old(lanes)[service], k, shutdown)]
      ensures next == if shutdown then None else old(lanes)[service].pending
    {
      var st := services[service];
      lanes := lanes[service := Lane.LoopNext(lanes[service], k, shutdown)];
      if st.pending.Some? && !shutdown {
        next := st.pending;
        services := services[service := st.(pending := None)];
        return;
      }
      services := services[service := st.(busy := false)];
      return None;
    }

    // The recomputes of Recover, one per closed-out deploy.
    method RecomputeAll(ids: seq<DeployId>)
      modifies store`deploys, store`published
      ensures RecomputedTables(old(store.T()), store.T(), Occurs(ids) * old(store.deploys).Keys)
    {
      var i := 0;
      while i < |ids|
        invariant 0 <= i <= |ids|
        invariant RecomputedTables(old(store.T()), store.T(), Occurs(ids[..i]) * old(store.deploys).Keys)
      {
        assert Occurs(ids[..i + 1]) == Occurs(ids[..i]) + {ids[i]};
        ghost var before := store.T();
        var _, _ := store.RecomputeDeployStatus(ids[i]);
        RecomputeAgain(old(store.T()), before, ids[i]);
        i := i + 1;
      }
      assert ids[..|ids|] == ids;
    }

    // One round: the next queued deploy overtakes the one kept for its service so far.
    method Overtake(ghost t: Tables, ghost queued: seq<DeployId>, d: DeployId, latest: map<Service, DeployId>)
      returns (latest': map<Service, DeployId>)
      requires d in t.deploys && d !in queued && IsLatest(t, queued, latest)
      requires SupersededTables(t, store.T(), AllOvertaken(t, queued))
      modifies store`deploys, store`execs, store`published
      ensures SupersededTables(t, store.T(), AllOvertaken(t, queued + [d]))
      ensures IsLatest(t, queued + [d], latest')
    {
      var service := store.deploys[d].service;
      assert service == t.deploys[d].service;
      ghost var before := store.T();
      if service in latest {
        store.MarkDeploySuperseded(latest[service]);
      }
      SupersedeNext(t, before, store.T(), queued, d, latest);
      NextLatest(t, queued, d, latest);
      return latest[service := d];
    }

    // Supersedes every queued deploy but the last of each service, and returns those.
    method SupersedeOvertaken(queued: seq<DeployId>) returns (latest: map<Service, DeployId>)
      requires forall i :: 0 <= i < |queued| ==> queued[i] in store.deploys && store.deploys[queued[i]].status.Queued?
      requires Lane.Distinct(queued) && store.T().Valid()
      modifies store`deploys, store`execs, store`published
      ensures SupersededTables(old(store.T()), store.T(), AllOvertaken(old(store.T()), queued))
      ensures IsLatest(old(store.T()), queued, latest)
    {
      latest := map[];
      ghost var t := store.T();
      var i := 0;
      while i < |queued|
        invariant 0 <= i <= |queued|
        invariant SupersededTables(t, store.T(), AllOvertaken(t, queued[..i]))
        invariant IsLatest(t, queued[..i], latest)
      {
        assert queued[..i + 1] == queued[..i] + [queued[i]] && queued[i] !in queued[..i];
        latest := Overtake(t, queued[..i], queued[i], latest);
        i := i + 1;
      }
      assert queued[..|queued|] == queued;
    }

    // The first half of Recover: rollouts left in flight are closed out and recomputed.
    method FinishLeftovers(reason: string) returns (ghost closed: Tables)
      requires store.T().Valid()
      modifies store`deploys, store`execs, store`published
      ensures ClosedOutTables(old(store.T()), closed, reason, InFlight(old(store.T())))
      ensures RecomputedTables(closed, store.T(), InFlight(old(store.T())))
      ensures store.T().Valid()
    {
      ghost var t0 := store.T();
      var ids := store.RecoverInFlight(reason);
      closed := store.T();
      RecomputeAll(ids);
      assert Occurs(ids) * closed.deploys.Keys == InFlight(t0);
    }

    // The second half: of the deploys that wait, the newest of each service is kept.
    method SupersedeWaiting(ghost t0: Tables, ghost t1: Tables, ghost reason: string)
      returns (latest: map<Service, DeployId>)
      requires t0.Valid() && store.T().Valid()
      requires ClosedOutTables(t0, t1, reason, InFlight(t0)) && RecomputedTables(t1, store.T(), InFlight(t0))
      modifies store`deploys, store`execs, store`published
      ensures SupersededTables(old(store.T()), store.T(), Overtaken(t0))
      ensures forall s :: s in latest ==> latest[s] in t0.deploys && t0.deploys[latest[s]].service == s
      ensures forall d :: d in t0.deploys ==>
                (Enqueues(t0, d) <==> t0.deploys[d].service in latest && latest[t0.deploys[d].service] == d)
    {
      ghost var t2 := store.T();
      SameServices(t0, t1, t2, reason);
      var queued := ListWaiting(t0, t1, reason);
      latest := SupersedeOvertaken(queued);
      OvertakenAfterClosing(t0, t1, t2, reason);
      LatestIsEnqueued(t0, t2, queued, latest);
    }

    // The table updates of Recover; what comes back is the newest waiting deploy per service.
    method RecoverTables(reason: string) returns (latest: map<Service, DeployId>)
      requires store.T().Valid()
      modifies store`deploys, store`execs, store`published
      ensures Recovered(old(store.T()), store.T(), reason)
      ensures forall s :: s in latest ==> latest[s] in old(store.deploys) && old(store.deploys)[latest[s]].service == s
      ensures forall d :: d in old(store.deploys) ==>
                (Enqueues(old(store.T()), d) <==>
                 old(store.deploys)[d].service in latest && latest[old(store.deploys)[d].service] == d)
    {
      ghost var t0 := store.T();
      ghost var t1 := FinishLeftovers(reason);
      ghost var t2 := store.T();
      latest := SupersedeWaiting(t0, t1, reason);
      RecoveredTogether(t0, t1, t2, store.T(), reason);
    }

    // After the recomputes, the queued deploys are the waiting ones, in creation order.
    method ListWaiting(ghost t0: Tables, ghost t1: Tables, ghost reason: string) returns (queued: seq<DeployId>)
      requires t0.Valid() && store.T().Valid()
      requires ClosedOutTables(t0, t1, reason, InFlight(t0)) && RecomputedTables(t1, store.T(), InFlight(t0))
      ensures queued == QueuedIn(store.T(), store.created) && Lane.Distinct(queued)
      ensures forall d :: d in queued <==> Waiting(t0, d)
      ensures forall i :: 0 <= i < |queued| ==> queued[i] in store.deploys && store.deploys[queued[i]].status.Queued?
    {
      queued := store.ListQueuedDeploys();
      QueuedInDistinct(store.T(), store.created);
      forall d
        ensures d in queued <==> Waiting(t0, d)
        ensures d in queued ==> QueuedRow(store.T(), d)
      {
        QueuedAfterClosing(t0, t1, store.T(), reason, d);
        QueuedInElements(store.T(), store.created, d);
      }
      forall i | 0 <= i < |queued|
        ensures QueuedRow(store.T(), queued[i])
      {
        assert queued[i] in queued;
      }
    }

    // Recover runs once, at startup, before anything is enqueued.
    method Recover(reason: string)
      requires Valid() && services == map[] && store.T().Valid()
      modifies this`services, this`lanes, store`deploys, store`execs, store`published
      ensures Valid()
      ensures Recovered(old(store.T()), store.T(), reason)
      ensures forall d :: d in old(store.deploys) ==>
                (Enqueues(old(store.T()), d) <==>
                 old(store.deploys)[d].service in lanes
                 && lanes[old(store.deploys)[d].service] == Lane.Enqueued(Lane.Empty(), d))
      ensures forall s :: s in lanes ==> exists d :: d in old(store.deploys) && Enqueues(old(store.T()), d)
                                                      && old(store.deploys)[d].service == s
    {
      var latest := RecoverTables(reason);
      EnqueueAll(latest);
      forall d: DeployId, e: DeployId
        ensures Lane.Enqueued(Lane.Empty(), d) == Lane.Enqueued(Lane.Empty(), e) <==> d == e
      {
        assert Lane.Enqueued(Lane.Empty(), d).enqueued == [d];
        assert Lane.Enqueued(Lane.Empty(), e).enqueued == [e];
        assert [d][0] == d;
      }
      assert forall s :: s in lanes ==> latest[s] in old(store.deploys);
    }

    method EnqueueAll(latest: map<Service, DeployId>)
      requires Valid() && services == map[]
      modifies this`services, this`lanes, store`deploys, store`execs, store`published
      ensures Valid() && store.T() == old(store.T())
      ensures lanes.Keys == latest.Keys
      ensures forall s :: s in lanes ==> lanes[s] == Lane.Enqueued(Lane.Empty(), latest[s])
    {
      var todo := latest.Keys;
      while todo != {}
        invariant todo <= latest.Keys && Valid()
        invariant lanes.Keys == latest.Keys - todo
        invariant store.T() == old(store.T())
        invariant forall s :: s in lanes ==> lanes[s] == Lane.Enqueued(Lane.Empty(), latest[s])
        decreases todo
      {
        var s :| s in todo;
        Enqueue(s, latest[s]);
        todo := todo - {s};
      }
    }
  }

  // Recomputing depends on the executions only, and doing it twice changes nothing more.
  lemma {:induction false} RecomputeAgain(t: Tables, t': Tables, d: DeployId)
    requires t'.execs == t.execs
    ensures t'.StatusesOf(d) == t.StatusesOf(d) && (RolloutOver(t', d) <==> RolloutOver(t, d))
    ensures d in t.deploys ==> RecomputedRow(t, d, RecomputedRow(t, d, t.deploys[d])) == RecomputedRow(t, d, t.deploys[d])
  {
  }

  // One more queued deploy overtakes the one that was latest in its service, if any.
  lemma {:induction false} NextOvertakes(t: Tables, queued: seq<DeployId>, d: DeployId, latest: map<Service,
          DeployId>, k: DeployId)
    requires d in t.deploys && d !in queued && IsLatest(t, queued, latest) && k in t.deploys
    ensures var s := t.deploys[d].service;
      OvertakenIn(t, queued + [d], k) <==> OvertakenIn(t, queued, k) || (s in latest && latest[s] == k)
  {
    forall e
      ensures Before(queued + [d], k, e) <==> Before(queued, k, e) || (k in queued && e == d)
    {
      BeforeAppend(queued, d, k, e);
    }
    if k in queued && t.deploys[k].service == t.deploys[d].service {
      assert SameService(t, k, d) && Before(queued + [d], k, d);
    }
    if OvertakenIn(t, queued, k) {
      var e :| Before(queued, k, e) && SameService(t, k, e);
      assert Before(queued + [d], k, e);
    }
  }

  lemma {:induction false} NextLatest(t: Tables, queued: seq<DeployId>, d: DeployId, latest: map<Service, DeployId>)
    requires d in t.deploys && d !in queued && IsLatest(t, queued, latest)
    ensures IsLatest(t, queued + [d], latest[t.deploys[d].service := d])
  {
    forall k | k in t.deploys
      ensures OvertakenIn(t, queued + [d], k) <==>
              OvertakenIn(t, queued, k) || (t.deploys[d].service in latest && latest[t.deploys[d].service] == k)
    {
      NextOvertakes(t, queued, d, latest, k);
    }
    assert forall e :: Before(queued, d, e) ==> d in queued;
  }

  lemma {:induction false} SupersedeOneMore(t: Tables, t': Tables, stale: set<DeployId>, d: DeployId)
    requires SupersededTables(t, t', stale)
    ensures SupersededTables(t, Supersede(t', d), stale + {d})
  {
  }

  lemma {:induction false} SupersedeNext(t: Tables, before: Tables, after: Tables, queued: seq<DeployId>,
          d: DeployId, latest: map<Service, DeployId>)
    requires d in t.deploys && d !in queued && IsLatest(t, queued, latest)
    requires SupersededTables(t, before, AllOvertaken(t, queued))
    requires after == if t.deploys[d].service in latest then Supersede(before, latest[t.deploys[d].service]) else before
    ensures SupersededTables(t, after, AllOvertaken(t, queued + [d]))
  {
    var s := t.deploys[d].service;
    forall k | k in t.deploys
      ensures OvertakenIn(t, queued + [d], k) <==> OvertakenIn(t, queued, k) || (s in latest && latest[s] == k)
    {
      NextOvertakes(t, queued, d, latest, k);
    }
    if s in latest {
      assert AllOvertaken(t, queued + [d]) == AllOvertaken(t, queued) + {latest[s]};
      SupersedeOneMore(t, before, AllOvertaken(t, queued), latest[s]);
    } else {
      assert AllOvertaken(t, queued + [d]) == AllOvertaken(t, queued);
    }
  }

  lemma {:induction false} SameServices(t0: Tables, t1: Tables, t2: Tables, reason: string)
    requires ClosedOutTables(t0, t1, reason, InFlight(t0)) && RecomputedTables(t1, t2, InFlight(t0))
    ensures t2.deploys.Keys == t0.deploys.Keys
    ensures forall d :: d in t0.deploys ==> t2.deploys[d].service == t0.deploys[d].service
  {
  }

  // The deploys kept are those that recovery puts back on their lanes.
  lemma {:induction false} LatestIsEnqueued(t0: Tables, t2: Tables, queued: seq<DeployId>, latest: map<Service, DeployId>)
    requires IsLatest(t2, queued, latest) && AllOvertaken(t2, queued) == Overtaken(t0)
    requires forall d :: d in queued <==> Waiting(t0, d)
    requires t2.deploys.Keys == t0.deploys.Keys
    requires forall d :: d in t0.deploys ==> t2.deploys[d].service == t0.deploys[d].service
    ensures forall s :: s in latest ==> latest[s] in t0.deploys && t0.deploys[latest[s]].service == s
    ensures forall d :: d in t0.deploys ==>
              (Enqueues(t0, d) <==> t0.deploys[d].service in latest && latest[t0.deploys[d].service] == d)
  {
    forall d | d in t0.deploys
      ensures Enqueues(t0, d) <==> t0.deploys[d].service in latest && latest[t0.deploys[d].service] == d
    {
      assert d in Overtaken(t0) <==> OvertakenIn(t2, queued, d);
    }
  }

  // ---- putting the steps together ----

  ghost predicate ClosedOutTables(t: Tables, t': Tables, reason: string, closed: set<DeployId>) {
    && t'.deploys == t.deploys && t'.created == t.created
    && t'.execs.Keys == t.execs.Keys
    && forall id :: id in t.execs ==>
         t'.execs[id] == if t.execs[id].deploy in closed then ClosedOut(t.execs[id], t.execs[id].deploy, reason) else t.execs[id]
  }

  // After the close-outs and their recomputes exactly the waiting deploys still read queued.
  lemma {:induction false} QueuedAfterClosing(t0: Tables, t1: Tables, t2: Tables, reason: string, d: DeployId)
    requires ClosedOutTables(t0, t1, reason, InFlight(t0)) && RecomputedTables(t1, t2, InFlight(t0))
    ensures QueuedRow(t2, d) <==> Waiting(t0, d)
    ensures d in t0.deploys ==>
              t2.deploys[d] == if LeftInFlight(t0, d)
                               then t0.deploys[d].(status := AggregateOf(t1.StatusesOf(d)), finished := true) else t0.deploys[d]
  {
    if LeftInFlight(t0, d) {
      var id := LeftInFlightHolds(t0, d);
      ClosedOutIsOver(t0, t1, reason, d, id);
    }
  }

  lemma {:induction false} OvertakenAfterClosing(t0: Tables, t1: Tables, t2: Tables, reason: string)
    requires ClosedOutTables(t0, t1, reason, InFlight(t0)) && RecomputedTables(t1, t2, InFlight(t0))
    ensures AllOvertaken(t2, QueuedIn(t2, t2.created)) == Overtaken(t0)
  {
    forall d, e
      ensures Before(QueuedIn(t2, t2.created), d, e) && SameService(t2, d, e) <==> OvertakenBy(t0, d, e)
    {
      QueuedInOrder(t2, t2.created, d, e);
      QueuedAfterClosing(t0, t1, t2, reason, d);
      QueuedAfterClosing(t0, t1, t2, reason, e);
    }
  }

  lemma {:induction false} SameStatuses(t: Tables, t': Tables, d: DeployId)
    requires t'.execs.Keys == t.execs.Keys
    requires forall id :: id in t.execs && (t.execs[id].deploy == d || t'.execs[id].deploy == d) ==> t'.execs[id] == t.execs[id]
    ensures t'.StatusesOf(d) == t.StatusesOf(d)
  {
  }

  lemma {:induction false} RecoveredInSteps(t0: Tables, t1: Tables, t2: Tables, t3: Tables, reason: string,
                                            closed: set<DeployId>, stale: set<DeployId>)
    requires closed !! stale
    requires ClosedOutTables(t0, t1, reason, closed) && RecomputedTables(t1, t2, closed)
    requires forall d :: d in t0.deploys && d in closed ==>
                           t2.deploys[d] == t0.deploys[d].(status := AggregateOf(t1.StatusesOf(d)), finished := true)
    requires SupersededTables(t2, t3, stale)
    ensures RecoveredWith(t0, t3, reason, closed, stale)
  {
    forall d | d in closed
      ensures t3.StatusesOf(d) == t1.StatusesOf(d)
    {
      SameStatuses(t1, t3, d);
    }
  }

  lemma {:induction false} RecoveredTogether(t0: Tables, t1: Tables, t2: Tables, t3: Tables, reason: string)
    requires ClosedOutTables(t0, t1, reason, InFlight(t0)) && RecomputedTables(t1, t2, InFlight(t0))
    requires SupersededTables(t2, t3, Overtaken(t0))
    ensures Recovered(t0, t3, reason)
  {
    forall d | d in t0.deploys && d in InFlight(t0)
      ensures t2.deploys[d] == t0.deploys[d].(status := AggregateOf(t1.StatusesOf(d)), finished := true)
    {
      QueuedAfterClosing(t0, t1, t2, reason, d);
    }
    RecoveredInSteps(t0, t1, t2, t3, reason, InFlight(t0), Overtaken(t0));
  }
}

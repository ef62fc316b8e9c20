/** internal/store/deploys.go: the deploy and execution tables and the guarded updates the
    scheduler performs on them. A table is a map from id to row; the order in which deploys
    were created is given. Every SQL statement is one atomic update; the single connection of
    the store serialises them. */
module Store {
  import opened Model

  type Service = nat

  // `finished` is finished_at IS NOT NULL.
  datatype DeployRow = DeployRow(service: Service, digest: Digest, status: Status, finished: bool)
  datatype ExecRow = ExecRow(deploy: DeployId, wave: nat, status: Status, error: string, started: bool, finished: bool)

  datatype Tables = Tables(deploys: map<DeployId, DeployRow>, execs: map<ExecId, ExecRow>, created: seq<DeployId>) {
    // Foreign keys hold and every deploy has one place in the creation order.
    ghost predicate Valid() {
      && (forall id :: id in execs ==> execs[id].deploy in deploys)
      && (forall d :: d in created <==> d in deploys)
      && (forall i, j :: 0 <= i < j < |created| ==> created[i] != created[j])
    }

    ghost function StatusesOf(d: DeployId): set<Status> {
      set id | id in execs && execs[id].deploy == d :: execs[id].status
    }
  }

  predicate Unsettled(s: Status) {
    s.Queued? || s.Dispatching? || s.Running?
  }

  // ---- what each statement does to one row ----

  function Transitioned(r: ExecRow, to: Status, errMsg: string): ExecRow {
    if to.Running? then r.(status := to, started := true)
    else if to.Terminal() then r.(status := to, error := errMsg, finished := true)
    else r.(status := to)
  }

  function SupersededExec(r: ExecRow, d: DeployId): ExecRow {
    if r.deploy == d && r.status.Queued? then r.(status := Superseded, finished := true) else r
  }

  function SupersededDeploy(r: DeployRow): DeployRow {
    if r.status.Queued? then r.(status := Superseded, finished := true) else r
  }

  // A rollout that a restart cut off: what was under way failed, what was still
  // queued will never be dispatched.
  function ClosedOut(r: ExecRow, d: DeployId, reason: string): ExecRow {
    if r.deploy != d then r
    else if r.status.Dispatching? || r.status.Running? then r.(status := Failed, error := reason, finished := true)
    else if r.status.Queued? then r.(status := Canceled, error := reason, finished := true)
    else r
  }

  // ---- what each operation does to the tables ----

  ghost function Supersede(t: Tables, d: DeployId): Tables {
    t.(execs := map id | id in t.execs :: SupersededExec(t.execs[id], d),
       deploys := map k | k in t.deploys :: if k == d then SupersededDeploy(t.deploys[k]) else t.deploys[k])
  }

  ghost predicate RolloutOver(t: Tables, d: DeployId) {
    AggregateOf(t.StatusesOf(d)).Terminal() && AllTerminalOf(t.StatusesOf(d))
  }

  // TransitionExecution: a compare-and-set on the status column.
  ghost predicate Wins(t: Tables, id: ExecId, from: Status) {
    id in t.execs && t.execs[id].status == from
  }

  ghost function TransitionedIn(t: Tables, id: ExecId, from: Status, to: Status, errMsg: string): Tables {
    if Wins(t, id, from) then t.(execs := t.execs[id := Transitioned(t.execs[id], to, errMsg)]) else t
  }

  ghost function DigestSet(t: Tables, d: DeployId, digest: Digest): Tables {
    if d in t.deploys then t.(deploys := t.deploys[d := t.deploys[d].(digest := digest)]) else t
  }

  // RecomputeDeployStatus as one step: the terminal update is guarded by finished_at.
  ghost function RecomputedRow(t: Tables, d: DeployId, r: DeployRow): DeployRow {
    if !RolloutOver(t, d) then r.(status := AggregateOf(t.StatusesOf(d)))
    else if r.finished then r
    else r.(status := AggregateOf(t.StatusesOf(d)), finished := true)
  }

  ghost function Recompute(t: Tables, d: DeployId): Tables {
    if d in t.deploys then t.(deploys := t.deploys[d := RecomputedRow(t, d, t.deploys[d])]) else t
  }

  // RecoverInFlight selects unfinished deploys that hold an unsettled execution, unless the
  // deploy never started and holds nothing but queued ones.
  ghost predicate LeftInFlight(t: Tables, d: DeployId) {
    && d in t.deploys && !t.deploys[d].finished
    && exists id :: id in t.execs && t.execs[id].deploy == d && Unsettled(t.execs[id].status)
         && (!t.deploys[d].status.Queued? || !t.execs[id].status.Queued?)
  }

  // The deploy never started and still holds all its executions.
  ghost predicate OnlyQueued(t: Tables, d: DeployId) {
    && d in t.deploys && t.deploys[d].status == Queued
    && (exists id :: id in t.execs && t.execs[id].deploy == d)
    && forall id :: id in t.execs && t.execs[id].deploy == d ==> t.execs[id].status == Queued
  }

  // Every execution of d that was queued reads superseded and is finished, and every other
  // execution of d is as it was.
  ghost predicate QueuedSuperseded(t: Tables, t': Tables, d: DeployId) {
    && t'.execs.Keys == t.execs.Keys
    && (forall id :: id in t.execs && t.execs[id].deploy == d ==>
          t'.execs[id] == if t.execs[id].status == Queued then t.execs[id].(status := Superseded, finished := true)
                          else t.execs[id])
    && forall id :: id in t.execs && t.execs[id].deploy != d ==> t'.execs[id].deploy != d
  }

  // A deploy that never started is over once its queued executions are superseded, and what
  // they aggregate to is superseded.
  lemma {:induction false} SupersededIsOver(t: Tables, t': Tables, d: DeployId)
    requires QueuedSuperseded(t, t', d)
    ensures forall id :: id in t'.execs && t'.execs[id].deploy == d ==> t'.execs[id].status != Queued
    ensures OnlyQueued(t, d) ==> RolloutOver(t', d) && AggregateOf(t'.StatusesOf(d)) == Superseded
  {
    if OnlyQueued(t, d) {
      var id :| id in t.execs && t.execs[id].deploy == d;
      assert t'.execs[id].status in t'.StatusesOf(d);
      assert t'.StatusesOf(d) == {Superseded};
    }
  }

  lemma {:induction false} SupersedeSettles(t: Tables, d: DeployId)
    ensures QueuedSuperseded(t, Supersede(t, d), d)
    ensures OnlyQueued(t, d) ==>
      var t' := Supersede(t, d);
      RolloutOver(t', d) && t'.deploys[d].finished && t'.deploys[d].status == AggregateOf(t'.StatusesOf(d)) == Superseded
  {
    SupersededIsOver(t, Supersede(t, d), d);
  }

  class Store {
    var deploys: map<DeployId, DeployRow>
    var execs: map<ExecId, ExecRow>
    var created: seq<DeployId>
    ghost var published: seq<(DeployId, Status)>   // the Done events handed to the broadcaster

    ghost function T(): Tables
      reads this
    {
      Tables(deploys, execs, created)
    }

    constructor ()
      ensures T() == Tables(map[], map[], []) && T().Valid() && published == []
    {
      deploys, execs, created := map[], map[], [];
      published := [];
    }

    method TransitionExecution(id: ExecId, from: Status, to: Status, errMsg: string) returns (won: bool)
      modifies this`execs
      ensures won <==> Wins(old(T()), id, from)
      ensures T() == TransitionedIn(old(T()), id, from, to, errMsg)
      ensures won ==> execs[id].status == to && execs[id].deploy == old(execs)[id].deploy
      ensures won ==> execs[id].started == (old(execs)[id].started || to.Running?)
      ensures won ==> execs[id].finished == (old(execs)[id].finished || to.Terminal())
      ensures won ==> execs[id].error == if to.Terminal() then errMsg else old(execs)[id].error
    {
      if id !in execs || execs[id].status != from {
        return false;
      }
      if to.Running? {
        execs := execs[id := execs[id].(status := to, started := true)];
      } else if to.Terminal() {
        execs := execs[id := execs[id].(status := to, error := errMsg, finished := true)];
      } else {
        execs := execs[id := execs[id].(status := to)];
      }
      return true;
    }

    method ExecStatuses(d: DeployId) returns (statuses: seq<Status>)
      ensures Occurring(statuses) == T().StatusesOf(d)
    {
      statuses := [];
      var todo := execs.Keys;
      while todo != {}
        invariant todo <= execs.Keys
        invariant Occurring(statuses) == set id | id in execs.Keys - todo && execs[id].deploy == d :: execs[id].status
        decreases todo
      {
        var id :| id in todo;
        ghost var before := statuses;
        ghost var done := execs.Keys - todo;
        if execs[id].deploy == d {
          statuses := statuses + [execs[id].status];
          assert Occurring(statuses) == Occurring(before) + {execs[id].status};
        }
        todo := todo - {id};
        assert execs.Keys - todo == done + {id};
      }
    }

    method RecomputeDeployStatus(d: DeployId) returns (status: Status, settled: bool)
      modifies this`deploys, this`published
      ensures T() == Recompute(old(T()), d)
      ensures status == AggregateOf(old(T()).StatusesOf(d))
      ensures settled <==> d in old(deploys) && !old(deploys)[d].finished && RolloutOver(old(T()), d)
      ensures settled ==> deploys[d].finished && published == old(published) + [(d, status)]
      ensures !settled ==> published == old(published)
    {
      var statuses := ExecStatuses(d);
      status := AggregateStatus(statuses);
      var over := AllTerminal(statuses);
      if status.Terminal() && over {
        if d in deploys && !deploys[d].finished {
          deploys := deploys[d := deploys[d].(status := status, finished := true)];
          published := published + [(d, status)];
          return status, true;
        }
        assert d in deploys ==> deploys == deploys[d := deploys[d]];
        return status, false;
      }
      if d in deploys {
        deploys := deploys[d := deploys[d].(status := status)];
      }
      return status, false;
    }

    method MarkDeploySuperseded(d: DeployId)
      modifies this`deploys, this`execs, this`published
      ensures T() == Supersede(old(T()), d)
      ensures execs.Keys == old(execs).Keys
      ensures forall id :: id in execs && old(execs)[id].deploy == d && old(execs)[id].status == Queued ==>
                execs[id] == old(execs)[id].(status := Superseded, finished := true)
      ensures forall id :: id in execs && (old(execs)[id].deploy != d || old(execs)[id].status != Queued) ==>
                execs[id] == old(execs)[id]
      ensures d in deploys && old(deploys)[d].status == Queued ==>
                deploys[d] == old(deploys)[d].(status := Superseded, finished := true)
      ensures published == old(published) + [(d, Superseded)]
    {
      execs := map id | id in execs :: SupersededExec(execs[id], d);
      deploys := map k | k in deploys :: if k == d then SupersededDeploy(deploys[k]) else deploys[k];
      published := published + [(d, Superseded)];
    }

    method SetDeployDigest(d: DeployId, digest: Digest)
      modifies this`deploys
      ensures T() == DigestSet(old(T()), d, digest)
    {
      if d in deploys {
        deploys := deploys[d := deploys[d].(digest := digest)];
      }
    }

    // The SELECT DISTINCT of RecoverInFlight.
    method SelectInFlight() returns (ids: seq<DeployId>)
      requires T().Valid()
      ensures forall d :: d in ids <==> LeftInFlight(T(), d)
      ensures forall i, j :: 0 <= i < j < |ids| ==> ids[i] != ids[j]
    {
      ids := [];
      var i := 0;
      while i < |created|
        invariant 0 <= i <= |created|
        invariant forall d :: d in ids <==> d in created[..i] && LeftInFlight(T(), d)
        invariant forall k, l :: 0 <= k < l < |ids| ==> ids[k] != ids[l]
      {
        var d := created[i];
        assert created[..i + 1] == created[..i] + [d];
        assert d in created;
        var found := exists id :: id in execs && execs[id].deploy == d && Unsettled(execs[id].status)
                       && (!deploys[d].status.Queued? || !execs[id].status.Queued?);
        if !deploys[d].finished && found {
          assert d !in created[..i];
          ids := ids + [d];
        }
        i := i + 1;
      }
      assert created[..|created|] == created;
    }

    // The two UPDATEs RecoverInFlight runs for one deploy.
    method CloseOut(d: DeployId, reason: string)
      modifies this`execs
      ensures execs.Keys == old(execs).Keys
      ensures forall id :: id in execs ==> execs[id] == ClosedOut(old(execs)[id], d, reason)
      ensures forall id :: id in execs && old(execs)[id].deploy == d ==>
                && (old(execs)[id].status in {Dispatching, Running} ==>
                      execs[id] == old(execs)[id].(status := Failed, error := reason, finished := true))
                && (old(execs)[id].status == Queued ==>
                      execs[id] == old(execs)[id].(status := Canceled, error := reason, finished := true))
    {
      execs := map id | id in execs ::
        if execs[id].deploy == d && (execs[id].status.Dispatching? || execs[id].status.Running?)
        then execs[id].(status := Failed, error := reason, finished := true) else execs[id];
      execs := map id | id in execs ::
        if execs[id].deploy == d && execs[id].status.Queued?
        then execs[id].(status := Canceled, error := reason, finished := true) else execs[id];
    }

    method RecoverInFlight(reason: string) returns (ids: seq<DeployId>)
      requires T().Valid()
      modifies this`execs
      ensures forall d :: d in ids <==> LeftInFlight(old(T()), d)
      ensures execs.Keys == old(execs).Keys
      ensures forall id :: id in execs ==>
                execs[id] == if LeftInFlight(old(T()), old(execs)[id].deploy)
                             then ClosedOut(old(execs)[id], old(execs)[id].deploy, reason) else old(execs)[id]
    {
      ids := SelectInFlight();
      var i := 0;
      while i < |ids|
        invariant 0 <= i <= |ids|
        invariant execs.Keys == old(execs).Keys
        invariant forall id :: id in execs ==>
                    execs[id] == if old(execs)[id].deploy in Occurs(ids[..i])
                                 then ClosedOut(old(execs)[id], old(execs)[id].deploy, reason) else old(execs)[id]
      {
        var d := ids[i];
        assert ids[..i + 1] == ids[..i] + [d];
        assert Occurs(ids[..i + 1]) == Occurs(ids[..i]) + {d};
        CloseOut(d, reason);
        i := i + 1;
      }
      assert ids[..|ids|] == ids;
    }

    method ListQueuedDeploys() returns (ids: seq<DeployId>)
      requires T().Valid()
      ensures ids == QueuedIn(T(), created)
    {
      ids := [];
      var i := 0;
      while i < |created|
        invariant 0 <= i <= |created|
        invariant ids == QueuedIn(T(), created[..i])
      {
        assert created[..i + 1] == created[..i] + [created[i]];
        assert created[i] in created;
        if deploys[created[i]].status.Queued? {
          ids := ids + [created[i]];
        }
        i := i + 1;
      }
      assert created[..|created|] == created;
    }
  }

  ghost function Occurs(ids: seq<DeployId>): set<DeployId> {
    set d | d in ids
  }

  predicate QueuedRow(t: Tables, d: DeployId) {
    d in t.deploys && t.deploys[d].status.Queued?
  }

  // The queued deploys among `among`, in its order.
  ghost function QueuedIn(t: Tables, among: seq<DeployId>): seq<DeployId> {
    if among == [] then []
    else
      var d := among[|among| - 1];
      QueuedIn(t, among[..|among| - 1]) + (if QueuedRow(t, d) then [d] else [])
  }

  ghost predicate Before(ids: seq<DeployId>, a: DeployId, b: DeployId) {
    exists i, j :: 0 <= i < j < |ids| && ids[i] == a && ids[j] == b
  }

  lemma {:induction false} BeforeAppend(ids: seq<DeployId>, d: DeployId, a: DeployId, b: DeployId)
    ensures Before(ids + [d], a, b) <==> Before(ids, a, b) || (a in ids && b == d)
  {
    var longer := ids + [d];
    if Before(ids, a, b) {
      var i, j :| 0 <= i < j < |ids| && ids[i] == a && ids[j] == b;
      assert longer[i] == a && longer[j] == b;
    }
    if a in ids && b == d {
      var i :| 0 <= i < |ids| && ids[i] == a;
      assert longer[i] == a && longer[|ids|] == b;
    }
    if Before(longer, a, b) {
      var i, j :| 0 <= i < j < |longer| && longer[i] == a && longer[j] == b;
      assert ids[i] == a;
      assert j < |ids| ==> ids[j] == b;
    }
  }

  lemma {:induction false} QueuedInElements(t: Tables, among: seq<DeployId>, d: DeployId)
    ensures d in QueuedIn(t, among) <==> d in among && QueuedRow(t, d)
  {
    if among != [] {
      var front := among[..|among| - 1];
      QueuedInElements(t, front, d);
      assert among == front + [among[|among| - 1]];
    }
  }

  // Listing the queued deploys keeps their order.
  lemma {:induction false} QueuedInOrder(t: Tables, among: seq<DeployId>, a: DeployId, b: DeployId)
    ensures Before(QueuedIn(t, among), a, b) <==> Before(among, a, b) && QueuedRow(t, a) && QueuedRow(t, b)
  {
    if among != [] {
      var front, d := among[..|among| - 1], among[|among| - 1];
      QueuedInOrder(t, front, a, b);
      QueuedInElements(t, front, a);
      assert among == front + [d];
      BeforeAppend(front, d, a, b);
      BeforeAppend(QueuedIn(t, front), d, a, b);
      if !QueuedRow(t, d) {
        assert QueuedIn(t, among) == QueuedIn(t, front);
      }
    }
  }

  lemma {:induction false} QueuedInDistinct(t: Tables, among: seq<DeployId>)
    requires forall i, j :: 0 <= i < j < |among| ==> among[i] != among[j]
    ensures forall i, j :: 0 <= i < j < |QueuedIn(t, among)| ==> QueuedIn(t, among)[i] != QueuedIn(t, among)[j]
  {
    if among != [] {
      var front, d := among[..|among| - 1], among[|among| - 1];
      QueuedInDistinct(t, front);
      assert d !in front;
      QueuedInElements(t, front, d);
    }
  }

  // Taken as one step, a recompute leaves a finished deploy alone for good: what has settled
  // does not move (TransitionExecution starts from a status that has not), so the rollout is
  // over whenever it is recomputed again.
  lemma {:induction false} RecomputeFreezesFinished(t: Tables, later: Tables, d: DeployId)
    requires d in t.deploys && d in later.deploys && later.deploys[d] == t.deploys[d]
    requires t.deploys[d].finished && RolloutOver(t, d)
    requires forall id :: id in t.execs && t.execs[id].deploy == d ==>
      id in later.execs && later.execs[id].deploy == d
      && (t.execs[id].status.Terminal() ==> later.execs[id].status == t.execs[id].status)
    requires forall id :: id in later.execs && later.execs[id].deploy == d ==> id in t.execs && t.execs[id].deploy == d
    ensures RolloutOver(later, d)
    ensures Recompute(later, d).deploys[d] == t.deploys[d]
  {
    assert forall id :: id in t.execs && t.execs[id].deploy == d ==> t.execs[id].status in t.StatusesOf(d);
    assert later.StatusesOf(d) == t.StatusesOf(d);
  }
}

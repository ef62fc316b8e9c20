/** internal/model/model.go: the lifecycle of an execution and how a deploy's status is
    derived from the statuses of its executions. */
module Model {

  // Identifiers are opaque tokens in the source; only their equality matters.
  type ExecId = nat
  type DeployId = nat

  // An image digest. The source writes the unresolved digest as the empty string.
  datatype Digest = Unresolved | Sha256(hash: nat)

  datatype Status = Queued | Dispatching | Running | Succeeded | Failed | Superseded | Unreachable | Canceled {
    predicate Terminal() {
      match this
      case Succeeded | Failed | Superseded | Unreachable | Canceled => true
      case _ => false
    }

    predicate Bad() {
      Failed? || Unreachable? || Canceled?
    }
  }

  // The aggregation rules read as a statement about which statuses occur; neither the order
  // of the executions nor how many share a status matters.
  ghost function AggregateOf(present: set<Status>): Status {
    if present == {} then Queued
    else
      var s :| s in present;
      if present == {s} then s
      else if exists b :: b in present && b.Bad() then Failed
      else Running
  }

  ghost predicate AllTerminalOf(present: set<Status>) {
    forall s :: s in present ==> s.Terminal()
  }

  ghost function Occurring(statuses: seq<Status>): set<Status> {
    set s | s in statuses
  }

  method AggregateStatus(statuses: seq<Status>) returns (agg: Status)
    ensures agg == AggregateOf(Occurring(statuses))
    ensures |statuses| == 0 ==> agg == Queued
    ensures |statuses| > 0 && (forall k :: 0 <= k < |statuses| ==> statuses[k] == statuses[0]) ==> agg == statuses[0]
    ensures (exists k :: 0 <= k < |statuses| && statuses[k] != statuses[0]) ==>
      agg == if exists k :: 0 <= k < |statuses| && statuses[k] in {Failed, Unreachable, Canceled} then Failed else Running
  {
    if |statuses| == 0 {
      return Queued;
    }
    assert statuses[0] in Occurring(statuses);
    var same := true;
    var i := 1;
    while i < |statuses| && same
      invariant 1 <= i <= |statuses|
      invariant same ==> forall k :: 0 <= k < i ==> statuses[k] == statuses[0]
      invariant !same ==> exists k :: 0 <= k < |statuses| && statuses[k] != statuses[0]
      decreases |statuses| - i, same
    {
      if statuses[i] != statuses[0] {
        same := false;
      } else {
        i := i + 1;
      }
    }
    if same {
      assert Occurring(statuses) == {statuses[0]};
      return statuses[0];
    }
    assert forall s :: Occurring(statuses) != {s} by {
      var k :| 0 <= k < |statuses| && statuses[k] != statuses[0];
      assert statuses[k] in Occurring(statuses);
    }
    i := 0;
    while i < |statuses|
      invariant 0 <= i <= |statuses|
      invariant forall k :: 0 <= k < i ==> !statuses[k].Bad()
    {
      if statuses[i].Bad() {
        assert statuses[i] in {Failed, Unreachable, Canceled};
        assert statuses[i] in Occurring(statuses);
        return Failed;
      }
      i := i + 1;
    }
    return Running;
  }

  method AllTerminal(statuses: seq<Status>) returns (all: bool)
    ensures all <==> AllTerminalOf(Occurring(statuses))
  {
    var i := 0;
    while i < |statuses|
      invariant 0 <= i <= |statuses|
      invariant forall k :: 0 <= k < i ==> statuses[k].Terminal()
    {
      if !statuses[i].Terminal() {
        assert statuses[i] in Occurring(statuses);
        return false;
      }
      i := i + 1;
    }
    return true;
  }

  // `later` can follow `earlier`: same executions, and whatever had settled has not moved.
  ghost predicate Follows<K(!new)>(earlier: map<K, Status>, later: map<K, Status>) {
    && earlier.Keys == later.Keys
    && forall k :: k in earlier && earlier[k].Terminal() ==> later[k] == earlier[k]
  }

  // The aggregate may read `failed` while instances still move, but once it is terminal no
  // further progress makes it non-terminal again.
  lemma TerminalAggregateStays<K(!new)>(earlier: map<K, Status>, later: map<K, Status>)
    requires Follows(earlier, later)
    requires AggregateOf(earlier.Values).Terminal()
    ensures AggregateOf(later.Values).Terminal()
  {
    if AllTerminalOf(earlier.Values) {
      assert forall k :: k in earlier ==> earlier[k] in earlier.Values;
      assert later == earlier;
    } else {
      var b :| b in earlier.Values && b.Bad();
      var k :| k in earlier && earlier[k] == b;
      assert later[k] == b && b in later.Values;
    }
  }

  // What a recompute settles on is final: a snapshot in which everything had settled is
  // still the state of the executions whenever it is written.
  lemma SettledSnapshotIsCurrent<K(!new)>(snapshot: map<K, Status>, now: map<K, Status>)
    requires Follows(snapshot, now)
    requires AllTerminalOf(snapshot.Values)
    ensures now == snapshot
  {
    assert forall k :: k in snapshot ==> snapshot[k] in snapshot.Values;
  }

  // Executions that ended in one of the four ways a rollout can end them aggregate to a
  // terminal status, so the last recompute always settles the deploy.
  lemma EndedRolloutAggregatesTerminal(present: set<Status>)
    requires present != {}
    requires AllTerminalOf(present) && Superseded !in present
    ensures AggregateOf(present).Terminal()
  {
    if forall b :: b in present ==> !b.Bad() {
      assert forall s :: s in present ==> s == Succeeded;
      assert present == {Succeeded};
    }
  }

  // The one combination the rules leave open: a terminal rollout mixing superseded with
  // succeeded would read `running` for ever.
  lemma TerminalMixAggregates(present: set<Status>)
    requires AllTerminalOf(present) && present != {}
    ensures AggregateOf(present).Terminal() <==> present != {Superseded, Succeeded}
  {
    if forall b :: b in present ==> !b.Bad() {
      assert present <= {Superseded, Succeeded};
      if Superseded in present && Succeeded in present {
        assert present == {Superseded, Succeeded};
        assert present != {Superseded} && present != {Succeeded};
      } else if Superseded in present {
        assert present == {Superseded};
      } else {
        assert present == {Succeeded};
      }
    }
  }
}

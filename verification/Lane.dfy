/** Per-service serialisation (internal/scheduler/scheduler.go: Enqueue, loop): one loop
    goroutine per busy service and a single pending slot in which the latest deploy wins. The
    lane of a service is its svcState together with its live loop goroutines and the history
    of what happened to every deploy that was enqueued. */
module Lane {
  import opened Model
  import opened Wrappers

  datatype Lane = Lane(
    busy: bool,
    pending: Option<DeployId>,
    loops: seq<DeployId>,          // the live loop goroutines, each at the deploy it is running
    enqueued: seq<DeployId>,       // every Enqueue, in order
    started: seq<DeployId>,        // the deploys handed to runDeploy, in order
    superseded: set<DeployId>)

  ghost function Empty(): Lane {
    Lane(false, None, [], [], [], {})
  }

  // Enqueue, under the scheduler's lock.
  ghost function Enqueued(l: Lane, d: DeployId): Lane {
    var l0 := l.(enqueued := l.enqueued + [d]);
    if l.busy then
      l0.(pending := Some(d), superseded := if l.pending.Some? then l.superseded + {l.pending.value} else l.superseded)
    else
      l0.(busy := true, loops := l.loops + [d], started := l.started + [d])
  }

  // One loop goroutine comes back from runDeploy and takes the lock: it goes on with the
  // pending deploy, or leaves.
  ghost function LoopNext(l: Lane, k: nat, shutdown: bool): Lane
    requires k < |l.loops|
  {
    if l.pending.Some? && !shutdown then
      l.(pending := None, loops := l.loops[k := l.pending.value], started := l.started + [l.pending.value])
    else
      l.(busy := false, loops := l.loops[..k] + l.loops[k + 1..])
  }

  datatype Event =
    | Enqueue(deploy: DeployId)
    | Return(loop: nat)
    | Shutdown

  datatype State = State(lane: Lane, shutdown: bool)

  // Deploy ids are fresh when they are enqueued.
  ghost predicate Enabled(s: State, e: Event) {
    match e
    case Enqueue(d) => d !in s.lane.enqueued
    case Return(k) => k < |s.lane.loops|
    case Shutdown => true
  }

  ghost function Apply(s: State, e: Event): State
    requires Enabled(s, e)
  {
    match e
    case Enqueue(d) => s.(lane := Enqueued(s.lane, d))
    case Return(k) => s.(lane := LoopNext(s.lane, k, s.shutdown))
    case Shutdown => s.(shutdown := true)
  }

  ghost predicate Run(events: seq<Event>, run: seq<State>) {
    && |run| == |events| + 1
    && run[0] == State(Empty(), false)
    && forall i :: 0 <= i < |events| ==> Enabled(run[i], events[i]) && run[i + 1] == Apply(run[i], events[i])
  }

  // ---- the invariant ----

  ghost predicate Distinct(ids: seq<DeployId>) {
    forall i, j :: 0 <= i < j < |ids| ==> ids[i] != ids[j]
  }

  // `sub` picks elements of `all` from left to right.
  ghost predicate Subsequence(sub: seq<DeployId>, all: seq<DeployId>) {
    if sub == [] then true
    else if all == [] then false
    else if sub[|sub| - 1] == all[|all| - 1] then Subsequence(sub[..|sub| - 1], all[..|all| - 1])
    else Subsequence(sub, all[..|all| - 1])
  }

  ghost function Waiting(l: Lane): seq<DeployId> {
    if l.pending.Some? then [l.pending.value] else []
  }

  ghost predicate Partition(l: Lane) {
    && Distinct(l.enqueued)
    && Distinct(l.started)
    && (forall d :: d in l.enqueued <==> d in l.started || l.pending == Some(d) || d in l.superseded)
    && (forall d :: d in l.started ==> l.pending != Some(d) && d !in l.superseded)
    && (l.pending.Some? ==> l.pending.value !in l.superseded)
  }

  ghost predicate InOrder(l: Lane, shutdown: bool) {
    && Subsequence(l.started, l.enqueued)
    // Until the shutdown whatever waits was enqueued last.
    && (!shutdown ==> Subsequence(l.started + Waiting(l), l.enqueued))
    && (l.enqueued != [] ==> l.enqueued[|l.enqueued| - 1] !in l.superseded)
    && (l.pending.Some? && !shutdown ==> l.enqueued != [] && l.enqueued[|l.enqueued| - 1] == l.pending.value)
  }

  ghost predicate OneLoop(l: Lane, shutdown: bool) {
    && |l.loops| == (if l.busy then 1 else 0)
    && (l.busy ==> l.started != [] && l.loops[0] == l.started[|l.started| - 1])
    && (!shutdown && l.pending.Some? ==> l.busy)
  }

  ghost predicate Inv(s: State) {
    Partition(s.lane) && InOrder(s.lane, s.shutdown) && OneLoop(s.lane, s.shutdown)
  }

  lemma {:induction false} SubsequenceShrink(sub: seq<DeployId>, all: seq<DeployId>)
    requires sub != [] && Subsequence(sub, all)
    ensures Subsequence(sub[..|sub| - 1], all)
    decreases |all|, 0
  {
    var front := all[..|all| - 1];
    assert front + [all[|all| - 1]] == all;
    if sub[|sub| - 1] != all[|all| - 1] {
      SubsequenceShrink(sub, front);
    }
    SubsequenceSkip(sub[..|sub| - 1], front, all[|all| - 1]);
  }

  lemma {:induction false} SubsequenceSkip(sub: seq<DeployId>, all: seq<DeployId>, d: DeployId)
    requires Subsequence(sub, all)
    ensures Subsequence(sub, all + [d])
    decreases |all|, 1
  {
    assert (all + [d])[..|all|] == all;
    if sub != [] && sub[|sub| - 1] == d {
      SubsequenceShrink(sub, all);
    }
  }

  lemma {:induction false} SubsequenceExtend(sub: seq<DeployId>, all: seq<DeployId>, d: DeployId)
    requires Subsequence(sub, all)
    ensures Subsequence(sub + [d], all + [d]) && Subsequence(sub, all + [d])
  {
    assert (sub + [d])[..|sub|] == sub && (all + [d])[..|all|] == all;
    SubsequenceSkip(sub, all, d);
  }

  // ---- every step keeps it ----

  lemma {:induction false} EnqueuedPartition(l: Lane, d: DeployId)
    requires Partition(l) && d !in l.enqueued
    ensures Partition(Enqueued(l, d))
  {
    assert d !in l.started;
  }

  lemma {:induction false} EnqueuedInOrder(l: Lane, d: DeployId, shutdown: bool)
    requires Partition(l) && InOrder(l, shutdown) && OneLoop(l, shutdown) && d !in l.enqueued
    ensures InOrder(Enqueued(l, d), shutdown)
  {
    SubsequenceExtend(l.started, l.enqueued, d);
    assert l.started + [] == l.started;
    assert l.started + [d] + [] == l.started + [d];
  }

  lemma {:induction false} LoopNextKeeps(l: Lane, k: nat, shutdown: bool)
    requires Inv(State(l, shutdown)) && k < |l.loops|
    ensures Inv(State(LoopNext(l, k, shutdown), shutdown))
  {
    var l' := LoopNext(l, k, shutdown);
    assert l'.started + Waiting(l') == l.started + Waiting(l);
  }

  lemma {:induction false} ShutdownKeeps(s: State)
    requires Inv(s)
    ensures Inv(s.(shutdown := true))
  {
  }

  lemma {:induction false} RunKeeps(events: seq<Event>, run: seq<State>, i: nat)
    requires Run(events, run) && i < |run|
    ensures Inv(run[i])
  {
    if i > 0 {
      RunKeeps(events, run, i - 1);
      var s := run[i - 1];
      assert Enabled(run[i - 1], events[i - 1]) && run[i - 1 + 1] == Apply(run[i - 1], events[i - 1]);
      match events[i - 1] {
        case Enqueue(d) =>
          EnqueuedPartition(s.lane, d);
          EnqueuedInOrder(s.lane, d, s.shutdown);
        case Return(k) => LoopNextKeeps(s.lane, k, s.shutdown);
        case Shutdown => ShutdownKeeps(s);
      }
    }
  }

  // ---- the results ----

  // For every interleaving of Enqueue and loop steps: at most one rollout of the service runs
  // at a time, the rollouts run in the order they were enqueued, every enqueued deploy is
  // exactly one of started, pending and superseded, and the newest is never superseded.
  lemma {:induction false} LatestWins(events: seq<Event>, run: seq<State>, i: nat)
    requires Run(events, run) && i < |run|
    ensures var l := run[i].lane;
      && |l.loops| <= 1
      && (|l.loops| == 1 ==> l.started != [] && l.loops[0] == l.started[|l.started| - 1])
      && Distinct(l.started) && Subsequence(l.started, l.enqueued)
      && (forall d :: d in l.enqueued <==> d in l.started || l.pending == Some(d) || d in l.superseded)
      && (forall d :: d in l.started ==> l.pending != Some(d) && d !in l.superseded)
      && (l.pending.Some? ==> l.pending.value !in l.superseded)
      && (l.enqueued != [] ==> l.enqueued[|l.enqueued| - 1] !in l.superseded)
  {
    RunKeeps(events, run, i);
  }

  // Until main shuts down nothing waits behind an idle lane, and what waits is the newest.
  lemma {:induction false} NothingWaitsIdle(events: seq<Event>, run: seq<State>, i: nat)
    requires Run(events, run) && i < |run| && !run[i].shutdown
    ensures var l := run[i].lane;
      l.pending.Some? ==> |l.loops| == 1 && l.enqueued != [] && l.pending.value == l.enqueued[|l.enqueued| - 1]
  {
    RunKeeps(events, run, i);
  }

  // Draining the lane: when the running rollouts come back one after the other, the newest
  // enqueued deploy is the last one started.
  lemma {:induction false} NewestRunsLast(events: seq<Event>, run: seq<State>, i: nat)
    requires Run(events, run) && i < |run| && !run[i].shutdown && run[i].lane.enqueued != []
    requires run[i].lane.loops == []
    ensures var l := run[i].lane; l.started != [] && l.started[|l.started| - 1] == l.enqueued[|l.enqueued| - 1]
  {
    RunKeeps(events, run, i);
    var l := run[i].lane;
    var newest := l.enqueued[|l.enqueued| - 1];
    assert newest in l.enqueued && newest in l.started;
    LastOfSubsequence(l.started, l.enqueued);
  }

  lemma {:induction false} LastOfSubsequence(sub: seq<DeployId>, all: seq<DeployId>)
    requires all != [] && Distinct(all) && Distinct(sub) && Subsequence(sub, all) && all[|all| - 1] in sub
    ensures sub[|sub| - 1] == all[|all| - 1]
  {
    assert all[|all| - 1] !in all[..|all| - 1];
    if sub[|sub| - 1] != all[|all| - 1] {
      SubsequenceElements(sub, all[..|all| - 1]);
    }
  }

  lemma {:induction false} SubsequenceElements(sub: seq<DeployId>, all: seq<DeployId>)
    requires Subsequence(sub, all)
    ensures forall d :: d in sub ==> d in all
    decreases |all|
  {
    if sub != [] {
      if sub[|sub| - 1] == all[|all| - 1] {
        SubsequenceElements(sub[..|sub| - 1], all[..|all| - 1]);
        assert sub == sub[..|sub| - 1] + [sub[|sub| - 1]];
      } else {
        SubsequenceElements(sub, all[..|all| - 1]);
      }
    }
  }
}

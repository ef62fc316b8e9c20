/** The results about rollouts: wave gating, every execution settled on return, settled once,
    and when the recorded status of a finished deploy can still change. */
module RolloutTheorems {
  import opened Model
  import opened Wrappers
  import opened Rollout
  import opened RolloutProof

  ghost predicate GoroutinesOk(e: Execs) {
    forall id :: id in e.tasks ==> TaskAt(e, id) && TaskSnapshot(e, id)
  }

  // ---- wave gating ----

  ghost predicate Gated(c: Config, e: Execs) {
    forall id, k :: id in c.waveOf && k in c.waveOf && c.waveOf[k] < c.waveOf[id] ==> NotStarted(e, id) || Won(e, k)
  }

  lemma {:induction false} StartGated(c: Config, e: Execs, w: nat, ids: set<ExecId>, digest: Digest)
    requires Shape(c, e) && Gated(c, e) && EarlierWon(c, e, w) && ids <= c.Members(w)
    ensures Gated(c, Start(e, ids, digest))
  {
    StartFrame(e, ids, digest);
  }

  lemma {:induction false} ForwardGated(c: Config, e: Execs, e': Execs)
    requires Gated(c, e) && Follows(e.status, e'.status)
    requires forall id :: NotStarted(e, id) ==> NotStarted(e', id)
    ensures Gated(c, e')
  {
    assert forall k :: Won(e, k) ==> Won(e', k);
  }

  lemma {:induction false} CoordinateGated(c: Config, s: State, pick: ExecId)
    requires Shape(c, s.execs) && Reason(c, s.execs, s.coord, s.failed, s.shutdown, s.digest)
    requires Gated(c, s.execs) && CanCoordinate(c, s, pick)
    ensures Gated(c, CoordinateStep(c, s, pick).execs)
  {
    match s.coord {
      case Top(w) =>
        if w < |c.first| && !s.failed && !s.shutdown {
          StartGated(c, s.execs, w, {c.first[w]}, s.digest);
          StartGated(c, s.execs, w, c.Members(w), s.digest);
        }
      case AwaitFirst(w) =>
        var digest := PromoteDigest(s, s.execs.tasks[c.first[w]].resolved).digest;
        StartGated(c, s.execs, w, c.Members(w) - {c.first[w]}, digest);
      case CancelLater(_, _) => ForwardGated(c, s.execs, Cancel(s.execs, pick));
      case CancelRest(_, _) => ForwardGated(c, s.execs, Cancel(s.execs, pick));
      case _ =>
    }
  }

  lemma {:induction false} ApplyGated(c: Config, s: State, a: Action)
    requires Shape(c, s.execs) && Reason(c, s.execs, s.coord, s.failed, s.shutdown, s.digest)
    requires GoroutinesOk(s.execs) && Gated(c, s.execs) && Enabled(c, s, a)
    ensures Gated(c, Apply(c, s, a).execs)
  {
    match a {
      case Coordinate(pick) => CoordinateGated(c, s, pick);
      case Drive(id, choice) =>
        assert TaskAt(s.execs, id) && TaskSnapshot(s.execs, id);
        DriveMoves(c, s.execs, id, choice);
        ForwardGated(c, s.execs, DriveExecs(s.execs, id, choice));
      case Shutdown =>
    }
  }

  // In every reachable state, an execution that has been started has every execution of every
  // earlier wave succeeded behind it.
  lemma {:induction false} WaveGating(c: Config, run: seq<State>, i: nat, id: ExecId, earlier: ExecId)
    requires Run(c, run) && i < |run|
    requires id in c.waveOf && earlier in c.waveOf && c.waveOf[earlier] < c.waveOf[id]
    requires id in run[i].execs.tasks && !run[i].execs.tasks[id].Idle?
    ensures earlier in run[i].execs.status && run[i].execs.status[earlier] == Succeeded
  {
    RunGated(c, run, i);
    assert NotStarted(run[i].execs, id) || Won(run[i].execs, earlier);
  }

  lemma {:induction false} RunParts(c: Config, run: seq<State>, i: nat)
    requires Run(c, run) && i < |run|
    ensures Shape(c, run[i].execs) && GoroutinesOk(run[i].execs)
    ensures Reason(c, run[i].execs, run[i].coord, run[i].failed, run[i].shutdown, run[i].digest)
  {
    RunKeeps(c, run, i);
  }

  lemma {:induction false} NextGated(c: Config, s: State, s': State)
    requires Shape(c, s.execs) && Reason(c, s.execs, s.coord, s.failed, s.shutdown, s.digest)
    requires GoroutinesOk(s.execs) && Gated(c, s.execs) && Next(c, s, s')
    ensures Gated(c, s'.execs)
  {
    var a: Action :| Enabled(c, s, a) && s' == Apply(c, s, a);
    ApplyGated(c, s, a);
  }

  lemma {:induction false} RunGated(c: Config, run: seq<State>, i: nat)
    requires Run(c, run) && i < |run|
    ensures Gated(c, run[i].execs)
  {
    if i == 0 {
      assert forall id :: id in c.waveOf ==> NotStarted(run[0].execs, id);
    } else {
      RunGated(c, run, i - 1);
      RunParts(c, run, i - 1);
      assert Next(c, run[i - 1], run[i - 1 + 1]);
      NextGated(c, run[i - 1], run[i]);
    }
  }

  // ---- nothing starts once the rollout is stopped ----

  // An execution has failed or main is shutting down, and the coordinator has seen it.
  ghost predicate Stopped(s: State) {
    (s.failed || s.shutdown) && !s.coord.AwaitFirst? && !s.coord.AwaitRest?
  }

  lemma {:induction false} DriveLeavesPlace(s: State, id: ExecId, choice: Choice)
    requires id in s.execs.tasks
    ensures var s' := DriveStep(s, id, choice);
      s'.coord == s.coord && s'.failed == s.failed && s'.shutdown == s.shutdown
  {
    var t := s.execs.tasks[id];
    if t.Recompute? && t.snapshot.Some? {
      WriteIsOneWay(s, t.snapshot.value);
    }
  }

  lemma {:induction false} StaysStopped(c: Config, s: State, s': State)
    requires Stopped(s) && GoroutinesOk(s.execs) && Next(c, s, s')
    ensures Stopped(s')
    ensures forall id :: NotStarted(s.execs, id) ==> NotStarted(s'.execs, id)
  {
    var a: Action :| Enabled(c, s, a) && s' == Apply(c, s, a);
    match a {
      case Coordinate(pick) =>
        if (s.coord.WaveRecompute? || s.coord.FinalRecompute?) && s.coord.snapshot.Some? {
          WriteIsOneWay(s, s.coord.snapshot.value);
        }
      case Drive(id, choice) =>
        DriveLeavesPlace(s, id, choice);
        assert TaskAt(s.execs, id) && TaskSnapshot(s.execs, id);
        DriveMoves(c, s.execs, id, choice);
      case Shutdown =>
    }
  }

  ghost predicate KeepsStopped(s: State, s': State) {
    Stopped(s) ==> Stopped(s') && forall id :: NotStarted(s.execs, id) ==> NotStarted(s'.execs, id)
  }

  lemma {:induction false} RunKeepsStopped(c: Config, run: seq<State>)
    requires Run(c, run)
    ensures forall k :: 0 <= k < |run| - 1 ==> KeepsStopped(run[k], run[k + 1])
  {
    forall k | 0 <= k < |run| - 1
      ensures KeepsStopped(run[k], run[k + 1])
    {
      if Stopped(run[k]) {
        RunGoroutinesOk(c, run, k);
        assert Next(c, run[k], run[k + 1]);
        StaysStopped(c, run[k], run[k + 1]);
      }
    }
  }

  lemma {:induction false} StoppedAlong(run: seq<State>, i: nat, j: nat, id: ExecId)
    requires forall k :: 0 <= k < |run| - 1 ==> KeepsStopped(run[k], run[k + 1])
    requires i <= j < |run| && Stopped(run[i]) && NotStarted(run[i].execs, id)
    ensures Stopped(run[j]) && NotStarted(run[j].execs, id)
    decreases j
  {
    if i < j {
      StoppedAlong(run, i, j - 1, id);
      assert KeepsStopped(run[j - 1], run[j - 1 + 1]);
    }
  }

  // Whatever had not started by then never starts, and is canceled when runDeploy returns.
  lemma {:induction false} NothingStartsOnceStopped(c: Config, run: seq<State>, i: nat, j: nat, id: ExecId)
    requires Run(c, run) && i <= j < |run| && Stopped(run[i])
    requires id in run[i].execs.tasks && run[i].execs.tasks[id].Idle?
    ensures id in run[j].execs.tasks && run[j].execs.tasks[id].Idle?
    ensures run[j].coord.Finished? ==> id in run[j].execs.status && run[j].execs.status[id] == Canceled
  {
    RunKeepsStopped(c, run);
    StoppedAlong(run, i, j, id);
    if run[j].coord.Finished? {
      ReturnsSettled(c, run, j);
      RunGoroutinesOk(c, run, j);
      RunKeeps(c, run, j);
      assert TaskAt(run[j].execs, id);
    }
  }

  // That is so of every wave the coordinator comes to after a failure or the shutdown, and of
  // the siblings of a first instance that failed to resolve the digest.
  lemma {:induction false} StoppedBeforeItsTurn(c: Config, run: seq<State>, i: nat, id: ExecId)
    requires Run(c, run) && i < |run| && id in c.waveOf
    ensures var s := run[i];
      && (s.coord.Top? && s.coord.wave <= c.waveOf[id] ==> id in s.execs.tasks && s.execs.tasks[id].Idle?)
      && (s.coord.CancelRest? && s.coord.wave <= c.waveOf[id] && (s.coord.wave < |c.first| ==> id != c.first[s.coord.wave]) ==>
            Stopped(s) && id in s.execs.tasks && s.execs.tasks[id].Idle?)
  {
    RunKeeps(c, run, i);
    HereOrLater(c, run[i], id);
  }

  lemma {:induction false} HereOrLater(c: Config, s: State, id: ExecId)
    requires Inv(c, s) && id in c.waveOf
    ensures s.coord.Top? && s.coord.wave <= c.waveOf[id] ==> NotStarted(s.execs, id)
    ensures s.coord.CancelRest? && s.coord.wave <= c.waveOf[id] && id != c.first[c.waveOf[id]] ==> NotStarted(s.execs, id) && s.failed
    ensures s.coord.CancelRest? && s.coord.wave < c.waveOf[id] ==> NotStarted(s.execs, id) && s.failed
  {
    if s.coord.Top? || s.coord.CancelRest? {
      assert c.waveOf[id] == At(c, s.coord) ==> Here(s.execs, id, c.first[c.waveOf[id]], s.coord, s.failed);
    }
  }

  // ---- what runDeploy leaves behind ----

  // Whatever the executions answered and whenever the shutdown came: when runDeploy returns,
  // every execution has settled, the deploy is finished, and exactly one recompute reported
  // it settled, with the aggregate of the final statuses.
  lemma {:induction false} ReturnsSettled(c: Config, run: seq<State>, i: nat)
    requires Run(c, run) && i < |run| && run[i].coord.Finished?
    ensures run[i].execs.status.Keys == c.waveOf.Keys
    ensures forall id :: id in c.waveOf ==> run[i].execs.status[id].Terminal()
    ensures run[i].row.finished
    ensures run[i].log.settles == [AggregateOf(run[i].execs.status.Values)]
    ensures AggregateOf(run[i].execs.status.Values).Terminal()
  {
    RunKeeps(c, run, i);
    FinishedParts(c, run[i]);
    EveryoneOver(c, run[i].execs);
  }

  lemma {:induction false} FinishedParts(c: Config, s: State)
    requires Inv(c, s) && s.coord.Finished?
    ensures Shape(c, s.execs) && Tasks(s.execs) && EarlierOver(c, s.execs, |c.first|)
    ensures s.row.finished && s.log.settles == [AggregateOf(s.execs.status.Values)]
  {
  }

  lemma {:induction false} EveryoneOver(c: Config, e: Execs)
    requires Shape(c, e) && Tasks(e) && EarlierOver(c, e, |c.first|)
    ensures forall id :: id in c.waveOf ==> e.status[id].Terminal()
    ensures AggregateOf(e.status.Values).Terminal()
  {
    LoopEndsSettled(c, e);
    forall id | id in c.waveOf
      ensures e.status[id].Terminal()
    {
      assert Over(e, id);
    }
  }

  lemma {:induction false} WriteIsOneWay(s: State, snapshot: map<ExecId, Status>)
    ensures var s' := WriteAggregate(s, snapshot);
      && s'.execs == s.execs
      && (s.row.finished ==> s'.row.finished && s'.log.settles == s.log.settles)
  {
  }

  lemma {:induction false} CoordinateIsOneWay(c: Config, s: State, pick: ExecId)
    requires CanCoordinate(c, s, pick)
    ensures var s' := CoordinateStep(c, s, pick);
      && Follows(s.execs.status, s'.execs.status)
      && (s.row.finished ==> s'.row.finished && s'.log.settles == s.log.settles)
  {
    match s.coord {
      case WaveRecompute(_, Some(snapshot)) => WriteIsOneWay(s, snapshot);
      case FinalRecompute(Some(snapshot)) => WriteIsOneWay(s, snapshot);
      case AwaitFirst(w) => PromoteFrame(s, s.execs.tasks[c.first[w]].resolved);
      case _ =>
    }
  }

  lemma {:induction false} DriveIsOneWay(c: Config, s: State, id: ExecId, choice: Choice)
    requires CanDrive(c, s.execs, id, choice) && TaskAt(s.execs, id) && TaskSnapshot(s.execs, id)
    ensures var s' := DriveStep(s, id, choice);
      && Follows(s.execs.status, s'.execs.status)
      && (s.row.finished ==> s'.row.finished && s'.log.settles == s.log.settles)
  {
    DriveMoves(c, s.execs, id, choice);
    var t := s.execs.tasks[id];
    if t.Recompute? && t.snapshot.Some? {
      WriteIsOneWay(s, t.snapshot.value);
    }
  }

  lemma {:induction false} NextIsOneWay(c: Config, s: State, s': State)
    requires GoroutinesOk(s.execs) && Next(c, s, s')
    ensures Follows(s.execs.status, s'.execs.status)
    ensures s.row.finished ==> s'.row.finished && s'.log.settles == s.log.settles
  {
    var a: Action :| Enabled(c, s, a) && s' == Apply(c, s, a);
    match a {
      case Coordinate(pick) => CoordinateIsOneWay(c, s, pick);
      case Drive(id, choice) => DriveIsOneWay(c, s, id, choice);
      case Shutdown =>
    }
  }

  lemma {:induction false} RunGoroutinesOk(c: Config, run: seq<State>, i: nat)
    requires Run(c, run) && i < |run|
    ensures GoroutinesOk(run[i].execs)
  {
    RunKeeps(c, run, i);
  }

  lemma {:induction false} FollowsTrans(a: map<ExecId, Status>, b: map<ExecId, Status>, d: map<ExecId, Status>)
    requires Follows(a, b) && Follows(b, d)
    ensures Follows(a, d)
  {
  }

  lemma {:induction false} RunNextIsOneWay(c: Config, run: seq<State>, k: nat)
    requires Run(c, run) && k + 1 < |run|
    ensures Follows(run[k].execs.status, run[k + 1].execs.status)
    ensures run[k].row.finished ==> run[k + 1].row.finished && run[k + 1].log.settles == run[k].log.settles
  {
    RunGoroutinesOk(c, run, k);
    assert Next(c, run[k], run[k + 1]);
    NextIsOneWay(c, run[k], run[k + 1]);
  }

  ghost predicate Forward(s: State, s': State) {
    && Follows(s.execs.status, s'.execs.status)
    && (s.row.finished ==> s'.row.finished && s'.log.settles == s.log.settles)
  }

  ghost predicate AlwaysForward(run: seq<State>) {
    forall k :: 0 <= k < |run| - 1 ==> Forward(run[k], run[k + 1])
  }

  lemma {:induction false} RunForward(c: Config, run: seq<State>)
    requires Run(c, run)
    ensures AlwaysForward(run)
  {
    forall k | 0 <= k < |run| - 1
      ensures Forward(run[k], run[k + 1])
    {
      RunNextIsOneWay(c, run, k);
    }
  }

  lemma {:induction false} ForwardTrans(s: State, t: State, u: State)
    requires Forward(s, t) && Forward(t, u)
    ensures Forward(s, u)
  {
    FollowsTrans(s.execs.status, t.execs.status, u.execs.status);
  }

  lemma {:induction false} ForwardAlong(run: seq<State>, i: nat, j: nat)
    requires AlwaysForward(run) && i <= j < |run|
    ensures Forward(run[i], run[j])
    decreases j
  {
    if i < j {
      ForwardAlong(run, i, j - 1);
      assert Forward(run[j - 1], run[j - 1 + 1]);
      ForwardTrans(run[i], run[j - 1], run[j]);
    }
  }

  // No execution that settled ever moves again, a terminal aggregate stays terminal, and a
  // settled deploy is never reported settled a second time.
  lemma {:induction false} ProgressIsOneWay(c: Config, run: seq<State>, i: nat, j: nat)
    requires Run(c, run) && i <= j < |run|
    ensures Follows(run[i].execs.status, run[j].execs.status)
    ensures AggregateOf(run[i].execs.status.Values).Terminal() ==> AggregateOf(run[j].execs.status.Values).Terminal()
    ensures run[i].row.finished ==> run[j].row.finished && run[j].log.settles == run[i].log.settles
  {
    RunForward(c, run);
    ForwardAlong(run, i, j);
    if AggregateOf(run[i].execs.status.Values).Terminal() {
      TerminalAggregateStays(run[i].execs.status, run[j].execs.status);
    }
  }

  // ---- can the recorded status of a finished deploy still change? ----

  // A recompute that has read `snapshot` and not written yet would record something other
  // than `recorded`: the unguarded write of a snapshot taken before the last execution settled.
  ghost predicate Stale(snapshot: Option<map<ExecId, Status>>, recorded: Status) {
    snapshot.Some? && !Settles(snapshot.value) && AggregateOf(snapshot.value.Values) != recorded
  }

  ghost predicate StaleTask(t: Task, recorded: Status) {
    t.Recompute? && Stale(t.snapshot, recorded)
  }

  ghost predicate NothingStale(s: State) {
    && (s.coord.WaveRecompute? ==> !Stale(s.coord.snapshot, s.row.status))
    && (s.coord.FinalRecompute? ==> !Stale(s.coord.snapshot, s.row.status))
    && (forall id :: id in s.execs.tasks ==> !StaleTask(s.execs.tasks[id], s.row.status))
  }

  ghost predicate Steps(c: Config, tail: seq<State>) {
    |tail| > 0 && forall i :: 0 <= i < |tail| - 1 ==> Next(c, tail[i], tail[i + 1])
  }

  // What a finished deploy's row and its goroutines satisfy.
  ghost predicate FinishedOk(c: Config, s: State) {
    && s.row.finished && Settles(s.execs.status)
    && (forall id :: id in s.execs.tasks && s.execs.tasks[id].Recompute? ==> !s.execs.tasks[id].next.Recompute?)
  }

  lemma {:induction false} CoordinateFrozen(c: Config, s: State, pick: ExecId)
    requires FinishedOk(c, s) && NothingStale(s) && CanCoordinate(c, s, pick)
    requires !s.coord.FinalRecompute? || s.coord.snapshot.None? || Settles(s.coord.snapshot.value)
    ensures CoordinateStep(c, s, pick).row.status == s.row.status
    ensures NothingStale(CoordinateStep(c, s, pick))
  {
    match s.coord {
      case AwaitFirst(w) => PromoteFrame(s, s.execs.tasks[c.first[w]].resolved);
      case _ =>
    }
  }

  lemma {:induction false} DriveFrozen(c: Config, s: State, id: ExecId, choice: Choice)
    requires FinishedOk(c, s) && NothingStale(s) && CanDrive(c, s.execs, id, choice)
    ensures DriveStep(s, id, choice).row.status == s.row.status
    ensures NothingStale(DriveStep(s, id, choice))
  {
    var s' := DriveStep(s, id, choice);
    var t := s.execs.tasks[id];
    assert !StaleTask(t, s.row.status);
    assert !StaleTask(s'.execs.tasks[id], s.row.status);
    assert forall k :: k in s.execs.tasks && k != id ==> s'.execs.tasks[k] == s.execs.tasks[k];
  }

  lemma {:induction false} InvFinishedOk(c: Config, s: State)
    requires Inv(c, s) && s.row.finished
    ensures FinishedOk(c, s)
    ensures s.coord.FinalRecompute? && s.coord.snapshot.Some? ==> Settles(s.coord.snapshot.value)
  {
    forall id | id in s.execs.tasks && s.execs.tasks[id].Recompute?
      ensures !s.execs.tasks[id].next.Recompute?
    {
      assert TaskAt(s.execs, id);
    }
  }

  lemma {:induction false} FrozenStays(c: Config, tail: seq<State>, i: nat)
    requires Steps(c, tail) && i < |tail|
    requires Inv(c, tail[0]) && TodoOk(c, tail[0].coord) && tail[0].row.finished && NothingStale(tail[0])
    ensures Inv(c, tail[i]) && TodoOk(c, tail[i].coord) && tail[i].row.finished && NothingStale(tail[i])
    ensures tail[i].row.status == tail[0].row.status
  {
    if i > 0 {
      FrozenStays(c, tail, i - 1);
      var s := tail[i - 1];
      assert Next(c, tail[i - 1], tail[i - 1 + 1]);
      FrozenStep(c, s, tail[i]);
    }
  }

  lemma {:induction false} FrozenStep(c: Config, s: State, s': State)
    requires Inv(c, s) && TodoOk(c, s.coord) && s.row.finished && NothingStale(s) && Next(c, s, s')
    ensures Inv(c, s') && TodoOk(c, s'.coord) && s'.row.finished && NothingStale(s')
    ensures s'.row.status == s.row.status
  {
    InvFinishedOk(c, s);
    FrozenParts(c, s, s');
    var a: Action :| Enabled(c, s, a) && s' == Apply(c, s, a);
    ApplyKeeps(c, s, a);
    RunlessOneWay(c, s, s');
  }

  lemma {:induction false} RunlessOneWay(c: Config, s: State, s': State)
    requires Inv(c, s) && Next(c, s, s')
    ensures s.row.finished ==> s'.row.finished
  {
    assert GoroutinesOk(s.execs);
    NextIsOneWay(c, s, s');
  }

  lemma {:induction false} FrozenParts(c: Config, s: State, s': State)
    requires FinishedOk(c, s) && NothingStale(s) && Next(c, s, s')
    requires s.coord.FinalRecompute? && s.coord.snapshot.Some? ==> Settles(s.coord.snapshot.value)
    ensures NothingStale(s') && s'.row.status == s.row.status
  {
    var a: Action :| Enabled(c, s, a) && s' == Apply(c, s, a);
    match a {
      case Coordinate(pick) => CoordinateFrozen(c, s, pick);
      case Drive(id, choice) => DriveFrozen(c, s, id, choice);
      case Shutdown =>
    }
  }

  // A stale recompute that is still pending can write at any moment.
  lemma {:induction false} StaleWriteLands(c: Config, s: State) returns (s': State)
    requires FinishedOk(c, s) && !NothingStale(s)
    requires s.coord.FinalRecompute? && s.coord.snapshot.Some? ==> Settles(s.coord.snapshot.value)
    ensures Next(c, s, s') && s'.row.status != s.row.status
  {
    if s.coord.WaveRecompute? && Stale(s.coord.snapshot, s.row.status) {
      assert Enabled(c, s, Coordinate(0));
      s' := Apply(c, s, Coordinate(0));
    } else {
      var id :| id in s.execs.tasks && StaleTask(s.execs.tasks[id], s.row.status);
      assert Enabled(c, s, Drive(id, Nothing));
      s' := Apply(c, s, Drive(id, Nothing));
    }
  }

  // The recorded status of a finished deploy is frozen on every continuation exactly when no
  // recompute still holds a snapshot that would record another one.
  lemma {:induction false} FrozenExactlyWhenNothingStale(c: Config, run: seq<State>, i: nat)
    requires Run(c, run) && i < |run| && run[i].row.finished
    ensures NothingStale(run[i]) <==>
            forall tail: seq<State>, j: nat :: Steps(c, tail) && tail[0] == run[i] && 0 <= j < |tail| ==>
                                tail[j].row.status == run[i].row.status
  {
    var s := run[i];
    RunKeeps(c, run, i);
    if NothingStale(s) {
      forall tail: seq<State>, j: nat | Steps(c, tail) && tail[0] == s && 0 <= j < |tail|
        ensures tail[j].row.status == s.row.status
      {
        FrozenStays(c, tail, j);
      }
    } else {
      InvFinishedOk(c, s);
      var s' := StaleWriteLands(c, s);
      assert Steps(c, [s, s']);
      assert [s, s'][0] == s && [s, s'][1].row.status != s.row.status;
    }
  }
}

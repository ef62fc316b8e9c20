/** Which rollouts leave a status behind that is not the aggregate of their executions: the
    half that says no run of the others does. */
module RolloutFrozen {
  import opened Model
  import opened Wrappers
  import opened Rollout
  import opened RolloutProof
  import opened RolloutTheorems
  import RolloutImage

  // Two executions of the last wave that run side by side: any two once the digest is known,
  // otherwise two siblings of the one that resolves it.
  ghost predicate SideBySide(c: Config, a: ExecId, b: ExecId) {
    var last := |c.first| - 1;
    && c.WellFormed() && a in c.Members(last) && b in c.Members(last) && a != b
    && (DigestBy(c, last) || (a != c.first[last] && b != c.first[last]))
  }

  ghost predicate EndsAlone(c: Config) {
    forall a, b :: !SideBySide(c, a, b)
  }

  // ---- the digest is known only once it was brought or resolved ----

  ghost function HeldDigest(t: Task): Digest {
    match t
    case Idle => Unresolved
    case Dispatch(d) => d
    case Acquire(d) => d
    case MarkRunning(d) => d
    case Execute(d) => d
    case Settle(_, _, resolved, _) => resolved
    case Returned(resolved, _) => resolved
    case Recompute(_, next) => HeldDigest(next)
  }

  // The first instance of a wave knows a digest only if it was known or it pins itself.
  ghost predicate FirstKnows(c: Config, e: Execs, w: nat) {
    w < |c.first| && c.first[w] in e.tasks && (!HeldDigest(e.tasks[c.first[w]]).Unresolved? ==> DigestBy(c, w + 1))
  }

  ghost predicate KnownBy(c: Config, coord: Coordinator, digest: Digest) {
    digest.Unresolved? ||
      match coord
      case Top(w) => DigestBy(c, w)
      case CancelLater(w, _) => DigestBy(c, w)
      case AwaitFirst(w) => DigestBy(c, w)
      case CancelRest(w, _) => DigestBy(c, w + 1)
      case AwaitRest(w, _) => DigestBy(c, w + 1)
      case WaveRecompute(w, _) => DigestBy(c, w + 1)
      case FinalRecompute(_) => true
      case Finished => true
  }

  ghost predicate Knowing(c: Config, s: State) {
    && KnownBy(c, s.coord, s.digest)
    && (forall w :: 0 <= w < |c.first| ==> FirstKnows(c, s.execs, w))
    && (s.coord.AwaitRest? && s.coord.wave < |c.first| && c.first[s.coord.wave] in s.coord.spawned ==> DigestBy(c, s.coord.wave))
  }

  lemma {:induction false} DriveDigest(c: Config, e: Execs, id: ExecId, choice: Choice)
    requires CanDrive(c, e, id, choice)
    ensures !HeldDigest(DriveExecs(e, id, choice).tasks[id]).Unresolved? ==>
              !HeldDigest(e.tasks[id]).Unresolved? || c.PinsOf(id) > 0
  {
    match e.tasks[id] {
      case Dispatch(d) => assert HeldDigest(Recompute(None, Acquire(d))) == d;
      case MarkRunning(d) => assert HeldDigest(Recompute(None, Execute(d))) == d;
      case Execute(d) => assert HeldDigest(Answered(choice.outcome)) == Answered(choice.outcome).resolved;
      case Settle(_, _, resolved, ok) => assert HeldDigest(Recompute(None, Returned(resolved, ok))) == resolved;
      case Recompute(_, next) => assert HeldDigest(e.tasks[id]) == HeldDigest(next);
      case _ =>
    }
  }

  lemma {:induction false} DriveKnowing(c: Config, s: State, id: ExecId, choice: Choice)
    requires Knowing(c, s) && CanDrive(c, s.execs, id, choice)
    ensures Knowing(c, DriveStep(s, id, choice))
  {
    RolloutImage.DrivePins(c, s, id, choice);
    DriveDigest(c, s.execs, id, choice);
    var s' := DriveStep(s, id, choice);
    forall w | 0 <= w < |c.first|
      ensures FirstKnows(c, s'.execs, w)
    {
      assert FirstKnows(c, s.execs, w);
      DigestByNext(c, w);
    }
  }

  lemma {:induction false} StartKnows(c: Config, e: Execs, ids: set<ExecId>, digest: Digest)
    requires c.WellFormed() && forall w :: 0 <= w < |c.first| ==> FirstKnows(c, e, w)
    requires forall w :: 0 <= w < |c.first| && c.first[w] in ids && !digest.Unresolved? ==> DigestBy(c, w + 1)
    ensures forall w :: 0 <= w < |c.first| ==> FirstKnows(c, Start(e, ids, digest), w)
  {
    forall w | 0 <= w < |c.first|
      ensures FirstKnows(c, Start(e, ids, digest), w)
    {
      assert FirstKnows(c, e, w);
    }
  }

  lemma {:induction false} TopKnowing(c: Config, s: State, w: nat)
    requires c.WellFormed() && Knowing(c, s) && s.coord == Top(w)
    ensures Knowing(c, TopStep(c, s, w))
  {
    DigestByNext(c, w);
    if w < |c.first| && !s.failed && !s.shutdown {
      StartKnows(c, s.execs, if s.digest.Unresolved? then {c.first[w]} else c.Members(w), s.digest);
    }
  }

  lemma {:induction false} FirstKnowing(c: Config, s: State, w: nat)
    requires c.WellFormed() && Knowing(c, s) && s.coord == AwaitFirst(w) && w < |c.first|
    requires c.first[w] in s.execs.tasks && s.execs.tasks[c.first[w]].Returned?
    ensures Knowing(c, FirstReturned(c, s, w, s.execs.tasks[c.first[w]]))
  {
    var first := s.execs.tasks[c.first[w]];
    assert FirstKnows(c, s.execs, w);
    DigestByNext(c, w);
    if first.ok {
      StartKnows(c, s.execs, c.Members(w) - {c.first[w]}, PromoteDigest(s, first.resolved).digest);
    }
  }

  lemma {:induction false} QuietKnowing(c: Config, s: State, s': State)
    requires Knowing(c, s) && s'.execs.tasks == s.execs.tasks
    requires KnownBy(c, s'.coord, s'.digest) && (s'.coord == s.coord || !s'.coord.AwaitRest?)
    ensures Knowing(c, s')
  {
    forall w | 0 <= w < |c.first|
      ensures FirstKnows(c, s'.execs, w)
    {
      assert FirstKnows(c, s.execs, w);
    }
  }

  lemma {:induction false} CoordinateKnowing(c: Config, s: State, pick: ExecId)
    requires c.WellFormed() && Knowing(c, s) && CanCoordinate(c, s, pick)
    ensures Knowing(c, CoordinateStep(c, s, pick))
  {
    var s' := CoordinateStep(c, s, pick);
    if s.coord.Top? {
      TopKnowing(c, s, s.coord.wave);
    } else if s.coord.AwaitFirst? {
      assert c.first[s.coord.wave] in {c.first[s.coord.wave]};
      FirstKnowing(c, s, s.coord.wave);
    } else {
      if (s.coord.WaveRecompute? || s.coord.FinalRecompute?) && s.coord.snapshot.Some? {
        RolloutImage.WriteKeepsPins(s, s.coord.snapshot.value);
      }
      if s.coord.CancelLater? {
        DigestByNext(c, s.coord.wave);
      }
      QuietKnowing(c, s, s');
    }
  }

  // ---- what was canceled before this run is so in every snapshot ----

  // How a rollout finds its executions.
  ghost predicate Started(c: Config, start: map<ExecId, Status>) {
    start.Keys == c.waveOf.Keys && forall k :: k in start ==> start[k].Queued? || start[k].Canceled?
  }

  // The coordinator may have canceled some.
  ghost predicate Sweeping(s: State) {
    match s.coord
    case Top(_) => s.failed || s.shutdown
    case WaveRecompute(_, _) => s.failed || s.shutdown
    case AwaitFirst(_) => false
    case AwaitRest(_, _) => false
    case _ => true
  }

  ghost predicate Held(t: Task, snapshot: map<ExecId, Status>) {
    t.Recompute? && t.snapshot == Some(snapshot)
  }

  ghost predicate FromStart(start: map<ExecId, Status>, e: Execs) {
    && Follows(start, e.status)
    && (forall id, snapshot :: id in e.tasks && Held(e.tasks[id], snapshot) ==> Follows(start, snapshot))
    && (forall id :: id in e.tasks && e.tasks[id].Recompute? ==> id in e.status && !e.status[id].Canceled?)
  }

  ghost predicate Unswept(start: map<ExecId, Status>, s: State) {
    !Sweeping(s) ==> forall id :: NotStarted(s.execs, id) && id in start ==> id in s.execs.status && s.execs.status[id] == start[id]
  }

  lemma {:induction false} DriveFromStart(c: Config, start: map<ExecId, Status>, s: State, id: ExecId, choice: Choice)
    requires FromStart(start, s.execs) && Unswept(start, s)
    requires CanDrive(c, s.execs, id, choice) && TaskAt(s.execs, id) && TaskSnapshot(s.execs, id)
    ensures FromStart(start, DriveStep(s, id, choice).execs) && Unswept(start, DriveStep(s, id, choice))
  {
    DriveMoves(c, s.execs, id, choice);
    RolloutImage.DrivePins(c, s, id, choice);
    var e, e' := s.execs, DriveExecs(s.execs, id, choice);
    FollowsTrans(start, e.status, e'.status);
    forall k, snapshot | k in e'.tasks && Held(e'.tasks[k], snapshot)
      ensures Follows(start, snapshot)
    {
      if k != id {
        assert Held(e.tasks[k], snapshot);
      } else {
        assert snapshot == e.status;
      }
    }
    assert e'.tasks[id].Recompute? ==> !e'.status[id].Canceled?;
  }

  // The parts of the invariant that say what the coordinator may touch.
  ghost predicate Placed(c: Config, s: State) {
    && Shape(c, s.execs) && Tasks(s.execs) && TodoOk(c, s.coord)
    && WaveHere(c, s.execs, s.coord, s.failed) && Reason(c, s.execs, s.coord, s.failed, s.shutdown, s.digest)
  }

  lemma {:induction false} InvPlaced(c: Config, s: State)
    requires Inv(c, s) && TodoOk(c, s.coord)
    ensures Placed(c, s)
  {
  }

  lemma {:induction false} CancelStatuses(c: Config, s: State, pick: ExecId)
    requires Placed(c, s) && CanCoordinate(c, s, pick) && (s.coord.CancelLater? || s.coord.CancelRest?)
    ensures var s' := CoordinateStep(c, s, pick);
      && Sweeping(s') && s'.execs.status.Keys == s.execs.status.Keys
      && (forall id :: id in s.execs.status && !NotStarted(s.execs, id) ==> s'.execs.status[id] == s.execs.status[id])
  {
    if s.coord.todo != {} {
      assert pick in c.Members(s.coord.wave) && NotStarted(s.execs, pick);
    }
  }

  // The coordinator cancels only what has not started.
  lemma {:induction false} CoordinateStatuses(c: Config, s: State, pick: ExecId)
    requires Placed(c, s) && CanCoordinate(c, s, pick)
    ensures var s' := CoordinateStep(c, s, pick);
      && (!Sweeping(s') ==> s'.execs.status == s.execs.status && !Sweeping(s))
      && s'.execs.status.Keys == s.execs.status.Keys
      && (forall id :: id in s.execs.status && !NotStarted(s.execs, id) ==> s'.execs.status[id] == s.execs.status[id])
  {
    match s.coord {
      case WaveRecompute(_, Some(snapshot)) => RolloutImage.WriteKeepsPins(s, snapshot);
      case FinalRecompute(Some(snapshot)) => RolloutImage.WriteKeepsPins(s, snapshot);
      case AwaitFirst(w) => PromoteFrame(s, s.execs.tasks[c.first[w]].resolved);
      case CancelLater(_, _) => CancelStatuses(c, s, pick);
      case CancelRest(_, _) => CancelStatuses(c, s, pick);
      case _ =>
    }
  }

  lemma {:induction false} CoordinateFromStart(c: Config, start: map<ExecId, Status>, s: State, pick: ExecId)
    requires Placed(c, s) && CanCoordinate(c, s, pick)
    requires FromStart(start, s.execs) && Unswept(start, s)
    ensures FromStart(start, CoordinateStep(c, s, pick).execs) && Unswept(start, CoordinateStep(c, s, pick))
  {
    var s' := CoordinateStep(c, s, pick);
    RolloutImage.CoordinateTasks(c, s, pick);
    CoordinateIsOneWay(c, s, pick);
    CoordinateStatuses(c, s, pick);
    StartsFromStart(start, s.execs, s'.execs);
  }

  lemma {:induction false} StartsFromStart(start: map<ExecId, Status>, e: Execs, e': Execs)
    requires FromStart(start, e) && Follows(e.status, e'.status) && RolloutImage.OnlyStarts(e, e')
    requires forall id :: id in e.status && !NotStarted(e, id) ==> e'.status[id] == e.status[id]
    ensures FromStart(start, e')
  {
    FollowsTrans(start, e.status, e'.status);
    forall k, snapshot | k in e'.tasks && Held(e'.tasks[k], snapshot)
      ensures Follows(start, snapshot)
    {
      assert Held(e.tasks[k], snapshot);
    }
  }

  // What every run keeps: RolloutProof's invariant and the above.
  ghost predicate Keeps(c: Config, start: map<ExecId, Status>, s: State) {
    && Inv(c, s) && TodoOk(c, s.coord)
    && Knowing(c, s) && FromStart(start, s.execs) && Unswept(start, s)
  }

  // ---- nothing is stale when the last execution settles ----

  // An execution whose recompute has not written is one of those the coordinator waits for.
  lemma {:induction false} ActiveHere(c: Config, s: State, id: ExecId)
    requires Inv(c, s) && id in s.execs.tasks && s.execs.tasks[id].Recompute?
    ensures (s.coord.AwaitFirst? && id == c.first[s.coord.wave]) || (s.coord.AwaitRest? && id in s.coord.spawned)
  {
    assert id in c.waveOf && !Over(s.execs, id) && !NotStarted(s.execs, id);
  }

  // A mix with a canceled execution reads failed, settled or not.
  lemma {:induction false} CanceledMix(status: map<ExecId, Status>, id: ExecId, other: ExecId)
    requires id in status && status[id].Canceled? && other in status && !status[other].Canceled?
    ensures AggregateOf(status.Values) == Failed
  {
    assert status[id] in status.Values && status[other] in status.Values;
  }

  // While more than one of an earlier wave is under way everything can have settled only if
  // the last wave was canceled before this run began.
  lemma {:induction false} LaterCanceled(c: Config, start: map<ExecId, Status>, s: State) returns (id: ExecId)
    requires Inv(c, s) && Unswept(start, s) && Started(c, start)
    requires s.coord.AwaitRest? && s.coord.wave < |c.first| - 1 && AllTerminalOf(s.execs.status.Values)
    ensures id in start && start[id].Canceled?
  {
    id := c.first[|c.first| - 1];
    assert NotStarted(s.execs, id) && s.execs.status[id] in s.execs.status.Values;
  }

  // Two recomputes that have not written belong to one wave, and it is not the last one.
  lemma {:induction false} TwoAreEarly(c: Config, s: State, x: ExecId, y: ExecId)
    requires Inv(c, s) && Knowing(c, s) && EndsAlone(c) && x != y
    requires x in s.execs.tasks && s.execs.tasks[x].Recompute? && y in s.execs.tasks && s.execs.tasks[y].Recompute?
    ensures s.coord.AwaitRest? && s.coord.wave < |c.first| - 1
  {
    ActiveHere(c, s, x);
    ActiveHere(c, s, y);
    if s.coord.wave == |c.first| - 1 {
      assert SideBySide(c, x, y);
    }
  }

  lemma {:induction false} CanceledAgree(snapshot: map<ExecId, Status>, status: map<ExecId, Status>,
          id: ExecId, other: ExecId)
    requires id in snapshot && snapshot[id].Canceled? && !Settles(snapshot)
    requires id in status && status[id].Canceled? && other in status && !status[other].Canceled?
    ensures AggregateOf(snapshot.Values) == AggregateOf(status.Values)
  {
    CanceledMix(status, id, other);
    if forall k :: k in snapshot ==> snapshot[k].Canceled? {
      assert false;
    } else {
      var k :| k in snapshot && !snapshot[k].Canceled?;
      CanceledMix(snapshot, id, k);
    }
  }

  lemma {:induction false} CanceledInBoth(start: map<ExecId, Status>, e: Execs, x: ExecId, y: ExecId,
          snapshot: map<ExecId, Status>, id: ExecId)
    requires FromStart(start, e) && id in start && start[id].Canceled?
    requires x in e.tasks && e.tasks[x].Recompute? && y in e.tasks && Held(e.tasks[y], snapshot)
    ensures id in snapshot && snapshot[id].Canceled? && id in e.status && e.status[id].Canceled?
    ensures x in e.status && !e.status[x].Canceled?
  {
    assert Held(e.tasks[y], snapshot) && Follows(start, snapshot);
    assert id in start.Keys && start.Keys == snapshot.Keys && start.Keys == e.status.Keys;
  }

  // Of two recomputes that have not written, when everything has settled, neither is stale.
  lemma {:induction false} TwoAgree(c: Config, start: map<ExecId, Status>, s: State, x: ExecId, y: ExecId,
          snapshot: map<ExecId, Status>)
    requires Keeps(c, start, s) && EndsAlone(c) && Started(c, start)
    requires x in s.execs.tasks && s.execs.tasks[x].Recompute? && x != y
    requires y in s.execs.tasks && Held(s.execs.tasks[y], snapshot)
    requires AllTerminalOf(s.execs.status.Values) && !Settles(snapshot)
    ensures AggregateOf(snapshot.Values) == AggregateOf(s.execs.status.Values)
  {
    TwoAreEarly(c, s, x, y);
    var id := LaterCanceled(c, start, s);
    CanceledInBoth(start, s.execs, x, y, snapshot, id);
    CanceledAgree(snapshot, s.execs.status, id, x);
  }

  // ---- the invariant ----

  ghost predicate RowIsRight(s: State) {
    s.row.finished ==> s.row.status == AggregateOf(s.execs.status.Values) && NothingStale(s)
  }

  lemma {:induction false} StepKeeps(c: Config, start: map<ExecId, Status>, s: State, a: Action)
    requires Keeps(c, start, s) && Enabled(c, s, a)
    ensures Keeps(c, start, Apply(c, s, a))
  {
    ApplyKeeps(c, s, a);
    match a {
      case Coordinate(pick) =>
        CoordinateKnowing(c, s, pick);
        InvPlaced(c, s);
        CoordinateFromStart(c, start, s, pick);
      case Drive(id, choice) =>
        assert TaskAt(s.execs, id) && TaskSnapshot(s.execs, id);
        DriveKnowing(c, s, id, choice);
        DriveFromStart(c, start, s, id, choice);
      case Shutdown => QuietKnowing(c, s, s.(shutdown := true));
    }
  }

  // When everything has settled, no recompute but that of `id` is stale.
  lemma {:induction false} OthersFresh(c: Config, start: map<ExecId, Status>, s: State, id: ExecId, k: ExecId)
    requires EndsAlone(c) && Started(c, start) && Keeps(c, start, s) && AllTerminalOf(s.execs.status.Values)
    requires id in s.execs.tasks && s.execs.tasks[id].Recompute? && k in s.execs.tasks && k != id
    ensures !StaleTask(s.execs.tasks[k], AggregateOf(s.execs.status.Values))
  {
    var t := s.execs.tasks[k];
    if t.Recompute? && t.snapshot.Some? && !Settles(t.snapshot.value) {
      TwoAgree(c, start, s, id, k, t.snapshot.value);
    }
  }

  // The step of a goroutine that finishes the deploy is the write of a settled snapshot; it
  // leaves nothing stale behind if the others hold nothing stale.
  lemma {:induction false} FinishingWrite(s: State, id: ExecId, choice: Choice)
    requires TaskAt(s.execs, id) && TaskSnapshot(s.execs, id)
    requires !s.row.finished && DriveStep(s, id, choice).row.finished
    ensures s.execs.tasks[id].Recompute? && AllTerminalOf(s.execs.status.Values)
    ensures !s.coord.WaveRecompute? && !s.coord.FinalRecompute?
            && (forall k :: k in s.execs.tasks && k != id ==> !StaleTask(s.execs.tasks[k], AggregateOf(s.execs.status.Values)))
            ==> RowIsRight(DriveStep(s, id, choice))
  {
    SettledSnapshotIsCurrent(s.execs.tasks[id].snapshot.value, s.execs.status);
    var s' := DriveStep(s, id, choice);
    assert s'.row.status == AggregateOf(s.execs.status.Values);
    assert s'.coord == s.coord && s'.execs == Go(s.execs, id, s.execs.tasks[id].next);
  }

  lemma {:induction false} KeptAt(c: Config, start: map<ExecId, Status>, s: State, id: ExecId)
    requires Keeps(c, start, s) && id in s.execs.tasks
    ensures TaskAt(s.execs, id) && TaskSnapshot(s.execs, id)
    ensures s.execs.tasks[id].Recompute? ==> !s.coord.WaveRecompute? && !s.coord.FinalRecompute?
  {
    if s.execs.tasks[id].Recompute? {
      ActiveHere(c, s, id);
    }
  }

  lemma {:induction false} DriveFinishes(c: Config, start: map<ExecId, Status>, s: State, id: ExecId, choice: Choice)
    requires EndsAlone(c) && Started(c, start) && Keeps(c, start, s) && CanDrive(c, s.execs, id, choice)
    requires !s.row.finished && DriveStep(s, id, choice).row.finished
    ensures RowIsRight(DriveStep(s, id, choice))
  {
    KeptAt(c, start, s, id);
    FinishingWrite(s, id, choice);
    forall k | k in s.execs.tasks && k != id
      ensures !StaleTask(s.execs.tasks[k], AggregateOf(s.execs.status.Values))
    {
      OthersFresh(c, start, s, id, k);
    }
  }

  lemma {:induction false} CoordinateFinishes(c: Config, s: State, pick: ExecId)
    requires Inv(c, s) && CanCoordinate(c, s, pick)
    requires !s.row.finished && CoordinateStep(c, s, pick).row.finished
    ensures RowIsRight(CoordinateStep(c, s, pick))
  {
    var s' := CoordinateStep(c, s, pick);
    assert (s.coord.WaveRecompute? || s.coord.FinalRecompute?) && s.coord.snapshot.Some?;
    SettledSnapshotIsCurrent(s.coord.snapshot.value, s.execs.status);
    RolloutImage.WriteKeepsPins(s, s.coord.snapshot.value);
    forall k | k in s'.execs.tasks
      ensures !StaleTask(s'.execs.tasks[k], s'.row.status)
    {
      if s.execs.tasks[k].Recompute? {
        ActiveHere(c, s, k);
      }
    }
  }

  lemma {:induction false} StepIsRight(c: Config, start: map<ExecId, Status>, s: State, a: Action)
    requires EndsAlone(c) && Started(c, start) && Keeps(c, start, s) && RowIsRight(s) && Enabled(c, s, a)
    ensures RowIsRight(Apply(c, s, a))
  {
    var s' := Apply(c, s, a);
    if s.row.finished {
      assert Next(c, s, s');
      FrozenStep(c, s, s');
      NextIsOneWay(c, s, s');
      SettledSnapshotIsCurrent(s.execs.status, s'.execs.status);
    } else if s'.row.finished {
      match a {
        case Coordinate(pick) => CoordinateFinishes(c, s, pick);
        case Drive(id, choice) => DriveFinishes(c, start, s, id, choice);
        case Shutdown => assert false;
      }
    }
  }

  lemma {:induction false} InitKeeps(c: Config, s: State)
    requires Init(c, s)
    ensures Started(c, s.execs.status) && Keeps(c, s.execs.status, s) && RowIsRight(s)
  {
    InitInv(c, s);
    forall w | 0 <= w < |c.first|
      ensures FirstKnows(c, s.execs, w)
    {
      assert c.first[w] in s.execs.tasks;
    }
  }

  lemma {:induction false} RunIsRight(c: Config, run: seq<State>, i: nat)
    requires Run(c, run) && i < |run| && EndsAlone(c)
    ensures Keeps(c, run[0].execs.status, run[i]) && RowIsRight(run[i])
  {
    InitKeeps(c, run[0]);
    if i > 0 {
      RunIsRight(c, run, i - 1);
      var a: Action :| Enabled(c, run[i - 1], a) && run[i - 1 + 1] == Apply(c, run[i - 1], a);
      StepKeeps(c, run[0].execs.status, run[i - 1], a);
      StepIsRight(c, run[0].execs.status, run[i - 1], a);
    }
  }

  // If no two executions of the last wave run side by side, a finished deploy always records
  // the aggregate of its executions, in every state of every run.
  lemma {:induction false} FinishedReadsRight(c: Config, run: seq<State>, i: nat)
    requires Run(c, run) && i < |run| && EndsAlone(c) && run[i].row.finished
    ensures run[i].row.status == AggregateOf(run[i].execs.status.Values)
  {
    RunIsRight(c, run, i);
  }
}

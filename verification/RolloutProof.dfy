/** What every run of a rollout keeps, and what a finished rollout has achieved. */
module RolloutProof {
  import opened Model
  import opened Wrappers
  import opened Rollout

  // ---- the invariant, one concern at a time ----

  ghost predicate Shape(c: Config, e: Execs) {
    c.WellFormed() && e.status.Keys == e.tasks.Keys == c.waveOf.Keys
  }

  // The goroutine of an execution is the only writer of its status once it is started.
  ghost predicate TaskOk(t: Task, st: Status) {
    match t
    case Idle => st.Queued? || st.Canceled?
    case Dispatch(_) => st.Queued? || st.Canceled?
    case Acquire(_) => st.Dispatching?
    case MarkRunning(_) => st.Dispatching?
    case Execute(_) => st.Running?
    case Settle(from, to, _, ok) =>
      && st == from && (from.Dispatching? || from.Running?)
      && (to.Succeeded? || to.Failed? || to.Unreachable?) && (ok <==> to.Succeeded?)
    case Recompute(_, next) => !next.Recompute? && !next.Idle? && TaskOk(next, st)
    case Returned(_, ok) =>
      (st.Succeeded? || st.Failed? || st.Unreachable? || st.Canceled?) && (ok <==> st.Succeeded?)
  }

  ghost predicate TaskAt(e: Execs, id: ExecId) {
    id in e.tasks && id in e.status && TaskOk(e.tasks[id], e.status[id])
  }

  ghost predicate Tasks(e: Execs) {
    forall id :: id in e.tasks ==> TaskAt(e, id)
  }

  ghost predicate Over(e: Execs, id: ExecId) {
    && id in e.tasks && id in e.status
    && (e.tasks[id].Idle? || e.tasks[id].Returned?)
    && e.status[id].Terminal()
  }

  ghost predicate Won(e: Execs, id: ExecId) {
    id in e.status && e.status[id].Succeeded?
  }

  ghost predicate NotStarted(e: Execs, id: ExecId) {
    id in e.tasks && e.tasks[id].Idle?
  }

  // The wave the coordinator is at; the number of waves once it has left the loop.
  ghost function At(c: Config, coord: Coordinator): nat {
    match coord
    case Top(w) => w
    case CancelLater(w, _) => w
    case AwaitFirst(w) => w
    case CancelRest(w, _) => w
    case AwaitRest(w, _) => w
    case WaveRecompute(w, _) => w
    case FinalRecompute(_) => |c.first|
    case Finished => |c.first|
  }

  ghost predicate EarlierOver(c: Config, e: Execs, at: nat) {
    forall id :: id in c.waveOf && c.waveOf[id] < at ==> Over(e, id)
  }

  ghost predicate LaterIdle(c: Config, e: Execs, at: nat) {
    forall id :: id in c.waveOf && at < c.waveOf[id] ==> NotStarted(e, id)
  }

  ghost predicate EarlierWon(c: Config, e: Execs, at: nat) {
    forall id :: id in c.waveOf && c.waveOf[id] < at ==> Won(e, id)
  }

  // What the coordinator's position says about an execution of the wave it is at.
  ghost predicate Here(e: Execs, id: ExecId, first: ExecId, coord: Coordinator, failed: bool) {
    match coord
    case Top(w) => NotStarted(e, id)
    case CancelLater(w, todo) => NotStarted(e, id) && (id in todo || Over(e, id))
    case AwaitFirst(w) => id == first || NotStarted(e, id)
    case CancelRest(w, todo) =>
      if id == first then Over(e, id) else NotStarted(e, id) && (id in todo || Over(e, id))
    case AwaitRest(w, spawned) => id in spawned || (Over(e, id) && Won(e, id))
    case WaveRecompute(w, _) => Over(e, id) && (!failed ==> Won(e, id))
    case FinalRecompute(_) => true
    case Finished => true
  }

  ghost predicate WaveHere(c: Config, e: Execs, coord: Coordinator, failed: bool)
    requires c.WellFormed()
  {
    forall id :: id in c.waveOf && c.waveOf[id] == At(c, coord) ==>
                   Here(e, id, c.first[c.waveOf[id]], coord, failed)
  }

  // Why the coordinator is where it is.
  ghost predicate Reason(c: Config, e: Execs, coord: Coordinator, failed: bool, shutdown: bool, digest: Digest) {
    match coord
    case Top(w) => w <= |c.first| && (!failed && !shutdown ==> EarlierWon(c, e, w))
    case CancelLater(w, todo) => w < |c.first| && (failed || shutdown)
    case AwaitFirst(w) => w < |c.first| && !failed && digest.Unresolved? && EarlierWon(c, e, w)
    case CancelRest(w, todo) => w < |c.first| && failed && EarlierWon(c, e, w)
    case AwaitRest(w, spawned) => w < |c.first| && !failed && EarlierWon(c, e, w) && spawned <= c.Members(w)
    case WaveRecompute(w, _) => w < |c.first| && EarlierWon(c, e, w)
    case FinalRecompute(_) => true
    case Finished => true
  }

  ghost predicate Place(c: Config, e: Execs, coord: Coordinator, failed: bool, shutdown: bool, digest: Digest)
    requires c.WellFormed()
  {
    && EarlierOver(c, e, At(c, coord))
    && LaterIdle(c, e, At(c, coord))
    && WaveHere(c, e, coord, failed)
    && Reason(c, e, coord, failed, shutdown, digest)
  }

  // Every snapshot taken by a recompute that has not been written yet is one the executions
  // have only moved forward from.
  ghost predicate TaskSnapshot(e: Execs, id: ExecId) {
    && id in e.tasks
    && (e.tasks[id].Recompute? && e.tasks[id].snapshot.Some? ==> Follows(e.tasks[id].snapshot.value, e.status))
  }

  ghost predicate Snapshots(e: Execs, coord: Coordinator) {
    && (forall id :: id in e.tasks ==> TaskSnapshot(e, id))
    && (coord.WaveRecompute? && coord.snapshot.Some? ==> Follows(coord.snapshot.value, e.status))
    && (coord.FinalRecompute? && coord.snapshot.Some? ==>
          Follows(coord.snapshot.value, e.status) && Settles(coord.snapshot.value))
  }

  // At most one recompute has reported settled; what it reported is final.
  ghost predicate SettledOnce(finished: bool, settles: seq<Status>, status: map<ExecId, Status>) {
    && |settles| == (if finished then 1 else 0)
    && (finished ==> AllTerminalOf(status.Values) && settles[0] == AggregateOf(status.Values) && settles[0].Terminal())
  }

  ghost predicate Inv(c: Config, s: State) {
    && Shape(c, s.execs)
    && Tasks(s.execs)
    && Place(c, s.execs, s.coord, s.failed, s.shutdown, s.digest)
    && Snapshots(s.execs, s.coord)
    && SettledOnce(s.row.finished, s.log.settles, s.execs.status)
    && (s.coord.Finished? ==> s.row.finished)
  }

  // ---- building blocks: what one kind of change keeps ----

  lemma {:induction false} InitInv(c: Config, s: State)
    requires Init(c, s)
    ensures Inv(c, s)
  {
  }

  lemma {:induction false} WriteSettles(s: State, snapshot: map<ExecId, Status>)
    requires SettledOnce(s.row.finished, s.log.settles, s.execs.status) && Follows(snapshot, s.execs.status)
    ensures
      var s' := WriteAggregate(s, snapshot);
      && SettledOnce(s'.row.finished, s'.log.settles, s'.execs.status)
      && (s.row.finished || Settles(snapshot) ==> s'.row.finished)
  {
    if Settles(snapshot) {
      SettledSnapshotIsCurrent(snapshot, s.execs.status);
    }
  }

  lemma {:induction false} StillSettledOnce(finished: bool, settles: seq<Status>, status: map<ExecId, Status>,
          later: map<ExecId, Status>)
    requires SettledOnce(finished, settles, status) && Follows(status, later)
    ensures SettledOnce(finished, settles, later)
  {
    if finished {
      SettledSnapshotIsCurrent(status, later);
    }
  }

  lemma {:induction false} DigestByNext(c: Config, w: nat)
    ensures DigestBy(c, w) ==> DigestBy(c, w + 1)
    ensures w < |c.first| && c.PinsOf(c.first[w]) > 0 ==> DigestBy(c, w + 1)
  {
  }

  // One goroutine that has started and not returned changes its own position, and perhaps its
  // own status, forward.
  ghost predicate Moves(e: Execs, e': Execs, id: ExecId) {
    && id in e.tasks && id in e.status && !e.tasks[id].Idle? && !e.tasks[id].Returned?
    && e'.tasks.Keys == e.tasks.Keys
    && (forall k :: k in e.tasks && k != id ==> e'.tasks[k] == e.tasks[k])
    && Follows(e.status, e'.status)
    && (forall k :: k in e.status && k != id ==> e'.status[k] == e.status[k])
    && !e'.tasks[id].Idle? && TaskOk(e'.tasks[id], e'.status[id])
    && TaskSnapshot(e', id)
  }

  lemma {:induction false} MovesSnapshots(e: Execs, e': Execs, id: ExecId, coord: Coordinator)
    requires Moves(e, e', id) && Snapshots(e, coord)
    ensures Snapshots(e', coord)
  {
    forall k | k in e'.tasks
      ensures TaskSnapshot(e', k)
    {
      assert TaskSnapshot(e, k);
    }
  }

  lemma {:induction false} MovesPlace(c: Config, e: Execs, e': Execs, id: ExecId,
                                      coord: Coordinator, failed: bool, shutdown: bool, digest: Digest)
    requires Shape(c, e) && Moves(e, e', id) && Place(c, e, coord, failed, shutdown, digest)
    ensures Place(c, e', coord, failed, shutdown, digest)
  {
    assert forall k :: Over(e, k) ==> Over(e', k);
    assert forall k :: Won(e, k) ==> Won(e', k);
    assert forall k :: NotStarted(e, k) ==> NotStarted(e', k);
  }

  lemma {:induction false} MovesTasks(e: Execs, e': Execs, id: ExecId)
    requires Tasks(e) && Moves(e, e', id)
    ensures Tasks(e')
  {
    forall k | k in e'.tasks
      ensures TaskAt(e', k)
    {
      assert TaskAt(e, k);
    }
  }

  // ---- the goroutine of one execution ----

  lemma {:induction false} TransitionMoves(e: Execs, id: ExecId, from: Status, to: Status, next: Task, otherwise: Task)
    requires TaskAt(e, id) && !e.tasks[id].Idle? && !e.tasks[id].Returned?
    requires !from.Terminal()
    requires !next.Recompute? && !next.Idle? && TaskOk(next, to)
    requires !otherwise.Recompute? && !otherwise.Idle? && (e.status[id] != from ==> TaskOk(otherwise, e.status[id]))
    ensures Moves(e, Transition(e, id, from, to, next, otherwise), id)
  {
  }

  lemma {:induction false} DriveMoves(c: Config, e: Execs, id: ExecId, choice: Choice)
    requires CanDrive(c, e, id, choice) && TaskAt(e, id) && TaskSnapshot(e, id)
    ensures Moves(e, DriveExecs(e, id, choice), id)
  {
    match e.tasks[id] {
      case Dispatch(d) => TransitionMoves(e, id, Queued, Dispatching, Acquire(d), Returned(Unresolved, false));
      case MarkRunning(d) => TransitionMoves(e, id, Dispatching, Running, Execute(d), Returned(Unresolved, false));
      case Settle(from, to, resolved, ok) =>
        TransitionMoves(e, id, from, to, Returned(resolved, ok), Returned(resolved, ok));
      case _ =>
    }
  }

  // The write of a recompute, if the goroutine is at one.
  lemma {:induction false} TaskWriteSettlesOnce(s: State, id: ExecId)
    requires id in s.execs.tasks && TaskSnapshot(s.execs, id)
    requires SettledOnce(s.row.finished, s.log.settles, s.execs.status)
    ensures var t := s.execs.tasks[id];
      var w := if t.Recompute? && t.snapshot.Some? then WriteAggregate(s, t.snapshot.value) else s;
      && SettledOnce(w.row.finished, w.log.settles, s.execs.status)
      && w.coord == s.coord && w.failed == s.failed && w.shutdown == s.shutdown && w.digest == s.digest
      && (s.row.finished ==> w.row.finished)
  {
    var t := s.execs.tasks[id];
    if t.Recompute? && t.snapshot.Some? {
      WriteSettles(s, t.snapshot.value);
    }
  }

  lemma {:induction false} DriveKeeps(c: Config, s: State, id: ExecId, choice: Choice)
    requires Inv(c, s) && CanDrive(c, s.execs, id, choice)
    ensures Inv(c, DriveStep(s, id, choice))
  {
    var e' := DriveExecs(s.execs, id, choice);
    assert TaskAt(s.execs, id) && TaskSnapshot(s.execs, id);
    DriveMoves(c, s.execs, id, choice);
    MovesTasks(s.execs, e', id);
    MovesSnapshots(s.execs, e', id, s.coord);
    MovesPlace(c, s.execs, e', id, s.coord, s.failed, s.shutdown, s.digest);
    TaskWriteSettlesOnce(s, id);
    var s' := DriveStep(s, id, choice);
    StillSettledOnce(s'.row.finished, s'.log.settles, s.execs.status, e'.status);
  }

  // ---- the coordinator ----

  // Starting executions that have not started and were still queued or canceled.
  lemma {:induction false} StartKeepsExecs(c: Config, e: Execs, coord: Coordinator, ids: set<ExecId>, digest: Digest)
    requires Shape(c, e) && Tasks(e) && Snapshots(e, coord)
    requires forall id :: id in ids ==> NotStarted(e, id)
    ensures Shape(c, Start(e, ids, digest)) && Tasks(Start(e, ids, digest)) && Snapshots(Start(e, ids, digest), coord)
  {
    var e' := Start(e, ids, digest);
    forall id | id in e'.tasks
      ensures TaskAt(e', id) && TaskSnapshot(e', id)
    {
      assert TaskAt(e, id) && TaskSnapshot(e, id);
    }
  }

  lemma {:induction false} StartFrame(e: Execs, ids: set<ExecId>, digest: Digest)
    ensures var e' := Start(e, ids, digest);
      && (forall id :: Over(e, id) && id !in ids ==> Over(e', id))
      && (forall id :: Won(e, id) ==> Won(e', id))
      && (forall id :: NotStarted(e, id) && id !in ids ==> NotStarted(e', id))
  {
  }

  lemma {:induction false} SpawnPlace(c: Config, e: Execs, w: nat, shutdown: bool, digest: Digest)
    requires Shape(c, e) && w < |c.first| && !shutdown
    requires Place(c, e, Top(w), false, shutdown, digest)
    ensures digest.Unresolved? ==>
              Place(c, Start(e, {c.first[w]}, digest), AwaitFirst(w), false, shutdown, digest)
    ensures Place(c, Start(e, c.Members(w), digest), AwaitRest(w, c.Members(w)), false, shutdown, digest)
  {
    StartFrame(e, {c.first[w]}, digest);
    StartFrame(e, c.Members(w), digest);
  }

  lemma {:induction false} PromoteFrame(s: State, resolved: Digest)
    ensures var p := PromoteDigest(s, resolved);
      && p.execs == s.execs && p.coord == s.coord && p.failed == s.failed && p.shutdown == s.shutdown
      && p.row.finished == s.row.finished && p.log.settles == s.log.settles
  {
  }

  // Inv, from its parts, for a state that differs from `s` in nothing a settle could see.
  lemma {:induction false} Reassemble(c: Config, s: State, s': State)
    requires Inv(c, s)
    requires Shape(c, s'.execs) && Tasks(s'.execs) && Snapshots(s'.execs, s'.coord)
    requires Place(c, s'.execs, s'.coord, s'.failed, s'.shutdown, s'.digest)
    requires s'.execs.status == s.execs.status && s'.row.finished == s.row.finished
    requires s'.log.settles == s.log.settles && !s'.coord.Finished?
    ensures Inv(c, s')
  {
  }

  // The coordinator moves without starting anything.
  lemma {:induction false} TopMoves(c: Config, e: Execs, w: nat, failed: bool, shutdown: bool, digest: Digest)
    requires Shape(c, e) && Place(c, e, Top(w), failed, shutdown, digest)
    ensures w >= |c.first| ==> Place(c, e, FinalRecompute(None), failed, shutdown, digest)
    ensures w < |c.first| && (failed || shutdown) ==> Place(c, e, CancelLater(w, c.Members(w)), failed, shutdown, digest)
  {
  }

  lemma {:induction false} SpawnExecs(c: Config, s: State, w: nat, ids: set<ExecId>)
    requires Inv(c, s) && s.coord == Top(w) && w < |c.first|
    requires forall id :: id in ids ==> id in c.Members(w)
    ensures var e' := Start(s.execs, ids, s.digest);
      && Shape(c, e') && Tasks(e') && e'.status == s.execs.status
      && Snapshots(e', AwaitFirst(w)) && Snapshots(e', AwaitRest(w, ids))
  {
    assert forall id :: id in c.Members(w) ==> NotStarted(s.execs, id);
    StartKeepsExecs(c, s.execs, s.coord, ids, s.digest);
  }

  lemma {:induction false} TopSpawnKeeps(c: Config, s: State, w: nat)
    requires Inv(c, s) && s.coord == Top(w) && w < |c.first| && !s.failed && !s.shutdown
    ensures Inv(c, TopStep(c, s, w))
  {
    SpawnPlace(c, s.execs, w, s.shutdown, s.digest);
    if s.digest.Unresolved? {
      SpawnExecs(c, s, w, {c.first[w]});
      Reassemble(c, s, Spawn(s, {c.first[w]}).(coord := AwaitFirst(w)));
    } else {
      SpawnExecs(c, s, w, c.Members(w));
      Reassemble(c, s, Spawn(s, c.Members(w)).(coord := AwaitRest(w, c.Members(w))));
    }
  }

  lemma {:induction false} TopKeeps(c: Config, s: State, w: nat)
    requires Inv(c, s) && s.coord == Top(w)
    ensures Inv(c, TopStep(c, s, w))
  {
    if w < |c.first| && !s.failed && !s.shutdown {
      TopSpawnKeeps(c, s, w);
    } else {
      TopMoves(c, s.execs, w, s.failed, s.shutdown, s.digest);
      Reassemble(c, s, TopStep(c, s, w));
    }
  }

  lemma {:induction false} FirstFailedPlace(c: Config, e: Execs, w: nat, shutdown: bool, before: Digest, digest: Digest)
    requires Shape(c, e) && w < |c.first|
    requires Place(c, e, AwaitFirst(w), false, shutdown, before) && Over(e, c.first[w])
    ensures Place(c, e, CancelRest(w, c.Members(w) - {c.first[w]}), true, shutdown, digest)
  {
  }

  lemma {:induction false} FirstReturnedPlace(c: Config, e: Execs, w: nat, shutdown: bool, before: Digest, digest: Digest)
    requires Shape(c, e) && w < |c.first|
    requires Place(c, e, AwaitFirst(w), false, shutdown, before) && Over(e, c.first[w]) && Won(e, c.first[w])
    ensures var rest := c.Members(w) - {c.first[w]};
      Place(c, Start(e, rest, digest), AwaitRest(w, rest), false, shutdown, digest)
  {
    StartFrame(e, c.Members(w) - {c.first[w]}, digest);
  }

  // What the invariant says where the first instance of a wave reports back.
  lemma {:induction false} AwaitFirstParts(c: Config, s: State, w: nat)
    requires Inv(c, s) && s.coord == AwaitFirst(w)
    ensures Place(c, s.execs, s.coord, false, s.shutdown, s.digest) && !s.failed && w < |c.first|
    ensures forall id :: id in c.Members(w) && id != c.first[w] ==> NotStarted(s.execs, id)
  {
  }

  lemma {:induction false} FirstReturnedKeeps(c: Config, s: State, w: nat, first: Task)
    requires Inv(c, s) && s.coord == AwaitFirst(w) && w < |c.first|
    requires c.first[w] in s.execs.tasks && first == s.execs.tasks[c.first[w]] && first.Returned?
    ensures Inv(c, FirstReturned(c, s, w, first))
  {
    var e, id0 := s.execs, c.first[w];
    assert TaskAt(e, id0) && Over(e, id0);
    AwaitFirstParts(c, s, w);
    PromoteFrame(s, first.resolved);
    var digest := PromoteDigest(s, first.resolved).digest;
    if first.ok {
      FirstReturnedPlace(c, e, w, s.shutdown, s.digest, digest);
      StartKeepsExecs(c, e, s.coord, c.Members(w) - {id0}, digest);
    } else {
      FirstFailedPlace(c, e, w, s.shutdown, s.digest, digest);
    }
    Reassemble(c, s, FirstReturned(c, s, w, first));
  }

  // Canceling an execution that has not started settles it, whatever it was.
  lemma {:induction false} CancelKeepsExecs(c: Config, e: Execs, coord: Coordinator, id: ExecId)
    requires Shape(c, e) && Tasks(e) && Snapshots(e, coord) && NotStarted(e, id)
    ensures var e' := Cancel(e, id);
      && Shape(c, e') && Tasks(e') && Snapshots(e', coord)
      && Follows(e.status, e'.status) && Over(e', id) && e'.tasks == e.tasks
      && (forall k :: Over(e, k) ==> Over(e', k))
      && (forall k :: Won(e, k) ==> Won(e', k))
  {
    var e' := Cancel(e, id);
    assert TaskAt(e, id);
    forall k | k in e'.tasks
      ensures TaskAt(e', k) && TaskSnapshot(e', k)
    {
      assert TaskAt(e, k) && TaskSnapshot(e, k);
    }
  }

  lemma {:induction false} CancelLaterKeeps(c: Config, s: State, w: nat, todo: set<ExecId>, pick: ExecId)
    requires Inv(c, s) && s.coord == CancelLater(w, todo) && (todo == {} || pick in todo)
    requires forall id :: id in todo ==> id in c.Members(w)
    ensures Inv(c, CoordinateStep(c, s, pick))
  {
    var e := s.execs;
    if todo != {} {
      assert NotStarted(e, pick);
      CancelKeepsExecs(c, e, s.coord, pick);
      StillSettledOnce(s.row.finished, s.log.settles, e.status, Cancel(e, pick).status);
      assert forall id :: NotStarted(e, id) ==> NotStarted(Cancel(e, pick), id);
    }
  }

  lemma {:induction false} CancelRestKeeps(c: Config, s: State, w: nat, todo: set<ExecId>, pick: ExecId)
    requires Inv(c, s) && s.coord == CancelRest(w, todo) && (todo == {} || pick in todo)
    requires w < |c.first| && forall id :: id in todo ==> id in c.Members(w) && id != c.first[w]
    ensures Inv(c, CoordinateStep(c, s, pick))
  {
    var e := s.execs;
    if todo != {} {
      assert NotStarted(e, pick);
      CancelKeepsExecs(c, e, s.coord, pick);
      StillSettledOnce(s.row.finished, s.log.settles, e.status, Cancel(e, pick).status);
      assert forall id :: NotStarted(e, id) ==> NotStarted(Cancel(e, pick), id);
    }
  }

  lemma {:induction false} RestReturnedKeeps(c: Config, s: State, w: nat, spawned: set<ExecId>, pick: ExecId)
    requires Inv(c, s) && s.coord == AwaitRest(w, spawned) && AllReturned(s.execs, spawned)
    ensures Inv(c, CoordinateStep(c, s, pick))
  {
    var e := s.execs;
    forall id | id in c.waveOf && c.waveOf[id] == w
      ensures Over(e, id) && (AllOk(e, spawned) ==> Won(e, id))
    {
      assert TaskAt(e, id);
    }
  }

  // Nothing is left to settle when the coordinator has left the loop.
  lemma {:induction false} LoopEndsSettled(c: Config, e: Execs)
    requires Shape(c, e) && Tasks(e) && EarlierOver(c, e, |c.first|)
    ensures Settles(e.status)
  {
    forall st | st in e.status.Values
      ensures st.Terminal() && st != Superseded
    {
      var id :| id in e.status && e.status[id] == st;
      assert Over(e, id) && TaskAt(e, id);
    }
    assert e.status[c.first[0]] in e.status.Values;
    EndedRolloutAggregatesTerminal(e.status.Values);
  }

  lemma {:induction false} WaveOverPlace(c: Config, e: Execs, w: nat, snapshot: Option<map<ExecId, Status>>,
                                         failed: bool, shutdown: bool, digest: Digest)
    requires Shape(c, e) && Place(c, e, WaveRecompute(w, snapshot), failed, shutdown, digest)
    ensures Place(c, e, Top(w + 1), failed, shutdown, digest)
  {
  }

  lemma {:induction false} WaveRecomputeKeeps(c: Config, s: State, w: nat, pick: ExecId)
    requires Inv(c, s) && s.coord.WaveRecompute? && w == s.coord.wave
    ensures Inv(c, CoordinateStep(c, s, pick))
  {
    if s.coord.snapshot.Some? {
      WriteSettles(s, s.coord.snapshot.value);
      WaveOverPlace(c, s.execs, w, s.coord.snapshot, s.failed, s.shutdown, s.digest);
    }
  }

  lemma {:induction false} FinalReadKeeps(c: Config, s: State)
    requires Inv(c, s) && s.coord == FinalRecompute(None)
    ensures Inv(c, s.(coord := FinalRecompute(Some(s.execs.status))))
  {
    LoopEndsSettled(c, s.execs);
    Reassemble(c, s, s.(coord := FinalRecompute(Some(s.execs.status))));
  }

  lemma {:induction false} FinalWriteKeeps(c: Config, s: State, snapshot: map<ExecId, Status>)
    requires Inv(c, s) && s.coord == FinalRecompute(Some(snapshot))
    ensures Inv(c, WriteAggregate(s, snapshot).(coord := Finished))
  {
    WriteSettles(s, snapshot);
  }

  lemma {:induction false} FinalRecomputeKeeps(c: Config, s: State, pick: ExecId)
    requires Inv(c, s) && s.coord.FinalRecompute?
    ensures Inv(c, CoordinateStep(c, s, pick))
  {
    match s.coord.snapshot {
      case Some(snapshot) => FinalWriteKeeps(c, s, snapshot);
      case None => FinalReadKeeps(c, s);
    }
  }

  // The sweeps only ever name executions of the wave they sweep.
  ghost predicate TodoOk(c: Config, coord: Coordinator) {
    && (coord.CancelLater? ==> coord.todo <= c.Members(coord.wave))
    && (coord.CancelRest? ==> coord.wave < |c.first| && coord.todo <= c.Members(coord.wave) - {c.first[coord.wave]})
  }

  lemma {:induction false} CoordinateTodo(c: Config, s: State, pick: ExecId)
    requires CanCoordinate(c, s, pick) && TodoOk(c, s.coord)
    ensures TodoOk(c, CoordinateStep(c, s, pick).coord)
  {
  }

  lemma {:induction false} CoordinateKeeps(c: Config, s: State, pick: ExecId)
    requires Inv(c, s) && TodoOk(c, s.coord) && CanCoordinate(c, s, pick)
    ensures Inv(c, CoordinateStep(c, s, pick))
  {
    match s.coord {
      case Top(w) => TopKeeps(c, s, w);
      case CancelLater(w, todo) => CancelLaterKeeps(c, s, w, todo, pick);
      case AwaitFirst(w) =>
        assert c.first[w] in {c.first[w]};
        FirstReturnedKeeps(c, s, w, s.execs.tasks[c.first[w]]);
      case CancelRest(w, todo) => CancelRestKeeps(c, s, w, todo, pick);
      case AwaitRest(w, spawned) => RestReturnedKeeps(c, s, w, spawned, pick);
      case WaveRecompute(w, _) => WaveRecomputeKeeps(c, s, w, pick);
      case FinalRecompute(_) => FinalRecomputeKeeps(c, s, pick);
      case Finished =>
    }
  }

  lemma {:induction false} ShutdownKeeps(c: Config, s: State)
    requires Inv(c, s)
    ensures Inv(c, s.(shutdown := true))
  {
  }

  lemma {:induction false} ApplyTodo(c: Config, s: State, a: Action)
    requires Enabled(c, s, a) && TodoOk(c, s.coord)
    ensures TodoOk(c, Apply(c, s, a).coord)
  {
    match a {
      case Coordinate(pick) => CoordinateTodo(c, s, pick);
      case Drive(id, choice) =>
      case Shutdown =>
    }
  }

  lemma {:induction false} ApplyKeeps(c: Config, s: State, a: Action)
    requires Inv(c, s) && TodoOk(c, s.coord) && Enabled(c, s, a)
    ensures Inv(c, Apply(c, s, a)) && TodoOk(c, Apply(c, s, a).coord)
  {
    ApplyTodo(c, s, a);
    match a {
      case Coordinate(pick) => CoordinateKeeps(c, s, pick);
      case Drive(id, choice) => DriveKeeps(c, s, id, choice);
      case Shutdown => ShutdownKeeps(c, s);
    }
  }

  lemma {:induction false} RunKeeps(c: Config, run: seq<State>, i: nat)
    requires Run(c, run) && i < |run|
    ensures Inv(c, run[i]) && TodoOk(c, run[i].coord)
  {
    if i == 0 {
      InitInv(c, run[0]);
    } else {
      RunKeeps(c, run, i - 1);
      var a: Action :| Enabled(c, run[i - 1], a) && run[i - 1 + 1] == Apply(c, run[i - 1], a);
      ApplyKeeps(c, run[i - 1], a);
    }
  }
}

/** Building runs of a rollout: how to take one execution, one wave, and all waves up to a
    given one from their start to their end. */
module RolloutDrive {
  import opened Model
  import opened Wrappers
  import opened Rollout
  import opened RolloutProof
  import opened RolloutTheorems

  ghost predicate Reaches(c: Config, s: State, s': State) {
    exists path: seq<State> :: Steps(c, path) && path[0] == s && path[|path| - 1] == s'
  }

  lemma {:induction false} ReachesStep(c: Config, s: State, t: State, a: Action)
    requires Reaches(c, s, t) && Enabled(c, t, a)
    ensures Reaches(c, s, Apply(c, t, a))
  {
    var path: seq<State> :| Steps(c, path) && path[0] == s && path[|path| - 1] == t;
    var longer := path + [Apply(c, t, a)];
    forall i | 0 <= i < |longer| - 1
      ensures Next(c, longer[i], longer[i + 1])
    {
      if i < |path| - 1 {
        assert Next(c, path[i], path[i + 1]);
      }
    }
    assert Steps(c, longer);
  }

  lemma {:induction false} ReachesSelf(c: Config, s: State)
    ensures Reaches(c, s, s)
  {
    assert Steps(c, [s]) && [s][0] == s;
  }

  lemma {:induction false} ReachedByRun(c: Config, s0: State, s: State) returns (run: seq<State>)
    requires Init(c, s0) && Reaches(c, s0, s)
    ensures Run(c, run) && run[|run| - 1] == s
  {
    run :| Steps(c, run) && run[0] == s0 && run[|run| - 1] == s;
  }

  // Everything but the executions, the row's status and the pins.
  ghost predicate SameElse(s: State, t: State) {
    && t.coord == s.coord && t.digest == s.digest && t.failed == s.failed && t.shutdown == s.shutdown
    && t.row.finished == s.row.finished && t.row.digest == s.row.digest
    && t.log.settles == s.log.settles && t.log.handed == s.log.handed && t.log.digestWrites == s.log.digestWrites
  }

  lemma {:induction false} UnsettledSnapshot(status: map<ExecId, Status>, id: ExecId)
    requires id in status && !status[id].Terminal()
    ensures !Settles(status)
  {
    assert status[id] in status.Values;
  }

  // A goroutine that just moved its execution to a status that has not settled recomputes.
  lemma {:induction false} RecomputeUnsettled(c: Config, s0: State, s: State, id: ExecId, next: Task) returns (t: State)
    requires Reaches(c, s0, s) && id in s.execs.tasks && s.execs.tasks[id] == Recompute(None, next)
    requires id in s.execs.status && !s.execs.status[id].Terminal()
    ensures Reaches(c, s0, t)
    ensures t.execs == s.execs.(tasks := s.execs.tasks[id := next]) && SameElse(s, t) && t.log == s.log
    ensures t.row.status == AggregateOf(s.execs.status.Values)
  {
    ReachesStep(c, s0, s, Drive(id, Nothing));
    var s1 := Apply(c, s, Drive(id, Nothing));
    UnsettledSnapshot(s.execs.status, id);
    ReachesStep(c, s0, s1, Drive(id, Nothing));
    t := Apply(c, s1, Drive(id, Nothing));
    assert t.execs.tasks == s.execs.tasks[id := next];
  }

  lemma {:induction false} DriveToRunning(c: Config, s0: State, s: State, id: ExecId, d: Digest) returns (t: State)
    requires Reaches(c, s0, s) && id in s.execs.tasks && id in s.execs.status
    requires s.execs.tasks[id] == Dispatch(d) && s.execs.status[id] == Queued
    ensures Reaches(c, s0, t) && SameElse(s, t) && t.log == s.log
    ensures t.execs == Execs(s.execs.status[id := Dispatching], s.execs.tasks[id := MarkRunning(d)])
  {
    ReachesStep(c, s0, s, Drive(id, Nothing));
    var s1 := Apply(c, s, Drive(id, Nothing));
    var s2 := RecomputeUnsettled(c, s0, s1, id, Acquire(d));
    ReachesStep(c, s0, s2, Drive(id, Nothing));
    t := Apply(c, s2, Drive(id, Nothing));
    assert t.execs.tasks == s.execs.tasks[id := MarkRunning(d)];
  }

  lemma {:induction false} DriveToExecute(c: Config, s0: State, s: State, id: ExecId, d: Digest) returns (t: State)
    requires Reaches(c, s0, s) && id in s.execs.tasks && id in s.execs.status
    requires s.execs.tasks[id] == Dispatch(d) && s.execs.status[id] == Queued
    ensures Reaches(c, s0, t) && SameElse(s, t) && t.log == s.log
    ensures t.execs == Execs(s.execs.status[id := Running], s.execs.tasks[id := Execute(d)])
    ensures t.row.status == AggregateOf(t.execs.status.Values)
  {
    var s1 := DriveToRunning(c, s0, s, id, d);
    ReachesStep(c, s0, s1, Drive(id, Nothing));
    var s2 := Apply(c, s1, Drive(id, Nothing));
    t := RecomputeUnsettled(c, s0, s2, id, Execute(d));
    assert t.execs.status == s.execs.status[id := Running];
  }

  // One execution from its start to the point where its outcome is about to be recorded.
  lemma {:induction false} DriveToAnswer(c: Config, s0: State, s: State, id: ExecId, d: Digest,
          o: Outcome) returns (t: State)
    requires Reaches(c, s0, s) && id in s.execs.tasks && id in s.execs.status
    requires s.execs.tasks[id] == Dispatch(d) && s.execs.status[id] == Queued && Possible(c, id, d, o)
    ensures Reaches(c, s0, t) && SameElse(s, t)
    ensures t.execs == Execs(s.execs.status[id := Running], s.execs.tasks[id := Answered(o)])
    ensures t.row.status == AggregateOf(t.execs.status.Values)
    ensures t.log.pins == if o.Ran? && o.pinned != [] then s.log.pins[id := o.pinned] else s.log.pins
  {
    var u := DriveToExecute(c, s0, s, id, d);
    ReachesStep(c, s0, u, Drive(id, Answer(o)));
    t := Apply(c, u, Drive(id, Answer(o)));
    assert t.execs.tasks == s.execs.tasks[id := Answered(o)];
  }

  // Recording the outcome of a successful execution, up to the read of its recompute.
  lemma {:induction false} DriveToRead(c: Config, s0: State, s: State, id: ExecId, resolved: Digest) returns (t: State)
    requires Reaches(c, s0, s) && id in s.execs.tasks && id in s.execs.status
    requires s.execs.tasks[id] == Settle(Running, Succeeded, resolved, true) && s.execs.status[id] == Running
    ensures Reaches(c, s0, t) && SameElse(s, t) && t.log == s.log && t.row == s.row
    ensures t.execs.status == s.execs.status[id := Succeeded]
    ensures t.execs.tasks == s.execs.tasks[id := Recompute(Some(s.execs.status[id := Succeeded]), Returned(resolved, true))]
  {
    ReachesStep(c, s0, s, Drive(id, Nothing));
    var s1 := Apply(c, s, Drive(id, Nothing));
    ReachesStep(c, s0, s1, Drive(id, Nothing));
    t := Apply(c, s1, Drive(id, Nothing));
    assert t.execs.status == s.execs.status[id := Succeeded];
    assert t.execs.tasks == s.execs.tasks[id := Recompute(Some(t.execs.status), Returned(resolved, true))];
  }

  lemma {:induction false} DriveWrite(c: Config, s0: State, s: State, id: ExecId, snapshot: map<ExecId, Status>,
          next: Task) returns (t: State)
    requires Reaches(c, s0, s) && id in s.execs.tasks && s.execs.tasks[id] == Recompute(Some(snapshot), next)
    ensures Reaches(c, s0, t)
    ensures t == WriteAggregate(s, snapshot).(execs := s.execs.(tasks := s.execs.tasks[id := next]))
  {
    ReachesStep(c, s0, s, Drive(id, Nothing));
    t := Apply(c, s, Drive(id, Nothing));
  }

  // One successful execution from its start to the return of its goroutine.
  lemma {:induction false} DriveToReturn(c: Config, s0: State, s: State, id: ExecId, d: Digest, resolved: Digest,
          pinned: seq<Digest>) returns (t: State)
    requires Reaches(c, s0, s) && id in s.execs.tasks && id in s.execs.status
    requires s.execs.tasks[id] == Dispatch(d) && s.execs.status[id] == Queued && Possible(c, id, d, Ran(resolved, pinned, None))
    ensures Reaches(c, s0, t)
    ensures t.coord == s.coord && t.digest == s.digest && t.failed == s.failed && t.shutdown == s.shutdown
    ensures t.execs == Execs(s.execs.status[id := Succeeded], s.execs.tasks[id := Returned(resolved, true)])
    ensures t.log.pins == if pinned != [] then s.log.pins[id := pinned] else s.log.pins
  {
    var s1 := DriveToAnswer(c, s0, s, id, d, Ran(resolved, pinned, None));
    var s2 := DriveToRead(c, s0, s1, id, resolved);
    t := DriveWrite(c, s0, s2, id, s2.execs.status, Returned(resolved, true));
    assert t.execs.status == s.execs.status[id := Succeeded];
    assert t.execs.tasks == s.execs.tasks[id := Returned(resolved, true)];
  }

  // A rollout nobody has touched yet.
  ghost function Untouched(c: Config): State {
    State(Execs(map id | id in c.waveOf :: Queued, map id | id in c.waveOf :: Idle),
          Row(Queued, false, c.initialDigest), Top(0), c.initialDigest, false, false, Log([], [], [], map[]))
  }

  // ---- answers that always succeed ----

  // The digests an execution pins: the one handed over, or digests of its own.
  ghost function Chosen(c: Config, id: ExecId, handed: Digest): (pinned: seq<Digest>)
    ensures |pinned| == c.PinsOf(id)
  {
    seq(c.PinsOf(id), i requires 0 <= i < c.PinsOf(id) => if handed.Unresolved? then Sha256(2 * id + i) else handed)
  }

  ghost function Success(c: Config, id: ExecId, handed: Digest): (o: Outcome)
    ensures Possible(c, id, handed, o)
  {
    Ran(LastOf(Chosen(c, id, handed), handed), Chosen(c, id, handed), None)
  }

  ghost predicate Done(c: Config, s: State, id: ExecId, handed: Digest) {
    && id in s.execs.status && s.execs.status[id] == Succeeded
    && id in s.execs.tasks && s.execs.tasks[id] == Returned(LastOf(Chosen(c, id, handed), handed), true)
    && PinnedBy(s.log.pins, id) == Chosen(c, id, handed)
  }

  ghost predicate Fresh(s: State, id: ExecId) {
    id in s.execs.status && s.execs.status[id] == Queued && id in s.execs.tasks && s.execs.tasks[id] == Idle && id !in s.log.pins
  }

  ghost predicate Dispatched(s: State, id: ExecId, d: Digest) {
    id in s.execs.status && s.execs.status[id] == Queued && id in s.execs.tasks && s.execs.tasks[id] == Dispatch(d) && id !in s.log.pins
  }

  // Nothing about the execution differs.
  ghost predicate SameAt(s: State, t: State, id: ExecId) {
    && (id in s.execs.status <==> id in t.execs.status) && (id in s.execs.status ==> t.execs.status[id] == s.execs.status[id])
    && (id in s.execs.tasks <==> id in t.execs.tasks) && (id in s.execs.tasks ==> t.execs.tasks[id] == s.execs.tasks[id])
    && (id in s.log.pins <==> id in t.log.pins) && (id in s.log.pins ==> t.log.pins[id] == s.log.pins[id])
  }

  ghost predicate SamePlace(s: State, t: State) {
    t.coord == s.coord && t.digest == s.digest && t.failed == s.failed && t.shutdown == s.shutdown
  }

  lemma {:induction false} DriveOne(c: Config, s0: State, s: State, id: ExecId, d: Digest) returns (t: State)
    requires Reaches(c, s0, s) && Dispatched(s, id, d)
    ensures Reaches(c, s0, t) && SamePlace(s, t) && Done(c, t, id, d)
    ensures forall k :: k != id ==> SameAt(s, t, k)
  {
    var o := Success(c, id, d);
    t := DriveToReturn(c, s0, s, id, d, o.resolved, o.pinned);
  }

  lemma {:induction false} SameStays(s: State, t: State, id: ExecId, d: Digest)
    requires SameAt(s, t, id)
    ensures Dispatched(s, id, d) ==> Dispatched(t, id, d)
    ensures Fresh(s, id) ==> Fresh(t, id)
  {
  }

  lemma {:induction false} SameTrans(s: State, t: State, u: State, id: ExecId)
    requires SameAt(s, t, id) && SameAt(t, u, id)
    ensures SameAt(s, u, id)
  {
  }

  lemma {:induction false} DriveAll(c: Config, s0: State, s: State, ids: set<ExecId>, d: Digest) returns (t: State)
    requires Reaches(c, s0, s) && forall id :: id in ids ==> Dispatched(s, id, d)
    ensures Reaches(c, s0, t) && SamePlace(s, t)
    ensures forall id :: id in ids ==> Done(c, t, id, d)
    ensures forall k :: k !in ids ==> SameAt(s, t, k)
    decreases ids
  {
    if ids == {} {
      t := s;
      assert forall k :: SameAt(s, t, k);
    } else {
      var id :| id in ids;
      var u := DriveOne(c, s0, s, id, d);
      forall k | k in ids - {id}
        ensures Dispatched(u, k, d)
      {
        SameStays(s, u, k, d);
      }
      t := DriveAll(c, s0, u, ids - {id}, d);
      assert SameAt(u, t, id);
      forall k | k !in ids
        ensures SameAt(s, t, k)
      {
        SameTrans(s, u, t, k);
      }
    }
  }

  ghost predicate Whole(c: Config, s: State) {
    s.execs.status.Keys == s.execs.tasks.Keys == c.waveOf.Keys
  }

  lemma {:induction false} StaysWhole(c: Config, s: State, t: State, ids: set<ExecId>)
    requires Whole(c, s) && ids <= c.waveOf.Keys
    requires forall id :: id in ids ==> id in t.execs.status && id in t.execs.tasks
    requires forall k :: k !in ids ==> SameAt(s, t, k)
    ensures Whole(c, t)
  {
    forall k
      ensures k in t.execs.status <==> k in c.waveOf
      ensures k in t.execs.tasks <==> k in c.waveOf
    {
      if k !in ids {
        assert SameAt(s, t, k);
      }
    }
  }

  // ---- one wave ----

  ghost predicate Before(c: Config, s: State, w: nat) {
    && s.coord == Top(w) && !s.failed && !s.shutdown
    && Whole(c, s)
    && (forall id :: id in c.waveOf && w <= c.waveOf[id] ==> Fresh(s, id))
  }

  lemma {:induction false} Spawned(s: State, ids: set<ExecId>, id: ExecId)
    ensures id in ids && Fresh(s, id) ==> Dispatched(Spawn(s, ids), id, s.digest)
    ensures id !in ids ==> SameAt(s, Spawn(s, ids), id)
  {
  }

  // The wave's first instance has succeeded without a digest.
  lemma {:induction false} FirstDone(c: Config, s0: State, s: State, w: nat) returns (t: State)
    requires c.WellFormed() && w < |c.first|
    requires Reaches(c, s0, s) && Before(c, s, w) && s.digest.Unresolved?
    ensures Reaches(c, s0, t) && t.coord == AwaitFirst(w) && !t.failed && !t.shutdown && t.digest.Unresolved?
    ensures Done(c, t, c.first[w], Unresolved)
    ensures forall id :: id != c.first[w] ==> SameAt(s, t, id)
    ensures Whole(c, t)
  {
    var first := c.first[w];
    ReachesStep(c, s0, s, Coordinate(0));
    var u := Apply(c, s, Coordinate(0));
    Spawned(s, {first}, first);
    t := DriveOne(c, s0, u, first, Unresolved);
    forall id | id != first
      ensures SameAt(s, t, id)
    {
      Spawned(s, {first}, id);
      SameTrans(s, u, t, id);
    }
    StaysWhole(c, s, t, {first});
  }

  // ... and its siblings are under way with what it reported.
  lemma {:induction false} RestStarted(c: Config, s0: State, s: State, w: nat) returns (t: State)
    requires c.WellFormed() && w < |c.first|
    requires Reaches(c, s0, s) && s.coord == AwaitFirst(w) && !s.failed && !s.shutdown && s.digest.Unresolved?
    requires Done(c, s, c.first[w], Unresolved) && Whole(c, s)
    requires forall id :: id in c.Members(w) && id != c.first[w] ==> Fresh(s, id)
    ensures var rest := c.Members(w) - {c.first[w]};
      && Reaches(c, s0, t) && t.coord == AwaitRest(w, rest) && !t.failed && !t.shutdown
      && t.digest == LastOf(Chosen(c, c.first[w], Unresolved), Unresolved)
      && (forall id :: id in rest ==> Dispatched(t, id, t.digest))
      && (forall id :: id !in rest ==> SameAt(s, t, id))
      && Whole(c, t)
  {
    var rest := c.Members(w) - {c.first[w]};
    assert AllReturned(s.execs, {c.first[w]});
    ReachesStep(c, s0, s, Coordinate(0));
    t := Apply(c, s, Coordinate(0));
    var p := PromoteDigest(s, s.execs.tasks[c.first[w]].resolved);
    forall id
      ensures id in rest ==> Dispatched(t, id, t.digest)
      ensures id !in rest ==> SameAt(s, t, id)
    {
      Spawned(p, rest, id);
    }
    StaysWhole(c, s, t, rest);
  }

  lemma {:induction false} EndWave(c: Config, s0: State, s: State, w: nat, ids: set<ExecId>) returns (t: State)
    requires Reaches(c, s0, s) && s.coord == AwaitRest(w, ids) && !s.failed
    requires forall id :: id in ids ==> id in s.execs.tasks && s.execs.tasks[id].Returned? && s.execs.tasks[id].ok
    ensures Reaches(c, s0, t) && t.coord == Top(w + 1) && !t.failed && t.shutdown == s.shutdown && t.digest == s.digest
    ensures t.execs == s.execs && t.log.pins == s.log.pins
  {
    ReachesStep(c, s0, s, Coordinate(0));
    var s1 := Apply(c, s, Coordinate(0));
    ReachesStep(c, s0, s1, Coordinate(0));
    var s2 := Apply(c, s1, Coordinate(0));
    ReachesStep(c, s0, s2, Coordinate(0));
    t := Apply(c, s2, Coordinate(0));
  }

  // ---- waves that succeed ----

  // An execution that succeeded and whose goroutine is gone; without a digest to hand over it
  // pinned digests of its own.
  ghost predicate Ended(c: Config, s: State, id: ExecId) {
    && id in s.execs.status && s.execs.status[id] == Succeeded
    && id in s.execs.tasks && s.execs.tasks[id].Returned? && s.execs.tasks[id].ok
    && (id in c.waveOf && !DigestBy(c, c.waveOf[id] + 1) ==> PinnedBy(s.log.pins, id) == Chosen(c, id, Unresolved))
  }

  ghost predicate AllEnded(c: Config, s: State, ids: set<ExecId>) {
    forall id :: id in ids ==> Ended(c, s, id)
  }

  // Where the coordinator stands once all of a wave that it will start has been started.
  ghost predicate Waits(c: Config, s: State, w: nat, ids: set<ExecId>) {
    && s.coord == AwaitRest(w, ids) && !s.failed && !s.shutdown && Whole(c, s)
    && ids <= c.Members(w) && AllEnded(c, s, c.Members(w) - ids)
    && (s.digest.Unresolved? <==> !DigestBy(c, w + 1))
    && forall id :: id in ids ==> Dispatched(s, id, s.digest)
  }

  ghost predicate SameOutside(c: Config, s: State, t: State, w: nat) {
    forall id :: id !in c.Members(w) ==> SameAt(s, t, id)
  }

  // With the digest known, the wave starts all at once.
  lemma {:induction false} OpenKnown(c: Config, s0: State, s: State, w: nat) returns (t: State)
    requires c.WellFormed() && w < |c.first|
    requires Reaches(c, s0, s) && Before(c, s, w) && !s.digest.Unresolved? && DigestBy(c, w)
    ensures Reaches(c, s0, t) && Waits(c, t, w, c.Members(w)) && SameOutside(c, s, t, w)
  {
    DigestByNext(c, w);
    ReachesStep(c, s0, s, Coordinate(0));
    t := Apply(c, s, Coordinate(0));
    assert c.first[w] in c.Members(w);
    forall id
      ensures id in c.Members(w) ==> Dispatched(t, id, s.digest)
      ensures id !in c.Members(w) ==> SameAt(s, t, id)
    {
      Spawned(s, c.Members(w), id);
    }
    StaysWhole(c, s, t, c.Members(w));
  }

  // Without it, the first instance goes ahead.
  lemma {:induction false} OpenUnknown(c: Config, s0: State, s: State, w: nat) returns (t: State)
    requires c.WellFormed() && w < |c.first|
    requires Reaches(c, s0, s) && Before(c, s, w) && s.digest.Unresolved? && !DigestBy(c, w)
    ensures Reaches(c, s0, t) && Waits(c, t, w, c.Members(w) - {c.first[w]}) && SameOutside(c, s, t, w)
  {
    DigestByNext(c, w);
    var first, rest := c.first[w], c.Members(w) - {c.first[w]};
    var u := FirstDone(c, s0, s, w);
    forall id | id in rest
      ensures Fresh(u, id)
    {
      SameStays(s, u, id, Unresolved);
    }
    t := RestStarted(c, s0, u, w);
    assert SameAt(u, t, first) && c.Members(w) - rest == {first};
    forall id | id !in c.Members(w)
      ensures SameAt(s, t, id)
    {
      SameTrans(s, u, t, id);
    }
    var own := Chosen(c, first, Unresolved);
    assert own != [] ==> own[|own| - 1] == Sha256(2 * first + |own| - 1);
    assert DigestBy(c, w + 1) ==> c.PinsOf(first) > 0;
    DoneEnded(c, u, first, Unresolved);
  }

  // The members of wave w that run side by side.
  ghost function Together(c: Config, w: nat): set<ExecId>
    requires w < |c.first|
  {
    if DigestBy(c, w) then c.Members(w) else c.Members(w) - {c.first[w]}
  }

  lemma {:induction false} OpenWave(c: Config, s0: State, s: State, w: nat) returns (t: State)
    requires c.WellFormed() && w < |c.first|
    requires Reaches(c, s0, s) && Before(c, s, w) && (s.digest.Unresolved? <==> !DigestBy(c, w))
    ensures Reaches(c, s0, t) && Waits(c, t, w, Together(c, w)) && SameOutside(c, s, t, w)
  {
    if s.digest.Unresolved? {
      t := OpenUnknown(c, s0, s, w);
    } else {
      t := OpenKnown(c, s0, s, w);
    }
  }

  lemma {:induction false} DoneEnded(c: Config, s: State, id: ExecId, d: Digest)
    requires Done(c, s, id, d) && (d.Unresolved? || (id in c.waveOf && DigestBy(c, c.waveOf[id] + 1)))
    ensures Ended(c, s, id)
  {
  }

  lemma {:induction false} EndedStays(c: Config, s: State, t: State, id: ExecId)
    requires Ended(c, s, id) && SameAt(s, t, id)
    ensures Ended(c, t, id)
  {
  }

  // Some of the wave succeed one after the other; the rest of the state stays.
  lemma {:induction false} DriveSome(c: Config, s0: State, s: State, w: nat, ids: set<ExecId>,
          some: set<ExecId>) returns (t: State)
    requires Reaches(c, s0, s) && Waits(c, s, w, ids) && some <= ids && ids <= c.waveOf.Keys
    ensures Reaches(c, s0, t) && SamePlace(s, t) && Whole(c, t)
    ensures AllEnded(c, t, c.Members(w) - ids) && AllEnded(c, t, some)
    ensures forall id :: id !in some ==> SameAt(s, t, id)
  {
    t := DriveAll(c, s0, s, some, s.digest);
    StaysWhole(c, s, t, some);
    forall id | id in some
      ensures Ended(c, t, id)
    {
      DoneEnded(c, t, id, s.digest);
    }
    forall id | id in c.Members(w) - ids
      ensures Ended(c, t, id)
    {
      EndedStays(c, s, t, id);
    }
  }

  lemma {:induction false} TogetherIn(c: Config, w: nat)
    requires c.WellFormed() && w < |c.first|
    ensures Together(c, w) <= c.Members(w) && c.Members(w) <= c.waveOf.Keys
  {
  }

  // A whole wave succeeds.
  lemma {:induction false} SucceedWave(c: Config, s0: State, s: State, w: nat) returns (t: State)
    requires c.WellFormed() && w < |c.first|
    requires Reaches(c, s0, s) && Before(c, s, w) && (s.digest.Unresolved? <==> !DigestBy(c, w))
    ensures Reaches(c, s0, t) && Before(c, t, w + 1) && (t.digest.Unresolved? <==> !DigestBy(c, w + 1))
    ensures AllEnded(c, t, c.Members(w)) && SameOutside(c, s, t, w)
  {
    TogetherIn(c, w);
    var u := OpenWave(c, s0, s, w);
    var v := DriveSome(c, s0, u, w, Together(c, w), Together(c, w));
    t := EndWave(c, s0, v, w, Together(c, w));
    forall id | id !in c.Members(w)
      ensures SameAt(s, t, id)
      ensures Fresh(s, id) ==> Fresh(t, id)
    {
      SameTrans(s, u, v, id);
    }
    forall id | id in c.Members(w)
      ensures Ended(c, t, id)
    {
      assert Ended(c, v, id);
    }
  }

  lemma {:induction false} SucceedWaves(c: Config, n: nat) returns (s: State)
    requires c.WellFormed() && n <= |c.first|
    ensures Reaches(c, Untouched(c), s) && Before(c, s, n) && (s.digest.Unresolved? <==> !DigestBy(c, n))
    ensures forall id :: id in c.waveOf && c.waveOf[id] < n ==> Ended(c, s, id)
  {
    if n == 0 {
      s := Untouched(c);
      ReachesSelf(c, s);
    } else {
      var t := SucceedWaves(c, n - 1);
      s := SucceedWave(c, Untouched(c), t, n - 1);
      forall id | id in c.waveOf && c.waveOf[id] < n
        ensures Ended(c, s, id)
      {
        if c.waveOf[id] < n - 1 {
          EndedStays(c, t, s, id);
        } else {
          assert id in c.Members(n - 1);
        }
      }
    }
  }

  // Everything but the executions in `left` has succeeded, and those are about to start.
  ghost predicate Left(c: Config, s: State, left: set<ExecId>) {
    && Whole(c, s)
    && (forall id :: id in left ==> Dispatched(s, id, s.digest))
    && forall id :: id in c.waveOf && id !in left ==> Ended(c, s, id)
  }

  lemma {:induction false} OthersEnded(c: Config, s: State, t: State, u: State, w: nat, left: set<ExecId>)
    requires w < |c.first| && left <= Together(c, w) && SameOutside(c, s, t, w)
    requires AllEnded(c, u, c.Members(w) - Together(c, w)) && AllEnded(c, u, Together(c, w) - left)
    requires forall id :: id in c.waveOf && id !in c.Members(w) ==> Ended(c, s, id) && SameAt(t, u, id)
    ensures forall id :: id in c.waveOf && id !in left ==> Ended(c, u, id)
  {
    forall id | id in c.waveOf && id !in left
      ensures Ended(c, u, id)
    {
      if id !in c.Members(w) {
        EndedStays(c, s, t, id);
        EndedStays(c, t, u, id);
      }
    }
  }

  // The last wave runs side by side with some of it left at the end.
  lemma {:induction false} ReachLast(c: Config, left: set<ExecId>) returns (s: State)
    requires c.WellFormed() && left <= Together(c, |c.first| - 1)
    ensures Reaches(c, Untouched(c), s) && Left(c, s, left)
    ensures s.coord == AwaitRest(|c.first| - 1, Together(c, |c.first| - 1)) && !s.failed && !s.shutdown
  {
    var last := |c.first| - 1;
    var ids := Together(c, last);
    TogetherIn(c, last);
    var t := SucceedWaves(c, last);
    var u := OpenWave(c, Untouched(c), t, last);
    s := DriveSome(c, Untouched(c), u, last, ids, ids - left);
    forall id | id in left
      ensures Dispatched(s, id, s.digest)
    {
      assert SameAt(u, s, id);
      SameStays(u, s, id, s.digest);
    }
    OthersEnded(c, t, u, s, last, left);
  }

  lemma {:induction false} NotYetSettled(c: Config, s: State, id: ExecId)
    requires c.WellFormed() && Reaches(c, Untouched(c), s) && id in s.execs.status && !s.execs.status[id].Terminal()
    ensures !s.row.finished && s.log.settles == []
  {
    var run := ReachedByRun(c, Untouched(c), s);
    RunKeeps(c, run, |run| - 1);
    assert s.execs.status[id] in s.execs.status.Values;
  }
}

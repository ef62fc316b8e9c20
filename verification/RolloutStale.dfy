/** Which rollouts leave a status behind that is not the aggregate of their executions: exactly
    those in which two executions of the last wave run side by side. */
module RolloutStale {
  import opened Model
  import opened Wrappers
  import opened Rollout
  import opened RolloutDrive
  import opened RolloutFrozen
  import RolloutTheorems

  // ---- two of the last wave at once ----

  // With everything else succeeded: one still running makes the aggregate read running.
  lemma {:induction false} LastAggregates(stale: map<ExecId, Status>, final: map<ExecId, Status>, a: ExecId, b: ExecId)
    requires a in final && b in final && a != b && final == stale[a := Succeeded] && a in stale && stale[a] == Running
    requires forall id :: id in final ==> final[id] == Succeeded
    ensures !Settles(stale) && AggregateOf(stale.Values) == Running
    ensures Settles(final) && AggregateOf(final.Values) == Succeeded
  {
    assert stale[a] in stale.Values && stale[b] == final[b] && stale[b] in stale.Values;
    assert forall id :: id in stale && id != a ==> stale[id] == final[id];
    assert final.Values == {Succeeded} by {
      assert final[a] in final.Values;
    }
  }

  // Both are about to record their success.
  ghost predicate TwoAnswered(s: State, s': State, a: ExecId, b: ExecId, ra: Digest, rb: Digest) {
    && s'.coord == s.coord && s'.failed == s.failed && s'.row.finished == s.row.finished && s'.log.settles == s.log.settles
    && s'.execs == Execs(s.execs.status[a := Running][b := Running],
                         s.execs.tasks[a := Settle(Running, Succeeded, ra, true)][b := Settle(Running, Succeeded, rb, true)])
  }

  lemma {:induction false} ReachBothAnswered(c: Config, s0: State, s: State, a: ExecId, b: ExecId)
    returns (t: State, ra: Digest, rb: Digest)
    requires Reaches(c, s0, s) && a != b && Dispatched(s, a, s.digest) && Dispatched(s, b, s.digest)
    ensures Reaches(c, s0, t) && TwoAnswered(s, t, a, b, ra, rb)
  {
    var oa, ob := Success(c, a, s.digest), Success(c, b, s.digest);
    ra, rb := oa.resolved, ob.resolved;
    var s1 := DriveToAnswer(c, s0, s, a, s.digest, oa);
    t := DriveToAnswer(c, s0, s1, b, s.digest, ob);
  }

  // b has read while a was still running, a has read the final statuses, neither has written.
  ghost predicate TwoRead(s: State, t: State, a: ExecId, b: ExecId, ra: Digest, rb: Digest) {
    && t.coord == s.coord && t.failed == s.failed && t.row.finished == s.row.finished && t.log.settles == s.log.settles
    && t.execs.status == s.execs.status[a := Running][b := Succeeded][a := Succeeded]
    && t.execs.tasks == s.execs.tasks[a := Recompute(Some(t.execs.status), Returned(ra, true))]
                                     [b := Recompute(Some(s.execs.status[a := Running][b := Succeeded]), Returned(rb, true))]
  }

  lemma {:induction false} ReachBothRead(c: Config, s0: State, s: State, a: ExecId, b: ExecId)
    returns (t: State, ra: Digest, rb: Digest)
    requires Reaches(c, s0, s) && a != b && Dispatched(s, a, s.digest) && Dispatched(s, b, s.digest)
    ensures Reaches(c, s0, t) && TwoRead(s, t, a, b, ra, rb)
  {
    var s2: State;
    s2, ra, rb := ReachBothAnswered(c, s0, s, a, b);
    var s3 := DriveToRead(c, s0, s2, b, rb);
    assert s3.execs.status == s.execs.status[a := Running][b := Succeeded];
    t := DriveToRead(c, s0, s3, a, ra);
    assert t.execs.tasks == s.execs.tasks[a := Recompute(Some(t.execs.status), Returned(ra, true))]
                                         [b := Recompute(Some(s3.execs.status), Returned(rb, true))];
  }

  // Recomputes of a deploy that is finished and settled change nothing more.
  lemma {:induction false} WriteAfter(s: State, snapshot: map<ExecId, Status>)
    requires s.row.finished && Settles(snapshot)
    ensures WriteAggregate(s, snapshot) == s
  {
  }

  // The coordinator leaves the last wave and returns without touching the row again.
  lemma {:induction false} RunToReturn(c: Config, s0: State, s: State, ids: set<ExecId>) returns (t: State)
    requires Reaches(c, s0, s) && |c.first| > 0 && s.coord == AwaitRest(|c.first| - 1, ids)
    requires AllReturned(s.execs, ids) && s.row.finished && Settles(s.execs.status)
    ensures Reaches(c, s0, t) && t.coord == Finished && t.row == s.row && t.execs == s.execs && t.log == s.log
  {
    var go := Coordinate(0);
    ReachesStep(c, s0, s, go);
    var s1 := Apply(c, s, go);
    ReachesStep(c, s0, s1, go);
    var s2 := Apply(c, s1, go);
    WriteAfter(s2, s.execs.status);
    ReachesStep(c, s0, s2, go);
    var s3 := Apply(c, s2, go);
    ReachesStep(c, s0, s3, go);
    var s4 := Apply(c, s3, go);
    ReachesStep(c, s0, s4, go);
    var s5 := Apply(c, s4, go);
    WriteAfter(s5, s.execs.status);
    ReachesStep(c, s0, s5, go);
    t := Apply(c, s5, go);
  }

  // Everybody but a and b is gone, and only a's snapshot shows everything settled.
  ghost predicate StaleAndFinal(c: Config, s: State, t: State, a: ExecId, b: ExecId) {
    var stale, final := s.execs.status[a := Running][b := Succeeded], t.execs.status;
    && !Settles(stale) && AggregateOf(stale.Values) == Running
    && Settles(final) && AggregateOf(final.Values) == Succeeded
    && forall id :: id in c.waveOf && id != a && id != b ==> id in s.execs.tasks && s.execs.tasks[id].Returned?
  }

  lemma {:induction false} TwoReadStale(c: Config, s: State, t: State, a: ExecId, b: ExecId, ra: Digest, rb: Digest)
    requires Left(c, s, {a, b}) && a in c.waveOf && b in c.waveOf && a != b && TwoRead(s, t, a, b, ra, rb)
    ensures StaleAndFinal(c, s, t, a, b)
  {
    assert forall id :: id in c.waveOf && id != a && id != b ==> Ended(c, s, id);
    LastAggregates(s.execs.status[a := Running][b := Succeeded], t.execs.status, a, b);
  }

  // a settles the deploy, b writes last.
  lemma {:induction false} ReachStale(c: Config, s0: State, s: State, t: State, a: ExecId, b: ExecId, ra: Digest, rb: Digest)
    returns (u: State)
    requires Reaches(c, s0, t) && TwoRead(s, t, a, b, ra, rb) && a != b && StaleAndFinal(c, s, t, a, b)
    requires !s.row.finished && s.log.settles == []
    ensures Reaches(c, s0, u) && u.coord == s.coord && u.row.finished && u.row.status == Running && u.log.settles == [Succeeded]
    ensures Settles(u.execs.status) && AggregateOf(u.execs.status.Values) == Succeeded
    ensures forall id :: id in c.waveOf ==> id in u.execs.tasks && u.execs.tasks[id].Returned?
  {
    var stale := s.execs.status[a := Running][b := Succeeded];
    var u1 := DriveWrite(c, s0, t, a, t.execs.status, Returned(ra, true));
    u := DriveWrite(c, s0, u1, b, stale, Returned(rb, true));
  }

  // Two executions of the last wave that run side by side can leave a deploy finished and
  // reported succeeded whose row reads running, for good: runDeploy has returned.
  lemma {:induction false} StaleStatusStays(c: Config, a: ExecId, b: ExecId) returns (run: seq<State>)
    requires c.WellFormed() && SideBySide(c, a, b)
    ensures Run(c, run)
    ensures var s := run[|run| - 1];
      && s.coord.Finished? && s.row.finished && s.log.settles == [Succeeded]
      && AggregateOf(s.execs.status.Values) == Succeeded && s.row.status == Running
  {
    var s0 := Untouched(c);
    TogetherIn(c, |c.first| - 1);
    var s := ReachLast(c, {a, b});
    assert Dispatched(s, a, s.digest) && Dispatched(s, b, s.digest);
    NotYetSettled(c, s, a);
    var t, ra, rb := ReachBothRead(c, s0, s, a, b);
    TwoReadStale(c, s, t, a, b, ra, rb);
    var u := ReachStale(c, s0, s, t, a, b, ra, rb);
    var v := RunToReturn(c, s0, u, Together(c, |c.first| - 1));
    run := ReachedByRun(c, s0, v);
  }

  // Every run of a rollout ends with the aggregate of its executions recorded if and only if
  // no two executions of the last wave run side by side.
  lemma {:induction false} StatusIsRightExactly(c: Config)
    requires c.WellFormed()
    ensures EndsAlone(c) <==>
            forall run: seq<State> :: Run(c, run) && run[|run| - 1].coord.Finished? ==>
                                        run[|run| - 1].row.status == AggregateOf(run[|run| - 1].execs.status.Values)
  {
    if EndsAlone(c) {
      forall run: seq<State> | Run(c, run) && run[|run| - 1].coord.Finished?
        ensures run[|run| - 1].row.status == AggregateOf(run[|run| - 1].execs.status.Values)
      {
        RolloutTheorems.ReturnsSettled(c, run, |run| - 1);
        FinishedReadsRight(c, run, |run| - 1);
      }
    } else {
      var a, b :| SideBySide(c, a, b);
      var run := StaleStatusStays(c, a, b);
    }
  }
}

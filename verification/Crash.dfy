/** A crash in the middle of a rollout, and what the restart makes of it: the states a run of the
    rollout can be caught in, as tables for recovery. */
module Crash {
  import opened Model
  import opened RolloutTables
  import opened Store
  import R = Rollout
  import RolloutDrive
  import Scheduler

  // The deploy is started and unfinished and has nothing left that could finish it: every
  // execution has settled, but the recompute that would have said so did not happen.
  ghost predicate BetweenSettleAndRecompute(s: R.State) {
    && !s.row.finished && !s.row.status.Queued?
    && forall id :: id in s.execs.status ==> s.execs.status[id].Terminal()
  }

  lemma {:induction false} OnlyDeploy(t: Tables, d: DeployId)
    requires t.created == [d]
    ensures d !in Scheduler.Overtaken(t)
  {
    assert forall e :: !Before(t.created, d, e);
  }

  // After a crash in any state of a rollout and the recovery that follows, the deploy is
  // finished or put back on its lane, if and only if the crash was not between the settle of
  // the last execution and its recompute.
  lemma {:induction false} RecoveryMissesExactly(c: R.Config, s: R.State, d: DeployId, service: Service,
          t': Tables, reason: string)
    requires Scheduler.Recovered(TablesOf(c, s, d, service), t', reason)
    ensures d in t'.deploys
    ensures t'.deploys[d].finished || Scheduler.Enqueues(TablesOf(c, s, d, service), d) <==> !BetweenSettleAndRecompute(s)
  {
    var t := TablesOf(c, s, d, service);
    OnlyDeploy(t, d);
    if id :| id in s.execs.status && !s.execs.status[id].Terminal() {
      assert t.execs[id].deploy == d && Unsettled(t.execs[id].status);
    }
    assert forall id :: id in t.execs && Unsettled(t.execs[id].status) ==> !s.execs.status[id].Terminal();
  }

  // Recovery leaves these tables as they are: the deploy stays unfinished and on no lane.
  ghost predicate Missed(t: Tables, d: DeployId) {
    && d in t.deploys && !t.deploys[d].finished && !Scheduler.Enqueues(t, d)
    && forall t', reason {:trigger Scheduler.Recovered(t, t', reason)} :: Scheduler.Recovered(t, t', reason) <==> t' == t
  }

  lemma {:induction false} RecoveredUnchanged(t: Tables, t': Tables, reason: string)
    requires Scheduler.InFlight(t) == {} && Scheduler.Overtaken(t) == {}
    ensures Scheduler.Recovered(t, t', reason) <==> t' == t
  {
    if Scheduler.Recovered(t, t', reason) {
      assert t'.deploys == t.deploys && t'.execs == t.execs;
    }
  }

  lemma {:induction false} CrashInBetweenIsMissed(c: R.Config, s: R.State, d: DeployId, service: Service)
    requires BetweenSettleAndRecompute(s)
    ensures Missed(TablesOf(c, s, d, service), d)
  {
    var t := TablesOf(c, s, d, service);
    OnlyDeploy(t, d);
    assert Scheduler.InFlight(t) == {};
    assert Scheduler.Overtaken(t) == {};
    forall t', reason
      ensures Scheduler.Recovered(t, t', reason) <==> t' == t
    {
      RecoveredUnchanged(t, t', reason);
    }
  }

  lemma {:induction false} TablesKeepRules(c: R.Config, s: R.State, d: DeployId, service: Service)
    ensures TablesOf(c, s, d, service).Valid()
  {
  }

  // ---- such a crash can happen in every rollout ----

  // x is alone in the last wave and resolves the digest.
  lemma {:induction false} ReachAlone(c: R.Config, x: ExecId) returns (t: R.State)
    requires c.WellFormed() && RolloutDrive.Together(c, |c.first| - 1) == {} && x == c.first[|c.first| - 1]
    ensures RolloutDrive.Reaches(c, RolloutDrive.Untouched(c), t) && RolloutDrive.Left(c, t, {x})
  {
    var last := |c.first| - 1;
    assert x in c.Members(last);
    var s := RolloutDrive.SucceedWaves(c, last);
    RolloutDrive.ReachesStep(c, RolloutDrive.Untouched(c), s, R.Coordinate(0));
    t := R.Apply(c, s, R.Coordinate(0));
    forall id
      ensures id == x ==> RolloutDrive.Dispatched(t, id, t.digest)
      ensures id != x ==> RolloutDrive.SameAt(s, t, id)
      ensures id in c.waveOf && id != x ==> RolloutDrive.Ended(c, t, id)
    {
      RolloutDrive.Spawned(s, {x}, id);
      if id in c.waveOf && id != x {
        assert id !in c.Members(last);
        RolloutDrive.EndedStays(c, s, t, id);
      }
    }
    RolloutDrive.StaysWhole(c, s, t, {x});
  }

  // Some execution is the last one to go.
  lemma {:induction false} ReachOneLeft(c: R.Config) returns (s: R.State, x: ExecId)
    requires c.WellFormed()
    ensures RolloutDrive.Reaches(c, RolloutDrive.Untouched(c), s) && x in c.waveOf && RolloutDrive.Left(c, s, {x})
  {
    if RolloutDrive.Together(c, |c.first| - 1) == {} {
      x := c.first[|c.first| - 1];
      s := ReachAlone(c, x);
    } else {
      RolloutDrive.TogetherIn(c, |c.first| - 1);
      x :| x in RolloutDrive.Together(c, |c.first| - 1);
      s := RolloutDrive.ReachLast(c, {x});
    }
  }

  // x has recorded its success and read the statuses, but not written what they aggregate to.
  lemma {:induction false} ReachBetween(c: R.Config, s: R.State, x: ExecId) returns (t: R.State)
    requires c.WellFormed() && RolloutDrive.Reaches(c, RolloutDrive.Untouched(c), s) && x in c.waveOf && RolloutDrive.Left(c, s, {x})
    ensures RolloutDrive.Reaches(c, RolloutDrive.Untouched(c), t) && BetweenSettleAndRecompute(t)
    ensures t.execs.status.Keys == c.waveOf.Keys
  {
    var s0 := RolloutDrive.Untouched(c);
    var o := RolloutDrive.Success(c, x, s.digest);
    var u := RolloutDrive.DriveToAnswer(c, s0, s, x, s.digest, o);
    RolloutDrive.NotYetSettled(c, u, x);
    assert u.execs.status[x] in u.execs.status.Values;
    t := RolloutDrive.DriveToRead(c, s0, u, x, o.resolved);
  }

  // A run of every rollout reaches a state with tables that keep the database's rules and that
  // recovery leaves unfinished.
  lemma {:induction false} RecoveryCanMissADeploy(c: R.Config, d: DeployId, service: Service) returns (run: seq<R.State>)
    requires c.WellFormed()
    ensures R.Run(c, run) && BetweenSettleAndRecompute(run[|run| - 1])
    ensures TablesOf(c, run[|run| - 1], d, service).Valid() && Missed(TablesOf(c, run[|run| - 1], d, service), d)
  {
    var s, x := ReachOneLeft(c);
    var t := ReachBetween(c, s, x);
    run := RolloutDrive.ReachedByRun(c, RolloutDrive.Untouched(c), t);
    CrashInBetweenIsMissed(c, t, d, service);
    TablesKeepRules(c, t, d, service);
  }
}

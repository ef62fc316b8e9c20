/** What exec.Execute answers, on the main host or from an edge, is what the rollout expects of
    it (internal/scheduler/scheduler.go:230-256): the bridge from the engine and the hub to the
    step machine of Rollout. */
module Answers {
  import opened Model
  import opened Ops
  import opened Wrappers
  import EdgeHub
  import Engine
  import Rollout
  import RolloutFrozen
  import RolloutImage
  import RolloutProof

  // The status runExecution records for an error: past the deadline of the execution's context
  // (`expired`) every error is a failure, whatever it says.
  function StatusOf(unreachable: bool, expired: bool): Status {
    if expired then Failed else if unreachable then Unreachable else Failed
  }

  // ---- on the main host ----

  ghost function LocalAnswer(spec: Engine.Spec, s: Engine.Summary, error: Option<Engine.Cause>,
                             expired: bool): Rollout.Outcome {
    Rollout.Ran(Rollout.LastOf(s.pinned, spec.digest), s.pinned, if error.Some? then Some(StatusOf(false, expired)) else None)
  }

  // A run of the engine, as Engine.Execute leaves it, is a possible answer.
  lemma LocalAnswersArePossible(c: Rollout.Config, id: ExecId, spec: Engine.Spec, s: Engine.Summary,
          error: Option<Engine.Cause>, expired: bool)
    requires c.PinsOf(id) == CountPins(spec.steps)
    requires Engine.Accounted(spec, s, error.None?)
    ensures Rollout.Possible(c, id, spec.digest, LocalAnswer(spec, s, error, expired))
  {
  }

  // ---- from an edge ----

  // How a call of the edge's executor can end on main.
  datatype EdgeEnd =
    | Refused(error: EdgeHub.BeginError)      // not attached, or too old for the pipeline
    | SendFailed
    | Got(result: EdgeHub.ExecResult)
    | ContextEnded

  // What the edge has done by then: its engine has run some of the pipeline, and a report says
  // what Engine.Execute returned, or that the edge could not decode the pipeline.
  ghost predicate OnEdge(spec: Engine.Spec, s: Engine.Summary, end: EdgeEnd) {
    match end
    case Refused(_) => s == Engine.Scan([])
    case SendFailed => Engine.Accounted(spec, s, false)
    case ContextEnded => Engine.Accounted(spec, s, false)
    case Got(SessionLost(_)) => Engine.Accounted(spec, s, false)
    case Got(Reported(report)) =>
      && Engine.Accounted(spec, s, report.ok)
      && (report.digest == Rollout.LastOf(s.pinned, spec.digest) || (!report.ok && s.pinned == [] && report.digest.Unresolved?))
  }

  // The error the call returns, if any, and whether it wraps the unreachable error.
  datatype CallError = CallError(unreachable: bool)

  function ErrorOf(end: EdgeEnd): Option<CallError> {
    match end
    case Refused(error) => Some(CallError(error.NotAttached?))
    case SendFailed => Some(CallError(false))
    case ContextEnded => Some(CallError(false))
    case Got(r) =>
      var error := EdgeHub.ReturnedError(r);
      if error.Some? then Some(CallError(error.value.IsUnreachable())) else None
  }

  ghost function EdgeAnswer(spec: Engine.Spec, s: Engine.Summary, end: EdgeEnd, expired: bool): Rollout.Outcome {
    var digest := if end.Got? then EdgeHub.ReturnedDigest(end.result, spec.digest) else spec.digest;
    var error := ErrorOf(end);
    Rollout.Ran(digest, s.pinned, if error.Some? then Some(StatusOf(error.value.unreachable, expired)) else None)
  }

  // However the call ends, what main returns and what the edge has pinned is a possible answer:
  // a lost session may hide pins from main, but then the execution has failed.
  lemma EdgeAnswersArePossible(c: Rollout.Config, id: ExecId, spec: Engine.Spec, s: Engine.Summary, end: EdgeEnd, expired: bool)
    requires c.PinsOf(id) == CountPins(spec.steps) && OnEdge(spec, s, end)
    ensures Rollout.Possible(c, id, spec.digest, EdgeAnswer(spec, s, end, expired))
  {
  }

  // Of a call of Execute main records unreachable exactly when no edge was attached or the one
  // that was did not come back, and the execution's deadline has not passed by then.
  lemma UnreachableExactly(spec: Engine.Spec, s: Engine.Summary, end: EdgeEnd, expired: bool)
    ensures EdgeAnswer(spec, s, end, expired).failure == Some(Unreachable) <==>
      && !expired
      && (end == Refused(EdgeHub.NotAttached) || end == Got(EdgeHub.SessionLost(EdgeHub.DidNotReconnect)))
  {
  }

  // The session ends with the call under way, and nobody attaches before its grace timer fires.
  ghost function AfterGrace(st: EdgeHub.ServerState, sid: EdgeHub.SessionId): EdgeHub.ServerState {
    EdgeHub.Expired(EdgeHub.Detached(st, sid, true), st.graceGen + 1)
  }

  // An edge that stays away until the grace window has passed makes the call return the
  // unreachable error. If the execution's deadline has passed as well, main nevertheless
  // records that the execution failed, although nobody knows how it ended.
  lemma {:induction false} UnreachableCanReadFailed(st: EdgeHub.ServerState, sid: EdgeHub.SessionId, id: ExecId,
          spec: Engine.Spec, s: Engine.Summary)
    requires st.current == Some(sid) && id in st.inflight && st.inflight[id] in st.chans
    requires st.chans[st.inflight[id]].None?
    ensures var chan := AfterGrace(st, sid).chans[st.inflight[id]];
      && chan.Some? && ErrorOf(Got(chan.value)) == Some(CallError(true))
      && EdgeAnswer(spec, s, Got(chan.value), true).failure == Some(Failed)
      && EdgeAnswer(spec, s, Got(chan.value), false).failure == Some(Unreachable)
  {
    var off := EdgeHub.Detached(st, sid, true);
    assert id in off.inflight && off.inflight[id] == st.inflight[id];
    assert off.graceGen == st.graceGen + 1 && off.conn.None?;
  }

  // ---- over a whole rollout ----

  // This step learned that the server of the execution is unreachable: nobody came within the
  // acquire window, or Execute's answer was recorded so.
  ghost predicate Unheard(c: Rollout.Config, s: Rollout.State, s': Rollout.State, id: ExecId) {
    exists choice :: UnheardBy(c, s, s', id, choice)
  }

  ghost predicate UnheardBy(c: Rollout.Config, s: Rollout.State, s': Rollout.State, id: ExecId, choice: Rollout.Choice) {
    && Rollout.CanDrive(c, s.execs, id, choice) && s' == Rollout.DriveStep(s, id, choice)
    && match s.execs.tasks[id]
       case Acquire(_) => choice == Rollout.AcquireFailed(true)
       case Execute(_) => choice.outcome.Ran? && choice.outcome.failure == Some(Unreachable)
       case _ => false
  }

  ghost predicate Losing(t: Rollout.Task) {
    match t
    case Settle(_, to, _, _) => to.Unreachable?
    case Recompute(_, next) => Losing(next)
    case _ => false
  }

  // The execution reads unreachable or is about to.
  ghost predicate Lost(e: Rollout.Execs, id: ExecId) {
    id in e.status && id in e.tasks && (e.status[id].Unreachable? || Losing(e.tasks[id]))
  }

  lemma {:induction false} DriveLoses(c: Rollout.Config, s: Rollout.State, k: ExecId, choice: Rollout.Choice, id: ExecId)
    requires Rollout.CanDrive(c, s.execs, k, choice)
    requires RolloutProof.TaskAt(s.execs, k) && RolloutProof.TaskSnapshot(s.execs, k)
    ensures var s' := Rollout.DriveStep(s, k, choice);
      && (Lost(s.execs, id) ==> Lost(s'.execs, id))
      && (Lost(s'.execs, id) && !Lost(s.execs, id) ==> k == id && UnheardBy(c, s, s', id, choice))
  {
    RolloutProof.DriveMoves(c, s.execs, k, choice);
    match s.execs.tasks[k] {
      case Dispatch(d) => assert !Losing(Rollout.Recompute(None, Rollout.Acquire(d)));
      case MarkRunning(d) => assert !Losing(Rollout.Recompute(None, Rollout.Execute(d)));
      case Settle(_, _, resolved, ok) => assert !Losing(Rollout.Recompute(None, Rollout.Returned(resolved, ok)));
      case Recompute(_, next) => assert Losing(s.execs.tasks[k]) == Losing(next);
      case _ =>
    }
  }

  lemma {:induction false} CoordinateLoses(c: Rollout.Config, s: Rollout.State, pick: ExecId, id: ExecId)
    requires RolloutFrozen.Placed(c, s) && Rollout.CanCoordinate(c, s, pick)
    requires RolloutProof.Tasks(Rollout.CoordinateStep(c, s, pick).execs)
    ensures Lost(s.execs, id) <==> Lost(Rollout.CoordinateStep(c, s, pick).execs, id)
  {
    var s' := Rollout.CoordinateStep(c, s, pick);
    RolloutFrozen.CoordinateStatuses(c, s, pick);
    RolloutImage.CoordinateTasks(c, s, pick);
    if id in s.execs.tasks {
      assert RolloutProof.TaskAt(s.execs, id) && RolloutProof.TaskAt(s'.execs, id);
    }
  }

  lemma {:induction false} UnheardLoses(c: Rollout.Config, s: Rollout.State, s': Rollout.State, id: ExecId)
    requires RolloutProof.Tasks(s.execs) && Unheard(c, s, s', id)
    ensures Lost(s'.execs, id)
  {
    var choice :| UnheardBy(c, s, s', id, choice);
    assert RolloutProof.TaskAt(s.execs, id);
  }

  // What StepLoses needs of a state.
  ghost predicate Sound(c: Rollout.Config, s: Rollout.State) {
    && RolloutFrozen.Placed(c, s)
    && forall id :: id in s.execs.tasks ==> RolloutProof.TaskSnapshot(s.execs, id)
  }

  lemma {:induction false} RunSound(c: Rollout.Config, run: seq<Rollout.State>, i: nat)
    requires Rollout.Run(c, run) && i < |run|
    ensures Sound(c, run[i])
  {
    RolloutProof.RunKeeps(c, run, i);
    RolloutFrozen.InvPlaced(c, run[i]);
  }

  // An execution is lost by a step that learns it, and stays so.
  lemma {:induction false} StepLoses(c: Rollout.Config, s: Rollout.State, s': Rollout.State, id: ExecId)
    requires Sound(c, s) && Sound(c, s') && Rollout.Next(c, s, s')
    ensures Lost(s'.execs, id) <==> Lost(s.execs, id) || Unheard(c, s, s', id)
  {
    var a: Rollout.Action :| Rollout.Enabled(c, s, a) && s' == Rollout.Apply(c, s, a);
    match a {
      case Coordinate(pick) => CoordinateLoses(c, s, pick, id);
      case Drive(k, choice) =>
        assert RolloutProof.TaskAt(s.execs, k) && RolloutProof.TaskSnapshot(s.execs, k);
        DriveLoses(c, s, k, choice, id);
      case Shutdown =>
    }
    if Unheard(c, s, s', id) {
      UnheardLoses(c, s, s', id);
    }
  }

  ghost predicate UnheardAt(c: Rollout.Config, run: seq<Rollout.State>, j: nat, id: ExecId) {
    j + 1 < |run| && Unheard(c, run[j], run[j + 1], id)
  }

  lemma {:induction false} NotLostYet(c: Rollout.Config, s: Rollout.State, id: ExecId)
    requires Rollout.Init(c, s)
    ensures !Lost(s.execs, id)
  {
  }

  lemma {:induction false} LostExactly(c: Rollout.Config, run: seq<Rollout.State>, i: nat, id: ExecId)
    requires Rollout.Run(c, run) && i < |run|
    ensures Lost(run[i].execs, id) <==> exists j :: 0 <= j < i && UnheardAt(c, run, j, id)
  {
    if i == 0 {
      NotLostYet(c, run[0], id);
    } else {
      LostExactly(c, run, i - 1, id);
      RunSound(c, run, i - 1);
      RunSound(c, run, i);
      assert Rollout.Next(c, run[i - 1], run[i - 1 + 1]);
      StepLoses(c, run[i - 1], run[i], id);
      assert UnheardAt(c, run, i - 1, id) <==> Unheard(c, run[i - 1], run[i], id);
    }
  }

  // When runDeploy has returned, an execution reads unreachable if and only if nobody came for
  // it within the acquire window or Execute's answer was recorded as unreachable.
  lemma {:induction false} ReadsUnreachableExactly(c: Rollout.Config, run: seq<Rollout.State>, i: nat, id: ExecId)
    requires Rollout.Run(c, run) && i < |run| && run[i].coord.Finished? && id in c.waveOf
    ensures id in run[i].execs.status
    ensures run[i].execs.status[id] == Unreachable <==> exists j :: 0 <= j < i && UnheardAt(c, run, j, id)
  {
    LostExactly(c, run, i, id);
    RolloutProof.RunKeeps(c, run, i);
    assert RolloutProof.Over(run[i].execs, id);
  }
}

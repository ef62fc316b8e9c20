/** Digest promotion: which digest a rollout hands to its executions. */
module RolloutDigest {
  import opened Model
  import opened Wrappers
  import opened Rollout
  import opened RolloutProof

  // ---- one digest per rollout ----

  ghost predicate OneDigest(c: Config, s: State) {
    && s.row.digest == s.digest
    && (forall i :: 0 <= i < |s.log.handed| ==> s.log.handed[i].Unresolved? || s.log.handed[i] == s.digest)
    && (forall i, j :: 0 <= i < j < |s.log.handed| && !s.log.handed[i].Unresolved? ==> s.log.handed[j] == s.log.handed[i])
    && (if s.digest == c.initialDigest then s.log.digestWrites == []
        else c.initialDigest.Unresolved? && s.log.digestWrites == [s.digest])
    && (s.digest.Unresolved? ==> c.initialDigest.Unresolved?)
  }

  lemma {:induction false} SpawnOneDigest(c: Config, s: State, ids: set<ExecId>)
    requires OneDigest(c, s)
    ensures OneDigest(c, Spawn(s, ids))
  {
  }

  lemma {:induction false} PromoteOneDigest(c: Config, s: State, resolved: Digest)
    requires OneDigest(c, s) && s.digest.Unresolved?
    ensures OneDigest(c, PromoteDigest(s, resolved))
  {
  }

  lemma {:induction false} WriteOneDigest(c: Config, s: State, snapshot: map<ExecId, Status>)
    requires OneDigest(c, s)
    ensures OneDigest(c, WriteAggregate(s, snapshot))
    ensures WriteAggregate(s, snapshot).log.pins == s.log.pins
    ensures WriteAggregate(s, snapshot).digest == s.digest
  {
  }

  lemma {:induction false} CoordinateOneDigest(c: Config, s: State, pick: ExecId)
    requires OneDigest(c, s) && CanCoordinate(c, s, pick)
    requires s.coord.AwaitFirst? ==> s.digest.Unresolved?
    ensures OneDigest(c, CoordinateStep(c, s, pick))
  {
    match s.coord {
      case Top(w) =>
        SpawnOneDigest(c, s, c.Members(w));
        if w < |c.first| {
          SpawnOneDigest(c, s, {c.first[w]});
        }
      case AwaitFirst(w) =>
        var p := PromoteDigest(s, s.execs.tasks[c.first[w]].resolved);
        PromoteOneDigest(c, s, s.execs.tasks[c.first[w]].resolved);
        SpawnOneDigest(c, p, c.Members(w) - {c.first[w]});
      case WaveRecompute(_, Some(snapshot)) => WriteOneDigest(c, s, snapshot);
      case FinalRecompute(Some(snapshot)) => WriteOneDigest(c, s, snapshot);
      case _ =>
    }
  }

  lemma {:induction false} DriveOneDigest(c: Config, s: State, id: ExecId, choice: Choice)
    requires OneDigest(c, s) && id in s.execs.tasks
    ensures OneDigest(c, DriveStep(s, id, choice))
  {
    var t := s.execs.tasks[id];
    if t.Recompute? && t.snapshot.Some? {
      WriteOneDigest(c, s, t.snapshot.value);
    }
  }

  lemma {:induction false} RunOneDigest(c: Config, run: seq<State>, i: nat)
    requires Run(c, run) && i < |run|
    ensures OneDigest(c, run[i])
  {
    if i > 0 {
      RunOneDigest(c, run, i - 1);
      RunReason(c, run, i - 1);
      var s := run[i - 1];
      var a: Action :| Enabled(c, s, a) && run[i - 1 + 1] == Apply(c, s, a);
      match a {
        case Coordinate(pick) => CoordinateOneDigest(c, s, pick);
        case Drive(id, choice) => DriveOneDigest(c, s, id, choice);
        case Shutdown =>
      }
    }
  }

  lemma {:induction false} RunReason(c: Config, run: seq<State>, i: nat)
    requires Run(c, run) && i < |run|
    ensures run[i].coord.AwaitFirst? ==> run[i].digest.Unresolved?
  {
    RunKeeps(c, run, i);
  }

  // The digest handed to a rollout's executions is unresolved for an initial run of
  // dispatches and one fixed digest ever after; it is recorded at most once, and only when
  // the deploy did not come with one.
  lemma {:induction false} DigestIsFixed(c: Config, run: seq<State>, i: nat)
    requires Run(c, run) && i < |run|
    ensures forall k :: 0 <= k < |run[i].log.handed| ==>
                          run[i].log.handed[k].Unresolved? || run[i].log.handed[k] == run[i].digest
    ensures forall k, l :: 0 <= k < l < |run[i].log.handed| && !run[i].log.handed[k].Unresolved? ==>
                             run[i].log.handed[l] == run[i].log.handed[k]
    ensures |run[i].log.digestWrites| <= 1
    ensures run[i].log.digestWrites != [] ==> c.initialDigest.Unresolved? && run[i].log.digestWrites == [run[i].digest]
    ensures !c.initialDigest.Unresolved? ==> run[i].digest == c.initialDigest && run[i].log.digestWrites == []
    ensures run[i].row.digest == run[i].digest
  {
    RunOneDigest(c, run, i);
  }

  // The rest of a wave is handed exactly what its first instance reported; if `on:` kept
  // image.pin off that instance, nothing was resolved and each sibling resolves for itself.
  lemma {:induction false} RestIsHandedWhatFirstReported(c: Config, run: seq<State>, i: nat, id: ExecId)
    requires Run(c, run) && i < |run| && run[i].coord.AwaitFirst? && CanCoordinate(c, run[i], id)
    requires id in c.Members(run[i].coord.wave) && id != c.first[run[i].coord.wave]
    requires run[i].execs.tasks[c.first[run[i].coord.wave]].ok
    ensures id in CoordinateStep(c, run[i], id).execs.tasks
    ensures CoordinateStep(c, run[i], id).execs.tasks[id] == Dispatch(run[i].execs.tasks[c.first[run[i].coord.wave]].resolved)
  {
    RunKeeps(c, run, i);
  }
}

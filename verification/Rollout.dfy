/** One rollout as the scheduler drives it (internal/scheduler/scheduler.go: runDeploy,
    runExecution, recompute): a coordinating goroutine walks the waves, one goroutine per
    instance drives its execution, and every one of them re-aggregates the deploy row with a
    read and a later, separate write. All interleavings of these atomic sections are runs of
    the actions below; main may begin to shut down between any two of them. */
module Rollout {
  import opened Model
  import opened Wrappers

  // The waves groupWaves returns: which wave an execution is in, and each wave's first one.
  // pins counts the image.pin steps of each execution's snapshot.
  datatype Config = Config(waveOf: map<ExecId, nat>, first: seq<ExecId>, initialDigest: Digest, pins: map<ExecId, nat>) {
    ghost function PinsOf(id: ExecId): nat {
      if id in pins then pins[id] else 0
    }

    ghost function Members(w: nat): set<ExecId> {
      set id | id in waveOf && waveOf[id] == w
    }

    ghost predicate WellFormed() {
      && |first| > 0
      && (forall w :: 0 <= w < |first| ==> first[w] in waveOf && waveOf[first[w]] == w)
      && (forall id :: id in waveOf ==> waveOf[id] < |first|)
    }
  }

  // Where the goroutine of one execution stands in runExecution. Recompute carries what the
  // goroutine does next; its snapshot is None between the transition and the read.
  datatype Task =
    | Idle
    | Dispatch(digest: Digest)
    | Acquire(digest: Digest)
    | MarkRunning(digest: Digest)
    | Execute(digest: Digest)
    | Settle(from: Status, to: Status, resolved: Digest, ok: bool)
    | Recompute(snapshot: Option<map<ExecId, Status>>, next: Task)
    | Returned(resolved: Digest, ok: bool)

  // Where runDeploy stands.
  datatype Coordinator =
    | Top(wave: nat)
    | CancelLater(wave: nat, todo: set<ExecId>)   // an earlier wave failed, or main is shutting down
    | AwaitFirst(wave: nat)                       // the first instance is resolving the digest
    | CancelRest(wave: nat, todo: set<ExecId>)    // it failed: its siblings never start
    | AwaitRest(wave: nat, spawned: set<ExecId>)
    | WaveRecompute(wave: nat, snapshot: Option<map<ExecId, Status>>)
    | FinalRecompute(snapshot: Option<map<ExecId, Status>>)
    | Finished

  datatype Row = Row(status: Status, finished: bool, digest: Digest)

  // The execution rows and the goroutines driving them.
  datatype Execs = Execs(status: map<ExecId, Status>, tasks: map<ExecId, Task>)

  // What the outside can see of the rollout's history.
  datatype Log = Log(
    settles: seq<Status>,              // one entry per recompute that reported settled
    handed: seq<Digest>,               // the digest handed to each started group of executions, in order
    digestWrites: seq<Digest>,         // the calls to SetDeployDigest
    pins: map<ExecId, seq<Digest>>)    // the digests each answered execution pinned, in order

  datatype State = State(
    execs: Execs,
    row: Row,
    coord: Coordinator,
    digest: Digest,                    // runDeploy's local digest
    failed: bool,                      // runDeploy's local failed
    shutdown: bool,                    // the root context is done
    log: Log)

  // What the outside world answers to exec.Execute: an undecodable snapshot, or a run that
  // pinned some digests, reported one, and either succeeded or failed with a given status.
  datatype Outcome =
    | Corrupt
    | Ran(resolved: Digest, pinned: seq<Digest>, failure: Option<Status>)

  // What the environment decides in one step of an execution's goroutine.
  datatype Choice =
    | Nothing
    | AcquireFailed(unreachable: bool)
    | Answer(outcome: Outcome)

  datatype Action =
    | Coordinate(pick: ExecId)
    | Drive(id: ExecId, choice: Choice)
    | Shutdown

  // The digest an execution ends with: the last one it pinned, or else the one handed to it.
  function LastOf(pinned: seq<Digest>, handed: Digest): Digest {
    if pinned == [] then handed else pinned[|pinned| - 1]
  }

  ghost function PinnedBy(pins: map<ExecId, seq<Digest>>, id: ExecId): seq<Digest> {
    if id in pins then pins[id] else []
  }

  // The trigger brought the digest, or the first instance of a wave before w pins.
  ghost predicate DigestBy(c: Config, w: nat) {
    !c.initialDigest.Unresolved? || exists v :: 0 <= v < w && v < |c.first| && c.PinsOf(c.first[v]) > 0
  }

  // What exec.Execute can answer, on this host or from an edge (Answers shows that it keeps
  // to this): a pin uses the digest handed over or resolves one; success means every image.pin
  // of the snapshot pinned, and reports the last one; a failure may have lost what it pinned.
  ghost predicate Possible(c: Config, id: ExecId, handed: Digest, o: Outcome) {
    o.Ran? ==>
      && (forall k :: 0 <= k < |o.pinned| ==>
            !o.pinned[k].Unresolved? && (!handed.Unresolved? ==> o.pinned[k] == handed))
      && |o.pinned| <= c.PinsOf(id)
      && match o.failure
         case None => |o.pinned| == c.PinsOf(id) && o.resolved == LastOf(o.pinned, handed)
         case Some(st) =>
           (st == Failed || st == Unreachable) && (o.resolved == handed || o.resolved == LastOf(o.pinned, handed))
  }

  ghost predicate Init(c: Config, s: State) {
    && c.WellFormed()
    // A deploy still queued holds executions that never started; a shutdown that crashed
    // before its recompute may have canceled some.
    && s.execs.status.Keys == s.execs.tasks.Keys == c.waveOf.Keys
    && (forall id :: id in s.execs.status ==> s.execs.status[id].Queued? || s.execs.status[id].Canceled?)
    && (forall id :: id in s.execs.tasks ==> s.execs.tasks[id].Idle?)
    && s.row == Row(Queued, false, c.initialDigest)
    && s.coord == Top(0) && s.digest == c.initialDigest && !s.failed
    && s.log == Log([], [], [], map[])
  }

  // ---- the store's atomic operations on this rollout's rows ----

  // TransitionExecution is a compare-and-set on the status column.
  ghost function CompareAndSet(status: map<ExecId, Status>, id: ExecId, from: Status, to: Status): map<ExecId, Status> {
    if id in status && status[id] == from then status[id := to] else status
  }

  // The write half of RecomputeDeployStatus: guarded by finished_at when the snapshot shows a
  // rollout that is over, unguarded otherwise.
  ghost predicate Settles(snapshot: map<ExecId, Status>) {
    AggregateOf(snapshot.Values).Terminal() && AllTerminalOf(snapshot.Values)
  }

  ghost function WriteAggregate(s: State, snapshot: map<ExecId, Status>): State {
    var agg := AggregateOf(snapshot.Values);
    if !Settles(snapshot) then s.(row := s.row.(status := agg))
    else if s.row.finished then s
    else s.(row := s.row.(status := agg, finished := true), log := s.log.(settles := s.log.settles + [agg]))
  }

  // ---- the goroutine of one execution: runExecution ----

  ghost function Go(e: Execs, id: ExecId, t: Task): Execs {
    e.(tasks := e.tasks[id := t])
  }

  // transition: on success the goroutine recomputes before it goes on; a lost compare-and-set
  // makes it return `otherwise`.
  ghost function Transition(e: Execs, id: ExecId, from: Status, to: Status, next: Task, otherwise: Task): Execs {
    if id in e.status && e.status[id] == from
    then Go(e.(status := CompareAndSet(e.status, id, from, to)), id, Recompute(None, next))
    else Go(e, id, otherwise)
  }

  ghost predicate CanDrive(c: Config, e: Execs, id: ExecId, choice: Choice) {
    && id in e.tasks
    && match e.tasks[id]
       case Idle => false
       case Returned(_, _) => false
       case Acquire(_) => !choice.Answer?
       case Execute(d) => choice.Answer? && Possible(c, id, d, choice.outcome)
       case _ => choice.Nothing?
  }

  // What the goroutine does to the execution rows and to its own position.
  ghost function DriveExecs(e: Execs, id: ExecId, choice: Choice): Execs
    requires id in e.tasks
  {
    match e.tasks[id]
    case Dispatch(d) => Transition(e, id, Queued, Dispatching, Acquire(d), Returned(Unresolved, false))
    case Acquire(d) =>
      if choice.AcquireFailed?
      then Go(e, id, Settle(Dispatching, if choice.unreachable then Unreachable else Failed, Unresolved, false))
      else Go(e, id, MarkRunning(d))
    case MarkRunning(d) => Transition(e, id, Dispatching, Running, Execute(d), Returned(Unresolved, false))
    case Execute(d) => Go(e, id, if choice.Answer? then Answered(choice.outcome) else Answered(Corrupt))
    case Settle(from, to, resolved, ok) => Transition(e, id, from, to, Returned(resolved, ok), Returned(resolved, ok))
    case Recompute(None, next) => Go(e, id, Recompute(Some(e.status), next))
    case Recompute(Some(_), next) => Go(e, id, next)
    case Idle => e
    case Returned(_, _) => e
  }

  ghost function Answered(o: Outcome): Task {
    match o
    case Corrupt => Settle(Running, Failed, Unresolved, false)
    case Ran(resolved, _, failure) =>
      Settle(Running, if failure.Some? then failure.value else Succeeded, resolved, failure.None?)
  }

  ghost function DriveStep(s: State, id: ExecId, choice: Choice): State
    requires id in s.execs.tasks
  {
    var t := s.execs.tasks[id];
    var written := if t.Recompute? && t.snapshot.Some? then WriteAggregate(s, t.snapshot.value) else s;
    var pinned := t.Execute? && choice.Answer? && choice.outcome.Ran? && choice.outcome.pinned != [];
    written.(execs := DriveExecs(s.execs, id, choice),
             log := if pinned then s.log.(pins := s.log.pins[id := choice.outcome.pinned]) else written.log)
  }

  // ---- the coordinating goroutine: runDeploy ----

  ghost function Start(e: Execs, ids: set<ExecId>, digest: Digest): Execs {
    e.(tasks := map id | id in e.tasks :: if id in ids then Dispatch(digest) else e.tasks[id])
  }

  ghost function Spawn(s: State, ids: set<ExecId>): State {
    s.(execs := Start(s.execs, ids, s.digest),
       log := if ids == {} then s.log else s.log.(handed := s.log.handed + [s.digest]))
  }

  // The first instance of a wave reports back: a digest it resolved becomes the rollout's
  // and is recorded.
  ghost function PromoteDigest(s: State, resolved: Digest): State {
    if resolved.Unresolved? || resolved == s.digest then s
    else s.(digest := resolved, row := s.row.(digest := resolved),
            log := s.log.(digestWrites := s.log.digestWrites + [resolved]))
  }

  ghost predicate AllReturned(e: Execs, ids: set<ExecId>) {
    forall id :: id in ids ==> id in e.tasks && e.tasks[id].Returned?
  }

  ghost predicate CanCoordinate(c: Config, s: State, pick: ExecId) {
    match s.coord
    case Top(w) => true
    case CancelLater(w, todo) => todo == {} || pick in todo
    case CancelRest(w, todo) => todo == {} || pick in todo
    case AwaitFirst(w) => w < |c.first| && AllReturned(s.execs, {c.first[w]})
    case AwaitRest(w, spawned) => AllReturned(s.execs, spawned)
    case WaveRecompute(w, _) => true
    case FinalRecompute(_) => true
    case Finished => false
  }

  ghost function TopStep(c: Config, s: State, w: nat): State {
    if w >= |c.first| then s.(coord := FinalRecompute(None))
    else if s.failed || s.shutdown then s.(coord := CancelLater(w, c.Members(w)))
    else if s.digest.Unresolved? then Spawn(s, {c.first[w]}).(coord := AwaitFirst(w))
    else Spawn(s, c.Members(w)).(coord := AwaitRest(w, c.Members(w)))
  }

  ghost function Cancel(e: Execs, id: ExecId): Execs {
    e.(status := CompareAndSet(e.status, id, Queued, Canceled))
  }

  ghost function FirstReturned(c: Config, s: State, w: nat, first: Task): State
    requires w < |c.first| && first.Returned?
  {
    var rest := c.Members(w) - {c.first[w]};
    var p := PromoteDigest(s, first.resolved);
    if first.ok then Spawn(p, rest).(coord := AwaitRest(w, rest))
    else p.(failed := true, coord := CancelRest(w, rest))
  }

  ghost predicate AllOk(e: Execs, ids: set<ExecId>)
    requires AllReturned(e, ids)
  {
    forall id :: id in ids ==> e.tasks[id].ok
  }

  ghost function CoordinateStep(c: Config, s: State, pick: ExecId): State
    requires CanCoordinate(c, s, pick)
  {
    match s.coord
    case Top(w) => TopStep(c, s, w)
    case CancelLater(w, todo) =>
      if todo == {} then s.(coord := Top(w + 1))
      else s.(execs := Cancel(s.execs, pick), coord := CancelLater(w, todo - {pick}))
    case AwaitFirst(w) =>
      assert c.first[w] in {c.first[w]};
      FirstReturned(c, s, w, s.execs.tasks[c.first[w]])
    case CancelRest(w, todo) =>
      if todo == {} then s.(coord := WaveRecompute(w, None))
      else s.(execs := Cancel(s.execs, pick), coord := CancelRest(w, todo - {pick}))
    case AwaitRest(w, spawned) =>
      s.(failed := s.failed || !AllOk(s.execs, spawned), coord := WaveRecompute(w, None))
    case WaveRecompute(w, None) => s.(coord := WaveRecompute(w, Some(s.execs.status)))
    case WaveRecompute(w, Some(snapshot)) => WriteAggregate(s, snapshot).(coord := Top(w + 1))
    case FinalRecompute(None) => s.(coord := FinalRecompute(Some(s.execs.status)))
    case FinalRecompute(Some(snapshot)) => WriteAggregate(s, snapshot).(coord := Finished)
    case Finished => s
  }

  // ---- runs ----

  ghost predicate Enabled(c: Config, s: State, a: Action) {
    match a
    case Coordinate(pick) => CanCoordinate(c, s, pick)
    case Drive(id, choice) => CanDrive(c, s.execs, id, choice)
    case Shutdown => true
  }

  ghost function Apply(c: Config, s: State, a: Action): State
    requires Enabled(c, s, a)
  {
    match a
    case Coordinate(pick) => CoordinateStep(c, s, pick)
    case Drive(id, choice) => DriveStep(s, id, choice)
    case Shutdown => s.(shutdown := true)
  }

  ghost predicate Next(c: Config, s: State, s': State) {
    exists a: Action :: Enabled(c, s, a) && s' == Apply(c, s, a)
  }

  ghost predicate Run(c: Config, run: seq<State>) {
    && |run| > 0
    && Init(c, run[0])
    && forall i :: 0 <= i < |run| - 1 ==> Next(c, run[i], run[i + 1])
  }
}

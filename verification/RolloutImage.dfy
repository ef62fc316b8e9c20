/** When every run of a rollout pins one image only: the half that says it does. */
module RolloutImage {
  import opened Model
  import opened Wrappers
  import opened Rollout
  import opened RolloutProof

  // The plan leads with a wave whose first instance pins once, before anyone else does.
  ghost predicate LedBy(c: Config, w: nat) {
    && w < |c.first| && c.PinsOf(c.first[w]) == 1
    && forall id :: id in c.waveOf && c.waveOf[id] < w ==> c.PinsOf(id) == 0
  }

  ghost predicate AtMostOnePin(c: Config) {
    && (forall id :: id in c.waveOf ==> c.PinsOf(id) <= 1)
    && (forall a, b :: a in c.waveOf && b in c.waveOf && c.PinsOf(a) > 0 && c.PinsOf(b) > 0 ==> a == b)
  }

  // What a caller can see of the plan: the digest came with the trigger, there is no second
  // image.pin to disagree, or the first to pin does so alone and for everybody else.
  ghost predicate OneImagePlan(c: Config) {
    !c.initialDigest.Unresolved? || AtMostOnePin(c) || exists w :: LedBy(c, w)
  }

  ghost predicate PinsOneDigest(s: State) {
    forall a, b, i, j :: a in s.log.pins && b in s.log.pins && 0 <= i < |s.log.pins[a]| && 0 <= j < |s.log.pins[b]| ==>
      s.log.pins[a][i] == s.log.pins[b][j]
  }

  // ---- no more pins than the snapshots hold ----

  // A success has pinned as often as its snapshot says.
  ghost predicate CountOk(t: Task, pinned: nat, pins: nat) {
    match t
    case Idle => pinned == 0
    case Dispatch(_) => pinned == 0
    case Acquire(_) => pinned == 0
    case MarkRunning(_) => pinned == 0
    case Execute(_) => pinned == 0
    case Settle(_, _, _, ok) => pinned <= pins && (ok ==> pinned == pins)
    case Returned(_, ok) => pinned <= pins && (ok ==> pinned == pins)
    case Recompute(_, next) => CountOk(next, pinned, pins)
  }

  ghost predicate CountAt(c: Config, s: State, id: ExecId) {
    id in s.execs.tasks && CountOk(s.execs.tasks[id], |PinnedBy(s.log.pins, id)|, c.PinsOf(id))
  }

  ghost predicate Counted(c: Config, s: State) {
    && s.log.pins.Keys <= s.execs.tasks.Keys
    && forall id :: id in s.execs.tasks ==> CountAt(c, s, id)
  }

  lemma {:induction false} CountedMeans(t: Task, pinned: nat, pins: nat)
    requires CountOk(t, pinned, pins)
    ensures pinned <= pins
    decreases t
  {
    if t.Recompute? {
      CountedMeans(t.next, pinned, pins);
    }
  }

  lemma {:induction false} WriteKeepsPins(s: State, snapshot: map<ExecId, Status>)
    ensures var s' := WriteAggregate(s, snapshot);
      s'.execs == s.execs && s'.digest == s.digest && s'.log.pins == s.log.pins && s'.coord == s.coord
      && s'.failed == s.failed && s'.shutdown == s.shutdown
  {
  }

  // What one step of a goroutine does to the pins: nothing, or it records an answer.
  lemma {:induction false} DrivePins(c: Config, s: State, id: ExecId, choice: Choice)
    requires CanDrive(c, s.execs, id, choice)
    ensures var s' := DriveStep(s, id, choice);
      && s'.digest == s.digest && s'.coord == s.coord && s'.failed == s.failed && s'.shutdown == s.shutdown
      && s'.execs.tasks.Keys == s.execs.tasks.Keys
      && (forall k :: k in s.execs.tasks && k != id ==> s'.execs.tasks[k] == s.execs.tasks[k])
      && (forall k :: k != id ==> PinnedBy(s'.log.pins, k) == PinnedBy(s.log.pins, k))
      && s'.log.pins.Keys <= s.log.pins.Keys + {id}
      && PinnedBy(s'.log.pins, id) ==
           (if s.execs.tasks[id].Execute? && choice.outcome.Ran? && choice.outcome.pinned != [] then choice.outcome.pinned
            else PinnedBy(s.log.pins, id))
  {
    var t := s.execs.tasks[id];
    if t.Recompute? && t.snapshot.Some? {
      WriteKeepsPins(s, t.snapshot.value);
    }
  }

  lemma {:induction false} CoordinatePins(c: Config, s: State, pick: ExecId)
    requires CanCoordinate(c, s, pick)
    ensures CoordinateStep(c, s, pick).log.pins == s.log.pins
  {
    match s.coord {
      case WaveRecompute(_, Some(snapshot)) => WriteKeepsPins(s, snapshot);
      case FinalRecompute(Some(snapshot)) => WriteKeepsPins(s, snapshot);
      case _ =>
    }
  }

  lemma {:induction false} DriveCounted(c: Config, s: State, id: ExecId, choice: Choice)
    requires Counted(c, s) && CanDrive(c, s.execs, id, choice) && TaskAt(s.execs, id)
    ensures Counted(c, DriveStep(s, id, choice))
  {
    DrivePins(c, s, id, choice);
    var s' := DriveStep(s, id, choice);
    assert CountAt(c, s, id);
    forall k | k in s'.execs.tasks
      ensures CountAt(c, s', k)
    {
      assert CountAt(c, s, k);
    }
  }

  lemma {:induction false} CoordinateCounted(c: Config, s: State, pick: ExecId)
    requires Counted(c, s) && CanCoordinate(c, s, pick)
    requires Shape(c, s.execs) && Reason(c, s.execs, s.coord, s.failed, s.shutdown, s.digest) && WaveHere(c, s.execs, s.coord, s.failed)
    ensures Counted(c, CoordinateStep(c, s, pick))
  {
    CoordinatePins(c, s, pick);
    CoordinateTasks(c, s, pick);
    var s' := CoordinateStep(c, s, pick);
    forall k | k in s'.execs.tasks
      ensures CountAt(c, s', k)
    {
      assert CountAt(c, s, k);
    }
  }

  // Tasks move only by being started.
  ghost predicate OnlyStarts(e: Execs, e': Execs) {
    && e'.tasks.Keys == e.tasks.Keys
    && forall id :: id in e'.tasks ==> e'.tasks[id] == e.tasks[id] || (e.tasks[id].Idle? && e'.tasks[id].Dispatch?)
  }

  lemma {:induction false} StartOnlyStarts(e: Execs, ids: set<ExecId>, digest: Digest)
    requires forall id :: id in ids ==> NotStarted(e, id)
    ensures OnlyStarts(e, Start(e, ids, digest))
  {
  }

  lemma {:induction false} CoordinateTasks(c: Config, s: State, pick: ExecId)
    requires CanCoordinate(c, s, pick)
    requires Shape(c, s.execs) && Reason(c, s.execs, s.coord, s.failed, s.shutdown, s.digest) && WaveHere(c, s.execs, s.coord, s.failed)
    ensures OnlyStarts(s.execs, CoordinateStep(c, s, pick).execs)
  {
    match s.coord {
      case WaveRecompute(_, Some(snapshot)) => WriteKeepsPins(s, snapshot);
      case FinalRecompute(Some(snapshot)) => WriteKeepsPins(s, snapshot);
      case Top(w) =>
        if w < |c.first| && !s.failed && !s.shutdown {
          var ids := if s.digest.Unresolved? then {c.first[w]} else c.Members(w);
          assert forall id :: id in c.Members(w) ==> NotStarted(s.execs, id);
          StartOnlyStarts(s.execs, ids, s.digest);
        }
      case AwaitFirst(w) =>
        var p := PromoteDigest(s, s.execs.tasks[c.first[w]].resolved);
        StartOnlyStarts(s.execs, c.Members(w) - {c.first[w]}, p.digest);
      case _ =>
    }
  }

  lemma {:induction false} StepCounted(c: Config, s: State, a: Action)
    requires Counted(c, s) && Enabled(c, s, a) && Tasks(s.execs)
    requires Shape(c, s.execs) && Reason(c, s.execs, s.coord, s.failed, s.shutdown, s.digest) && WaveHere(c, s.execs, s.coord, s.failed)
    ensures Counted(c, Apply(c, s, a))
  {
    match a {
      case Coordinate(pick) => CoordinateCounted(c, s, pick);
      case Drive(id, choice) => DriveCounted(c, s, id, choice);
      case Shutdown =>
        forall k | k in s.execs.tasks
          ensures CountAt(c, s.(shutdown := true), k)
        {
          assert CountAt(c, s, k);
        }
    }
  }

  lemma {:induction false} NextCounted(c: Config, s: State, s': State)
    requires Counted(c, s) && Tasks(s.execs) && Next(c, s, s')
    requires Shape(c, s.execs) && Reason(c, s.execs, s.coord, s.failed, s.shutdown, s.digest)
    requires WaveHere(c, s.execs, s.coord, s.failed)
    ensures Counted(c, s')
  {
    var a: Action :| Enabled(c, s, a) && s' == Apply(c, s, a);
    StepCounted(c, s, a);
  }

  lemma {:induction false} RunCounted(c: Config, run: seq<State>, i: nat)
    requires Run(c, run) && i < |run|
    ensures Counted(c, run[i])
  {
    if i > 0 {
      RunCounted(c, run, i - 1);
      RunShape(c, run, i - 1);
      assert Next(c, run[i - 1], run[i - 1 + 1]);
      NextCounted(c, run[i - 1], run[i]);
    }
  }

  lemma {:induction false} RunShape(c: Config, run: seq<State>, i: nat)
    requires Run(c, run) && i < |run|
    ensures Shape(c, run[i].execs) && Tasks(run[i].execs)
    ensures Reason(c, run[i].execs, run[i].coord, run[i].failed, run[i].shutdown, run[i].digest)
    ensures WaveHere(c, run[i].execs, run[i].coord, run[i].failed)
  {
    RunKeeps(c, run, i);
  }

  // ---- the first to pin pins for everybody ----

  // Either the digest came with the trigger, or wave w0 leads.
  ghost predicate Led(c: Config, w0: nat) {
    w0 < |c.first| && (!c.initialDigest.Unresolved? || LedBy(c, w0))
  }

  // Nobody may pin without a digest once the leading wave is behind.
  ghost predicate Passed(c: Config, w0: nat, s: State) {
    s.digest.Unresolved? ==>
      match s.coord
      case Top(w) => w <= w0 || s.failed || s.shutdown
      case AwaitFirst(w) => w <= w0
      case AwaitRest(w, _) => w < w0
      case WaveRecompute(w, _) => w < w0 || s.failed || s.shutdown
      case _ => true
  }

  // The digest an execution of the rollout may be working with.
  ghost predicate HandedOk(c: Config, leader: ExecId, id: ExecId, d: Digest, digest: Digest) {
    (d == digest || d.Unresolved?)
    && (c.PinsOf(id) > 0 ==> d == digest && (id == leader || !d.Unresolved?))
  }

  // What an execution that has answered pinned and reports.
  ghost predicate AnsweredOk(c: Config, leader: ExecId, id: ExecId, resolved: Digest, ok: bool,
          pinned: seq<Digest>, digest: Digest) {
    if id == leader && digest.Unresolved? then
      && |pinned| <= 1
      && (pinned == [] ==> resolved.Unresolved?)
      && (pinned != [] ==> !pinned[0].Unresolved? && (resolved.Unresolved? || resolved == pinned[0]))
      && (ok ==> pinned != [] && resolved == pinned[0])
    else
      && (forall k :: 0 <= k < |pinned| ==> pinned[k] == digest && !digest.Unresolved?)
      && (c.PinsOf(id) == 0 ==> resolved.Unresolved? || resolved == digest)
  }

  ghost predicate PinOk(c: Config, leader: ExecId, id: ExecId, t: Task, pinned: seq<Digest>, digest: Digest) {
    match t
    case Idle => pinned == []
    case Dispatch(d) => pinned == [] && HandedOk(c, leader, id, d, digest)
    case Acquire(d) => pinned == [] && HandedOk(c, leader, id, d, digest)
    case MarkRunning(d) => pinned == [] && HandedOk(c, leader, id, d, digest)
    case Execute(d) => pinned == [] && HandedOk(c, leader, id, d, digest)
    case Settle(_, _, resolved, ok) => AnsweredOk(c, leader, id, resolved, ok, pinned, digest)
    case Returned(resolved, ok) => AnsweredOk(c, leader, id, resolved, ok, pinned, digest)
    case Recompute(_, next) => PinOk(c, leader, id, next, pinned, digest)
  }

  ghost predicate PinAt(c: Config, leader: ExecId, e: Execs, pins: map<ExecId, seq<Digest>>, digest: Digest, id: ExecId) {
    id in e.tasks && PinOk(c, leader, id, e.tasks[id], PinnedBy(pins, id), digest)
  }

  ghost predicate AllPinAt(c: Config, leader: ExecId, e: Execs, pins: map<ExecId, seq<Digest>>, digest: Digest) {
    forall id :: id in e.tasks ==> PinAt(c, leader, e, pins, digest, id)
  }

  ghost predicate LeadInv(c: Config, w0: nat, s: State)
    requires w0 < |c.first|
  {
    && s.log.pins.Keys <= s.execs.tasks.Keys
    && Passed(c, w0, s)
    && AllPinAt(c, c.first[w0], s.execs, s.log.pins, s.digest)
    && (!c.initialDigest.Unresolved? ==> !s.digest.Unresolved?)
  }

  lemma {:induction false} DriveOne(c: Config, leader: ExecId, s: State, id: ExecId, choice: Choice)
    requires CanDrive(c, s.execs, id, choice) && TaskAt(s.execs, id)
    requires PinAt(c, leader, s.execs, s.log.pins, s.digest, id)
    requires s.digest.Unresolved? ==> c.PinsOf(leader) == 1
    ensures PinAt(c, leader, DriveExecs(s.execs, id, choice), DriveStep(s, id, choice).log.pins, s.digest, id)
  {
    DrivePins(c, s, id, choice);
    var t := s.execs.tasks[id];
    if t.Execute? && choice.outcome.Ran? {
      var o := choice.outcome;
      assert LastOf(o.pinned, t.digest) == if o.pinned == [] then t.digest else o.pinned[|o.pinned| - 1];
    }
  }

  lemma {:induction false} DriveLeads(c: Config, w0: nat, s: State, id: ExecId, choice: Choice)
    requires Led(c, w0) && LeadInv(c, w0, s) && CanDrive(c, s.execs, id, choice) && TaskAt(s.execs, id)
    ensures LeadInv(c, w0, DriveStep(s, id, choice))
  {
    var s' := DriveStep(s, id, choice);
    var leader := c.first[w0];
    DrivePins(c, s, id, choice);
    DriveOne(c, leader, s, id, choice);
    forall k | k in s'.execs.tasks
      ensures PinAt(c, leader, s'.execs, s'.log.pins, s'.digest, k)
    {
      assert PinAt(c, leader, s.execs, s.log.pins, s.digest, k);
    }
  }

  lemma {:induction false} StartLeads(c: Config, leader: ExecId, e: Execs, ids: set<ExecId>, digest: Digest,
          pins: map<ExecId, seq<Digest>>)
    requires AllPinAt(c, leader, e, pins, digest)
    requires forall id :: id in ids ==> NotStarted(e, id) && (c.PinsOf(id) > 0 ==> id == leader || !digest.Unresolved?)
    ensures AllPinAt(c, leader, Start(e, ids, digest), pins, digest)
  {
    forall id | id in e.tasks
      ensures PinAt(c, leader, Start(e, ids, digest), pins, digest, id)
    {
      assert PinAt(c, leader, e, pins, digest, id);
    }
  }

  lemma {:induction false} TopLeads(c: Config, w0: nat, s: State, w: nat)
    requires Led(c, w0) && LeadInv(c, w0, s) && s.coord == Top(w) && c.WellFormed()
    requires forall id :: id in c.Members(w) ==> NotStarted(s.execs, id)
    ensures LeadInv(c, w0, TopStep(c, s, w))
  {
    if w < |c.first| && !s.failed && !s.shutdown {
      var ids := if s.digest.Unresolved? then {c.first[w]} else c.Members(w);
      assert c.first[w] in c.Members(w);
      StartLeads(c, c.first[w0], s.execs, ids, s.digest, s.log.pins);
    }
  }

  // The first instance of a wave reports: its digest becomes everybody's.
  lemma {:induction false} PromoteLeads(c: Config, leader: ExecId, e: Execs, pins: map<ExecId, seq<Digest>>,
          first: ExecId, digest: Digest)
    requires AllPinAt(c, leader, e, pins, Unresolved) && !digest.Unresolved?
    requires first == leader && first in e.tasks && e.tasks[first].Returned? && e.tasks[first].resolved == digest
    ensures AllPinAt(c, leader, e, pins, digest)
  {
    forall id | id in e.tasks
      ensures PinAt(c, leader, e, pins, digest, id)
    {
      assert PinAt(c, leader, e, pins, Unresolved, id);
      PromoteOne(c, leader, id, e.tasks[id], PinnedBy(pins, id), digest, e.tasks[first].resolved);
    }
  }

  lemma {:induction false} PromoteOne(c: Config, leader: ExecId, id: ExecId, t: Task, pinned: seq<Digest>,
          digest: Digest, resolved: Digest)
    requires PinOk(c, leader, id, t, pinned, Unresolved) && !digest.Unresolved? && resolved == digest
    requires id == leader ==> t.Returned? && t.resolved == resolved
    ensures PinOk(c, leader, id, t, pinned, digest)
    decreases t
  {
    if t.Recompute? {
      PromoteOne(c, leader, id, t.next, pinned, digest, resolved);
    }
  }

  lemma {:induction false} FirstLeads(c: Config, w0: nat, s: State, w: nat)
    requires Led(c, w0) && LeadInv(c, w0, s) && s.coord == AwaitFirst(w) && s.digest.Unresolved? && c.WellFormed()
    requires w < |c.first| && c.first[w] in s.execs.tasks && s.execs.tasks[c.first[w]].Returned?
    requires forall id :: id in c.Members(w) && id != c.first[w] ==> NotStarted(s.execs, id)
    ensures LeadInv(c, w0, FirstReturned(c, s, w, s.execs.tasks[c.first[w]]))
  {
    var leader, first := c.first[w0], s.execs.tasks[c.first[w]];
    var rest := c.Members(w) - {c.first[w]};
    var p := PromoteDigest(s, first.resolved);
    assert PinAt(c, leader, s.execs, s.log.pins, s.digest, c.first[w]);
    if first.resolved.Unresolved? {
      assert p == s;
    } else {
      assert w == w0;
      PromoteLeads(c, leader, s.execs, s.log.pins, c.first[w], first.resolved);
    }
    if first.ok {
      StartLeads(c, leader, s.execs, rest, p.digest, s.log.pins);
    }
  }

  // The remaining coordinator steps start nothing and leave digest and pins alone.
  lemma {:induction false} QuietLeads(c: Config, w0: nat, s: State, s': State)
    requires w0 < |c.first| && LeadInv(c, w0, s) && Passed(c, w0, s')
    requires s'.execs.tasks == s.execs.tasks && s'.digest == s.digest && s'.log.pins == s.log.pins
    ensures LeadInv(c, w0, s')
  {
    forall id | id in s'.execs.tasks
      ensures PinAt(c, c.first[w0], s'.execs, s'.log.pins, s'.digest, id)
    {
      assert PinAt(c, c.first[w0], s.execs, s.log.pins, s.digest, id);
    }
  }

  lemma {:induction false} CoordinateLeads(c: Config, w0: nat, s: State, pick: ExecId)
    requires Led(c, w0) && LeadInv(c, w0, s) && CanCoordinate(c, s, pick)
    requires Shape(c, s.execs) && WaveHere(c, s.execs, s.coord, s.failed)
    requires Reason(c, s.execs, s.coord, s.failed, s.shutdown, s.digest)
    ensures LeadInv(c, w0, CoordinateStep(c, s, pick))
  {
    var s' := CoordinateStep(c, s, pick);
    if s.coord.Top? {
      TopLeads(c, w0, s, s.coord.wave);
    } else if s.coord.AwaitFirst? {
      assert c.first[s.coord.wave] in {c.first[s.coord.wave]};
      FirstLeads(c, w0, s, s.coord.wave);
    } else {
      if (s.coord.WaveRecompute? || s.coord.FinalRecompute?) && s.coord.snapshot.Some? {
        WriteKeepsPins(s, s.coord.snapshot.value);
      }
      QuietLeads(c, w0, s, s');
    }
  }

  lemma {:induction false} StepLeads(c: Config, w0: nat, s: State, a: Action)
    requires Led(c, w0) && LeadInv(c, w0, s) && Enabled(c, s, a)
    requires Shape(c, s.execs) && Tasks(s.execs) && WaveHere(c, s.execs, s.coord, s.failed)
    requires Reason(c, s.execs, s.coord, s.failed, s.shutdown, s.digest)
    ensures LeadInv(c, w0, Apply(c, s, a))
  {
    match a {
      case Coordinate(pick) => CoordinateLeads(c, w0, s, pick);
      case Drive(id, choice) => DriveLeads(c, w0, s, id, choice);
      case Shutdown => QuietLeads(c, w0, s, s.(shutdown := true));
    }
  }

  lemma {:induction false} RunLeads(c: Config, w0: nat, run: seq<State>, i: nat)
    requires Run(c, run) && i < |run| && Led(c, w0)
    ensures LeadInv(c, w0, run[i])
  {
    if i == 0 {
      assert forall id :: id in run[0].execs.tasks ==> PinAt(c, c.first[w0], run[0].execs, run[0].log.pins, run[0].digest, id);
    } else {
      RunLeads(c, w0, run, i - 1);
      RunShape(c, run, i - 1);
      assert Next(c, run[i - 1], run[i - 1 + 1]);
      var a: Action :| Enabled(c, run[i - 1], a) && run[i] == Apply(c, run[i - 1], a);
      StepLeads(c, w0, run[i - 1], a);
    }
  }

  // ---- the results ----

  lemma {:induction false} WhatWasPinned(c: Config, leader: ExecId, id: ExecId, t: Task, pinned: seq<Digest>,
          digest: Digest)
    requires PinOk(c, leader, id, t, pinned, digest)
    ensures digest.Unresolved? ==> (if id == leader then |pinned| <= 1 else pinned == [])
    ensures !digest.Unresolved? ==> forall k :: 0 <= k < |pinned| ==> pinned[k] == digest
    decreases t
  {
    if t.Recompute? {
      WhatWasPinned(c, leader, id, t.next, pinned, digest);
    } else {
      assert id != leader && |pinned| > 0 ==> pinned[0] == digest;
    }
  }

  lemma {:induction false} LeadMeansOne(c: Config, w0: nat, s: State)
    requires w0 < |c.first| && LeadInv(c, w0, s)
    ensures PinsOneDigest(s)
  {
    forall id | id in s.log.pins
      ensures s.digest.Unresolved? ==> (if id == c.first[w0] then |s.log.pins[id]| <= 1 else s.log.pins[id] == [])
      ensures !s.digest.Unresolved? ==> forall k :: 0 <= k < |s.log.pins[id]| ==> s.log.pins[id][k] == s.digest
    {
      assert PinAt(c, c.first[w0], s.execs, s.log.pins, s.digest, id);
      WhatWasPinned(c, c.first[w0], id, s.execs.tasks[id], s.log.pins[id], s.digest);
    }
  }

  // Whatever the outside answers and whenever the shutdown comes, a rollout of such a plan
  // pins one digest at most.
  lemma {:induction false} OneImagePerRollout(c: Config, run: seq<State>, i: nat)
    requires Run(c, run) && i < |run| && OneImagePlan(c)
    ensures PinsOneDigest(run[i])
  {
    if !c.initialDigest.Unresolved? {
      assert c.WellFormed() && Led(c, 0);
      RunLeads(c, 0, run, i);
      LeadMeansOne(c, 0, run[i]);
    } else if w :| LedBy(c, w) {
      RunLeads(c, w, run, i);
      LeadMeansOne(c, w, run[i]);
    } else {
      RunCounted(c, run, i);
      RunShape(c, run, i);
      AtMostOneMeansOne(c, run[i]);
    }
  }

  lemma {:induction false} AtMostOneMeansOne(c: Config, s: State)
    requires Counted(c, s) && Shape(c, s.execs) && AtMostOnePin(c)
    ensures PinsOneDigest(s)
  {
    forall id | id in s.log.pins
      ensures id in c.waveOf && |s.log.pins[id]| <= c.PinsOf(id)
    {
      assert CountAt(c, s, id);
      CountedMeans(s.execs.tasks[id], |s.log.pins[id]|, c.PinsOf(id));
    }
  }

  // One image everywhere: every execution that succeeded has pinned as often as its snapshot
  // says, and all of them the same digest.
  lemma {:induction false} OneImageEverywhere(c: Config, run: seq<State>, i: nat)
    requires Run(c, run) && i < |run| && OneImagePlan(c) && run[i].coord.Finished?
    ensures PinsOneDigest(run[i])
    ensures forall id :: id in c.waveOf && id in run[i].execs.status && run[i].execs.status[id] == Succeeded ==>
      |PinnedBy(run[i].log.pins, id)| == c.PinsOf(id)
  {
    OneImagePerRollout(c, run, i);
    RunCounted(c, run, i);
    RunKeeps(c, run, i);
    forall id | id in c.waveOf && run[i].execs.status[id] == Succeeded
      ensures |PinnedBy(run[i].log.pins, id)| == c.PinsOf(id)
    {
      assert Over(run[i].execs, id) && TaskAt(run[i].execs, id) && CountAt(c, run[i], id);
    }
  }
}

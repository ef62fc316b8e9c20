/** From a plan of executions to the rollout the scheduler runs: every plan regroups into a
    well-formed rollout whose waves are its groups and whose pins are those of its snapshots. */
module PlanConfig {
  import opened Build
  import opened Config
  import opened Model
  import opened Ops
  import opened Waves
  import opened Wrappers
  import Interpolate
  import Rollout
  import RolloutImage
  import RolloutImageExactly

  // ---- the groups of a plan ----

  ghost predicate SameWave(execs: seq<Execution>, v: nat) {
    forall k :: 0 <= k < |execs| ==> execs[k].wave == v
  }

  lemma {:induction false} BucketElements(execs: seq<Execution>, v: nat)
    ensures SameWave(Bucket(execs, v), v)
    ensures forall e :: e in Bucket(execs, v) <==> e in execs && e.wave == v
  {
    if execs != [] {
      var front := execs[..|execs| - 1];
      BucketElements(front, v);
      assert execs == front + [execs[|execs| - 1]];
    }
  }

  ghost predicate InSome(groups: seq<seq<Execution>>, e: Execution) {
    exists w :: 0 <= w < |groups| && e in groups[w]
  }

  // The groups are non-empty, each of one wave below n,
  ghost predicate Shaped(groups: seq<seq<Execution>>, n: nat) {
    forall w :: 0 <= w < |groups| ==> |groups[w]| > 0 && groups[w][0].wave < n && SameWave(groups[w], groups[w][0].wave)
  }

  // in the order of the waves,
  ghost predicate Ascending(groups: seq<seq<Execution>>) {
    forall w, x :: 0 <= w < x < |groups| ==> |groups[w]| > 0 && |groups[x]| > 0 && groups[w][0].wave < groups[x][0].wave
  }

  // and hold exactly the executions of those waves.
  ghost predicate Holding(execs: seq<Execution>, groups: seq<seq<Execution>>, n: nat) {
    forall e :: InSome(groups, e) <==> e in execs && e.wave < n
  }

  lemma InSomeSnoc(before: seq<seq<Execution>>, last: seq<Execution>, e: Execution)
    ensures InSome(before + [last], e) <==> InSome(before, e) || e in last
  {
    var groups := before + [last];
    if w :| 0 <= w < |before| && e in before[w] {
      assert e in groups[w];
    }
    if e in last {
      assert e in groups[|before|];
    }
    if w :| 0 <= w < |groups| && e in groups[w] && w < |before| {
      assert e in before[w];
    }
  }

  lemma OneMoreGroup(execs: seq<Execution>, before: seq<seq<Execution>>, n: nat)
    requires Shaped(before, n) && Ascending(before) && Holding(execs, before, n) && Bucket(execs, n) != []
    ensures var groups := before + [Bucket(execs, n)];
      Shaped(groups, n + 1) && Ascending(groups) && Holding(execs, groups, n + 1)
  {
    var last := Bucket(execs, n);
    BucketElements(execs, n);
    forall e ensures InSome(before + [last], e) <==> e in execs && e.wave < n + 1 {
      InSomeSnoc(before, last, e);
    }
  }

  lemma NoMoreGroup(execs: seq<Execution>, before: seq<seq<Execution>>, n: nat)
    requires Shaped(before, n) && Holding(execs, before, n) && Bucket(execs, n) == []
    ensures Shaped(before, n + 1) && Holding(execs, before, n + 1)
  {
    BucketElements(execs, n);
    assert forall e :: e !in Bucket(execs, n);
  }

  lemma NonEmptyStep(execs: seq<Execution>, n: nat)
    ensures NonEmpty(Buckets(execs, n + 1)) ==
      NonEmpty(Buckets(execs, n)) + if Bucket(execs, n) == [] then [] else [Bucket(execs, n)]
  {
    assert Buckets(execs, n + 1)[..n] == Buckets(execs, n);
  }

  lemma {:induction false} GroupedUpTo(execs: seq<Execution>, n: nat) returns (groups: seq<seq<Execution>>)
    ensures groups == NonEmpty(Buckets(execs, n))
    ensures Shaped(groups, n) && Ascending(groups) && Holding(execs, groups, n)
  {
    if n == 0 {
      groups := [];
      assert forall e :: !InSome(groups, e);
    } else {
      var before := GroupedUpTo(execs, n - 1);
      NonEmptyStep(execs, n - 1);
      if Bucket(execs, n - 1) == [] {
        NoMoreGroup(execs, before, n - 1);
        groups := before;
      } else {
        OneMoreGroup(execs, before, n - 1);
        groups := before + [Bucket(execs, n - 1)];
      }
    }
  }

  // ---- the rollout of a plan ----

  ghost function IdsOf(execs: seq<Execution>): set<ExecId> {
    set e | e in execs :: e.id
  }

  // The rollout has the groups for waves, the snapshots' pins and the trigger's digest.
  ghost predicate IsConfig(c: Rollout.Config, groups: seq<seq<Execution>>, digest: Digest) {
    && |c.first| == |groups| && c.initialDigest == digest
    && (forall w :: 0 <= w < |groups| ==> |groups[w]| > 0 && c.first[w] == groups[w][0].id)
    && (forall w, e :: 0 <= w < |groups| && e in groups[w] ==>
          e.id in c.waveOf && c.waveOf[e.id] == w && c.PinsOf(e.id) == CountPins(e.snapshot))
    && (forall id :: id in c.waveOf ==> c.waveOf[id] < |groups| && id in IdsOf(groups[c.waveOf[id]]))
  }

  // Such a rollout is well formed, and its waves are exactly the groups.
  lemma ConfigHasTheGroups(c: Rollout.Config, groups: seq<seq<Execution>>, digest: Digest)
    requires |groups| > 0 && IsConfig(c, groups, digest)
    ensures c.WellFormed()
    ensures forall w :: 0 <= w < |groups| ==> c.Members(w) == IdsOf(groups[w])
  {
    forall w | 0 <= w < |groups| ensures c.first[w] in c.waveOf && c.waveOf[c.first[w]] == w {
      assert groups[w][0] in groups[w];
    }
    forall w | 0 <= w < |groups| ensures c.Members(w) == IdsOf(groups[w]) {}
  }

  // The group an execution is in.
  ghost function GroupOf(groups: seq<seq<Execution>>, e: Execution): (w: nat)
    requires InSome(groups, e)
    ensures w < |groups| && e in groups[w]
  {
    var w :| 0 <= w < |groups| && e in groups[w];
    w
  }

  lemma OneGroup(groups: seq<seq<Execution>>, n: nat, w: nat, x: nat, e: Execution)
    requires Shaped(groups, n) && Ascending(groups) && w < |groups| && x < |groups| && e in groups[w] && e in groups[x]
    ensures w == x
  {
    var i :| 0 <= i < |groups[w]| && groups[w][i] == e;
    var j :| 0 <= j < |groups[x]| && groups[x][j] == e;
    assert groups[w][i].wave == groups[w][0].wave && groups[x][j].wave == groups[x][0].wave;
  }

  // Ids tell executions apart.
  ghost predicate Numbered(execs: seq<Execution>) {
    forall j, k :: 0 <= j < k < |execs| ==> execs[j].id != execs[k].id
  }

  ghost function ById(execs: seq<Execution>, id: ExecId): (e: Execution)
    requires id in IdsOf(execs)
    ensures e in execs && e.id == id
  {
    var e :| e in execs && e.id == id;
    e
  }

  lemma ByIdIs(execs: seq<Execution>, e: Execution)
    requires Numbered(execs) && e in execs
    ensures e.id in IdsOf(execs) && ById(execs, e.id) == e
  {
    var f := ById(execs, e.id);
    var j :| 0 <= j < |execs| && execs[j] == e;
    var k :| 0 <= k < |execs| && execs[k] == f;
  }

  ghost function ConfigOf(execs: seq<Execution>, groups: seq<seq<Execution>>, digest: Digest): Rollout.Config
    requires forall e :: e in execs ==> InSome(groups, e)
    requires forall w :: 0 <= w < |groups| ==> |groups[w]| > 0
  {
    Rollout.Config(
      map id | id in IdsOf(execs) :: GroupOf(groups, ById(execs, id)),
      seq(|groups|, w requires 0 <= w < |groups| => groups[w][0].id),
      digest,
      map id | id in IdsOf(execs) :: CountPins(ById(execs, id).snapshot))
  }

  lemma ConfigOfIsConfig(execs: seq<Execution>, groups: seq<seq<Execution>>, n: nat,
          digest: Digest) returns (c: Rollout.Config)
    requires Shaped(groups, n) && Ascending(groups) && Holding(execs, groups, n) && Numbered(execs)
    requires forall e :: e in execs ==> InSome(groups, e)
    ensures IsConfig(c, groups, digest) && c.waveOf.Keys == IdsOf(execs)
  {
    c := ConfigOf(execs, groups, digest);
    forall w, e | 0 <= w < |groups| && e in groups[w]
      ensures e.id in c.waveOf && c.waveOf[e.id] == w && c.PinsOf(e.id) == CountPins(e.snapshot)
    {
      assert InSome(groups, e);
      ByIdIs(execs, e);
      OneGroup(groups, n, w, GroupOf(groups, e), e);
    }
    forall id | id in c.waveOf ensures c.waveOf[id] < |groups| && id in IdsOf(groups[c.waveOf[id]]) {
      assert ById(execs, id) in groups[c.waveOf[id]];
    }
  }

  lemma PlanNumbered(execs: seq<Execution>, svc: Service, steps: seq<Step>, payload: Payload, id: ExecId,
          waves: seq<seq<InstanceName>>)
    requires IsPlan(execs, svc, steps, payload, id, waves)
    ensures forall k :: 0 <= k < |execs| ==> execs[k].id == id + k
    ensures Numbered(execs)
  {
    forall k | 0 <= k < |execs| ensures execs[k].id == id + k {
      assert execs[k] == Planned(svc, steps, payload, id + k, Flat(waves)[k], WaveNumber(waves, k));
    }
  }

  lemma AllInSome(execs: seq<Execution>, groups: seq<seq<Execution>>, n: nat)
    requires Holding(execs, groups, n) && WavesBelow(execs, n) && execs != []
    ensures forall e :: e in execs ==> InSome(groups, e)
    ensures |groups| > 0
  {
    forall e | e in execs ensures InSome(groups, e) {
      var k :| 0 <= k < |execs| && execs[k] == e;
    }
    assert execs[0] in execs && InSome(groups, execs[0]);
  }

  // Executions with distinct ids, grouped by their waves, are a rollout the scheduler can run.
  lemma GroupsAreRollout(execs: seq<Execution>, n: nat, digest: Digest) returns (c: Rollout.Config)
    requires execs != [] && WavesBelow(execs, n) && Numbered(execs)
    ensures IsConfig(c, NonEmpty(Buckets(execs, n)), digest)
    ensures c.WellFormed() && c.waveOf.Keys == IdsOf(execs)
  {
    var groups := GroupedUpTo(execs, n);
    AllInSome(execs, groups, n);
    c := ConfigOfIsConfig(execs, groups, n, digest);
    ConfigHasTheGroups(c, groups, digest);
  }

  // Every plan that has an execution is such a rollout: its waves are the groups groupWaves
  // finds, its pins those of the snapshots.
  lemma PlanIsRollout(execs: seq<Execution>, svc: Service, steps: seq<Step>, payload: Payload, id: ExecId,
                      waves: seq<seq<InstanceName>>, digest: Digest) returns (c: Rollout.Config)
    requires IsPlan(execs, svc, steps, payload, id, waves) && execs != []
    ensures IsConfig(c, NonEmpty(Buckets(execs, |waves|)), digest)
    ensures c.WellFormed() && c.waveOf.Keys == IdsOf(execs)
  {
    PlanBelow(execs, svc, steps, payload, id, waves);
    PlanNumbered(execs, svc, steps, payload, id, waves);
    c := GroupsAreRollout(execs, |waves|, digest);
  }

  // ---- an accepted service whose rollout may run two images ----

  lemma {:induction false} SameOpsSameCount(a: seq<Step>, b: seq<Step>)
    requires |a| == |b| && forall i :: 0 <= i < |a| ==> a[i].op == b[i].op
    ensures CountPins(a) == CountPins(b)
  {
    if a != [] {
      SameOpsSameCount(a[..|a| - 1], b[..|b| - 1]);
    }
  }

  // A snapshot pins as often as the instance's share of the pipeline.
  lemma SnapshotPins(steps: seq<Step>, payload: Payload, name: InstanceName)
    ensures CountPins(Snapshot(steps, payload, name)) == CountPins(Selected(steps, name))
  {
    SameOpsSameCount(Snapshot(steps, payload, name), Selected(steps, name));
  }

  // Three instances in one wave; `on:` keeps image.pin off the first.
  ghost predicate PinsOffTheFirst(svc: Service) {
    && svc.hasImage && svc.tasks == map[]
    && Names(svc.instances) == [1, 2, 3] && svc.rollout == [Names(svc.instances)]
    && |svc.deploy| == 2
    && svc.deploy[0] == Step(ImagePin, Plain, [2, 3], 0, None, 1)
    && svc.deploy[1] == Step(ComposeUp, Plain, [], 0, None, 2)
  }

  lemma PinsOffTheFirstExists() returns (svc: Service)
    ensures PinsOffTheFirst(svc)
  {
    svc := Service(0, true, 600000, [Step(ImagePin, Plain, [2, 3], 0, None, 1), Step(ComposeUp, Plain, [], 0, None, 2)], map[],
                   [Instance(1, 0, 0), Instance(2, 0, 0), Instance(3, 0, 0)], [[1, 2, 3]]);
    assert Names(svc.instances) == [1, 2, 3];
  }

  // What an instance runs of a pipeline of two steps.
  lemma TwoSteps(pin: Step, up: Step, name: InstanceName)
    requires pin.op == ImagePin && up.op == ComposeUp && up.RunsOn(name)
    ensures Selected([pin, up], name) == if pin.RunsOn(name) then [pin, up] else [up]
  {
    assert [pin, up][..1] == [pin] && [pin][..0] == [];
    assert Selected([pin], name) == if pin.RunsOn(name) then [pin] else [];
  }

  lemma TwoStepsPin(pin: Step, up: Step)
    requires pin.op == ImagePin && up.op == ComposeUp
    ensures CountPins([up]) == 0 && CountPins([pin, up]) == 1
    ensures !HasPin([up]) && PinVerifiable([pin, up])
  {
    assert [pin, up][..1] == [pin] && [pin][..0] == [] && [up][..0] == [];
    assert CountPins([pin]) == 1;
    assert IsLast([pin, up], ImagePin, 0) && [pin, up][1].op == ComposeUp;
  }

  lemma FlatOne(names: seq<InstanceName>)
    ensures Flat([names]) == names
  {
    assert [names][..0] == [];
  }

  lemma PinsOffTheFirstPipeline(pin: Step, up: Step, names: seq<InstanceName>, timeout: nat)
    requires pin == Step(ImagePin, Plain, [2, 3], 0, None, 1) && up == Step(ComposeUp, Plain, [], 0, None, 2)
    requires names == [1, 2, 3]
    ensures Acceptable([pin, up], true, timeout, names)
  {
    var steps := [pin, up];
    TwoStepsPin(pin, up);
    forall i | 0 <= i < |names| ensures ShareAcceptable(steps, names[i]) {
      TwoSteps(pin, up, names[i]);
    }
    assert names[1] == 2 && names[2] == 3;
    assert StepAcceptable(pin, true, timeout, names) && StepAcceptable(up, true, timeout, names);
  }

  lemma PinsOffTheFirstAccepted(svc: Service)
    requires PinsOffTheFirst(svc)
    ensures Accepted(svc) && Flat(svc.rollout) == Names(svc.instances)
  {
    var names := Names(svc.instances);
    assert svc.deploy == [svc.deploy[0], svc.deploy[1]];
    PinsOffTheFirstPipeline(svc.deploy[0], svc.deploy[1], names, svc.timeout);
    FlatOne(names);
    OnceMeansDistinct(names);
  }

  // A trigger without a payload is not refused.
  lemma PinsOffTheFirstTriggers(svc: Service)
    requires PinsOffTheFirst(svc)
    ensures PayloadDigest(map[]) == Some(Unresolved) && Interpolate.SoundSteps(svc.deploy, map[])
  {
    forall i | 0 <= i < |svc.deploy| ensures Interpolate.SoundStep(svc.deploy[i], map[]) {
      assert svc.deploy[i].args == Plain;
    }
  }

  // A rollout whose entries name instances has a plan.
  lemma PlanExists(svc: Service, steps: seq<Step>, payload: Payload, id: ExecId, waves: seq<seq<InstanceName>>)
    returns (execs: seq<Execution>)
    requires forall k :: 0 <= k < |Flat(waves)| ==> Flat(waves)[k] in Names(svc.instances)
    ensures IsPlan(execs, svc, steps, payload, id, waves)
  {
    var flat := Flat(waves);
    execs := seq(|flat|, k requires 0 <= k < |flat| => Planned(svc, steps, payload, id + k, flat[k], WaveNumber(waves, k)));
  }

  lemma PinsOffTheFirstSnapshots(svc: Service, execs: seq<Execution>)
    requires PinsOffTheFirst(svc) && IsPlan(execs, svc, svc.deploy, map[], 0, svc.rollout)
    ensures |execs| == 3
    ensures CountPins(execs[0].snapshot) == 0 && CountPins(execs[1].snapshot) == 1 && CountPins(execs[2].snapshot) == 1
  {
    var pin, up, flat := svc.deploy[0], svc.deploy[1], Flat(svc.rollout);
    assert svc.deploy == [pin, up];
    FlatOne(Names(svc.instances));
    TwoStepsPin(pin, up);
    forall k | 0 <= k < 3
      ensures CountPins(execs[k].snapshot) == if pin.RunsOn(flat[k]) then 1 else 0
    {
      assert execs[k] == Planned(svc, svc.deploy, map[], 0 + k, flat[k], WaveNumber(svc.rollout, k));
      SnapshotPins(svc.deploy, map[], flat[k]);
      TwoSteps(pin, up, flat[k]);
    }
  }

  lemma OneWave(execs: seq<Execution>)
    requires WavesBelow(execs, 1) && execs != []
    ensures NonEmpty(Buckets(execs, 1)) == [execs]
  {
    BucketAll(execs, 0);
    assert Buckets(execs, 1) == [execs];
    assert [execs][..0] == [];
  }

  // Wherever the rollout of a plan has one wave whose first snapshot pins nothing while two
  // others pin, the plan does not guarantee one image.
  lemma PinsElsewhere(c: Rollout.Config, execs: seq<Execution>, a: nat, b: nat)
    requires IsConfig(c, [execs], Unresolved) && a < |execs| && b < |execs| && execs[a].id != execs[b].id
    requires CountPins(execs[0].snapshot) == 0 && CountPins(execs[a].snapshot) > 0 && CountPins(execs[b].snapshot) > 0
    ensures !RolloutImage.OneImagePlan(c)
  {
    var groups := [execs];
    assert groups[0] == execs && execs[0] in groups[0] && execs[a] in groups[0] && execs[b] in groups[0];
    assert c.PinsOf(c.first[0]) == 0;
    assert !RolloutImage.LedBy(c, 0);
  }

  // The loader accepts a service, and a trigger without a digest makes a plan of it, such that
  // the rollout of the plan has a run that pins two different images.
  lemma AcceptedServiceCanRunTwoImages()
    returns (svc: Service, execs: seq<Execution>, c: Rollout.Config, run: seq<Rollout.State>)
    ensures Accepted(svc)
    ensures Interpolate.SoundSteps(svc.deploy, map[]) && PayloadDigest(map[]) == Some(Unresolved)
    ensures IsPlan(execs, svc, svc.deploy, map[], 0, svc.rollout)
    ensures IsConfig(c, NonEmpty(Buckets(execs, |svc.rollout|)), Unresolved)
    ensures Rollout.Run(c, run) && !RolloutImage.PinsOneDigest(run[|run| - 1])
  {
    svc := PinsOffTheFirstExists();
    PinsOffTheFirstAccepted(svc);
    PinsOffTheFirstTriggers(svc);
    execs := PlanExists(svc, svc.deploy, map[], 0, svc.rollout);
    c, run := TwoImages(svc, execs);
  }

  lemma TwoImages(svc: Service, execs: seq<Execution>) returns (c: Rollout.Config, run: seq<Rollout.State>)
    requires PinsOffTheFirst(svc) && IsPlan(execs, svc, svc.deploy, map[], 0, svc.rollout)
    ensures IsConfig(c, NonEmpty(Buckets(execs, 1)), Unresolved)
    ensures Rollout.Run(c, run) && !RolloutImage.PinsOneDigest(run[|run| - 1])
  {
    PinsOffTheFirstSnapshots(svc, execs);
    c := PlanIsRollout(execs, svc, svc.deploy, map[], 0, svc.rollout, Unresolved);
    PlanBelow(execs, svc, svc.deploy, map[], 0, svc.rollout);
    OneWave(execs);
    PlanNumbered(execs, svc, svc.deploy, map[], 0, svc.rollout);
    PinsElsewhere(c, execs, 1, 2);
    run := RolloutImageExactly.OtherwiseTwoImages(c);
  }
}

/** What the static checks buy at run time: the executions of a deploy regroup into the waves
    of the rollout, cover every instance once, and run snapshots whose pins are verified and
    whose retries fit the timeout. */
module Waves {
  import opened Build
  import opened Config
  import opened Model
  import opened Ops
  import opened Wrappers
  import Engine

  // ---- groupWaves ----

  ghost function Bucket(execs: seq<Execution>, w: nat): seq<Execution> {
    if execs == [] then []
    else
      var last := execs[|execs| - 1];
      Bucket(execs[..|execs| - 1], w) + if last.wave == w then [last] else []
  }

  ghost function Buckets(execs: seq<Execution>, n: nat): seq<seq<Execution>> {
    seq(n, w requires 0 <= w < n => Bucket(execs, w))
  }

  ghost function NonEmpty<T>(xs: seq<seq<T>>): seq<seq<T>> {
    if xs == [] then []
    else NonEmpty(xs[..|xs| - 1]) + if xs[|xs| - 1] == [] then [] else [xs[|xs| - 1]]
  }

  ghost predicate WavesBelow(execs: seq<Execution>, n: nat) {
    forall k :: 0 <= k < |execs| ==> execs[k].wave < n
  }

  method BiggestWave(execs: seq<Execution>) returns (maxWave: nat)
    ensures WavesBelow(execs, maxWave + 1)
    ensures maxWave > 0 ==> !WavesBelow(execs, maxWave)
  {
    maxWave := 0;
    for i := 0 to |execs|
      invariant forall k :: 0 <= k < i ==> execs[k].wave <= maxWave
      invariant maxWave == 0 || exists k :: 0 <= k < i && execs[k].wave == maxWave
    {
      if execs[i].wave > maxWave {
        maxWave := execs[i].wave;
      }
    }
  }

  method FillBuckets(execs: seq<Execution>, n: nat) returns (waves: array<seq<Execution>>)
    requires WavesBelow(execs, n)
    ensures waves[..] == Buckets(execs, n)
  {
    waves := new seq<Execution>[n](_ => []);
    for i := 0 to |execs|
      invariant forall w :: 0 <= w < n ==> waves[w] == Bucket(execs[..i], w)
    {
      assert execs[..i + 1][..i] == execs[..i];
      waves[execs[i].wave] := waves[execs[i].wave] + [execs[i]];
    }
    assert execs[..|execs|] == execs;
  }

  // The executions of each wave that has any, in the order of the waves, each wave's in the
  // order they came.
  method GroupWaves(execs: seq<Execution>) returns (out: seq<seq<Execution>>)
    ensures forall n: nat :: WavesBelow(execs, n) ==> out == NonEmpty(Buckets(execs, n))
  {
    var maxWave := BiggestWave(execs);
    var waves := FillBuckets(execs, maxWave + 1);
    ghost var all := Buckets(execs, maxWave + 1);
    out := [];
    for w := 0 to waves.Length
      invariant waves[..] == all
      invariant out == NonEmpty(all[..w])
    {
      assert waves[w] == all[w];
      assert all[..w + 1][..w] == all[..w];
      if |waves[w]| > 0 {
        out := out + [waves[w]];
      }
    }
    assert all[..|all|] == all;
    forall n: nat | WavesBelow(execs, n) ensures out == NonEmpty(Buckets(execs, n)) {
      if n <= maxWave {
        NoneAtAll(execs, n, maxWave);
      } else {
        BucketsBeyond(execs, maxWave + 1, n);
      }
    }
  }

  // Only without executions does no wave at all suffice.
  lemma NoneAtAll(execs: seq<Execution>, n: nat, maxWave: nat)
    requires WavesBelow(execs, n) && n <= maxWave
    requires maxWave > 0 ==> !WavesBelow(execs, maxWave)
    ensures NonEmpty(Buckets(execs, maxWave + 1)) == NonEmpty(Buckets(execs, n))
  {
    assert |execs| > 0 ==> execs[0].wave < n;
    assert n == 0 && maxWave == 0 && execs == [];
    assert Buckets(execs, 0) == [] && Buckets(execs, 1) == [Bucket(execs, 0)];
    assert Buckets(execs, 1)[..0] == [];
  }

  lemma {:induction false} BucketNone(execs: seq<Execution>, w: nat)
    requires forall k :: 0 <= k < |execs| ==> execs[k].wave != w
    ensures Bucket(execs, w) == []
  {
    if execs != [] {
      BucketNone(execs[..|execs| - 1], w);
    }
  }

  lemma {:induction false} BucketAll(execs: seq<Execution>, w: nat)
    requires forall k :: 0 <= k < |execs| ==> execs[k].wave == w
    ensures Bucket(execs, w) == execs
  {
    if execs != [] {
      BucketAll(execs[..|execs| - 1], w);
    }
  }

  lemma {:induction false} BucketAppend(a: seq<Execution>, b: seq<Execution>, w: nat)
    ensures Bucket(a + b, w) == Bucket(a, w) + Bucket(b, w)
  {
    if b == [] {
      assert a + b == a;
    } else {
      var front := b[..|b| - 1];
      BucketAppend(a, front, w);
      assert (a + b)[..|a + b| - 1] == a + front;
    }
  }

  lemma {:induction false} BucketsBeyond(execs: seq<Execution>, m: nat, n: nat)
    requires WavesBelow(execs, m) && m <= n
    ensures NonEmpty(Buckets(execs, n)) == NonEmpty(Buckets(execs, m))
  {
    if m < n {
      BucketsBeyond(execs, m, n - 1);
      BucketNone(execs, n - 1);
      assert Buckets(execs, n)[..n - 1] == Buckets(execs, n - 1);
    }
  }

  // ---- the waves of a plan ----

  ghost function InstancesOf(execs: seq<Execution>): seq<InstanceName> {
    seq(|execs|, i requires 0 <= i < |execs| => execs[i].instance.name)
  }

  ghost function AllInstancesOf(groups: seq<seq<Execution>>): seq<seq<InstanceName>> {
    seq(|groups|, i requires 0 <= i < |groups| => InstancesOf(groups[i]))
  }

  lemma PlanFront(execs: seq<Execution>, svc: Service, steps: seq<Step>, payload: Payload, id: ExecId,
                  waves: seq<seq<InstanceName>>)
    requires waves != [] && IsPlan(execs, svc, steps, payload, id, waves)
    ensures var m, front := |Flat(waves[..|waves| - 1])|, waves[..|waves| - 1];
      && m <= |execs|
      && IsPlan(execs[..m], svc, steps, payload, id, front)
      && (forall k :: m <= k < |execs| ==> execs[k].wave == |waves| - 1)
      && InstancesOf(execs[m..]) == waves[|waves| - 1]
  {
    var front, last := waves[..|waves| - 1], waves[|waves| - 1];
    var flat := Flat(waves);
    var m := |Flat(front)|;
    assert flat == Flat(front) + last;
    forall k | 0 <= k < m
      ensures Flat(front)[k] in Names(svc.instances)
      ensures execs[k] == Planned(svc, steps, payload, id + k, Flat(front)[k], WaveNumber(front, k))
    {
      assert flat[k] == Flat(front)[k];
    }
    forall k | 0 <= k < |last| ensures execs[m..][k].instance.name == last[k] {
      assert execs[m + k] == Planned(svc, steps, payload, id + (m + k), flat[m + k], WaveNumber(waves, m + k));
    }
  }

  lemma {:induction false} PlanBelow(execs: seq<Execution>, svc: Service, steps: seq<Step>, payload: Payload,
          id: ExecId, waves: seq<seq<InstanceName>>)
    requires IsPlan(execs, svc, steps, payload, id, waves)
    ensures WavesBelow(execs, |waves|)
  {
    forall k | 0 <= k < |execs| ensures execs[k].wave < |waves| {
      assert execs[k] == Planned(svc, steps, payload, id + k, Flat(waves)[k], WaveNumber(waves, k));
    }
  }

  // Each wave's bucket holds the executions of that wave of the rollout, in its order.
  lemma {:induction false} BucketIsWave(execs: seq<Execution>, svc: Service, steps: seq<Step>, payload: Payload,
          id: ExecId, waves: seq<seq<InstanceName>>, w: nat)
    requires w < |waves| && IsPlan(execs, svc, steps, payload, id, waves)
    ensures InstancesOf(Bucket(execs, w)) == waves[w]
    decreases |waves|
  {
    var n := |waves| - 1;
    var front, m := waves[..n], |Flat(waves[..n])|;
    PlanFront(execs, svc, steps, payload, id, waves);
    PlanBelow(execs[..m], svc, steps, payload, id, front);
    BucketOfParts(execs, m, n, w);
    if w < n {
      BucketIsWave(execs[..m], svc, steps, payload, id, front, w);
    }
  }

  lemma BucketOfParts(execs: seq<Execution>, m: nat, n: nat, w: nat)
    requires m <= |execs| && w <= n
    requires WavesBelow(execs[..m], n) && forall k :: m <= k < |execs| ==> execs[k].wave == n
    ensures Bucket(execs, w) == if w == n then execs[m..] else Bucket(execs[..m], w)
  {
    assert execs == execs[..m] + execs[m..];
    BucketAppend(execs[..m], execs[m..], w);
    if w == n {
      BucketNone(execs[..m], w);
      BucketAll(execs[m..], w);
    } else {
      BucketNone(execs[m..], w);
    }
  }

  lemma {:induction false} NonEmptyNames(groups: seq<seq<Execution>>)
    ensures NonEmpty(AllInstancesOf(groups)) == AllInstancesOf(NonEmpty(groups))
  {
    if groups != [] {
      var front := groups[..|groups| - 1];
      NonEmptyNames(front);
      assert AllInstancesOf(groups)[..|groups| - 1] == AllInstancesOf(front);
    }
  }

  // Planning a rollout and regrouping its executions gives back the waves that name anyone.
  lemma GroupingInvertsPlanning(execs: seq<Execution>, svc: Service, steps: seq<Step>, payload: Payload, id: ExecId,
                                waves: seq<seq<InstanceName>>)
    requires IsPlan(execs, svc, steps, payload, id, waves)
    ensures WavesBelow(execs, |waves|)
    ensures AllInstancesOf(NonEmpty(Buckets(execs, |waves|))) == NonEmpty(waves)
  {
    PlanBelow(execs, svc, steps, payload, id, waves);
    forall w | 0 <= w < |waves| ensures InstancesOf(Bucket(execs, w)) == waves[w] {
      BucketIsWave(execs, svc, steps, payload, id, waves, w);
    }
    assert AllInstancesOf(Buckets(execs, |waves|)) == waves;
    NonEmptyNames(Buckets(execs, |waves|));
  }

  // ---- one execution per instance ----

  lemma FirstOfDistinct(instances: seq<Instance>, i: nat)
    requires i < |instances| && Distinct(Names(instances))
    ensures Names(instances)[i] in Names(instances) && FirstNamed(instances, Names(instances)[i]) == instances[i]
  {
    var names := Names(instances);
    assert forall k :: 0 <= k < i ==> names[k] != names[i];
    assert forall k :: 0 <= k < i ==> instances[k].name == names[k];
    FoundIsFirst(instances, names[i], i);
  }

  ghost predicate OnlyOneFor(execs: seq<Execution>, k: int, inst: Instance) {
    && 0 <= k < |execs| && execs[k].instance == inst
    && forall j :: 0 <= j < |execs| && j != k ==> execs[j].instance.name != inst.name
  }

  // With distinct names, a deploy whose rollout the loader lets through has exactly one
  // execution for every instance: on its server, in its directory.
  lemma OneExecutionPerInstance(svc: Service, execs: seq<Execution>, payload: Payload, id: ExecId, i: nat)
    requires Distinct(Names(svc.instances))
    requires svc.rollout == Singles(Names(svc.instances)) || OncePerName(Flat(svc.rollout), Names(svc.instances))
    requires IsPlan(execs, svc, svc.deploy, payload, id, svc.rollout)
    requires i < |svc.instances|
    ensures exists k :: OnlyOneFor(execs, k, svc.instances[i])
  {
    var names, flat := Names(svc.instances), Flat(svc.rollout);
    FlatSingles(names);
    OnceMeansDistinct(names);
    assert OncePerName(flat, names);
    var n := names[i];
    assert Count(flat, n) == 1 && n in multiset(flat);
    var k :| 0 <= k < |flat| && flat[k] == n;
    FirstOfDistinct(svc.instances, i);
    assert execs[k] == Planned(svc, svc.deploy, payload, id + k, flat[k], WaveNumber(svc.rollout, k));
    forall j | 0 <= j < |execs| && j != k ensures execs[j].instance.name != n {
      assert execs[j] == Planned(svc, svc.deploy, payload, id + j, flat[j], WaveNumber(svc.rollout, j));
      if flat[j] == n {
        TwoPlaces(flat, j, k);
        assert false;
      }
    }
    assert OnlyOneFor(execs, k, svc.instances[i]);
  }

  lemma TwoPlaces(s: seq<InstanceName>, j: nat, k: nat)
    requires j < |s| && k < |s| && j != k && s[j] == s[k]
    ensures Count(s, s[k]) >= 2
  {
    var lo, hi := if j < k then j else k, if j < k then k else j;
    assert s == s[..lo] + [s[lo]] + s[lo + 1..hi] + [s[hi]] + s[hi + 1..];
    assert multiset(s) == multiset(s[..lo]) + multiset([s[lo]]) + multiset(s[lo + 1..hi]) + multiset([s[hi]]) + multiset(s[hi + 1..]);
  }

  // ---- from the loader's checks to the engine's guarantees ----

  lemma {:induction false} SameOpsSamePins(a: seq<Step>, b: seq<Step>)
    requires |a| == |b| && forall i :: 0 <= i < |a| ==> a[i].op == b[i].op
    ensures HasPin(a) <==> HasPin(b)
    ensures PinVerifiable(a) <==> PinVerifiable(b)
  {
    if HasPin(a) {
      var p :| 0 <= p < |a| && a[p].op == ImagePin;
      assert b[p].op == ImagePin;
    }
    if HasPin(b) {
      var p :| 0 <= p < |b| && b[p].op == ImagePin;
      assert a[p].op == ImagePin;
    }
    if PinVerifiable(a) {
      var p, u :| IsLast(a, ImagePin, p) && p < u < |a| && a[u].op == ComposeUp;
      assert IsLast(b, ImagePin, p) && b[u].op == ComposeUp;
    }
    if PinVerifiable(b) {
      var p, u :| IsLast(b, ImagePin, p) && p < u < |b| && b[u].op == ComposeUp;
      assert IsLast(a, ImagePin, p) && a[u].op == ComposeUp;
    }
  }

  // Every snapshot built from a checked pipeline pins only what it verifies later, and every
  // step it holds can make all its attempts within the service timeout.
  lemma SnapshotKeepsChecks(svc: Service, steps: seq<Step>, payload: Payload, name: InstanceName)
    requires Acceptable(steps, svc.hasImage, svc.timeout, Names(svc.instances))
    requires name in Names(svc.instances)
    ensures var snapshot := Snapshot(steps, payload, name);
      && (HasPin(snapshot) ==> svc.hasImage && PinVerifiable(snapshot))
      && forall i :: 0 <= i < |snapshot| ==> StepFits(snapshot[i], svc.timeout)
  {
    var mine := Selected(steps, name);
    var snapshot := Snapshot(steps, payload, name);
    var k :| 0 <= k < |svc.instances| && Names(svc.instances)[k] == name;
    assert ShareAcceptable(steps, Names(svc.instances)[k]);
    SameOpsSamePins(mine, snapshot);
    SelectedElements(steps, name);
    forall i | 0 <= i < |snapshot|
      ensures StepFits(snapshot[i], svc.timeout)
      ensures snapshot[i].op == ImagePin ==> svc.hasImage
    {
      assert mine[i] in mine;
      var j :| 0 <= j < |steps| && steps[j] == mine[i];
      assert StepAcceptable(steps[j], svc.hasImage, svc.timeout, Names(svc.instances));
      assert snapshot[i].Attempts() == steps[j].Attempts() && snapshot[i].timeout == steps[j].timeout;
    }
  }

  // The loader's budget reaches the engine: a step of an accepted service that has its own
  // timeout and starts `spent` into an execution nobody shuts down makes every attempt it
  // promises, each as long as its timeout allows, unless one succeeds or fails for good. It
  // does so whenever what is left covers its budget, and the first step always finds enough.
  method RunStepOf(ex: Execution, svc: Service, ghost steps: seq<Step>, ghost payload: Payload, i: nat, spent: nat,
                   digest: Digest, st: Engine.ExecState, host: Engine.Host)
    returns (error: Option<Engine.Cause>, attempts: seq<Engine.Attempt>)
    requires Acceptable(steps, svc.hasImage, svc.timeout, Names(svc.instances))
    requires ex.instance.name in Names(svc.instances) && ex.timeout == svc.timeout
    requires ex.snapshot == Snapshot(steps, payload, ex.instance.name)
    requires i < |ex.snapshot| && spent <= ex.timeout && (i == 0 ==> spent == 0)
    modifies st, host
    ensures Engine.Attempted(ex.snapshot[i], attempts, old(host.now), host.now)
    ensures |attempts| > 0 && (error.None? <==> attempts[|attempts| - 1].error.None?)
    ensures var step := ex.snapshot[i];
      step.timeout > 0 && (i == 0 || Budget(step) <= ex.timeout - spent) ==>
        && host.now <= old(host.now) + Budget(step) <= old(host.now) + (ex.timeout - spent)
        && (error.Some? ==> |attempts| == step.Attempts() || attempts[|attempts| - 1].error == Some(Engine.Permanent))
  {
    SnapshotKeepsChecks(svc, steps, payload, ex.instance.name);
    var until := host.now + (ex.timeout - spent);
    error, attempts := Engine.RunAttempts(Engine.Spec(ex.hasImage, digest, ex.snapshot), ex.snapshot[i], until, st, host);
  }

  // An execution as runExecution runs it on the main host: its snapshot, under its own
  // timeout or until `shutdown`, whichever is first.
  method RunLocally(ex: Execution, digest: Digest, shutdown: nat, host: Engine.Host)
    returns (result: Digest, error: Option<Engine.Cause>, ghost ran: seq<Engine.Event>)
    modifies host
    ensures host.events == old(host.events) + ran
    ensures error.None? ==> (Engine.Guarded(ran) <==> PinVerifiable(ex.snapshot))
    ensures error.None? ==> Engine.Scan(ran).started == Engine.OpsOf(ex.snapshot)
    ensures host.now <= old(host.now) + ex.timeout
    ensures host.now <= Engine.Max(old(host.now), shutdown)
    ensures Engine.StartBefore(ran, old(host.now) + ex.timeout) && Engine.StartBefore(ran, shutdown)
    ensures Engine.UpsArePinned(ran)
  {
    var deadline := host.now + ex.timeout;
    var until := if deadline < shutdown then deadline else shutdown;
    result, error, ran := Engine.Execute(Engine.Spec(ex.hasImage, digest, ex.snapshot), until, host);
    Engine.LawfulUps(Engine.Spec(ex.hasImage, digest, ex.snapshot), until, ran);
    Engine.LawfulStarts(Engine.Spec(ex.hasImage, digest, ex.snapshot), until, ran);
  }

  // An accepted service's rollout names every instance, and its tasks keep the same rules.
  lemma EveryInstanceListed(svc: Service, instance: InstanceName)
    requires Accepted(svc) && instance in Names(svc.instances)
    ensures instance in Flat(svc.rollout)
  {
    FlatSingles(Names(svc.instances));
    if OncePerName(Flat(svc.rollout), Names(svc.instances)) {
      assert Count(Flat(svc.rollout), instance) == 1;
      assert instance in multiset(Flat(svc.rollout));
    }
  }

  lemma StepsAcceptable(svc: Service, task: Option<TaskName>)
    requires Accepted(svc) && StepsOf(svc, task).Some?
    ensures Acceptable(StepsOf(svc, task).value, svc.hasImage, svc.timeout, Names(svc.instances))
  {
    if task.Some? {
      assert TaskAcceptable(svc.tasks[task.value], svc);
    }
  }

  // The trigger runs something on this instance: a deploy does on every one, a task on its target.
  ghost predicate Reaches(svc: Service, task: Option<TaskName>, target: Option<InstanceName>, instance: InstanceName)
    requires |svc.instances| > 0
  {
    if task.None? then instance in Names(svc.instances)
    else TaskTarget(svc, target).Some? ==> TaskTarget(svc, target).value == instance
  }

  lemma ReachedIsPlanned(svc: Service, task: Option<TaskName>, target: Option<InstanceName>, instance: InstanceName)
    returns (k: nat)
    requires Accepted(svc) && Reaches(svc, task, target, instance) && WavesOf(svc, task, target).Some?
    ensures k < |Flat(WavesOf(svc, task, target).value)| && Flat(WavesOf(svc, task, target).value)[k] == instance
    ensures instance in Names(svc.instances)
  {
    if task.None? {
      EveryInstanceListed(svc, instance);
    } else {
      OneEntry(instance);
      assert |svc.instances| == 1 && target.None? ==> Names(svc.instances)[0] == instance;
    }
    k :| 0 <= k < |Flat(WavesOf(svc, task, target).value)| && Flat(WavesOf(svc, task, target).value)[k] == instance;
  }

  // No white pin: from an accepted service to the end of an execution on any of its instances,
  // by a deploy or a task and with whatever digest the rollout hands over, an execution that
  // pins and succeeds has verified the image it pinned last.
  method RunTrigger(svc: Service, task: Option<TaskName>, target: Option<InstanceName>, payload: Payload,
                    instance: InstanceName, digest: Digest, shutdown: nat, host: Engine.Host)
    returns (r: Result<(Digest, Option<Engine.Cause>), Refusal>, ghost ran: seq<Engine.Event>)
    requires Accepted(svc) && Reaches(svc, task, target, instance)
    modifies host
    ensures host.events == old(host.events) + ran
    ensures r.Ok? ==> StepsOf(svc, task).Some?
    ensures r.Ok? && r.value.1.None? && HasPin(Snapshot(StepsOf(svc, task).value, payload, instance)) ==> Engine.Guarded(ran)
    ensures r.Ok? && r.value.1.None? ==>
      Engine.Scan(ran).started == Engine.OpsOf(Snapshot(StepsOf(svc, task).value, payload, instance))
    ensures Engine.UpsArePinned(ran)
    ensures r.Err? ==> ran == []
  {
    ran := [];
    var built := BuildDeploy(svc, task, target, payload, 0);
    if built.Err? {
      return Err(built.error), ran;
    }
    var execs := built.value.executions;
    ghost var steps, waves := StepsOf(svc, task).value, WavesOf(svc, task, target).value;
    ghost var at := ReachedIsPlanned(svc, task, target, instance);
    assert execs[at] == Planned(svc, steps, payload, at, Flat(waves)[at], WaveNumber(waves, at));
    var k :| 0 <= k < |execs| && execs[k].instance.name == instance;
    assert execs[k] == Planned(svc, steps, payload, k, Flat(waves)[k], WaveNumber(waves, k));
    StepsAcceptable(svc, task);
    SnapshotKeepsChecks(svc, steps, payload, instance);
    var result, error;
    result, error, ran := RunLocally(execs[k], digest, shutdown, host);
    return Ok((result, error)), ran;
  }
}

/** internal/scheduler/build.go and groupWaves: from an accepted service and a payload to the
    executions of a rollout, and back from the stored executions to its waves. */
module Build {
  import opened Config
  import opened Model
  import opened Ops
  import opened Wrappers
  import Interpolate

  type Payload = map<string, Interpolate.Json>

  datatype Execution = Execution(
    id: ExecId, instance: Instance, hasImage: bool, wave: nat, snapshot: seq<Step>, timeout: nat)

  datatype Refusal =
    | NoTask | NotInterpolated(problem: Interpolate.Problem) | BadDigest | InstanceRequired | NoInstance

  datatype Deploy = Deploy(digest: Digest, executions: seq<Execution>)

  // ---- the digest a payload may carry ----

  predicate HexDigit(c: char) {
    '0' <= c <= '9' || 'a' <= c <= 'f'
  }

  predicate IsDigest(s: string) {
    "sha256:" <= s && |s| == 71 && forall k :: 7 <= k < 71 ==> HexDigit(s[k])
  }

  function HexDigitValue(c: char): (v: nat)
    requires HexDigit(c)
    ensures v < 16
  {
    if c <= '9' then c as int - '0' as int else c as int - 'a' as int + 10
  }

  function HexValue(s: string): nat
    requires forall k :: 0 <= k < |s| ==> HexDigit(s[k])
  {
    if s == "" then 0 else 16 * HexValue(s[..|s| - 1]) + HexDigitValue(s[|s| - 1])
  }

  // The digest of a payload: none given, one given, or None where it is malformed.
  function PayloadDigest(payload: Payload): Option<Digest> {
    if "digest" !in payload then Some(Unresolved)
    else
      match payload["digest"]
      case Text(s) => if IsDigest(s) then Some(Sha256(HexValue(s[7..]))) else None
      case _ => None
  }

  // Malformed is exactly what is given and is not the text sha256: followed by 64 lower-case hex
  // digits.
  lemma PayloadDigestExactly(payload: Payload)
    ensures PayloadDigest(payload) == Some(Unresolved) <==> "digest" !in payload
    ensures PayloadDigest(payload).Some? && "digest" in payload <==>
      exists hex: string ::
        && "digest" in payload && payload["digest"] == Interpolate.Text("sha256:" + hex)
        && |hex| == 64 && forall k :: 0 <= k < 64 ==> hex[k] in "0123456789abcdef"
  {
    if "digest" in payload && payload["digest"].Text? && IsDigest(payload["digest"].t) {
      var s := payload["digest"].t;
      assert s == "sha256:" + s[7..] && |s[7..]| == 64;
      forall k | 0 <= k < 64 ensures s[7..][k] in "0123456789abcdef" {
        HexDigits(s[7 + k]);
      }
    }
    if hex: string :|
      && "digest" in payload && payload["digest"] == Interpolate.Text("sha256:" + hex)
      && |hex| == 64 && forall k :: 0 <= k < 64 ==> hex[k] in "0123456789abcdef"
    {
      var s := "sha256:" + hex;
      forall k | 7 <= k < 71 ensures HexDigit(s[k]) {
        assert s[k] == hex[k - 7];
        HexDigits(hex[k - 7]);
      }
    }
  }

  lemma HexDigits(c: char)
    ensures HexDigit(c) <==> c in "0123456789abcdef"
  {
    var all := "0123456789abcdef";
    if HexDigit(c) {
      var v := HexDigitValue(c);
      assert all[v] == c;
    }
  }

  lemma LastDigit(x: nat, y: nat, v: nat, w: nat)
    requires v < 16 && w < 16 && 16 * x + v == 16 * y + w
    ensures x == y && v == w
  {}

  lemma DigitInjective(c: char, d: char)
    requires HexDigit(c) && HexDigit(d) && HexDigitValue(c) == HexDigitValue(d)
    ensures c == d
  {}

  // Different texts are different digests: nothing is lost by carrying the value.
  lemma {:induction false} HexValueInjective(a: string, b: string)
    requires |a| == |b|
    requires forall k :: 0 <= k < |a| ==> HexDigit(a[k]) && HexDigit(b[k])
    requires HexValue(a) == HexValue(b)
    ensures a == b
  {
    if a != "" {
      var n := |a| - 1;
      LastDigit(HexValue(a[..n]), HexValue(b[..n]), HexDigitValue(a[n]), HexDigitValue(b[n]));
      DigitInjective(a[n], b[n]);
      HexValueInjective(a[..n], b[..n]);
      assert a == a[..n] + [a[n]] && b == b[..n] + [b[n]];
    }
  }

  // Two payloads with different digests make deploys with different digests.
  lemma DigestsToldApart(p: Payload, q: Payload)
    requires "digest" in p && "digest" in q && PayloadDigest(p).Some? && PayloadDigest(q) == PayloadDigest(p)
    ensures p["digest"] == q["digest"]
  {
    var s, t := p["digest"].t, q["digest"].t;
    HexValueInjective(s[7..], t[7..]);
    assert s == s[..7] + s[7..] && t == t[..7] + t[7..];
    assert s[..7] == "sha256:" == t[..7];
  }

  // ---- what a deploy is made of ----

  ghost function FirstNamed(instances: seq<Instance>, name: InstanceName): (inst: Instance)
    requires name in Names(instances)
    ensures inst in instances && inst.name == name
  {
    if instances[0].name == name then instances[0]
    else
      assert Names(instances)[1..] == Names(instances[1..]);
      FirstNamed(instances[1..], name)
  }

  // The snapshot format carries neither `on` nor the source line.
  function OnWire(steps: seq<Step>): seq<Step> {
    seq(|steps|, i requires 0 <= i < |steps| => steps[i].(on := [], line := 0))
  }

  // What one instance runs: its steps of the pipeline, interpolated.
  ghost function Snapshot(steps: seq<Step>, payload: Payload, name: InstanceName): seq<Step> {
    OnWire(Interpolate.ExpandedSteps(Selected(steps, name), payload))
  }

  ghost function Planned(svc: Service, steps: seq<Step>, payload: Payload, id: ExecId, name: InstanceName,
                         wave: nat): Execution
    requires name in Names(svc.instances)
  {
    Execution(id, FirstNamed(svc.instances, name), svc.hasImage, wave, Snapshot(steps, payload, name), svc.timeout)
  }

  // The execution is for the first instance of that name and carries that instance's share of
  // the pipeline, step by step, with every argument interpolated, and the service's timeout.
  ghost predicate CarriesShare(ex: Execution, svc: Service, steps: seq<Step>, payload: Payload, name: InstanceName) {
    var mine := Selected(steps, name);
    && ex.instance.name == name && ex.hasImage == svc.hasImage && ex.timeout == svc.timeout
    && (exists i :: 0 <= i < |svc.instances| && ex.instance == svc.instances[i]
                    && forall k :: 0 <= k < i ==> svc.instances[k].name != name)
    && |ex.snapshot| == |mine|
    && forall i :: 0 <= i < |mine| ==>
         && ex.snapshot[i].op == mine[i].op && ex.snapshot[i].timeout == mine[i].timeout
         && ex.snapshot[i].retries == mine[i].retries
         && ex.snapshot[i].args == Interpolate.Expanded(mine[i].args, payload)
         && ex.snapshot[i].on == []
  }

  lemma {:induction false} FirstNamedIsFirst(instances: seq<Instance>, name: InstanceName) returns (i: nat)
    requires name in Names(instances)
    ensures i < |instances| && FirstNamed(instances, name) == instances[i] && instances[i].name == name
    ensures forall k :: 0 <= k < i ==> instances[k].name != name
  {
    if instances[0].name == name {
      i := 0;
    } else {
      assert Names(instances)[1..] == Names(instances[1..]);
      var j := FirstNamedIsFirst(instances[1..], name);
      i := j + 1;
    }
  }

  // One execution per entry of the rollout, wave by wave.
  ghost predicate IsPlan(execs: seq<Execution>, svc: Service, steps: seq<Step>, payload: Payload, firstId: ExecId,
                         waves: seq<seq<InstanceName>>)
  {
    var flat := Flat(waves);
    && (forall k :: 0 <= k < |flat| ==> flat[k] in Names(svc.instances))
    && |execs| == |flat|
    && forall k :: 0 <= k < |flat| ==>
         execs[k] == Planned(svc, steps, payload, firstId + k, flat[k], WaveNumber(waves, k))
  }

  // Every execution of a plan carries its instance's share.
  lemma PlannedCarriesShare(execs: seq<Execution>, svc: Service, steps: seq<Step>, payload: Payload, firstId: ExecId,
                            waves: seq<seq<InstanceName>>, k: nat)
    requires IsPlan(execs, svc, steps, payload, firstId, waves) && k < |execs|
    ensures CarriesShare(execs[k], svc, steps, payload, Flat(waves)[k]) && execs[k].id == firstId + k
  {
    assert execs[k] == Planned(svc, steps, payload, firstId + k, Flat(waves)[k], WaveNumber(waves, k));
    var i := FirstNamedIsFirst(svc.instances, Flat(waves)[k]);
  }

  lemma AllCarryTheirShare(execs: seq<Execution>, svc: Service, steps: seq<Step>, payload: Payload, firstId: ExecId,
                           waves: seq<seq<InstanceName>>)
    requires IsPlan(execs, svc, steps, payload, firstId, waves)
    ensures forall k :: 0 <= k < |execs| ==> CarriesShare(execs[k], svc, steps, payload, execs[k].instance.name)
  {
    forall k | 0 <= k < |execs|
      ensures CarriesShare(execs[k], svc, steps, payload, execs[k].instance.name)
    {
      PlannedCarriesShare(execs, svc, steps, payload, firstId, waves, k);
    }
  }

  // The wave the k-th entry of the flattened rollout is in.
  ghost function WaveNumber(waves: seq<seq<InstanceName>>, k: nat): (w: nat)
    requires k < |Flat(waves)|
    ensures w < |waves|
  {
    var front := waves[..|waves| - 1];
    if k < |Flat(front)| then WaveNumber(front, k) else |front|
  }

  method SnapshotFor(steps: seq<Step>, payload: Payload, interpolated: seq<Step>,
                     name: InstanceName) returns (snapshot: seq<Step>)
    requires interpolated == Interpolate.ExpandedSteps(steps, payload)
    ensures snapshot == Snapshot(steps, payload, name)
  {
    Interpolate.CommutesWithSelection(steps, payload, name);
    var mine := StepsFor(interpolated, name);
    snapshot := OnWire(mine);
  }

  // The map of snapshots, one per instance name.
  method Snapshots(svc: Service, steps: seq<Step>, payload: Payload, interpolated: seq<Step>)
    returns (snapshots: map<InstanceName, seq<Step>>)
    requires interpolated == Interpolate.ExpandedSteps(steps, payload)
    ensures forall n :: n in Names(svc.instances) ==> n in snapshots && snapshots[n] == Snapshot(steps, payload, n)
  {
    snapshots := map[];
    ghost var names := Names(svc.instances);
    for i := 0 to |svc.instances|
      invariant forall k :: 0 <= k < i ==> names[k] in snapshots
      invariant forall n :: n in snapshots ==> snapshots[n] == Snapshot(steps, payload, n)
    {
      assert names[i] == svc.instances[i].name;
      var snapshot := SnapshotFor(steps, payload, interpolated, svc.instances[i].name);
      snapshots := snapshots[svc.instances[i].name := snapshot];
    }
  }

  lemma {:induction false} FoundIsFirst(instances: seq<Instance>, name: InstanceName, i: nat)
    requires i < |instances| && instances[i].name == name
    requires forall k :: 0 <= k < i ==> instances[k].name != name
    requires name in Names(instances)
    ensures FirstNamed(instances, name) == instances[i]
  {
    if i > 0 {
      assert Names(instances)[1..] == Names(instances[1..]);
      FoundIsFirst(instances[1..], name, i - 1);
    }
  }

  // svc.Instance(name) for a name the service declares.
  method Named(instances: seq<Instance>, name: InstanceName) returns (inst: Instance)
    requires name in Names(instances)
    ensures inst == FirstNamed(instances, name)
  {
    var found := Find(instances, name);
    var i :| 0 <= i < |instances| && found.value == instances[i] && instances[i].name == name
             && forall k :: 0 <= k < i ==> instances[k].name != name;
    FoundIsFirst(instances, name, i);
    return found.value;
  }

  lemma FlatSnoc(waves: seq<seq<InstanceName>>, w: nat)
    requires w < |waves|
    ensures Flat(waves[..w + 1]) == Flat(waves[..w]) + waves[w]
  {
    assert waves[..w + 1][..w] == waves[..w];
  }

  lemma WaveNumberOfLast(waves: seq<seq<InstanceName>>, w: nat, k: nat)
    requires w < |waves| && k < |Flat(waves[..w + 1])|
    ensures Flat(waves[..w + 1]) == Flat(waves[..w]) + waves[w]
    ensures WaveNumber(waves[..w + 1], k) == if k < |Flat(waves[..w])| then WaveNumber(waves[..w], k) else w
  {
    FlatSnoc(waves, w);
    assert waves[..w + 1][..w] == waves[..w];
  }

  // The executions of one wave are appended to those of the waves before it.
  method PlanWave(svc: Service, ghost steps: seq<Step>, ghost payload: Payload, snapshots: map<InstanceName, seq<Step>>,
                  firstId: ExecId, w: nat, before: seq<Execution>) returns (execs: seq<Execution>)
    requires w < |svc.rollout|
    requires forall n :: n in Names(svc.instances) ==> n in snapshots && snapshots[n] == Snapshot(steps, payload, n)
    requires forall i :: 0 <= i < |svc.rollout[w]| ==> svc.rollout[w][i] in Names(svc.instances)
    requires IsPlan(before, svc, steps, payload, firstId, svc.rollout[..w])
    ensures IsPlan(execs, svc, steps, payload, firstId, svc.rollout[..w + 1])
  {
    execs := before;
    var wave := svc.rollout[w];
    for i := 0 to |wave|
      invariant |execs| == |before| + i && execs[..|before|] == before
      invariant forall k :: 0 <= k < i ==>
        execs[|before| + k] == Planned(svc, steps, payload, firstId + |before| + k, wave[k], w)
    {
      var inst := Named(svc.instances, wave[i]);
      execs := execs + [Execution(firstId + |execs|, inst, svc.hasImage, w, snapshots[inst.name], svc.timeout)];
    }
    PlanJoined(svc, steps, payload, firstId, w, before, execs);
  }

  lemma PlanJoined(svc: Service, steps: seq<Step>, payload: Payload, firstId: ExecId, w: nat, before: seq<Execution>,
                   execs: seq<Execution>)
    requires w < |svc.rollout| && IsPlan(before, svc, steps, payload, firstId, svc.rollout[..w])
    requires |execs| == |before| + |svc.rollout[w]| && execs[..|before|] == before
    requires forall i :: 0 <= i < |svc.rollout[w]| ==> svc.rollout[w][i] in Names(svc.instances)
    requires forall k :: 0 <= k < |svc.rollout[w]| ==>
      execs[|before| + k] == Planned(svc, steps, payload, firstId + |before| + k, svc.rollout[w][k], w)
    ensures IsPlan(execs, svc, steps, payload, firstId, svc.rollout[..w + 1])
  {
    var flat := Flat(svc.rollout[..w + 1]);
    FlatSnoc(svc.rollout, w);
    forall k | 0 <= k < |flat|
      ensures flat[k] in Names(svc.instances)
      ensures execs[k] == Planned(svc, steps, payload, firstId + k, flat[k], WaveNumber(svc.rollout[..w + 1], k))
    {
      WaveNumberOfLast(svc.rollout, w, k);
      if k < |before| {
        assert execs[k] == execs[..|before|][k];
      } else {
        assert execs[k] == execs[|before| + (k - |before|)];
      }
    }
  }

  // ---- building a deploy ----

  ghost function StepsOf(svc: Service, task: Option<TaskName>): Option<seq<Step>> {
    if task.None? then Some(svc.deploy)
    else if task.value in svc.tasks && svc.tasks[task.value] != [] then Some(svc.tasks[task.value])
    else None
  }

  // The instance a task runs on: the one named, or the only one there is.
  ghost function TaskTarget(svc: Service, instance: Option<InstanceName>): Option<InstanceName>
    requires |svc.instances| > 0
  {
    if instance.Some? then (if instance.value in Names(svc.instances) then instance else None)
    else if |svc.instances| == 1 then Some(svc.instances[0].name)
    else None
  }

  ghost function WavesOf(svc: Service, task: Option<TaskName>,
                         instance: Option<InstanceName>): Option<seq<seq<InstanceName>>>
    requires |svc.instances| > 0
  {
    if task.None? then Some(svc.rollout)
    else if TaskTarget(svc, instance).Some? then Some([[TaskTarget(svc, instance).value]])
    else None
  }

  lemma RolloutNamesKnown(svc: Service, w: nat, i: nat)
    requires Accepted(svc) && w < |svc.rollout| && i < |svc.rollout[w]|
    ensures svc.rollout[w][i] in Names(svc.instances)
  {
    var n := svc.rollout[w][i];
    if OncePerName(Flat(svc.rollout), Names(svc.instances)) {
      var rest := FlatCut(svc.rollout, w, |svc.rollout[w]|);
      assert svc.rollout[w][..|svc.rollout[w]|] == svc.rollout[w];
      var at := |Flat(svc.rollout[..w])| + i;
      assert Flat(svc.rollout)[at] == n;
      assert n in multiset(Flat(svc.rollout));
      assert Count(Flat(svc.rollout), n) > 0;
    } else {
      assert svc.rollout[w] == [Names(svc.instances)[w]];
      assert n == Names(svc.instances)[w];
    }
  }

  method PlanTask(svc: Service, instance: Option<InstanceName>, ghost steps: seq<Step>, ghost payload: Payload,
                  snapshots: map<InstanceName, seq<Step>>, firstId: ExecId) returns (r: Result<seq<Execution>, Refusal>)
    requires |svc.instances| > 0
    requires forall n :: n in Names(svc.instances) ==> n in snapshots && snapshots[n] == Snapshot(steps, payload, n)
    ensures r.Ok? <==> TaskTarget(svc, instance).Some?
    ensures r == Err(InstanceRequired) <==> instance.None? && |svc.instances| > 1
    ensures r == Err(NoInstance) <==> instance.Some? && instance.value !in Names(svc.instances)
    ensures r.Ok? ==>
      && |r.value| == 1 && r.value[0].wave == 0
      && r.value[0].instance.name == if instance.Some? then instance.value else svc.instances[0].name
    ensures r.Ok? ==> IsPlan(r.value, svc, steps, payload, firstId, [[TaskTarget(svc, instance).value]])
  {
    var name;
    if instance.None? {
      if |svc.instances| > 1 {
        return Err(InstanceRequired);
      }
      name := svc.instances[0].name;
      assert Names(svc.instances)[0] == name;
    } else {
      name := instance.value;
    }
    var inst := Find(svc.instances, name);
    if inst.None? {
      return Err(NoInstance);
    }
    var target := Named(svc.instances, name);
    OneEntry(name);
    return Ok([Execution(firstId, target, svc.hasImage, 0, snapshots[name], svc.timeout)]);
  }

  lemma OneEntry(name: InstanceName)
    ensures Flat([[name]]) == [name] && WaveNumber([[name]], 0) == 0
  {
    assert [[name]][..0] == [];
  }

  method PlanRollout(svc: Service, ghost steps: seq<Step>, ghost payload: Payload,
                     snapshots: map<InstanceName, seq<Step>>, firstId: ExecId) returns (execs: seq<Execution>)
    requires Accepted(svc)
    requires forall n :: n in Names(svc.instances) ==> n in snapshots && snapshots[n] == Snapshot(steps, payload, n)
    ensures IsPlan(execs, svc, steps, payload, firstId, svc.rollout)
  {
    execs := [];
    for w := 0 to |svc.rollout|
      invariant IsPlan(execs, svc, steps, payload, firstId, svc.rollout[..w])
    {
      forall i | 0 <= i < |svc.rollout[w]| ensures svc.rollout[w][i] in Names(svc.instances) {
        RolloutNamesKnown(svc, w, i);
      }
      execs := PlanWave(svc, steps, payload, snapshots, firstId, w, execs);
    }
    assert svc.rollout[..|svc.rollout|] == svc.rollout;
  }

  // A trigger is refused exactly when there is no such task, a reference of the pipeline
  // cannot be resolved (whichever instance it is for), the digest is malformed, or a task's
  // target is not determined; otherwise it makes one execution per entry of the rollout,
  // carrying the pipeline interpolated and filtered for its instance.
  method BuildDeploy(svc: Service, task: Option<TaskName>, instance: Option<InstanceName>, payload: Payload,
          firstId: ExecId)
    returns (r: Result<Deploy, Refusal>)
    requires Accepted(svc)
    ensures r.Ok? <==>
      && StepsOf(svc, task).Some?
      && Interpolate.SoundSteps(StepsOf(svc, task).value, payload)
      && PayloadDigest(payload).Some?
      && WavesOf(svc, task, instance).Some?
    ensures r.Ok? ==>
      && r.value.digest == PayloadDigest(payload).value
      && IsPlan(r.value.executions, svc, StepsOf(svc, task).value, payload, firstId, WavesOf(svc, task, instance).value)
    ensures r.Ok? ==>
      forall k :: 0 <= k < |r.value.executions| ==>
        CarriesShare(r.value.executions[k], svc, if task.Some? then svc.tasks[task.value] else svc.deploy, payload,
                     r.value.executions[k].instance.name)
    ensures r.Ok? && task.Some? ==>
      && |r.value.executions| == 1
      && r.value.executions[0].instance.name == if instance.Some? then instance.value else svc.instances[0].name
    ensures r == Err(NoTask) <==> task.Some? && (task.value !in svc.tasks || svc.tasks[task.value] == [])
    ensures r == Err(BadDigest) ==> PayloadDigest(payload).None?
    ensures r == Err(InstanceRequired) ==> task.Some? && instance.None? && |svc.instances| > 1
    ensures r == Err(NoInstance) ==> task.Some? && instance.Some? && instance.value !in Names(svc.instances)
  {
    var steps := svc.deploy;
    if task.Some? {
      if task.value !in svc.tasks || svc.tasks[task.value] == [] {
        return Err(NoTask);
      }
      steps := svc.tasks[task.value];
    }
    var interpolated := Interpolate.Interpolate(steps, payload);
    if interpolated.Err? {
      return Err(NotInterpolated(interpolated.error));
    }
    var snapshots := Snapshots(svc, steps, payload, interpolated.value);
    var digest := PayloadDigest(payload);
    if digest.None? {
      return Err(BadDigest);
    }
    if task.Some? {
      var execs := PlanTask(svc, instance, steps, payload, snapshots, firstId);
      if execs.Err? {
        return Err(execs.error);
      }
      AllCarryTheirShare(execs.value, svc, steps, payload, firstId, [[TaskTarget(svc, instance).value]]);
      return Ok(Deploy(digest.value, execs.value));
    } else {
      var execs := PlanRollout(svc, steps, payload, snapshots, firstId);
      AllCarryTheirShare(execs, svc, steps, payload, firstId, svc.rollout);
      return Ok(Deploy(digest.value, execs));
    }
  }
}

/** internal/config/config.go: normalizing a service definition and the static checks on its
    pipelines. Names, servers and directories are opaque tokens; None stands for the empty
    string. Durations are in milliseconds. */
module Config {
  import opened Ops
  import opened Wrappers

  type ServerName = nat
  type Dir = nat
  type TaskName = nat

  datatype Instance = Instance(name: InstanceName, server: ServerName, dir: Dir)

  datatype RawInstance = RawInstance(name: InstanceName, server: Option<ServerName>, dir: Option<Dir>)

  datatype RawService = RawService(
    name: InstanceName, hasImage: bool, timeout: nat,
    server: Option<ServerName>, dir: Option<Dir>, instances: seq<RawInstance>,
    rollout: seq<seq<InstanceName>>,
    deploy: seq<Step>, tasks: map<TaskName, seq<Step>>)

  datatype Service = Service(
    name: InstanceName, hasImage: bool, timeout: nat,
    deploy: seq<Step>, tasks: map<TaskName, seq<Step>>,
    instances: seq<Instance>, rollout: seq<seq<InstanceName>>)

  datatype Reject =
    | ServerAndInstances | NoTarget | DirRequired(name: InstanceName) | ServerRequired(name: InstanceName)
    | UnknownServer(name: InstanceName)
    | RolloutNeedsInstances | UnknownInstance(name: InstanceName) | NotOnce(name: InstanceName)
    | NoDeploy | OnInTask(line: nat)
    | PinWithoutImage(line: nat) | OverBudget(line: nat) | NothingToRun(name: InstanceName) | PinWithoutUp(line: nat)

  ghost function Names(instances: seq<Instance>): seq<InstanceName> {
    seq(|instances|, i requires 0 <= i < |instances| => instances[i].name)
  }

  ghost predicate Distinct(names: seq<InstanceName>) {
    forall i, j :: 0 <= i < j < |names| ==> names[i] != names[j]
  }

  // Service.Instance: the first instance of that name.
  method Find(instances: seq<Instance>, name: InstanceName) returns (found: Option<Instance>)
    ensures found.None? <==> name !in Names(instances)
    ensures found.Some? ==> exists i :: 0 <= i < |instances| && found.value == instances[i] && instances[i].name == name
                              && forall k :: 0 <= k < i ==> instances[k].name != name
  {
    for i := 0 to |instances|
      invariant forall k :: 0 <= k < i ==> instances[k].name != name
    {
      if instances[i].name == name {
        assert Names(instances)[i] == name;
        return Some(instances[i]);
      }
    }
    return None;
  }

  // ---- instances ----

  ghost function Placed(ri: RawInstance, dir: Option<Dir>): Option<Instance> {
    var d := if ri.dir.None? then dir else ri.dir;
    if ri.server.None? || d.None? then None else Some(Instance(ri.name, ri.server.value, d.value))
  }

  // The instances a service declares, or None where the declaration is not accepted.
  ghost function DeclaredInstances(rs: RawService): Option<seq<Instance>> {
    if rs.server.Some? then
      if |rs.instances| > 0 || rs.dir.None? then None
      else Some([Instance(rs.name, rs.server.value, rs.dir.value)])
    else if |rs.instances| > 0 && forall i :: 0 <= i < |rs.instances| ==> Placed(rs.instances[i], rs.dir).Some? then
      Some(seq(|rs.instances|, i requires 0 <= i < |rs.instances| => Placed(rs.instances[i], rs.dir).value))
    else None
  }

  // The instance is on a known server and has a directory, its own or else the service's.
  ghost predicate WellPlaced(ri: RawInstance, dir: Option<Dir>, servers: set<ServerName>) {
    ri.server.Some? && ri.server.value in servers && (ri.dir.Some? || dir.Some?)
  }

  ghost predicate IsPlaced(inst: Instance, ri: RawInstance, dir: Option<Dir>) {
    && inst.name == ri.name && ri.server == Some(inst.server)
    && (ri.dir.Some? ==> ri.dir == Some(inst.dir))
    && (ri.dir.None? ==> dir == Some(inst.dir))
  }

  method NormalizeInstances(rs: RawService, servers: set<ServerName>) returns (r: Result<seq<Instance>, Reject>)
    ensures r.Ok? <==>
      && DeclaredInstances(rs).Some?
      && forall i :: 0 <= i < |DeclaredInstances(rs).value| ==> DeclaredInstances(rs).value[i].server in servers
    ensures r.Ok? ==> r.value == DeclaredInstances(rs).value && |r.value| > 0
    ensures rs.server.Some? ==>
      && (r.Ok? <==> rs.instances == [] && rs.dir.Some? && rs.server.value in servers)
      && (r.Ok? ==> r.value == [Instance(rs.name, rs.server.value, rs.dir.value)])
    ensures rs.server.None? ==>
      && (r.Ok? <==> rs.instances != [] && forall i :: 0 <= i < |rs.instances| ==> WellPlaced(rs.instances[i], rs.dir, servers))
      && (r.Ok? ==> |r.value| == |rs.instances|)
      && (r.Ok? ==> forall i :: 0 <= i < |r.value| ==> IsPlaced(r.value[i], rs.instances[i], rs.dir))
  {
    var instances: seq<Instance> := [];
    if rs.server.Some? && |rs.instances| > 0 {
      return Err(ServerAndInstances);
    } else if rs.server.Some? {
      if rs.dir.None? {
        return Err(DirRequired(rs.name));
      }
      instances := [Instance(rs.name, rs.server.value, rs.dir.value)];
    } else if |rs.instances| > 0 {
      for i := 0 to |rs.instances|
        invariant |instances| == i
        invariant forall k :: 0 <= k < i ==> Placed(rs.instances[k], rs.dir) == Some(instances[k])
      {
        var ri := rs.instances[i];
        var dir := if ri.dir.None? then rs.dir else ri.dir;
        if ri.server.None? {
          assert Placed(ri, rs.dir).None?;
          return Err(ServerRequired(ri.name));
        }
        if dir.None? {
          assert Placed(ri, rs.dir).None?;
          return Err(DirRequired(ri.name));
        }
        instances := instances + [Instance(ri.name, ri.server.value, dir.value)];
      }
      assert forall k :: 0 <= k < |rs.instances| ==> Placed(rs.instances[k], rs.dir) == Some(instances[k]);
    } else {
      return Err(NoTarget);
    }
    assert DeclaredInstances(rs).Some? && DeclaredInstances(rs).value == instances;
    for i := 0 to |instances|
      invariant forall k :: 0 <= k < i ==> instances[k].server in servers
    {
      if instances[i].server !in servers {
        return Err(UnknownServer(instances[i].name));
      }
    }
    assert instances[0].server in servers;
    return Ok(instances);
  }

  // ---- rollout ----

  ghost function Flat(waves: seq<seq<InstanceName>>): seq<InstanceName> {
    if waves == [] then [] else Flat(waves[..|waves| - 1]) + waves[|waves| - 1]
  }

  ghost function Count(names: seq<InstanceName>, n: InstanceName): nat {
    multiset(names)[n]
  }

  // Each of the names exactly once, and nothing else.
  ghost predicate OncePerName(flat: seq<InstanceName>, names: seq<InstanceName>) {
    forall n: InstanceName :: Count(flat, n) == if n in names then 1 else 0
  }

  ghost function Singles(names: seq<InstanceName>): seq<seq<InstanceName>> {
    seq(|names|, i requires 0 <= i < |names| => [names[i]])
  }

  lemma {:induction false} FlatCut(waves: seq<seq<InstanceName>>, w: nat, i: nat) returns (rest: seq<InstanceName>)
    requires w < |waves| && i <= |waves[w]|
    ensures Flat(waves) == Flat(waves[..w]) + waves[w][..i] + rest
  {
    var last := |waves| - 1;
    if w == last {
      rest := waves[w][i..];
      assert waves[w] == waves[w][..i] + waves[w][i..];
      assert Flat(waves) == Flat(waves[..w]) + (waves[w][..i] + rest);
    } else {
      var front := waves[..last];
      var more := FlatCut(front, w, i);
      assert front[..w] == waves[..w];
      rest := more + waves[last];
      assert Flat(waves) == (Flat(waves[..w]) + waves[w][..i] + more) + waves[last];
    }
  }

  // What is wrong with a part of the rollout is wrong with the whole.
  lemma BadPartBadWhole(waves: seq<seq<InstanceName>>, w: nat, i: nat, n: InstanceName, names: seq<InstanceName>)
    requires w < |waves| && i <= |waves[w]|
    requires Count(Flat(waves[..w]) + waves[w][..i], n) > if n in names then 1 else 0
    ensures !OncePerName(Flat(waves), names)
  {
    var part := Flat(waves[..w]) + waves[w][..i];
    var rest := FlatCut(waves, w, i);
    assert Count(Flat(waves), n) == Count(part, n) + Count(rest, n);
  }

  ghost predicate SeenSoFar(seen: set<InstanceName>, part: seq<InstanceName>, names: seq<InstanceName>) {
    && (forall n :: n in seen ==> n in names)
    && forall n: InstanceName :: Count(part, n) == if n in seen then 1 else 0
  }

  lemma SeenNext(seen: set<InstanceName>, part: seq<InstanceName>, n: InstanceName, names: seq<InstanceName>)
    requires SeenSoFar(seen, part, names) && n in names && n !in seen
    ensures SeenSoFar(seen + {n}, part + [n], names)
  {
    forall m: InstanceName ensures Count(part + [n], m) == if m in seen + {n} then 1 else 0 {
      assert Count(part + [n], m) == Count(part, m) + Count([n], m);
    }
  }

  // One wave of a custom rollout; `seen` holds the names of the waves before it.
  method CheckWave(instances: seq<Instance>, custom: seq<seq<InstanceName>>, w: nat, before: set<InstanceName>)
    returns (r: Result<set<InstanceName>, Reject>)
    requires w < |custom| && SeenSoFar(before, Flat(custom[..w]), Names(instances))
    ensures r.Ok? ==> SeenSoFar(r.value, Flat(custom[..w + 1]), Names(instances))
    ensures r.Err? ==> !OncePerName(Flat(custom), Names(instances))
  {
    var seen, i := before, 0;
    ghost var done := Flat(custom[..w]);
    ghost var names := Names(instances);
    assert done + custom[w][..0] == done;
    while i < |custom[w]|
      invariant 0 <= i <= |custom[w]|
      invariant SeenSoFar(seen, done + custom[w][..i], names)
    {
      var name := custom[w][i];
      ghost var part := done + custom[w][..i];
      assert done + custom[w][..i + 1] == part + [name];
      assert Count(part + [name], name) == Count(part, name) + 1;
      var inst := Find(instances, name);
      if inst.None? {
        BadPartBadWhole(custom, w, i + 1, name, names);
        return Err(UnknownInstance(name));
      }
      if name in seen {
        BadPartBadWhole(custom, w, i + 1, name, names);
        return Err(NotOnce(name));
      }
      SeenNext(seen, part, name, names);
      seen := seen + {name};
      i := i + 1;
    }
    assert custom[..w + 1][..w] == custom[..w] && custom[w][..i] == custom[w];
    return Ok(seen);
  }

  // A custom rollout must list every instance exactly once; the default is one wave per
  // instance in declaration order.
  method NormalizeRollout(instances: seq<Instance>, server: bool, custom: seq<seq<InstanceName>>)
    returns (r: Result<seq<seq<InstanceName>>, Reject>)
    ensures r.Ok? <==> custom == [] || (!server && OncePerName(Flat(custom), Names(instances)))
    ensures r.Ok? ==> r.value == if custom == [] then Singles(Names(instances)) else custom
  {
    var rollout: seq<seq<InstanceName>> := [];
    ghost var names := Names(instances);
    if |custom| > 0 {
      if server {
        return Err(RolloutNeedsInstances);
      }
      var seen: set<InstanceName> := {};
      for w := 0 to |custom|
        invariant rollout == custom[..w]
        invariant SeenSoFar(seen, Flat(custom[..w]), names)
      {
        var wave := CheckWave(instances, custom, w, seen);
        if wave.Err? {
          return Err(wave.error);
        }
        seen := wave.value;
        rollout := rollout + [custom[w]];
      }
      assert custom[..|custom|] == custom;
      for k := 0 to |instances|
        invariant forall j :: 0 <= j < k ==> names[j] in seen
      {
        if instances[k].name !in seen {
          assert names[k] == instances[k].name;
          assert Count(Flat(custom), names[k]) == 0;
          return Err(NotOnce(instances[k].name));
        }
      }
    } else {
      for k := 0 to |instances|
        invariant rollout == Singles(names)[..k]
      {
        rollout := rollout + [[instances[k].name]];
      }
    }
    return Ok(rollout);
  }

  lemma {:induction false} FlatSingles(names: seq<InstanceName>)
    ensures Flat(Singles(names)) == names
  {
    if names != [] {
      var front := names[..|names| - 1];
      FlatSingles(front);
      assert Singles(names)[..|names| - 1] == Singles(front);
    }
  }

  lemma {:induction false} OnceMeansDistinct(names: seq<InstanceName>)
    ensures OncePerName(names, names) <==> Distinct(names)
  {
    if names != [] {
      var front, last := names[..|names| - 1], names[|names| - 1];
      OnceMeansDistinct(front);
      assert names == front + [last];
      if Distinct(names) {
        assert Distinct(front) && last !in front;
      }
      if OncePerName(names, names) {
        assert Count(names, last) == 1 && last !in multiset(front);
        assert OncePerName(front, front) by {
          forall n: InstanceName ensures Count(front, n) == if n in front then 1 else 0 {
            assert Count(names, n) == Count(front, n) + Count([last], n);
            assert n in front ==> n in names && n in multiset(front);
          }
        }
        assert Distinct(names) by {
          assert forall i :: 0 <= i < |front| ==> front[i] in multiset(front);
        }
      }
    }
  }

  // An accepted rollout lists every instance name exactly once, except that the default one
  // repeats a name as often as the instances do: duplicate names are not rejected.
  lemma RolloutListsOnce(instances: seq<Instance>, custom: seq<seq<InstanceName>>)
    requires custom == [] || OncePerName(Flat(custom), Names(instances))
    ensures var rollout := if custom == [] then Singles(Names(instances)) else custom;
      OncePerName(Flat(rollout), Names(instances)) <==> custom != [] || Distinct(Names(instances))
  {
    FlatSingles(Names(instances));
    OnceMeansDistinct(Names(instances));
  }

  // ---- pipelines ----

  method ValidatePin(steps: seq<Step>) returns (r: Result<(), Reject>)
    ensures r.Ok? <==> !HasPin(steps) || PinVerifiable(steps)
  {
    var pin := -1;
    for i := 0 to |steps|
      invariant -1 <= pin < i
      invariant pin >= 0 ==> steps[pin].op == ImagePin
      invariant forall k :: pin < k < i ==> steps[k].op != ImagePin
    {
      if steps[i].op == ImagePin {
        pin := i;
      }
    }
    if pin < 0 {
      return Ok(());
    }
    assert IsLast(steps, ImagePin, pin);
    for i := pin + 1 to |steps|
      invariant forall k :: pin < k < i ==> steps[k].op != ComposeUp
    {
      if steps[i].op == ComposeUp {
        return Ok(());
      }
    }
    return Err(PinWithoutUp(steps[pin].line));
  }

  method ValidateStepBudget(timeout: nat, s: Step) returns (r: Result<(), Reject>)
    ensures r.Ok? <==> StepFits(s, timeout)
    ensures s.timeout > 0 && s.retries.Some? ==>
      (r.Ok? <==> (1 + s.retries.value) * s.timeout + s.retries.value * 5000 <= timeout)
    ensures s.timeout > 0 && s.retries.None? && (s.op == ImagePin || s.op == ArtifactExtract) ==>
      (r.Ok? <==> 3 * s.timeout + 2 * 5000 <= timeout)
    ensures s.timeout > 0 && s.retries.None? && s.op != ImagePin && s.op != ArtifactExtract ==>
      (r.Ok? <==> s.timeout <= timeout)
    ensures s.timeout == 0 ==> r.Ok?
  {
    if s.timeout == 0 {
      return Ok(());
    }
    var n := s.Attempts();
    var worst := n * s.timeout + (n - 1) * RetryInterval;
    if worst <= timeout {
      return Ok(());
    }
    return Err(OverBudget(s.line));
  }

  ghost predicate StepAcceptable(s: Step, hasImage: bool, timeout: nat, names: seq<InstanceName>) {
    && (s.op == ImagePin ==> hasImage)
    && (forall k :: 0 <= k < |s.on| ==> s.on[k] in names)
    && StepFits(s, timeout)
  }

  // What an instance runs of the pipeline is something, and verifies what it pins.
  ghost predicate ShareAcceptable(steps: seq<Step>, name: InstanceName) {
    var mine := Selected(steps, name);
    && (|steps| > 0 ==> |mine| > 0)
    && (HasPin(mine) ==> PinVerifiable(mine))
  }

  ghost predicate Acceptable(steps: seq<Step>, hasImage: bool, timeout: nat, names: seq<InstanceName>) {
    && (forall i :: 0 <= i < |steps| ==> StepAcceptable(steps[i], hasImage, timeout, names))
    && forall i :: 0 <= i < |names| ==> ShareAcceptable(steps, names[i])
  }

  method ValidatePipeline(svc: Service, steps: seq<Step>) returns (r: Result<(), Reject>)
    ensures r.Ok? <==> Acceptable(steps, svc.hasImage, svc.timeout, Names(svc.instances))
  {
    ghost var names := Names(svc.instances);
    for i := 0 to |steps|
      invariant forall k :: 0 <= k < i ==> StepAcceptable(steps[k], svc.hasImage, svc.timeout, names)
    {
      var s := steps[i];
      if s.op == ImagePin && !svc.hasImage {
        return Err(PinWithoutImage(s.line));
      }
      for k := 0 to |s.on|
        invariant forall j :: 0 <= j < k ==> s.on[j] in names
      {
        var inst := Find(svc.instances, s.on[k]);
        if inst.None? {
          return Err(UnknownInstance(s.on[k]));
        }
      }
      var budget := ValidateStepBudget(svc.timeout, s);
      if budget.Err? {
        return budget;
      }
    }
    for i := 0 to |svc.instances|
      invariant forall k :: 0 <= k < i ==> ShareAcceptable(steps, names[k])
    {
      assert names[i] == svc.instances[i].name;
      var mine := StepsFor(steps, svc.instances[i].name);
      if |steps| > 0 && |mine| == 0 {
        return Err(NothingToRun(svc.instances[i].name));
      }
      var pin := ValidatePin(mine);
      if pin.Err? {
        return pin;
      }
    }
    return Ok(());
  }

  // ---- the whole service ----

  ghost predicate TaskAcceptable(steps: seq<Step>, svc: Service) {
    && (forall i :: 0 <= i < |steps| ==> |steps[i].on| == 0)
    && Acceptable(steps, svc.hasImage, svc.timeout, Names(svc.instances))
  }

  // A service the loader lets through.
  ghost predicate Accepted(svc: Service) {
    && |svc.instances| > 0
    && |svc.deploy| > 0
    && Acceptable(svc.deploy, svc.hasImage, svc.timeout, Names(svc.instances))
    && (forall t :: t in svc.tasks ==> TaskAcceptable(svc.tasks[t], svc))
    && (svc.rollout == Singles(Names(svc.instances)) || OncePerName(Flat(svc.rollout), Names(svc.instances)))
  }

  method ValidateTask(svc: Service, steps: seq<Step>) returns (r: Result<(), Reject>)
    ensures r.Ok? <==> TaskAcceptable(steps, svc)
  {
    for i := 0 to |steps|
      invariant forall k :: 0 <= k < i ==> |steps[k].on| == 0
    {
      if |steps[i].on| > 0 {
        return Err(OnInTask(steps[i].line));
      }
    }
    r := ValidatePipeline(svc, steps);
  }

  // The service a definition stands for, where it stands for one.
  ghost function Normal(rs: RawService, defaultTimeout: nat): Service
    requires DeclaredInstances(rs).Some?
  {
    var instances := DeclaredInstances(rs).value;
    Service(rs.name, rs.hasImage, if rs.timeout != 0 then rs.timeout else defaultTimeout,
            rs.deploy, rs.tasks, instances, if rs.rollout == [] then Singles(Names(instances)) else rs.rollout)
  }

  // The loader accepts exactly the definitions whose normal form keeps every rule, places
  // every instance on a known server, and gives no rollout to a service without instances.
  method NormalizeService(rs: RawService, servers: set<ServerName>,
          defaultTimeout: nat) returns (r: Result<Service, Reject>)
    ensures r.Ok? <==>
      && DeclaredInstances(rs).Some?
      && (forall i :: 0 <= i < |DeclaredInstances(rs).value| ==> DeclaredInstances(rs).value[i].server in servers)
      && (rs.rollout == [] || (rs.server.None? && OncePerName(Flat(rs.rollout), Names(DeclaredInstances(rs).value))))
      && Accepted(Normal(rs, defaultTimeout))
    ensures r.Ok? ==> r.value == Normal(rs, defaultTimeout)
    ensures r.Ok? ==>
      && r.value.name == rs.name && r.value.hasImage == rs.hasImage
      && r.value.deploy == rs.deploy && r.value.deploy != [] && r.value.tasks == rs.tasks
      && (rs.timeout != 0 ==> r.value.timeout == rs.timeout)
      && (rs.timeout == 0 ==> r.value.timeout == defaultTimeout)
      && (rs.rollout != [] ==> r.value.rollout == rs.rollout)
      && (rs.rollout == [] ==>
            && |r.value.rollout| == |r.value.instances|
            && forall i :: 0 <= i < |r.value.instances| ==> r.value.rollout[i] == [r.value.instances[i].name])
  {
    var instances := NormalizeInstances(rs, servers);
    if instances.Err? {
      return Err(instances.error);
    }
    var rollout := NormalizeRollout(instances.value, rs.server.Some?, rs.rollout);
    if rollout.Err? {
      return Err(rollout.error);
    }
    var svc := Service(rs.name, rs.hasImage, if rs.timeout != 0 then rs.timeout else defaultTimeout,
                       rs.deploy, map[], instances.value, rollout.value);
    if |rs.deploy| == 0 {
      return Err(NoDeploy);
    }
    var deploy := ValidatePipeline(svc, rs.deploy);
    if deploy.Err? {
      return Err(deploy.error);
    }
    var todo := rs.tasks.Keys;
    while todo != {}
      invariant todo <= rs.tasks.Keys
      invariant forall t :: t in rs.tasks.Keys - todo ==> TaskAcceptable(rs.tasks[t], svc)
      decreases |todo|
    {
      var t :| t in todo;
      var task := ValidateTask(svc, rs.tasks[t]);
      if task.Err? {
        assert !TaskAcceptable(rs.tasks[t], Normal(rs, defaultTimeout));
        return Err(task.error);
      }
      todo := todo - {t};
    }
    svc := svc.(tasks := rs.tasks);
    assert forall t :: t in rs.tasks ==> TaskAcceptable(rs.tasks[t], svc);
    return Ok(svc);
  }

  // ---- what the checks are for ----

  // No step of an accepted pipeline is for nobody.
  lemma EveryStepRunsSomewhere(svc: Service, steps: seq<Step>, i: nat) returns (name: InstanceName)
    requires Acceptable(steps, svc.hasImage, svc.timeout, Names(svc.instances)) && |svc.instances| > 0 && i < |steps|
    ensures name in Names(svc.instances) && steps[i] in Selected(steps, name)
  {
    assert StepAcceptable(steps[i], svc.hasImage, svc.timeout, Names(svc.instances));
    name := if steps[i].on == [] then Names(svc.instances)[0] else steps[i].on[0];
    SelectedElements(steps, name);
  }

  // No instance of an accepted service has nothing to run, and what it pins a later compose.up
  // of its own can verify.
  lemma EveryInstanceRunsSomething(svc: Service, name: InstanceName)
    requires Accepted(svc) && name in Names(svc.instances)
    ensures Selected(svc.deploy, name) != []
    ensures forall p :: IsLast(Selected(svc.deploy, name), ImagePin, p) ==>
      svc.hasImage && exists u :: p < u < |Selected(svc.deploy, name)| && Selected(svc.deploy, name)[u].op == ComposeUp
  {
    var k :| 0 <= k < |svc.instances| && Names(svc.instances)[k] == name;
    assert ShareAcceptable(svc.deploy, Names(svc.instances)[k]);
    var mine := Selected(svc.deploy, name);
    SelectedElements(svc.deploy, name);
    forall p | IsLast(mine, ImagePin, p)
      ensures svc.hasImage && exists u :: p < u < |mine| && mine[u].op == ComposeUp
    {
      assert HasPin(mine) && mine[p] in mine;
      var j :| 0 <= j < |svc.deploy| && svc.deploy[j] == mine[p];
      assert StepAcceptable(svc.deploy[j], svc.hasImage, svc.timeout, Names(svc.instances));
      var q, u :| IsLast(mine, ImagePin, q) && q < u < |mine| && mine[u].op == ComposeUp;
      assert q == p;
    }
  }

  lemma {:induction false} UntargetedSelectsAll(steps: seq<Step>, name: InstanceName)
    requires forall i :: 0 <= i < |steps| ==> steps[i].on == []
    ensures Selected(steps, name) == steps
  {
    if steps != [] {
      UntargetedSelectsAll(steps[..|steps| - 1], name);
    }
  }

  // Whichever instance a task runs on, it runs the whole pipeline there.
  lemma TasksRunWhole(svc: Service, task: TaskName, name: InstanceName)
    requires Accepted(svc) && task in svc.tasks
    ensures Selected(svc.tasks[task], name) == svc.tasks[task]
  {
    assert TaskAcceptable(svc.tasks[task], svc);
    UntargetedSelectsAll(svc.tasks[task], name);
  }
}

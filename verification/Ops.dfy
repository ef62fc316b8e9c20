/** internal/ops: pipeline steps, the `on:` targeting and the step modifiers. Durations are in
    milliseconds. */
module Ops {
  import opened Wrappers

  type InstanceName = nat

  datatype Op =
    | ImagePin | ImageExtract | ArtifactExtract
    | ComposePull | ComposeUp | ComposeRun | ComposeExec | ComposeRestart
    | EnvRequire | EnvWrite | Healthcheck | RunCommand

  // The typed arguments of an op, as reflection sees them: string fields, lists, string maps,
  // nested structs, and fields interpolation does not look at (numbers, booleans).
  datatype Val =
    | Str(s: string)
    | List(elems: seq<Val>)
    | Dict(entries: map<string, string>)
    | Struct(fields: seq<Val>)
    | Plain

  // `on` empty means every instance; timeout 0 means none of its own; retries None means the
  // op's default.
  datatype Step = Step(op: Op, args: Val, on: seq<InstanceName>, timeout: nat, retries: Option<nat>, line: nat) {
    predicate RunsOn(instance: InstanceName) {
      |on| == 0 || instance in on
    }

    function Attempts(): (n: nat)
      ensures n >= 1
    {
      if retries.Some? then retries.value + 1 else DefaultRetries(op) + 1
    }
  }

  const RetryInterval: nat := 5000

  // The longest a step can take when every attempt runs into its timeout.
  ghost function Budget(s: Step): nat {
    s.Attempts() * s.timeout + (s.Attempts() - 1) * RetryInterval
  }

  // All attempts of the step can run to their timeout within `window`.
  ghost predicate StepFits(s: Step, window: int) {
    s.timeout == 0 || Budget(s) <= window
  }

  function DefaultRetries(op: Op): nat {
    match op
    case ImagePin => 2
    case ArtifactExtract => 2
    case _ => 0
  }

  // The steps of a pipeline one instance runs, in order.
  ghost function Selected(steps: seq<Step>, instance: InstanceName): seq<Step> {
    if steps == [] then []
    else
      var last := steps[|steps| - 1];
      Selected(steps[..|steps| - 1], instance) + (if last.RunsOn(instance) then [last] else [])
  }

  method StepsFor(steps: seq<Step>, instance: InstanceName) returns (mine: seq<Step>)
    ensures mine == Selected(steps, instance)
  {
    mine := [];
    var i := 0;
    while i < |steps|
      invariant 0 <= i <= |steps| && mine == Selected(steps[..i], instance)
    {
      assert steps[..i + 1][..i] == steps[..i];
      if steps[i].RunsOn(instance) {
        mine := mine + [steps[i]];
      }
      i := i + 1;
    }
    assert steps[..|steps|] == steps;
  }

  // Selection keeps exactly the steps that run on the instance, and their order.
  lemma {:induction false} SelectedElements(steps: seq<Step>, instance: InstanceName)
    ensures forall s :: s in Selected(steps, instance) <==> s in steps && s.RunsOn(instance)
    ensures forall s :: s in Selected(steps, instance) <==> s in steps && (s.on == [] || instance in s.on)
  {
    if steps != [] {
      var front := steps[..|steps| - 1];
      SelectedElements(front, instance);
      assert steps == front + [steps[|steps| - 1]];
    }
  }

  lemma {:induction false} SelectedConcat(a: seq<Step>, b: seq<Step>, instance: InstanceName)
    ensures Selected(a + b, instance) == Selected(a, instance) + Selected(b, instance)
  {
    if b == [] {
      assert a + b == a;
    } else {
      var front := b[..|b| - 1];
      SelectedConcat(a, front, instance);
      assert (a + b)[..|a + b| - 1] == a + front;
      assert (a + b)[|a + b| - 1] == b[|b| - 1];
    }
  }

  // ---- where the pins and the compose.ups of a pipeline are ----

  ghost predicate IsLast(steps: seq<Step>, op: Op, i: int) {
    0 <= i < |steps| && steps[i].op == op && forall k :: i < k < |steps| ==> steps[k].op != op
  }

  ghost predicate HasPin(steps: seq<Step>) {
    exists i :: 0 <= i < |steps| && steps[i].op == ImagePin
  }

  // A compose.up comes after the last image.pin: the pin has something to verify.
  ghost predicate PinVerifiable(steps: seq<Step>) {
    exists p, u :: IsLast(steps, ImagePin, p) && p < u < |steps| && steps[u].op == ComposeUp
  }

  // How many image.pin steps a pipeline holds.
  ghost function CountPins(steps: seq<Step>): nat {
    if steps == [] then 0
    else CountPins(steps[..|steps| - 1]) + if steps[|steps| - 1].op == ImagePin then 1 else 0
  }

  lemma {:induction false} CountPinsPrefix(steps: seq<Step>, n: nat)
    requires n <= |steps|
    ensures CountPins(steps[..n]) <= CountPins(steps)
    decreases |steps| - n
  {
    if n < |steps| {
      CountPinsPrefix(steps, n + 1);
      assert steps[..n + 1][..n] == steps[..n];
    } else {
      assert steps[..n] == steps;
    }
  }
}

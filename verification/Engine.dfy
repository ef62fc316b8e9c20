/** internal/engine: running one execution's pipeline. The clock is explicit; what processes,
    downloads and the container runtime answer is left open (any outcome, any duration up to
    the context's end). A context is known by the moment `until` at which it is done, whether
    by its deadline or by a cancellation. */
module Engine {
  import opened Model
  import opened Ops
  import opened Wrappers
  import Rollout

  type ImageId = nat

  datatype Cause = Transient | Permanent | TimedOut | ContextDone

  // The docker commands of an image.pin; Unresolved stands for the :latest tag.
  datatype Docker = Pull(digest: Digest) | Inspect(digest: Digest) | TagLatest(digest: Digest)

  // What the sink and the container runtime see of an execution: the ops, the docker commands
  // of its pins with their outcome and what was read from their output, the pins, and the
  // verifications with what the listing of the containers found.
  datatype Event =
    | OpStart(index: nat, op: Op, at: nat)
    | OpEnd(index: nat, ok: bool)
    | Ran(command: Docker, ok: bool, answer: Option<nat>)
    | Pinned(digest: Digest, id: ImageId)
    | Listed(containers: Option<seq<Option<ImageId>>>)
    | Verified(id: ImageId)

  datatype Attempt = Attempt(start: nat, end: nat, error: Option<Cause>)

  datatype Spec = Spec(hasImage: bool, digest: Digest, steps: seq<Step>)

  function Max(a: nat, b: nat): nat {
    if a < b then b else a
  }

  class Host {
    var now: nat
    var events: seq<Event>

    constructor ()
      ensures now == 0 && events == []
    {
      now, events := 0, [];
    }

    method Emit(e: Event)
      modifies this`events
      ensures events == old(events) + [e]
    {
      events := events + [e];
    }

    // A command: it ends by itself or is killed when its context is done.
    method Command(until: nat) returns (ok: bool)
      modifies this`now
      ensures old(now) <= now <= Max(old(now), until)
    {
      ok := *;
      var t: nat := *;
      now := if now <= t <= until then t else Max(now, until);
    }

    method Docker(command: Docker, until: nat) returns (ok: bool)
      modifies this
      ensures events == old(events) + [Ran(command, ok, None)]
      ensures old(now) <= now <= Max(old(now), until)
    {
      ok := Command(until);
      Emit(Ran(command, ok, None));
    }

    // A command whose output is read; None where it is empty or not of the expected form.
    method DockerOutput(command: Docker, until: nat) returns (ok: bool, answer: Option<nat>)
      modifies this
      ensures events == old(events) + [Ran(command, ok, answer)]
      ensures old(now) <= now <= Max(old(now), until)
    {
      ok := Command(until);
      answer := *;
      Emit(Ran(command, ok, answer));
    }

    // The pause between attempts, cut short when the context is done first.
    method Sleep(d: nat, until: nat) returns (ok: bool)
      requires now < until
      modifies this`now
      ensures ok ==> now == old(now) + d <= until
      ensures !ok ==> now == until <= old(now) + d
    {
      ok := *;
      if now + d < until {
        ok := true;
      } else if until < now + d {
        ok := false;
      }
      now := if ok then now + d else until;
    }
  }

  // The values an execution carries from its image.pin to its verification and its result.
  datatype PinState = PinState(id: Option<ImageId>, digest: Digest)

  class ExecState {
    var pinnedImageID: Option<ImageId>
    var digest: Digest

    ghost function View(): PinState
      reads this
    {
      PinState(pinnedImageID, digest)
    }

    constructor ()
      ensures View() == PinState(None, Unresolved)
    {
      pinnedImageID, digest := None, Unresolved;
    }
  }

  ghost predicate AllCommands(es: seq<Event>) {
    forall e :: e in es ==> e.Ran?
  }

  // ---- what the commands do to the container runtime ----

  // What is known of the runtime: which digest :latest names, whether :latest is as the
  // registry has it and what that was resolved to, which digests are present, and which ids
  // inspections of them have answered.
  datatype Runtime = Runtime(latest: Option<Digest>, fetched: bool, resolved: Option<Digest>, present: set<Digest>,
                             ids: map<Digest, ImageId>)

  const NothingKnown: Runtime := Runtime(None, false, None, {}, map[])

  // A command that fails tells nothing, and leaves open what it did to :latest.
  ghost function Effect(w: Runtime, e: Event): Runtime {
    if !e.Ran? then w
    else
      match e.command
      case Pull(digest) =>
        if digest.Unresolved? then w.(latest := None, fetched := e.ok, resolved := None)
        else if e.ok then w.(present := w.present + {digest}, ids := w.ids - {digest})
        else w
      case Inspect(digest) =>
        if !e.ok || e.answer.None? then w
        else if digest.Unresolved? then (if w.fetched then w.(resolved := Some(Sha256(e.answer.value))) else w)
        else if digest in w.present then w.(ids := w.ids[digest := e.answer.value])
        else w
      case TagLatest(digest) =>
        w.(latest := if e.ok && digest in w.present then Some(digest) else None, fetched := false)
  }

  ghost function Effects(w: Runtime, es: seq<Event>): Runtime {
    if es == [] then w else Effect(Effects(w, es[..|es| - 1]), es[|es| - 1])
  }

  lemma EffectsSnoc(w: Runtime, es: seq<Event>, e: Event)
    ensures Effects(w, es + [e]) == Effect(Effects(w, es), e)
  {
    assert (es + [e])[..|es|] == es;
  }

  lemma {:induction false} EffectsConcat(w: Runtime, a: seq<Event>, b: seq<Event>)
    ensures Effects(w, a + b) == Effects(Effects(w, a), b)
  {
    if b == [] {
      assert a + b == a;
    } else {
      var front, e := b[..|b| - 1], b[|b| - 1];
      EffectsConcat(w, a, front);
      EffectsSnoc(w, a + front, e);
      assert a + b == (a + front) + [e] && b == front + [e];
      EffectsSnoc(Effects(w, a), front, e);
    }
  }

  // ---- image.pin ----

  // The runtime has the image of this digest, :latest names it, an inspection made after it
  // was pulled answered this id; and the digest is the one handed over, or what :latest was
  // resolved to after it was pulled.
  ghost predicate PinShows(spec: Spec, w: Runtime, digest: Digest, id: ImageId) {
    && w.latest == Some(digest) && digest in w.present && digest in w.ids && w.ids[digest] == id
    && !digest.Unresolved?
    && (if spec.digest.Unresolved? then w.resolved == Some(digest) else digest == spec.digest)
  }

  // These commands pin, whatever went before them.
  ghost predicate Pins(spec: Spec, commands: seq<Event>, digest: Digest, id: ImageId) {
    AllCommands(commands) && forall w :: PinShows(spec, Effects(w, commands), digest, id)
  }

  lemma PinsAfter(spec: Spec, before: seq<Event>, commands: seq<Event>, digest: Digest, id: ImageId)
    requires AllCommands(before) && Pins(spec, commands, digest, id)
    ensures Pins(spec, before + commands, digest, id)
  {
    forall w ensures PinShows(spec, Effects(w, before + commands), digest, id) {
      EffectsConcat(w, before, commands);
    }
  }

  // Resolve :latest, unless a digest was handed over.
  ghost function ResolveCommands(hash: nat): seq<Event> {
    [Ran(Pull(Unresolved), true, None), Ran(Inspect(Unresolved), true, Some(hash))]
  }

  // Pull by digest, read the image id, and point :latest at it.
  ghost function PinCommands(digest: Digest, id: ImageId): seq<Event> {
    [Ran(Pull(digest), true, None), Ran(Inspect(digest), true, Some(id)), Ran(TagLatest(digest), true, None)]
  }

  lemma PinCommandsEffect(w: Runtime, digest: Digest, id: ImageId)
    requires !digest.Unresolved?
    ensures var after := Effects(w, PinCommands(digest, id));
      && after.latest == Some(digest) && digest in after.present && digest in after.ids && after.ids[digest] == id
      && after.resolved == w.resolved
  {
    var pull, inspect := Ran(Pull(digest), true, None), Ran(Inspect(digest), true, Some(id));
    var tag := Ran(TagLatest(digest), true, None);
    EffectsSnoc(w, [], pull);
    EffectsSnoc(w, [pull], inspect);
    EffectsSnoc(w, [pull, inspect], tag);
    assert [] + [pull] == [pull] && [pull] + [inspect] == [pull, inspect];
    assert [pull, inspect] + [tag] == PinCommands(digest, id);
  }

  lemma ResolveCommandsEffect(w: Runtime, hash: nat)
    ensures Effects(w, ResolveCommands(hash)).resolved == Some(Sha256(hash))
  {
    var pull, inspect := Ran(Pull(Unresolved), true, None), Ran(Inspect(Unresolved), true, Some(hash));
    EffectsSnoc(w, [], pull);
    EffectsSnoc(w, [pull], inspect);
    assert [] + [pull] == [pull] && [pull] + [inspect] == ResolveCommands(hash);
  }

  lemma PinCommandsPin(spec: Spec, seen: seq<Event>, digest: Digest, id: ImageId)
    requires !digest.Unresolved?
    requires if spec.digest.Unresolved? then seen == ResolveCommands(digest.hash)
             else seen == [] && digest == spec.digest
    ensures Pins(spec, seen + PinCommands(digest, id), digest, id)
  {
    forall w ensures PinShows(spec, Effects(w, seen + PinCommands(digest, id)), digest, id) {
      EffectsConcat(w, seen, PinCommands(digest, id));
      PinCommandsEffect(Effects(w, seen), digest, id);
      if spec.digest.Unresolved? {
        ResolveCommandsEffect(w, digest.hash);
      }
    }
  }

  // Either the pin took effect on the runtime and is remembered, or nothing is remembered of
  // what was tried.
  method PinImage(spec: Spec, until: nat, st: ExecState, host: Host) returns (error: Option<Cause>)
    modifies st, host
    ensures old(host.now) <= host.now <= Max(old(host.now), until)
    ensures error.Some? ==>
      && st.View() == old(st.View())
      && exists commands :: AllCommands(commands) && host.events == old(host.events) + commands
    ensures error.None? ==>
      && spec.hasImage && st.pinnedImageID.Some?
      && exists commands ::
           && Pins(spec, commands, st.digest, st.pinnedImageID.value)
           && host.events == old(host.events) + commands + [Pinned(st.digest, st.pinnedImageID.value)]
    ensures !spec.hasImage ==> error == Some(Permanent)
  {
    ghost var seen: seq<Event> := [];
    assert host.events == old(host.events) + seen;
    if !spec.hasImage {
      return Some(Permanent);
    }
    var digest := spec.digest;
    var ok, answer;
    if digest.Unresolved? {
      ok := host.Docker(Pull(Unresolved), until);
      assert host.events == old(host.events) + [Ran(Pull(Unresolved), ok, None)];
      if !ok {
        return Some(Transient);
      }
      ok, answer := host.DockerOutput(Inspect(Unresolved), until);
      seen := [Ran(Pull(Unresolved), true, None), Ran(Inspect(Unresolved), ok, answer)];
      assert host.events == old(host.events) + seen;
      if !ok || answer.None? {
        return Some(Transient);
      }
      digest := Sha256(answer.value);
    }
    ok := host.Docker(Pull(digest), until);
    assert host.events == old(host.events) + (seen + [Ran(Pull(digest), ok, None)]);
    if !ok {
      return Some(Transient);
    }
    ok, answer := host.DockerOutput(Inspect(digest), until);
    assert host.events == old(host.events) + (seen + [Ran(Pull(digest), true, None), Ran(Inspect(digest), ok, answer)]);
    if !ok || answer.None? {
      return Some(Transient);
    }
    ok := host.Docker(TagLatest(digest), until);
    ghost var pin := [Ran(Pull(digest), true, None), Ran(Inspect(digest), true, answer), Ran(TagLatest(digest), ok, None)];
    assert host.events == old(host.events) + (seen + pin);
    if !ok {
      return Some(Transient);
    }
    host.Emit(Pinned(digest, answer.value));
    PinCommandsPin(spec, seen, digest, answer.value);
    st.pinnedImageID, st.digest := answer, digest;
    return None;
  }

  ghost predicate Shows(containers: Option<seq<Option<ImageId>>>, id: ImageId) {
    && containers.Some?
    && exists k :: 0 <= k < |containers.value| && containers.value[k] == Some(id)
         && forall j :: 0 <= j < k ==> containers.value[j].Some?
  }

  // The verification: one of the running containers uses the pinned image, and every container
  // inspected before it answered. `containers` is what `compose ps` lists, each with the image
  // its inspection names, or None where that fails.
  method VerifyPin(pinned: ImageId, containers: Option<seq<Option<ImageId>>>) returns (ok: bool)
    ensures ok <==> Shows(containers, pinned)
  {
    if containers.None? {
      return false;
    }
    var ids := containers.value;
    var i := 0;
    while i < |ids|
      invariant 0 <= i <= |ids|
      invariant forall k :: 0 <= k < i ==> ids[k].Some? && ids[k] != Some(pinned)
    {
      if ids[i].None? {
        return false;
      }
      if ids[i].value == pinned {
        return true;
      }
      i := i + 1;
    }
    return false;
  }

  // ---- attempts ----

  // Where a step's events end: the commands of its attempts, if it is an image.pin, then the
  // pin if it made one.
  ghost predicate StepEvents(step: Step, spec: Spec, ok: bool, before: seq<Event>, after: seq<Event>, st0: PinState,
                             st1: PinState) {
    if step.op == ImagePin && ok then
      && st1.id.Some?
      && exists commands ::
           Pins(spec, commands, st1.digest, st1.id.value) && after == before + commands + [Pinned(st1.digest, st1.id.value)]
    else
      && st1 == st0
      && exists commands :: AllCommands(commands) && (step.op != ImagePin ==> commands == []) && after == before + commands
  }

  method RunStep(spec: Spec, step: Step, until: nat, st: ExecState, host: Host) returns (error: Option<Cause>)
    modifies st, host
    ensures old(host.now) <= host.now <= Max(old(host.now), until)
    ensures StepEvents(step, spec, error.None?, old(host.events), host.events,
                       old(st.View()), st.View())
  {
    if step.op == ImagePin {
      error := PinImage(spec, until, st, host);
    } else {
      var ok := host.Command(until);
      error := *;
      error := if ok then None else if error.None? then Some(Transient) else error;
      assert AllCommands([]) && host.events == old(host.events) + [];
    }
  }

  // One attempt under the step's own timeout. An attempt that ran out of it while the
  // execution itself still had time is reported as a timeout, whatever the command returned.
  method RunAttempt(spec: Spec, step: Step, until: nat, st: ExecState, host: Host) returns (error: Option<Cause>)
    modifies st, host
    ensures old(host.now) <= host.now <= Max(old(host.now), until)
    ensures step.timeout > 0 ==> host.now <= old(host.now) + step.timeout
    ensures StepEvents(step, spec, error.None?, old(host.events), host.events,
                       old(st.View()), st.View())
    ensures error == Some(Permanent) && step.timeout > 0 && host.now < until ==>
      host.now < old(host.now) + step.timeout
  {
    if step.timeout == 0 {
      error := RunStep(spec, step, until, st, host);
      return;
    }
    var deadline := host.now + step.timeout;
    error := RunStep(spec, step, if deadline < until then deadline else until, st, host);
    if error.Some? && host.now < until && deadline <= host.now {
      error := Some(TimedOut);
    }
  }

  ghost predicate WorthRetrying(a: Attempt) {
    a.error.Some? && a.error != Some(Permanent)
  }

  // A retry follows a failure worth retrying, after one pause.
  ghost predicate Retried(failed: Attempt, next: Attempt) {
    WorthRetrying(failed) && next.start == failed.end + RetryInterval
  }

  ghost predicate RetryDue(failed: Attempt, now: nat) {
    WorthRetrying(failed) && now == failed.end + RetryInterval
  }

  // The first attempt starts at once, every later one retries the one before it, and none
  // outlasts the step's timeout.
  ghost predicate Attempted(step: Step, attempts: seq<Attempt>, began: nat, now: nat) {
    && (|attempts| > 0 ==> attempts[0].start == began)
    && (forall k :: 0 < k < |attempts| ==> Retried(attempts[k - 1], attempts[k]))
    && (forall k :: 0 <= k < |attempts| ==> attempts[k].start <= attempts[k].end <= now)
    && (step.timeout > 0 ==> forall k :: 0 <= k < |attempts| ==> attempts[k].end <= attempts[k].start + step.timeout)
  }

  lemma AttemptedSnoc(step: Step, attempts: seq<Attempt>, a: Attempt, began: nat, now: nat)
    requires Attempted(step, attempts, began, now)
    requires if attempts == [] then a.start == began else RetryDue(attempts[|attempts| - 1], a.start)
    requires a.start == now <= a.end
    requires step.timeout > 0 ==> a.end <= a.start + step.timeout
    ensures Attempted(step, attempts + [a], began, a.end)
  {}

  // All the attempts a step promises: one more than the retries written down, or else three
  // for image.pin and artifact.extract and a single one for any other op.
  ghost predicate AllPromised(step: Step, made: nat) {
    && (step.retries.Some? ==> made == 1 + step.retries.value)
    && (step.retries.None? && step.op in {ImagePin, ArtifactExtract} ==> made == 3)
    && (step.retries.None? && step.op !in {ImagePin, ArtifactExtract} ==> made == 1)
  }

  ghost predicate NoMoreThanPromised(step: Step, made: nat) {
    exists all: nat :: AllPromised(step, all) && made <= all
  }

  lemma AttemptsPromised(step: Step, made: nat)
    requires made <= step.Attempts()
    ensures NoMoreThanPromised(step, made)
    ensures made == step.Attempts() ==> AllPromised(step, made)
  {
    var all: nat := step.Attempts();
    assert AllPromised(step, all);
  }

  // What may end the attempts of a step.
  ghost predicate Conclusive(step: Step, attempts: seq<Attempt>, until: nat, now: nat)
    requires |attempts| > 0
  {
    var last := attempts[|attempts| - 1];
    last.error.None? || |attempts| == step.Attempts() || last.error == Some(Permanent) || until <= now
  }

  lemma FewerAttemptsFit(step: Step, made: nat)
    requires 0 < made < step.Attempts() && step.timeout > 0
    ensures made * (step.timeout + RetryInterval) + step.timeout <= Budget(step)
  {
    var p := step.timeout + RetryInterval;
    var n := step.Attempts();
    assert (n - 1) * p >= made * p;
    assert Budget(step) == (n - 1) * p + step.timeout;
  }

  lemma OneMore(n: nat, p: nat)
    ensures (n + 1) * p == n * p + p
  {}

  // One attempt more than there are retries, at most: those written down, or else two for
  // image.pin and artifact.extract and none for any other op; fewer only after a success, a
  // permanent failure or the end of the execution. One pause lies between neighbours. A step the loader accepted makes
  // every attempt it promises, provided it starts with the whole execution timeout left.
  method RunAttempts(spec: Spec, step: Step, until: nat, st: ExecState, host: Host)
    returns (error: Option<Cause>, attempts: seq<Attempt>)
    modifies st, host
    ensures old(host.now) <= host.now <= Max(old(host.now), until)
    ensures 1 <= |attempts| <= step.Attempts()
    ensures NoMoreThanPromised(step, |attempts|)
    ensures WorthRetrying(attempts[|attempts| - 1]) && host.now < until ==> AllPromised(step, |attempts|)
    ensures Attempted(step, attempts, old(host.now), host.now)
    ensures error.None? <==> attempts[|attempts| - 1].error.None?
    ensures error.None? ==> host.now == attempts[|attempts| - 1].end
    ensures Conclusive(step, attempts, until, host.now)
    ensures step.timeout > 0 && StepFits(step, until - old(host.now)) ==>
      && host.now <= old(host.now) + Budget(step)
      && (error.Some? ==> |attempts| == step.Attempts() || attempts[|attempts| - 1].error == Some(Permanent))
    ensures StepEvents(step, spec, error.None?, old(host.events), host.events,
                       old(st.View()), st.View())
  {
    var total := step.Attempts();
    attempts := [];
    ghost var began, first, view := host.now, host.events, st.View();
    assert AllCommands([]) && host.events == first + [];
    var attempt := 1;
    while true
      invariant 1 <= attempt <= total && |attempts| == attempt - 1
      invariant began <= host.now <= Max(began, until)
      invariant Between(step, attempts, began, host.now)
      invariant StepEvents(step, spec, false, first, host.events, view, st.View())
      decreases total - attempt
    {
      error, attempts := TryAgain(spec, step, until, st, host, attempts, began, first, view);
      AttemptsPromised(step, attempt);
      if error.None? {
        return;
      }
      if attempt == total || until <= host.now || error == Some(Permanent) {
        return;
      }
      ghost var ended := host.now;
      var slept := host.Sleep(RetryInterval, until);
      if !slept {
        error := Some(ContextDone);
        return;
      }
      PauseOver(step, attempts, began, ended, host.now);
      attempt := attempt + 1;
    }
  }

  // How long that many attempts with a pause behind each take at most.
  ghost function Rounds(step: Step, n: nat): nat {
    if n == 0 then 0 else Rounds(step, n - 1) + step.timeout + RetryInterval
  }

  lemma {:induction false} RoundsAre(step: Step, n: nat)
    ensures Rounds(step, n) == n * (step.timeout + RetryInterval)
  {
    if n > 0 {
      RoundsAre(step, n - 1);
      OneMore(n - 1, step.timeout + RetryInterval);
    }
  }

  // Where the loop stands before its next attempt.
  ghost predicate Between(step: Step, attempts: seq<Attempt>, began: nat, now: nat) {
    && Attempted(step, attempts, began, now)
    && (if attempts == [] then now == began else RetryDue(attempts[|attempts| - 1], now))
    && (step.timeout > 0 ==> now <= began + Rounds(step, |attempts|))
  }

  lemma PauseOver(step: Step, attempts: seq<Attempt>, began: nat, ended: nat, now: nat)
    requires Attempted(step, attempts, began, ended) && attempts != []
    requires WorthRetrying(attempts[|attempts| - 1]) && attempts[|attempts| - 1].end == ended
    requires now == ended + RetryInterval
    requires step.timeout > 0 ==> ended <= began + Rounds(step, |attempts| - 1) + step.timeout
    ensures Between(step, attempts, began, now)
  {}

  // One more attempt, put behind those that failed.
  method TryAgain(spec: Spec, step: Step, until: nat, st: ExecState, host: Host, before: seq<Attempt>,
                  ghost began: nat, ghost first: seq<Event>, ghost view: PinState)
    returns (error: Option<Cause>, attempts: seq<Attempt>)
    requires |before| < step.Attempts() && Between(step, before, began, host.now)
    requires StepEvents(step, spec, false, first, host.events, view, st.View())
    modifies st, host
    ensures old(host.now) <= host.now <= Max(old(host.now), until)
    ensures attempts == before + [Attempt(old(host.now), host.now, error)]
    ensures Attempted(step, attempts, began, host.now)
    ensures StepEvents(step, spec, error.None?, first, host.events, view, st.View())
    ensures step.timeout > 0 ==> host.now <= began + Rounds(step, |before|) + step.timeout
    ensures step.timeout > 0 && StepFits(step, until - began) ==>
      && host.now <= began + Budget(step)
      && (|attempts| < step.Attempts() ==> host.now + RetryInterval < until && host.now + RetryInterval <= began + Budget(step))
  {
    var start := host.now;
    error := RunAttempt(spec, step, until, st, host);
    AttemptedSnoc(step, before, Attempt(start, host.now, error), began, start);
    attempts := before + [Attempt(start, host.now, error)];
    JoinEvents(step, spec, error.None?, first, old(host.events), host.events, view, old(st.View()), st.View());
    RoundsAre(step, |before|);
    WithinBudget(step, |attempts|, began, until, host.now);
  }

  // The events of the failed attempts so far and of the one that just ended, put together.
  lemma JoinEvents(step: Step, spec: Spec, ok: bool, first: seq<Event>, before: seq<Event>, after: seq<Event>,
                   st0: PinState, st: PinState, st1: PinState)
    requires StepEvents(step, spec, false, first, before, st0, st)
    requires StepEvents(step, spec, ok, before, after, st, st1)
    ensures StepEvents(step, spec, ok, first, after, st0, st1)
  {
    var commands :| AllCommands(commands) && (step.op != ImagePin ==> commands == []) && before == first + commands;
    if step.op == ImagePin && ok {
      var more :| Pins(spec, more, st1.digest, st1.id.value) && after == before + more + [Pinned(st1.digest, st1.id.value)];
      PinsAfter(spec, commands, more, st1.digest, st1.id.value);
      assert after == first + (commands + more) + [Pinned(st1.digest, st1.id.value)];
    } else {
      var more :| AllCommands(more) && (step.op != ImagePin ==> more == []) && after == before + more;
      assert AllCommands(commands + more);
      assert after == first + (commands + more);
    }
  }

  lemma WithinBudget(step: Step, attempt: nat, began: nat, until: nat, now: nat)
    requires 1 <= attempt <= step.Attempts()
    requires step.timeout > 0 ==> now <= began + (attempt - 1) * (step.timeout + RetryInterval) + step.timeout
    ensures step.timeout > 0 && StepFits(step, until - began) ==>
      && now <= began + Budget(step)
      && (attempt < step.Attempts() ==> now + RetryInterval < until && now + RetryInterval <= began + Budget(step))
  {
    if step.timeout > 0 {
      var p := step.timeout + RetryInterval;
      var n := step.Attempts();
      assert Budget(step) == (n - 1) * p + step.timeout;
      assert (attempt - 1) * p <= (n - 1) * p;
      if attempt < n {
        FewerAttemptsFit(step, attempt);
        OneMore(attempt - 1, p);
      }
    }
  }

  // ---- what a sequence of events shows ----

  // No white pin: the id the last image.pin pinned was verified, with no compose.up since.
  ghost predicate Guarded(es: seq<Event>) {
    exists p, v ::
      && 0 <= p < v < |es| && es[p].Pinned? && es[v] == Verified(es[p].id)
      && (forall k :: p < k < |es| ==> !es[k].Pinned?)
      && (forall k :: v < k < |es| ==> !StartsUp(es[k]))
  }

  ghost predicate StartsUp(e: Event) {
    e.OpStart? && e.op == ComposeUp
  }

  // The ops started, the digests pinned, the last pin, and the ids verified since the last pin
  // and compose.up.
  datatype Summary = Summary(started: seq<Op>, pinned: seq<Digest>, last: PinState, verified: set<ImageId>)

  ghost function Note(s: Summary, e: Event): Summary {
    match e
    case OpStart(_, op, _) => s.(started := s.started + [op], verified := if op == ComposeUp then {} else s.verified)
    case OpEnd(_, _) => s
    case Ran(_, _, _) => s
    case Listed(_) => s
    case Pinned(digest, id) => s.(pinned := s.pinned + [digest], last := PinState(Some(id), digest), verified := {})
    case Verified(id) => s.(verified := s.verified + {id})
  }

  ghost function Scan(es: seq<Event>): Summary {
    if es == [] then Summary([], [], PinState(None, Unresolved), {})
    else Note(Scan(es[..|es| - 1]), es[|es| - 1])
  }

  lemma ScanSnoc(es: seq<Event>, e: Event)
    ensures Scan(es + [e]) == Note(Scan(es), e)
  {
    assert (es + [e])[..|es|] == es;
  }

  lemma {:induction false} ScanCommands(es: seq<Event>, commands: seq<Event>)
    requires AllCommands(commands)
    ensures Scan(es + commands) == Scan(es)
  {
    if commands == [] {
      assert es + commands == es;
    } else {
      var front := commands[..|commands| - 1];
      ScanCommands(es, front);
      ScanSnoc(es + front, commands[|commands| - 1]);
      assert es + commands == es + front + [commands[|commands| - 1]];
      assert commands[|commands| - 1] in commands;
    }
  }

  ghost predicate LastPin(es: seq<Event>, p: int) {
    0 <= p < |es| && es[p].Pinned? && forall k :: p < k < |es| ==> !es[k].Pinned?
  }

  ghost predicate Stands(es: seq<Event>, v: int, id: ImageId) {
    0 <= v < |es| && es[v] == Verified(id) && forall k :: v < k < |es| ==> !es[k].Pinned? && !StartsUp(es[k])
  }

  lemma {:induction false} ScanFindsPin(es: seq<Event>)
    ensures Scan(es).last.id.Some? ==>
      exists p :: LastPin(es, p) && es[p] == Pinned(Scan(es).last.digest, Scan(es).last.id.value)
    ensures Scan(es).last.id.None? ==> forall p :: 0 <= p < |es| ==> !es[p].Pinned?
  {
    if es != [] {
      var n := |es| - 1;
      ScanFindsPin(es[..n]);
      if es[n].Pinned? {
        assert LastPin(es, n);
      } else if Scan(es).last.id.Some? {
        var p :| LastPin(es[..n], p) && es[..n][p] == Pinned(Scan(es).last.digest, Scan(es).last.id.value);
        assert LastPin(es, p);
      } else {
        assert forall p :: 0 <= p < n ==> !es[..n][p].Pinned?;
      }
    }
  }

  lemma {:induction false} ScanFindsVerified(es: seq<Event>, id: ImageId)
    ensures id in Scan(es).verified <==> exists v :: Stands(es, v, id)
  {
    if es != [] {
      var n := |es| - 1;
      ScanFindsVerified(es[..n], id);
      if v :| Stands(es, v, id) && v < n {
        assert Stands(es[..n], v, id);
      }
      if es[n] == Verified(id) {
        assert Stands(es, n, id);
      } else if v :| Stands(es[..n], v, id) && !es[n].Pinned? && !StartsUp(es[n]) {
        assert Stands(es, v, id);
      }
    }
  }

  lemma ScanMeansGuarded(es: seq<Event>)
    ensures Guarded(es) <==> Scan(es).last.id.Some? && Scan(es).last.id.value in Scan(es).verified
  {
    ScanFindsPin(es);
    if Guarded(es) {
      var p, v :| 0 <= p < v < |es| && LastPin(es, p) && es[v] == Verified(es[p].id)
                  && forall k :: v < k < |es| ==> !StartsUp(es[k]);
      assert Stands(es, v, es[p].id);
      ScanFindsVerified(es, es[p].id);
    }
    if Scan(es).last.id.Some? {
      ScanFindsVerified(es, Scan(es).last.id.value);
    }
  }

  // ---- what every execution's events keep to ----

  // The last thing that happened is the success of an op, or its verification; or nothing has.
  ghost predicate Calm(es: seq<Event>) {
    es != [] ==> es[|es| - 1].Verified? || (es[|es| - 1].OpEnd? && es[|es| - 1].ok)
  }

  // If an image was pinned, :latest names the digest pinned last.
  ghost predicate Tagged(es: seq<Event>) {
    Scan(es).last.id.Some? ==> Effects(NothingKnown, es).latest == Some(Scan(es).last.digest)
  }

  ghost predicate InOp(es: seq<Event>, i: nat) {
    i + 1 == |Scan(es).started| && es != []
  }

  // What may come next: the ops in order, each only behind the success of the one before,
  // while the execution still has time, and with what was pinned in place; commands and pins
  // only within an image.pin; a verification only of what a listing has shown.
  ghost predicate Law(spec: Spec, until: nat, es: seq<Event>, e: Event) {
    match e
    case OpStart(i, op, at) =>
      i == |Scan(es).started| && i < |spec.steps| && op == spec.steps[i].op && at < until && Calm(es) && Tagged(es)
    case OpEnd(i, _) => InOp(es, i) && (es[|es| - 1].OpStart? || es[|es| - 1].Ran? || es[|es| - 1].Pinned?)
    case Ran(_, _, _) => es != [] && (es[|es| - 1].OpStart? || es[|es| - 1].Ran?)
    case Pinned(digest, id) => es != [] && es[|es| - 1].Ran? && PinShows(spec, Effects(NothingKnown, es), digest, id)
    case Listed(_) => es != [] && es[|es| - 1].OpEnd? && es[|es| - 1].ok && Scan(es).last.id.Some?
    case Verified(id) =>
      es != [] && es[|es| - 1].Listed? && Shows(es[|es| - 1].containers, id) && Scan(es).last.id == Some(id)
  }

  ghost predicate Lawful(spec: Spec, until: nat, es: seq<Event>) {
    es != [] ==> Lawful(spec, until, es[..|es| - 1]) && Law(spec, until, es[..|es| - 1], es[|es| - 1])
  }

  lemma LawfulSnoc(spec: Spec, until: nat, es: seq<Event>, e: Event)
    requires Lawful(spec, until, es) && Law(spec, until, es, e)
    ensures Lawful(spec, until, es + [e])
  {
    assert (es + [e])[..|es|] == es;
  }

  lemma {:induction false} LawfulAt(spec: Spec, until: nat, es: seq<Event>, k: nat)
    requires Lawful(spec, until, es) && k < |es|
    ensures Law(spec, until, es[..k], es[k])
  {
    if k < |es| - 1 {
      LawfulAt(spec, until, es[..|es| - 1], k);
      assert es[..|es| - 1][..k] == es[..k];
    }
  }

  lemma {:induction false} LawfulCommands(spec: Spec, until: nat, es: seq<Event>, commands: seq<Event>)
    requires Lawful(spec, until, es) && AllCommands(commands)
    requires es != [] && (es[|es| - 1].OpStart? || es[|es| - 1].Ran?)
    ensures Lawful(spec, until, es + commands)
    ensures (es + commands)[|es + commands| - 1].Ran? || commands == []
  {
    if commands == [] {
      assert es + commands == es;
    } else {
      var front, e := commands[..|commands| - 1], commands[|commands| - 1];
      assert e in commands;
      LawfulCommands(spec, until, es, front);
      assert front == [] ==> es + front == es;
      LawfulSnoc(spec, until, es + front, e);
      assert es + commands == es + front + [e];
    }
  }

  // Nothing follows the failure of an op.
  lemma NothingBehindAFailure(spec: Spec, until: nat, es: seq<Event>, k: nat)
    requires Lawful(spec, until, es) && k < |es| && es[k].OpEnd? && !es[k].ok
    ensures k == |es| - 1
  {
    if k < |es| - 1 {
      LawfulAt(spec, until, es, k + 1);
    }
  }

  // Whenever an op starts behind a pin, :latest names the digest pinned last: a compose.up
  // starts the pinned image.
  lemma StartsOnThePinnedImage(spec: Spec, until: nat, es: seq<Event>, p: nat, k: nat)
    requires Lawful(spec, until, es) && p < k < |es| && es[p].Pinned? && es[k].OpStart?
    requires forall j :: p < j < k ==> !es[j].Pinned?
    ensures Effects(NothingKnown, es[..k]).latest == Some(es[p].digest)
  {
    LawfulAt(spec, until, es, k);
    ScanFindsPin(es[..k]);
    assert es[..k][p].Pinned?;
    var q :| LastPin(es[..k], q) && es[..k][q] == Pinned(Scan(es[..k]).last.digest, Scan(es[..k]).last.id.value);
    assert q == p;
  }

  // The same for a whole run: no compose.up behind a pin starts anything but the image pinned
  // last.
  ghost predicate UpsArePinned(es: seq<Event>) {
    forall p, k :: 0 <= p < k < |es| && LastPin(es[..k], p) && StartsUp(es[k]) ==>
      Effects(NothingKnown, es[..k]).latest == Some(es[p].digest)
  }

  lemma LawfulUps(spec: Spec, until: nat, es: seq<Event>)
    requires Lawful(spec, until, es)
    ensures UpsArePinned(es)
  {
    forall p, k | 0 <= p < k < |es| && LastPin(es[..k], p) && StartsUp(es[k])
      ensures Effects(NothingKnown, es[..k]).latest == Some(es[p].digest)
    {
      assert forall j :: p < j < k ==> es[..k][j] == es[j];
      StartsOnThePinnedImage(spec, until, es, p, k);
    }
  }

  ghost predicate StartBefore(es: seq<Event>, until: nat) {
    forall k :: 0 <= k < |es| && es[k].OpStart? ==> es[k].at < until
  }

  lemma LawfulStarts(spec: Spec, until: nat, es: seq<Event>)
    requires Lawful(spec, until, es)
    ensures StartBefore(es, until)
  {
    forall k | 0 <= k < |es| && es[k].OpStart? ensures es[k].at < until {
      StartsInTime(spec, until, es, k);
    }
  }

  // Every pin shows in the runtime when it is recorded, and every verification in a listing of
  // the containers.
  lemma PinsAndVerificationsShow(spec: Spec, until: nat, es: seq<Event>, k: nat)
    requires Lawful(spec, until, es) && k < |es|
    ensures es[k].Pinned? ==> PinShows(spec, Effects(NothingKnown, es[..k]), es[k].digest, es[k].id)
    ensures es[k].Verified? ==> k > 0 && es[k - 1].Listed? && Shows(es[k - 1].containers, es[k].id)
  {
    LawfulAt(spec, until, es, k);
  }

  // No op starts once the execution has run out of time.
  lemma StartsInTime(spec: Spec, until: nat, es: seq<Event>, k: nat)
    requires Lawful(spec, until, es) && k < |es| && es[k].OpStart?
    ensures es[k].at < until
  {
    LawfulAt(spec, until, es, k);
  }

  // ---- the whole pipeline ----

  ghost function OpsOf(steps: seq<Step>): seq<Op> {
    seq(|steps|, i requires 0 <= i < |steps| => steps[i].op)
  }

  // The position of the last compose.up, or -1.
  method LastUp(steps: seq<Step>) returns (lastUp: int)
    ensures IsLast(steps, ComposeUp, lastUp) || (lastUp == -1 && forall k :: 0 <= k < |steps| ==> steps[k].op != ComposeUp)
  {
    lastUp := -1;
    for i := 0 to |steps|
      invariant -1 <= lastUp < i
      invariant lastUp >= 0 ==> steps[lastUp].op == ComposeUp
      invariant forall k :: lastUp < k < i ==> steps[k].op != ComposeUp
    {
      if steps[i].op == ComposeUp {
        lastUp := i;
      }
    }
  }

  // The verification behind the last compose.up has run and covers the last of the first n
  // steps' pins.
  ghost predicate Covered(steps: seq<Step>, lastUp: int, n: nat)
    requires n <= |steps|
  {
    0 <= lastUp < n && HasPin(steps[..lastUp]) && !HasPin(steps[lastUp..n])
  }

  // What the events show once the first n steps are done.
  ghost predicate Progress(spec: Spec, lastUp: int, n: nat, s: Summary, view: PinState) {
    && n <= |spec.steps|
    && s.started == OpsOf(spec.steps)[..n]
    && s.last == view
    && (view.id.Some? <==> HasPin(spec.steps[..n]))
    && PinnedFrom(spec, view)
    && |s.pinned| == CountPins(spec.steps[..n]) && PinnedAll(spec, s)
    && s.verified == (if view.id.Some? && Covered(spec.steps, lastUp, n) then {view.id.value} else {})
  }

  // Every digest pinned is the one handed over or a resolved one; the last pin is the last.
  ghost predicate PinnedAll(spec: Spec, s: Summary) {
    && (forall k :: 0 <= k < |s.pinned| ==>
          !s.pinned[k].Unresolved? && (!spec.digest.Unresolved? ==> s.pinned[k] == spec.digest))
    && Rollout.LastOf(s.pinned, spec.digest) == (if s.last.id.Some? then s.last.digest else spec.digest)
    && (s.pinned == [] <==> s.last.id.None?)
  }

  ghost predicate PinnedFrom(spec: Spec, view: PinState) {
    && (view.id.None? ==> view.digest.Unresolved?)
    && (view.id.Some? ==> !view.digest.Unresolved? && (!spec.digest.Unresolved? ==> view.digest == spec.digest))
  }

  ghost predicate OpDone(step: Step, ok: bool, s: Summary, s': Summary, view: PinState) {
    && s'.started == s.started + [step.op]
    && s'.last == (if step.op == ImagePin && ok then view else s.last)
    && s'.pinned == (if step.op == ImagePin && ok then s.pinned + [view.digest] else s.pinned)
    && s'.verified == (if step.op == ComposeUp || (step.op == ImagePin && ok) then {} else s.verified)
  }

  lemma PinsMeans(spec: Spec, commands: seq<Event>, digest: Digest, id: ImageId)
    requires Pins(spec, commands, digest, id)
    ensures !digest.Unresolved? && (!spec.digest.Unresolved? ==> digest == spec.digest)
    ensures commands != []
  {
    assert PinShows(spec, Effects(NothingKnown, commands), digest, id);
  }

  // What an op adds to the events so far is lawful, and leaves what is pinned in place.
  ghost predicate WellDone(spec: Spec, until: nat, ok: bool, es: seq<Event>) {
    Lawful(spec, until, es) && (ok ==> Calm(es) && Tagged(es))
  }

  // The events of one op, from its start to the end of its last attempt.
  lemma OpEvents(spec: Spec, until: nat, i: nat, at: nat, ok: bool, es: seq<Event>, attempted: seq<Event>, st0: PinState,
                 st1: PinState)
    requires i < |spec.steps| && i == |Scan(es).started| && at < until && WellDone(spec, until, true, es)
    requires StepEvents(spec.steps[i], spec, ok, es + [OpStart(i, spec.steps[i].op, at)], attempted, st0, st1)
    ensures OpDone(spec.steps[i], ok, Scan(es), Scan(attempted + [OpEnd(i, ok)]), st1)
    ensures WellDone(spec, until, ok, attempted + [OpEnd(i, ok)])
    ensures spec.steps[i].op == ImagePin && ok ==> st1.id.Some? && PinnedFrom(spec, st1)
  {
    var step := spec.steps[i];
    var begun := es + [OpStart(i, step.op, at)];
    ScanSnoc(es, OpStart(i, step.op, at));
    LawfulSnoc(spec, until, es, OpStart(i, step.op, at));
    ScanSnoc(attempted, OpEnd(i, ok));
    EffectsSnoc(NothingKnown, es, OpStart(i, step.op, at));
    EffectsSnoc(NothingKnown, attempted, OpEnd(i, ok));
    if step.op == ImagePin && ok {
      var commands :| Pins(spec, commands, st1.digest, st1.id.value)
                      && attempted == begun + commands + [Pinned(st1.digest, st1.id.value)];
      PinsMeans(spec, commands, st1.digest, st1.id.value);
      PinRecorded(spec, until, begun, commands, st1.digest, st1.id.value);
    } else {
      var commands :| AllCommands(commands) && (step.op != ImagePin ==> commands == []) && attempted == begun + commands;
      ScanCommands(begun, commands);
      LawfulCommands(spec, until, begun, commands);
      assert commands == [] ==> attempted == begun;
    }
    LawfulSnoc(spec, until, attempted, OpEnd(i, ok));
  }

  lemma PinRecorded(spec: Spec, until: nat, begun: seq<Event>, commands: seq<Event>, digest: Digest, id: ImageId)
    requires Lawful(spec, until, begun) && begun != [] && begun[|begun| - 1].OpStart?
    requires Pins(spec, commands, digest, id)
    ensures var es := begun + commands + [Pinned(digest, id)];
      && Lawful(spec, until, es) && Scan(es) == Note(Scan(begun), Pinned(digest, id))
      && Effects(NothingKnown, es).latest == Some(digest)
  {
    var w := Effects(NothingKnown, begun);
    EffectsConcat(NothingKnown, begun, commands);
    assert PinShows(spec, Effects(w, commands), digest, id);
    PinsMeans(spec, commands, digest, id);
    ScanCommands(begun, commands);
    LawfulCommands(spec, until, begun, commands);
    LawfulSnoc(spec, until, begun + commands, Pinned(digest, id));
    ScanSnoc(begun + commands, Pinned(digest, id));
    EffectsSnoc(NothingKnown, begun + commands, Pinned(digest, id));
  }

  lemma PinSoFar(steps: seq<Step>, n: nat)
    requires n < |steps|
    ensures HasPin(steps[..n + 1]) <==> HasPin(steps[..n]) || steps[n].op == ImagePin
  {
    if steps[n].op == ImagePin {
      assert steps[..n + 1][n].op == ImagePin;
    }
    if HasPin(steps[..n]) {
      var p :| 0 <= p < n && steps[..n][p].op == ImagePin;
      assert steps[..n + 1][p].op == ImagePin;
    }
    if HasPin(steps[..n + 1]) && steps[n].op != ImagePin {
      var p :| 0 <= p < n + 1 && steps[..n + 1][p].op == ImagePin;
      assert steps[..n][p].op == ImagePin;
    }
  }

  lemma CoveredNext(steps: seq<Step>, lastUp: int, n: nat)
    requires n < |steps| && (0 <= lastUp ==> lastUp < |steps| && steps[lastUp].op == ComposeUp)
    ensures n == lastUp ==> (Covered(steps, lastUp, n + 1) <==> HasPin(steps[..n]))
    ensures n != lastUp ==> (Covered(steps, lastUp, n + 1) <==> Covered(steps, lastUp, n) && steps[n].op != ImagePin)
  {
    if 0 <= lastUp <= n {
      var a, b := steps[lastUp..n], steps[lastUp..n + 1];
      assert b == a + [steps[n]];
      if HasPin(a) {
        var p :| 0 <= p < |a| && a[p].op == ImagePin;
        assert b[p].op == ImagePin;
      }
      if steps[n].op == ImagePin {
        assert b[n - lastUp].op == ImagePin;
      }
    }
  }

  lemma PinnedNext(spec: Spec, n: nat, s: Summary, s': Summary, st0: PinState, st1: PinState)
    requires n < |spec.steps| && |s.pinned| == CountPins(spec.steps[..n]) && PinnedAll(spec, s) && s.last == st0
    requires spec.steps[n].op != ImagePin ==> st1 == st0
    requires s'.last == st1 && (spec.steps[n].op == ImagePin ==> st1.id.Some? && PinnedFrom(spec, st1))
    requires s'.pinned == if spec.steps[n].op == ImagePin then s.pinned + [st1.digest] else s.pinned
    ensures |s'.pinned| == CountPins(spec.steps[..n + 1]) && PinnedAll(spec, s')
  {
    assert spec.steps[..n + 1][..n] == spec.steps[..n];
  }

  // One more step succeeded, and the verification ran if it was due.
  lemma ProgressStep(spec: Spec, lastUp: int, n: nat, s: Summary, s': Summary, st0: PinState, st1: PinState)
    requires n < |spec.steps| && Progress(spec, lastUp, n, s, st0)
    requires IsLast(spec.steps, ComposeUp, lastUp) || (lastUp == -1 && forall k :: 0 <= k < |spec.steps| ==> spec.steps[k].op != ComposeUp)
    requires s'.started == s.started + [spec.steps[n].op]
    requires s'.last == st1
    requires s'.pinned == if spec.steps[n].op == ImagePin then s.pinned + [st1.digest] else s.pinned
    requires spec.steps[n].op != ImagePin ==> st1 == st0
    requires spec.steps[n].op == ImagePin ==> st1.id.Some? && PinnedFrom(spec, st1)
    requires s'.verified ==
      if n == lastUp then (if st1.id.Some? then {st1.id.value} else {})
      else if spec.steps[n].op in {ComposeUp, ImagePin} then {} else s.verified
    ensures Progress(spec, lastUp, n + 1, s', st1)
  {
    PinSoFar(spec.steps, n);
    CoveredNext(spec.steps, lastUp, n);
    PinnedNext(spec, n, s, s', st0, st1);
    StartedSoFar(spec.steps, n);
  }

  lemma CoveredMeansVerifiable(steps: seq<Step>, lastUp: int)
    requires IsLast(steps, ComposeUp, lastUp) || (lastUp == -1 && forall k :: 0 <= k < |steps| ==> steps[k].op != ComposeUp)
    ensures Covered(steps, lastUp, |steps|) <==> PinVerifiable(steps)
    ensures Covered(steps, lastUp, |steps|) ==> HasPin(steps)
  {
    if PinVerifiable(steps) {
      var p, u :| IsLast(steps, ImagePin, p) && p < u < |steps| && steps[u].op == ComposeUp;
      assert steps[..lastUp][p].op == ImagePin;
    }
    if Covered(steps, lastUp, |steps|) {
      var p := LastPinBefore(steps, lastUp);
      assert forall k :: lastUp <= k < |steps| ==> steps[lastUp..|steps|][k - lastUp] == steps[k];
      assert IsLast(steps, ImagePin, p);
    }
  }

  lemma {:induction false} LastPinBefore(steps: seq<Step>, n: nat) returns (p: nat)
    requires n <= |steps| && HasPin(steps[..n])
    ensures p < n && steps[p].op == ImagePin && forall k :: p < k < n ==> steps[k].op != ImagePin
  {
    if steps[n - 1].op == ImagePin {
      p := n - 1;
    } else {
      PinSoFar(steps, n - 1);
      p := LastPinBefore(steps, n - 1);
    }
  }

  // The same events, counted from the start of the execution.
  lemma StepEventsHere(spec: Spec, step: Step, start: Event, ok: bool, first: seq<Event>, es: seq<Event>,
                       after: seq<Event>, st0: PinState, st1: PinState)
    requires StepEvents(step, spec, ok, first + es + [start], after, st0, st1)
    ensures |first| <= |after| && after[..|first|] == first
    ensures StepEvents(step, spec, ok, es + [start], after[|first|..], st0, st1)
  {
    var begun := es + [start];
    if step.op == ImagePin && ok {
      var commands :| Pins(spec, commands, st1.digest, st1.id.value)
                      && after == first + es + [start] + commands + [Pinned(st1.digest, st1.id.value)];
      assert after[|first|..] == begun + commands + [Pinned(st1.digest, st1.id.value)];
    } else {
      var commands :| AllCommands(commands) && (step.op != ImagePin ==> commands == [])
                      && after == first + es + [start] + commands;
      assert after[|first|..] == begun + commands;
    }
  }

  // What one op adds to the host's events is what it adds to the execution's.
  lemma OpOnHost(spec: Spec, until: nat, i: nat, at: nat, ok: bool, first: seq<Event>, es: seq<Event>,
                 after: seq<Event>, st0: PinState, st1: PinState)
    requires i < |spec.steps| && i == |Scan(es).started| && at < until && WellDone(spec, until, true, es)
    requires StepEvents(spec.steps[i], spec, ok, first + es + [OpStart(i, spec.steps[i].op, at)], after, st0, st1)
    ensures |first| <= |after|
    ensures var ran := after[|first|..] + [OpEnd(i, ok)];
      && after + [OpEnd(i, ok)] == first + ran
      && OpDone(spec.steps[i], ok, Scan(es), Scan(ran), st1)
      && WellDone(spec, until, ok, ran)
    ensures spec.steps[i].op == ImagePin && ok ==> st1.id.Some? && PinnedFrom(spec, st1)
    ensures spec.steps[i].op != ImagePin || !ok ==> st1 == st0
  {
    StepEventsHere(spec, spec.steps[i], OpStart(i, spec.steps[i].op, at), ok, first, es, after, st0, st1);
    OpEvents(spec, until, i, at, ok, es, after[|first|..], st0, st1);
    assert after == first + after[|first|..];
  }

  // One op: its start, its attempts, its end. `first` is what the host saw before the
  // execution, `es` what it saw of the execution so far.
  method RunOp(spec: Spec, i: nat, until: nat, st: ExecState, host: Host, ghost first: seq<Event>, ghost es: seq<Event>)
    returns (error: Option<Cause>, ghost ran: seq<Event>)
    requires i < |spec.steps| && host.events == first + es
    requires i == |Scan(es).started| && host.now < until && WellDone(spec, until, true, es)
    modifies st, host
    ensures old(host.now) <= host.now <= Max(old(host.now), until)
    ensures host.events == first + ran
    ensures OpDone(spec.steps[i], error.None?, Scan(es), Scan(ran), st.View())
    ensures WellDone(spec, until, error.None?, ran) && ran != [] && ran[|ran| - 1] == OpEnd(i, error.None?)
    ensures spec.steps[i].op == ImagePin && error.None? ==> st.View().id.Some? && PinnedFrom(spec, st.View())
    ensures spec.steps[i].op != ImagePin || error.Some? ==> st.View() == old(st.View())
  {
    var step := spec.steps[i];
    var at := host.now;
    host.Emit(OpStart(i, step.op, at));
    var attempts;
    error, attempts := RunAttempts(spec, step, until, st, host);
    OpOnHost(spec, until, i, at, error.None?, first, es, host.events, old(st.View()), st.View());
    ran := host.events[|first|..] + [OpEnd(i, error.None?)];
    host.Emit(OpEnd(i, error.None?));
  }

  // The verification of the pinned image, as part of the op behind which it runs.
  method Verify(ghost spec: Spec, until: nat, st: ExecState, host: Host, ghost first: seq<Event>, ghost es: seq<Event>)
    returns (ok: bool, ghost ran: seq<Event>)
    requires st.pinnedImageID.Some? && host.events == first + es
    requires WellDone(spec, until, true, es) && es != [] && es[|es| - 1].OpEnd? && Scan(es).last.id == st.pinnedImageID
    modifies host
    ensures old(host.now) <= host.now <= Max(old(host.now), until)
    ensures host.events == first + ran
    ensures WellDone(spec, until, ok, ran) && (!ok ==> !Calm(ran))
    ensures Scan(ran) == if ok then Note(Scan(es), Verified(st.pinnedImageID.value)) else Scan(es)
  {
    var containers: Option<seq<Option<ImageId>>> := *;
    var answered := host.Command(until);
    host.Emit(Listed(containers));
    ran := es + [Listed(containers)];
    ScanSnoc(es, Listed(containers));
    EffectsSnoc(NothingKnown, es, Listed(containers));
    LawfulSnoc(spec, until, es, Listed(containers));
    ok := VerifyPin(st.pinnedImageID.value, containers);
    if ok {
      ghost var e := Verified(st.pinnedImageID.value);
      host.Emit(Verified(st.pinnedImageID.value));
      ScanSnoc(ran, e);
      EffectsSnoc(NothingKnown, ran, e);
      LawfulSnoc(spec, until, ran, e);
      ran := ran + [e];
    }
  }

  // What the events of a run say about its ops and its pins.
  ghost predicate Accounted(spec: Spec, s: Summary, ok: bool) {
    && s.started <= OpsOf(spec.steps) && |s.pinned| <= CountPins(spec.steps) && PinnedAll(spec, s)
    && (ok ==> s.started == OpsOf(spec.steps) && |s.pinned| == CountPins(spec.steps))
  }

  lemma ProgressAccounted(spec: Spec, lastUp: int, n: nat, s: Summary, view: PinState)
    requires Progress(spec, lastUp, n, s, view)
    ensures Accounted(spec, s, n == |spec.steps|)
  {
    CountPinsPrefix(spec.steps, n);
    assert spec.steps[..|spec.steps|] == spec.steps;
  }

  // One more op was started, whether it succeeded or not.
  lemma StartedAccounted(spec: Spec, lastUp: int, n: nat, s: Summary, s': Summary, ok: bool, st0: PinState, st1: PinState,
                         result: Digest)
    requires n < |spec.steps| && Progress(spec, lastUp, n, s, st0)
    requires OpDone(spec.steps[n], ok, s, s', st1)
    requires spec.steps[n].op == ImagePin && ok ==> st1.id.Some? && PinnedFrom(spec, st1)
    requires spec.steps[n].op != ImagePin || !ok ==> st1 == st0
    requires result == Rollout.LastOf(s.pinned, spec.digest)
    ensures Accounted(spec, s', false)
    ensures Rollout.LastOf(s'.pinned, spec.digest) == if st1.digest.Unresolved? then result else st1.digest
  {
    StartedSoFar(spec.steps, n);
    assert spec.steps[..n + 1][..n] == spec.steps[..n];
    CountPinsPrefix(spec.steps, n + 1);
    CountPinsPrefix(spec.steps, n);
  }

  // One round of Execute's loop, past its check of the context.
  method Advance(spec: Spec, lastUp: int, i: nat, until: nat, before: Digest, st: ExecState, host: Host,
                 ghost first: seq<Event>, ghost es: seq<Event>)
    returns (result: Digest, error: Option<Cause>, ghost ran: seq<Event>)
    requires i < |spec.steps| && host.events == first + es
    requires IsLast(spec.steps, ComposeUp, lastUp) || (lastUp == -1 && forall k :: 0 <= k < |spec.steps| ==> spec.steps[k].op != ComposeUp)
    requires Progress(spec, lastUp, i, Scan(es), st.View()) && before == Rollout.LastOf(Scan(es).pinned, spec.digest)
    requires host.now < until && WellDone(spec, until, true, es)
    modifies st, host
    ensures old(host.now) <= host.now <= Max(old(host.now), until)
    ensures host.events == first + ran
    ensures Accounted(spec, Scan(ran), false)
    ensures result == Rollout.LastOf(Scan(ran).pinned, spec.digest)
    ensures error.None? ==> Progress(spec, lastUp, i + 1, Scan(ran), st.View())
    ensures WellDone(spec, until, error.None?, ran) && (error.Some? ==> !Calm(ran))
  {
    result := before;
    error, ran := RunOp(spec, i, until, st, host, first, es);
    StartedAccounted(spec, lastUp, i, Scan(es), Scan(ran), error.None?, old(st.View()), st.View(), before);
    if !st.digest.Unresolved? {
      result := st.digest;
    }
    if error.Some? {
      return;
    }
    if i == lastUp && st.pinnedImageID.Some? {
      var ok;
      ok, ran := Verify(spec, until, st, host, first, ran);
      if !ok {
        error := Some(Transient);
        return;
      }
    }
    ProgressStep(spec, lastUp, i, Scan(es), Scan(ran), old(st.View()), st.View());
  }

  // A run that returns without error started every op of the pipeline, in order, and leaves
  // its last pin guarded exactly when the pipeline allows it; a run that fails started the
  // ops up to the failing one. Either way the result is the digest last pinned, or else the
  // one handed over.
  method Execute(spec: Spec, until: nat, host: Host) returns (result: Digest, error: Option<Cause>, ghost ran: seq<Event>)
    modifies host
    ensures host.events == old(host.events) + ran
    ensures old(host.now) <= host.now <= Max(old(host.now), until)
    ensures Accounted(spec, Scan(ran), error.None?)
    ensures error.None? ==> (Guarded(ran) <==> PinVerifiable(spec.steps))
    ensures Lawful(spec, until, ran)
    ensures error.None? <==> Calm(ran) && |Scan(ran).started| == |spec.steps|
    ensures result == Rollout.LastOf(Scan(ran).pinned, spec.digest)
  {
    result := spec.digest;
    var st := new ExecState();
    var lastUp := LastUp(spec.steps);
    ran := [];
    var i := 0;
    while i < |spec.steps|
      invariant i <= |spec.steps|
      invariant fresh(st)
      invariant host.events == old(host.events) + ran
      invariant old(host.now) <= host.now <= Max(old(host.now), until)
      invariant Progress(spec, lastUp, i, Scan(ran), st.View())
      invariant WellDone(spec, until, true, ran)
      invariant result == Rollout.LastOf(Scan(ran).pinned, spec.digest)
    {
      if until <= host.now {
        ProgressAccounted(spec, lastUp, i, Scan(ran), st.View());
        return result, Some(ContextDone), ran;
      }
      result, error, ran := Advance(spec, lastUp, i, until, result, st, host, old(host.events), ran);
      if error.Some? {
        return;
      }
      i := i + 1;
    }
    ScanMeansGuarded(ran);
    CoveredMeansVerifiable(spec.steps, lastUp);
    ProgressAccounted(spec, lastUp, i, Scan(ran), st.View());
    assert spec.steps[..|spec.steps|] == spec.steps;
    return result, None, ran;
  }

  lemma StartedSoFar(steps: seq<Step>, n: nat)
    requires n < |steps|
    ensures OpsOf(steps)[..n] + [steps[n].op] == OpsOf(steps)[..n + 1]
  {}
}

/** internal/edgehub/hub.go and internal/executor/executor.go: when the executor of a server can
    be acquired. Attach and Detach change the hub under its lock and call the registry after
    releasing it; the executor is one value per server, shared by all its attachments, so the
    registry cannot tell a late call from a current one. */
module EdgeRegistry {
  import opened Wrappers

  type Attachment = nat

  datatype Call = Register | Unregister

  // One server: its current attachment, whether its executor is registered, and the registry
  // calls that Attach and Detach have still to make.
  datatype State = State(current: Option<Attachment>, registered: bool, pending: map<Attachment, Call>, known: set<Attachment>)

  datatype Action = Attach(a: Attachment) | Detach(a: Attachment) | Call(a: Attachment)

  const START := State(None, false, map[], {})

  ghost predicate Enabled(s: State, act: Action) {
    match act
    case Attach(a) => a !in s.known
    case Detach(a) => a in s.known && a !in s.pending   // its Attach has returned
    case Call(a) => a in s.pending
  }

  ghost function Apply(s: State, act: Action): State
    requires Enabled(s, act)
  {
    match act
    case Attach(a) => s.(current := Some(a), pending := s.pending[a := Register], known := s.known + {a})
    case Detach(a) =>
      if s.current != Some(a) then s
      else s.(current := None, pending := s.pending[a := Unregister])
    case Call(a) => s.(registered := s.pending[a].Register?, pending := s.pending - {a})
  }

  ghost predicate Next(s: State, s': State) {
    exists act :: Enabled(s, act) && s' == Apply(s, act)
  }

  // No attach or detach while the registry call of another is outstanding: what holding the
  // lock over the call would give.
  ghost predicate AtomicNext(s: State, s': State) {
    exists act :: AtomicBy(s, s', act)
  }

  ghost predicate AtomicBy(s: State, s': State, act: Action) {
    Enabled(s, act) && s' == Apply(s, act) && (act.Call? || s.pending == map[])
  }

  ghost predicate Run(run: seq<State>) {
    |run| > 0 && run[0] == START && forall i :: 0 <= i < |run| - 1 ==> Next(run[i], run[i + 1])
  }

  ghost predicate AtomicRun(run: seq<State>) {
    |run| > 0 && run[0] == START && forall i :: 0 <= i < |run| - 1 ==> AtomicNext(run[i], run[i + 1])
  }

  ghost predicate Inv(s: State) {
    && (s.pending == map[] ==> (s.registered <==> s.current.Some?))
    && (forall a :: a in s.pending ==>
          s.pending == map[a := s.pending[a]] && (s.pending[a].Register? <==> s.current.Some?))
  }

  lemma StepKeeps(s: State, act: Action)
    requires Inv(s) && Enabled(s, act) && (act.Call? || s.pending == map[])
    ensures Inv(Apply(s, act))
  {
    var t := Apply(s, act);
    assert act.Attach? ==> act.a in t.pending && t.pending == map[act.a := Register];
    assert act.Detach? && t != s ==> act.a in t.pending && t.pending == map[act.a := Unregister];
    if act.Call? {
      assert s.pending == map[act.a := s.pending[act.a]];
      assert s.pending - {act.a} == map[];
    }
  }

  // ---- when the outstanding calls leave registration right ----

  // An order in which the outstanding calls can be made, all of them.
  ghost predicate Completes(s: State, order: seq<Attachment>)
    decreases |order|
  {
    if order == [] then s.pending == map[]
    else order[0] in s.pending && Completes(Apply(s, Call(order[0])), order[1..])
  }

  ghost function Completed(s: State, order: seq<Attachment>): State
    requires Completes(s, order)
    decreases |order|
  {
    if order == [] then s else Completed(Apply(s, Call(order[0])), order[1..])
  }

  ghost predicate RightlyRegistered(s: State) {
    s.registered <==> s.current.Some?
  }

  // Nothing is outstanding and registration is right, or every outstanding call sets it right.
  ghost predicate Agrees(s: State) {
    if s.pending == map[] then RightlyRegistered(s)
    else forall a :: a in s.pending ==> (s.pending[a].Register? <==> s.current.Some?)
  }

  lemma {:induction false} AgreementLasts(s: State, order: seq<Attachment>)
    requires Agrees(s) && Completes(s, order)
    ensures RightlyRegistered(Completed(s, order))
    decreases |order|
  {
    if order != [] {
      AgreementLasts(Apply(s, Call(order[0])), order[1..]);
    }
  }

  // Any outstanding call can be the last one made.
  lemma {:induction false} OrderEndingWith(s: State, a: Attachment) returns (order: seq<Attachment>)
    requires a in s.pending
    ensures Completes(s, order)
    ensures Completed(s, order).current == s.current && Completed(s, order).registered == s.pending[a].Register?
    decreases |s.pending|
  {
    if b :| b in s.pending && b != a {
      var t := Apply(s, Call(b));
      assert t.pending == s.pending - {b} && |t.pending| < |s.pending| by {
        assert t.pending.Keys == s.pending.Keys - {b};
      }
      var rest := OrderEndingWith(t, a);
      order := [b] + rest;
      assert order[1..] == rest;
    } else {
      order := [a];
      assert s.pending - {a} == map[];
      assert order[1..] == [];
    }
  }

  // Making the outstanding calls in this order leaves registration wrong.
  ghost predicate EndsWrong(s: State, order: seq<Attachment>) {
    Completes(s, order) && !RightlyRegistered(Completed(s, order))
  }

  // Whatever the state: no order of making the outstanding calls ends with registration wrong,
  // if and only if they agree.
  lemma {:induction false} RegisteredIffAttachedExactly(s: State)
    ensures Agrees(s) <==> !exists order :: EndsWrong(s, order)
  {
    if Agrees(s) {
      forall order | Completes(s, order)
        ensures RightlyRegistered(Completed(s, order))
      {
        AgreementLasts(s, order);
      }
      assert forall order :: !EndsWrong(s, order);
    } else {
      var order: seq<Attachment> := [];
      if s.pending != map[] {
        var a :| a in s.pending && (s.pending[a].Register? != s.current.Some?);
        order := OrderEndingWith(s, a);
      }
      assert EndsWrong(s, order);
    }
  }

  // With attach and detach atomic they always agree.
  lemma {:induction false} RegisteredIffAttachedWhenAtomic(run: seq<State>, i: nat)
    requires AtomicRun(run) && i < |run|
    ensures Inv(run[i]) && Agrees(run[i])
    ensures run[i].pending == map[] ==> RightlyRegistered(run[i])
  {
    if i > 0 {
      RegisteredIffAttachedWhenAtomic(run, i - 1);
      assert AtomicNext(run[i - 1], run[i - 1 + 1]);
      var act :| AtomicBy(run[i - 1], run[i], act);
      StepKeeps(run[i - 1], act);
    }
  }

  lemma Extend(run: seq<State>, act: Action) returns (longer: seq<State>)
    requires Run(run) && Enabled(run[|run| - 1], act)
    ensures Run(longer) && |longer| > 0 && longer[|longer| - 1] == Apply(run[|run| - 1], act)
  {
    longer := run + [Apply(run[|run| - 1], act)];
    forall i | 0 <= i < |longer| - 1 ensures Next(longer[i], longer[i + 1]) {
      if i < |run| - 1 {
        assert Next(run[i], run[i + 1]);
      }
    }
  }

  // As the calls are made, an edge that reconnects while its old session is still detaching
  // can end up attached but not acquirable, with nothing outstanding that would repair it.
  lemma ReconnectCanUnregister() returns (run: seq<State>)
    ensures Run(run)
    ensures var s := run[|run| - 1]; s.pending == map[] && s.current == Some(2) && !s.registered
  {
    run := [START];
    run := Extend(run, Attach(1));
    run := Extend(run, Call(1));
    run := Extend(run, Detach(1));
    run := Extend(run, Attach(2));
    run := Extend(run, Call(2));
    run := Extend(run, Call(1));
    assert run[|run| - 1].pending == map[];
  }

  // And a replaced attachment whose registration comes late can leave a server acquirable
  // that nobody is attached to.
  lemma LateAttachCanRegister() returns (run: seq<State>)
    ensures Run(run)
    ensures var s := run[|run| - 1]; s.pending == map[] && s.current.None? && s.registered
  {
    run := [START];
    run := Extend(run, Attach(1));
    run := Extend(run, Attach(2));
    run := Extend(run, Call(2));
    run := Extend(run, Detach(2));
    run := Extend(run, Call(2));
    run := Extend(run, Call(1));
    assert run[|run| - 1].pending == map[];
  }
}

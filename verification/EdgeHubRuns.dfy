/** Everything that can happen to one server of the hub, in any order: sessions come and go,
    grace timers fire, reports arrive, calls of Execute begin, receive and end. The log of
    these events alone determines what each call must return; the hub's generations and
    channels are proved to implement that. */
module EdgeHubRuns {
  import opened Model
  import opened Wrappers
  import opened EdgeHub

  // A grace timer is named by the place in the log of the detach that armed it.
  datatype Event =
    | Attach(sid: SessionId, modern: bool, claimed: set<ExecId>)
    | Detach(sid: SessionId)
    | Expire(armedAt: nat)
    | Done(id: ExecId, report: Report)
    | Begin(id: ExecId, t: Ticket, needsModern: bool)
    | Receive(t: Ticket)
    | Abandon(t: Ticket)          // its context ended, or the send failed
    | End(t: Ticket)

  // ---- what the log says, without generations or channels ----

  ghost function CurrentSession(log: seq<Event>): Option<SessionId> {
    if log == [] then None
    else
      var before := CurrentSession(log[..|log| - 1]);
      match log[|log| - 1]
      case Attach(sid, _, _) => Some(sid)
      case Detach(sid) => if before == Some(sid) then None else before
      case _ => before
  }

  ghost predicate AttachSince(log: seq<Event>, from: nat) {
    exists k :: from <= k < |log| && log[k].Attach?
  }

  // What the last event of the log means for an execution the server holds.
  ghost function LastTerminal(grace: bool, log: seq<Event>, id: ExecId): Option<ExecResult>
    requires log != []
  {
    var before := log[..|log| - 1];
    match log[|log| - 1]
    case Attach(_, _, claimed) => if id in claimed then None else Some(SessionLost(ReconnectedWithout))
    case Detach(sid) =>
      if !grace && CurrentSession(before) == Some(sid) then Some(SessionLost(EdgeDisconnected)) else None
    case Expire(armedAt) => if AttachSince(before, armedAt) then None else Some(SessionLost(DidNotReconnect))
    case Done(id', report) => if id' == id then Some(Reported(report)) else None
    case _ => None
  }

  // The first terminal event addressed to an execution registered when the log had `since` events.
  ghost function FirstTerminal(grace: bool, log: seq<Event>, since: nat, id: ExecId): Option<ExecResult> {
    if |log| <= since then None
    else
      var earlier := FirstTerminal(grace, log[..|log| - 1], since, id);
      if earlier.Some? then earlier else LastTerminal(grace, log, id)
  }

  // ---- the machine ----

  datatype Phase = InFlight | Returned(result: Option<ExecResult>)

  // A call of Execute that got past its first locked section, with the session its pipeline
  // goes out on.
  datatype Call = Call(id: ExecId, on: SessionId, since: nat, phase: Phase, cleaned: bool)

  datatype State = State(
    st: ServerState,
    log: seq<Event>,
    calls: map<Ticket, Call>,
    refused: map<Ticket, BeginError>,   // the calls that did not get past it
    armed: map<nat, nat>,        // generation of each timer ever armed -> place of the detach in the log
    seen: set<SessionId>)

  ghost function Start(): State {
    State(NewServer, [], map[], map[], map[], {})
  }

  // Session ids and tickets are fresh; an execution is dispatched once (the scheduler's
  // compare-and-set from queued), so a registered id is not registered again.
  ghost predicate Enabled(s: State, e: Event) {
    match e
    case Attach(sid, _, _) => sid !in s.seen
    case Detach(sid) => sid in s.seen
    case Expire(armedAt) => exists gen :: gen in s.st.timers && gen in s.armed && s.armed[gen] == armedAt
    case Done(_, _) => true
    case Begin(id, t, _) => t !in s.calls && t !in s.refused && id !in s.st.inflight
    case Receive(t) => t in s.calls && s.calls[t].phase.InFlight? && t in s.st.chans && s.st.chans[t].Some?
    case Abandon(t) => t in s.calls && s.calls[t].phase.InFlight?
    case End(t) => t in s.calls && s.calls[t].phase.Returned? && !s.calls[t].cleaned
  }

  ghost function GenOf(s: State, armedAt: nat): nat
    requires exists gen :: gen in s.st.timers && gen in s.armed && s.armed[gen] == armedAt
  {
    var gen :| gen in s.st.timers && gen in s.armed && s.armed[gen] == armedAt;
    gen
  }

  ghost function Apply(grace: bool, s: State, e: Event): State
    requires Enabled(s, e)
  {
    var n := s.(log := s.log + [e]);
    match e
    case Attach(sid, modern, claimed) => n.(st := Attached(s.st, sid, modern, claimed), seen := s.seen + {sid})
    case Detach(sid) =>
      n.(st := Detached(s.st, sid, grace),
         armed := if s.st.current == Some(sid) && ArmsTimer(s.st, grace) then s.armed[s.st.graceGen + 1 := |s.log|] else s.armed)
    case Expire(armedAt) => n.(st := Expired(s.st, GenOf(s, armedAt)))
    case Done(id, report) => n.(st := DoneReported(s.st, id, report))
    case Begin(id, t, needsModern) =>
      var r := BeginResult(s.st, needsModern);
      if r.Err? then n.(refused := s.refused[t := r.error])
      else n.(st := Begun(s.st, id, t), calls := s.calls[t := Call(id, r.value, |s.log| + 1, InFlight, false)])
    case Receive(t) =>
      n.(st := Received(s.st, t), calls := s.calls[t := s.calls[t].(phase := Returned(s.st.chans[t]))])
    case Abandon(t) => n.(calls := s.calls[t := s.calls[t].(phase := Returned(None))])
    case End(t) => n.(st := Ended(s.st, s.calls[t].id), calls := s.calls[t := s.calls[t].(cleaned := true)])
  }

  ghost predicate Next(grace: bool, s: State, s': State) {
    exists e :: Enabled(s, e) && s' == Apply(grace, s, e)
  }

  ghost predicate Run(grace: bool, run: seq<State>) {
    && |run| > 0 && run[0] == Start()
    && forall i :: 0 <= i < |run| - 1 ==> Next(grace, run[i], run[i + 1])
  }

  // ---- the invariant ----

  // The server's registrations are exactly the calls that have not cleaned up.
  ghost predicate CallOk(s: State, t: Ticket)
    requires t in s.calls
  {
    var c := s.calls[t];
    && t in s.st.chans
    && c.since <= |s.log|
    && (!c.cleaned ==> c.id in s.st.inflight && s.st.inflight[c.id] == t)
    && (c.cleaned ==> c.phase.Returned?)
  }

  ghost predicate Registered(s: State) {
    && (forall t :: t in s.calls ==> CallOk(s, t))
    && (forall id :: id in s.st.inflight ==>
          s.st.inflight[id] in s.calls && s.calls[s.st.inflight[id]].id == id && !s.calls[s.st.inflight[id]].cleaned)
  }

  // The channel of a call that still waits holds its first terminal event.
  ghost predicate ChanOk(grace: bool, s: State, t: Ticket)
    requires t in s.calls
  {
    var c := s.calls[t];
    && (c.phase.InFlight? ==> t in s.st.chans && s.st.chans[t] == FirstTerminal(grace, s.log, c.since, c.id))
    && (c.phase.Returned? && c.phase.result.Some? ==> FirstTerminal(grace, s.log, c.since, c.id) == c.phase.result)
  }

  ghost predicate Chans(grace: bool, s: State) {
    forall t :: t in s.calls ==> ChanOk(grace, s, t)
  }

  ghost predicate TimerOk(s: State, gen: nat)
    requires gen in s.armed
  {
    && s.armed[gen] < |s.log|
    && gen <= s.st.graceGen
    && (gen == s.st.graceGen <==> !AttachSince(s.log, s.armed[gen]))
    && (gen == s.st.graceGen ==> s.st.conn.None?)
  }

  ghost predicate Timers(s: State) {
    && (forall gen :: gen in s.st.timers ==> gen in s.armed)
    && (forall gen :: gen in s.armed ==> TimerOk(s, gen))
  }

  ghost predicate Sessions(s: State) {
    && s.st.conn == s.st.current == CurrentSession(s.log)
    && (s.st.current.Some? ==> s.st.current.value in s.seen)
  }

  ghost predicate Unsettled(s: State, t: Ticket) {
    t in s.calls && s.calls[t].phase.InFlight? && t in s.st.chans && s.st.chans[t].None?
  }

  // Who waits for a lost server has a timer of the current generation to wait for.
  ghost predicate Awaited(grace: bool, s: State) {
    s.st.conn.None? && (exists t :: Unsettled(s, t)) ==> grace && s.st.graceGen in s.st.timers
  }

  ghost predicate Inv(grace: bool, s: State) {
    Registered(s) && Chans(grace, s) && Timers(s) && Sessions(s) && Awaited(grace, s)
  }

  // ---- what the log says, one event later ----

  lemma {:induction false} LogStep(grace: bool, log: seq<Event>, e: Event, since: nat, id: ExecId)
    requires since <= |log|
    ensures FirstTerminal(grace, log + [e], since, id) ==
            var f := FirstTerminal(grace, log, since, id);
            if f.Some? then f else LastTerminal(grace, log + [e], id)
    ensures FirstTerminal(grace, log + [e], |log| + 1, id) == None
  {
    assert (log + [e])[..|log|] == log;
  }

  lemma {:induction false} SessionStep(log: seq<Event>, e: Event)
    ensures CurrentSession(log + [e]) ==
            match e
            case Attach(sid, _, _) => Some(sid)
            case Detach(sid) => (if CurrentSession(log) == Some(sid) then None else CurrentSession(log))
            case _ => CurrentSession(log)
  {
    assert (log + [e])[..|log|] == log;
  }

  lemma {:induction false} AttachStep(log: seq<Event>, e: Event, from: nat)
    requires from <= |log|
    ensures AttachSince(log + [e], from) <==> AttachSince(log, from) || e.Attach?
  {
    var longer := log + [e];
    if AttachSince(log, from) {
      var k :| from <= k < |log| && log[k].Attach?;
      assert longer[k].Attach?;
    }
    if e.Attach? {
      assert longer[|log|].Attach?;
    }
    assert forall k :: 0 <= k < |log| ==> longer[k] == log[k];
  }

  // What a delivery to `ids` does to the channel of one registered call.
  lemma {:induction false} SettleReaches(s: State, ids: set<ExecId>, r: ExecResult, t: Ticket)
    requires Registered(s) && t in s.calls && !s.calls[t].cleaned
    ensures t in s.st.chans
    ensures SettleIds(s.st, ids, r).chans[t] ==
            if s.calls[t].id in ids then Settled(s.st.chans[t], r) else s.st.chans[t]
  {
    assert CallOk(s, t);
    var c := s.calls[t];
    if id :| id in ids && id in s.st.inflight && s.st.inflight[id] == t {
      assert id == c.id;
    }
  }

  // ---- channels ----

  // The delivery an event amounts to.
  ghost function Delivery(grace: bool, s: State, e: Event): (set<ExecId>, ExecResult)
    requires Enabled(s, e)
  {
    match e
    case Attach(_, _, claimed) => (s.st.inflight.Keys - claimed, SessionLost(ReconnectedWithout))
    case Detach(sid) =>
      (if s.st.current == Some(sid) && !ArmsTimer(s.st, grace) then s.st.inflight.Keys else {}, SessionLost(EdgeDisconnected))
    case Expire(armedAt) =>
      (if s.st.graceGen == GenOf(s, armedAt) && s.st.conn.None? then s.st.inflight.Keys else {}, SessionLost(DidNotReconnect))
    case Done(id, report) => ({id}, Reported(report))
    case _ => ({}, SessionLost(DidNotReconnect))
  }

  lemma {:induction false} NoDelivery(st: ServerState, r: ExecResult)
    ensures SettleIds(st, {}, r).chans == st.chans
  {
  }

  lemma {:induction false} ApplyDelivers(grace: bool, s: State, e: Event)
    requires Enabled(s, e) && (e.Attach? || e.Detach? || e.Expire? || e.Done?)
    ensures var (ids, r) := Delivery(grace, s, e);
      && Apply(grace, s, e).st.chans == SettleIds(s.st, ids, r).chans
      && Apply(grace, s, e).st.inflight == s.st.inflight
      && Apply(grace, s, e).calls == s.calls
      && Apply(grace, s, e).log == s.log + [e]
  {
    var (ids, r) := Delivery(grace, s, e);
    NoDelivery(s.st, r);
  }

  // For a registered call, what the event delivers is what the log says about it.
  lemma {:induction false} DeliveryIsTerminal(grace: bool, s: State, e: Event, t: Ticket)
    requires Inv(grace, s) && Enabled(s, e) && (e.Attach? || e.Detach? || e.Expire? || e.Done?)
    requires t in s.calls && !s.calls[t].cleaned
    ensures var (ids, r) := Delivery(grace, s, e);
      LastTerminal(grace, s.log + [e], s.calls[t].id) == if s.calls[t].id in ids then Some(r) else None
  {
    assert CallOk(s, t);
    assert (s.log + [e])[..|s.log|] == s.log;
    match e {
      case Detach(sid) => assert s.st.inflight != map[];
      case Expire(armedAt) => assert TimerOk(s, GenOf(s, armedAt));
      case _ =>
    }
  }

  lemma {:induction false} DeliverChans(grace: bool, s: State, e: Event)
    requires Inv(grace, s) && Enabled(s, e) && (e.Attach? || e.Detach? || e.Expire? || e.Done?)
    ensures Registered(Apply(grace, s, e)) && Chans(grace, Apply(grace, s, e))
  {
    var s' := Apply(grace, s, e);
    ApplyDelivers(grace, s, e);
    var (ids, r) := Delivery(grace, s, e);
    forall t | t in s'.calls
      ensures CallOk(s', t) && ChanOk(grace, s', t)
    {
      assert CallOk(s, t) && ChanOk(grace, s, t);
      LogStep(grace, s.log, e, s.calls[t].since, s.calls[t].id);
      if !s.calls[t].cleaned {
        SettleReaches(s, ids, r, t);
        DeliveryIsTerminal(grace, s, e, t);
      }
    }
  }

  // The steps of the calls themselves are not terminal events.
  lemma {:induction false} CallStepChans(grace: bool, s: State, e: Event)
    requires Registered(s) && Chans(grace, s) && Enabled(s, e) && (e.Begin? || e.Receive? || e.Abandon? || e.End?)
    ensures Registered(Apply(grace, s, e)) && Chans(grace, Apply(grace, s, e))
  {
    var s' := Apply(grace, s, e);
    forall t | t in s'.calls
      ensures CallOk(s', t) && ChanOk(grace, s', t)
    {
      CallStepOne(grace, s, e, t);
    }
    forall id | id in s'.st.inflight
      ensures s'.st.inflight[id] in s'.calls && s'.calls[s'.st.inflight[id]].id == id && !s'.calls[s'.st.inflight[id]].cleaned
    {
    }
  }

  lemma {:induction false} CallStepOne(grace: bool, s: State, e: Event, t: Ticket)
    requires Registered(s) && Chans(grace, s) && Enabled(s, e) && (e.Begin? || e.Receive? || e.Abandon? || e.End?)
    requires t in Apply(grace, s, e).calls
    ensures CallOk(Apply(grace, s, e), t) && ChanOk(grace, Apply(grace, s, e), t)
  {
    if t in s.calls {
      CallStepOld(grace, s, e, t);
    } else {
      LogStep(grace, s.log, e, |s.log|, Apply(grace, s, e).calls[t].id);
    }
  }

  lemma {:induction false} CallStepOld(grace: bool, s: State, e: Event, t: Ticket)
    requires Registered(s) && Chans(grace, s) && Enabled(s, e) && (e.Begin? || e.Receive? || e.Abandon? || e.End?)
    requires t in s.calls
    ensures t in Apply(grace, s, e).calls
    ensures CallOk(Apply(grace, s, e), t) && ChanOk(grace, Apply(grace, s, e), t)
  {
    assert CallOk(s, t) && ChanOk(grace, s, t);
    LogStep(grace, s.log, e, s.calls[t].since, s.calls[t].id);
    match e {
      case Begin(id, t', needsModern) => assert t' != t;
      case Receive(t') =>
      case Abandon(t') =>
      case End(t') => assert CallOk(s, t');
      case _ =>
    }
  }

  // ---- sessions and timers ----

  // The fields a delivery leaves alone.
  lemma {:induction false} ApplyFields(grace: bool, s: State, e: Event)
    requires Enabled(s, e)
    ensures var s' := Apply(grace, s, e);
      && s'.log == s.log + [e]
      && (!e.Attach? && !e.Detach? ==> s'.st.conn == s.st.conn && s'.st.current == s.st.current && s'.st.graceGen == s.st.graceGen)
      && (!e.Detach? ==> s'.armed == s.armed)
      && (!e.Detach? && !e.Expire? ==> s'.st.timers == s.st.timers)
      && s.seen <= s'.seen
  {
  }

  lemma {:induction false} ApplySessions(grace: bool, s: State, e: Event)
    requires Sessions(s) && Enabled(s, e)
    ensures Sessions(Apply(grace, s, e))
  {
    SessionStep(s.log, e);
    if !e.Attach? && !e.Detach? {
      ApplyFields(grace, s, e);
    }
  }

  lemma {:induction false} ApplyTimers(grace: bool, s: State, e: Event)
    requires Timers(s) && Sessions(s) && Enabled(s, e)
    ensures Timers(Apply(grace, s, e))
  {
    var s' := Apply(grace, s, e);
    ApplyFields(grace, s, e);
    forall gen | gen in s'.armed
      ensures TimerOk(s', gen)
    {
      if gen in s.armed && s'.armed[gen] == s.armed[gen] {
        assert TimerOk(s, gen);
        AttachStep(s.log, e, s.armed[gen]);
      } else {
        AttachStep(s.log, e, |s.log|);
      }
    }
  }

  // A call that starts to wait for a lost server arms a timer, or is settled at once.
  lemma {:induction false} SettlesEveryone(s: State, r: ExecResult, t: Ticket)
    requires Registered(s) && t in s.calls && s.calls[t].phase.InFlight?
    ensures t in s.st.chans && SettleIds(s.st, s.st.inflight.Keys, r).chans[t].Some?
  {
    assert CallOk(s, t);
    SettleReaches(s, s.st.inflight.Keys, r, t);
  }

  lemma {:induction false} ApplyAwaited(grace: bool, s: State, e: Event)
    requires Inv(grace, s) && Enabled(s, e)
    ensures Awaited(grace, Apply(grace, s, e))
  {
    var s' := Apply(grace, s, e);
    if s'.st.conn.None? && exists t :: Unsettled(s', t) {
      var t :| Unsettled(s', t);
      match e {
        case Detach(sid) => DetachAwaited(grace, s, sid, t);
        case Expire(armedAt) => ExpireAwaited(grace, s, armedAt, t);
        case Done(id, report) => DoneAwaited(grace, s, id, report, t);
        case Attach(_, _, _) =>
        case _ => CallAwaited(grace, s, e);
      }
    }
  }

  lemma {:induction false} CallAwaited(grace: bool, s: State, e: Event)
    requires Inv(grace, s) && Enabled(s, e) && (e.Begin? || e.Receive? || e.Abandon? || e.End?)
    ensures Awaited(grace, Apply(grace, s, e))
  {
    var s' := Apply(grace, s, e);
    if s'.st.conn.None? {
      forall t | Unsettled(s', t)
        ensures Unsettled(s, t)
      {
        assert CallOk(s, t);
      }
    }
  }

  lemma {:induction false} DetachAwaited(grace: bool, s: State, sid: SessionId, t: Ticket)
    requires Inv(grace, s) && Enabled(s, Detach(sid))
    requires var s' := Apply(grace, s, Detach(sid)); s'.st.conn.None? && Unsettled(s', t)
    ensures var s' := Apply(grace, s, Detach(sid)); grace && s'.st.graceGen in s'.st.timers
  {
    assert CallOk(s, t);
    if s.st.current == Some(sid) {
      SettlesEveryone(s, SessionLost(EdgeDisconnected), t);
    } else {
      assert Unsettled(s, t);
    }
  }

  lemma {:induction false} ExpireAwaited(grace: bool, s: State, armedAt: nat, t: Ticket)
    requires Inv(grace, s) && Enabled(s, Expire(armedAt))
    requires var s' := Apply(grace, s, Expire(armedAt)); s'.st.conn.None? && Unsettled(s', t)
    ensures var s' := Apply(grace, s, Expire(armedAt)); grace && s'.st.graceGen in s'.st.timers
  {
    assert CallOk(s, t);
    var gen := GenOf(s, armedAt);
    if s.st.graceGen == gen && s.st.conn.None? {
      SettlesEveryone(s, SessionLost(DidNotReconnect), t);
    } else {
      assert Unsettled(s, t);
    }
  }

  lemma {:induction false} DoneAwaited(grace: bool, s: State, id: ExecId, report: Report, t: Ticket)
    requires Inv(grace, s)
    requires var s' := Apply(grace, s, Done(id, report)); s'.st.conn.None? && Unsettled(s', t)
    ensures grace && s.st.graceGen in s.st.timers
  {
    assert CallOk(s, t);
    SettleReaches(s, {id}, Reported(report), t);
    assert Unsettled(s, t);
  }

  // ---- every run ----

  lemma {:induction false} ApplyKeeps(grace: bool, s: State, e: Event)
    requires Inv(grace, s) && Enabled(s, e)
    ensures Inv(grace, Apply(grace, s, e))
  {
    if e.Begin? || e.Receive? || e.Abandon? || e.End? {
      CallStepChans(grace, s, e);
    } else {
      DeliverChans(grace, s, e);
    }
    ApplySessions(grace, s, e);
    ApplyTimers(grace, s, e);
    ApplyAwaited(grace, s, e);
  }

  lemma {:induction false} NextKeeps(grace: bool, s: State, s': State)
    requires Inv(grace, s) && Next(grace, s, s')
    ensures Inv(grace, s')
  {
    var e :| Enabled(s, e) && s' == Apply(grace, s, e);
    ApplyKeeps(grace, s, e);
  }

  lemma {:induction false} RunKeeps(grace: bool, run: seq<State>, i: nat)
    requires Run(grace, run) && i < |run|
    ensures Inv(grace, run[i])
  {
    if i > 0 {
      RunKeeps(grace, run, i - 1);
      assert Next(grace, run[i - 1], run[i - 1 + 1]);
      NextKeeps(grace, run[i - 1], run[i]);
    }
  }

  // ---- the results ----

  // In every run, a call of Execute that returned a result returned the first terminal event
  // addressed to its execution: a report, an attach that did not claim it, a disconnect
  // without a grace window, or the expiry of a timer no attach came after.
  lemma {:induction false} FirstTerminalWins(grace: bool, run: seq<State>, i: nat, t: Ticket)
    requires Run(grace, run) && i < |run| && t in run[i].calls
    ensures var c := run[i].calls[t];
      && (c.phase.Returned? && c.phase.result.Some? ==> c.phase.result == FirstTerminal(grace, run[i].log, c.since, c.id))
      && (c.phase.InFlight? ==>
            t in run[i].st.chans && run[i].st.chans[t] == FirstTerminal(grace, run[i].log, c.since, c.id))
  {
    RunKeeps(grace, run, i);
    assert ChanOk(grace, run[i], t);
  }

  // Once there is a first terminal event no later event changes it.
  lemma {:induction false} LaterEventsChangeNothing(grace: bool, log: seq<Event>, more: seq<Event>, since: nat, id: ExecId)
    requires FirstTerminal(grace, log, since, id).Some?
    ensures FirstTerminal(grace, log + more, since, id) == FirstTerminal(grace, log, since, id)
  {
    if more == [] {
      assert log + more == log;
    } else {
      var front, e := more[..|more| - 1], more[|more| - 1];
      LaterEventsChangeNothing(grace, log, front, since, id);
      assert log + more == (log + front) + [e];
      FirstNeedsEvents(grace, log, since, id);
      LogStep(grace, log + front, e, since, id);
    }
  }

  lemma {:induction false} FirstNeedsEvents(grace: bool, log: seq<Event>, since: nat, id: ExecId)
    requires FirstTerminal(grace, log, since, id).Some?
    ensures since < |log|
  {
  }

  // No execution is stranded: with a grace window, a server that holds an unsettled execution
  // and has no connection has an armed timer of the current generation; without one, it has
  // no unsettled execution.
  lemma {:induction false} NoneStranded(grace: bool, run: seq<State>, i: nat, t: Ticket)
    requires Run(grace, run) && i < |run| && Unsettled(run[i], t) && run[i].st.conn.None?
    ensures grace && run[i].st.graceGen in run[i].st.timers
  {
    RunKeeps(grace, run, i);
  }

  // ... and when that timer fires, the execution is settled.
  lemma {:induction false} CurrentTimerSettles(grace: bool, run: seq<State>, i: nat, t: Ticket)
    requires Run(grace, run) && i < |run| && Unsettled(run[i], t) && run[i].st.conn.None?
    ensures Expired(run[i].st, run[i].st.graceGen).chans[t] == Some(SessionLost(DidNotReconnect))
  {
    RunKeeps(grace, run, i);
    assert CallOk(run[i], t);
    SettleReaches(run[i], run[i].st.inflight.Keys, SessionLost(DidNotReconnect), t);
  }

  // A timer settles something only if no session attached since it was armed: the connection
  // check in expireGrace can never be what stops it.
  lemma {:induction false} StaleTimerIsHarmless(grace: bool, run: seq<State>, i: nat, gen: nat)
    requires Run(grace, run) && i < |run| && gen in run[i].st.timers
    ensures gen in run[i].armed
    ensures AttachSince(run[i].log, run[i].armed[gen]) ==> Expired(run[i].st, gen).chans == run[i].st.chans
    ensures gen == run[i].st.graceGen <==> !AttachSince(run[i].log, run[i].armed[gen])
    ensures gen == run[i].st.graceGen ==> run[i].st.conn.None?
  {
    RunKeeps(grace, run, i);
    assert TimerOk(run[i], gen);
  }

  // Work the returning edge claims is adopted untouched, and no timer armed before can end it.
  lemma {:induction false} AdoptedWorkSurvives(grace: bool, run: seq<State>, i: nat, t: Ticket,
                                               sid: SessionId, modern: bool, claimed: set<ExecId>, gen: nat)
    requires Run(grace, run) && i < |run| && Unsettled(run[i], t) && run[i].calls[t].id in claimed
    requires sid !in run[i].seen && gen in run[i].st.timers
    ensures var after := Attached(run[i].st, sid, modern, claimed);
      && t in after.chans && after.chans[t] == None
      && Expired(after, gen).chans == after.chans
  {
    RunKeeps(grace, run, i);
    assert CallOk(run[i], t) && TimerOk(run[i], gen);
    SettleReaches(run[i], run[i].st.inflight.Keys - claimed, SessionLost(ReconnectedWithout), t);
  }

  // ---- which calls get past the first section ----

  // The last attach in the log.
  ghost predicate LastAttach(log: seq<Event>, k: nat) {
    k < |log| && log[k].Attach? && !AttachSince(log, k + 1)
  }

  // The edge attached last said it honors step modifiers.
  ghost predicate Modern(log: seq<Event>) {
    exists k: nat :: LastAttach(log, k) && log[k].modern
  }

  lemma {:induction false} ModernStep(log: seq<Event>, e: Event)
    ensures Modern(log + [e]) <==> if e.Attach? then e.modern else Modern(log)
  {
    var longer := log + [e];
    forall k: nat
      ensures LastAttach(longer, k) <==> if e.Attach? then k == |log| else LastAttach(log, k)
    {
      if k < |log| {
        AttachStep(log, e, k + 1);
      } else {
        assert !AttachSince(longer, |log| + 1);
      }
    }
    if e.Attach? {
      assert LastAttach(longer, |log|);
    } else if Modern(longer) {
      var k: nat :| LastAttach(longer, k) && longer[k].modern;
      assert LastAttach(log, k);
    }
  }

  // What the log says about a call that begins behind it.
  ghost predicate Admitted(log: seq<Event>, needsModern: bool) {
    CurrentSession(log).Some? && (needsModern ==> Modern(log))
  }

  ghost predicate BeginOk(s: State, k: nat) {
    k < |s.log| && s.log[k].Begin? ==>
      var t, before := s.log[k].t, s.log[..k];
      && (t in s.calls <==> Admitted(before, s.log[k].needsModern))
      && (t in s.calls ==> s.calls[t].id == s.log[k].id && Some(s.calls[t].on) == CurrentSession(before))
      && (t in s.refused <==> !Admitted(before, s.log[k].needsModern))
      && (t in s.refused ==> s.refused[t] == if CurrentSession(before).None? then NotAttached else EdgeTooOld)
  }

  ghost predicate Begins(s: State) {
    && (s.st.modern <==> Modern(s.log))
    && (forall k :: 0 <= k < |s.log| ==> BeginOk(s, k))
  }

  lemma {:induction false} BeginStepOk(grace: bool, s: State, e: Event)
    requires Begins(s) && Sessions(s) && Enabled(s, e) && e.Begin?
    ensures BeginOk(Apply(grace, s, e), |s.log|)
  {
    assert (s.log + [e])[..|s.log|] == s.log;
  }

  // A call that has begun stays what it was, and no other one begins under its ticket.
  lemma {:induction false} BeginStaysOk(grace: bool, s: State, e: Event, k: nat)
    requires BeginOk(s, k) && k < |s.log| && Enabled(s, e)
    ensures BeginOk(Apply(grace, s, e), k)
  {
    var s' := Apply(grace, s, e);
    assert s'.log[..k] == s.log[..k] && s'.log[k] == s.log[k];
  }

  lemma {:induction false} ApplyModern(grace: bool, s: State, e: Event)
    requires s.st.modern <==> Modern(s.log)
    requires Enabled(s, e)
    ensures Apply(grace, s, e).st.modern <==> Modern(Apply(grace, s, e).log)
  {
    ModernStep(s.log, e);
  }

  lemma {:induction false} ApplyBegins(grace: bool, s: State, e: Event)
    requires Begins(s) && Sessions(s) && Enabled(s, e)
    ensures Begins(Apply(grace, s, e))
  {
    var s' := Apply(grace, s, e);
    ApplyModern(grace, s, e);
    ApplyFields(grace, s, e);
    forall k | 0 <= k < |s'.log|
      ensures BeginOk(s', k)
    {
      if k < |s.log| {
        BeginStaysOk(grace, s, e, k);
      } else if e.Begin? {
        BeginStepOk(grace, s, e);
      }
    }
  }

  lemma {:induction false} RunBegins(grace: bool, run: seq<State>, i: nat)
    requires Run(grace, run) && i < |run|
    ensures Begins(run[i])
  {
    if i > 0 {
      RunBegins(grace, run, i - 1);
      RunSessions(grace, run, i - 1);
      assert Next(grace, run[i - 1], run[i - 1 + 1]);
      NextBegins(grace, run[i - 1], run[i]);
    } else {
      assert forall k: nat :: !LastAttach([], k);
    }
  }

  lemma {:induction false} RunSessions(grace: bool, run: seq<State>, i: nat)
    requires Run(grace, run) && i < |run|
    ensures Sessions(run[i])
  {
    RunKeeps(grace, run, i);
  }

  lemma {:induction false} NextBegins(grace: bool, s: State, s': State)
    requires Begins(s) && Sessions(s) && Next(grace, s, s')
    ensures Begins(s')
  {
    var e :| Enabled(s, e) && s' == Apply(grace, s, e);
    ApplyBegins(grace, s, e);
  }

  // In every run, read off the log: a call gets past the first section if and only if an edge
  // was attached when it began and, for a pipeline that needs it, that edge had said it honors
  // step modifiers. It is sent to that edge. Any other call is refused: as unattached when
  // there was no edge, as too old otherwise.
  lemma {:induction false} AdmittedExactly(grace: bool, run: seq<State>, i: nat, k: nat)
    requires Run(grace, run) && i < |run| && k < |run[i].log| && run[i].log[k].Begin?
    ensures var t, before := run[i].log[k].t, run[i].log[..k];
      var admitted := CurrentSession(before).Some? && (run[i].log[k].needsModern ==> Modern(before));
      && (t in run[i].calls <==> admitted)
      && (t in run[i].refused <==> !admitted)
      && (admitted ==> Some(run[i].calls[t].on) == CurrentSession(before))
      && (!admitted ==> run[i].refused[t] == if CurrentSession(before).None? then NotAttached else EdgeTooOld)
  {
    RunBegins(grace, run, i);
    assert BeginOk(run[i], k);
  }
}

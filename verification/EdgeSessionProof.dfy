/** The session protocol never declares a started execution lost while the edge still has it,
    and never loses a result between the two processes. */
module EdgeSessionProof {
  import opened Model
  import opened Wrappers
  import opened EdgeHub
  import opened EdgeAgent
  import opened EdgeSession

  // ---- the hub's deliveries ----

  lemma {:induction false} SettleHere(st: ServerState, ids: set<ExecId>, r: ExecResult, t: Ticket)
    requires forall id :: id in st.inflight ==> st.inflight[id] == id
    requires t in st.chans
    ensures t in SettleIds(st, ids, r).chans
    ensures SettleIds(st, ids, r).chans[t] == if t in ids && t in st.inflight then Settled(st.chans[t], r) else st.chans[t]
  {
  }

  // A delivery of anything but a report the edge did not make keeps the hub in order.
  lemma {:induction false} SettleHubOk(m: Main, h: History, ids: set<ExecId>, r: ExecResult)
    requires HubOk(m, h)
    requires r.Reported? ==> forall id :: id in ids && id in m.st.inflight ==> id in h.results && h.results[id] == r.report
    ensures HubOk(m.(st := SettleIds(m.st, ids, r)), h)
  {
    forall t | t in m.st.chans
      ensures SettleIds(m.st, ids, r).chans[t] == if t in ids && t in m.st.inflight then Settled(m.st.chans[t], r) else m.st.chans[t]
    {
      SettleHere(m.st, ids, r, t);
    }
  }

  // What HubOk looks at.
  lemma {:induction false} SameHub(m: Main, m': Main, h: History)
    requires HubOk(m, h) && m'.st.inflight == m.st.inflight && m'.st.chans == m.st.chans && m'.received == m.received
    ensures HubOk(m', h)
  {
  }

  lemma {:induction false} AttachHubOk(m: Main, h: History, d: nat, modern: bool, claimed: set<ExecId>)
    requires HubOk(m, h)
    ensures HubOk(m.(st := Attached(m.st, d, modern, claimed), lastAttached := d), h)
  {
    var r := SessionLost(ReconnectedWithout);
    var ids := m.st.inflight.Keys - claimed;
    SettleHubOk(m, h, ids, r);
    SameHub(m.(st := SettleIds(m.st, ids, r)), m.(st := Attached(m.st, d, modern, claimed), lastAttached := d), h);
  }

  lemma {:induction false} DetachHubOk(m: Main, h: History, d: nat, grace: bool)
    requires HubOk(m, h)
    ensures HubOk(m.(st := Detached(m.st, d, grace)), h)
  {
    SettleHubOk(m, h, m.st.inflight.Keys, SessionLost(EdgeDisconnected));
    var settled := m.(st := SettleIds(m.st, m.st.inflight.Keys, SessionLost(EdgeDisconnected)));
    var after := m.(st := Detached(m.st, d, grace));
    if m.st.current == Some(d) && !ArmsTimer(m.st, grace) {
      SameHub(settled, after, h);
    } else {
      SameHub(m, after, h);
    }
  }

  lemma {:induction false} ExpireHubOk(m: Main, h: History, gen: nat)
    requires HubOk(m, h)
    ensures HubOk(m.(st := Expired(m.st, gen)), h)
  {
    SettleHubOk(m, h, m.st.inflight.Keys, SessionLost(DidNotReconnect));
    var settled := m.(st := SettleIds(m.st, m.st.inflight.Keys, SessionLost(DidNotReconnect)));
    var after := m.(st := Expired(m.st, gen));
    if m.st.graceGen != gen || m.st.conn.Some? {
      SameHub(m, after, h);
    } else {
      SameHub(settled, after, h);
    }
  }

  lemma {:induction false} ReportHubOk(m: Main, h: History, id: ExecId, report: Report)
    requires HubOk(m, h) && id in h.results && h.results[id] == report
    ensures HubOk(m.(st := DoneReported(m.st, id, report)), h.(delivered := h.delivered + {id}))
  {
    SettleHubOk(m, h, {id}, Reported(report));
    if id in m.st.inflight {
      SettleHere(m.st, {id}, Reported(report), id);
    }
  }

  // ---- steps of main ----

  lemma {:induction false} AttachKeeps(c: Config, s: State, d: nat, modern: bool)
    requires Inv(c, s) && Enabled(c, s, AttachRequest(d, modern))
    ensures Inv(c, Apply(c, s, AttachRequest(d, modern)))
  {
    var claimed := s.net.requests[d];
    AttachHubOk(s.main, s.hist, d, modern, claimed);
    forall id | id in Orphans(s.main, claimed)
      ensures id in s.hist.sentOn && (s.hist.sentOn[id] < d && id in s.hist.started ==> id in s.hist.lost)
    {
    }
  }

  lemma {:induction false} DetachKeeps(c: Config, s: State, d: nat)
    requires Inv(c, s)
    ensures Inv(c, Apply(c, s, DetachSession(d)))
  {
    DetachHubOk(s.main, s.hist, d, c.grace);
  }

  lemma {:induction false} ExpireKeeps(c: Config, s: State, gen: nat)
    requires Inv(c, s) && Enabled(c, s, Expire(gen))
    ensures Inv(c, Apply(c, s, Expire(gen)))
  {
    ExpireHubOk(s.main, s.hist, gen);
  }

  lemma {:induction false} PostKeeps(c: Config, s: State, id: ExecId, report: Report)
    requires Inv(c, s) && Enabled(c, s, PostArrives(id, report))
    ensures Inv(c, Apply(c, s, PostArrives(id, report)))
  {
    assert (id, report) in s.net.posts;
    ReportHubOk(s.main, s.hist, id, report);
  }

  lemma {:induction false} BeginHubOk(m: Main, h: History, id: ExecId, on: nat)
    requires HubOk(m, h) && id !in h.sentOn && h.delivered <= h.sentOn.Keys
    ensures HubOk(m.(st := Begun(m.st, id, id), sending := m.sending[id := on]), h.(sentOn := h.sentOn[id := on]))
  {
  }

  // A fresh execution has not started, and no frame or request speaks of it.
  lemma {:induction false} BeginSentOk(m: Main, n: Net, e: Edge, h: History, id: ExecId)
    requires SentOk(m, n, e, h) && ClaimsExactly(n, h) && OrphansOk(e, h) && id !in h.sentOn && m.st.conn.Some?
    ensures var on := m.st.conn.value;
      var m' := m.(st := Begun(m.st, id, id), sending := m.sending[id := on]);
      var h' := h.(sentOn := h.sentOn[id := on]);
      SentOk(m', n, e, h') && ClaimsExactly(n, h') && OrphansOk(e, h')
  {
  }

  lemma {:induction false} BeginKeeps(c: Config, s: State, id: ExecId, needsModern: bool)
    requires Inv(c, s) && Enabled(c, s, Begin(id, needsModern))
    ensures Inv(c, Apply(c, s, Begin(id, needsModern)))
  {
    var r := BeginResult(s.main.st, needsModern);
    if r.Ok? {
      BeginHubOk(s.main, s.hist, id, r.value);
      BeginSentOk(s.main, s.net, s.edge, s.hist, id);
    }
  }

  lemma {:induction false} CallKeeps(c: Config, s: State, ev: Event)
    requires Inv(c, s) && Enabled(c, s, ev) && (ev.Send? || ev.FailSend? || ev.TakeResult? || ev.EndCall? || ev.RestartMain?)
    ensures Inv(c, Apply(c, s, ev))
  {
  }

  // ---- steps of the edge ----

  lemma {:induction false} SessionStepKeeps(c: Config, s: State, ev: Event)
    requires Inv(c, s) && Enabled(c, s, ev) && (ev.Dial? || ev.Establish? || ev.LoseSession? || ev.DropRequest? || ev.GiveUp?)
    ensures Inv(c, Apply(c, s, ev))
  {
  }

  lemma {:induction false} RestartEdgeKeeps(c: Config, s: State)
    requires Inv(c, s) && c.cap > 0
    ensures Inv(c, Apply(c, s, RestartEdge))
  {
  }

  lemma {:induction false} RecvKeeps(c: Config, s: State, id: ExecId)
    requires Inv(c, s) && Enabled(c, s, RecvTask(id))
    ensures Inv(c, Apply(c, s, RecvTask(id)))
  {
    // The frame went out on the session the edge is on, so no later dial is under way.
    assert s.net.frames[id] == s.edge.dial && s.hist.sentOn[id] == s.edge.dial;
  }

  // The result goes into the buffer, and at most one other out of it.
  lemma {:induction false} FinishEdgeOk(c: Config, e: Edge, h: History, id: ExecId, report: Report)
    requires EdgeOk(c, e, h) && c.cap > 0 && id in h.started
    requires Accounted(e, h) && id !in h.results
    ensures var evicted := Evicted(e.pending, c.cap, id);
      var e' := e.(pending := Buffered(e.pending, c.cap, id, report));
      var h' := h.(results := h.results[id := report], lost := h.lost + if evicted.Some? then {evicted.value} else {});
      EdgeOk(c, e', h') && Accounted(e', h')
  {
    BufferedKeeps(e.pending, c.cap, id, report);
  }

  lemma {:induction false} FinishKeeps(c: Config, s: State, id: ExecId, report: Report)
    requires Inv(c, s) && c.cap > 0 && Enabled(c, s, FinishTask(id, report))
    ensures Inv(c, Apply(c, s, FinishTask(id, report)))
  {
    FinishEdgeOk(c, s.edge, s.hist, id, report);
  }

  lemma {:induction false} LeaveKeeps(c: Config, s: State, id: ExecId)
    requires Inv(c, s) && Enabled(c, s, Leave(id))
    ensures Inv(c, Apply(c, s, Leave(id)))
  {
  }

  lemma {:induction false} StartReportKeeps(c: Config, s: State)
    requires Inv(c, s) && Enabled(c, s, StartReport)
    ensures Inv(c, Apply(c, s, StartReport))
  {
    var after := s.edge.pending[0 := s.edge.pending[0].(attempts := s.edge.pending[0].attempts + 1)];
    BufferedIds(s.edge.pending, after);
    assert s.edge.pending[0] in s.edge.pending;
    forall p | p in after
      ensures p.id in s.hist.results && s.hist.results[p.id] == p.report
    {
      var k :| 0 <= k < |after| && after[k] == p;
      assert s.edge.pending[k] in s.edge.pending;
    }
  }

  lemma {:induction false} AcknowledgeKeeps(c: Config, s: State)
    requires Inv(c, s) && Enabled(c, s, Acknowledge)
    ensures Inv(c, Apply(c, s, Acknowledge))
  {
    AckedKeeps(s.edge.pending, s.edge.reporting.value);
  }

  // ---- every run ----

  lemma {:induction false} ApplyKeeps(c: Config, s: State, ev: Event)
    requires c.cap > 0 && Inv(c, s) && Enabled(c, s, ev)
    ensures Inv(c, Apply(c, s, ev))
  {
    match ev {
      case AttachRequest(d, modern) => AttachKeeps(c, s, d, modern);
      case DetachSession(d) => DetachKeeps(c, s, d);
      case Expire(gen) => ExpireKeeps(c, s, gen);
      case PostArrives(id, report) => PostKeeps(c, s, id, report);
      case Begin(id, needsModern) => BeginKeeps(c, s, id, needsModern);
      case RestartEdge => RestartEdgeKeeps(c, s);
      case RecvTask(id) => RecvKeeps(c, s, id);
      case FinishTask(id, report) => FinishKeeps(c, s, id, report);
      case Leave(id) => LeaveKeeps(c, s, id);
      case StartReport => StartReportKeeps(c, s);
      case Acknowledge => AcknowledgeKeeps(c, s);
      case Send(_) => CallKeeps(c, s, ev);
      case FailSend(_) => CallKeeps(c, s, ev);
      case TakeResult(_) => CallKeeps(c, s, ev);
      case EndCall(_) => CallKeeps(c, s, ev);
      case RestartMain => CallKeeps(c, s, ev);
      case _ => SessionStepKeeps(c, s, ev);
    }
  }

  lemma {:induction false} RunKeeps(c: Config, run: seq<State>, i: nat)
    requires Run(c, run) && i < |run|
    ensures Inv(c, run[i])
  {
    if i > 0 {
      RunKeeps(c, run, i - 1);
      assert Next(c, run[i - 1], run[i - 1 + 1]);
      var ev :| Enabled(c, run[i - 1], ev) && run[i] == Apply(c, run[i - 1], ev);
      ApplyKeeps(c, run[i - 1], ev);
    }
  }

  // ---- requests in dial order ----

  ghost predicate InOrder(s: State) {
    && (s.main.st.conn.Some? ==> s.main.st.conn.value <= s.main.lastAttached)
    && (forall id :: id in s.hist.sentOn ==> s.hist.sentOn[id] <= s.main.lastAttached)
    && (forall id :: id in s.hist.orphaned ==>
          id in s.hist.sentOn && s.hist.orphaned[id] <= s.main.lastAttached && s.hist.sentOn[id] < s.hist.orphaned[id])
  }

  lemma {:induction false} EdgeInOrder(c: Config, s: State, ev: Event)
    requires InOrder(s) && Enabled(c, s, ev)
    requires ev.Dial? || ev.Establish? || ev.LoseSession? || ev.RestartEdge? || ev.DropRequest? || ev.RecvTask?
             || ev.FinishTask? || ev.Leave? || ev.StartReport? || ev.Acknowledge? || ev.GiveUp?
    ensures InOrder(Apply(c, s, ev))
  {
    assert Apply(c, s, ev).main == s.main && Apply(c, s, ev).hist.sentOn == s.hist.sentOn;
    assert Apply(c, s, ev).hist.orphaned == s.hist.orphaned;
  }

  lemma {:induction false} AttachInOrder(c: Config, s: State, d: nat, modern: bool)
    requires c.ordered && HubOk(s.main, s.hist) && InOrder(s) && Enabled(c, s, AttachRequest(d, modern))
    ensures InOrder(Apply(c, s, AttachRequest(d, modern)))
  {
    assert forall id :: id in Orphans(s.main, s.net.requests[d]) ==> id in s.hist.sentOn;
  }

  lemma {:induction false} ApplyInOrder(c: Config, s: State, ev: Event)
    requires c.ordered && HubOk(s.main, s.hist) && InOrder(s) && Enabled(c, s, ev)
    ensures InOrder(Apply(c, s, ev))
  {
    match ev {
      case AttachRequest(d, modern) => AttachInOrder(c, s, d, modern);
      case DetachSession(_) =>
      case Expire(_) =>
      case RestartMain =>
      case Begin(_, _) =>
      case Send(_) =>
      case FailSend(_) =>
      case TakeResult(_) =>
      case EndCall(_) =>
      case PostArrives(_, _) =>
      case _ => EdgeInOrder(c, s, ev);
    }
  }

  lemma {:induction false} RunInOrder(c: Config, run: seq<State>, i: nat)
    requires Run(c, run) && c.ordered && i < |run|
    ensures InOrder(run[i])
  {
    if i > 0 {
      RunInOrder(c, run, i - 1);
      RunKeeps(c, run, i - 1);
      assert Next(c, run[i - 1], run[i - 1 + 1]);
      var ev :| Enabled(c, run[i - 1], ev) && run[i] == Apply(c, run[i - 1], ev);
      ApplyInOrder(c, run[i - 1], ev);
    }
  }

  // ---- the results ----

  // A call of Execute still waits for its result.
  ghost predicate IsAwaited(m: Main, id: ExecId) {
    id in m.st.inflight && id !in m.received && id in m.st.chans && m.st.chans[id].None?
  }

  ghost predicate Live(e: Edge, id: ExecId) {
    id in e.running || id in IdsOf(e.pending)
  }

  // In any order of session requests: attaching one settles awaited work that is alive on the
  // edge if and only if it was dialed no later than the session the work was sent on.
  lemma {:induction false} AttachKillsLiveWorkExactly(c: Config, run: seq<State>, i: nat, d: nat, modern: bool, id: ExecId)
    requires Run(c, run) && i < |run| && Enabled(c, run[i], AttachRequest(d, modern))
    requires Live(run[i].edge, id) && IsAwaited(run[i].main, id) && id !in run[i].hist.lost
    ensures id in run[i].hist.sentOn
    ensures id in Orphans(run[i].main, run[i].net.requests[d]) <==> d <= run[i].hist.sentOn[id]
  {
    RunKeeps(c, run, i);
  }

  // In any order of session requests: an execution settled as "reconnected without it" by a
  // request dialed after the session it was sent on never started on the edge, not before and
  // not after, unless an edge restart or a full result buffer made the edge forget it.
  lemma {:induction false} LaterDialOrphansOnlyUnstarted(c: Config, run: seq<State>, i: nat, id: ExecId)
    requires Run(c, run) && i < |run| && id in run[i].hist.orphaned
    ensures id in run[i].hist.sentOn
    ensures run[i].hist.sentOn[id] < run[i].hist.orphaned[id] ==> id !in run[i].hist.started || id in run[i].hist.lost
  {
    RunKeeps(c, run, i);
  }

  // As long as session requests reach main in dial order, that is every execution it orphans.
  lemma {:induction false} OrphanNeverStarted(c: Config, run: seq<State>, i: nat, id: ExecId)
    requires Run(c, run) && c.ordered && i < |run| && id in run[i].hist.orphaned
    ensures id !in run[i].hist.started || id in run[i].hist.lost
  {
    RunInOrder(c, run, i);
    LaterDialOrphansOnlyUnstarted(c, run, i, id);
  }

  // Then work the edge is running or holds the result of is never settled by the attach that
  // is about to happen.
  lemma {:induction false} AttachNeverKillsLiveWork(c: Config, run: seq<State>, i: nat, d: nat, modern: bool, id: ExecId)
    requires Run(c, run) && c.ordered && i < |run| && Enabled(c, run[i], AttachRequest(d, modern))
    requires Live(run[i].edge, id) && id !in run[i].hist.lost
    ensures id !in Orphans(run[i].main, run[i].net.requests[d])
  {
    RunInOrder(c, run, i);
    if IsAwaited(run[i].main, id) {
      AttachKillsLiveWorkExactly(c, run, i, d, modern, id);
    }
  }

  // No result is lost in transit: once a run has ended on the edge its result is buffered,
  // main has seen it, or the edge forgot it; and what main holds is what the run ended with.
  lemma {:induction false} ResultsSurvive(c: Config, run: seq<State>, i: nat, id: ExecId)
    requires Run(c, run) && i < |run|
    ensures id in run[i].hist.results ==>
              id in IdsOf(run[i].edge.pending) || id in run[i].hist.delivered || id in run[i].hist.lost
    ensures id in run[i].hist.started ==>
              id in run[i].edge.running || id in IdsOf(run[i].edge.pending) || id in run[i].hist.delivered || id in run[i].hist.lost
    ensures var chans := run[i].main.st.chans;
      id in chans && chans[id].Some? && chans[id].value.Reported? ==>
        id in run[i].hist.results && run[i].hist.results[id] == chans[id].value.report
  {
    RunKeeps(c, run, i);
  }

  // ---- why the order of session requests matters ----

  ghost predicate Reachable(c: Config, s: State) {
    exists run: seq<State> :: Run(c, run) && run[|run| - 1] == s
  }

  lemma {:induction false} ReachStart(c: Config)
    requires c.cap > 0
    ensures Reachable(c, Start())
  {
    assert Run(c, [Start()]) && [Start()][0] == Start();
  }

  lemma {:induction false} ReachStep(c: Config, s: State, ev: Event)
    requires Reachable(c, s) && Enabled(c, s, ev)
    ensures Reachable(c, Apply(c, s, ev))
  {
    var run: seq<State> :| Run(c, run) && run[|run| - 1] == s;
    var longer := run + [Apply(c, s, ev)];
    forall i | 0 <= i < |longer| - 1
      ensures Next(c, longer[i], longer[i + 1])
    {
      if i < |run| - 1 {
        assert Next(c, run[i], run[i + 1]);
      }
    }
    assert Run(c, longer);
  }

  // The edge dials twice; both requests are under way, only the second is answered.
  lemma {:induction false} DialsTwice(c: Config) returns (s: State)
    requires !c.ordered && c.cap > 0
    ensures Reachable(c, s)
    ensures s.net.requests == map[1 := {}, 2 := {}] && s.net.frames == map[]
    ensures s.edge == Edge({}, [], 2, true, None, None) && s.main == Main(NewServer, 0, map[], {})
    ensures s.hist == History(map[], {}, map[], {}, map[], {})
  {
    ReachStart(c);
    ReachStep(c, Start(), Dial);
    var s1 := Apply(c, Start(), Dial);
    assert Advertised(Start().edge) == {} && s1.net.requests == map[1 := {}];
    ReachStep(c, s1, LoseSession);
    var s2 := Apply(c, s1, LoseSession);
    assert Advertised(s2.edge) == {};
    ReachStep(c, s2, Dial);
    s := Apply(c, s2, Dial);
  }

  lemma {:induction false} SecondDialAnswered(c: Config) returns (s: State)
    requires !c.ordered && c.cap > 0
    ensures Reachable(c, s)
    ensures s.net.requests == map[1 := {}] && s.edge.session == Some(2)
    ensures s.main.st.conn == Some(2) && s.main.st.modern && s.main.received == {}
    ensures s.hist.sentOn == map[] && s.hist.lost == {}
  {
    var s3 := DialsTwice(c);
    ReachStep(c, s3, AttachRequest(2, true));
    var s4 := Apply(c, s3, AttachRequest(2, true));
    assert s4.net.requests == map[1 := {}];
    ReachStep(c, s4, Establish);
    s := Apply(c, s4, Establish);
  }

  lemma {:induction false} ExecutionRuns(c: Config, s: State, id: ExecId) returns (t: State)
    requires Reachable(c, s) && s.edge.session == Some(2) && s.main.st.conn == Some(2) && s.main.st.modern
    requires id !in s.hist.sentOn && id !in s.main.received
    ensures Reachable(c, t) && t.net.requests == s.net.requests && t.hist.lost == s.hist.lost
    ensures id in t.edge.running && id !in t.main.received
    ensures id in t.main.st.inflight && id in t.main.st.chans && t.main.st.chans[id].None?
  {
    ReachStep(c, s, Begin(id, false));
    var s1 := Apply(c, s, Begin(id, false));
    ReachStep(c, s1, Send(id));
    var s2 := Apply(c, s1, Send(id));
    ReachStep(c, s2, RecvTask(id));
    t := Apply(c, s2, RecvTask(id));
  }

  // Such requests do arrive: one the edge gave up on, attached after the one that replaced it,
  // settles work that is running on the edge.
  lemma {:induction false} LateRequestKillsLiveWork(c: Config, id: ExecId) returns (run: seq<State>)
    requires !c.ordered && c.cap > 0
    ensures Run(c, run)
    ensures var s := run[|run| - 1]; id in s.hist.orphaned && id in s.edge.running && id !in s.hist.lost
  {
    var s := SecondDialAnswered(c);
    var t := ExecutionRuns(c, s, id);
    ReachStep(c, t, AttachRequest(1, true));
    var u := Apply(c, t, AttachRequest(1, true));
    assert id in Orphans(t.main, t.net.requests[1]);
    run :| Run(c, run) && run[|run| - 1] == u;
  }
}

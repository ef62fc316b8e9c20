/** Main, one edge and the network between them on the resumable (SSE) transport: streams die
    at any moment, session requests and reports may be lost, delayed or repeated, either
    process may restart. Main's half is the hub (EdgeHub), the edge's half the agent
    (EdgeAgent). An execution is dispatched at most once, so its id also names its call. */
module EdgeSession {
  import opened Model
  import opened Wrappers
  import opened EdgeHub
  import opened EdgeAgent

  // The edge numbers its dials; a dial's number names the session it may become.
  datatype Edge = Edge(
    running: set<ExecId>,
    pending: seq<PendingDone>,
    dial: nat,
    dialing: bool,
    session: Option<nat>,
    reporting: Option<ExecId>)         // the result flushResults is posting right now

  datatype Main = Main(
    st: ServerState,
    lastAttached: nat,
    sending: map<ExecId, nat>,         // registered, not yet handed to the stream it will go out on
    received: set<ExecId>)             // calls of Execute that took their result

  datatype Net = Net(
    requests: map<nat, set<ExecId>>,   // session requests under way, with the ids they claim
    frames: map<ExecId, nat>,          // exec frames not yet read, with the session they went out on
    posts: set<(ExecId, Report)>)      // reports posted; each may arrive any number of times

  // What has happened so far.
  datatype History = History(
    sentOn: map<ExecId, nat>,          // dispatched executions, with the session main chose
    started: set<ExecId>,              // executions the edge launched
    results: map<ExecId, Report>,      // what their runs ended with
    delivered: set<ExecId>,            // results HandleDone has seen
    orphaned: map<ExecId, nat>,        // settled as "reconnected without it" while awaited, by that request
    lost: set<ExecId>)                 // forgotten by an edge restart or a full result buffer

  datatype State = State(main: Main, edge: Edge, net: Net, hist: History)

  // cap is the edge's result buffer; ordered says that session requests reach main in the
  // order they were dialed.
  datatype Config = Config(cap: nat, grace: bool, ordered: bool)

  datatype Event =
    | Dial | Establish | LoseSession | RestartEdge
    | AttachRequest(d: nat, modern: bool) | DropRequest(d: nat)
    | DetachSession(d: nat) | Expire(gen: nat) | RestartMain
    | Begin(id: ExecId, needsModern: bool) | Send(id: ExecId) | FailSend(id: ExecId)
    | TakeResult(id: ExecId) | EndCall(id: ExecId)
    | RecvTask(id: ExecId) | FinishTask(id: ExecId, report: Report) | Leave(id: ExecId)
    | StartReport | PostArrives(id: ExecId, report: Report) | Acknowledge | GiveUp

  ghost function Start(): State {
    State(Main(NewServer, 0, map[], {}),
          Edge({}, [], 0, false, None, None),
          Net(map[], map[], {}),
          History(map[], {}, map[], {}, map[], {}))
  }

  ghost function Advertised(e: Edge): set<ExecId> {
    e.running + IdsOf(e.pending)
  }

  ghost predicate Enabled(c: Config, s: State, ev: Event) {
    match ev
    case Dial => s.edge.session.None?
    case Establish => s.edge.dialing
    case LoseSession => s.edge.session.Some? || s.edge.dialing
    case RestartEdge => true
    case AttachRequest(d, _) => d in s.net.requests && (c.ordered ==> s.main.lastAttached < d)
    case DropRequest(d) => d in s.net.requests
    case DetachSession(d) => true
    case Expire(gen) => gen in s.main.st.timers
    case RestartMain => true
    case Begin(id, _) => id !in s.hist.sentOn
    case Send(id) => id in s.main.sending
    case FailSend(id) => id in s.main.sending
    case TakeResult(id) => id in s.main.st.inflight && id !in s.main.received
                           && id in s.main.st.chans && s.main.st.chans[id].Some?
    case EndCall(id) => id in s.main.st.inflight && id !in s.main.sending
    case RecvTask(id) => id in s.net.frames && s.edge.session == Some(s.net.frames[id])
    case FinishTask(id, _) => id in s.edge.running && id !in s.hist.results
    case Leave(id) => id in s.edge.running && id in s.hist.results
    case StartReport => s.edge.session.Some? && s.edge.pending != [] && s.edge.reporting.None?
    case PostArrives(id, report) => (id, report) in s.net.posts
    // ReportDone returned nil: main answered 200, so HandleDone ran.
    case Acknowledge => s.edge.reporting.Some? && s.edge.reporting.value in s.hist.delivered
    case GiveUp => s.edge.reporting.Some?
  }

  // The executions an attach would settle although a call of Execute still waits for them.
  ghost function Orphans(m: Main, claimed: set<ExecId>): set<ExecId> {
    set id | id in m.st.inflight && id !in claimed && id !in m.received
             && id in m.st.chans && m.st.chans[id].None?
  }

  ghost function ApplyMain(c: Config, s: State, ev: Event): State
    requires Enabled(c, s, ev)
    requires ev.AttachRequest? || ev.DetachSession? || ev.Expire? || ev.RestartMain? || ev.Begin? || ev.Send?
             || ev.FailSend? || ev.TakeResult? || ev.EndCall? || ev.PostArrives?
  {
    var m, n, h := s.main, s.net, s.hist;
    match ev
    case AttachRequest(d, modern) =>
      s.(main := m.(st := Attached(m.st, d, modern, n.requests[d]), lastAttached := d),
         net := n.(requests := n.requests - {d}),
         hist := h.(orphaned := h.orphaned + map id | id in Orphans(m, n.requests[d]) :: d))
    case DetachSession(d) => s.(main := m.(st := Detached(m.st, d, c.grace)))
    case Expire(gen) => s.(main := m.(st := Expired(m.st, gen)))
    case RestartMain => s.(main := m.(st := NewServer, sending := map[]))
    case Begin(id, needsModern) =>
      var r := BeginResult(m.st, needsModern);
      if r.Err? then s
      else s.(main := m.(st := Begun(m.st, id, id), sending := m.sending[id := r.value]),
              hist := h.(sentOn := h.sentOn[id := r.value]))
    case Send(id) => s.(main := m.(sending := m.sending - {id}), net := n.(frames := n.frames[id := m.sending[id]]))
    case FailSend(id) => s.(main := m.(sending := m.sending - {id}))
    case TakeResult(id) => s.(main := m.(st := Received(m.st, id), received := m.received + {id}))
    case EndCall(id) => s.(main := m.(st := Ended(m.st, id)))
    case PostArrives(id, report) =>
      s.(main := m.(st := DoneReported(m.st, id, report)), hist := h.(delivered := h.delivered + {id}))
  }

  ghost function ApplyEdge(c: Config, s: State, ev: Event): State
    requires Enabled(c, s, ev)
    requires ev.Dial? || ev.Establish? || ev.LoseSession? || ev.RestartEdge? || ev.DropRequest? || ev.RecvTask?
             || ev.FinishTask? || ev.Leave? || ev.StartReport? || ev.Acknowledge? || ev.GiveUp?
  {
    var e, n, h := s.edge, s.net, s.hist;
    match ev
    case Dial => s.(edge := e.(dial := e.dial + 1, dialing := true),
                    net := n.(requests := n.requests[e.dial + 1 := Advertised(e)]))
    // The hello frame goes out before main attaches the session.
    case Establish => s.(edge := e.(dialing := false, session := Some(e.dial)))
    case LoseSession => s.(edge := e.(dialing := false, session := None))
    case RestartEdge => s.(edge := Edge({}, [], e.dial, false, None, None), hist := h.(lost := h.lost + Advertised(e)))
    case DropRequest(d) => s.(net := n.(requests := n.requests - {d}))
    case RecvTask(id) => s.(edge := e.(running := e.running + {id}), net := n.(frames := n.frames - {id}),
                            hist := h.(started := h.started + {id}))
    case FinishTask(id, report) =>
      var evicted := Evicted(e.pending, c.cap, id);
      s.(edge := e.(pending := Buffered(e.pending, c.cap, id, report)),
         hist := h.(results := h.results[id := report], lost := h.lost + if evicted.Some? then {evicted.value} else {}))
    case Leave(id) => s.(edge := e.(running := e.running - {id}))
    case StartReport =>
      s.(edge := e.(reporting := Some(e.pending[0].id),
                    pending := e.pending[0 := e.pending[0].(attempts := e.pending[0].attempts + 1)]),
         net := n.(posts := n.posts + {(e.pending[0].id, e.pending[0].report)}))
    case Acknowledge => s.(edge := e.(reporting := None, pending := Acked(e.pending, e.reporting.value)))
    case GiveUp => s.(edge := e.(reporting := None))
  }

  ghost function Apply(c: Config, s: State, ev: Event): State
    requires Enabled(c, s, ev)
  {
    if ev.Dial? || ev.Establish? || ev.LoseSession? || ev.RestartEdge? || ev.DropRequest? || ev.RecvTask?
       || ev.FinishTask? || ev.Leave? || ev.StartReport? || ev.Acknowledge? || ev.GiveUp?
    then ApplyEdge(c, s, ev) else ApplyMain(c, s, ev)
  }

  ghost predicate Next(c: Config, s: State, s': State) {
    exists ev :: Enabled(c, s, ev) && s' == Apply(c, s, ev)
  }

  ghost predicate Run(c: Config, run: seq<State>) {
    && |run| > 0 && c.cap > 0 && run[0] == Start()
    && forall i :: 0 <= i < |run| - 1 ==> Next(c, run[i], run[i + 1])
  }

  // ---- the invariant ----

  ghost predicate EdgeOk(c: Config, e: Edge, h: History) {
    && DistinctIds(e.pending) && |e.pending| <= c.cap
    && (e.session.Some? ==> e.session.value == e.dial)
    && e.running <= h.started && IdsOf(e.pending) <= h.started
    && (forall p :: p in e.pending ==> p.id in h.results && h.results[p.id] == p.report)
    && (e.reporting.Some? ==> e.reporting.value in h.started)
  }

  // Whatever names a session names one the edge has dialed.
  ghost predicate SentOk(m: Main, n: Net, e: Edge, h: History) {
    && m.lastAttached <= e.dial
    && (forall d :: d in n.requests ==> d <= e.dial)
    && (m.st.conn.Some? ==> m.st.conn.value <= e.dial)
    && (forall id :: id in h.sentOn ==> h.sentOn[id] <= e.dial)
    && (forall id :: id in m.sending ==>
          id in h.sentOn && m.sending[id] == h.sentOn[id] && id !in h.started && id !in n.frames)
    && (forall id :: id in n.frames ==> id in h.sentOn && n.frames[id] == h.sentOn[id] && id !in h.started)
    && h.started <= h.sentOn.Keys
  }

  ghost predicate HubOk(m: Main, h: History) {
    && (forall id :: id in m.st.inflight ==> m.st.inflight[id] == id && id in m.st.chans && id in h.sentOn)
    && (forall id :: id in m.st.chans && m.st.chans[id].Some? && m.st.chans[id].value.Reported? ==>
          id in h.results && h.results[id] == m.st.chans[id].value.report)
    // What HandleDone has seen is settled for whoever still waits for it.
    && (forall id :: id in h.delivered && id in m.st.inflight && id !in m.received ==>
          id in m.st.chans && m.st.chans[id].Some?)
  }

  ghost predicate ReportsOk(n: Net, h: History) {
    && h.results.Keys <= h.started
    && h.delivered <= h.results.Keys
    && (forall p :: p in n.posts ==> p.0 in h.results && h.results[p.0] == p.1)
  }

  // Every execution the edge started is running, its result is buffered, main has the result,
  // or the edge forgot it.
  ghost predicate Accounted(e: Edge, h: History) {
    && (forall id :: id in h.started ==> id in e.running || id in IdsOf(e.pending) || id in h.delivered || id in h.lost)
    && (forall id :: id in h.results ==> id in IdsOf(e.pending) || id in h.delivered || id in h.lost)
  }

  // A session request claims what was sent on an earlier session and has started, but for what
  // main needs nothing more from, and nothing that was sent on its own session or a later one.
  ghost predicate ClaimsExactly(n: Net, h: History) {
    && (forall d, id :: d in n.requests && id in n.requests[d] ==>
          id in h.started && id in h.sentOn && h.sentOn[id] < d)
    && (forall d, id :: d in n.requests && id in h.started && id in h.sentOn && h.sentOn[id] < d ==>
          id in n.requests[d] || id in h.delivered || id in h.lost)
  }

  ghost predicate OrphansOk(e: Edge, h: History) {
    forall id :: id in h.orphaned ==>
      && id in h.sentOn && h.orphaned[id] <= e.dial
      && (h.sentOn[id] < h.orphaned[id] && id in h.started ==> id in h.lost)
  }

  ghost predicate Inv(c: Config, s: State) {
    && EdgeOk(c, s.edge, s.hist)
    && SentOk(s.main, s.net, s.edge, s.hist)
    && HubOk(s.main, s.hist)
    && ReportsOk(s.net, s.hist)
    && Accounted(s.edge, s.hist)
    && ClaimsExactly(s.net, s.hist)
    && OrphansOk(s.edge, s.hist)
  }
}

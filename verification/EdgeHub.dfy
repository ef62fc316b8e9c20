/** internal/edgehub/hub.go: main's side of the edge sessions. The hub keeps one state per
    server; every method works on that state under the hub's lock. */
module EdgeHub {
  import opened Model
  import opened Wrappers

  type ServerName = nat
  type SessionId = nat    // one attachment together with its connection
  type Ticket = nat       // one call of Execute: the identity of its *inflight

  datatype Report = Report(ok: bool, errMsg: string, digest: Digest)

  // The ways a session can take an execution down with it.
  datatype Loss = ReconnectedWithout | EdgeDisconnected | DidNotReconnect

  datatype ExecResult = Reported(report: Report) | SessionLost(loss: Loss)

  // serverState. The buffered channel of an inflight holds at most one result; chans is keyed
  // by the call that owns the channel. timers are the generations of the armed grace timers.
  datatype ServerState = ServerState(
    current: Option<SessionId>,
    conn: Option<SessionId>,
    modern: bool,                       // the edge's version honors step modifiers
    inflight: map<ExecId, Ticket>,
    chans: map<Ticket, Option<ExecResult>>,
    graceGen: nat,
    timers: set<nat>)

  const NewServer: ServerState := ServerState(None, None, false, map[], map[], 0, {})

  // ---- what each method does to the state of the server it names ----

  // inflight.settle: the first result wins, later ones are dropped.
  function Settled(chan: Option<ExecResult>, r: ExecResult): Option<ExecResult> {
    if chan.None? then Some(r) else chan
  }

  // Deliver r to the executions of `ids` the server holds.
  ghost function SettleIds(st: ServerState, ids: set<ExecId>, r: ExecResult): ServerState {
    st.(chans := map t | t in st.chans ::
      if exists id :: id in ids && id in st.inflight && st.inflight[id] == t then Settled(st.chans[t], r) else st.chans[t])
  }

  ghost function Attached(st: ServerState, sid: SessionId, modern: bool, claimed: set<ExecId>): ServerState {
    SettleIds(st, st.inflight.Keys - claimed, SessionLost(ReconnectedWithout))
      .(graceGen := st.graceGen + 1, current := Some(sid), conn := Some(sid), modern := modern)
  }

  ghost predicate ArmsTimer(st: ServerState, grace: bool) {
    grace && st.inflight != map[]
  }

  ghost function Detached(st: ServerState, sid: SessionId, grace: bool): ServerState {
    if st.current != Some(sid) then st
    else
      var off := st.(current := None, conn := None);
      if ArmsTimer(st, grace) then off.(graceGen := st.graceGen + 1, timers := st.timers + {st.graceGen + 1})
      else SettleIds(off, st.inflight.Keys, SessionLost(EdgeDisconnected))
  }

  ghost function Expired(st: ServerState, gen: nat): ServerState {
    var fired := st.(timers := st.timers - {gen});
    if st.graceGen != gen || st.conn.Some? then fired
    else SettleIds(fired, st.inflight.Keys, SessionLost(DidNotReconnect))
  }

  ghost function DoneReported(st: ServerState, id: ExecId, report: Report): ServerState {
    SettleIds(st, {id}, Reported(report))
  }

  datatype BeginError = NotAttached | EdgeTooOld

  // The error of a call that waited for a result, if it has one. Runs whose outcome is unknown
  // because nobody came back in time are told apart from runs that are known to have failed.
  datatype ExecError = EdgeFailed(msg: string) | Lost(loss: Loss) {
    predicate IsUnreachable() {
      Lost? && loss.DidNotReconnect?
    }
  }

  // What a result makes Execute return: the digest the edge reported, or else the one handed
  // over, and an error unless the edge reported success.
  function ReturnedDigest(r: ExecResult, handed: Digest): Digest {
    if r.Reported? && !r.report.digest.Unresolved? then r.report.digest else handed
  }

  function ReturnedError(r: ExecResult): Option<ExecError> {
    match r
    case SessionLost(loss) => Some(Lost(loss))
    case Reported(report) =>
      if report.ok then None
      else Some(EdgeFailed(if report.errMsg == "" then "execution failed on edge" else report.errMsg))
  }

  // The locked part of Execute: register the call with the server that is attached right now.
  ghost function BeginResult(st: ServerState, needsModern: bool): Result<SessionId, BeginError> {
    if st.conn.None? then Err(NotAttached)
    else if needsModern && !st.modern then Err(EdgeTooOld)
    else Ok(st.conn.value)
  }

  ghost function Begun(st: ServerState, id: ExecId, t: Ticket): ServerState {
    st.(inflight := st.inflight[id := t], chans := st.chans[t := None])
  }

  // Execute's receive from its channel.
  ghost function Received(st: ServerState, t: Ticket): ServerState {
    st.(chans := st.chans[t := None])
  }

  // Execute's deferred cleanup.
  ghost function Ended(st: ServerState, id: ExecId): ServerState {
    st.(inflight := st.inflight - {id})
  }

  // ---- the hub ----

  class Hub {
    const graceWindow: nat
    var servers: map<ServerName, ServerState>
    ghost var closed: set<SessionId>         // the connections the hub closed

    constructor (grace: nat)
      ensures graceWindow == grace && servers == map[] && closed == {}
    {
      graceWindow := grace;
      servers := map[];
      closed := {};
    }

    ghost function StateOf(server: ServerName): ServerState
      reads this
    {
      if server in servers then servers[server] else NewServer
    }

    // settleAll and reconcile: a loop over the executions the server holds.
    static method SettleEach(st: ServerState, ids: set<ExecId>, r: ExecResult) returns (st': ServerState)
      ensures st' == SettleIds(st, ids, r)
    {
      st' := st;
      var todo := st.inflight.Keys;
      while todo != {}
        invariant todo <= st.inflight.Keys
        invariant st' == SettleIds(st, ids * (st.inflight.Keys - todo), r)
        decreases todo
      {
        var id :| id in todo;
        ghost var before := st';
        if id in ids && st.inflight[id] in st'.chans {
          var t := st.inflight[id];
          st' := st'.(chans := st'.chans[t := Settled(st'.chans[t], r)]);
        }
        SettleOneMore(st, ids * (st.inflight.Keys - todo), id, r);
        assert ids * (st.inflight.Keys - (todo - {id})) ==
               if id in ids then ids * (st.inflight.Keys - todo) + {id} else ids * (st.inflight.Keys - todo);
        todo := todo - {id};
      }
      assert ids * (st.inflight.Keys - {}) == ids * st.inflight.Keys;
      assert st' == SettleIds(st, ids, r);
    }

    // Attach makes a session the owner of its server; a previous connection is closed.
    method Attach(server: ServerName, sid: SessionId, modern: bool,
                  claimed: seq<ExecId>) returns (previous: Option<SessionId>)
      modifies this`servers, this`closed
      ensures servers == old(servers)[server := Attached(old(StateOf(server)), sid, modern, set id | id in claimed)]
      ensures previous == old(StateOf(server).conn)
      ensures closed == if previous.Some? then old(closed) + {previous.value} else old(closed)
    {
      var st := if server in servers then servers[server] else NewServer;
      previous := st.conn;
      var claims := set id | id in claimed;
      var st' := SettleEach(st, st.inflight.Keys - claims, SessionLost(ReconnectedWithout));
      st' := st'.(graceGen := st.graceGen + 1, current := Some(sid), conn := Some(sid), modern := modern);
      servers := servers[server := st'];
      if previous.Some? {
        closed := closed + {previous.value};
      }
    }

    // Detach ends a session, unless the server has moved on to another.
    method Detach(server: ServerName, sid: SessionId) returns (armed: Option<nat>)
      modifies this`servers
      ensures server !in old(servers) ==> servers == old(servers)
      ensures server in old(servers) ==> servers == old(servers)[server := Detached(old(servers)[server], sid, graceWindow > 0)]
      ensures armed.Some? <==> server in old(servers) && old(servers)[server].current == Some(sid)
                               && ArmsTimer(old(servers)[server], graceWindow > 0)
      ensures armed.Some? ==> armed.value == old(servers)[server].graceGen + 1
    {
      armed := None;
      if server !in servers {
        return;
      }
      var st := servers[server];
      if st.current != Some(sid) {
        assert servers == servers[server := st];
        return;
      }
      st := st.(current := None, conn := None);
      if st.inflight != map[] && graceWindow > 0 {
        st := st.(graceGen := st.graceGen + 1, timers := st.timers + {st.graceGen + 1});
        armed := Some(st.graceGen);
      } else {
        st := SettleEach(st, st.inflight.Keys, SessionLost(EdgeDisconnected));
      }
      servers := servers[server := st];
    }

    // A grace timer fires. gen tells a timer of an earlier disconnect apart.
    method ExpireGrace(server: ServerName, gen: nat)
      modifies this`servers
      ensures server !in old(servers) ==> servers == old(servers)
      ensures server in old(servers) ==> servers == old(servers)[server := Expired(old(servers)[server], gen)]
    {
      if server !in servers {
        return;
      }
      var st := servers[server].(timers := servers[server].timers - {gen});
      if st.graceGen == gen && st.conn.None? {
        st := SettleEach(st, st.inflight.Keys, SessionLost(DidNotReconnect));
      }
      servers := servers[server := st];
    }

    // A terminal report arrives, on whatever connection. Unknown executions are accepted.
    method HandleDone(server: ServerName, id: ExecId, report: Report)
      modifies this`servers
      ensures server !in old(servers) ==> servers == old(servers)
      ensures server in old(servers) ==> servers == old(servers)[server := DoneReported(old(servers)[server], id, report)]
    {
      if server in servers {
        var st := SettleEach(servers[server], {id}, Reported(report));
        servers := servers[server := st];
      }
    }

    // The first locked section of Execute.
    method BeginExecute(server: ServerName, id: ExecId, t: Ticket, needsModern: bool) returns (r: Result<SessionId,
                        BeginError>)
      modifies this`servers
      ensures r == BeginResult(old(StateOf(server)), needsModern)
      ensures r.Ok? ==> servers == old(servers)[server := Begun(old(StateOf(server)), id, t)]
      ensures r.Err? ==> servers == old(servers)
    {
      if server !in servers || servers[server].conn.None? {
        return Err(NotAttached);
      }
      var st := servers[server];
      if needsModern && !st.modern {
        return Err(EdgeTooOld);
      }
      servers := servers[server := st.(inflight := st.inflight[id := t], chans := st.chans[t := None])];
      return Ok(st.conn.value);
    }

    // Execute takes the result out of its channel and turns it into its return value: the
    // digest to report and, unless the execution succeeded, an error.
    method Receive(server: ServerName, t: Ticket, handed: Digest) returns (digest: Digest, err: Option<ExecError>)
      requires server in servers && t in servers[server].chans && servers[server].chans[t].Some?
      modifies this`servers
      ensures servers == old(servers)[server := Received(old(servers)[server], t)]
      ensures digest == ReturnedDigest(old(servers)[server].chans[t].value, handed)
      ensures err == ReturnedError(old(servers)[server].chans[t].value)
      ensures var r := old(servers)[server].chans[t].value;
        && (err.None? <==> r.Reported? && r.report.ok)
        && (r.SessionLost? ==> digest == handed)
        && (!handed.Unresolved? ==> !digest.Unresolved?)
    {
      var r := servers[server].chans[t].value;
      servers := servers[server := servers[server].(chans := servers[server].chans[t := None])];
      digest := handed;
      if r.Reported? && !r.report.digest.Unresolved? {
        digest := r.report.digest;
      }
      if r.SessionLost? {
        err := Some(Lost(r.loss));
      } else if !r.report.ok {
        err := Some(EdgeFailed(if r.report.errMsg == "" then "execution failed on edge" else r.report.errMsg));
      } else {
        err := None;
      }
    }

    // The deferred cleanup of Execute.
    method EndExecute(server: ServerName, id: ExecId)
      modifies this`servers
      ensures server !in old(servers) ==> servers == old(servers)
      ensures server in old(servers) ==> servers == old(servers)[server := Ended(old(servers)[server], id)]
    {
      if server in servers {
        servers := servers[server := servers[server].(inflight := servers[server].inflight - {id})];
      }
    }
  }

  lemma {:induction false} SettleOneMore(st: ServerState, ids: set<ExecId>, id: ExecId, r: ExecResult)
    requires id in st.inflight
    ensures var one := SettleIds(st, ids, r);
      var t := st.inflight[id];
      SettleIds(st, ids + {id}, r) ==
      if t in st.chans then one.(chans := one.chans[t := Settled(one.chans[t], r)]) else one
  {
    var one := SettleIds(st, ids, r);
    var t := st.inflight[id];
    if t in st.chans {
      assert SettleIds(st, ids + {id}, r).chans == one.chans[t := Settled(one.chans[t], r)];
    } else {
      assert SettleIds(st, ids + {id}, r).chans == one.chans;
    }
  }
}

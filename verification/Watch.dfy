/** internal/edgewatch/watcher.go: reporting edges that stop answering. A clock reading is a
    number of milliseconds; thresholds and durations are in milliseconds. */
module Watch {
  import opened Wrappers

  type Name = nat

  datatype EdgeInfo = EdgeInfo(version: nat, connectedAt: int)

  // What is known of one server; version None stands for the empty string.
  datatype ServerState = ServerState(lastSeen: int, version: Option<nat>, alerted: bool) {
    // How long an absence that has ended lasted. The attach time counts only inside the window
    // that was observed.
    function Outage(info: EdgeInfo, now: int): (d: int)
      ensures lastSeen <= now ==> 0 <= d <= now - lastSeen
    {
      var back := if info.connectedAt < lastSeen || now < info.connectedAt then now else info.connectedAt;
      back - lastSeen
    }
  }

  datatype Report =
    | Offline(version: Option<nat>, down: int)
    | Online(version: Option<nat>, down: int)

  // What one sample does to one declared remote server.
  function Sampled(known: Option<ServerState>, info: Option<EdgeInfo>, now: int, threshold: int): (ServerState,
                   Option<Report>) {
    var st := if known.Some? then known.value else ServerState(now, None, false);
    if info.Some? then
      (ServerState(now, Some(info.value.version), false),
       if st.alerted then Some(Online(Some(info.value.version), st.Outage(info.value, now))) else None)
    else if st.alerted || threshold <= 0 || now - st.lastSeen < threshold then (st, None)
    else (st.(alerted := true), Some(Offline(st.version, now - st.lastSeen)))
  }

  ghost function Looked<V>(m: map<Name, V>, name: Name): Option<V> {
    if name in m then Some(m[name]) else None
  }

  // The sample has been applied to a server: its new state and its report, if any.
  ghost predicate Judged(before: map<Name, ServerState>, state: map<Name, ServerState>, reports: map<Name, Report>,
                         name: Name, attached: map<Name, EdgeInfo>, now: int, threshold: int) {
    && name in state
    && (state[name], Looked(reports, name)) == Sampled(Looked(before, name), Looked(attached, name), now, threshold)
  }

  // Judging another server does not change what was found about this one.
  lemma {:induction false} StillJudged(before: map<Name, ServerState>, state: map<Name, ServerState>,
          reports: map<Name, Report>, state': map<Name, ServerState>, reports': map<Name, Report>,
          name: Name, attached: map<Name, EdgeInfo>, now: int, threshold: int)
    requires Judged(before, state, reports, name, attached, now, threshold)
    requires Looked(state', name) == Looked(state, name) && Looked(reports', name) == Looked(reports, name)
    ensures Judged(before, state', reports', name, attached, now, threshold)
  {
  }

  class Watcher {
    var state: map<Name, ServerState>

    constructor ()
      ensures state == map[]
    {
      state := map[];
    }

    method Visit(name: Name, info: Option<EdgeInfo>, now: int, threshold: int) returns (report: Option<Report>)
      modifies this
      ensures name in state && state == old(state)[name := state[name]]
      ensures (state[name], report) == Sampled(Looked(old(state), name), info, now, threshold)
    {
      var st := if name in state then state[name] else ServerState(now, None, false);
      report := None;
      if info.Some? {
        if st.alerted {
          report := Some(Online(Some(info.value.version), st.Outage(info.value, now)));
        }
        st := ServerState(now, Some(info.value.version), false);
      } else if !st.alerted && threshold > 0 && now - st.lastSeen >= threshold {
        report := Some(Offline(st.version, now - st.lastSeen));
        st := st.(alerted := true);
      }
      state := state[name := st];
    }

    // One sample: each declared remote server is judged on its own, the others are forgotten.
    // `servers` says of each declared server whether main runs it itself. A server is visited
    // once, so it has at most one report.
    method Tick(servers: map<Name, bool>, attached: map<Name, EdgeInfo>, now: int, threshold: int)
      returns (reports: map<Name, Report>)
      modifies this
      ensures state.Keys == set n | n in servers && !servers[n]
      ensures forall n :: n in servers && !servers[n] ==> Judged(old(state), state, reports, n, attached, now, threshold)
      ensures forall n :: n in reports ==> n in servers && !servers[n]
    {
      reports := map[];
      var todo := servers.Keys;
      while todo != {}
        invariant todo <= servers.Keys
        invariant forall n :: n in todo ==> Looked(state, n) == Looked(old(state), n) && n !in reports
        invariant forall n :: n in servers.Keys - todo && !servers[n] ==>
          Judged(old(state), state, reports, n, attached, now, threshold)
        invariant forall n :: n in reports ==> n in servers && !servers[n]
        decreases |todo|
      {
        var name :| name in todo;
        ghost var done, stateWas, reportsWere := servers.Keys - todo, state, reports;
        todo := todo - {name};
        if !servers[name] {
          var report := Visit(name, if name in attached then Some(attached[name]) else None, now, threshold);
          if report.Some? {
            reports := reports[name := report.value];
          }
        }
        forall n | n in done && !servers[n]
          ensures Judged(old(state), state, reports, n, attached, now, threshold)
        {
          StillJudged(old(state), stateWas, reportsWere, state, reports, n, attached, now, threshold);
        }
      }
      state := map n | n in state && n in servers && !servers[n] :: state[n];
    }
  }

  // ---- one server over many samples, declared throughout ----

  datatype Sample = Sample(now: int, info: Option<EdgeInfo>, threshold: int)

  ghost function After(samples: seq<Sample>): Option<ServerState> {
    if samples == [] then None
    else
      var s := samples[|samples| - 1];
      Some(Sampled(After(samples[..|samples| - 1]), s.info, s.now, s.threshold).0)
  }

  // The report of sample k, if it makes one.
  ghost function ReportAt(samples: seq<Sample>, k: nat): Option<Report>
    requires k < |samples|
  {
    Sampled(After(samples[..k]), samples[k].info, samples[k].now, samples[k].threshold).1
  }

  ghost predicate Ordered(samples: seq<Sample>) {
    forall i, j :: 0 <= i <= j < |samples| ==> samples[i].now <= samples[j].now
  }

  // The last of the first k samples that saw the server attached, or -1.
  ghost function LastUp(samples: seq<Sample>, k: nat): (u: int)
    requires k <= |samples|
    ensures -1 <= u < k
    ensures u >= 0 ==> samples[u].info.Some?
    ensures forall j :: u < j < k ==> samples[j].info.None?
  {
    if k == 0 then -1 else if samples[k - 1].info.Some? then k - 1 else LastUp(samples, k - 1)
  }

  // When the server was last seen as of sample k: at the last sample that saw it, or when
  // watching began.
  ghost function SeenAt(samples: seq<Sample>, k: nat): int
    requires 0 < k <= |samples|
  {
    var u := LastUp(samples, k);
    if u >= 0 then samples[u].now else samples[0].now
  }

  ghost function SeenVersion(samples: seq<Sample>, k: nat): Option<nat>
    requires k <= |samples|
  {
    var u := LastUp(samples, k);
    if u >= 0 then Some(samples[u].info.value.version) else None
  }

  ghost predicate IsOffline(samples: seq<Sample>, k: int) {
    0 <= k < |samples| && ReportAt(samples, k).Some? && ReportAt(samples, k).value.Offline?
  }

  ghost predicate IsOnline(samples: seq<Sample>, k: int) {
    0 <= k < |samples| && ReportAt(samples, k).Some? && ReportAt(samples, k).value.Online?
  }

  // An outage was announced since the server was last seen.
  ghost predicate Announced(samples: seq<Sample>, k: nat)
    requires k <= |samples|
  {
    exists j :: LastUp(samples, k) < j < k && IsOffline(samples, j)
  }

  lemma {:induction false} StateMeans(samples: seq<Sample>, k: nat)
    requires 0 < k <= |samples|
    ensures var st := After(samples[..k]);
      && st.Some? && st.value.lastSeen == SeenAt(samples, k) && st.value.version == SeenVersion(samples, k)
      && (st.value.alerted <==> Announced(samples, k))
  {
    assert samples[..k][..k - 1] == samples[..k - 1] && samples[..k][k - 1] == samples[k - 1];
    if k > 1 {
      StateMeans(samples, k - 1);
    } else {
      assert samples[..0] == [];
    }
    if samples[k - 1].info.None? {
      if IsOffline(samples, k - 1) {
        assert Announced(samples, k);
      }
      if k > 1 && Announced(samples, k - 1) {
        var j :| LastUp(samples, k - 1) < j < k - 1 && IsOffline(samples, j);
        assert Announced(samples, k);
      }
    }
  }

  // One sample of a server that is known.
  lemma ReportOf(st: ServerState, info: Option<EdgeInfo>, now: int, threshold: int)
    ensures var r := Sampled(Some(st), info, now, threshold).1;
      && (r.Some? && r.value.Offline? <==>
            info.None? && !st.alerted && threshold > 0 && now - st.lastSeen >= threshold)
      && (r.Some? && r.value.Offline? ==> r.value == Offline(st.version, now - st.lastSeen))
      && (r.Some? && r.value.Online? <==> info.Some? && st.alerted)
      && (r.Some? && r.value.Online? ==> r.value == Online(Some(info.value.version), st.Outage(info.value, now)))
  {}

  // An outage is reported at the first sample at which the server has been absent from every
  // sample since it was last seen for at least the threshold, and only then.
  lemma OfflineExactly(samples: seq<Sample>, k: nat)
    requires 0 < k < |samples|
    ensures IsOffline(samples, k) <==>
      && samples[k].info.None?
      && samples[k].threshold > 0 && samples[k].now - SeenAt(samples, k) >= samples[k].threshold
      && !Announced(samples, k)
    ensures IsOffline(samples, k) ==> ReportAt(samples, k).value.down == samples[k].now - SeenAt(samples, k)
    ensures IsOffline(samples, k) ==> forall j :: LastUp(samples, k) < j <= k ==> samples[j].info.None?
  {
    StateMeans(samples, k);
    ReportOf(After(samples[..k]).value, samples[k].info, samples[k].now, samples[k].threshold);
  }

  // It names the version the edge had when it was last seen.
  lemma OfflineNamesVersion(samples: seq<Sample>, k: nat)
    requires 0 < k < |samples| && IsOffline(samples, k)
    ensures ReportAt(samples, k).value.version == SeenVersion(samples, k)
  {
    StateMeans(samples, k);
    ReportOf(After(samples[..k]).value, samples[k].info, samples[k].now, samples[k].threshold);
  }

  // An all-clear is reported exactly when the server is back after an announced outage. The
  // outage lasted until the edge attached, if that lies between the sample that saw it last
  // and this one, and until this sample otherwise.
  lemma OnlineExactly(samples: seq<Sample>, k: nat)
    requires 0 < k < |samples|
    ensures IsOnline(samples, k) <==> samples[k].info.Some? && Announced(samples, k)
    ensures IsOnline(samples, k) ==>
      var attached, seen, now := samples[k].info.value.connectedAt, SeenAt(samples, k), samples[k].now;
      && ReportAt(samples, k).value.version == Some(samples[k].info.value.version)
      && (seen <= attached <= now ==> seen + ReportAt(samples, k).value.down == attached)
      && (attached < seen || now < attached ==> seen + ReportAt(samples, k).value.down == now)
    ensures IsOnline(samples, k) && Ordered(samples) ==>
      0 <= ReportAt(samples, k).value.down <= samples[k].now - SeenAt(samples, k)
  {
    StateMeans(samples, k);
    ReportOf(After(samples[..k]).value, samples[k].info, samples[k].now, samples[k].threshold);
  }

  lemma NothingAtFirst(samples: seq<Sample>)
    requires |samples| > 0
    ensures ReportAt(samples, 0).None?
  {
    assert samples[..0] == [];
  }

  // Between two reports of an outage there is an all-clear.
  lemma OfflineThenOnline(samples: seq<Sample>, i: nat, k: nat)
    requires i < k < |samples| && IsOffline(samples, i) && IsOffline(samples, k)
    ensures exists m :: i < m < k && IsOnline(samples, m)
  {
    OfflineExactly(samples, k);
    var u := LastUp(samples, k);
    if i == 0 {
      NothingAtFirst(samples);
    }
    OfflineExactly(samples, i);
    assert i < u;
    var m := FirstUpAfter(samples, i, u);
    AnnouncedUntil(samples, i, m);
    OnlineExactly(samples, m);
  }

  // Before every all-clear an outage was reported, with no all-clear in between.
  lemma OnlineAfterOffline(samples: seq<Sample>, k: nat)
    requires k < |samples| && IsOnline(samples, k)
    ensures exists j :: 0 <= j < k && IsOffline(samples, j) && forall m :: j < m < k ==> !IsOnline(samples, m)
  {
    if k == 0 {
      NothingAtFirst(samples);
    } else {
      OnlineExactly(samples, k);
      var j :| LastUp(samples, k) < j < k && IsOffline(samples, j);
      forall m | j < m < k ensures !IsOnline(samples, m) {
        OnlineExactly(samples, m);
      }
    }
  }

  lemma {:induction false} FirstUpAfter(samples: seq<Sample>, i: nat, u: nat) returns (m: nat)
    requires i < u < |samples| && samples[u].info.Some?
    ensures i < m <= u && samples[m].info.Some? && forall j :: i < j < m ==> samples[j].info.None?
    decreases u - i
  {
    m := i + 1;
    while samples[m].info.None?
      invariant i < m <= u && forall j :: i < j < m ==> samples[j].info.None?
      decreases u - m
    {
      m := m + 1;
    }
  }

  lemma AnnouncedUntil(samples: seq<Sample>, i: nat, m: nat)
    requires 0 < i < m < |samples| && IsOffline(samples, i)
    requires forall j :: i < j < m ==> samples[j].info.None?
    ensures Announced(samples, m)
  {
    OfflineExactly(samples, i);
    assert LastUp(samples, m) < i;
  }

  // No duration is negative.
  lemma DurationsBounded(samples: seq<Sample>, k: nat)
    requires k < |samples| && Ordered(samples) && ReportAt(samples, k).Some?
    ensures k > 0 && 0 <= ReportAt(samples, k).value.down <= samples[k].now - SeenAt(samples, k)
  {
    if k == 0 {
      NothingAtFirst(samples);
    } else {
      OfflineExactly(samples, k);
      OnlineExactly(samples, k);
    }
  }
}

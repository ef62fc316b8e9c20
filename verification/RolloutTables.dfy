/** The tables a rollout works on, and that its steps do to them what the store's operations do:
    the same write, once as a step between reads of other goroutines and once as a statement. */
module RolloutTables {
  import opened Model
  import opened Store
  import R = Rollout

  // What the database holds in this state of the rollout of deploy d. Of an execution only the
  // status matters here: error, started_at and finished_at are read by no operation.
  ghost function TablesOf(c: R.Config, s: R.State, d: DeployId, service: Service): Tables {
    Tables(map[d := DeployRow(service, s.row.digest, s.row.status, s.row.finished)], ExecRows(c, s.execs.status, d), [d])
  }

  ghost function ExecRows(c: R.Config, status: map<ExecId, Status>, d: DeployId): map<ExecId, ExecRow> {
    map id | id in status ::
      ExecRow(d, if id in c.waveOf then c.waveOf[id] else 0, status[id], "",
              !status[id].Queued? && !status[id].Dispatching?, status[id].Terminal())
  }

  lemma {:induction false} StatusesAre(c: R.Config, s: R.State, d: DeployId, service: Service)
    ensures TablesOf(c, s, d, service).StatusesOf(d) == s.execs.status.Values
  {
    var t := TablesOf(c, s, d, service);
    forall st
      ensures st in t.StatusesOf(d) <==> st in s.execs.status.Values
    {
      if st in s.execs.status.Values {
        var id :| id in s.execs.status && s.execs.status[id] == st;
        assert t.execs[id].status == st;
      }
    }
  }

  // A rollout's recompute that nobody comes between is the store's.
  lemma {:induction false} WriteIsRecompute(c: R.Config, s: R.State, d: DeployId, service: Service)
    ensures TablesOf(c, R.WriteAggregate(s, s.execs.status), d, service) == Recompute(TablesOf(c, s, d, service), d)
  {
    StatusesAre(c, s, d, service);
    var t, w := TablesOf(c, s, d, service), R.WriteAggregate(s, s.execs.status);
    assert w.execs == s.execs;
    assert RolloutOver(t, d) <==> R.Settles(s.execs.status);
    assert RecomputedRow(t, d, t.deploys[d]) == DeployRow(service, w.row.digest, w.row.status, w.row.finished);
  }

  // Recording a promoted digest is SetDeployDigest; without one nothing is written.
  lemma {:induction false} PromotionIsSetDigest(c: R.Config, s: R.State, resolved: Digest, d: DeployId, service: Service)
    ensures TablesOf(c, R.PromoteDigest(s, resolved), d, service) ==
            if resolved.Unresolved? || resolved == s.digest then TablesOf(c, s, d, service)
            else DigestSet(TablesOf(c, s, d, service), d, resolved)
  {
  }

  ghost function StatusColumn(t: Tables): map<ExecId, Status> {
    map id | id in t.execs :: t.execs[id].status
  }

  // A rollout's compare-and-set is TransitionExecution: it wins on the same rows and writes
  // the same statuses.
  lemma {:induction false} CompareAndSetIsTransition(c: R.Config, s: R.State, d: DeployId, service: Service,
          id: ExecId, from: Status, to: Status, errMsg: string)
    ensures var t := TablesOf(c, s, d, service);
      && (Wins(t, id, from) <==> id in s.execs.status && s.execs.status[id] == from)
      && StatusColumn(TransitionedIn(t, id, from, to, errMsg)) == R.CompareAndSet(s.execs.status, id, from, to)
  {
    var t := TablesOf(c, s, d, service);
    ColumnIs(c, s, d, service);
    if Wins(t, id, from) {
      ColumnSet(t, id, Transitioned(t.execs[id], to, errMsg));
      assert Transitioned(t.execs[id], to, errMsg).status == to;
    }
  }

  lemma {:induction false} ColumnIs(c: R.Config, s: R.State, d: DeployId, service: Service)
    ensures StatusColumn(TablesOf(c, s, d, service)) == s.execs.status
  {
  }

  lemma {:induction false} ColumnSet(t: Tables, id: ExecId, r: ExecRow)
    ensures StatusColumn(t.(execs := t.execs[id := r])) == StatusColumn(t)[id := r.status]
  {
  }
}

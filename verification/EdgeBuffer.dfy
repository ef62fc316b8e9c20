/** The edge's result buffer over any sequence of results and acknowledgements
    (internal/edge/agent.go:259-354): it is in the order in which its results came, and what
    it drops when it is full is what it has held longest. */
module EdgeBuffer {
  import opened Model
  import opened Wrappers
  import opened EdgeHub
  import opened EdgeAgent

  // The buffered executions, in order.
  ghost function Ids(pending: seq<PendingDone>): seq<ExecId> {
    seq(|pending|, k requires 0 <= k < |pending| => pending[k].id)
  }

  lemma IdsElements(pending: seq<PendingDone>, id: ExecId)
    ensures id in Ids(pending) <==> id in IdsOf(pending)
  {
    if id in Ids(pending) {
      var k :| 0 <= k < |pending| && Ids(pending)[k] == id;
      assert pending[k] in pending;
    }
    if id in IdsOf(pending) {
      var k :| 0 <= k < |pending| && pending[k].id == id;
      assert Ids(pending)[k] == id;
    }
  }

  ghost function Without(ids: seq<ExecId>, id: ExecId): seq<ExecId> {
    if ids == [] then [] else (if ids[0] == id then [] else [ids[0]]) + Without(ids[1..], id)
  }

  lemma {:induction false} WithoutAbsent(ids: seq<ExecId>, id: ExecId)
    requires id !in ids
    ensures Without(ids, id) == ids
  {
    if ids != [] {
      WithoutAbsent(ids[1..], id);
    }
  }

  lemma {:induction false} WithoutOnly(left: seq<ExecId>, id: ExecId, right: seq<ExecId>)
    requires id !in left && id !in right
    ensures Without(left + [id] + right, id) == left + right
  {
    if left == [] {
      assert left + [id] + right == [id] + right;
      WithoutAbsent(right, id);
      assert ([id] + right)[1..] == right;
    } else {
      var all := left + [id] + right;
      assert all[1..] == left[1..] + [id] + right;
      WithoutOnly(left[1..], id, right);
    }
  }

  // A result of an execution that has one keeps its place; another one comes last, and if the
  // buffer is full the first makes room for it.
  lemma {:induction false} NewestLast(pending: seq<PendingDone>, cap: nat, id: ExecId, report: Report)
    requires cap > 0 && |pending| <= cap
    ensures var ids, after := Ids(pending), Ids(Buffered(pending, cap, id, report));
      after == if id in ids then ids else if |ids| == cap then ids[1..] + [id] else ids + [id]
    ensures var ids := Ids(pending);
      Evicted(pending, cap, id) == if id !in ids && |ids| == cap then Some(ids[0]) else None
  {
    var i := IndexOf(pending, id);
    if i < |pending| {
      assert Ids(pending)[i] == id;
    } else {
      assert id !in Ids(pending);
    }
  }

  // The result in the buffer is the one that came last.
  lemma {:induction false} OthersKept(pending: seq<PendingDone>, cap: nat, id: ExecId, report: Report, p: PendingDone)
    requires cap > 0 && |pending| <= cap && DistinctIds(pending) && p in Buffered(pending, cap, id, report)
    ensures if p.id == id then p.report == report else p in pending
  {
    BufferedKeeps(pending, cap, id, report);
  }

  // An acknowledged result leaves; the others close up.
  lemma {:induction false} AckedLeaves(pending: seq<PendingDone>, id: ExecId)
    requires DistinctIds(pending)
    ensures Ids(Acked(pending, id)) == Without(Ids(pending), id)
  {
    var i := IndexOf(pending, id);
    if i < |pending| {
      var left, right := Ids(pending[..i]), Ids(pending[i + 1..]);
      assert Ids(pending) == left + [id] + right;
      assert Ids(Acked(pending, id)) == left + right;
      WithoutOnly(left, id, right);
    } else {
      assert id !in Ids(pending);
      WithoutAbsent(Ids(pending), id);
    }
  }

  // ---- runs ----

  datatype Action = Buffer(id: ExecId, report: Report) | Ack(id: ExecId)

  ghost function Apply(pending: seq<PendingDone>, cap: nat, a: Action): seq<PendingDone> {
    match a
    case Buffer(id, report) => Buffered(pending, cap, id, report)
    case Ack(id) => Acked(pending, id)
  }

  ghost predicate Run(run: seq<seq<PendingDone>>, cap: nat, actions: seq<Action>) {
    && |run| == |actions| + 1 && run[0] == []
    && forall i :: 0 <= i < |actions| ==> run[i + 1] == Apply(run[i], cap, actions[i])
  }

  lemma {:induction false} RunKeeps(run: seq<seq<PendingDone>>, cap: nat, actions: seq<Action>, i: nat)
    requires Run(run, cap, actions) && cap > 0 && i < |run|
    ensures DistinctIds(run[i]) && |run[i]| <= cap
  {
    if i > 0 {
      RunKeeps(run, cap, actions, i - 1);
      assert run[i - 1 + 1] == Apply(run[i - 1], cap, actions[i - 1]);
      match actions[i - 1] {
        case Buffer(id, report) => BufferedKeeps(run[i - 1], cap, id, report);
        case Ack(id) => AckedKeeps(run[i - 1], id);
      }
    }
  }

  // The execution is in the buffer now and has been since step j, and was not before.
  ghost predicate HeldSince(run: seq<seq<PendingDone>>, i: nat, id: ExecId, j: nat) {
    && 0 < j <= i < |run| && id !in Ids(run[j - 1])
    && forall k :: j <= k <= i ==> id in Ids(run[k])
  }

  lemma {:induction false} HeldSinceSome(run: seq<seq<PendingDone>>, cap: nat, actions: seq<Action>, i: nat,
          id: ExecId) returns (j: nat)
    requires Run(run, cap, actions) && i < |run| && id in Ids(run[i])
    ensures HeldSince(run, i, id, j)
  {
    assert i > 0;
    if id in Ids(run[i - 1]) {
      j := HeldSinceSome(run, cap, actions, i - 1, id);
    } else {
      j := i;
    }
  }

  ghost predicate Precedes(ids: seq<ExecId>, a: ExecId, b: ExecId) {
    exists p, q :: 0 <= p < q < |ids| && ids[p] == a && ids[q] == b
  }

  lemma {:induction false} WithoutKeepsOrder(ids: seq<ExecId>, id: ExecId, a: ExecId, b: ExecId)
    requires Precedes(Without(ids, id), a, b)
    ensures Precedes(ids, a, b)
  {
    var rest := Without(ids[1..], id);
    var p, q :| 0 <= p < q < |Without(ids, id)| && Without(ids, id)[p] == a && Without(ids, id)[q] == b;
    if ids[0] != id && p == 0 {
      assert rest[q - 1] == b;
      WithoutElements(ids[1..], id, b);
      var k :| 0 <= k < |ids[1..]| && ids[1..][k] == b;
      assert ids[k + 1] == b;
    } else {
      var d := if ids[0] == id then 0 else 1;
      assert rest[p - d] == a && rest[q - d] == b;
      WithoutKeepsOrder(ids[1..], id, a, b);
      var m, n :| 0 <= m < n < |ids[1..]| && ids[1..][m] == a && ids[1..][n] == b;
      assert ids[m + 1] == a && ids[n + 1] == b;
    }
  }

  lemma {:induction false} WithoutElements(ids: seq<ExecId>, id: ExecId, x: ExecId)
    requires x in Without(ids, id)
    ensures x in ids
  {
    if ids[0] != x {
      WithoutElements(ids[1..], id, x);
    }
  }

  lemma {:induction false} AppendKeepsOrder(ids: seq<ExecId>, d: nat, id: ExecId, a: ExecId, b: ExecId)
    requires d <= |ids| && id !in ids && Precedes(ids[d..] + [id], a, b)
    ensures a in ids
    ensures b in ids ==> Precedes(ids, a, b)
  {
    var after := ids[d..] + [id];
    var p, q :| 0 <= p < q < |after| && after[p] == a && after[q] == b;
    assert ids[p + d] == a;
    if b in ids {
      assert q < |after| - 1 && ids[q + d] == b;
    }
  }

  // One step: what was there keeps its order, and nothing new stands before anything.
  lemma {:induction false} StepKeepsOrder(pending: seq<PendingDone>, cap: nat, action: Action, a: ExecId, b: ExecId)
    requires cap > 0 && |pending| <= cap && DistinctIds(pending)
    requires Precedes(Ids(Apply(pending, cap, action)), a, b)
    ensures a in Ids(pending)
    ensures b in Ids(pending) ==> Precedes(Ids(pending), a, b)
  {
    var ids := Ids(pending);
    match action {
      case Buffer(id, report) =>
        NewestLast(pending, cap, id, report);
        if id !in ids {
          AppendKeepsOrder(ids, if |ids| == cap then 1 else 0, id, a, b);
        }
      case Ack(id) =>
        AckedLeaves(pending, id);
        WithoutKeepsOrder(ids, id, a, b);
        assert a in ids;
    }
  }

  lemma {:induction false} RunStep(run: seq<seq<PendingDone>>, cap: nat, actions: seq<Action>, i: nat, a: ExecId, b: ExecId)
    requires Run(run, cap, actions) && cap > 0 && 0 < i < |run| && Precedes(Ids(run[i]), a, b)
    ensures a in Ids(run[i - 1])
    ensures b in Ids(run[i - 1]) ==> Precedes(Ids(run[i - 1]), a, b)
  {
    RunKeeps(run, cap, actions, i - 1);
    assert run[i - 1 + 1] == Apply(run[i - 1], cap, actions[i - 1]);
    StepKeepsOrder(run[i - 1], cap, actions[i - 1], a, b);
  }

  lemma {:induction false} HeldBefore(run: seq<seq<PendingDone>>, i: nat, id: ExecId, j: nat)
    requires HeldSince(run, i, id, j)
    ensures if id in Ids(run[i - 1]) then j < i && HeldSince(run, i - 1, id, j) else j == i
  {
  }

  // Over any sequence of results and acknowledgements: what stands before something else in
  // the buffer has been held for longer.
  lemma {:induction false} InOrderOfArrival(run: seq<seq<PendingDone>>, cap: nat, actions: seq<Action>, i: nat,
          a: ExecId, b: ExecId, since: nat, later: nat)
    requires Run(run, cap, actions) && cap > 0 && i < |run| && Precedes(Ids(run[i]), a, b)
    requires HeldSince(run, i, a, since) && HeldSince(run, i, b, later)
    ensures since < later
    decreases i
  {
    RunStep(run, cap, actions, i, a, b);
    HeldBefore(run, i, a, since);
    HeldBefore(run, i, b, later);
    if b in Ids(run[i - 1]) {
      InOrderOfArrival(run, cap, actions, i - 1, a, b, since, later);
    }
  }

  // A result is dropped only when the buffer is full and another execution's result comes, and
  // it is the one that has been held longest.
  lemma {:induction false} OldestIsDropped(run: seq<seq<PendingDone>>, cap: nat, actions: seq<Action>, i: nat,
          id: ExecId, dropped: ExecId, other: ExecId, since: nat, later: nat)
    requires Run(run, cap, actions) && cap > 0 && i < |run| && Evicted(run[i], cap, id) == Some(dropped)
    requires HeldSince(run, i, dropped, since) && HeldSince(run, i, other, later) && other != dropped
    ensures |run[i]| == cap && id !in Ids(run[i])
    ensures since < later
  {
    RunKeeps(run, cap, actions, i);
    NewestLast(run[i], cap, id, Report(true, "", Unresolved));
    var ids := Ids(run[i]);
    var q :| 0 <= q < |ids| && ids[q] == other;
    assert Precedes(ids, dropped, other);
    InOrderOfArrival(run, cap, actions, i, dropped, other, since, later);
  }
}

/** internal/edge/agent.go: what an edge keeps of its executions (the running ones and the
    results main has not acknowledged) and how it delivers results. */
module EdgeAgent {
  import opened Model
  import opened Wrappers
  import opened EdgeHub

  datatype PendingDone = PendingDone(id: ExecId, report: Report, attempts: nat)

  ghost function IdsOf(pending: seq<PendingDone>): set<ExecId> {
    set p | p in pending :: p.id
  }

  ghost predicate DistinctIds(pending: seq<PendingDone>) {
    forall i, j :: 0 <= i < j < |pending| ==> pending[i].id != pending[j].id
  }

  ghost predicate HasEntry(pending: seq<PendingDone>, id: ExecId, report: Report) {
    exists p :: p in pending && p.id == id && p.report == report
  }

  // The first buffered result of an execution; |pending| when there is none.
  function IndexOf(pending: seq<PendingDone>, id: ExecId): (i: nat)
    ensures i <= |pending|
    ensures i < |pending| ==> pending[i].id == id
    ensures forall k :: 0 <= k < i ==> pending[k].id != id
  {
    if pending == [] || pending[0].id == id then 0 else 1 + IndexOf(pending[1..], id)
  }

  // bufferDone: replace the result of the same execution, else append, dropping the oldest
  // when the buffer is full.
  function Buffered(pending: seq<PendingDone>, cap: nat, id: ExecId, report: Report): seq<PendingDone> {
    var i := IndexOf(pending, id);
    if i < |pending| then pending[i := pending[i].(report := report)]
    else (if |pending| >= cap && pending != [] then pending[1..] else pending) + [PendingDone(id, report, 0)]
  }

  function Evicted(pending: seq<PendingDone>, cap: nat, id: ExecId): Option<ExecId> {
    if IndexOf(pending, id) == |pending| && |pending| >= cap && pending != [] then Some(pending[0].id) else None
  }

  // ackDone.
  function Acked(pending: seq<PendingDone>, id: ExecId): seq<PendingDone> {
    var i := IndexOf(pending, id);
    if i < |pending| then pending[..i] + pending[i + 1..] else pending
  }

  lemma {:induction false} BufferedKeeps(pending: seq<PendingDone>, cap: nat, id: ExecId, report: Report)
    requires DistinctIds(pending) && |pending| <= cap && cap > 0
    ensures var after := Buffered(pending, cap, id, report);
      && DistinctIds(after) && |after| <= cap
      && IdsOf(after) == IdsOf(pending) + {id} - (if Evicted(pending, cap, id).Some? then {Evicted(pending, cap, id).value} else {})
      && (Evicted(pending, cap, id).Some? ==> Evicted(pending, cap, id).value in IdsOf(pending) && Evicted(pending, cap, id).value != id)
      && HasEntry(after, id, report)
      && (forall p :: p in after ==> (p.id == id && p.report == report) || (p in pending && p.id != id))
  {
    var i := IndexOf(pending, id);
    var after := Buffered(pending, cap, id, report);
    if i < |pending| {
      assert after[i].id == id;
      assert forall k :: 0 <= k < |pending| ==> after[k].id == pending[k].id;
      BufferedIds(pending, after);
      assert id in IdsOf(pending) by { assert pending[i] in pending; }
      assert after[i] in after;
      assert forall p :: p in after ==> exists k :: 0 <= k < |after| && after[k] == p;
    } else {
      assert id !in IdsOf(pending);
      var kept := if |pending| >= cap && pending != [] then pending[1..] else pending;
      assert after == kept + [PendingDone(id, report, 0)];
      assert after[|kept|] in after;
      if |pending| >= cap {
        assert pending == [pending[0]] + kept;
        assert IdsOf(pending) == {pending[0].id} + IdsOf(kept);
        assert forall p :: p in kept ==> p in pending;
        assert pending[0].id !in IdsOf(kept);
      }
      assert IdsOf(after) == IdsOf(kept) + {id};
    }
  }

  lemma {:induction false} BufferedIds(a: seq<PendingDone>, b: seq<PendingDone>)
    requires |a| == |b| && forall k :: 0 <= k < |a| ==> a[k].id == b[k].id
    ensures IdsOf(a) == IdsOf(b)
  {
    forall id | id in IdsOf(a)
      ensures id in IdsOf(b)
    {
      var k :| 0 <= k < |a| && a[k].id == id;
      assert b[k] in b;
    }
    forall id | id in IdsOf(b)
      ensures id in IdsOf(a)
    {
      var k :| 0 <= k < |b| && b[k].id == id;
      assert a[k] in a;
    }
  }

  lemma {:induction false} AckedKeeps(pending: seq<PendingDone>, id: ExecId)
    requires DistinctIds(pending)
    ensures DistinctIds(Acked(pending, id)) && |Acked(pending, id)| <= |pending|
    ensures IdsOf(Acked(pending, id)) == IdsOf(pending) - {id}
    ensures forall p :: p in Acked(pending, id) ==> p in pending
  {
    var i := IndexOf(pending, id);
    if i < |pending| {
      var left, right := pending[..i], pending[i + 1..];
      assert pending == left + [pending[i]] + right;
      WithoutOne(pending, i);
      IdsOfConcat(left, right);
      IdsOfConcat(left + [pending[i]], right);
      IdsOfConcat(left, [pending[i]]);
      AbsentId(left, id);
      AbsentId(right, id);
    } else {
      AbsentId(pending, id);
    }
  }

  lemma {:induction false} WithoutOne(pending: seq<PendingDone>, i: nat)
    requires DistinctIds(pending) && i < |pending|
    ensures DistinctIds(pending[..i] + pending[i + 1..])
    ensures forall p :: p in pending[..i] + pending[i + 1..] ==> p in pending
  {
    var rest := pending[..i] + pending[i + 1..];
    assert forall k :: 0 <= k < |rest| ==> rest[k] == pending[if k < i then k else k + 1];
  }

  lemma {:induction false} IdsOfConcat(a: seq<PendingDone>, b: seq<PendingDone>)
    ensures IdsOf(a + b) == IdsOf(a) + IdsOf(b)
  {
  }

  lemma {:induction false} AbsentId(pending: seq<PendingDone>, id: ExecId)
    requires forall k :: 0 <= k < |pending| ==> pending[k].id != id
    ensures id !in IdsOf(pending)
  {
  }

  class Agent {
    const pendingCap: nat
    var running: set<ExecId>
    var pending: seq<PendingDone>
    var current: Option<SessionId>     // the session results go out on

    ghost predicate Valid()
      reads this
    {
      pendingCap > 0 && DistinctIds(pending) && |pending| <= pendingCap
    }

    constructor (cap: nat)
      requires cap > 0
      ensures Valid() && pendingCap == cap && running == {} && pending == [] && current == None
    {
      pendingCap := cap;
      running, pending, current := {}, [], None;
    }

    // The ids to claim when dialing: everything running and everything buffered, without repeats.
    method InflightIDs() returns (out: seq<ExecId>)
      requires Valid()
      ensures forall id :: id in out <==> id in running || id in IdsOf(pending)
      ensures forall i, j :: 0 <= i < j < |out| ==> out[i] != out[j]
    {
      out := [];
      var todo := running;
      while todo != {}
        invariant todo <= running
        invariant forall id :: id in out <==> id in running - todo
        invariant forall i, j :: 0 <= i < j < |out| ==> out[i] != out[j]
        decreases todo
      {
        var id :| id in todo;
        assert id !in out;
        out := out + [id];
        todo := todo - {id};
      }
      var i := 0;
      while i < |pending|
        invariant 0 <= i <= |pending|
        invariant forall id :: id in out <==> id in running || id in IdsOf(pending[..i])
        invariant forall k, l :: 0 <= k < l < |out| ==> out[k] != out[l]
      {
        assert pending[..i + 1] == pending[..i] + [pending[i]];
        assert IdsOf(pending[..i + 1]) == IdsOf(pending[..i]) + {pending[i].id};
        if pending[i].id !in running {
          assert pending[i].id !in IdsOf(pending[..i]);
          out := out + [pending[i].id];
        }
        i := i + 1;
      }
      assert pending[..|pending|] == pending;
    }

    // An execution that is running is not launched twice.
    method Start(id: ExecId) returns (launched: bool)
      modifies this`running
      ensures launched <==> id !in old(running)
      ensures running == old(running) + {id}
    {
      if id in running {
        assert running + {id} == running;
        return false;
      }
      running := running + {id};
      return true;
    }

    method Finish(id: ExecId)
      modifies this`running
      ensures running == old(running) - {id}
    {
      running := running - {id};
    }

    method BufferDone(id: ExecId, report: Report) returns (dropped: Option<ExecId>)
      requires Valid()
      modifies this`pending
      ensures Valid()
      ensures pending == Buffered(old(pending), pendingCap, id, report)
      ensures dropped == Evicted(old(pending), pendingCap, id)
    {
      BufferedKeeps(pending, pendingCap, id, report);
      var i := 0;
      while i < |pending|
        invariant 0 <= i <= |pending| && pending == old(pending)
        invariant forall k :: 0 <= k < i ==> pending[k].id != id
      {
        if pending[i].id == id {
          assert i == IndexOf(pending, id);
          pending := pending[i := pending[i].(report := report)];
          return None;
        }
        i := i + 1;
      }
      assert IndexOf(pending, id) == |pending|;
      dropped := None;
      if |pending| >= pendingCap {
        dropped := Some(pending[0].id);
        pending := pending[1..];
      }
      pending := pending + [PendingDone(id, report, 0)];
    }

    method AckDone(id: ExecId)
      requires Valid()
      modifies this`pending
      ensures Valid() && pending == Acked(old(pending), id)
    {
      AckedKeeps(pending, id);
      var i := 0;
      while i < |pending|
        invariant 0 <= i <= |pending| && pending == old(pending)
        invariant forall k :: 0 <= k < i ==> pending[k].id != id
      {
        if pending[i].id == id {
          assert i == IndexOf(pending, id);
          pending := pending[..i] + pending[i + 1..];
          return;
        }
        i := i + 1;
      }
      assert IndexOf(pending, id) == |pending|;
    }

    // flushResults: from the oldest result on, as long as reports succeed. acks says which
    // calls of ReportDone do.
    method FlushResults(acks: seq<bool>) returns (taken: seq<PendingDone>)
      requires Valid() && |acks| >= |pending|
      modifies this`pending
      ensures Valid()
      ensures current.None? ==> taken == [] && pending == old(pending)
      ensures current.Some? ==> |taken| == Leading(acks[..|old(pending)|])
      ensures |taken| <= |old(pending)|
      ensures SameResults(taken, old(pending)[..|taken|]) && SameResults(pending, old(pending)[|taken|..])
    {
      taken := [];
      while pending != [] && current.Some?
        invariant Valid() && |taken| <= |old(pending)|
        invariant SameResults(taken, old(pending)[..|taken|]) && SameResults(pending, old(pending)[|taken|..])
        invariant forall j :: 0 <= j < |taken| ==> acks[j]
        invariant current.None? ==> taken == [] && pending == old(pending)
        decreases |pending|
      {
        var k := |taken|;
        ghost var before := pending;
        var acked := FlushOne(acks[k]);
        if acked.None? {
          SameTrans(pending, before, old(pending)[k..]);
          LeadingIs(acks[..|old(pending)|], k);
          return;
        }
        taken := taken + [acked.value];
        SameNext(pending, before, old(pending), k);
      }
      if current.Some? {
        LeadingIs(acks[..|old(pending)|], |taken|);
      }
    }

    // One round of flushResults: count the attempt, report the head, and drop it once main
    // has taken it.
    method FlushOne(ack: bool) returns (acked: Option<PendingDone>)
      requires Valid() && pending != []
      modifies this`pending
      ensures Valid()
      ensures acked.None? <==> !ack
      ensures acked.None? ==> SameResults(pending, old(pending))
      ensures acked.Some? ==> acked.value.id == old(pending)[0].id && acked.value.report == old(pending)[0].report
      ensures acked.Some? ==> SameResults(pending, old(pending)[1..])
    {
      pending := pending[0 := pending[0].(attempts := pending[0].attempts + 1)];
      if !ack {
        return None;
      }
      var p := pending[0];
      assert IndexOf(pending, p.id) == 0;
      AckDone(p.id);
      return Some(p);
    }
  }

  lemma {:induction false} SameNext(now: seq<PendingDone>, before: seq<PendingDone>, all: seq<PendingDone>, k: nat)
    requires k < |all| && SameResults(before, all[k..]) && before != [] && SameResults(now, before[1..])
    ensures SameResults(now, all[k + 1..])
  {
  }

  lemma {:induction false} SameTrans(a: seq<PendingDone>, b: seq<PendingDone>, c: seq<PendingDone>)
    requires SameResults(a, b) && SameResults(b, c)
    ensures SameResults(a, c)
  {
  }

  // The same results in the same order, whatever the attempt counters say.
  ghost predicate SameResults(a: seq<PendingDone>, b: seq<PendingDone>) {
    |a| == |b| && forall k :: 0 <= k < |a| ==> a[k].id == b[k].id && a[k].report == b[k].report
  }

  // How many of the answers come before the first refusal.
  ghost function Leading(acks: seq<bool>): nat {
    if acks == [] || !acks[0] then 0 else 1 + Leading(acks[1..])
  }

  lemma {:induction false} LeadingIs(acks: seq<bool>, k: nat)
    requires k <= |acks| && (forall j :: 0 <= j < k ==> acks[j]) && (k < |acks| ==> !acks[k])
    ensures Leading(acks) == k
  {
    if k > 0 {
      LeadingIs(acks[1..], k - 1);
    }
  }
}

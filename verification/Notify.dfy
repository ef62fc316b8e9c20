/** internal/notify/notify.go: the bounded delivery queue, the worker that drains it, and the
    backoff between its tries. Durations are in milliseconds. */
module Notify {
  import opened Wrappers

  // One thing to report: a deploy, or an event about a node with its content.
  datatype Item = OfDeploy(id: nat) | OfEvent(kind: nat, node: Option<nat>, content: nat)

  // Of two items with one key the one already queued stands for both.
  datatype Key = DeployKey(id: nat) | EventKey(kind: nat, node: Option<nat>)

  function KeyOf(item: Item): Key {
    match item
    case OfDeploy(id) => DeployKey(id)
    case OfEvent(kind, node, _) => EventKey(kind, node)
  }

  // The same deploy, or the same kind of news about the same node, whatever its content.
  lemma SameKeyExactly(a: Item, b: Item)
    ensures KeyOf(a) == KeyOf(b) <==>
      || (a.OfDeploy? && b.OfDeploy? && a.id == b.id)
      || (a.OfEvent? && b.OfEvent? && a.kind == b.kind && a.node == b.node)
  {}

  datatype Pending = Pending(item: Item, attempts: nat) {
    function Key(): Key {
      KeyOf(item)
    }
  }

  // ---- the queue as a value ----

  ghost predicate HasKey(q: seq<Pending>, key: Key) {
    exists i :: 0 <= i < |q| && q[i].Key() == key
  }

  ghost predicate DistinctKeys(q: seq<Pending>) {
    forall i, j :: 0 <= i < j < |q| ==> q[i].Key() != q[j].Key()
  }

  ghost predicate Bounded(q: seq<Pending>, cap: nat) {
    DistinctKeys(q) && |q| <= cap
  }

  ghost function Enqueued(q: seq<Pending>, item: Item, cap: nat): seq<Pending> {
    if HasKey(q, KeyOf(item)) then q
    else if |q| >= cap && |q| > 0 then q[1..] + [Pending(item, 0)]
    else q + [Pending(item, 0)]
  }

  ghost predicate HeadIs(q: seq<Pending>, key: Key) {
    |q| > 0 && q[0].Key() == key
  }

  ghost function PoppedIf(q: seq<Pending>, key: Key): seq<Pending> {
    if HeadIs(q, key) then q[1..] else q
  }

  ghost function AttemptsSet(q: seq<Pending>, key: Key, attempts: nat): seq<Pending> {
    if HeadIs(q, key) then [Pending(q[0].item, attempts)] + q[1..] else q
  }

  lemma EnqueuedBounded(q: seq<Pending>, item: Item, cap: nat)
    requires Bounded(q, cap) && cap > 0
    ensures Bounded(Enqueued(q, item, cap), cap)
    ensures HasKey(Enqueued(q, item, cap), KeyOf(item))
  {
    var q' := Enqueued(q, item, cap);
    if !HasKey(q, KeyOf(item)) {
      assert q'[|q'| - 1].Key() == KeyOf(item);
    }
  }

  lemma PoppedBounded(q: seq<Pending>, key: Key, attempts: nat, cap: nat)
    requires Bounded(q, cap)
    ensures Bounded(PoppedIf(q, key), cap) && Bounded(AttemptsSet(q, key, attempts), cap)
  {}

  // ---- one delivery pass on its own ----

  // `attempt` counts the tries of the item, from 1.
  datatype Try = Try(item: Item, attempt: nat, ok: bool)

  // The tries of one queued item: failures, and then a success or the last one allowed.
  ghost predicate TriesOf(p: Pending, tries: seq<Try>, maxAttempts: nat) {
    && |tries| > 0
    && (forall k :: 0 <= k < |tries| ==> tries[k].item == p.item && tries[k].attempt == p.attempts + k + 1)
    && (forall k :: 0 <= k < |tries| - 1 ==> !tries[k].ok && p.attempts + k + 1 < maxAttempts)
    && (tries[|tries| - 1].ok || p.attempts + |tries| >= maxAttempts)
  }

  ghost function Flat(groups: seq<seq<Try>>): seq<Try> {
    if groups == [] then [] else Flat(groups[..|groups| - 1]) + groups[|groups| - 1]
  }

  // First in, first out: one group of tries for each item, one group after the other.
  ghost predicate InOrder(q: seq<Pending>, groups: seq<seq<Try>>, tries: seq<Try>, maxAttempts: nat) {
    && |groups| == |q| && tries == Flat(groups)
    && forall i :: 0 <= i < |q| ==> TriesOf(q[i], groups[i], maxAttempts)
  }

  // The tries made so far when the head still waits for another one.
  ghost predicate Failing(p: Pending, tries: seq<Try>, now: nat, maxAttempts: nat) {
    && now == p.attempts + |tries|
    && (forall k :: 0 <= k < |tries| ==>
          tries[k].item == p.item && tries[k].attempt == p.attempts + k + 1 && !tries[k].ok && p.attempts + k + 1 < maxAttempts)
  }

  // No item is tried more often than it has attempts left.
  lemma TriesWithin(p: Pending, tries: seq<Try>, maxAttempts: nat)
    requires TriesOf(p, tries, maxAttempts) && p.attempts < maxAttempts
    ensures 1 <= |tries| <= maxAttempts - p.attempts
  {
    if |tries| >= 2 {
      var k := |tries| - 2;
      assert !tries[k].ok && p.attempts + k + 1 < maxAttempts;
    }
  }

  lemma {:induction false} FewTries(q: seq<Pending>, groups: seq<seq<Try>>, tries: seq<Try>, maxAttempts: nat)
    requires InOrder(q, groups, tries, maxAttempts)
    requires forall i :: 0 <= i < |q| ==> q[i].attempts < maxAttempts
    ensures |q| <= |tries| <= |q| * maxAttempts
    decreases |q|
  {
    if q != [] {
      var n := |q| - 1;
      TriesWithin(q[n], groups[n], maxAttempts);
      FewTries(q[..n], groups[..n], Flat(groups[..n]), maxAttempts);
      OneMore(n, maxAttempts);
    }
  }

  lemma OneMore(n: nat, m: nat)
    ensures (n + 1) * m == n * m + m
  {}

  // A pass over q0 under way: `groups` are the tries of the items it is finished with,
  // `recent` those of the item at the head of the queue.
  ghost predicate Draining(q0: seq<Pending>, groups: seq<seq<Try>>, recent: seq<Try>,
                           queue: seq<Pending>, tries: seq<Try>, maxAttempts: nat) {
    && tries == Flat(groups) + recent
    && |groups| <= |q0| && |queue| == |q0| - |groups|
    && (forall i :: 0 <= i < |groups| ==> TriesOf(q0[i], groups[i], maxAttempts))
    && (queue == [] ==> recent == [])
    && (queue != [] ==>
          && queue[0].item == q0[|groups|].item && queue[1..] == q0[|groups| + 1..]
          && Failing(q0[|groups|], recent, queue[0].attempts, maxAttempts))
  }

  // The try is the item's last.
  ghost predicate Concludes(t: Try, maxAttempts: nat) {
    t.ok || t.attempt >= maxAttempts
  }

  // The queue behind a try of its head.
  ghost function AfterTry(queue: seq<Pending>, t: Try, maxAttempts: nat): seq<Pending>
    requires queue != []
  {
    if Concludes(t, maxAttempts) then queue[1..] else [Pending(queue[0].item, t.attempt)] + queue[1..]
  }

  lemma TryNext(q0: seq<Pending>, groups: seq<seq<Try>>, recent: seq<Try>, queue: seq<Pending>,
          tries: seq<Try>, t: Try, maxAttempts: nat)
    requires Draining(q0, groups, recent, queue, tries, maxAttempts) && queue != []
    requires t.item == queue[0].item && t.attempt == queue[0].attempts + 1
    ensures
      if Concludes(t, maxAttempts)
      then Draining(q0, groups + [recent + [t]], [], AfterTry(queue, t, maxAttempts), tries + [t], maxAttempts)
      else Draining(q0, groups, recent + [t], AfterTry(queue, t, maxAttempts), tries + [t], maxAttempts)
  {
    var mine := recent + [t];
    assert forall k :: 0 <= k < |recent| ==> mine[k] == recent[k];
    assert tries + [t] == Flat(groups) + mine;
    if Concludes(t, maxAttempts) {
      assert TriesOf(q0[|groups|], mine, maxAttempts);
      assert (groups + [mine])[..|groups|] == groups;
      if |queue| > 1 {
        assert queue[1..][0] == q0[|groups| + 1];
        assert queue[1..][1..] == q0[|groups| + 2..];
      }
    }
  }

  // Every try uses up one of the tries left.
  lemma Progress(queue: seq<Pending>, t: Try, maxAttempts: nat)
    requires queue != [] && t.attempt == queue[0].attempts + 1
    ensures Remaining(AfterTry(queue, t, maxAttempts), maxAttempts) < Remaining(queue, maxAttempts)
  {
    if !Concludes(t, maxAttempts) {
      assert AfterTry(queue, t, maxAttempts)[1..] == queue[1..];
    }
  }

  ghost function Remaining(q: seq<Pending>, maxAttempts: nat): nat {
    if q == [] then 0 else (if q[0].attempts < maxAttempts then maxAttempts - q[0].attempts else 1) + Remaining(q[1..], maxAttempts)
  }

  // ---- the backoff ----

  ghost function Pow2(n: nat): (p: nat)
    ensures p >= 1
  {
    if n == 0 then 1 else 2 * Pow2(n - 1)
  }

  ghost function Min(a: nat, b: nat): nat {
    if a < b then a else b
  }

  // The pause behind the n-th failed try of an item: it doubles from try to try, up to the
  // maximum.
  ghost function BackoffOf(base: nat, max: nat, attempts: nat): nat {
    if attempts <= 1 then base else Min(2 * BackoffOf(base, max, attempts - 1), max)
  }

  lemma Doubled(base: nat, n: nat)
    ensures base * Pow2(n + 1) == 2 * (base * Pow2(n))
  {
    assert base * (2 * Pow2(n)) == 2 * (base * Pow2(n));
  }

  // In closed form, with its exact condition: the first pause is not capped.
  lemma {:induction false} BackoffClosedForm(base: nat, max: nat, attempts: nat)
    requires attempts > 0
    ensures BackoffOf(base, max, attempts) == Min(base * Pow2(attempts - 1), max) <==> base <= max || attempts > 1
  {
    if attempts > 1 {
      BackoffClosedForm(base, max, attempts - 1);
      Doubled(base, attempts - 2);
      if attempts == 2 {
        assert base * Pow2(0) == base;
      }
    } else {
      assert base * Pow2(0) == base;
    }
  }

  // Once at the maximum the pauses stay there.
  lemma {:induction false} BackoffStays(base: nat, max: nat, n: nat, attempts: nat)
    requires 1 < n <= attempts && BackoffOf(base, max, n) == max
    ensures BackoffOf(base, max, attempts) == max
    decreases attempts
  {
    if n < attempts {
      BackoffStays(base, max, n, attempts - 1);
    }
  }

  method Backoff(base: nat, max: nat, attempts: nat) returns (d: nat)
    requires base > 0 && max > 0 && attempts > 0
    ensures d == BackoffOf(base, max, attempts)
  {
    d := base;
    var i := 1;
    while i < attempts
      invariant 1 <= i <= attempts
      invariant d == BackoffOf(base, max, i)
    {
      d := d * 2;
      if d >= max {
        BackoffStays(base, max, i + 1, attempts);
        return max;
      }
      i := i + 1;
    }
  }

  // The pause behind a try: none if it was the item's last.
  ghost function PauseOf(t: Try, maxAttempts: nat, base: nat, max: nat): seq<nat> {
    if Concludes(t, maxAttempts) then [] else [BackoffOf(base, max, t.attempt)]
  }

  ghost function PausesOf(tries: seq<Try>, maxAttempts: nat, base: nat, max: nat): seq<nat> {
    if tries == [] then []
    else PausesOf(tries[..|tries| - 1], maxAttempts, base, max) + PauseOf(tries[|tries| - 1], maxAttempts, base, max)
  }

  lemma PausesSnoc(tries: seq<Try>, t: Try, maxAttempts: nat, base: nat, max: nat)
    ensures PausesOf(tries + [t], maxAttempts, base, max) ==
      PausesOf(tries, maxAttempts, base, max) + PauseOf(t, maxAttempts, base, max)
  {
    assert (tries + [t])[..|tries|] == tries;
  }

  // How many of the tries are followed by another one of their item.
  ghost function Retried(tries: seq<Try>, maxAttempts: nat): nat {
    if tries == [] then 0
    else
      var t := tries[|tries| - 1];
      Retried(tries[..|tries| - 1], maxAttempts) + if !t.ok && t.attempt < maxAttempts then 1 else 0
  }

  lemma {:induction false} OnePauseEach(tries: seq<Try>, maxAttempts: nat, base: nat, max: nat)
    ensures |PausesOf(tries, maxAttempts, base, max)| == Retried(tries, maxAttempts)
  {
    if tries != [] {
      OnePauseEach(tries[..|tries| - 1], maxAttempts, base, max);
    }
  }

  // There is one pause for each try that is followed by another of its item, and none besides;
  // it comes behind that try, and is the base doubled for every try before, up to the maximum.
  lemma {:induction false} PauseBehind(tries: seq<Try>, maxAttempts: nat, base: nat, max: nat, k: nat)
    requires k < |tries| && !tries[k].ok && 0 < tries[k].attempt < maxAttempts && base <= max
    ensures var pauses, n := PausesOf(tries, maxAttempts, base, max), Retried(tries[..k], maxAttempts);
      && n < |pauses| == Retried(tries, maxAttempts)
      && pauses[n] == Min(base * Pow2(tries[k].attempt - 1), max)
  {
    OnePauseEach(tries, maxAttempts, base, max);
    var front := tries[..|tries| - 1];
    OnePauseEach(front, maxAttempts, base, max);
    if k == |tries| - 1 {
      BackoffClosedForm(base, max, tries[k].attempt);
    } else {
      PauseBehind(front, maxAttempts, base, max, k);
      assert front[..k] == tries[..k];
    }
  }

  // ---- the hub ----

  const DEFAULT_CAP: nat := 64
  const DEFAULT_ATTEMPTS: nat := 4
  const DEFAULT_BASE: nat := 2000
  const DEFAULT_MAX: nat := 30000

  class Hub {
    const cap: nat
    const maxAttempts: nat
    const base: nat
    const max: nat
    var queue: seq<Pending>

    ghost predicate Valid()
      reads this
    {
      cap > 0 && maxAttempts > 0 && base > 0 && max > 0 && Bounded(queue, cap)
    }

    // A tunable that is not positive stands for the package default.
    constructor (cap: int, maxAttempts: int, base: int, max: int)
      ensures Valid() && queue == []
      ensures this.cap == if cap > 0 then cap else DEFAULT_CAP
      ensures this.maxAttempts == if maxAttempts > 0 then maxAttempts else DEFAULT_ATTEMPTS
      ensures this.base == if base > 0 then base else DEFAULT_BASE
      ensures this.max == if max > 0 then max else DEFAULT_MAX
      ensures base <= 0 && max <= 0 ==> this.base <= this.max
    {
      this.cap := if cap > 0 then cap else DEFAULT_CAP;
      this.maxAttempts := if maxAttempts > 0 then maxAttempts else DEFAULT_ATTEMPTS;
      this.base := if base > 0 then base else DEFAULT_BASE;
      this.max := if max > 0 then max else DEFAULT_MAX;
      queue := [];
    }

    // `enabled`: a provider is configured.
    method Enqueue(item: Item, enabled: bool)
      requires Valid()
      modifies this`queue
      ensures Valid()
      ensures queue == if enabled then Enqueued(old(queue), item, cap) else old(queue)
    {
      if !enabled {
        return;
      }
      EnqueuedBounded(queue, item, cap);
      for i := 0 to |queue|
        invariant queue == old(queue)
        invariant forall k :: 0 <= k < i ==> queue[k].Key() != KeyOf(item)
      {
        if queue[i].Key() == KeyOf(item) {
          return;
        }
      }
      if |queue| >= cap {
        queue := queue[1..];
      }
      queue := queue + [Pending(item, 0)];
    }

    method Peek() returns (head: Option<Pending>)
      requires Valid()
      ensures head == if |queue| == 0 then None else Some(queue[0])
    {
      head := if |queue| == 0 then None else Some(queue[0]);
    }

    method PopIf(key: Key)
      requires Valid()
      modifies this`queue
      ensures Valid() && queue == PoppedIf(old(queue), key)
    {
      PoppedBounded(queue, key, 0, cap);
      if |queue| > 0 && queue[0].Key() == key {
        queue := queue[1..];
      }
    }

    method SetAttempts(key: Key, attempts: nat)
      requires Valid()
      modifies this`queue
      ensures Valid() && queue == AttemptsSet(old(queue), key, attempts)
    {
      PoppedBounded(queue, key, attempts, cap);
      if |queue| > 0 && queue[0].Key() == key {
        queue := [Pending(queue[0].item, attempts)] + queue[1..];
      }
    }

    // One try of the head of the queue: it leaves when it was delivered or has no attempts
    // left, and otherwise waits for its next one.
    method TryHead() returns (t: Try, pause: seq<nat>)
      requires Valid() && queue != []
      modifies this`queue
      ensures Valid()
      ensures t.item == old(queue)[0].item && t.attempt == old(queue)[0].attempts + 1
      ensures queue == AfterTry(old(queue), t, maxAttempts)
      ensures pause == PauseOf(t, maxAttempts, base, max)
    {
      var peeked := Peek();
      var p := peeked.value;
      var ok: bool := *;
      var attempts := p.attempts + 1;
      t, pause := Try(p.item, attempts, ok), [];
      if ok || attempts >= maxAttempts {
        PopIf(p.Key());
      } else {
        SetAttempts(p.Key(), attempts);
        var d := Backoff(base, max, attempts);
        pause := [d];
      }
    }

    // A pass that nobody adds to and nothing stops ends with the queue empty, having tried
    // every item in order, each until it was delivered or had no attempts left.
    method Drain() returns (tries: seq<Try>, pauses: seq<nat>, ghost groups: seq<seq<Try>>)
      requires Valid()
      modifies this`queue
      ensures Valid() && queue == []
      ensures InOrder(old(queue), groups, tries, maxAttempts)
      ensures pauses == PausesOf(tries, maxAttempts, base, max)
    {
      tries, pauses, groups := [], [], [];
      ghost var recent: seq<Try> := [];
      while queue != []
        invariant Valid()
        invariant Draining(old(queue), groups, recent, queue, tries, maxAttempts)
        invariant pauses == PausesOf(tries, maxAttempts, base, max)
        decreases Remaining(queue, maxAttempts)
      {
        ghost var before := queue;
        var t, pause := TryHead();
        Progress(before, t, maxAttempts);
        PausesSnoc(tries, t, maxAttempts, base, max);
        TryNext(old(queue), groups, recent, before, tries, t, maxAttempts);
        groups, recent := if Concludes(t, maxAttempts) then (groups + [recent + [t]]) else groups,
                          if Concludes(t, maxAttempts) then [] else recent + [t];
        tries, pauses := tries + [t], pauses + pause;
      }
    }
  }

  // ---- deliveries and arrivals interleaved ----

  // The worker holds the item it peeked at while others may enqueue. `tries` counts the
  // deliveries of each queued item, `left` lists the items that have left the queue, `past`
  // their deliveries, and `accepted` everything the queue ever took.
  datatype State = State(
    queue: seq<Pending>, tries: seq<nat>, worker: Option<Work>,
    accepted: seq<Item>, left: seq<Item>, past: seq<nat>)

  // The item held, and how many had left the queue when the worker took it up.
  datatype Work = Work(p: Pending, index: nat)

  datatype Action = Arrive(item: Item) | Start | Finish(ok: bool)

  const EMPTY: State := State([], [], None, [], [], [])

  ghost predicate Enabled(s: State, a: Action) {
    match a
    case Arrive(_) => true
    case Start => s.worker.None? && s.queue != [] && s.tries != []
    case Finish(_) => s.worker.Some?
  }

  // The head leaves the queue.
  ghost function Headless(s: State): State {
    if s.queue == [] || s.tries == [] then s
    else s.(queue := s.queue[1..], tries := s.tries[1..], left := s.left + [s.queue[0].item], past := s.past + [s.tries[0]])
  }

  ghost function Joined(s: State, item: Item): State {
    s.(queue := s.queue + [Pending(item, 0)], tries := s.tries + [0], accepted := s.accepted + [item])
  }

  ghost function Arrived(s: State, item: Item, cap: nat): State {
    if HasKey(s.queue, KeyOf(item)) then s
    else if |s.queue| >= cap then Joined(Headless(s), item)
    else Joined(s, item)
  }

  ghost function Finished(s: State, p: Pending, ok: bool, maxAttempts: nat): State {
    var idle := s.(worker := None);
    if !HeadIs(s.queue, p.Key()) then idle
    else if ok || p.attempts + 1 >= maxAttempts then Headless(idle)
    else idle.(queue := AttemptsSet(s.queue, p.Key(), p.attempts + 1))
  }

  ghost function Apply(s: State, a: Action, cap: nat, maxAttempts: nat): State
    requires Enabled(s, a)
  {
    match a
    case Arrive(item) => Arrived(s, item, cap)
    case Start => s.(worker := Some(Work(s.queue[0], |s.left|)), tries := s.tries[0 := s.tries[0] + 1])
    case Finish(ok) => Finished(s, s.worker.value.p, ok, maxAttempts)
  }

  // The machine's steps are the hub's: Enqueue, Peek, and PopIf or SetAttempts.
  lemma StepsAreTheHubs(s: State, item: Item, ok: bool, cap: nat, maxAttempts: nat)
    requires |s.tries| == |s.queue| && cap > 0
    ensures Arrived(s, item, cap).queue == Enqueued(s.queue, item, cap)
    ensures s.worker.Some? ==>
      var p := s.worker.value.p;
      Finished(s, p, ok, maxAttempts).queue ==
        if ok || p.attempts + 1 >= maxAttempts then PoppedIf(s.queue, p.Key()) else AttemptsSet(s.queue, p.Key(), p.attempts + 1)
  {}

  ghost function ItemsOf(q: seq<Pending>): seq<Item> {
    seq(|q|, i requires 0 <= i < |q| => q[i].item)
  }

  // Only the head has been tried, and no more often than its attempts say, the delivery under
  // way (`held`) aside.
  ghost predicate Fair(queue: seq<Pending>, tries: seq<nat>, held: nat, maxAttempts: nat) {
    && |tries| == |queue|
    && (forall i :: 1 <= i < |queue| ==> queue[i].attempts == 0)
    && (forall i :: 1 <= i < |tries| ==> tries[i] == 0)
    && (queue != [] ==> queue[0].attempts < maxAttempts && tries[0] <= queue[0].attempts + held)
  }

  // What the worker holds was the head when it looked: it is that still, or it was evicted and
  // nothing now queued has been tried.
  ghost predicate WorkInv(w: Work, queue: seq<Pending>, left: seq<Item>, maxAttempts: nat) {
    && w.index <= |left| && w.p.attempts < maxAttempts
    && (w.index == |left| ==> |queue| > 0 && queue[0] == w.p)
    && (w.index < |left| ==> left[w.index] == w.p.item && (queue != [] ==> queue[0].attempts == 0))
  }

  ghost function Held(s: State): nat {
    if s.worker.Some? && s.worker.value.index == |s.left| then 1 else 0
  }

  ghost predicate Inv(s: State, cap: nat, maxAttempts: nat) {
    && Bounded(s.queue, cap)
    && s.accepted == s.left + ItemsOf(s.queue)
    && |s.past| == |s.left| && (forall t :: t in s.past ==> t <= maxAttempts)
    && Fair(s.queue, s.tries, Held(s), maxAttempts)
    && (s.worker.Some? ==> WorkInv(s.worker.value, s.queue, s.left, maxAttempts))
  }

  lemma HeadlessKeeps(s: State, cap: nat, maxAttempts: nat)
    requires Inv(s, cap, maxAttempts) && s.queue != [] && maxAttempts > 0
    ensures Inv(Headless(s), cap, maxAttempts)
  {
    var t := Headless(s);
    assert ItemsOf(s.queue) == [s.queue[0].item] + ItemsOf(s.queue[1..]);
    assert t.left + ItemsOf(t.queue) == s.left + ItemsOf(s.queue);
  }

  lemma JoinedKeeps(s: State, item: Item, cap: nat, maxAttempts: nat)
    requires Inv(s, cap, maxAttempts) && |s.queue| < cap && !HasKey(s.queue, KeyOf(item)) && maxAttempts > 0
    ensures Inv(Joined(s, item), cap, maxAttempts)
  {
    assert ItemsOf(s.queue + [Pending(item, 0)]) == ItemsOf(s.queue) + [item];
  }

  lemma ArriveKeeps(s: State, item: Item, cap: nat, maxAttempts: nat)
    requires Inv(s, cap, maxAttempts) && cap > 0 && maxAttempts > 0
    ensures Inv(Arrived(s, item, cap), cap, maxAttempts)
  {
    if !HasKey(s.queue, KeyOf(item)) {
      if |s.queue| >= cap {
        HeadlessKeeps(s, cap, maxAttempts);
        assert !HasKey(Headless(s).queue, KeyOf(item));
        JoinedKeeps(Headless(s), item, cap, maxAttempts);
      } else {
        JoinedKeeps(s, item, cap, maxAttempts);
      }
    }
  }

  lemma StartKeeps(s: State, cap: nat, maxAttempts: nat)
    requires Inv(s, cap, maxAttempts) && Enabled(s, Start)
    ensures Inv(Apply(s, Start, cap, maxAttempts), cap, maxAttempts)
  {}

  // The worker lets go of an item that is not the head any more.
  lemma LetGoKeeps(s: State, cap: nat, maxAttempts: nat)
    requires Inv(s, cap, maxAttempts) && s.worker.Some? && Held(s) == 0
    ensures Inv(s.(worker := None), cap, maxAttempts)
  {}

  // ... of the head, having counted the attempt.
  lemma CountKeeps(s: State, p: Pending, cap: nat, maxAttempts: nat)
    requires Inv(s, cap, maxAttempts) && s.worker.Some? && p == s.worker.value.p
    requires HeadIs(s.queue, p.Key()) && p.attempts + 1 < maxAttempts
    ensures Inv(s.(worker := None, queue := AttemptsSet(s.queue, p.Key(), p.attempts + 1)), cap, maxAttempts)
  {
    var q := AttemptsSet(s.queue, p.Key(), p.attempts + 1);
    PoppedBounded(s.queue, p.Key(), p.attempts + 1, cap);
    assert ItemsOf(q) == ItemsOf(s.queue);
  }

  // ... of the head, which leaves the queue.
  lemma LeaveKeeps(s: State, cap: nat, maxAttempts: nat)
    requires Inv(s, cap, maxAttempts) && s.worker.Some? && s.queue != [] && maxAttempts > 0
    ensures Inv(Headless(s.(worker := None)), cap, maxAttempts)
  {
    HeadlessKeeps(s, cap, maxAttempts);
    var t := Headless(s);
    assert Held(t) == 0;
    LetGoKeeps(t, cap, maxAttempts);
  }

  lemma FinishKeeps(s: State, ok: bool, cap: nat, maxAttempts: nat)
    requires Inv(s, cap, maxAttempts) && s.worker.Some? && maxAttempts > 0
    ensures Inv(Finished(s, s.worker.value.p, ok, maxAttempts), cap, maxAttempts)
  {
    var p := s.worker.value.p;
    if !HeadIs(s.queue, p.Key()) {
      LetGoKeeps(s, cap, maxAttempts);
    } else if ok || p.attempts + 1 >= maxAttempts {
      LeaveKeeps(s, cap, maxAttempts);
    } else {
      CountKeeps(s, p, cap, maxAttempts);
    }
  }

  ghost predicate Next(s: State, s': State, cap: nat, maxAttempts: nat) {
    exists a :: Enabled(s, a) && s' == Apply(s, a, cap, maxAttempts)
  }

  ghost predicate Run(run: seq<State>, cap: nat, maxAttempts: nat) {
    && |run| > 0 && run[0] == EMPTY
    && forall i :: 0 <= i < |run| - 1 ==> Next(run[i], run[i + 1], cap, maxAttempts)
  }

  lemma {:induction false} RunKeeps(run: seq<State>, cap: nat, maxAttempts: nat, i: nat)
    requires Run(run, cap, maxAttempts) && i < |run| && cap > 0 && maxAttempts > 0
    ensures Inv(run[i], cap, maxAttempts)
  {
    if i > 0 {
      RunKeeps(run, cap, maxAttempts, i - 1);
      var s := run[i - 1];
      assert Next(s, run[i - 1 + 1], cap, maxAttempts);
      var a :| Enabled(s, a) && run[i] == Apply(s, a, cap, maxAttempts);
      match a {
        case Arrive(item) => ArriveKeeps(s, item, cap, maxAttempts);
        case Start => StartKeeps(s, cap, maxAttempts);
        case Finish(ok) => FinishKeeps(s, ok, cap, maxAttempts);
      }
    }
  }

  // Whatever arrives while deliveries are under way: keys stay distinct, the queue within its
  // bound, nothing is tried more than maxAttempts times, and the queue is always the end of
  // what it accepted: nothing is reordered, and items leave oldest first.
  lemma QueueIsBoundedSuffix(run: seq<State>, cap: nat, maxAttempts: nat, i: nat)
    requires Run(run, cap, maxAttempts) && i < |run| && cap > 0 && maxAttempts > 0
    ensures var s := run[i];
      && DistinctKeys(s.queue) && |s.queue| <= cap
      && s.accepted == s.left + ItemsOf(s.queue)
      && |s.past| == |s.left| && |s.tries| == |s.queue|
      && forall t :: t in s.past + s.tries ==> t <= maxAttempts
  {
    RunKeeps(run, cap, maxAttempts, i);
  }

  // The item worked on was evicted, and another of the same key has come to the head.
  ghost predicate Replaced(s: State) {
    && s.worker.Some? && s.worker.value.index < |s.left|
    && HeadIs(s.queue, s.worker.value.p.Key())
  }

  // What has left the queue when the item worked on, if it is still there, leaves it.
  ghost function LeftAfter(s: State, w: Work): seq<Item> {
    if w.index == |s.left| then s.left + [w.p.item] else s.left
  }

  // The queue when the item worked on, if it is still there, is charged one attempt.
  ghost function ChargedAfter(s: State, w: Work): seq<Pending> {
    if w.index == |s.left| && s.queue != [] then [Pending(w.p.item, w.p.attempts + 1)] + s.queue[1..] else s.queue
  }

  // What leaves the queue when a delivery succeeds is the item delivered, or nothing if that
  // was evicted before: exactly unless another item of its key has taken its place.
  lemma DeliveryRemovesItsItemExactly(run: seq<State>, cap: nat, maxAttempts: nat, i: nat)
    requires Run(run, cap, maxAttempts) && i < |run| && cap > 0 && maxAttempts > 0
    requires run[i].worker.Some?
    ensures var s, w := run[i], run[i].worker.value;
      Apply(s, Finish(true), cap, maxAttempts).left == LeftAfter(s, w) <==> !Replaced(s)
    ensures var s := run[i];
      s.worker.value.index == |s.left| ==>
        s.queue != [] && Apply(s, Finish(true), cap, maxAttempts).queue == s.queue[1..]
  {
    RunKeeps(run, cap, maxAttempts, i);
  }

  // A failure that is to be retried is charged to the item tried, or to nothing if that was
  // evicted before: exactly unless another item of its key has taken its place.
  lemma FailureChargesItsItemExactly(run: seq<State>, cap: nat, maxAttempts: nat, i: nat)
    requires Run(run, cap, maxAttempts) && i < |run| && cap > 0 && maxAttempts > 0
    requires run[i].worker.Some? && run[i].worker.value.p.attempts + 1 < maxAttempts
    ensures var s, w := run[i], run[i].worker.value;
      Apply(s, Finish(false), cap, maxAttempts).queue == ChargedAfter(s, w) <==> !Replaced(s)
  {
    RunKeeps(run, cap, maxAttempts, i);
    var s, w := run[i], run[i].worker.value;
    if Replaced(s) {
      assert Apply(s, Finish(false), cap, maxAttempts).queue[0].attempts == w.p.attempts + 1;
      assert s.queue[0].attempts == 0;
    }
  }

  // A failure that gives up removes the item it gave up on, under the same condition.
  lemma GivingUpRemovesItsItemExactly(run: seq<State>, cap: nat, maxAttempts: nat, i: nat)
    requires Run(run, cap, maxAttempts) && i < |run| && cap > 0 && maxAttempts > 0
    requires run[i].worker.Some? && run[i].worker.value.p.attempts + 1 >= maxAttempts
    ensures var s, w := run[i], run[i].worker.value;
      Apply(s, Finish(false), cap, maxAttempts).left == LeftAfter(s, w) <==> !Replaced(s)
  {
    RunKeeps(run, cap, maxAttempts, i);
  }

  // ---- the condition is needed, whatever the bound ----

  ghost predicate Reaches(s: State, cap: nat, maxAttempts: nat) {
    exists run :: Run(run, cap, maxAttempts) && run[|run| - 1] == s
  }

  lemma ReachStep(s: State, a: Action, cap: nat, maxAttempts: nat)
    requires Reaches(s, cap, maxAttempts) && Enabled(s, a)
    ensures Reaches(Apply(s, a, cap, maxAttempts), cap, maxAttempts)
  {
    var run :| Run(run, cap, maxAttempts) && run[|run| - 1] == s;
    var longer := run + [Apply(s, a, cap, maxAttempts)];
    forall i | 0 <= i < |longer| - 1 ensures Next(longer[i], longer[i + 1], cap, maxAttempts) {
      if i < |run| - 1 {
        assert Next(run[i], run[i + 1], cap, maxAttempts);
      }
    }
    assert Run(longer, cap, maxAttempts) && longer[|longer| - 1] == Apply(s, a, cap, maxAttempts);
  }

  ghost function Tail(q: seq<Pending>, cap: nat): seq<Pending> {
    if |q| <= cap then q else q[|q| - cap..]
  }

  // The deploys from..from+n-1, none of them tried.
  ghost function Deploys(from: nat, n: nat): seq<Pending> {
    seq(n, i requires 0 <= i < n => Pending(OfDeploy(from + i), 0))
  }

  // A machine's queue with its counters.
  ghost predicate Sized(s: State, cap: nat) {
    |s.queue| <= cap && |s.tries| == |s.queue|
  }

  lemma OneArrival(s: State, item: Item, cap: nat)
    requires Sized(s, cap) && cap > 0 && !HasKey(s.queue, KeyOf(item))
    ensures var t := Arrived(s, item, cap);
      && Sized(t, cap) && t.worker == s.worker
      && t.queue == Tail(s.queue + [Pending(item, 0)], cap)
      && s.left <= t.left && |t.left| + |t.queue| == |s.left| + |s.queue| + 1
  {}

  lemma TailStep(q: seq<Pending>, p: Pending, cap: nat)
    requires cap > 0
    ensures Tail(Tail(q, cap) + [p], cap) == Tail(q + [p], cap)
  {}

  // None of the queued deploys has this id or a later one.
  ghost predicate DeploysBelow(q: seq<Pending>, from: nat) {
    forall i :: 0 <= i < |q| && q[i].item.OfDeploy? ==> q[i].item.id < from
  }

  lemma TailBelow(q: seq<Pending>, from: nat, cap: nat)
    requires DeploysBelow(q, from)
    ensures DeploysBelow(Tail(q, cap), from) && !HasKey(Tail(q, cap), DeployKey(from))
  {
    var t := Tail(q, cap);
    forall i | 0 <= i < |t| ensures t[i].item.OfDeploy? ==> t[i].item.id < from {
      assert t[i] == q[if |q| <= cap then i else |q| - cap + i];
    }
  }

  // n deploys nobody knows yet arrive one after the other.
  lemma {:induction false} Flood(s: State, from: nat, n: nat, cap: nat, maxAttempts: nat) returns (t: State)
    requires Reaches(s, cap, maxAttempts) && Sized(s, cap) && cap > 0
    requires DeploysBelow(s.queue, from)
    ensures Reaches(t, cap, maxAttempts) && Sized(t, cap) && t.worker == s.worker
    ensures t.queue == Tail(s.queue + Deploys(from, n), cap)
    ensures s.left <= t.left && |t.left| + |t.queue| == |s.left| + |s.queue| + n
  {
    if n == 0 {
      t := s;
      assert s.queue + Deploys(from, 0) == s.queue;
    } else {
      var u := Flood(s, from, n - 1, cap, maxAttempts);
      var item := OfDeploy(from + (n - 1));
      var before := s.queue + Deploys(from, n - 1);
      assert s.queue + Deploys(from, n) == before + [Pending(item, 0)];
      TailBelow(before, from + (n - 1), cap);
      OneArrival(u, item, cap);
      TailStep(before, Pending(item, 0), cap);
      ReachStep(u, Arrive(item), cap, maxAttempts);
      t := Arrived(u, item, cap);
    }
  }

  const EARLIER: Item := OfEvent(0, Some(1), 10)
  const LATER: Item := OfEvent(0, Some(1), 20)

  // The worker is delivering the earlier news when the later comes in, and has been evicted.
  lemma LaterNewsQueued(cap: nat, maxAttempts: nat) returns (s: State)
    requires cap > 0
    ensures Reaches(s, cap, maxAttempts) && Sized(s, cap)
    ensures s.worker == Some(Work(Pending(EARLIER, 0), 0)) && |s.left| > 0
    ensures s.queue == Deploys(0, cap)[1..] + [Pending(LATER, 0)]
  {
    assert Run([EMPTY], cap, maxAttempts) && [EMPTY][|[EMPTY]| - 1] == EMPTY;
    ReachStep(EMPTY, Arrive(EARLIER), cap, maxAttempts);
    var s1 := Apply(EMPTY, Arrive(EARLIER), cap, maxAttempts);
    assert s1.queue == [Pending(EARLIER, 0)] && s1.tries == [0];
    ReachStep(s1, Start, cap, maxAttempts);
    var s2 := Apply(s1, Start, cap, maxAttempts);
    var s3 := Flood(s2, 0, cap, cap, maxAttempts);
    assert s3.queue == Deploys(0, cap);
    assert !HasKey(s3.queue, KeyOf(LATER));
    OneArrival(s3, LATER, cap);
    ReachStep(s3, Arrive(LATER), cap, maxAttempts);
    s := Arrived(s3, LATER, cap);
  }

  // For every bound: an item evicted while it is delivered comes back under the same key and
  // reaches the head; when the delivery ends, the news that was never sent is dropped.
  lemma EvictedItemTakesItsSuccessor(cap: nat, maxAttempts: nat) returns (s: State, t: State)
    requires cap > 0 && maxAttempts > 0
    ensures Reaches(s, cap, maxAttempts) && Replaced(s) && s.queue[0].attempts == 0
    ensures t == Apply(s, Finish(true), cap, maxAttempts)
    ensures t.queue == s.queue[1..] && t.left == s.left + [s.queue[0].item] && s.queue[0].item != s.worker.value.p.item
    ensures t.past == s.past + [0]
  {
    var s4 := LaterNewsQueued(cap, maxAttempts);
    s := Flood(s4, cap, cap - 1, cap, maxAttempts);
    assert s.queue == [Pending(LATER, 0)] + Deploys(cap, cap - 1);
    Untried(s, cap, maxAttempts);
    t := Apply(s, Finish(true), cap, maxAttempts);
  }

  // An item that has taken the place of the one worked on has not been tried.
  lemma Untried(s: State, cap: nat, maxAttempts: nat)
    requires Reaches(s, cap, maxAttempts) && Replaced(s) && cap > 0 && maxAttempts > 0
    ensures s.tries != [] && s.tries[0] == 0
  {
    var run :| Run(run, cap, maxAttempts) && run[|run| - 1] == s;
    RunKeeps(run, cap, maxAttempts, |run| - 1);
  }
}

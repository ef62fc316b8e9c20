/** internal/store/logs.go: following the log of one deploy. Writers insert a line and publish
    it afterwards, the deploy is marked finished and Done published afterwards, and a follower
    subscribes, replays what is stored and then forwards what is published; the steps of all of
    them interleave. Lines are numbered within their deploy: only the order of row ids matters. */
module Logs {

  datatype Event = Line(id: nat) | Done

  // ---- the broadcaster ----

  type DeployKey = nat
  type Channel = nat

  // Nobody waits for a slow subscriber: with its channel full the event is lost to it.
  ghost function Pushed(queue: seq<Event>, ev: Event, cap: nat): seq<Event> {
    if |queue| < cap then queue + [ev] else queue
  }

  class Broadcaster {
    const cap: nat
    var subs: map<DeployKey, set<Channel>>
    var queues: map<Channel, seq<Event>>   // the open channels
    var next: Channel

    ghost predicate Valid()
      reads this
    {
      && (forall key :: key in subs ==> subs[key] <= queues.Keys)
      && (forall ch :: ch in queues ==> ch < next)
      && (forall k, l :: k in subs && l in subs && k != l ==> subs[k] !! subs[l])
    }

    constructor (cap: nat)
      ensures Valid() && this.cap == cap && subs == map[]
    {
      this.cap := cap;
      subs, queues, next := map[], map[], 0;
    }

    ghost function Subscribed(key: DeployKey): set<Channel>
      reads this
    {
      if key in subs then subs[key] else {}
    }

    method Subscribe(key: DeployKey) returns (ch: Channel)
      requires Valid()
      modifies this
      ensures Valid() && ch !in old(queues) && queues == old(queues)[ch := []]
      ensures Subscribed(key) == old(Subscribed(key)) + {ch}
      ensures forall k :: k != key ==> Subscribed(k) == old(Subscribed(k))
    {
      ch := next;
      next := next + 1;
      queues := queues[ch := []];
      subs := subs[key := (if key in subs then subs[key] else {}) + {ch}];
    }

    method Unsubscribe(key: DeployKey, ch: Channel)
      requires Valid()
      modifies this
      ensures Valid()
      ensures Subscribed(key) == old(Subscribed(key)) - {ch}
      ensures forall k :: k != key ==> Subscribed(k) == old(Subscribed(k))
      ensures queues == if ch in old(Subscribed(key)) then old(queues) - {ch} else old(queues)
    {
      if key in subs {
        if ch in subs[key] {
          subs := subs[key := subs[key] - {ch}];
          queues := queues - {ch};
        }
        if subs[key] == {} {
          subs := subs - {key};
        }
      }
    }

    // Every follower of the deploy is offered the event, and nobody else.
    method Publish(key: DeployKey, ev: Event)
      requires Valid()
      modifies this`queues
      ensures Valid() && queues.Keys == old(queues).Keys
      ensures forall ch :: ch in queues ==>
        queues[ch] == if ch in Subscribed(key) then Pushed(old(queues)[ch], ev, cap) else old(queues)[ch]
    {
      if key !in subs {
        return;
      }
      var todo := subs[key];
      while todo != {}
        invariant todo <= subs[key] && queues.Keys == old(queues).Keys
        invariant forall ch :: ch in queues ==>
          queues[ch] == if ch in subs[key] - todo then Pushed(old(queues)[ch], ev, cap) else old(queues)[ch]
        decreases |todo|
      {
        var ch :| ch in todo;
        if |queues[ch]| < cap {
          queues := queues[ch := queues[ch] + [ev]];
        }
        todo := todo - {ch};
      }
    }
  }

  // ---- the follower on its own ----

  ghost function LinesUpTo(n: nat): seq<Event> {
    seq(n, i requires 0 <= i < n => Line(i + 1))
  }

  predicate Skipped(ev: Event, replayed: nat) {
    ev.Line? && ev.id <= replayed
  }

  // What of the live feed is passed on: all but the lines that were replayed.
  ghost function Forwarded(received: seq<Event>, replayed: nat): seq<Event> {
    if received == [] then []
    else
      var ev := received[|received| - 1];
      Forwarded(received[..|received| - 1], replayed) + if Skipped(ev, replayed) then [] else [ev]
  }

  ghost predicate EndsAtDone(received: seq<Event>) {
    forall k :: 0 <= k < |received| - 1 ==> received[k] != Done
  }

  // The follower's goroutine: `feed` is what its channel will hand it, in order, and it stops
  // at the first Done; `finished` is what the re-read after the replay finds.
  method Follow(replay: seq<nat>, finished: bool, feed: seq<Event>) returns (out: seq<Event>, ghost received: seq<Event>)
    requires forall k :: 0 <= k < |replay| ==> replay[k] == k + 1
    ensures received <= feed && EndsAtDone(received)
    ensures finished ==> out == LinesUpTo(|replay|) + [Done]
    ensures !finished ==> out == LinesUpTo(|replay|) + Forwarded(received, |replay|)
    ensures !finished ==> received == feed || (|received| > 0 && received[|received| - 1] == Done)
  {
    out, received := [], [];
    var maxReplayed := 0;
    for i := 0 to |replay|
      invariant out == LinesUpTo(i) && maxReplayed == i
    {
      out := out + [Line(replay[i])];
      maxReplayed := replay[i];
    }
    if finished {
      out := out + [Done];
      return;
    }
    var i := 0;
    while i < |feed|
      invariant 0 <= i <= |feed| && received == feed[..i]
      invariant forall k :: 0 <= k < i ==> feed[k] != Done
      invariant out == LinesUpTo(|replay|) + Forwarded(received, |replay|)
    {
      var ev := feed[i];
      assert feed[..i + 1][..i] == feed[..i];
      i := i + 1;
      received := feed[..i];
      if ev.Line? && ev.id <= maxReplayed {
        continue;
      }
      out := out + [ev];
      if ev == Done {
        return;
      }
    }
    assert feed[..|feed|] == feed;
  }

  // ---- writers, publisher and follower together ----

  // Where the follower stands.
  datatype Phase =
    | Starting
    | Subscribed
    | Replaying(count: nat, sent: nat)   // count lines were read, sent of them passed on
    | Live(replayed: nat)
    | Ended(replayed: nat, live: bool)   // Done was sent, from the live feed or by the re-read
    | Canceled

  datatype Writers = Writers(
    rows: nat,                  // lines stored, numbered from 1
    published: set<nat>,
    finished: bool,             // finished_at is set
    donePublished: bool,
    beforeDone: set<nat>)       // the lines published before Done was

  datatype Feed = Feed(queue: seq<Event>, received: seq<Event>, dropped: set<Event>)

  datatype State = State(w: Writers, feed: Feed, phase: Phase, out: seq<Event>)

  datatype Action = Insert | PublishLine(id: nat) | FinishDeploy | PublishDone | Step | Cancel

  ghost predicate Listening(p: Phase) {
    p.Subscribed? || p.Replaying? || p.Live?
  }

  ghost predicate Enabled(s: State, a: Action) {
    match a
    case Insert => true
    case PublishLine(id) => 1 <= id <= s.w.rows && id !in s.w.published
    case FinishDeploy => !s.w.finished
    case PublishDone => s.w.finished && !s.w.donePublished
    case Step => s.phase.Starting? || s.phase.Subscribed? || s.phase.Replaying? || (s.phase.Live? && s.feed.queue != [])
    case Cancel => Listening(s.phase)
  }

  ghost function Offer(f: Feed, p: Phase, ev: Event, cap: nat): Feed {
    if !Listening(p) then f
    else if |f.queue| < cap then f.(queue := f.queue + [ev])
    else f.(dropped := f.dropped + {ev})
  }

  // What the machine offers a listening follower is what the broadcaster does to its channel.
  lemma OfferIsPublish(f: Feed, p: Phase, ev: Event, cap: nat)
    requires Listening(p)
    ensures Offer(f, p, ev, cap).queue == Pushed(f.queue, ev, cap)
    ensures ev in Offer(f, p, ev, cap).queue || ev in Offer(f, p, ev, cap).dropped
  {
    if |f.queue| < cap {
      assert (f.queue + [ev])[|f.queue|] == ev;
    }
  }

  ghost function FollowerStep(s: State): State
    requires Enabled(s, Step)
  {
    match s.phase
    case Starting => s.(phase := Subscribed)
    case Subscribed => s.(phase := Replaying(s.w.rows, 0))
    case Replaying(count, sent) =>
      if sent < count then s.(phase := Replaying(count, sent + 1), out := s.out + [Line(sent + 1)])
      else if s.w.finished then s.(phase := Ended(count, false), out := s.out + [Done])
      else s.(phase := Live(count))
    case Live(replayed) =>
      var ev := s.feed.queue[0];
      s.(feed := s.feed.(queue := s.feed.queue[1..], received := s.feed.received + [ev]),
         out := if Skipped(ev, replayed) then s.out else s.out + [ev],
         phase := if ev == Done then Ended(replayed, true) else s.phase)
  }

  ghost function Apply(s: State, a: Action, cap: nat): State
    requires Enabled(s, a)
  {
    match a
    case Insert => s.(w := s.w.(rows := s.w.rows + 1))
    case PublishLine(id) =>
      s.(w := s.w.(published := s.w.published + {id}), feed := Offer(s.feed, s.phase, Line(id), cap))
    case FinishDeploy => s.(w := s.w.(finished := true))
    case PublishDone =>
      s.(w := s.w.(donePublished := true, beforeDone := s.w.published), feed := Offer(s.feed, s.phase, Done, cap))
    case Step => FollowerStep(s)
    case Cancel => s.(phase := Canceled)
  }

  // The deploy may be at any point of its life when the follower comes.
  ghost predicate WritersInv(w: Writers) {
    && (forall id :: id in w.published ==> 1 <= id <= w.rows)
    && w.beforeDone <= w.published
    && (w.donePublished ==> w.finished)
  }

  ghost predicate Init(s: State) {
    && WritersInv(s.w)
    && s.feed == Feed([], [], {}) && s.phase == Starting && s.out == []
  }

  ghost predicate Next(s: State, s': State, cap: nat) {
    exists a :: Enabled(s, a) && s' == Apply(s, a, cap)
  }

  ghost predicate Run(run: seq<State>, cap: nat) {
    && |run| > 0 && Init(run[0])
    && forall i :: 0 <= i < |run| - 1 ==> Next(run[i], run[i + 1], cap)
  }

  // ---- what every step keeps ----

  ghost predicate NoRepeats(events: seq<Event>) {
    forall i, j :: 0 <= i < j < |events| ==> events[i] != events[j]
  }

  // Nothing is published twice, so nothing is in the feed twice, nor in the feed and dropped.
  ghost predicate FeedInv(w: Writers, f: Feed) {
    && NoRepeats(f.received + f.queue)
    && (forall ev :: ev in f.received + f.queue ==> Sent(w, ev))
    && (forall ev :: ev in f.dropped ==> Sent(w, ev) && ev !in f.received + f.queue)
  }

  ghost predicate Sent(w: Writers, ev: Event) {
    match ev
    case Line(id) => id in w.published
    case Done => w.donePublished
  }

  ghost predicate OutInv(p: Phase, f: Feed, out: seq<Event>) {
    match p
    case Starting => out == [] && f == Feed([], [], {})
    case Subscribed => out == [] && f.received == []
    case Replaying(count, sent) => sent <= count && out == LinesUpTo(sent) && f.received == []
    case Live(replayed) => out == LinesUpTo(replayed) + Forwarded(f.received, replayed) && Done !in f.received
    case Ended(replayed, live) =>
      if live then out == LinesUpTo(replayed) + Forwarded(f.received, replayed) && EndsAtDone(f.received)
                   && f.received != [] && f.received[|f.received| - 1] == Done
      else out == LinesUpTo(replayed) + [Done] && f.received == []
    case Canceled => true
  }

  // A published line reached the follower's replay or its feed, or was dropped.
  ghost predicate Reached(f: Feed, replayed: nat, id: nat) {
    id <= replayed || Line(id) in f.received + f.queue || Line(id) in f.dropped
  }

  ghost predicate Replays(p: Phase) {
    p.Replaying? || p.Live? || p.Ended?
  }

  ghost function ReplayCount(p: Phase): nat
    requires Replays(p)
  {
    match p
    case Replaying(count, _) => count
    case Live(replayed) => replayed
    case Ended(replayed, _) => replayed
  }

  // Lines published before Done come before it in the feed.
  ghost predicate DoneBehind(f: Feed, replayed: nat, beforeDone: set<nat>) {
    var all := f.received + f.queue;
    forall j :: 0 <= j < |all| && all[j] == Done ==>
      forall id :: id in beforeDone ==> id <= replayed || Line(id) in all[..j] || Line(id) in f.dropped
  }

  ghost predicate DoneArrives(w: Writers, p: Phase, f: Feed) {
    p.Live? && w.donePublished ==> Done in f.queue || Done in f.dropped
  }

  ghost predicate CoverInv(w: Writers, p: Phase, f: Feed) {
    Replays(p) && !p.Ended? ==>
      && ReplayCount(p) <= w.rows
      && forall id :: id in w.published ==> Reached(f, ReplayCount(p), id)
  }

  ghost predicate OrderInv(w: Writers, p: Phase, f: Feed) {
    Replays(p) ==> DoneBehind(f, ReplayCount(p), w.beforeDone)
  }

  ghost predicate Inv(s: State) {
    && WritersInv(s.w) && FeedInv(s.w, s.feed) && OutInv(s.phase, s.feed, s.out)
    && CoverInv(s.w, s.phase, s.feed) && OrderInv(s.w, s.phase, s.feed) && DoneArrives(s.w, s.phase, s.feed)
  }

  lemma LinePublishedKeeps(s: State, id: nat, cap: nat)
    requires Inv(s) && Enabled(s, PublishLine(id))
    ensures Inv(Apply(s, PublishLine(id), cap))
  {
    var t := Apply(s, PublishLine(id), cap);
    OfferKeeps(s, Line(id), t);
    OutUnchanged(s.phase, s.feed, t.feed, s.out);
  }

  // An offered event ends up in the queue or among the dropped, behind what was there.
  ghost predicate Offered(f: Feed, g: Feed, ev: Event) {
    && g.received == f.received
    && (g == f.(queue := f.queue + [ev]) || g == f.(dropped := f.dropped + {ev}))
  }

  lemma OutUnchanged(p: Phase, f: Feed, g: Feed, out: seq<Event>)
    requires OutInv(p, f, out) && g.received == f.received
    requires p.Starting? ==> g == f
    ensures OutInv(p, g, out)
  {}

  lemma OfferKeeps(s: State, ev: Event, t: State)
    requires Inv(s) && !Sent(s.w, ev) && Sent(t.w, ev)
    requires t.phase == s.phase && (if Listening(s.phase) then Offered(s.feed, t.feed, ev) else t.feed == s.feed)
    requires WritersInv(t.w) && t.w.rows == s.w.rows
    requires ev.Line? ==> t.w == s.w.(published := s.w.published + {ev.id})
    requires ev.Done? ==> t.w == s.w.(donePublished := true, beforeDone := s.w.published)
    ensures FeedInv(t.w, t.feed)
    ensures CoverInv(t.w, t.phase, t.feed)
    ensures OrderInv(t.w, t.phase, t.feed)
    ensures DoneArrives(t.w, t.phase, t.feed)
  {
    var all, all' := s.feed.received + s.feed.queue, t.feed.received + t.feed.queue;
    assert ev !in all;
    assert all' == all || all' == all + [ev];
    if Replays(s.phase) && !s.phase.Ended? {
      forall id | id in t.w.published ensures Reached(t.feed, ReplayCount(t.phase), id) {
        assert id in s.w.published ==> Reached(s.feed, ReplayCount(s.phase), id);
      }
    }
    if Replays(s.phase) {
      OrderKept(s, ev, t, all, all');
    }
  }

  lemma OrderKept(s: State, ev: Event, t: State, all: seq<Event>, all': seq<Event>)
    requires Inv(s) && Replays(s.phase) && t.phase == s.phase && !Sent(s.w, ev)
    requires if Listening(s.phase) then Offered(s.feed, t.feed, ev) else t.feed == s.feed
    requires all == s.feed.received + s.feed.queue && all' == t.feed.received + t.feed.queue
    requires all' == all || all' == all + [ev]
    requires t.w.beforeDone == if ev.Done? then s.w.published else s.w.beforeDone
    ensures OrderInv(t.w, t.phase, t.feed)
  {
    var m := ReplayCount(s.phase);
    forall j, id | 0 <= j < |all'| && all'[j] == Done && id in t.w.beforeDone
      ensures id <= m || Line(id) in all'[..j] || Line(id) in t.feed.dropped
    {
      if j < |all| {
        assert all[j] == Done && all[j] in all;
        assert all'[..j] == all[..j];
        assert Sent(s.w, Done);
        assert id in s.w.beforeDone;
      } else {
        assert all'[..j] == all;
        assert Reached(s.feed, m, id);
      }
    }
  }

  lemma DonePublishedKeeps(s: State, cap: nat)
    requires Inv(s) && Enabled(s, PublishDone)
    ensures Inv(Apply(s, PublishDone, cap))
  {
    var t := Apply(s, PublishDone, cap);
    OfferKeeps(s, Done, t);
    OutUnchanged(s.phase, s.feed, t.feed, s.out);
  }

  lemma SubscribeKeeps(s: State)
    requires Inv(s) && (s.phase.Starting? || s.phase.Subscribed?)
    ensures Inv(FollowerStep(s))
  {
    assert LinesUpTo(0) == [];
  }

  lemma ReplayLineKeeps(s: State)
    requires Inv(s) && s.phase.Replaying? && s.phase.sent < s.phase.count
    ensures Inv(FollowerStep(s))
  {
    assert LinesUpTo(s.phase.sent + 1) == LinesUpTo(s.phase.sent) + [Line(s.phase.sent + 1)];
  }

  lemma RereadKeeps(s: State)
    requires Inv(s) && s.phase.Replaying? && s.phase.sent == s.phase.count
    ensures Inv(FollowerStep(s))
  {
    assert LinesUpTo(s.phase.count) + Forwarded([], s.phase.count) == LinesUpTo(s.phase.count);
  }

  lemma StepKeeps(s: State)
    requires Inv(s) && Enabled(s, Step)
    ensures Inv(FollowerStep(s))
  {
    match s.phase {
      case Starting => SubscribeKeeps(s);
      case Subscribed => SubscribeKeeps(s);
      case Replaying(count, sent) => if sent < count { ReplayLineKeeps(s); } else { RereadKeeps(s); }
      case Live(_) => LiveStepKeeps(s);
    }
  }

  lemma LiveStepKeeps(s: State)
    requires Inv(s) && s.phase.Live? && s.feed.queue != []
    ensures Inv(FollowerStep(s))
  {
    var m, ev := s.phase.replayed, s.feed.queue[0];
    var t := FollowerStep(s);
    var r := s.feed.received;
    assert t.feed.received + t.feed.queue == r + s.feed.queue;
    assert (r + [ev])[..|r|] == r;
    assert Forwarded(r + [ev], m) == Forwarded(r, m) + if Skipped(ev, m) then [] else [ev];
    assert t.out == LinesUpTo(m) + Forwarded(r + [ev], m);
    if ev == Done {
      assert forall k :: 0 <= k < |r| ==> r[k] != Done;
    } else {
      assert Done in s.feed.queue ==> Done in t.feed.queue;
    }
  }

  lemma QuietKeeps(s: State, a: Action, cap: nat)
    requires Inv(s) && Enabled(s, a) && (a.Insert? || a.FinishDeploy? || a.Cancel?)
    ensures Inv(Apply(s, a, cap))
  {}

  lemma ApplyKeeps(s: State, a: Action, cap: nat)
    requires Inv(s) && Enabled(s, a)
    ensures Inv(Apply(s, a, cap))
  {
    match a {
      case PublishLine(id) => LinePublishedKeeps(s, id, cap);
      case PublishDone => DonePublishedKeeps(s, cap);
      case Step => StepKeeps(s);
      case _ => QuietKeeps(s, a, cap);
    }
  }

  lemma {:induction false} RunKeeps(run: seq<State>, cap: nat, i: nat)
    requires Run(run, cap) && i < |run|
    ensures Inv(run[i])
  {
    if i > 0 {
      RunKeeps(run, cap, i - 1);
      assert Next(run[i - 1], run[i - 1 + 1], cap);
      var a :| Enabled(run[i - 1], a) && run[i] == Apply(run[i - 1], a, cap);
      ApplyKeeps(run[i - 1], a, cap);
    }
  }

  // ---- what a follower gets ----

  // Each line at most once, the replay first and in order, and nothing behind a Done.
  ghost predicate WellFollowed(out: seq<Event>, replayed: nat) {
    && NoRepeats(out)
    && (forall k :: 0 <= k < |out| && k < replayed ==> out[k] == Line(k + 1))
    && (forall k :: 0 <= k < |out| - 1 ==> out[k] != Done)
  }

  lemma {:induction false} ForwardedFrom(received: seq<Event>, m: nat)
    requires NoRepeats(received)
    ensures NoRepeats(Forwarded(received, m))
    ensures forall ev :: ev in Forwarded(received, m) <==> ev in received && !Skipped(ev, m)
  {
    if received != [] {
      var front := received[..|received| - 1];
      ForwardedFrom(front, m);
      assert received == front + [received[|received| - 1]];
      assert received[|received| - 1] !in front;
    }
  }

  // A Done that was received last was passed on last.
  lemma ForwardedDoneLast(received: seq<Event>, m: nat)
    requires NoRepeats(received) && EndsAtDone(received)
    ensures forall k :: 0 <= k < |Forwarded(received, m)| - 1 ==> Forwarded(received, m)[k] != Done
    ensures received != [] && received[|received| - 1] == Done ==>
      Forwarded(received, m) != [] && Forwarded(received, m)[|Forwarded(received, m)| - 1] == Done
  {
    if received != [] {
      var front := received[..|received| - 1];
      assert Done !in front;
      ForwardedFrom(front, m);
      var g := Forwarded(front, m);
      assert forall k :: 0 <= k < |g| ==> g[k] in g;
    }
  }

  // In every run: no line twice, the replay first, and exactly one Done, as the last event,
  // once the follower has ended by itself.
  lemma FollowerGetsEachLineOnce(run: seq<State>, cap: nat, i: nat)
    requires Run(run, cap) && i < |run| && Replays(run[i].phase)
    ensures WellFollowed(run[i].out, ReplayCount(run[i].phase))
    ensures run[i].phase.Ended? <==> run[i].out != [] && run[i].out[|run[i].out| - 1] == Done
  {
    RunKeeps(run, cap, i);
    var s := run[i];
    var m := ReplayCount(s.phase);
    if s.phase.Live? || (s.phase.Ended? && s.phase.live) {
      var received := s.feed.received;
      assert received == (received + s.feed.queue)[..|received|];
      assert NoRepeats(received);
      assert EndsAtDone(received);
      ForwardedFrom(received, m);
      ForwardedDoneLast(received, m);
      FollowedShape(LinesUpTo(m), Forwarded(received, m), m);
    }
  }

  lemma FollowedShape(replay: seq<Event>, live: seq<Event>, m: nat)
    requires replay == LinesUpTo(m)
    requires NoRepeats(live) && forall ev :: ev in live ==> !Skipped(ev, m)
    requires forall k :: 0 <= k < |live| - 1 ==> live[k] != Done
    ensures WellFollowed(replay + live, m)
  {
    var out := replay + live;
    forall i, j | 0 <= i < j < |out| ensures out[i] != out[j] {
      if j >= m {
        assert out[j] == live[j - m] && live[j - m] in live;
        if i >= m {
          assert out[i] == live[i - m];
        }
      }
    }
  }

  // A Done that came over the live feed comes after every line published before it, except
  // exactly for those behind the replay that found the feed full.
  lemma LiveDoneIsComplete(run: seq<State>, cap: nat, i: nat, id: nat)
    requires Run(run, cap) && i < |run|
    requires run[i].phase.Ended? && run[i].phase.live && id in run[i].w.beforeDone
    ensures Line(id) in run[i].out <==> id <= run[i].phase.replayed || Line(id) !in run[i].feed.dropped
  {
    RunKeeps(run, cap, i);
    var s := run[i];
    var m, received := s.phase.replayed, s.feed.received;
    var all := received + s.feed.queue;
    var j := |received| - 1;
    assert all[j] == Done;
    if id <= m {
      assert LinesUpTo(m)[id - 1] == Line(id);
      assert s.out[id - 1] == Line(id);
    } else {
      assert received == all[..|received|] && NoRepeats(received);
      ForwardedFrom(received, m);
      assert all[..j] == received[..j];
      assert Line(id) in s.out <==> Line(id) in received;
    }
  }

  // Once Done was published a live follower has it ahead in the feed, if and only if it did
  // not find the feed full.
  lemma NeverWaitsPastTheEnd(run: seq<State>, cap: nat, i: nat)
    requires Run(run, cap) && i < |run|
    requires run[i].phase.Live? && run[i].w.donePublished
    ensures Done in run[i].feed.queue <==> Done !in run[i].feed.dropped
  {
    RunKeeps(run, cap, i);
  }

  // The re-read sends Done without draining the feed. It leaves out no published line exactly
  // when neither the feed nor what was dropped holds one behind the replay.
  lemma RereadMissesExactly(run: seq<State>, cap: nat, i: nat)
    requires Run(run, cap) && i < |run|
    requires run[i].phase.Replaying? && run[i].phase.sent == run[i].phase.count && run[i].w.finished
    ensures var s, t := run[i], FollowerStep(run[i]);
      && t.phase.Ended? && t.out == s.out + [Done]
      && ((forall id :: id in s.w.published ==> Line(id) in t.out)
          <==> forall ev :: ev in s.feed.queue || ev in s.feed.dropped ==> ev == Done || Skipped(ev, s.phase.count))
  {
    RunKeeps(run, cap, i);
    var s, t := run[i], FollowerStep(run[i]);
    var m := s.phase.count;
    assert forall id: nat :: 1 <= id <= m ==> LinesUpTo(m)[id - 1] == Line(id);
    assert t.out == LinesUpTo(m) + [Done];
    assert forall id: nat :: Line(id) in t.out <==> 1 <= id <= m;
    assert s.feed.received + s.feed.queue == s.feed.queue;
    if forall id :: id in s.w.published ==> Line(id) in t.out {
      forall ev | ev in s.feed.queue || ev in s.feed.dropped ensures ev == Done || Skipped(ev, m) {
        assert Sent(s.w, ev);
      }
    }
    if forall ev :: ev in s.feed.queue || ev in s.feed.dropped ==> ev == Done || Skipped(ev, m) {
      forall id | id in s.w.published ensures Line(id) in t.out {
        assert Reached(s.feed, m, id);
      }
    }
  }

  // ---- what it may not get ----

  ghost predicate Reaches(s: State, cap: nat) {
    exists run :: Run(run, cap) && run[|run| - 1] == s
  }

  lemma ReachInit(s: State, cap: nat)
    requires Init(s)
    ensures Reaches(s, cap)
  {
    assert Run([s], cap) && [s][|[s]| - 1] == s;
  }

  lemma ReachStep(s: State, a: Action, cap: nat)
    requires Reaches(s, cap) && Enabled(s, a)
    ensures Reaches(Apply(s, a, cap), cap)
  {
    var run :| Run(run, cap) && run[|run| - 1] == s;
    var longer := run + [Apply(s, a, cap)];
    forall i | 0 <= i < |longer| - 1 ensures Next(longer[i], longer[i + 1], cap) {
      if i < |run| - 1 {
        assert Next(run[i], run[i + 1], cap);
      }
    }
    assert Run(longer, cap) && longer[|longer| - 1] == Apply(s, a, cap);
  }

  // A follower of a fresh deploy that has subscribed, found nothing to replay, and not yet
  // read again.
  ghost function Waiting(phase: Phase): State {
    State(Writers(0, {}, false, false, {}), Feed([], [], {}), phase, [])
  }

  lemma ReachReplayed(cap: nat)
    ensures Reaches(Waiting(Replaying(0, 0)), cap)
  {
    var s := Waiting(Starting);
    ReachInit(s, cap);
    ReachStep(s, Step, cap);
    ReachStep(Waiting(Subscribed), Step, cap);
  }

  // A line published between the replay and the end of the deploy can be missing although
  // nothing was dropped: the re-read comes first.
  lemma RereadCanSkipALine(cap: nat) returns (s: State)
    requires cap > 1
    ensures Reaches(s, cap) && s.phase == Ended(0, false) && s.out == [Done]
    ensures 1 in s.w.published && Line(1) !in s.out && s.feed.dropped == {}
  {
    ReachReplayed(cap);
    s := Waiting(Replaying(0, 0));
    ReachStep(s, Insert, cap);
    s := Apply(s, Insert, cap);
    ReachStep(s, PublishLine(1), cap);
    s := Apply(s, PublishLine(1), cap);
    ReachStep(s, FinishDeploy, cap);
    s := Apply(s, FinishDeploy, cap);
    ReachStep(s, Step, cap);
    s := Apply(s, Step, cap);
  }

  // A follower whose Done was dropped: there is nothing left that could end it.
  ghost predicate Stranded(s: State) {
    s.phase.Live? && s.w.donePublished && Done !in s.feed.queue
  }

  // Publishing Done strands a live follower if and only if its feed is full just then.
  lemma DoneStrandsExactly(run: seq<State>, cap: nat, i: nat)
    requires Run(run, cap) && i < |run| && run[i].phase.Live? && Enabled(run[i], PublishDone)
    ensures Stranded(Apply(run[i], PublishDone, cap)) <==> |run[i].feed.queue| >= cap
  {
    RunKeeps(run, cap, i);
    StrandedByStep(run[i], PublishDone, cap);
  }

  // Step j of the run published Done to a live follower whose feed was full.
  ghost predicate FullAtDone(run: seq<State>, cap: nat, j: nat) {
    && j + 1 < |run| && run[j].phase.Live? && |run[j].feed.queue| >= cap
    && !run[j].w.donePublished && run[j + 1].w.donePublished
  }

  // Over a whole run: a follower is stranded if and only if it has not canceled and its feed
  // was full when Done was published.
  lemma {:induction false} StrandedExactly(run: seq<State>, cap: nat, i: nat)
    requires Run(run, cap) && i < |run|
    ensures Stranded(run[i]) <==> run[i].phase.Live? && exists j :: 0 <= j < i && FullAtDone(run, cap, j)
  {
    if i > 0 {
      StrandedExactly(run, cap, i - 1);
      RunKeeps(run, cap, i - 1);
      assert Next(run[i - 1], run[i - 1 + 1], cap);
      var a :| Enabled(run[i - 1], a) && run[i] == Apply(run[i - 1], a, cap);
      StrandedByStep(run[i - 1], a, cap);
      assert FullAtDone(run, cap, i - 1) <==>
        run[i - 1].phase.Live? && a == PublishDone && |run[i - 1].feed.queue| >= cap;
      if j :| 0 <= j < i - 1 && FullAtDone(run, cap, j) {
        ReplaysOnce(run, cap, j, i - 1);
      }
    } else {
      RunKeeps(run, cap, 0);
    }
  }

  lemma {:induction false} ReplaysOnce(run: seq<State>, cap: nat, j: nat, i: nat)
    requires Run(run, cap) && j <= i < |run| && run[j].phase.Live?
    ensures run[i].phase.Live? || run[i].phase.Ended? || run[i].phase.Canceled?
    decreases i - j
  {
    if j < i {
      ReplaysOnce(run, cap, j, i - 1);
      assert Next(run[i - 1], run[i - 1 + 1], cap);
    }
  }

  lemma StrandedByStep(s: State, a: Action, cap: nat)
    requires Inv(s) && Enabled(s, a)
    ensures var t := Apply(s, a, cap);
      Stranded(t) <==> t.phase.Live? && (Stranded(s) || (s.phase.Live? && a == PublishDone && |s.feed.queue| >= cap))
  {
    var q := s.feed.queue;
    match a {
      case PublishDone =>
        assert forall ev :: ev in q ==> ev in s.feed.received + q;
        assert (q + [Done])[|q|] == Done;
      case PublishLine(id) => assert Done in q + [Line(id)] <==> Done in q;
      case Step =>
        if s.phase.Live? {
          assert q == [q[0]] + q[1..];
        }
      case _ =>
    }
  }

  lemma StrandedForGood(s: State, a: Action, cap: nat)
    requires Stranded(s) && Enabled(s, a)
    ensures a == Cancel || Stranded(Apply(s, a, cap))
  {
    if a == Step {
      assert s.feed.queue[0] in s.feed.queue;
    }
  }

  ghost function UpTo(n: nat): (ids: set<nat>)
    ensures forall id :: id in ids ==> 1 <= id <= n
  {
    if n == 0 then {} else UpTo(n - 1) + {n}
  }

  // The lines 1..n wait in the feed of a live follower that has received none of them.
  ghost function Filled(n: nat): State {
    State(Writers(n, UpTo(n), false, false, {}), Feed(LinesUpTo(n), [], {}), Live(0), [])
  }

  lemma {:induction false} ReachFilled(n: nat, cap: nat)
    requires n <= cap
    ensures Reaches(Filled(n), cap)
  {
    if n == 0 {
      ReachReplayed(cap);
      ReachStep(Waiting(Replaying(0, 0)), Step, cap);
      assert LinesUpTo(0) == [];
    } else {
      ReachFilled(n - 1, cap);
      var s := Filled(n - 1);
      ReachStep(s, Insert, cap);
      var t := Apply(s, Insert, cap);
      ReachStep(t, PublishLine(n), cap);
      assert LinesUpTo(n) == LinesUpTo(n - 1) + [Line(n)];
    }
  }

  // However large the feed is, as many unread lines as it holds strand the follower when the
  // deploy ends: Done is dropped, and it waits for ever.
  lemma FullFeedStrands(cap: nat) returns (s: State)
    ensures Reaches(s, cap) && Stranded(s) && Done in s.feed.dropped
  {
    ReachFilled(cap, cap);
    s := Filled(cap);
    ReachStep(s, FinishDeploy, cap);
    s := Apply(s, FinishDeploy, cap);
    ReachStep(s, PublishDone, cap);
    s := Apply(s, PublishDone, cap);
  }
}

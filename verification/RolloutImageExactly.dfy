/** When every run of a rollout pins one image only: exactly for the plans that say so. */
module RolloutImageExactly {
  import opened Model
  import opened Rollout
  import opened RolloutDrive
  import opened RolloutImage

  // The first wave whose first instance pins; the number of waves if there is none.
  lemma {:induction false} LeadingWave(c: Config, n: nat) returns (v: nat)
    requires c.WellFormed() && n <= |c.first|
    requires forall w :: 0 <= w < n ==> c.PinsOf(c.first[w]) == 0
    ensures n <= v <= |c.first|
    ensures forall w :: 0 <= w < v ==> c.PinsOf(c.first[w]) == 0
    ensures v < |c.first| ==> c.PinsOf(c.first[v]) > 0
    decreases |c.first| - n
  {
    if n == |c.first| || c.PinsOf(c.first[n]) > 0 {
      v := n;
    } else {
      v := LeadingWave(c, n + 1);
    }
  }

  // Everybody who pins before anyone could hand a digest over has pinned its own.
  ghost predicate OwnPins(c: Config, s: State, v: nat) {
    forall id :: id in c.waveOf && (c.waveOf[id] < v || (v < |c.first| && id == c.first[v])) ==>
      PinnedBy(s.log.pins, id) == Chosen(c, id, Unresolved)
  }

  lemma {:induction false} ReachOwnPins(c: Config, v: nat) returns (s: State)
    requires c.WellFormed() && v <= |c.first| && !DigestBy(c, v)
    ensures Reaches(c, Untouched(c), s) && OwnPins(c, s, v)
  {
    var t := SucceedWaves(c, v);
    if v == |c.first| {
      s := t;
    } else {
      s := FirstDone(c, Untouched(c), t, v);
    }
    forall id | id in c.waveOf && c.waveOf[id] < v
      ensures PinnedBy(s.log.pins, id) == Chosen(c, id, Unresolved)
    {
      assert Ended(c, t, id) && !DigestBy(c, c.waveOf[id] + 1) && (v < |c.first| ==> SameAt(t, s, id));
    }
  }

  ghost predicate PinsBy(c: Config, v: nat, id: ExecId) {
    id in c.waveOf && c.PinsOf(id) > 0 && (c.waveOf[id] < v || (v < |c.first| && id == c.first[v]))
  }

  // Two image.pins among those that pin their own digest pin two.
  lemma {:induction false} OwnPinsDiffer(c: Config, s: State, v: nat, a: ExecId, b: ExecId)
    requires OwnPins(c, s, v) && PinsBy(c, v, a) && PinsBy(c, v, b)
    requires a != b || c.PinsOf(a) > 1
    ensures !PinsOneDigest(s)
  {
    var own, other := Chosen(c, a, Unresolved), Chosen(c, b, Unresolved);
    assert PinnedBy(s.log.pins, a) == own && PinnedBy(s.log.pins, b) == other;
    assert own[0] == Sha256(2 * a) && other[0] == Sha256(2 * b);
    if a == b {
      assert own[1] == Sha256(2 * a + 1);
    }
    assert a in s.log.pins && b in s.log.pins;
  }

  // ... and a plan that does not say otherwise has two such.
  lemma {:induction false} TwoAmongThem(c: Config, v: nat) returns (a: ExecId, b: ExecId)
    requires c.WellFormed() && !OneImagePlan(c) && v <= |c.first|
    requires v < |c.first| ==> c.PinsOf(c.first[v]) > 0
    ensures PinsBy(c, v, a) && PinsBy(c, v, b) && (a != b || c.PinsOf(a) > 1)
  {
    if v < |c.first| {
      a, b := c.first[v], c.first[v];
      if c.PinsOf(a) == 1 {
        assert !LedBy(c, v);
        b :| b in c.waveOf && c.waveOf[b] < v && c.PinsOf(b) != 0;
      }
    } else if k :| k in c.waveOf && c.PinsOf(k) > 1 {
      a, b := k, k;
    } else {
      a, b :| a in c.waveOf && b in c.waveOf && c.PinsOf(a) > 0 && c.PinsOf(b) > 0 && a != b;
    }
  }

  // A plan that does not say otherwise has a run that pins two images.
  lemma {:induction false} OtherwiseTwoImages(c: Config) returns (run: seq<State>)
    requires c.WellFormed() && !OneImagePlan(c)
    ensures Run(c, run) && !PinsOneDigest(run[|run| - 1])
  {
    var v := LeadingWave(c, 0);
    var s := ReachOwnPins(c, v);
    run := ReachedByRun(c, Untouched(c), s);
    var a, b := TwoAmongThem(c, v);
    OwnPinsDiffer(c, s, v, a, b);
  }

  // Every run of a rollout pins at most one digest if and only if the trigger brought the
  // digest, or there is at most one image.pin, or the first instance of the first wave that
  // pins at all does so, once.
  lemma {:induction false} OneImageExactly(c: Config)
    requires c.WellFormed()
    ensures OneImagePlan(c) <==> forall run: seq<State> :: Run(c, run) ==> PinsOneDigest(run[|run| - 1])
  {
    if OneImagePlan(c) {
      forall run: seq<State> | Run(c, run)
        ensures PinsOneDigest(run[|run| - 1])
      {
        OneImagePerRollout(c, run, |run| - 1);
      }
    } else {
      var run := OtherwiseTwoImages(c);
    }
  }
}

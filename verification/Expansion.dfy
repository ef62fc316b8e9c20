/** What interpolating a pipeline's arguments amounts to (internal/ops/interpolate.go), said
    without the way it is done: which string stands where, and what a reference finds. */
module Expansion {
  import opened Interpolate
  import opened Ops
  import opened Wrappers

  // ---- strings ----

  // A reference nowhere in the string.
  ghost predicate Unreferring(s: string) {
    forall i :: 0 <= i <= |s| ==> NoReference(s[i..])
  }

  // A string without references stays as it is. With Interpolate.ReplacedInPlace this
  // determines what any string becomes.
  lemma {:induction false} WithoutReferencesUnchanged(s: string, payload: map<string, Json>)
    requires Unreferring(s)
    ensures TextOf(s, payload) == s && ProblemOf(s, payload).None?
    decreases |s|
  {
    if s != "" {
      var p, rest := PieceAt(s), s[1..];
      assert s[0..] == s && NoReference(s[0..]);
      assert p == Lit(s[0]) && Written(p) == [s[0]];
      forall i | 0 <= i <= |rest| ensures NoReference(rest[i..]) {
        assert rest[i..] == s[i + 1..];
      }
      WithoutReferencesUnchanged(rest, payload);
      assert Parse(s) == [p] + Parse(rest);
      var rs := Replacements(Parse(s), payload);
      assert rs[1..] == Replacements(Parse(rest), payload);
      assert s == [s[0]] + rest;
    }
  }

  // ---- references ----

  lemma {:induction false} PartsOfName(n: string)
    requires '.' !in n
    ensures Parts(n) == [n]
  {
    if n != "" {
      PartsOfName(n[1..]);
      assert [n[0]] + n[1..] == n;
    }
  }

  lemma {:induction false} PartsBehind(n: string, rest: string)
    requires '.' !in n
    ensures Parts(n + ("." + rest)) == [n] + Parts(rest)
  {
    var path := n + ("." + rest);
    if n == "" {
      assert path == "." + rest && path[1..] == rest;
    } else {
      PartsBehind(n[1..], rest);
      assert path[1..] == n[1..] + ("." + rest);
      assert [n[0]] + n[1..] == n;
      assert ([n[1..]] + Parts(rest))[1..] == Parts(rest);
    }
  }

  // A name finds what the payload holds under it: the text of a scalar, which for a boolean is
  // its word, for a number its digits and for null nothing; or no text at all.
  lemma NameFinds(payload: map<string, Json>, n: string)
    requires '.' !in n
    ensures n !in payload ==> LookedUp(payload, n) == Absent
    ensures n in payload ==>
      match payload[n]
      case Text(t) => LookedUp(payload, n) == Scalar(t)
      case Bool(b) => LookedUp(payload, n) == Scalar(if b then "true" else "false")
      case Number(digits) => LookedUp(payload, n) == Scalar(digits)
      case Null => LookedUp(payload, n) == Scalar("")
      case Array(_) => LookedUp(payload, n) == Compound
      case Object(_) => LookedUp(payload, n) == Compound
  {
    PartsOfName(n);
    var v := Object(payload);
    assert [n][1..] == [];
    assert n in payload ==> At(v, [n]) == At(payload[n], []);
  }

  // A path goes on inside the object its first name finds, and finds nothing elsewhere.
  lemma PathFinds(payload: map<string, Json>, n: string, rest: string)
    requires '.' !in n
    ensures LookedUp(payload, n + ("." + rest)) ==
      if n in payload && payload[n].Object? then LookedUp(payload[n].fields, rest) else Absent
  {
    PartsBehind(n, rest);
    var v, parts := Object(payload), [n] + Parts(rest);
    assert parts[1..] == Parts(rest);
    if n in payload {
      assert At(v, parts) == At(payload[n], Parts(rest));
      if payload[n].Object? {
        assert payload[n] == Object(payload[n].fields);
      }
    }
  }

  // ---- arguments ----

  datatype Turn = Index(i: nat) | Key(k: string)

  // The string at a place in an argument, if there is one.
  ghost function StringAt(v: Val, place: seq<Turn>): Option<string> {
    match v
    case Str(s) => if place == [] then Some(s) else None
    case List(elems) =>
      if place != [] && place[0].Index? && place[0].i < |elems| then StringAt(elems[place[0].i], place[1..]) else None
    case Dict(entries) =>
      if |place| == 1 && place[0].Key? && place[0].k in entries then Some(entries[place[0].k]) else None
    case Struct(fields) =>
      if place != [] && place[0].Index? && place[0].i < |fields| then StringAt(fields[place[0].i], place[1..]) else None
    case Plain => None
  }

  // Wherever a string stood its text stands now, and nowhere else a string.
  lemma {:induction false} ExpandedAt(v: Val, payload: map<string, Json>, place: seq<Turn>)
    ensures StringAt(Expanded(v, payload), place) ==
      match StringAt(v, place)
      case None => None
      case Some(s) => Some(TextOf(s, payload))
    decreases |place|
  {
    match v {
      case List(elems) =>
        if place != [] && place[0].Index? && place[0].i < |elems| {
          ExpandedAt(elems[place[0].i], payload, place[1..]);
        }
      case Struct(fields) =>
        if place != [] && place[0].Index? && place[0].i < |fields| {
          ExpandedAt(fields[place[0].i], payload, place[1..]);
        }
      case _ =>
    }
  }

  lemma {:induction false} SoundAt(v: Val, payload: map<string, Json>, place: seq<Turn>)
    requires Sound(v, payload) && StringAt(v, place).Some?
    ensures ProblemOf(StringAt(v, place).value, payload).None?
    decreases |place|
  {
    match v {
      case List(elems) => SoundAt(elems[place[0].i], payload, place[1..]);
      case Struct(fields) => SoundAt(fields[place[0].i], payload, place[1..]);
      case _ =>
    }
  }

  lemma {:induction false} UnsoundAt(v: Val, payload: map<string, Json>) returns (place: seq<Turn>)
    requires !Sound(v, payload)
    ensures StringAt(v, place).Some? && ProblemOf(StringAt(v, place).value, payload).Some?
    decreases v
  {
    match v {
      case Str(s) => place := [];
      case List(elems) =>
        var i :| 0 <= i < |elems| && !Sound(elems[i], payload);
        var more := UnsoundAt(elems[i], payload);
        place := [Index(i)] + more;
        assert place[1..] == more;
      case Struct(fields) =>
        var i :| 0 <= i < |fields| && !Sound(fields[i], payload);
        var more := UnsoundAt(fields[i], payload);
        place := [Index(i)] + more;
        assert place[1..] == more;
      case Dict(entries) =>
        var k :| k in entries && ProblemOf(entries[k], payload).Some?;
        place := [Key(k)];
    }
  }

  // Interpolating an argument succeeds if and only if no string in it has a problem.
  lemma SoundExactly(v: Val, payload: map<string, Json>)
    ensures Sound(v, payload) <==>
      forall place :: StringAt(v, place).Some? ==> ProblemOf(StringAt(v, place).value, payload).None?
  {
    if Sound(v, payload) {
      forall place | StringAt(v, place).Some? ensures ProblemOf(StringAt(v, place).value, payload).None? {
        SoundAt(v, payload, place);
      }
    } else {
      var place := UnsoundAt(v, payload);
    }
  }
}

/** internal/ops/interpolate.go: replacing ${payload.a.b} and ${payload.a.b?} references in the
    string arguments of a pipeline. */
module Interpolate {
  import opened Ops
  import opened Wrappers

  // A decoded payload. A number carries the decimal text it is written out as.
  datatype Json =
    | Null
    | Bool(b: bool)
    | Number(text: string)
    | Text(t: string)
    | Array(elems: seq<Json>)
    | Object(fields: map<string, Json>)

  datatype Problem = Missing(path: string) | NotScalar(path: string)

  // A piece of a string: a character that stands for itself, or a reference.
  datatype Piece = Lit(c: char) | Ref(path: string, optional: bool)

  // ---- the reference grammar ----

  predicate NameStart(c: char) {
    'A' <= c <= 'Z' || 'a' <= c <= 'z' || '0' <= c <= '9' || c == '_'
  }

  predicate NameChar(c: char) {
    NameStart(c) || c == '.' || c == '-'
  }

  ghost predicate ValidPath(p: string) {
    |p| > 0 && NameStart(p[0]) && forall k :: 0 <= k < |p| ==> NameChar(p[k])
  }

  ghost predicate ValidPiece(p: Piece) {
    p.Ref? ==> ValidPath(p.path)
  }

  const OPEN: string := "${payload."

  function Close(optional: bool): string {
    if optional then "?}" else "}"
  }

  function Written(p: Piece): (s: string)
    ensures |s| > 0
  {
    match p
    case Lit(c) => [c]
    case Ref(path, optional) => OPEN + (path + Close(optional))
  }

  // How many of the first characters of s can stand in a path.
  function NameLength(s: string): (n: nat)
    ensures n <= |s|
    ensures forall k :: 0 <= k < n ==> NameChar(s[k])
    ensures n < |s| ==> !NameChar(s[n])
  {
    if |s| > 0 && NameChar(s[0]) then 1 + NameLength(s[1..]) else 0
  }

  // The rest of a reference behind its opening.
  function MatchBody(s: string): (r: Option<Piece>) {
    var n := NameLength(s);
    if n == 0 || !NameStart(s[0]) then None
    else if Close(false) <= s[n..] then Some(Ref(s[..n], false))
    else if Close(true) <= s[n..] then Some(Ref(s[..n], true))
    else None
  }

  // The reference s begins with, if any.
  function Match(s: string): (r: Option<Piece>) {
    if OPEN <= s then MatchBody(s[|OPEN|..]) else None
  }

  lemma PrefixOfTwo(a: string, b: string, s: string)
    ensures a + b <= s <==> a <= s && b <= s[|a|..]
  {
    if a + b <= s {
      assert a == (a + b)[..|a|] == s[..|a|];
      assert b == (a + b)[|a|..] == s[|a|..|a| + |b|];
    }
    if a <= s && b <= s[|a|..] {
      assert s[..|a| + |b|] == s[..|a|] + s[|a|..][..|b|];
    }
  }

  // A path can only end where its last name character does: the grammar is unambiguous.
  lemma NameLengthOf(path: string, s: string)
    requires forall k :: 0 <= k < |path| ==> NameChar(path[k])
    requires path <= s && |path| < |s| && !NameChar(s[|path|])
    ensures NameLength(s) == |path|
  {
    var n := NameLength(s);
    assert forall k :: 0 <= k < |path| ==> s[k] == path[k];
  }

  lemma BodyExact(s: string, path: string, optional: bool)
    ensures MatchBody(s) == Some(Ref(path, optional)) <==> ValidPath(path) && path + Close(optional) <= s
  {
    PrefixOfTwo(path, Close(optional), s);
    var n := NameLength(s);
    if MatchBody(s) == Some(Ref(path, optional)) {
      assert path == s[..n];
    }
    if ValidPath(path) && path <= s && Close(optional) <= s[|path|..] {
      assert s[|path|] == s[|path|..][0] == Close(optional)[0];
      NameLengthOf(path, s);
      assert s[..n] == path && s[0] == path[0];
      assert s[n..][0] == Close(optional)[0];
    }
  }

  // A string begins with a reference exactly when Match finds it.
  lemma MatchExact(s: string, r: Piece)
    requires r.Ref?
    ensures Match(s) == Some(r) <==> ValidPiece(r) && Written(r) <= s
  {
    PrefixOfTwo(OPEN, r.path + Close(r.optional), s);
    if OPEN <= s {
      BodyExact(s[|OPEN|..], r.path, r.optional);
    }
  }

  lemma MatchIsRef(s: string)
    ensures Match(s).Some? ==> Match(s).value.Ref?
  {}

  // ---- parsing a string into pieces ----

  ghost predicate NoReference(s: string) {
    forall r: Piece :: r.Ref? && ValidPiece(r) ==> !(Written(r) <= s)
  }

  // s begins with the piece p: references are taken where they stand, and a character stands
  // for itself only where no reference begins.
  ghost predicate Begins(s: string, p: Piece) {
    ValidPiece(p) && Written(p) <= s && (p.Lit? ==> NoReference(s))
  }

  function FirstPiece(s: string): (p: Piece)
    requires s != ""
    ensures Begins(s, p)
  {
    MatchIsRef(s);
    match Match(s)
    case Some(r) => MatchExact(s, r); r
    case None => NoMatchNoReference(s); Lit(s[0])
  }

  lemma NoMatchNoReference(s: string)
    requires Match(s).None?
    ensures NoReference(s)
  {
    forall r: Piece | r.Ref? && ValidPiece(r) ensures !(Written(r) <= s) {
      MatchExact(s, r);
    }
  }

  lemma OneBeginning(s: string, p: Piece, q: Piece)
    requires Begins(s, p) && Begins(s, q)
    ensures p == q
  {
    assert Written(p)[0] == s[0] == Written(q)[0];
    if p.Ref? {
      MatchExact(s, p);
    }
    if q.Ref? {
      MatchExact(s, q);
    }
  }

  // The piece s begins with.
  ghost function PieceAt(s: string): (p: Piece)
    requires s != ""
    ensures Begins(s, p)
  {
    assert Begins(s, FirstPiece(s));
    var p :| Begins(s, p);
    p
  }

  ghost function Parse(s: string): seq<Piece>
    decreases |s|
  {
    if s == "" then []
    else [PieceAt(s)] + Parse(s[|Written(PieceAt(s))|..])
  }

  ghost function WrittenAll(ps: seq<Piece>): string {
    if ps == [] then "" else Written(ps[0]) + WrittenAll(ps[1..])
  }

  ghost predicate Leftmost(ps: seq<Piece>) {
    ps != [] ==> Begins(WrittenAll(ps), ps[0]) && Leftmost(ps[1..])
  }

  lemma {:induction false} ParseWritten(s: string)
    ensures WrittenAll(Parse(s)) == s
    ensures Leftmost(Parse(s))
    decreases |s|
  {
    if s != "" {
      var p := PieceAt(s);
      var rest := s[|Written(p)|..];
      ParseWritten(rest);
      assert Parse(s)[1..] == Parse(rest);
      assert s == Written(p) + rest;
    }
  }

  // Any way to write a string in pieces that misses no reference is the way Parse writes it.
  lemma {:induction false} ParseUnique(ps: seq<Piece>)
    requires Leftmost(ps)
    ensures Parse(WrittenAll(ps)) == ps
  {
    if ps != [] {
      var s := WrittenAll(ps);
      var tail := WrittenAll(ps[1..]);
      ParseUnique(ps[1..]);
      assert s == Written(ps[0]) + tail;
      OneBeginning(s, PieceAt(s), ps[0]);
      assert s[|Written(ps[0])|..] == tail;
    }
  }

  // The matches a regular-expression engine finds, with the text between them.
  method Pieces(s: string) returns (ps: seq<Piece>)
    ensures ps == Parse(s)
  {
    ps := [];
    var rest := s;
    while rest != ""
      invariant ps + Parse(rest) == Parse(s)
      decreases |rest|
    {
      var p := FirstPiece(rest);
      OneBeginning(rest, p, PieceAt(rest));
      ParseOn(ps, rest);
      ps := ps + [p];
      rest := rest[|Written(p)|..];
    }
  }

  lemma ParseOn(ps: seq<Piece>, rest: string)
    requires rest != ""
    ensures var p := PieceAt(rest);
      ps + Parse(rest) == (ps + [p]) + Parse(rest[|Written(p)|..])
  {
    assert ps + ([PieceAt(rest)] + Parse(rest[|Written(PieceAt(rest))|..]))
        == (ps + [PieceAt(rest)]) + Parse(rest[|Written(PieceAt(rest))|..]);
  }

  // ---- looking a reference up ----

  ghost function Parts(path: string): (parts: seq<string>)
    ensures |parts| > 0
  {
    if path == "" then [""]
    else
      var rest := Parts(path[1..]);
      if path[0] == '.' then [""] + rest else [[path[0]] + rest[0]] + rest[1..]
  }

  ghost function Joined(parts: seq<string>): string
    requires |parts| > 0
  {
    if |parts| == 1 then parts[0] else parts[0] + "." + Joined(parts[1..])
  }

  ghost predicate NoDots(parts: seq<string>) {
    forall k :: 0 <= k < |parts| ==> '.' !in parts[k]
  }

  lemma {:induction false} SplitJoined(path: string)
    ensures Joined(Parts(path)) == path && NoDots(Parts(path))
  {
    if path != "" {
      SplitJoined(path[1..]);
      var rest := Parts(path[1..]);
      if path[0] == '.' {
        assert ([""] + rest)[1..] == rest;
        assert path == "" + "." + path[1..];
      } else {
        var parts := [[path[0]] + rest[0]] + rest[1..];
        assert parts[1..] == rest[1..];
        assert path == [path[0]] + path[1..];
        if |rest| > 1 {
          assert [path[0]] + (rest[0] + "." + Joined(rest[1..])) == ([path[0]] + rest[0]) + "." + Joined(rest[1..]);
        }
      }
    }
  }

  method Split(path: string) returns (parts: seq<string>)
    ensures parts == Parts(path)
  {
    parts := [""];
    var i := |path|;
    while i > 0
      invariant 0 <= i <= |path| && parts == Parts(path[i..])
    {
      i := i - 1;
      assert path[i..][1..] == path[i + 1..];
      parts := if path[i] == '.' then [""] + parts else [[path[i]] + parts[0]] + parts[1..];
    }
    assert path[0..] == path;
  }

  // What stands at the end of a path: nothing where a part is missing or its parent is not an
  // object.
  ghost function At(v: Json, parts: seq<string>): Option<Json> {
    if parts == [] then Some(v)
    else if v.Object? && parts[0] in v.fields then At(v.fields[parts[0]], parts[1..])
    else None
  }

  lemma {:induction false} AtSnoc(v: Json, parts: seq<string>, p: string)
    ensures At(v, parts + [p]) ==
      match At(v, parts)
      case None => None
      case Some(w) => At(w, [p])
  {
    if parts == [] {
      assert parts + [p] == [p];
    } else if v.Object? && parts[0] in v.fields {
      assert (parts + [p])[1..] == parts[1..] + [p];
      AtSnoc(v.fields[parts[0]], parts[1..], p);
    }
  }

  // What a lookup yields: the text of a scalar, nothing, or a value that has no text.
  datatype Found = Scalar(text: string) | Absent | Compound

  ghost function ScalarText(v: Option<Json>): Found {
    match v
    case None => Absent
    case Some(Text(t)) => Scalar(t)
    case Some(Bool(b)) => Scalar(if b then "true" else "false")
    case Some(Number(text)) => Scalar(text)
    case Some(Null) => Scalar("")
    case Some(Array(_)) => Compound
    case Some(Object(_)) => Compound
  }

  ghost function LookedUp(payload: map<string, Json>, path: string): Found {
    ScalarText(At(Object(payload), Parts(path)))
  }

  method LookupPayload(payload: map<string, Json>, path: string) returns (found: Found)
    ensures found == LookedUp(payload, path)
  {
    var cur := Object(payload);
    var parts := Split(path);
    var i := 0;
    while i < |parts|
      invariant 0 <= i <= |parts| && At(Object(payload), parts[..i]) == Some(cur)
    {
      assert parts[..i + 1] == parts[..i] + [parts[i]];
      AtSnoc(Object(payload), parts[..i], parts[i]);
      if !cur.Object? || parts[i] !in cur.fields {
        AbsentStays(Object(payload), parts[..i + 1], parts[i + 1..]);
        assert parts == parts[..i + 1] + parts[i + 1..];
        return Absent;
      }
      cur := cur.fields[parts[i]];
      i := i + 1;
    }
    assert parts[..|parts|] == parts;
    match cur {
      case Text(t) => return Scalar(t);
      case Bool(b) => return Scalar(if b then "true" else "false");
      case Number(text) => return Scalar(text);
      case Null => return Scalar("");
      case _ => return Compound;
    }
  }

  lemma {:induction false} AbsentStays(v: Json, parts: seq<string>, more: seq<string>)
    requires At(v, parts).None?
    ensures At(v, parts + more).None?
  {
    if v.Object? && parts[0] in v.fields {
      assert (parts + more)[1..] == parts[1..] + more;
      AbsentStays(v.fields[parts[0]], parts[1..], more);
    }
  }

  // ---- one string ----

  // What a piece turns into, and what is wrong with it.
  datatype Replacement = Replacement(text: string, problem: Option<Problem>)

  ghost function ReplacementOf(p: Piece, payload: map<string, Json>): Replacement {
    match p
    case Lit(c) => Replacement([c], None)
    case Ref(path, optional) =>
      match LookedUp(payload, path)
      case Scalar(text) => Replacement(text, None)
      case Absent => Replacement("", if optional then None else Some(Missing(path)))
      case Compound => Replacement("", Some(NotScalar(path)))
  }

  ghost function Replacements(ps: seq<Piece>, payload: map<string, Json>): seq<Replacement> {
    seq(|ps|, i requires 0 <= i < |ps| => ReplacementOf(ps[i], payload))
  }

  ghost function Texts(rs: seq<Replacement>): string {
    if rs == [] then "" else rs[0].text + Texts(rs[1..])
  }

  ghost function FirstProblem(rs: seq<Replacement>): Option<Problem> {
    if rs == [] then None
    else if rs[0].problem.Some? then rs[0].problem
    else FirstProblem(rs[1..])
  }

  method Substitute(p: Piece, payload: map<string, Json>) returns (r: Replacement)
    ensures r == ReplacementOf(p, payload)
  {
    match p {
      case Lit(c) => return Replacement([c], None);
      case Ref(path, optional) =>
        var found := LookupPayload(payload, path);
        match found {
          case Scalar(text) => return Replacement(text, None);
          case Absent => return Replacement("", if optional then None else Some(Missing(path)));
          case Compound => return Replacement("", Some(NotScalar(path)));
        }
    }
  }

  method SubstituteAll(ps: seq<Piece>, payload: map<string, Json>) returns (rs: seq<Replacement>)
    ensures rs == Replacements(ps, payload)
  {
    rs := [];
    for i := 0 to |ps|
      invariant rs == Replacements(ps, payload)[..i]
    {
      var r := Substitute(ps[i], payload);
      rs := rs + [r];
    }
  }

  lemma From(rs: seq<Replacement>, i: nat, out: string)
    requires i < |rs|
    ensures out + Texts(rs[i..]) == (out + rs[i].text) + Texts(rs[i + 1..])
    ensures FirstProblem(rs[i..]) == if rs[i].problem.Some? then rs[i].problem else FirstProblem(rs[i + 1..])
  {
    assert rs[i..][0] == rs[i] && rs[i..][1..] == rs[i + 1..];
    assert out + (rs[i].text + Texts(rs[i + 1..])) == (out + rs[i].text) + Texts(rs[i + 1..]);
  }

  // The texts one after the other; the error is that of the first piece that has one.
  method Combine(rs: seq<Replacement>) returns (out: string, error: Option<Problem>)
    ensures out == Texts(rs)
    ensures error == FirstProblem(rs)
  {
    out, error := "", None;
    for i := 0 to |rs|
      invariant out + Texts(rs[i..]) == Texts(rs)
      invariant FirstProblem(rs) == if error.Some? then error else FirstProblem(rs[i..])
    {
      From(rs, i, out);
      out := out + rs[i].text;
      if error.None? {
        error := rs[i].problem;
      }
    }
  }

  ghost function TextOf(s: string, payload: map<string, Json>): string {
    Texts(Replacements(Parse(s), payload))
  }

  ghost function ProblemOf(s: string, payload: map<string, Json>): Option<Problem> {
    FirstProblem(Replacements(Parse(s), payload))
  }

  // The string is its pieces' values, each inserted once and as it is; the error is that of
  // the first reference that has one.
  method InterpolateString(s: string, payload: map<string, Json>) returns (out: string, error: Option<Problem>)
    ensures out == TextOf(s, payload)
    ensures error == ProblemOf(s, payload)
  {
    var pieces := Pieces(s);
    var replacements := SubstituteAll(pieces, payload);
    out, error := Combine(replacements);
  }

  // What makes a piece fail: a reference that is required and missing, or one that is not a
  // scalar, optional or not.
  ghost predicate Unresolvable(p: Piece, payload: map<string, Json>) {
    p.Ref? && (LookedUp(payload, p.path).Compound? || (LookedUp(payload, p.path).Absent? && !p.optional))
  }

  lemma FailingPiece(p: Piece, payload: map<string, Json>)
    ensures ReplacementOf(p, payload).problem.Some? <==> Unresolvable(p, payload)
  {}

  ghost predicate HoldsUnresolvable(ps: seq<Piece>, payload: map<string, Json>) {
    exists i :: 0 <= i < |ps| && Unresolvable(ps[i], payload)
  }

  lemma HoldsFirstOrLater(ps: seq<Piece>, payload: map<string, Json>)
    requires ps != []
    ensures HoldsUnresolvable(ps, payload) <==> Unresolvable(ps[0], payload) || HoldsUnresolvable(ps[1..], payload)
  {
    if HoldsUnresolvable(ps, payload) && !Unresolvable(ps[0], payload) {
      var i :| 0 <= i < |ps| && Unresolvable(ps[i], payload);
      assert ps[1..][i - 1] == ps[i];
    }
    if HoldsUnresolvable(ps[1..], payload) {
      var i :| 0 <= i < |ps[1..]| && Unresolvable(ps[1..][i], payload);
      assert ps[i + 1] == ps[1..][i];
    }
  }

  lemma {:induction false} PiecesFail(ps: seq<Piece>, payload: map<string, Json>)
    ensures FirstProblem(Replacements(ps, payload)).Some? <==> HoldsUnresolvable(ps, payload)
  {
    if ps != [] {
      PiecesFail(ps[1..], payload);
      FailingPiece(ps[0], payload);
      HoldsFirstOrLater(ps, payload);
      assert Replacements(ps, payload)[1..] == Replacements(ps[1..], payload);
    }
  }

  // A string fails exactly when it holds such a reference.
  lemma FailsExactly(s: string, payload: map<string, Json>)
    ensures ProblemOf(s, payload).Some? <==> HoldsUnresolvable(Parse(s), payload)
  {
    PiecesFail(Parse(s), payload);
  }

  // ---- references in context ----

  lemma OnlyOneDollar(q: Piece, k: nat)
    requires q.Ref? && ValidPiece(q) && 0 < k < |Written(q)|
    ensures Written(q)[k] != '$'
  {
    var close := q.path + Close(q.optional);
    assert Written(q) == OPEN + close;
    if k >= |OPEN| {
      assert Written(q)[k] == close[k - |OPEN|];
    }
  }

  // What comes before a reference is cut into pieces as if the reference were not there.
  lemma SamePieceAt(u: string, r: Piece, v: string)
    requires u != "" && r.Ref? && ValidPiece(r)
    ensures PieceAt(u + (Written(r) + v)) == PieceAt(u)
  {
    var s, p := u + (Written(r) + v), PieceAt(u);
    assert u <= s && s[|u|] == '$';
    if p.Lit? {
      forall q: Piece | q.Ref? && ValidPiece(q)
        ensures !(Written(q) <= s)
      {
        if |Written(q)| > |u| {
          OnlyOneDollar(q, |u|);
        }
      }
    }
    assert Begins(s, p);
    OneBeginning(s, PieceAt(s), p);
  }

  lemma {:induction false} ParseAround(u: string, r: Piece, v: string)
    requires r.Ref? && ValidPiece(r)
    ensures Parse(u + (Written(r) + v)) == Parse(u) + ([r] + Parse(v))
    decreases |u|
  {
    var s := u + (Written(r) + v);
    if u == "" {
      assert s == Written(r) + v && Begins(s, r);
      OneBeginning(s, PieceAt(s), r);
      assert s[|Written(r)|..] == v;
    } else {
      SamePieceAt(u, r, v);
      var n := |Written(PieceAt(u))|;
      assert s[n..] == u[n..] + (Written(r) + v);
      ParseAround(u[n..], r, v);
      assert [PieceAt(u)] + (Parse(u[n..]) + ([r] + Parse(v))) == ([PieceAt(u)] + Parse(u[n..])) + ([r] + Parse(v));
    }
  }

  lemma {:induction false} TextsConcat(a: seq<Replacement>, b: seq<Replacement>)
    ensures Texts(a + b) == Texts(a) + Texts(b)
    ensures FirstProblem(a + b) == if FirstProblem(a).Some? then FirstProblem(a) else FirstProblem(b)
  {
    if a == [] {
      assert a + b == b;
    } else {
      assert (a + b)[1..] == a[1..] + b;
      TextsConcat(a[1..], b);
    }
  }

  lemma TextsAround(before: seq<Replacement>, r: Replacement, after: seq<Replacement>)
    ensures Texts(before + ([r] + after)) == Texts(before) + r.text + Texts(after)
    ensures FirstProblem(before + ([r] + after)) ==
              if FirstProblem(before).Some? then FirstProblem(before)
              else if r.problem.Some? then r.problem
              else FirstProblem(after)
  {
    TextsConcat(before, [r] + after);
    assert ([r] + after)[1..] == after;
    assert Texts(before) + (r.text + Texts(after)) == Texts(before) + r.text + Texts(after);
  }

  lemma ReplacementsAround(before: seq<Piece>, r: Piece, after: seq<Piece>, payload: map<string, Json>)
    ensures Replacements(before + ([r] + after), payload) ==
            Replacements(before, payload) + ([ReplacementOf(r, payload)] + Replacements(after, payload))
  {}

  // A reference is replaced where it stands, whatever surrounds it: the text that is inserted
  // is never expanded again, and nothing around it reads differently.
  lemma ReplacedInPlace(u: string, path: string, optional: bool, v: string, payload: map<string, Json>)
    requires ValidPath(path)
    ensures var s, found := u + (Written(Ref(path, optional)) + v), LookedUp(payload, path);
      && TextOf(s, payload) == TextOf(u, payload) + (if found.Scalar? then found.text else "") + TextOf(v, payload)
      && ProblemOf(s, payload) ==
           (if ProblemOf(u, payload).Some? then ProblemOf(u, payload)
            else if found.Compound? then Some(NotScalar(path))
            else if found.Absent? && !optional then Some(Missing(path))
            else ProblemOf(v, payload))
  {
    var r := Ref(path, optional);
    ParseAround(u, r, v);
    ReplacementsAround(Parse(u), r, Parse(v), payload);
    TextsAround(Replacements(Parse(u), payload), ReplacementOf(r, payload), Replacements(Parse(v), payload));
  }

  // ---- the arguments of a step ----

  ghost predicate Sound(v: Val, payload: map<string, Json>) {
    match v
    case Str(s) => ProblemOf(s, payload).None?
    case List(elems) => forall e :: e in elems ==> Sound(e, payload)
    case Dict(entries) => forall k :: k in entries ==> ProblemOf(entries[k], payload).None?
    case Struct(fields) => forall f :: f in fields ==> Sound(f, payload)
    case Plain => true
  }

  ghost function Expanded(v: Val, payload: map<string, Json>): Val {
    match v
    case Str(s) => Str(TextOf(s, payload))
    case List(elems) => List(seq(|elems|, i requires 0 <= i < |elems| => Expanded(elems[i], payload)))
    case Dict(entries) => Dict(map k | k in entries :: TextOf(entries[k], payload))
    case Struct(fields) => Struct(seq(|fields|, i requires 0 <= i < |fields| => Expanded(fields[i], payload)))
    case Plain => Plain
  }

  ghost function ExpandedAll(vs: seq<Val>, payload: map<string, Json>): seq<Val> {
    seq(|vs|, i requires 0 <= i < |vs| => Expanded(vs[i], payload))
  }

  method InterpolateValue(v: Val, payload: map<string, Json>) returns (r: Result<Val, Problem>)
    ensures r.Ok? <==> Sound(v, payload)
    ensures r.Ok? ==> r.value == Expanded(v, payload)
    decreases v, 1
  {
    match v {
      case Str(s) =>
        var out, error := InterpolateString(s, payload);
        return if error.Some? then Err(error.value) else Ok(Str(out));
      case List(elems) =>
        var out := InterpolateElems(elems, payload, v);
        return if out.Err? then Err(out.error) else Ok(List(out.value));
      case Dict(entries) =>
        var out := InterpolateEntries(entries, payload);
        return if out.Err? then Err(out.error) else Ok(Dict(out.value));
      case Struct(fields) =>
        var out := InterpolateElems(fields, payload, v);
        return if out.Err? then Err(out.error) else Ok(Struct(out.value));
      case Plain => return Ok(Plain);
    }
  }

  method InterpolateElems(elems: seq<Val>, payload: map<string, Json>,
                          ghost parent: Val) returns (r: Result<seq<Val>, Problem>)
    requires parent == List(elems) || parent == Struct(elems)
    ensures r.Ok? <==> forall e :: e in elems ==> Sound(e, payload)
    ensures r.Ok? ==> r.value == ExpandedAll(elems, payload)
    decreases parent, 0
  {
    var out := [];
    var i := 0;
    while i < |elems|
      invariant 0 <= i <= |elems| && |out| == i
      invariant forall k :: 0 <= k < i ==> Sound(elems[k], payload) && out[k] == Expanded(elems[k], payload)
    {
      var e := InterpolateValue(elems[i], payload);
      if e.Err? {
        return Err(e.error);
      }
      out := out + [e.value];
      i := i + 1;
    }
    return Ok(out);
  }

  // The keys are visited in no particular order.
  method InterpolateEntries(entries: map<string, string>, payload: map<string, Json>) returns (r: Result<map<string,
                            string>, Problem>)
    ensures r.Ok? <==> forall k :: k in entries ==> ProblemOf(entries[k], payload).None?
    ensures r.Ok? ==> r.value == map k | k in entries :: TextOf(entries[k], payload)
  {
    var out := entries;
    var todo := entries.Keys;
    while todo != {}
      invariant todo <= entries.Keys == out.Keys
      invariant forall k :: k in entries - todo ==>
        ProblemOf(entries[k], payload).None? && out[k] == TextOf(entries[k], payload)
      decreases |todo|
    {
      var k :| k in todo;
      var text, error := InterpolateString(entries[k], payload);
      if error.Some? {
        return Err(error.value);
      }
      out := out[k := text];
      todo := todo - {k};
    }
    return Ok(out);
  }

  // ---- a pipeline ----

  ghost function ExpandedStep(s: Step, payload: map<string, Json>): Step {
    s.(args := Expanded(s.args, payload))
  }

  ghost function ExpandedSteps(steps: seq<Step>, payload: map<string, Json>): seq<Step> {
    seq(|steps|, i requires 0 <= i < |steps| => ExpandedStep(steps[i], payload))
  }

  ghost predicate SoundStep(s: Step, payload: map<string, Json>) {
    Sound(s.args, payload)
  }

  ghost predicate SoundSteps(steps: seq<Step>, payload: map<string, Json>) {
    forall i :: 0 <= i < |steps| ==> SoundStep(steps[i], payload)
  }

  method InterpolateStep(s: Step, payload: map<string, Json>) returns (r: Result<Step, Problem>)
    ensures r.Ok? <==> SoundStep(s, payload)
    ensures r.Ok? ==> r.value == ExpandedStep(s, payload)
  {
    var args := InterpolateValue(s.args, payload);
    return if args.Err? then Err(args.error) else Ok(s.(args := args.value));
  }

  method Interpolate(steps: seq<Step>, payload: map<string, Json>) returns (r: Result<seq<Step>, Problem>)
    ensures r.Ok? <==> SoundSteps(steps, payload)
    ensures r.Ok? ==> r.value == ExpandedSteps(steps, payload)
  {
    var out: seq<Step> := [];
    ghost var all := ExpandedSteps(steps, payload);
    for i := 0 to |steps|
      invariant forall k :: 0 <= k < i ==> SoundStep(steps[k], payload)
      invariant out == all[..i]
    {
      var step := InterpolateStep(steps[i], payload);
      if step.Err? {
        return Err(step.error);
      }
      out := out + [step.value];
    }
    return Ok(out);
  }

  // Only text changes: lists keep their length, maps their keys, and anything else stays.
  ghost predicate SameShape(v: Val, w: Val) {
    match v
    case Str(_) => w.Str?
    case List(elems) => w.List? && |w.elems| == |elems| && forall i :: 0 <= i < |elems| ==> SameShape(elems[i], w.elems[i])
    case Dict(entries) => w.Dict? && w.entries.Keys == entries.Keys
    case Struct(fields) => w.Struct? && |w.fields| == |fields| && forall i :: 0 <= i < |fields| ==> SameShape(fields[i], w.fields[i])
    case Plain => w == Plain
  }

  lemma {:induction false} ShapeKept(v: Val, payload: map<string, Json>)
    ensures SameShape(v, Expanded(v, payload))
  {
    match v {
      case List(elems) =>
        forall i | 0 <= i < |elems| ensures SameShape(elems[i], Expanded(elems[i], payload)) {
          ShapeKept(elems[i], payload);
        }
      case Struct(fields) =>
        forall i | 0 <= i < |fields| ensures SameShape(fields[i], Expanded(fields[i], payload)) {
          ShapeKept(fields[i], payload);
        }
      case _ =>
    }
  }

  // Interpolating and then keeping an instance's steps is the same as keeping them first.
  lemma {:induction false} CommutesWithSelection(steps: seq<Step>, payload: map<string, Json>, instance: InstanceName)
    ensures Selected(ExpandedSteps(steps, payload), instance) == ExpandedSteps(Selected(steps, instance), payload)
  {
    if steps != [] {
      var front := steps[..|steps| - 1];
      CommutesWithSelection(front, payload, instance);
      assert ExpandedSteps(steps, payload)[..|steps| - 1] == ExpandedSteps(front, payload);
    }
  }
}

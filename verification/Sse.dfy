/** The event-stream frames between main and an edge: the writer of internal/httpapi/edge.go
    and the reader of internal/edge/sseread.go, over the slice of "Server-sent events"
    (section 9.2 of the WHATWG HTML Living Standard) they use. */
module Sse {
  import opened Wrappers

  // ---- the writer ----

  datatype Item = Event(name: string, body: string) | Heartbeat

  // `event: NAME`, `data: BODY` and a blank line; a comment and a blank line.
  function Written(item: Item): string {
    match item
    case Event(name, body) => ("event:" + (" " + name)) + "\n" + (("data:" + (" " + body)) + "\n" + "\n")
    case Heartbeat => ": hb" + "\n" + "\n"
  }

  ghost function Stream(items: seq<Item>): string {
    if items == [] then "" else Written(items[0]) + Stream(items[1..])
  }

  // ---- the reader ----

  // A decoded event; the heartbeat is the one without a name and without data.
  datatype Frame = Frame(name: string, data: Option<string>)

  datatype Answer = EndOfStream | Got(frame: Frame)

  datatype State = State(input: string, name: string, data: Option<string>)

  predicate IsSpace(c: char) {
    || c == ' ' || '\t' <= c <= '\r'
    || c == '\U{0085}' || c == '\U{00A0}' || c == '\U{1680}' || '\U{2000}' <= c <= '\U{200A}'
    || c == '\U{2028}' || c == '\U{2029}' || c == '\U{202F}' || c == '\U{205F}' || c == '\U{3000}'
  }

  function TrimSpace(s: string): (t: string)
    ensures |t| <= |s|
    ensures forall c :: c in t ==> c in s
    ensures t == "" || (!IsSpace(t[0]) && !IsSpace(t[|t| - 1]))
    ensures s != "" && !IsSpace(s[0]) && !IsSpace(s[|s| - 1]) ==> t == s
  {
    if s == "" then ""
    else if IsSpace(s[0]) then TrimSpace(s[1..])
    else if IsSpace(s[|s| - 1]) then TrimSpace(s[..|s| - 1])
    else s
  }

  function ChopCR(line: string): string {
    if line != "" && line[|line| - 1] == '\r' then line[..|line| - 1] else line
  }

  function ChopSpace(s: string): string {
    if " " <= s then s[1..] else s
  }

  // How many characters come before the first line feed.
  function LineLength(s: string): (n: nat)
    ensures n <= |s|
    ensures '\n' !in s[..n]
    ensures n < |s| ==> s[n] == '\n'
  {
    if s == "" || s[0] == '\n' then 0 else 1 + LineLength(s[1..])
  }

  function Field(s: State, line: string): State {
    if "event:" <= line then s.(name := TrimSpace(line[6..]))
    else if "data:" <= line then
      var chunk := ChopSpace(line[5..]);
      s.(data := Some(if s.data.Some? then s.data.value + "\n" + chunk else chunk))
    else s
  }

  // Reading one event, or the end of one comment.
  ghost function NextOf(s: State): (Answer, State)
    decreases |s.input|, 0
  {
    var n := LineLength(s.input);
    if n == |s.input| then (EndOfStream, s.(input := ""))
    else NextLine(s.(input := s.input[n + 1..]), ChopCR(s.input[..n]))
  }

  ghost function NextLine(s: State, line: string): (Answer, State)
    decreases |s.input|, 1
  {
    if line == "" then
      if s.name == "" && s.data.None? then NextOf(s)
      else (Got(Frame(s.name, s.data)), State(s.input, "", None))
    else if ":" <= line then (Got(Frame("", None)), s)
    else NextOf(Field(s, line))
  }

  class Reader {
    var input: string
    var name: string
    var data: Option<string>

    ghost function View(): State
      reads this
    {
      State(input, name, data)
    }

    constructor (stream: string)
      ensures View() == State(stream, "", None)
    {
      input, name, data := stream, "", None;
    }

    method Next() returns (answer: Answer)
      modifies this
      ensures (answer, View()) == NextOf(old(View()))
    {
      while true
        invariant NextOf(View()) == NextOf(old(View()))
        decreases |input|
      {
        var n := LineLength(input);
        if n == |input| {
          input := "";
          return EndOfStream;
        }
        var line := ChopCR(input[..n]);
        input := input[n + 1..];
        if line == "" {
          if name != "" || data.Some? {
            answer := Got(Frame(name, data));
            name, data := "", None;
            return;
          }
        } else if ":" <= line {
          return Got(Frame("", None));
        } else if "event:" <= line {
          name := TrimSpace(line[6..]);
        } else if "data:" <= line {
          var chunk := ChopSpace(line[5..]);
          data := Some(if data.Some? then data.value + "\n" + chunk else chunk);
        }
      }
    }
  }

  // ---- reading back what was written ----

  // What the reader is meant to report for an item.
  function Meant(item: Item): Answer {
    match item
    case Event(name, body) => Got(Frame(name, Some(body)))
    case Heartbeat => Got(Frame("", None))
  }

  ghost function Read(s: State, n: nat): seq<Answer>
    decreases n
  {
    if n == 0 then [] else [NextOf(s).0] + Read(NextOf(s).1, n - 1)
  }

  // A body on one line that does not end in a carriage return, and a name on one line without
  // space around it.
  ghost predicate Faithful(item: Item) {
    item.Event? ==>
      && '\n' !in item.body && ChopCR(item.body) == item.body
      && '\n' !in item.name && TrimSpace(item.name) == item.name
  }

  lemma FaithfulExactly(name: string, body: string)
    ensures Faithful(Event(name, body)) <==>
      && '\n' !in body && (body != "" ==> body[|body| - 1] != '\r')
      && '\n' !in name && (name != "" ==> !IsSpace(name[0]) && !IsSpace(name[|name| - 1]))
  {}

  ghost predicate AllSpace(s: string) {
    forall k :: 0 <= k < |s| ==> IsSpace(s[k])
  }

  // t is s without some space at either end.
  ghost predicate Trimmed(s: string, t: string) {
    exists left, right :: AllSpace(left) && AllSpace(right) && s == left + (t + right)
  }

  lemma TrimmedMore(c: char, s: string, t: string)
    requires IsSpace(c) && Trimmed(s, t)
    ensures Trimmed([c] + s, t) && Trimmed(s + [c], t)
  {
    var left, right :| AllSpace(left) && AllSpace(right) && s == left + (t + right);
    assert [c] + s == ([c] + left) + (t + right);
    assert s + [c] == left + (t + (right + [c]));
    assert AllSpace([c] + left) && AllSpace(right + [c]);
  }

  lemma TrimmedNothing(s: string)
    ensures Trimmed(s, s)
  {
    assert AllSpace("") && s == "" + (s + "");
  }

  // What is trimmed off is space.
  lemma {:induction false} TrimmedOff(s: string)
    ensures Trimmed(s, TrimSpace(s))
  {
    var n := |s| - 1;
    if s == "" || (!IsSpace(s[0]) && !IsSpace(s[n])) {
      TrimmedNothing(s);
    } else if IsSpace(s[0]) {
      TrimmedOff(s[1..]);
      TrimmedMore(s[0], s[1..], TrimSpace(s));
      assert s == [s[0]] + s[1..];
    } else {
      TrimmedOff(s[..n]);
      TrimmedMore(s[n], s[..n], TrimSpace(s));
      assert s == s[..n] + [s[n]];
    }
  }

  lemma {:induction false} LineLengthOf(line: string, rest: string)
    requires '\n' !in line
    ensures LineLength(line + "\n" + rest) == |line|
  {
    if line == "" {
      assert (line + "\n" + rest)[0] == '\n';
    } else {
      LineLengthOf(line[1..], rest);
      assert (line + "\n" + rest)[1..] == line[1..] + "\n" + rest;
    }
  }

  // One line off the input.
  lemma OneLine(line: string, rest: string, name: string, data: Option<string>)
    requires '\n' !in line
    ensures NextOf(State(line + "\n" + rest, name, data)) == NextLine(State(rest, name, data), ChopCR(line))
  {
    var s := line + "\n" + rest;
    LineLengthOf(line, rest);
    assert s[..|line|] == line && s[|line| + 1..] == rest;
  }

  // A line that ends in a carriage return and a line feed reads as one that ends in a line feed.
  lemma CarriageReturnsDoNotMatter(line: string, rest: string, name: string, data: Option<string>)
    requires '\n' !in line && (line != "" ==> line[|line| - 1] != '\r')
    ensures NextOf(State(line + "\r" + "\n" + rest, name, data)) == NextOf(State(line + "\n" + rest, name, data))
  {
    OneLine(line + "\r", rest, name, data);
    OneLine(line, rest, name, data);
    assert (line + "\r")[..|line|] == line;
  }

  // A field the reader does not know changes nothing.
  lemma OtherFieldsIgnored(line: string, rest: string, name: string, data: Option<string>)
    requires '\n' !in line && ChopCR(line) != ""
    requires !(":" <= ChopCR(line)) && !("event:" <= ChopCR(line)) && !("data:" <= ChopCR(line))
    ensures NextOf(State(line + "\n" + rest, name, data)) == NextOf(State(rest, name, data))
  {
    OneLine(line, rest, name, data);
  }

  // Data over several lines is joined by line feeds.
  lemma DataIsJoined(x: string, rest: string, name: string, d: string)
    requires '\n' !in x
    ensures NextOf(State(("data:" + (" " + x)) + "\n" + rest, name, Some(d))) ==
      NextOf(State(rest, name, Some(d + "\n" + ChopCR(x))))
  {
    FieldLine("data:", x, rest, State("", name, Some(d)));
    FieldOf("data:", " " + ChopCR(x), State(rest, name, Some(d)));
  }

  lemma TrimKeepsInner(name: string)
    ensures TrimSpace(" " + ChopCR(name)) == TrimSpace(name)
  {
    assert (" " + ChopCR(name))[1..] == ChopCR(name);
    if name != "" && name[|name| - 1] == '\r' {
      TrimDropsLast(name);
    }
  }

  lemma {:induction false} TrimDropsLast(s: string)
    requires s != "" && IsSpace(s[|s| - 1])
    ensures TrimSpace(s[..|s| - 1]) == TrimSpace(s)
  {
    if IsSpace(s[0]) {
      if |s| > 1 {
        TrimDropsLast(s[1..]);
        assert s[1..][..|s| - 2] == s[..|s| - 1][1..];
      }
    }
  }

  lemma ChopBehind(p: string, x: string)
    requires p != "" && p[|p| - 1] != '\r'
    ensures ChopCR(p + x) == p + ChopCR(x)
  {
    if x == "" {
      assert p + x == p;
    } else {
      assert (p + x)[..|p| + |x| - 1] == p + x[..|x| - 1];
    }
  }

  // A field line is stored: its value is the text behind the colon.
  lemma FieldOf(field: string, value: string, s: State)
    requires field == "event:" || field == "data:"
    ensures NextLine(s, field + value) ==
      NextOf(if field == "event:" then s.(name := TrimSpace(value))
             else s.(data := Some(if s.data.Some? then s.data.value + "\n" + ChopSpace(value) else ChopSpace(value))))
  {
    var line := field + value;
    assert line[0] == field[0];
    assert line[|field|..] == value;
    assert field <= line;
  }

  lemma OnOneLine(p: string, x: string)
    requires '\n' !in p && '\n' !in x
    ensures '\n' !in p + x
  {}

  // A line holding one field, with a space behind the colon.
  lemma FieldLine(field: string, x: string, rest: string, s: State)
    requires (field == "event:" || field == "data:") && '\n' !in x
    ensures NextOf(s.(input := (field + (" " + x)) + "\n" + rest)) == NextLine(s.(input := rest), field + (" " + ChopCR(x)))
  {
    OnOneLine(" ", x);
    OnOneLine(field, " " + x);
    OneLine(field + (" " + x), rest, s.name, s.data);
    ChopBehind(" ", x);
    ChopBehind(field, " " + x);
  }

  // The line carrying the name.
  lemma NameLine(name: string, rest: string)
    requires '\n' !in name
    ensures NextOf(State(("event:" + (" " + name)) + "\n" + rest, "", None)) == NextOf(State(rest, TrimSpace(name), None))
  {
    FieldLine("event:", name, rest, State("", "", None));
    FieldOf("event:", " " + ChopCR(name), State(rest, "", None));
    TrimKeepsInner(name);
  }

  // The line that begins the data.
  lemma DataLine(body: string, rest: string, name: string)
    requires '\n' !in body
    ensures NextOf(State(("data:" + (" " + body)) + "\n" + rest, name, None)) == NextOf(State(rest, name, Some(ChopCR(body))))
  {
    FieldLine("data:", body, rest, State("", name, None));
    FieldOf("data:", " " + ChopCR(body), State(rest, name, None));
  }

  lemma BlankLine(rest: string, name: string, data: Option<string>)
    ensures NextOf(State("\n" + rest, name, data)) ==
      if name == "" && data.None? then NextOf(State(rest, name, data)) else (Got(Frame(name, data)), State(rest, "", None))
  {
    OneLine("", rest, name, data);
    assert "" + "\n" + rest == "\n" + rest;
  }

  // A one-line event comes back with its name trimmed and a final carriage return lost.
  lemma OneLineEvent(name: string, body: string, rest: string)
    requires '\n' !in name && '\n' !in body
    ensures NextOf(State(Written(Event(name, body)) + rest, "", None)) ==
      (Got(Frame(TrimSpace(name), Some(ChopCR(body)))), State(rest, "", None))
  {
    var afterData := "\n" + rest;
    var afterName := ("data:" + (" " + body)) + "\n" + afterData;
    assert Written(Event(name, body)) + rest == ("event:" + (" " + name)) + "\n" + afterName;
    NameLine(name, afterName);
    DataLine(body, afterData, TrimSpace(name));
    BlankLine(rest, TrimSpace(name), Some(ChopCR(body)));
  }

  lemma HeartbeatRead(rest: string)
    ensures NextOf(State(Written(Heartbeat) + rest, "", None)) == (Got(Frame("", None)), State("\n" + rest, "", None))
  {
    assert Written(Heartbeat) + rest == ": hb" + "\n" + ("\n" + rest);
    OneLine(": hb", "\n" + rest, "", None);
  }

  // The state behind the next line, and what stands in that line.
  lemma NextOfLine(s: State)
    requires LineLength(s.input) < |s.input|
    ensures var n := LineLength(s.input);
      && '\n' !in ChopCR(s.input[..n])
      && NextOf(s) == NextLine(s.(input := s.input[n + 1..]), ChopCR(s.input[..n]))
  {}

  lemma FieldName(s: State, line: string)
    requires '\n' !in s.name && '\n' !in line
    ensures Field(s, line).input == s.input && '\n' !in Field(s, line).name
  {}

  // A name never spans lines.
  lemma {:induction false} NameOnOneLine(s: State)
    requires '\n' !in s.name
    ensures NextOf(s).0.Got? ==> '\n' !in NextOf(s).0.frame.name
    decreases |s.input|
  {
    var n := LineLength(s.input);
    if n < |s.input| {
      var line, rest := ChopCR(s.input[..n]), s.(input := s.input[n + 1..]);
      NextOfLine(s);
      if line == "" {
        NameOnOneLine(rest);
      } else if !(":" <= line) {
        FieldName(rest, line);
        NameOnOneLine(Field(rest, line));
      }
    }
  }

  lemma FieldGrows(s: State, line: string)
    requires s.data.Some?
    ensures Field(s, line).input == s.input && Field(s, line).data.Some?
    ensures |Field(s, line).data.value| <= |s.data.value| + |line|
  {}

  // Data that goes on over further lines loses their field names: it only gets shorter.
  lemma {:induction false} FurtherLinesShrink(r: string, rest: string, name: string, d: string)
    ensures var answer := NextOf(State(r + "\n" + ("\n" + rest), name, Some(d))).0;
      answer.Got? && (answer.frame.data.Some? ==> |answer.frame.data.value| <= |d| + |r|)
    decreases |r|
  {
    var n := LineLength(r);
    var line := ChopCR(r[..n]);
    var after := if n == |r| then "\n" + rest else r[n + 1..] + "\n" + ("\n" + rest);
    assert r + "\n" + ("\n" + rest) == r[..n] + "\n" + after by {
      if n == |r| {
        assert r[..n] == r;
      } else {
        assert r == r[..n] + "\n" + r[n + 1..];
      }
    }
    OneLine(r[..n], after, name, Some(d));
    if line != "" && !(":" <= line) {
      var s := State(after, name, Some(d));
      FieldGrows(s, line);
      var t := Field(s, line);
      if n == |r| {
        BlankLine(rest, t.name, t.data);
      } else {
        FurtherLinesShrink(r[n + 1..], rest, t.name, t.data.value);
      }
    }
  }

  // The frame of a body that goes on behind its first line.
  lemma FrameOverLines(name: string, first: string, more: string, rest: string)
    ensures Written(Event(name, first + "\n" + more)) + rest ==
      ("event:" + (" " + name)) + "\n" + (("data:" + (" " + first)) + "\n" + (more + "\n" + ("\n" + rest)))
  {
    assert " " + (first + "\n" + more) == (" " + first) + "\n" + more;
    assert "data:" + ((" " + first) + "\n" + more) == ("data:" + (" " + first)) + "\n" + more;
  }

  lemma BodyOverLinesIsLost(name: string, body: string, rest: string)
    requires '\n' !in name && '\n' in body
    ensures NextOf(State(Written(Event(name, body)) + rest, "", None)).0 != Got(Frame(name, Some(body)))
  {
    var n := LineLength(body);
    assert body[..|body|] == body;
    var first, more := body[..n], body[n + 1..];
    assert body == first + "\n" + more;
    var after := more + "\n" + ("\n" + rest);
    FrameOverLines(name, first, more, rest);
    NameLine(name, ("data:" + (" " + first)) + "\n" + after);
    DataLine(first, after, TrimSpace(name));
    FurtherLinesShrink(more, rest, TrimSpace(name), ChopCR(first));
  }

  // An event comes back as it was meant exactly when it is faithful.
  lemma EventReadBack(item: Item, rest: string)
    requires item.Event?
    ensures NextOf(State(Written(item) + rest, "", None)).0 == Meant(item) <==> Faithful(item)
    ensures Faithful(item) ==> NextOf(State(Written(item) + rest, "", None)).1 == State(rest, "", None)
  {
    if '\n' in item.name {
      NameOnOneLine(State(Written(item) + rest, "", None));
    } else if '\n' in item.body {
      BodyOverLinesIsLost(item.name, item.body, rest);
    } else {
      OneLineEvent(item.name, item.body, rest);
    }
  }

  ghost function MeantAll(items: seq<Item>): seq<Answer> {
    if items == [] then [] else [Meant(items[0])] + MeantAll(items[1..])
  }

  // What is left to read: a heartbeat leaves a blank line that the next read skips.
  ghost function Unread(items: seq<Item>, stray: bool): State {
    State((if stray then "\n" else "") + Stream(items), "", None)
  }

  lemma FirstReadBack(items: seq<Item>, stray: bool)
    requires items != []
    ensures NextOf(Unread(items, stray)).0 == Meant(items[0]) <==> Faithful(items[0])
    ensures Faithful(items[0]) ==> NextOf(Unread(items, stray)).1 == Unread(items[1..], items[0].Heartbeat?)
  {
    var rest := Stream(items[1..]);
    if stray {
      BlankLine(Stream(items), "", None);
    }
    assert "" + Stream(items) == Stream(items) && "" + rest == rest;
    if items[0].Heartbeat? {
      HeartbeatRead(rest);
    } else {
      EventReadBack(items[0], rest);
    }
  }

  // A stream is read back as the same events and heartbeats, in order, exactly when every
  // event in it is faithful.
  lemma {:induction false} StreamReadBack(items: seq<Item>, stray: bool)
    ensures Read(Unread(items, stray), |items|) == MeantAll(items) <==> forall item :: item in items ==> Faithful(item)
  {
    if items != [] {
      FirstReadBack(items, stray);
      StreamReadBack(items[1..], items[0].Heartbeat?);
      var answers := Read(Unread(items, stray), |items|);
      assert answers[1..] == Read(NextOf(Unread(items, stray)).1, |items| - 1);
      assert MeantAll(items)[1..] == MeantAll(items[1..]);
      assert items == [items[0]] + items[1..];
    }
  }
}

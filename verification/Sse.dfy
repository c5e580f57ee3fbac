// The typed server-sent events and their wire codec, framed as in section 9.2 of
// the WHATWG HTML Living Standard.
module Sse {
  import opened Json
  import opened Prelude

  datatype Event =
    | StepStarted
    | ToolCalled(name: string, argsSummary: string)
    | Token(content: string)
    | Completed
    | Error(message: string)

  /******* Events as JSON *******/

  function TypeOf(e: Event): string {
    match e
    case StepStarted => "step_started"
    case ToolCalled(_, _) => "tool_called"
    case Token(_) => "token"
    case Completed => "completed"
    case Error(_) => "error"
  }

  function Fields(e: Event): seq<Member> {
    [Member("type", TypeOf(e))] +
    match e
    case StepStarted => []
    case ToolCalled(name, summary) => [Member("name", name), Member("args_summary", summary)]
    case Token(content) => [Member("content", content)]
    case Completed => []
    case Error(message) => [Member("message", message)]
  }

  function DumpJson(e: Event): string {
    Object(Fields(e))
  }

  // Unknown fields are refused, and so is a missing one.
  function Validate(m: map<string, string>): Option<Event> {
    if "type" !in m then None
    else if m["type"] == "step_started" && m.Keys == {"type"} then Some(StepStarted)
    else if m["type"] == "tool_called" && m.Keys == {"type", "name", "args_summary"}
    then Some(ToolCalled(m["name"], m["args_summary"]))
    else if m["type"] == "token" && m.Keys == {"type", "content"} then Some(Token(m["content"]))
    else if m["type"] == "completed" && m.Keys == {"type"} then Some(Completed)
    else if m["type"] == "error" && m.Keys == {"type", "message"} then Some(Error(m["message"]))
    else None
  }

  function ValidateJson(s: string): Option<Event> {
    var m := ParseObject(s);
    if m.None? then None else Validate(m.value)
  }

  /******* Frames and lines *******/

  const EVENT_PREFIX := "event:"
  const DATA_PREFIX := "data:"
  const HEARTBEAT := ": heartbeat"

  function ToSse(e: Event): string {
    EVENT_PREFIX + " " + TypeOf(e) + "\n" + DATA_PREFIX + " " + DumpJson(e) + "\n\n"
  }

  function HeartbeatComment(): string {
    HEARTBEAT + "\n\n"
  }

  predicate Plain(s: string) {
    forall i :: 0 <= i < |s| ==> s[i] == '_' || 'a' <= s[i] <= 'z'
  }

  lemma {:induction false} PlainUnescaped(s: string)
    requires Plain(s)
    ensures Escape(s) == s
  {
    if s != "" {
      PlainUnescaped(s[1..]);
      assert s == [s[0]] + s[1..];
    }
  }

  // A member as it stands in the payload.
  function FieldText(key: string, value: string): string {
    "\"" + key + "\":\"" + Escape(value) + "\""
  }

  lemma MemberIs(key: string, value: string)
    requires Plain(key)
    ensures MemberText(Member(key, value)) == FieldText(key, value)
  {
    PlainUnescaped(key);
    assert "\":\"" == "\"" + ":" + "\"";
  }

  lemma MembersAre(a: Member, b: Member, c: Member)
    ensures Members([a]) == MemberText(a)
    ensures Members([a, b]) == MemberText(a) + "," + MemberText(b)
    ensures Members([a, b, c]) == MemberText(a) + "," + (MemberText(b) + "," + MemberText(c))
  {
    hide MemberText;
    assert [a, b][1..] == [b] && [a, b, c][1..] == [b, c] && [b, c][1..] == [c];
    assert Members([b, c]) == MemberText(b) + "," + MemberText(c);
  }

  lemma PlainNames()
    ensures Plain("type") && Plain("name") && Plain("args_summary")
  {
  }

  lemma BarePayload(e: Event)
    requires e.StepStarted? || e.Completed?
    ensures DumpJson(e) == "{" + FieldText("type", TypeOf(e)) + "}"
  {
    var kind := Member("type", TypeOf(e));
    assert Fields(e) == [kind];
    MemberIs("type", TypeOf(e));
    hide Fields, FieldText, MemberText;
    MembersAre(kind, kind, kind);
  }

  lemma FieldPayload(e: Event, key: string, value: string)
    requires (e == Token(value) && key == "content") || (e == Error(value) && key == "message")
    ensures DumpJson(e) == "{" + (FieldText("type", TypeOf(e)) + "," + FieldText(key, value)) + "}"
  {
    var kind, field := Member("type", TypeOf(e)), Member(key, value);
    assert Fields(e) == [kind, field];
    MemberIs("type", TypeOf(e));
    MemberIs(key, value);
    hide Fields, FieldText, MemberText, Members;
    MembersAre(kind, field, field);
  }

  lemma ToolPayload(e: Event, name: string, summary: string)
    requires e == ToolCalled(name, summary)
    ensures DumpJson(e) == "{" + (FieldText("type", TypeOf(e)) + ","
                                  + (FieldText("name", name) + "," + FieldText("args_summary", summary))) + "}"
  {
    var kind, a, b := Member("type", TypeOf(e)), Member("name", name), Member("args_summary", summary);
    assert Fields(e) == [kind, a, b];
    PlainNames();
    hide Plain, Escape, TypeOf;
    MemberIs("type", TypeOf(e));
    MemberIs("name", name);
    MemberIs("args_summary", summary);
    hide Fields, FieldText, MemberText, Members;
    MembersAre(kind, a, b);
  }

  // A frame names the event's kind and carries its payload; a comment beats.
  lemma FrameText(e: Event)
    ensures ToSse(e) == "event: " + (match e
                                     case StepStarted => "step_started"
                                     case ToolCalled(_, _) => "tool_called"
                                     case Token(_) => "token"
                                     case Completed => "completed"
                                     case Error(_) => "error") + "\n" + "data: " + DumpJson(e) + "\n\n"
    ensures HeartbeatComment() == ": heartbeat\n\n"
  {
    assert EVENT_PREFIX + " " == "event: ";
    var kind := EVENT_PREFIX + " " + TypeOf(e) + "\n";
    assert kind + DATA_PREFIX + " " == kind + "data: ";
  }

  // Splits at CRLF, CR or LF, and at nothing else.
  function SplitLines(s: string): (r: seq<string>)
    ensures r != []
  {
    if s == "" then [""]
    else if s[0] == '\n' then [""] + SplitLines(s[1..])
    else if s[0] == '\r' then [""] + SplitLines(if |s| > 1 && s[1] == '\n' then s[2..] else s[1..])
    else
      var rest := SplitLines(s[1..]);
      [[s[0]] + rest[0]] + rest[1..]
  }

  function StripSpaces(s: string): string {
    if s != "" && s[0] == ' ' then StripSpaces(s[1..]) else s
  }

  function JoinLines(lines: seq<string>): string {
    if lines == [] then "" else if |lines| == 1 then lines[0]
    else JoinLines(lines[..|lines| - 1]) + "\n" + lines[|lines| - 1]
  }

  datatype Reader = Reader(data: seq<string>, events: seq<Event>)

  // `None` is a payload that does not validate.
  function Flush(r: Reader): Option<Reader> {
    if r.data == [] then Some(r)
    else
      var e := ValidateJson(JoinLines(r.data));
      if e.None? then None else Some(Reader([], r.events + [e.value]))
  }

  function ReadLine(r: Reader, line: string): Option<Reader> {
    if DATA_PREFIX <= line then Some(r.(data := r.data + [StripSpaces(line[|DATA_PREFIX|..])]))
    else if EVENT_PREFIX <= line then Some(r)
    else if line == "" then Flush(r)
    else Some(r)
  }

  function ReadLines(r: Reader, lines: seq<string>): Option<Reader>
    decreases |lines|
  {
    if lines == [] then Some(r)
    else
      var next := ReadLine(r, lines[0]);
      if next.None? then None else ReadLines(next.value, lines[1..])
  }

  function Parse(raw: string): Option<seq<Event>> {
    var r := ReadLines(Reader([], []), SplitLines(raw));
    if r.None? then None
    else
      var last := Flush(r.value);
      if last.None? then None else Some(last.value.events)
  }

  method ParseSseEvents(raw: string) returns (result: Option<seq<Event>>)
    ensures result == Parse(raw)
  {
    var events: seq<Event>, data: seq<string> := [], [];
    var lines := SplitLines(raw);
    var i := 0;
    while i < |lines|
      invariant 0 <= i <= |lines|
      invariant ReadLines(Reader([], []), lines) == ReadLines(Reader(data, events), lines[i..])
    {
      var line := lines[i];
      assert lines[i..][1..] == lines[i + 1..];
      if DATA_PREFIX <= line {
        data := data + [StripSpaces(line[|DATA_PREFIX|..])];
      } else if EVENT_PREFIX <= line {
      } else if line == "" && data != [] {
        var event := ValidateJson(JoinLines(data));
        if event.None? {
          return None;
        }
        events := events + [event.value];
        data := [];
      }
      i := i + 1;
    }
    if data != [] {
      var event := ValidateJson(JoinLines(data));
      if event.None? {
        return None;
      }
      events := events + [event.value];
    }
    return Some(events);
  }

  /******* Events survive *******/

  lemma MapOfFields(e: Event)
    ensures Validate(MapOf(Fields(e))) == Some(e)
  {
    var fs := Fields(e);
    assert fs[..1] == [Member("type", TypeOf(e))];
    assert fs[..1][..0] == [];
    assert MapOf(fs[..1]) == map["type" := TypeOf(e)];
    match e
    case StepStarted => assert fs == fs[..1];
    case Completed => assert fs == fs[..1];
    case Token(content) => assert MapOf(fs) == map["type" := "token", "content" := content];
    case Error(message) => assert MapOf(fs) == map["type" := "error", "message" := message];
    case ToolCalled(name, summary) =>
      assert fs[..2][..1] == fs[..1];
      assert MapOf(fs[..2]) == map["type" := "tool_called", "name" := name];
      assert MapOf(fs) == map["type" := "tool_called", "name" := name, "args_summary" := summary];
  }

  lemma JsonRoundTrip(e: Event)
    ensures ValidateJson(DumpJson(e)) == Some(e)
  {
    ObjectRoundTrip(Fields(e));
    MapOfFields(e);
  }

  /******* Lines survive any line terminator *******/

  datatype Terminator = Lf | Cr | CrLf

  function Text(t: Terminator): string {
    match t
    case Lf => "\n"
    case Cr => "\r"
    case CrLf => "\r\n"
  }

  predicate Unbroken(line: string) {
    '\n' !in line && '\r' !in line
  }

  // Each line followed by its own terminator.
  function Terminated(lines: seq<string>, ends: seq<Terminator>): string
    requires |lines| == |ends|
  {
    if lines == [] then "" else lines[0] + Text(ends[0]) + Terminated(lines[1..], ends[1..])
  }

  // A lone CR followed by an empty line's LF would read as one CRLF.
  predicate Separable(lines: seq<string>, ends: seq<Terminator>)
    requires |lines| == |ends|
  {
    forall i :: 0 <= i < |lines| - 1 && ends[i] == Cr ==> !(lines[i + 1] == "" && ends[i + 1] == Lf)
  }

  lemma {:induction false} SplitFirst(line: string, t: Terminator, rest: string)
    requires Unbroken(line)
    requires t == Cr ==> rest == "" || rest[0] != '\n'
    ensures SplitLines(line + Text(t) + rest) == [line] + SplitLines(rest)
  {
    var s := line + Text(t) + rest;
    if line == "" {
      assert s == Text(t) + rest;
      assert s[|Text(t)|..] == rest;
    } else {
      SplitFirst(line[1..], t, rest);
      assert s[1..] == line[1..] + Text(t) + rest;
      assert [line[0]] + line[1..] == line;
      assert ([line[1..]] + SplitLines(rest))[1..] == SplitLines(rest);
    }
  }

  lemma TerminatedFirst(lines: seq<string>, ends: seq<Terminator>)
    requires |lines| == |ends| && lines != [] && Unbroken(lines[0])
    ensures var s := Terminated(lines, ends);
            s != "" && (s[0] == '\n' ==> lines[0] == "" && ends[0] == Lf)
  {
    var first := lines[0] + Text(ends[0]);
    assert Terminated(lines, ends)[0] == first[0];
    assert lines[0] != "" ==> first[0] == lines[0][0] && lines[0][0] in lines[0];
  }

  // Whatever terminator each line ends with, the same lines come back.
  lemma {:induction false} SplitTerminated(lines: seq<string>, ends: seq<Terminator>)
    requires |lines| == |ends| && Separable(lines, ends)
    requires forall l :: l in lines ==> Unbroken(l)
    ensures SplitLines(Terminated(lines, ends)) == lines + [""]
  {
    if lines != [] {
      var rest := Terminated(lines[1..], ends[1..]);
      assert Separable(lines[1..], ends[1..]) by {
        assert forall i :: 0 <= i < |lines| - 1 ==> lines[1..][i] == lines[i + 1] && ends[1..][i] == ends[i + 1];
      }
      SplitTerminated(lines[1..], ends[1..]);
      if |lines| > 1 {
        TerminatedFirst(lines[1..], ends[1..]);
      }
      SplitFirst(lines[0], ends[0], rest);
      assert [lines[0]] + (lines[1..] + [""]) == lines + [""];
    }
  }

  /******* The wire round trip *******/

  // A stream is frames with heartbeat comments between them.
  datatype Item = Frame(event: Event) | Heartbeat

  function ItemText(item: Item): string {
    if item.Frame? then ToSse(item.event) else HeartbeatComment()
  }

  function StreamText(items: seq<Item>): string {
    if items == [] then "" else ItemText(items[0]) + StreamText(items[1..])
  }

  function EventsOf(items: seq<Item>): seq<Event> {
    if items == [] then []
    else Own(items[0]) + EventsOf(items[1..])
  }

  function ItemLines(item: Item): seq<string> {
    match item
    case Frame(e) => [EVENT_PREFIX + " " + TypeOf(e), DATA_PREFIX + " " + DumpJson(e), ""]
    case Heartbeat => [HEARTBEAT, ""]
  }

  function StreamLines(items: seq<Item>): seq<string> {
    if items == [] then [] else ItemLines(items[0]) + StreamLines(items[1..])
  }

  lemma PrintableUnbroken(s: string)
    requires Printable(s)
    ensures Unbroken(s)
  {
  }

  lemma FieldLineUnbroken(prefix: string, value: string)
    requires Printable(prefix) && Printable(value)
    ensures Unbroken(prefix + " " + value)
  {
    assert Printable(" ");
    PrintableAppend(prefix, " ");
    PrintableAppend(prefix + " ", value);
    PrintableUnbroken(prefix + " " + value);
  }

  lemma ItemLinesUnbroken(item: Item)
    ensures forall l :: l in ItemLines(item) ==> Unbroken(l)
  {
    hide DumpJson;
    match item
    case Heartbeat => PrintableUnbroken(HEARTBEAT);
    case Frame(e) =>
      FieldLineUnbroken(EVENT_PREFIX, TypeOf(e));
      DumpPrintable(e);
      FieldLineUnbroken(DATA_PREFIX, DumpJson(e));
  }

  lemma DumpPrintable(e: Event)
    ensures Printable(DumpJson(e))
  {
    ObjectPrintable(Fields(e));
  }

  lemma {:induction false} StreamLinesUnbroken(items: seq<Item>)
    ensures forall l :: l in StreamLines(items) ==> Unbroken(l)
  {
    if items != [] {
      ItemLinesUnbroken(items[0]);
      StreamLinesUnbroken(items[1..]);
    }
  }

  lemma {:induction false} ReadAppend(r: Reader, a: seq<string>, b: seq<string>)
    ensures ReadLines(r, a + b) ==
            if ReadLines(r, a).None? then None else ReadLines(ReadLines(r, a).value, b)
    decreases |a|
  {
    if a == [] {
      assert a + b == b;
    } else {
      assert (a + b)[1..] == a[1..] + b;
      if ReadLine(r, a[0]).Some? {
        ReadAppend(ReadLine(r, a[0]).value, a[1..], b);
      }
    }
  }

  lemma EventLineReads(r: Reader, ty: string)
    ensures ReadLine(r, EVENT_PREFIX + " " + ty) == Some(r)
  {
    assert (EVENT_PREFIX + " " + ty)[0] == 'e';
    assert EVENT_PREFIX <= EVENT_PREFIX + " " + ty;
  }

  lemma DataLineReads(r: Reader, json: string)
    requires json != "" && json[0] != ' '
    ensures ReadLine(r, DATA_PREFIX + " " + json) == Some(r.(data := r.data + [json]))
  {
    var line := DATA_PREFIX + " " + json;
    assert DATA_PREFIX <= line && line[|DATA_PREFIX|..] == " " + json;
    assert (" " + json)[1..] == json;
    assert StripSpaces(json) == json;
  }

  lemma BlankLineReads(json: string, e: Event, events: seq<Event>)
    requires ValidateJson(json) == Some(e)
    ensures ReadLine(Reader([json], events), "") == Some(Reader([], events + [e]))
  {
    assert JoinLines([json]) == json;
  }

  lemma ReadThree(r: Reader, a: string, b: string, c: string, r1: Reader, r2: Reader, r3: Reader)
    requires ReadLine(r, a) == Some(r1) && ReadLine(r1, b) == Some(r2) && ReadLine(r2, c) == Some(r3)
    ensures ReadLines(r, [a, b, c]) == Some(r3)
  {
    assert [a, b, c][1..] == [b, c] && [b, c][1..] == [c] && [c][1..] == [];
    assert ReadLines(r2, [c]) == Some(r3);
    assert ReadLines(r1, [b, c]) == Some(r3);
  }

  lemma FrameReads(e: Event, events: seq<Event>)
    ensures ReadLines(Reader([], events), ItemLines(Frame(e))) == Some(Reader([], events + [e]))
  {
    hide ReadLine, ReadLines, ValidateJson, TypeOf;
    var r, json := Reader([], events), DumpJson(e);
    JsonRoundTrip(e);
    EventLineReads(r, TypeOf(e));
    assert json[0] == '{';
    DataLineReads(r, json);
    assert [] + [json] == [json];
    BlankLineReads(json, e, events);
    ReadThree(r, EVENT_PREFIX + " " + TypeOf(e), DATA_PREFIX + " " + json, "", r, Reader([json], events),
              Reader([], events + [e]));
  }

  lemma HeartbeatReads(events: seq<Event>)
    ensures ReadLines(Reader([], events), ItemLines(Heartbeat)) == Some(Reader([], events))
  {
    var r := Reader([], events);
    assert HEARTBEAT[0] == ':';
    assert ReadLine(r, HEARTBEAT) == Some(r);
    assert [HEARTBEAT, ""][1..] == [""];
    assert ReadLines(r, [""]) == Some(r);
  }

  function Own(item: Item): seq<Event> {
    if item.Frame? then [item.event] else []
  }

  lemma ItemReads(item: Item, events: seq<Event>)
    ensures ReadLines(Reader([], events), ItemLines(item)) == Some(Reader([], events + Own(item)))
  {
    match item
    case Frame(e) => FrameReads(e, events);
    case Heartbeat =>
      HeartbeatReads(events);
      assert events + [] == events;
  }

  lemma NothingReads(events: seq<Event>)
    ensures ReadLines(Reader([], events), []) == Some(Reader([], events + []))
  {
    assert events + [] == events;
  }

  lemma {:induction false} StreamReads(items: seq<Item>, events: seq<Event>)
    ensures ReadLines(Reader([], events), StreamLines(items)) == Some(Reader([], events + EventsOf(items)))
    decreases |items|
  {
    hide ReadLines, ItemLines, Own;
    if items == [] {
      NothingReads(events);
    } else {
      ItemReads(items[0], events);
      ReadAppend(Reader([], events), ItemLines(items[0]), StreamLines(items[1..]));
      StreamReads(items[1..], events + Own(items[0]));
      assert events + Own(items[0]) + EventsOf(items[1..]) == events + EventsOf(items);
    }
  }

  // Any events, with heartbeats anywhere between frames, and with every line
  // ended by LF, CR or CRLF as the sender likes, parse back to those events.
  lemma WireRoundTrip(items: seq<Item>, ends: seq<Terminator>)
    requires |ends| == |StreamLines(items)| && Separable(StreamLines(items), ends)
    ensures Parse(Terminated(StreamLines(items), ends)) == Some(EventsOf(items))
  {
    var lines := StreamLines(items);
    StreamLinesUnbroken(items);
    SplitTerminated(lines, ends);
    StreamReads(items, []);
    assert [] + EventsOf(items) == EventsOf(items);
    ReadAppend(Reader([], []), lines, [""]);
    assert ReadLines(Reader([], EventsOf(items)), [""]) == Some(Reader([], EventsOf(items)));
  }

  function ReplacedChar(c: char, t: Terminator): string {
    if c == '\n' then Text(t) else [c]
  }

  // Every LF of a text replaced by the same terminator.
  function Replaced(s: string, t: Terminator): string {
    if s == "" then "" else ReplacedChar(s[0], t) + Replaced(s[1..], t)
  }

  lemma {:induction false} ReplacedAppend(a: string, b: string, t: Terminator)
    ensures Replaced(a + b, t) == Replaced(a, t) + Replaced(b, t)
    decreases |a|
  {
    hide ReplacedChar;
    if a == "" {
      assert a + b == b;
      assert "" + Replaced(b, t) == Replaced(b, t);
    } else {
      ReplacedAppend(a[1..], b, t);
      assert (a + b)[1..] == a[1..] + b && (a + b)[0] == a[0];
      Assoc(ReplacedChar(a[0], t), Replaced(a[1..], t), Replaced(b, t));
    }
  }

  lemma {:induction false} ReplacedUnbroken(a: string, t: Terminator)
    requires Unbroken(a)
    ensures Replaced(a, t) == a
  {
    if a != "" {
      assert a[0] in a;
      ReplacedUnbroken(a[1..], t);
    }
  }

  lemma ReplacedBreak(rest: string, t: Terminator)
    ensures Replaced("\n" + rest, t) == Text(t) + Replaced(rest, t)
  {
    assert ("\n" + rest)[1..] == rest;
  }

  lemma ReplacedLine(line: string, rest: string, t: Terminator)
    requires Unbroken(line)
    ensures Replaced(line + "\n" + rest, t) == line + Text(t) + Replaced(rest, t)
  {
    hide Unbroken, Replaced, Text;
    Assoc(line, "\n", rest);
    ReplacedAppend(line, "\n" + rest, t);
    ReplacedUnbroken(line, t);
    ReplacedBreak(rest, t);
    Assoc(line, Text(t), Replaced(rest, t));
  }

  function Same(t: Terminator, n: nat): seq<Terminator> {
    seq(n, _ => t)
  }

  // The frames as sent, with one terminator for all.
  lemma {:induction false} LinesReplaced(lines: seq<string>, t: Terminator)
    requires forall l :: l in lines ==> Unbroken(l)
    ensures Replaced(Terminated(lines, Same(Lf, |lines|)), t) == Terminated(lines, Same(t, |lines|))
  {
    if lines != [] {
      LinesReplaced(lines[1..], t);
      assert Same(Lf, |lines|)[1..] == Same(Lf, |lines| - 1) && Same(t, |lines|)[1..] == Same(t, |lines| - 1);
      ReplacedLine(lines[0], Terminated(lines[1..], Same(Lf, |lines| - 1)), t);
    }
  }

  lemma {:induction false} TerminatedAppend(a: seq<string>, b: seq<string>)
    ensures Terminated(a + b, Same(Lf, |a + b|)) == Terminated(a, Same(Lf, |a|)) + Terminated(b, Same(Lf, |b|))
    decreases |a|
  {
    if a == [] {
      assert a + b == b;
    } else {
      TerminatedAppend(a[1..], b);
      assert (a + b)[1..] == a[1..] + b;
      assert Same(Lf, |a + b|)[1..] == Same(Lf, |a[1..] + b|) && Same(Lf, |a|)[1..] == Same(Lf, |a[1..]|);
    }
  }

  lemma ItemIsLines(item: Item)
    ensures ItemText(item) == Terminated(ItemLines(item), Same(Lf, |ItemLines(item)|))
  {
    hide DumpJson, TypeOf;
    var lines := ItemLines(item);
    var ends := Same(Lf, |lines|);
    assert Terminated([""], [Lf]) == "\n";
    if item.Frame? {
      assert lines[1..] == [lines[1], ""] && ends[1..] == [Lf, Lf];
      assert lines[1..][1..] == [""] && ends[1..][1..] == [Lf];
      assert Terminated(lines[1..], ends[1..]) == lines[1] + "\n" + "\n";
      assert ToSse(item.event) == lines[0] + "\n" + (lines[1] + "\n" + "\n");
    } else {
      assert lines[1..] == [""] && ends[1..] == [Lf];
    }
  }

  lemma {:induction false} StreamIsLines(items: seq<Item>)
    ensures StreamText(items) == Terminated(StreamLines(items), Same(Lf, |StreamLines(items)|))
  {
    if items != [] {
      StreamIsLines(items[1..]);
      ItemIsLines(items[0]);
      TerminatedAppend(ItemLines(items[0]), StreamLines(items[1..]));
    }
  }

  // The concatenated frames as the server sends them, or with every LF replaced
  // by CR or by CRLF on the way.
  lemma UniformRoundTrip(items: seq<Item>, t: Terminator)
    ensures Parse(Replaced(StreamText(items), t)) == Some(EventsOf(items))
    ensures Parse(StreamText(items)) == Some(EventsOf(items))
  {
    var lines := StreamLines(items);
    StreamIsLines(items);
    StreamLinesUnbroken(items);
    LinesReplaced(lines, t);
    WireRoundTrip(items, Same(t, |lines|));
    WireRoundTrip(items, Same(Lf, |lines|));
  }
}

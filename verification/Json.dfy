// The JSON the event codec writes and reads: objects whose values are strings, as
// in section 7 of RFC 8259.
module Json {
  import opened Prelude

  /******* JSON strings *******/

  const BACKSPACE := '\U{8}'
  const FORM_FEED := '\U{C}'

  function HexDigit(n: nat): char
    requires n < 16
  {
    if n < 10 then ('0' as int + n) as char else ('a' as int + n - 10) as char
  }

  function EscapeChar(c: char): string {
    if c == '"' then "\\\""
    else if c == '\\' then "\\\\"
    else if c == BACKSPACE then "\\b"
    else if c == '\t' then "\\t"
    else if c == '\n' then "\\n"
    else if c == FORM_FEED then "\\f"
    else if c == '\r' then "\\r"
    else if c < ' ' then "\\u00" + [HexDigit(c as int / 16), HexDigit(c as int % 16)]
    else [c]
  }

  function Escape(s: string): string {
    if s == "" then "" else EscapeChar(s[0]) + Escape(s[1..])
  }

  function HexValue(c: char): Option<nat> {
    if '0' <= c <= '9' then Some(c as int - '0' as int)
    else if 'a' <= c <= 'f' then Some(c as int - 'a' as int + 10)
    else if 'A' <= c <= 'F' then Some(c as int - 'A' as int + 10)
    else None
  }

  // The code unit spelled by the first four characters.
  function CodeUnit(s: string): (r: Option<nat>)
    ensures r.Some? ==> |s| >= 4 && r.value < 0x10000
  {
    if |s| < 4 then None
    else
      var a, b, c, d := HexValue(s[0]), HexValue(s[1]), HexValue(s[2]), HexValue(s[3]);
      if a.Some? && b.Some? && c.Some? && d.Some? && a.value < 16 && b.value < 16 && c.value < 16 && d.value < 16
      then Some(a.value * 0x1000 + b.value * 0x100 + c.value * 0x10 + d.value)
      else None
  }

  datatype Parsed<T> = Parsed(value: T, rest: string)

  // What follows a backslash: one character, and where it ends.
  function ParseEscape(s: string): (r: Option<Parsed<char>>)
    ensures r.Some? ==> |r.value.rest| < |s|
  {
    if s == "" then None
    else match s[0]
      case '"' => Some(Parsed('"', s[1..]))
      case '\\' => Some(Parsed('\\', s[1..]))
      case '/' => Some(Parsed('/', s[1..]))
      case 'b' => Some(Parsed(BACKSPACE, s[1..]))
      case 'f' => Some(Parsed(FORM_FEED, s[1..]))
      case 'n' => Some(Parsed('\n', s[1..]))
      case 'r' => Some(Parsed('\r', s[1..]))
      case 't' => Some(Parsed('\t', s[1..]))
      case 'u' => ParseUnicode(s[1..])
      case _ => None
  }

  // Code units outside the surrogates stand for themselves; a leading surrogate
  // needs its trailing one.
  function ParseUnicode(s: string): (r: Option<Parsed<char>>)
    ensures r.Some? ==> |r.value.rest| < |s|
  {
    var unit := CodeUnit(s);
    if unit.None? then None
    else if unit.value < 0xD800 || 0xE000 <= unit.value then Some(Parsed(unit.value as char, s[4..]))
    else if unit.value < 0xDC00 && |s| >= 6 && s[4] == '\\' && s[5] == 'u' then
      var low := CodeUnit(s[6..]);
      if low.Some? && 0xDC00 <= low.value < 0xE000
      then Some(Parsed((0x10000 + (unit.value - 0xD800) * 0x400 + (low.value - 0xDC00)) as char, s[10..]))
      else None
    else None
  }

  // The rest of a string, after its opening quote.
  function ParseChars(s: string): (r: Option<Parsed<string>>)
    ensures r.Some? ==> |r.value.rest| < |s|
    decreases |s|
  {
    if s == "" || s[0] < ' ' then None
    else if s[0] == '"' then Some(Parsed("", s[1..]))
    else if s[0] == '\\' then
      var c := ParseEscape(s[1..]);
      if c.None? then None
      else
        var tail := ParseChars(c.value.rest);
        if tail.None? then None else Some(Parsed([c.value.value] + tail.value.value, tail.value.rest))
    else
      var tail := ParseChars(s[1..]);
      if tail.None? then None else Some(Parsed([s[0]] + tail.value.value, tail.value.rest))
  }

  /******* JSON objects of strings *******/

  datatype Member = Member(key: string, value: string)

  function Quoted(s: string): string {
    "\"" + Escape(s) + "\""
  }

  function MemberText(m: Member): string {
    Quoted(m.key) + ":" + Quoted(m.value)
  }

  function Members(ms: seq<Member>): string
    requires ms != []
  {
    if |ms| == 1 then MemberText(ms[0]) else MemberText(ms[0]) + "," + Members(ms[1..])
  }

  function Object(ms: seq<Member>): string
    requires ms != []
  {
    "{" + Members(ms) + "}"
  }

  // A later member with the same key wins.
  function MapOf(ms: seq<Member>): map<string, string> {
    if ms == [] then map[] else MapOf(ms[..|ms| - 1])[ms[|ms| - 1].key := ms[|ms| - 1].value]
  }

  predicate Blank(c: char) {
    c == ' ' || c == '\t' || c == '\n' || c == '\r'
  }

  function Skip(s: string): (r: string)
    ensures |r| <= |s|
  {
    if s != "" && Blank(s[0]) then Skip(s[1..]) else s
  }

  // A quoted string, after any blanks.
  function ParseString(s: string): (r: Option<Parsed<string>>)
    ensures r.Some? ==> |r.value.rest| < |s|
  {
    var t := Skip(s);
    if t != "" && t[0] == '"' then ParseChars(t[1..]) else None
  }

  function ParseMember(s: string): (r: Option<Parsed<Member>>)
    ensures r.Some? ==> |r.value.rest| < |s|
  {
    var key := ParseString(s);
    if key.None? then None
    else
      var t := Skip(key.value.rest);
      if t == "" || t[0] != ':' then None
      else
        var value := ParseString(t[1..]);
        if value.None? then None else Some(Parsed(Member(key.value.value, value.value.value), value.value.rest))
  }

  function ParseMembers(s: string, seen: map<string, string>): (r: Option<Parsed<map<string, string>>>)
    decreases |s|
  {
    var m := ParseMember(s);
    if m.None? then None
    else
      var seen' := seen[m.value.value.key := m.value.value.value];
      var t := Skip(m.value.rest);
      if t != "" && t[0] == ',' then ParseMembers(t[1..], seen')
      else if t != "" && t[0] == '}' then Some(Parsed(seen', t[1..]))
      else None
  }

  function ParseObject(s: string): Option<map<string, string>> {
    var t := Skip(s);
    if t == "" || t[0] != '{' then None
    else
      var u := Skip(t[1..]);
      var r := if u != "" && u[0] == '}' then Some(Parsed(map[], u[1..])) else ParseMembers(u, map[]);
      if r.Some? && Skip(r.value.rest) == "" then Some(r.value.value) else None
  }

  /******* Strings survive escaping *******/

  predicate Printable(s: string) {
    forall c :: c in s ==> c >= ' '
  }

  // No control character is left raw, so no CR and no LF.
  lemma {:induction false} EscapePrintable(s: string)
    ensures Printable(Escape(s))
  {
    if s != "" {
      EscapePrintable(s[1..]);
      assert Printable(EscapeChar(s[0]));
      PrintableAppend(EscapeChar(s[0]), Escape(s[1..]));
    }
  }

  lemma UnitOfControl(c: char, rest: string)
    requires c < ' '
    ensures var digits := "00" + [HexDigit(c as int / 16), HexDigit(c as int % 16)];
            CodeUnit(digits + rest) == Some(c as int) && (digits + rest)[4..] == rest
  {
  }

  // One escaped character reads back as itself.
  lemma EscapedCharParses(c: char, rest: string)
    ensures var s := EscapeChar(c) + rest;
            && s[0] >= ' ' && s[0] != '"'
            && (s[0] == '\\' ==> ParseEscape(s[1..]) == Some(Parsed(c, rest)))
            && (s[0] != '\\' ==> s[0] == c && s[1..] == rest)
  {
    var s := EscapeChar(c) + rest;
    if c == '"' || c == '\\' || c == BACKSPACE || c == '\t' || c == '\n' || c == FORM_FEED || c == '\r' {
      assert s[2..] == rest && s[1..][1..] == rest;
    } else if c < ' ' {
      var digits := "00" + [HexDigit(c as int / 16), HexDigit(c as int % 16)];
      UnitOfControl(c, rest);
      assert s[1..] == "u" + (digits + rest);
      assert s[1..][1..] == digits + rest;
    } else {
      assert s[1..] == rest;
    }
  }

  lemma CharParses(s: string, c: char, tail: string, v: string, rest: string)
    requires s != "" && s[0] >= ' ' && s[0] != '"'
    requires s[0] == '\\' ==> ParseEscape(s[1..]) == Some(Parsed(c, tail))
    requires s[0] != '\\' ==> s[0] == c && s[1..] == tail
    requires ParseChars(tail) == Some(Parsed(v, rest))
    ensures ParseChars(s) == Some(Parsed([c] + v, rest))
  {
  }

  lemma {:induction false} EscapeRoundTrip(s: string, rest: string)
    ensures ParseChars(Escape(s) + "\"" + rest) == Some(Parsed(s, rest))
  {
    if s == "" {
      assert ("\"" + rest)[1..] == rest;
      assert Escape(s) + "\"" + rest == "\"" + rest;
    } else {
      var tail := Escape(s[1..]) + "\"" + rest;
      EscapeRoundTrip(s[1..], rest);
      EscapedCharParses(s[0], tail);
      CharParses(EscapeChar(s[0]) + tail, s[0], tail, s[1..], rest);
      Regroup(EscapeChar(s[0]), Escape(s[1..]), "\"", rest);
      assert s == [s[0]] + s[1..];
    }
  }

  lemma Assoc(a: string, b: string, c: string)
    ensures a + b + c == a + (b + c)
  {
  }

  lemma Regroup(a: string, b: string, c: string, d: string)
    ensures (a + b) + c + d == a + (b + c + d)
  {
  }

  /******* Objects survive *******/

  lemma QuotedParses(s: string, rest: string)
    ensures ParseString(Quoted(s) + rest) == Some(Parsed(s, rest))
  {
    var text := Quoted(s) + rest;
    assert text[0] == '"' && text[1..] == Escape(s) + "\"" + rest;
    EscapeRoundTrip(s, rest);
  }

  lemma MemberParses(m: Member, rest: string)
    ensures ParseMember(MemberText(m) + rest) == Some(Parsed(m, rest))
  {
    hide ParseString, Escape;
    var t := ":" + (Quoted(m.value) + rest);
    Regroup(Quoted(m.key), ":", Quoted(m.value), rest);
    assert ":" + Quoted(m.value) + rest == t;
    QuotedParses(m.key, t);
    assert t[1..] == Quoted(m.value) + rest;
    QuotedParses(m.value, rest);
  }

  function Extend(seen: map<string, string>, ms: seq<Member>): map<string, string>
    decreases |ms|
  {
    if ms == [] then seen else Extend(seen[ms[0].key := ms[0].value], ms[1..])
  }

  lemma MembersStep(first: string, m: Member, t: string, seen: map<string, string>)
    requires ParseMember(first + t) == Some(Parsed(m, t))
    requires t != "" && (t[0] == ',' || t[0] == '}')
    ensures ParseMembers(first + t, seen) ==
            if t[0] == ',' then ParseMembers(t[1..], seen[m.key := m.value])
            else Some(Parsed(seen[m.key := m.value], t[1..]))
  {
  }

  lemma {:induction false} MembersParse(ms: seq<Member>, seen: map<string, string>, rest: string)
    requires ms != []
    ensures ParseMembers(Members(ms) + "}" + rest, seen) == Some(Parsed(Extend(seen, ms), rest))
  {
    hide ParseMembers, ParseMember, MemberText;
    var m, first := ms[0], MemberText(ms[0]);
    if |ms| == 1 {
      var t := "}" + rest;
      MemberParses(m, t);
      MembersStep(first, m, t, seen);
      assert first + "}" + rest == first + t;
      assert t[1..] == rest;
    } else {
      var more := Members(ms[1..]) + "}" + rest;
      var t := "," + more;
      MemberParses(m, t);
      MembersStep(first, m, t, seen);
      Regroup(first + ",", Members(ms[1..]), "}", rest);
      assert first + "," + more == first + t;
      assert t[1..] == more;
      MembersParse(ms[1..], seen[m.key := m.value], rest);
    }
  }

  lemma {:induction false} ExtendIsMapOf(a: seq<Member>, b: seq<Member>)
    ensures Extend(MapOf(a), b) == MapOf(a + b)
    decreases |b|
  {
    if b == [] {
      assert a + b == a;
    } else {
      var a' := a + [b[0]];
      assert a'[..|a|] == a;
      ExtendIsMapOf(a', b[1..]);
      assert a' + b[1..] == a + b;
    }
  }

  lemma ExtendFromEmpty(ms: seq<Member>)
    ensures Extend(map[], ms) == MapOf(ms)
  {
    ExtendIsMapOf([], ms);
    assert [] + ms == ms;
  }

  lemma ObjectParses(body: string, m: map<string, string>)
    requires body != "" && body[0] == '"' && ParseMembers(body, map[]) == Some(Parsed(m, ""))
    ensures ParseObject("{" + body) == Some(m)
  {
    hide ParseMembers;
    var s := "{" + body;
    assert s[0] == '{' && s[1..] == body;
  }

  // Any object of string members reads back as its map, whatever its keys, their
  // order and the characters in them.
  lemma ObjectRoundTrip(ms: seq<Member>)
    requires ms != []
    ensures ParseObject(Object(ms)) == Some(MapOf(ms))
  {
    hide ParseObject, ParseMembers, MapOf, Extend;
    var body := Members(ms) + "}";
    assert MemberText(ms[0])[0] == '"';
    assert body[0] == MemberText(ms[0])[0];
    assert body + "" == body;
    MembersParse(ms, map[], "");
    ExtendFromEmpty(ms);
    ObjectParses(body, MapOf(ms));
    assert Object(ms) == "{" + body;
  }

  lemma PrintableAppend(a: string, b: string)
    requires Printable(a) && Printable(b)
    ensures Printable(a + b)
  {
  }

  lemma MemberPrintable(m: Member)
    ensures Printable(MemberText(m))
  {
    EscapePrintable(m.key);
    EscapePrintable(m.value);
    assert Printable("\"") && Printable(":");
  }

  lemma {:induction false} MembersPrintable(ms: seq<Member>)
    requires ms != []
    ensures Printable(Members(ms))
  {
    MemberPrintable(ms[0]);
    if |ms| > 1 {
      MembersPrintable(ms[1..]);
      assert Printable(",");
    }
  }

  lemma ObjectPrintable(ms: seq<Member>)
    requires ms != []
    ensures Printable(Object(ms))
  {
    MembersPrintable(ms);
    assert Printable("{") && Printable("}");
  }
}

// The history trimmer shared by the session stores.
module Trim {
  import opened Prelude

  datatype Part =
    | Words(content: string)
    | ToolCall(id: string)
    | ToolReturn(id: string)
    | Retry(toolName: Option<string>, id: string)

  datatype Message = Request(parts: seq<Part>) | Response(parts: seq<Part>)

  // Calls open an id; returns, and retries of a named tool, close it.
  function Openers(m: Message): set<string> {
    if m.Response? then set p | p in m.parts && p.ToolCall? :: p.id else {}
  }

  predicate Closes(p: Part) {
    p.ToolReturn? || (p.Retry? && p.toolName.Some?)
  }

  function Closers(m: Message): set<string> {
    if m.Request? then set p | p in m.parts && Closes(p) :: p.id else {}
  }

  function OpenerIds(messages: seq<Message>): set<string> {
    set m, id | m in messages && id in Openers(m) :: id
  }

  function CloserIds(messages: seq<Message>): set<string> {
    set m, id | m in messages && id in Closers(m) :: id
  }

  // Every return kept has a call kept.
  predicate Paired(messages: seq<Message>) {
    CloserIds(messages) <= OpenerIds(messages)
  }

  // Part by part: a response opens the ids of its calls; a request closes those of
  // its returns and of its retries that name a tool, and of no other retry.
  lemma OpensAndCloses(m: Message, id: string)
    ensures id in Openers(m) <==> m.Response? && ToolCall(id) in m.parts
    ensures id in Closers(m) <==>
            m.Request? && (ToolReturn(id) in m.parts || exists name :: Retry(Some(name), id) in m.parts)
  {
    if id in Openers(m) {
      var p :| p in m.parts && p.ToolCall? && p.id == id;
      assert p == ToolCall(id);
    }
    if id in Closers(m) {
      var p :| p in m.parts && Closes(p) && p.id == id;
      assert p == ToolReturn(id) || (p.Retry? && p.toolName.Some? && p == Retry(Some(p.toolName.value), id));
    }
  }

  // Each return and named retry among the messages has its call among them.
  ghost predicate Answers(messages: seq<Message>) {
    forall m, p :: m in messages && m.Request? && p in m.parts ==>
      (p.ToolReturn? || (p.Retry? && p.toolName != None)) ==> Called(messages, p.id)
  }

  ghost predicate Called(messages: seq<Message>, id: string) {
    exists n :: n in messages && n.Response? && ToolCall(id) in n.parts
  }

  lemma PairedExactly(messages: seq<Message>)
    ensures Paired(messages) <==> Answers(messages)
  {
    forall id
      ensures id in OpenerIds(messages) <==> Called(messages, id)
    {
      forall n | n in messages
        ensures id in Openers(n) <==> n.Response? && ToolCall(id) in n.parts
      {
        OpensAndCloses(n, id);
      }
    }
    hide Openers;
    if Paired(messages) {
      forall m, p | m in messages && m.Request? && p in m.parts && (p.ToolReturn? || (p.Retry? && p.toolName != None))
        ensures Called(messages, p.id)
      {
        assert p.id in Closers(m) && p.id in CloserIds(messages);
      }
    }
    if Answers(messages) {
      forall id | id in CloserIds(messages)
        ensures Called(messages, id)
      {
        var m :| m in messages && id in Closers(m);
        var p :| p in m.parts && Closes(p) && p.id == id;
      }
    }
  }

  function LeastCut(rest: seq<Message>, start: nat): (k: nat)
    requires start <= |rest|
    ensures start <= k <= |rest| && Paired(rest[k..])
    ensures forall j :: start <= j < k ==> !Paired(rest[j..])
    decreases |rest| - start
  {
    if start == |rest| || Paired(rest[start..]) then start else LeastCut(rest, start + 1)
  }

  function WithParts(messages: seq<Message>): seq<Message> {
    if messages == [] then []
    else WithParts(messages[..|messages| - 1]) + Nonempty(messages[|messages| - 1])
  }

  function CutOf(messages: seq<Message>, max: nat): (k: nat)
    requires |messages| > max
    ensures k <= |messages| - 1
  {
    LeastCut(messages[1..], if max == 0 then |messages| - 1 else |messages| - max)
  }

  function Kept(messages: seq<Message>, max: nat): seq<Message> {
    if |messages| <= max then messages else [messages[0]] + messages[1..][CutOf(messages, max)..]
  }

  function TrimHistory(messages: seq<Message>, max: nat): seq<Message> {
    WithParts(Kept(messages, max))
  }

  /******* The loops *******/

  method CollectClosers(messages: seq<Message>) returns (ids: set<string>)
    ensures ids == CloserIds(messages)
  {
    ids := {};
    for i := 0 to |messages|
      invariant ids == CloserIds(messages[..i])
    {
      var m := messages[i];
      assert messages[..i + 1] == messages[..i] + [m];
      ghost var before := ids;
      if m.Request? {
        for j := 0 to |m.parts|
          invariant ids == before + set p | p in m.parts[..j] && Closes(p) :: p.id
        {
          assert m.parts[..j + 1] == m.parts[..j] + [m.parts[j]];
          if Closes(m.parts[j]) {
            ids := ids + {m.parts[j].id};
          }
        }
        assert m.parts[..|m.parts|] == m.parts;
      }
      assert ids == before + Closers(m);
    }
    assert messages[..|messages|] == messages;
  }

  method FindValidCut(rest: seq<Message>, idealCut: int) returns (k: nat)
    ensures k == LeastCut(rest, if idealCut < 0 then 0 else if idealCut > |rest| then |rest| else idealCut)
  {
    var start := if idealCut < 0 then 0 else if idealCut > |rest| then |rest| else idealCut;
    k := start;
    while k <= |rest|
      invariant start <= k <= |rest|
      invariant LeastCut(rest, start) == LeastCut(rest, k)
      decreases |rest| - k
    {
      var candidates := rest[k..];
      var closers := CollectClosers(candidates);
      if closers <= OpenerIds(candidates) {
        return;
      }
      assert k == |rest| ==> candidates == [];
      k := k + 1;
    }
  }

  method Trimmed(messages: seq<Message>, max: nat) returns (r: seq<Message>)
    ensures r == TrimHistory(messages, max)
  {
    if |messages| <= max {
      return WithParts(messages);
    }
    var head, rest := messages[0], messages[1..];
    var cut := FindValidCut(rest, |messages| - max);
    hide LeastCut, WithParts;
    assert cut == CutOf(messages, max);
    return WithParts([head] + rest[cut..]);
  }

  /******* What trimming promises *******/

  function Nonempty(m: Message): seq<Message> {
    if m.parts != [] then [m] else []
  }

  lemma {:induction false} WithPartsMembers(messages: seq<Message>, m: Message)
    ensures m in WithParts(messages) <==> m in messages && m.parts != []
  {
    if messages != [] {
      var n := |messages| - 1;
      WithPartsMembers(messages[..n], m);
      assert messages == messages[..n] + [messages[n]];
    }
  }

  lemma {:induction false} WithPartsShorter(messages: seq<Message>)
    ensures |WithParts(messages)| <= |messages|
  {
    if messages != [] {
      WithPartsShorter(messages[..|messages| - 1]);
    }
  }

  lemma {:induction false} WithPartsIdle(messages: seq<Message>)
    requires forall i :: 0 <= i < |messages| ==> messages[i].parts != []
    ensures WithParts(messages) == messages
  {
    if messages != [] {
      var n := |messages| - 1;
      WithPartsIdle(messages[..n]);
      assert messages == messages[..n] + [messages[n]];
    }
  }

  lemma {:induction false} WithPartsFirst(messages: seq<Message>)
    requires messages != [] && messages[0].parts != []
    ensures WithParts(messages) != [] && WithParts(messages)[0] == messages[0]
  {
    if |messages| == 1 {
      assert messages[..0] == [];
    } else {
      WithPartsFirst(messages[..|messages| - 1]);
    }
  }

  lemma KeptMembers(messages: seq<Message>, max: nat, m: Message)
    requires m in Kept(messages, max)
    ensures m in messages
  {
  }

  // At most `max` messages, none of them empty, and beginning with the first one
  // exactly when that has parts.
  lemma TrimBounds(messages: seq<Message>, max: nat)
    ensures max >= 1 ==> |TrimHistory(messages, max)| <= max
    ensures forall m :: m in TrimHistory(messages, max) ==> m.parts != [] && m in messages
    ensures messages != [] ==>
              (messages[0].parts != [] <==>
                 TrimHistory(messages, max) != [] && TrimHistory(messages, max)[0] == messages[0])
  {
    hide Paired, WithParts;
    var kept := Kept(messages, max);
    WithPartsShorter(kept);
    forall m | m in TrimHistory(messages, max)
      ensures m.parts != [] && m in messages
    {
      WithPartsMembers(kept, m);
      KeptMembers(messages, max, m);
    }
    if messages != [] && messages[0].parts != [] {
      WithPartsFirst(kept);
    }
    assert TrimHistory(messages, max) != [] ==> TrimHistory(messages, max)[0] in TrimHistory(messages, max);
  }

  // With room for all of it a history loses its empty messages only.
  lemma {:induction false} RoomForAll(messages: seq<Message>, max: nat)
    requires |messages| <= max
    ensures (forall m :: m in messages ==> m.parts != []) ==> TrimHistory(messages, max) == messages
    ensures forall m :: m in TrimHistory(messages, max) <==> m in messages && m.parts != []
  {
    if forall m :: m in messages ==> m.parts != [] {
      WithPartsIdle(messages);
    }
    forall m
      ensures m in WithParts(messages) <==> m in messages && m.parts != []
    {
      WithPartsMembers(messages, m);
    }
  }

  // The history that loses its first message, however much room there is.
  lemma FirstMessageDropped(text: string, max: nat)
    requires max >= 2
    ensures var first, answer := Request([]), Response([Words(text)]);
            TrimHistory([first, answer], max) == [answer]
  {
    var messages := [Request([]), Response([Words(text)])];
    assert WithParts(messages[..1][..0]) == [] && messages[..1][0] == Request([]);
    assert WithParts(messages[..1]) == [];
  }

  lemma KeptNone(messages: seq<Message>)
    requires messages != []
    ensures Kept(messages, 0) == [messages[0]]
  {
    hide Paired;
    assert messages[1..][CutOf(messages, 0)..] == [];
  }

  // Trimming again changes nothing.
  lemma TrimTwice(messages: seq<Message>, max: nat)
    ensures TrimHistory(TrimHistory(messages, max), max) == TrimHistory(messages, max)
  {
    var r := TrimHistory(messages, max);
    TrimBounds(messages, max);
    WithPartsIdle(r);
    if max == 0 && r != [] {
      KeptNone(messages);
      WithPartsShorter([messages[0]]);
      KeptNone(r);
      assert r == [r[0]];
    }
  }

  // When trimming drops anything, what stays of the rest is the longest suffix
  // from the ideal cut in which every return's call also stays.
  lemma TailIsLongest(messages: seq<Message>, max: nat, j: nat)
    requires |messages| > max >= 1
    ensures var k := CutOf(messages, max);
            && |messages| - max <= k <= |messages| - 1
            && TrimHistory(messages, max) == WithParts([messages[0]] + messages[1 + k..])
            && Answers(messages[1 + k..])
            && (|messages| - max <= j < k ==> !Answers(messages[1 + j..]))
  {
    var k := CutOf(messages, max);
    assert messages[1..][k..] == messages[1 + k..];
    PairedExactly(messages[1 + k..]);
    hide Paired, Answers;
    if j < k {
      assert messages[1..][j..] == messages[1 + j..];
      PairedExactly(messages[1 + j..]);
    }
  }

  // Part by part: when trimming drops anything, every tool return, and every retry
  // that names a tool, among the messages kept after the first has its call kept.
  lemma ReturnsKeepTheirCalls(messages: seq<Message>, max: nat, m: Message, p: Part)
    requires |messages| > max && m in messages[1 + CutOf(messages, max)..] && m.Request? && p in m.parts
    requires p.ToolReturn? || (p.Retry? && p.toolName != None)
    ensures exists n :: n in messages[1 + CutOf(messages, max)..] && n.Response? && ToolCall(p.id) in n.parts
  {
    var kept := messages[1 + CutOf(messages, max)..];
    assert kept == messages[1..][CutOf(messages, max)..];
    assert p.id in Closers(m);
    assert p.id in CloserIds(kept);
    var n :| n in kept && p.id in Openers(n);
    var q :| q in n.parts && q.ToolCall? && q.id == p.id;
    assert q == ToolCall(p.id);
  }

  /******* Order of calls and returns *******/

  // Every return comes after a message that made its call.
  predicate Ordered(messages: seq<Message>) {
    forall j :: 0 <= j < |messages| ==> Closers(messages[j]) <= OpenerIds(messages[..j])
  }

  lemma OpenersAppend(a: seq<Message>, b: seq<Message>)
    ensures OpenerIds(a + b) == OpenerIds(a) + OpenerIds(b)
  {
  }

  lemma OrderedPush(a: seq<Message>, m: Message)
    ensures Ordered(a + [m]) <==> Ordered(a) && Closers(m) <= OpenerIds(a)
  {
    var b := a + [m];
    assert b[..|a|] == a;
    forall j | 0 <= j < |a|
      ensures b[..j] == a[..j] && b[j] == a[j]
    {
    }
    if Ordered(b) {
      assert forall j :: 0 <= j < |a| ==> Closers(b[j]) <= OpenerIds(b[..j]);
      assert Closers(b[|a|]) <= OpenerIds(b[..|a|]);
    }
  }

  // Empty messages neither call nor return.
  lemma {:induction false} WithPartsKeepsOrder(messages: seq<Message>)
    ensures OpenerIds(WithParts(messages)) == OpenerIds(messages)
    ensures Ordered(WithParts(messages)) <==> Ordered(messages)
  {
    hide Openers, OpenerIds, Closers, CloserIds, Ordered;
    if messages != [] {
      var a, m := messages[..|messages| - 1], messages[|messages| - 1];
      WithPartsKeepsOrder(a);
      assert messages == a + [m];
      OpenersAppend(a, [m]);
      OpenersOne(m);
      OrderedPush(a, m);
      if m.parts == [] {
        EmptySilent(m);
        assert WithParts(messages) == WithParts(a);
      } else {
        OpenersAppend(WithParts(a), [m]);
        OrderedPush(WithParts(a), m);
      }
    }
  }

  lemma EmptySilent(m: Message)
    requires m.parts == []
    ensures Openers(m) == {} && Closers(m) == {}
  {
  }

  lemma OpenersOne(m: Message)
    ensures OpenerIds([m]) == Openers(m)
  {
  }

  // The last message that calls `id`.
  function LatestCall(messages: seq<Message>, id: string): (p: Option<nat>)
    ensures p.Some? ==> p.value < |messages| && id in Openers(messages[p.value])
    ensures forall q :: (if p.Some? then p.value + 1 else 0) <= q < |messages| ==> id !in Openers(messages[q])
  {
    if messages == [] then None
    else
      var n := |messages| - 1;
      if id in Openers(messages[n]) then Some(n) else LatestCall(messages[..n], id)
  }

  // Cutting the rest at `c` keeps a return, at `j`, but not the call it answers:
  // the latest one before it, unless the first message, always kept, calls the
  // same id.
  predicate CutsCallOf(messages: seq<Message>, c: nat, j: nat, id: string)
    requires messages != [] && c <= j < |messages| - 1
  {
    var rest := messages[1..];
    && id in Closers(rest[j]) && id !in Openers(messages[0])
    && var call := LatestCall(rest[..j], id);
       call.Some? && call.value < c
  }

  ghost predicate CutsACall(messages: seq<Message>, c: nat)
    requires messages != []
  {
    exists j, id :: c <= j < |messages| - 1 && CutsCallOf(messages, c, j, id)
  }

  lemma OpenerAt(messages: seq<Message>, id: string)
    ensures id in OpenerIds(messages) <==> exists q :: 0 <= q < |messages| && id in Openers(messages[q])
  {
    if m :| m in messages && id in Openers(m) {
      var q :| 0 <= q < |messages| && messages[q] == m;
      assert id in Openers(messages[q]);
    }
  }

  // The calls before a kept return, before and after the cut.
  lemma CallsBefore(messages: seq<Message>, c: nat, j: nat)
    requires messages != [] && c <= j < |messages| - 1
    ensures OpenerIds(messages[..1 + j]) == Openers(messages[0]) + OpenerIds(messages[1..][..j])
    ensures OpenerIds(([messages[0]] + messages[1..][c..])[..1 + j - c]) ==
            Openers(messages[0]) + OpenerIds(messages[1..][c..j])
  {
    hide Openers, OpenerIds;
    var head, rest := messages[0], messages[1..];
    OpenersOne(head);
    OpenersAppend([head], rest[..j]);
    OpenersAppend([head], rest[c..j]);
    assert messages[..1 + j] == [head] + rest[..j];
    assert ([head] + rest[c..])[..1 + j - c] == [head] + rest[c..j];
  }

  // A return in order stays in order exactly when its call is not cut away.
  lemma KeptCloser(messages: seq<Message>, c: nat, j: nat, id: string)
    requires messages != [] && c <= j < |messages| - 1 && Ordered(messages)
    requires id in Closers(messages[1..][j])
    ensures id in OpenerIds(([messages[0]] + messages[1..][c..])[..1 + j - c]) <==> !CutsCallOf(messages, c, j, id)
  {
    hide Openers, OpenerIds, Closers;
    var head, rest := messages[0], messages[1..];
    CallsBefore(messages, c, j);
    assert messages[1 + j] == rest[j];
    OpenerAt(rest[..j], id);
    OpenerAt(rest[c..j], id);
    var call := LatestCall(rest[..j], id);
    if call.Some? && call.value >= c {
      assert rest[c..j][call.value - c] == rest[..j][call.value];
    }
    if q :| 0 <= q < j - c && id in Openers(rest[c..j][q]) {
      assert rest[c..j][q] == rest[..j][c + q];
    }
  }

  // What a cut leaves is in order exactly when it cuts no call of a kept return.
  lemma KeptOrder(messages: seq<Message>, c: nat)
    requires messages != [] && c <= |messages| - 1 && Ordered(messages)
    ensures Ordered([messages[0]] + messages[1..][c..]) <==> !CutsACall(messages, c)
  {
    hide Openers, OpenerIds, Closers, CutsCallOf;
    var rest := messages[1..];
    var kept := [messages[0]] + rest[c..];
    forall j | c <= j < |rest|
      ensures kept[1 + j - c] == rest[j]
    {
    }
    if Ordered(kept) {
      forall j, id | c <= j < |rest|
        ensures !CutsCallOf(messages, c, j, id)
      {
        assert Closers(kept[1 + j - c]) <= OpenerIds(kept[..1 + j - c]);
        if id in Closers(rest[j]) {
          KeptCloser(messages, c, j, id);
        } else {
          CutsItsReturn(messages, c, j, id);
        }
      }
    }
    if !CutsACall(messages, c) {
      assert messages[..0] == kept[..0] && messages[0] == kept[0];
      forall n, id | 0 < n < |kept| && id in Closers(kept[n])
        ensures id in OpenerIds(kept[..n])
      {
        KeptCloser(messages, c, n - 1 + c, id);
      }
    }
  }

  lemma CutsItsReturn(messages: seq<Message>, c: nat, j: nat, id: string)
    requires messages != [] && c <= j < |messages| - 1
    ensures CutsCallOf(messages, c, j, id) ==> id in Closers(messages[1..][j])
  {
  }

  // Each suffix in which returns and calls pair up is where some cap cuts.
  lemma CapFor(messages: seq<Message>, c: nat)
    requires messages != [] && 1 <= c <= |messages| - 1 && Paired(messages[1..][c..])
    ensures CutOf(messages, |messages| - c) == c
  {
  }

  // One cap.
  lemma OrderKeptAt(messages: seq<Message>, max: nat)
    requires Ordered(messages)
    ensures Ordered(TrimHistory(messages, max)) <==>
            |messages| > max ==> !CutsACall(messages, CutOf(messages, max))
  {
    hide CutsACall, Ordered, WithParts;
    WithPartsKeepsOrder(Kept(messages, max));
    if |messages| > max {
      KeptOrder(messages, CutOf(messages, max));
    }
  }

  // The suffixes that hold every call of a return they hold, and yet begin
  // between one of these returns and the call it answers.
  ghost predicate CutsBetween(messages: seq<Message>) {
    messages != [] &&
    exists c :: 1 <= c <= |messages| - 1 && Paired(messages[1..][c..]) && CutsACall(messages, c)
  }

  // Trimming is asked to leave a history whose returns come after their calls in
  // that order. It does, whatever the cap, exactly when the history has no suffix
  // that pairs up and yet begins after the call that one of its returns answers.
  lemma OrderKeptExactly(messages: seq<Message>)
    requires Ordered(messages)
    ensures (forall max: nat :: Ordered(TrimHistory(messages, max))) <==> !CutsBetween(messages)
  {
    hide CutsACall, Ordered, Paired, TrimHistory;
    if !CutsBetween(messages) {
      forall max: nat
        ensures Ordered(TrimHistory(messages, max))
      {
        OrderKeptAt(messages, max);
        if |messages| > max && max == 0 {
          NothingCut(messages);
        }
      }
    }
    if CutsBetween(messages) {
      var c :| 1 <= c <= |messages| - 1 && Paired(messages[1..][c..]) && CutsACall(messages, c);
      CapFor(messages, c);
      OrderKeptAt(messages, |messages| - c);
    }
  }

  lemma NothingCut(messages: seq<Message>)
    requires messages != []
    ensures !CutsACall(messages, CutOf(messages, 0))
  {
  }

  predicate DistinctCalls(messages: seq<Message>) {
    forall i, j :: 0 <= i < j < |messages| ==> Openers(messages[i]) !! Openers(messages[j])
  }

  // Ids that are used for one message's call only are never cut apart.
  lemma DistinctCallsKeepOrder(messages: seq<Message>, max: nat)
    requires Ordered(messages) && DistinctCalls(messages)
    ensures Ordered(TrimHistory(messages, max))
  {
    hide Openers, OpenerIds, Closers, CloserIds, TrimHistory, Ordered;
    OrderKeptExactly(messages);
    if CutsBetween(messages) {
      var c :| 1 <= c <= |messages| - 1 && Paired(messages[1..][c..]) && CutsACall(messages, c);
      var j, id :| c <= j < |messages| - 1 && CutsCallOf(messages, c, j, id);
      CalledTwice(messages, c, j, id);
    }
  }

  lemma CalledTwice(messages: seq<Message>, c: nat, j: nat, id: string)
    requires messages != [] && c <= j < |messages| - 1 && Paired(messages[1..][c..])
    requires CutsCallOf(messages, c, j, id)
    ensures !DistinctCalls(messages)
  {
    hide Openers, OpenerIds, Closers, CloserIds;
    var rest := messages[1..];
    assert rest[c..][j - c] == rest[j];
    CloserAmong(rest[c..], j - c);
    OpenerAt(rest[c..], id);
    var q :| 0 <= q < |rest[c..]| && id in Openers(rest[c..][q]);
    var p := LatestCall(rest[..j], id).value;
    assert messages[1 + p] == rest[..j][p] && messages[1 + c + q] == rest[c..][q];
    assert id in Openers(messages[1 + p]) && id in Openers(messages[1 + c + q]);
  }

  lemma CloserAmong(messages: seq<Message>, i: nat)
    requires i < |messages|
    ensures Closers(messages[i]) <= CloserIds(messages)
  {
  }

  // The history that shows the condition is needed: x is called, answered and
  // called again, and the cut falls between the call and the answer.
  lemma ReusedIdLosesOrder(x: string)
    ensures var system, call, answer := Request([Words("system")]), Response([ToolCall(x)]), Request([ToolReturn(x)]);
            var history := [system, call, answer, call];
            && Ordered(history)
            && TrimHistory(history, 3) == [system, answer, call]
            && !Ordered(TrimHistory(history, 3))
  {
    var system, call, answer := Request([Words("system")]), Response([ToolCall(x)]), Request([ToolReturn(x)]);
    var history, kept := [system, call, answer, call], [system, answer, call];
    assert ToolCall(x) in call.parts && ToolReturn(x) in answer.parts;
    assert Openers(call) == {x} && Openers(system) == {};
    assert Closers(answer) == {x} && Closers(system) == {} && Closers(call) == {};
    hide Openers, Closers;
    FourthOrdered(system, call, answer, x);
    CutFallsBetween(system, call, answer, x);
    WithPartsIdle(kept);
    assert kept[..1] == [system];
    OpenersOne(system);
    assert x in Closers(kept[1]) && x !in OpenerIds(kept[..1]);
  }

  lemma FourthOrdered(system: Message, call: Message, answer: Message, x: string)
    requires Closers(system) == {} && Closers(call) == {} && Closers(answer) == {x} && x in Openers(call)
    ensures Ordered([system, call, answer, call])
  {
    assert Ordered([]);
    assert call in [system, call] && x in OpenerIds([system, call]);
    hide Openers, Closers, OpenerIds, Ordered;
    OrderedPush([], system);
    OrderedPush([system], call);
    OrderedPush([system, call], answer);
    OrderedPush([system, call, answer], call);
    assert [] + [system] == [system] && [system] + [call] == [system, call];
    assert [system, call] + [answer] == [system, call, answer];
    assert [system, call, answer] + [call] == [system, call, answer, call];
  }

  lemma CutFallsBetween(system: Message, call: Message, answer: Message, x: string)
    requires Closers(call) == {} && Closers(answer) == {x} && x in Openers(call)
    ensures Kept([system, call, answer, call], 3) == [system, answer, call]
  {
    hide Openers, Closers;
    var history := [system, call, answer, call];
    var rest := history[1..];
    assert rest == [call, answer, call] && rest[1..] == [answer, call];
    assert call in rest[1..];
    assert CloserIds(rest[1..]) == {x};
    assert CutOf(history, 3) == 1;
  }
}

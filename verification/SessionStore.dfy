// The in-memory session store: histories in an insertion-ordered dictionary,
// bounded by a time to live and by evicting the least recently used. Nothing
// is awaited inside a locked stretch, so each operation is one step.
module SessionStore {
  import opened Prelude
  import opened Trim

  datatype Config = Config(
    maxMessages: nat,
    ttl: real,
    maxSessions: nat,
    compactor: Option<seq<Message> -> seq<Message>>)

  // `order` is the order in which the stored sessions were first saved.
  datatype State = State(
    order: seq<string>,
    history: map<string, seq<Message>>,
    access: map<string, real>,
    locks: set<string>)

  datatype Reply<T> = Ok(value: T) | ValueError

  /******* Session ids *******/

  const MAX_SESSION_ID_LENGTH := 256

  predicate AllowedChar(c: char) {
    'a' <= c <= 'z' || 'A' <= c <= 'Z' || '0' <= c <= '9' || c == '_' || c == '.' || c == '-'
  }

  predicate Allowed(s: string) {
    s != "" && forall c :: c in s ==> AllowedChar(c)
  }

  // Where `$` matches: at the end of the text and just before a newline there.
  predicate DollarAt(s: string, k: nat)
    requires k <= |s|
  {
    k == |s| || (k == |s| - 1 && s[k] == '\n')
  }

  // One or more allowed characters from the start up to where `$` matches.
  predicate MatchesPattern(s: string) {
    exists k :: 1 <= k <= |s| && Allowed(s[..k]) && DollarAt(s, k)
  }

  predicate ValidId(s: string) {
    0 < |s| <= MAX_SESSION_ID_LENGTH && MatchesPattern(s)
  }

  // What the store says it accepts.
  predicate DocumentedId(s: string) {
    0 < |s| <= 256 && Allowed(s)
  }

  // The check accepts exactly what it says it accepts, except for an id with
  // one newline at its end.
  lemma IdCheckExactly(s: string)
    ensures ValidId(s) == DocumentedId(s) <==>
            !(1 < |s| <= 256 && s[|s| - 1] == '\n' && Allowed(s[..|s| - 1]))
    ensures ValidId("a\n") && !DocumentedId("a\n")
  {
    assert s[..|s|] == s;
    assert forall k :: 1 <= k <= |s| && DollarAt(s, k) ==> k == |s| || k == |s| - 1;
    if s != "" && s[|s| - 1] == '\n' {
      assert s[|s| - 1] in s && !AllowedChar('\n');
      assert |s| > 1 ==> DollarAt(s, |s| - 1);
    }
    if Allowed(s) {
      assert DollarAt(s, |s|);
    }
    NewlineAccepted("a\n");
  }

  lemma NewlineAccepted(s: string)
    requires s == "a\n"
    ensures ValidId(s) && !DocumentedId(s)
  {
    assert Allowed(s[..1]) && DollarAt(s, 1);
    assert s[1] in s && !AllowedChar('\n');
  }

  // The characters of an id, one by one.
  lemma AllowedExactly(c: char)
    ensures AllowedChar(c) <==>
            c in "abcdefghijklmnopqrstuvwxyz" || c in "ABCDEFGHIJKLMNOPQRSTUVWXYZ" || c in "0123456789" || c in "_.-"
  {
    Ranges(c);
  }

  // Every uuid, in either case, is an id.
  lemma UuidAccepted(s: string)
    requires |s| == 36
    requires forall c :: c in s ==> c == '-' || '0' <= c <= '9' || 'a' <= c <= 'f' || 'A' <= c <= 'F'
    ensures ValidId(s)
  {
    assert s[..36] == s && DollarAt(s, 36);
  }

  /******* What each operation does *******/

  function Prepared(cfg: Config, messages: seq<Message>): seq<Message> {
    TrimHistory(if cfg.compactor.Some? then cfg.compactor.value(messages) else messages, cfg.maxMessages)
  }

  function Touch(s: State, now: real, id: string): State {
    s.(access := s.access[id := now], locks := s.locks + {id})
  }

  function Put(s: State, id: string, messages: seq<Message>): State {
    s.(order := if id in s.order then s.order else s.order + [id], history := s.history[id := messages])
  }

  function Without(order: seq<string>, ids: set<string>): seq<string> {
    if order == [] then []
    else Without(order[..|order| - 1], ids) +
         if order[|order| - 1] in ids then [] else [order[|order| - 1]]
  }

  function Drop(s: State, ids: set<string>): State {
    State(Without(s.order, ids), s.history - ids, s.access - ids, s.locks - ids)
  }

  function AccessOf(access: map<string, real>, id: string): real {
    if id in access then access[id] else 0.0
  }

  // The first of the stored sessions with the oldest access.
  function Oldest(order: seq<string>, access: map<string, real>): (id: string)
    requires order != []
    ensures id in order
    ensures forall k :: k in order ==> AccessOf(access, id) <= AccessOf(access, k)
  {
    if |order| == 1 then order[0]
    else
      var best, last := Oldest(order[..|order| - 1], access), order[|order| - 1];
      assert order == order[..|order| - 1] + [last];
      if AccessOf(access, last) < AccessOf(access, best) then last else best
  }

  function Evict(cfg: Config, s: State): State {
    if |s.order| > cfg.maxSessions && s.order != [] then Drop(s, {Oldest(s.order, s.access)}) else s
  }

  function Save(cfg: Config, s: State, now: real, id: string, messages: seq<Message>): State {
    if ValidId(id) then Evict(cfg, Put(Touch(s, now, id), id, Prepared(cfg, messages))) else s
  }

  function Get(s: State, now: real, id: string): State {
    if ValidId(id) then Touch(s, now, id) else s
  }

  function Reading(s: State, id: string): seq<Message> {
    if id in s.history then s.history[id] else []
  }

  function Clear(s: State, id: string): State {
    if ValidId(id) then Drop(s, {id}) else s
  }

  function Expired(cfg: Config, s: State, now: real): set<string> {
    set id | id in s.access && now - s.access[id] > cfg.ttl
  }

  function Cleanup(cfg: Config, s: State, now: real): State {
    Drop(s, Expired(cfg, s, now))
  }

  lemma {:induction false} WithoutMembers(order: seq<string>, ids: set<string>, id: string)
    ensures id in Without(order, ids) <==> id in order && id !in ids
  {
    if order != [] {
      WithoutMembers(order[..|order| - 1], ids, id);
      assert order == order[..|order| - 1] + [order[|order| - 1]];
    }
  }

  lemma {:induction false} WithoutTwice(order: seq<string>, a: set<string>, b: set<string>)
    ensures Without(Without(order, a), b) == Without(order, a + b)
  {
    if order != [] {
      var prefix, last := order[..|order| - 1], order[|order| - 1];
      WithoutTwice(prefix, a, b);
      var kept := Without(prefix, a);
      if last !in a {
        assert Without(order, a)[..|kept|] == kept;
      } else {
        assert Without(order, a) == kept;
      }
    }
  }

  lemma DropTwice(s: State, a: set<string>, b: set<string>)
    ensures Drop(Drop(s, a), b) == Drop(s, a + b)
  {
    WithoutTwice(s.order, a, b);
    assert s.history - a - b == s.history - (a + b);
    assert s.access - a - b == s.access - (a + b);
    assert s.locks - a - b == s.locks - (a + b);
  }

  lemma {:induction false} WithoutNothing(order: seq<string>)
    ensures Without(order, {}) == order
  {
    if order != [] {
      WithoutNothing(order[..|order| - 1]);
      assert order == order[..|order| - 1] + [order[|order| - 1]];
    }
  }

  lemma DropNothing(s: State)
    ensures Drop(s, {}) == s
  {
    WithoutNothing(s.order);
    assert s.history - {} == s.history && s.access - {} == s.access && s.locks - {} == s.locks;
  }

  /******* The store *******/

  class InMemorySessionStore {
    const cfg: Config
    var order: seq<string>
    var history: map<string, seq<Message>>
    var access: map<string, real>
    var locks: set<string>

    function View(): State
      reads this
    {
      State(order, history, access, locks)
    }

    constructor (cfg: Config)
      ensures this.cfg == cfg && View() == State([], map[], map[], {})
    {
      this.cfg := cfg;
      order, history, access, locks := [], map[], map[], {};
    }

    method GetHistory(id: string, now: real) returns (reply: Reply<seq<Message>>)
      modifies this
      ensures View() == Get(old(View()), now, id)
      ensures reply == if ValidId(id) then Ok(Reading(old(View()), id)) else ValueError
    {
      if !ValidId(id) {
        return ValueError;
      }
      locks := locks + {id};
      access := access[id := now];
      return Ok(if id in history then history[id] else []);
    }

    // `min` over the stored ids, in their order.
    method FindOldest() returns (id: string)
      requires order != []
      ensures id == Oldest(order, access)
    {
      id := order[0];
      var i := 1;
      assert order[..1] == [order[0]];
      while i < |order|
        invariant 1 <= i <= |order|
        invariant id == Oldest(order[..i], access)
      {
        assert order[..i + 1][..i] == order[..i];
        if AccessOf(access, order[i]) < AccessOf(access, id) {
          id := order[i];
        }
        i := i + 1;
      }
      assert order[..|order|] == order;
    }

    method Pop(id: string)
      modifies this
      ensures View() == Drop(old(View()), {id})
    {
      order := Without(order, {id});
      history := history - {id};
      access := access - {id};
      locks := locks - {id};
    }

    // Under the session's lock.
    method StoreTrimmed(id: string, trimmed: seq<Message>, now: real)
      modifies this
      ensures View() == Put(Touch(old(View()), now, id), id, trimmed)
    {
      locks := locks + {id};
      access := access[id := now];
      if id !in order {
        order := order + [id];
      }
      history := history[id := trimmed];
    }

    method EvictIfFull()
      modifies this
      ensures View() == Evict(cfg, old(View()))
    {
      if |order| > cfg.maxSessions && order != [] {
        var victim := FindOldest();
        hide Oldest, Drop;
        Pop(victim);
      }
    }

    method SaveHistory(id: string, messages: seq<Message>, now: real) returns (reply: Reply<()>)
      modifies this
      ensures View() == Save(cfg, old(View()), now, id, messages)
      ensures reply == if ValidId(id) then Ok(()) else ValueError
    {
      hide ValidId, TrimHistory, Evict, Put, Touch;
      if !ValidId(id) {
        return ValueError;
      }
      var input := if cfg.compactor.Some? then cfg.compactor.value(messages) else messages;
      var trimmed := Trimmed(input, cfg.maxMessages);
      StoreTrimmed(id, trimmed, now);
      EvictIfFull();
      return Ok(());
    }

    method ClearSession(id: string) returns (reply: Reply<()>)
      modifies this
      ensures View() == Clear(old(View()), id)
      ensures reply == if ValidId(id) then Ok(()) else ValueError
    {
      if !ValidId(id) {
        return ValueError;
      }
      Pop(id);
      return Ok(());
    }

    method FindExpired(now: real) returns (expired: set<string>)
      ensures expired == Expired(cfg, View(), now)
    {
      expired := {};
      var left := access.Keys;
      while left != {}
        invariant left <= access.Keys
        invariant expired == set id | id in access && id !in left && now - access[id] > cfg.ttl
        decreases |left|
      {
        var id :| id in left;
        left := left - {id};
        if now - access[id] > cfg.ttl {
          expired := expired + {id};
        }
      }
    }

    method CleanupExpiredSessions(now: real) returns (removed: nat)
      requires forall id :: id in access ==> ValidId(id)
      modifies this
      ensures View() == Cleanup(cfg, old(View()), now)
      ensures removed == |Expired(cfg, old(View()), now)|
    {
      hide ValidId, Drop;
      var left := FindExpired(now);
      removed := |left|;
      ghost var expired := left;
      assert forall id :: id in expired ==> ValidId(id);
      DropNothing(View());
      ghost var done: set<string> := {};
      while left != {}
        invariant done + left == expired && done !! left
        invariant View() == Drop(old(View()), done)
        decreases |left|
      {
        var id :| id in left;
        left := left - {id};
        var _ := ClearSession(id);
        DropTwice(old(View()), done, {id});
        done := done + {id};
      }
      assert done == expired;
    }
  }

  /******* Any sequence of operations *******/

  datatype Action =
    | Passes(time: real)
    | Gets(id: string)
    | Saves(id: string, messages: seq<Message>)
    | Clears(id: string)
    | Sweeps

  datatype World = World(state: State, clock: real)

  // The clock never goes back.
  function Apply(cfg: Config, w: World, a: Action): World {
    match a
    case Passes(time) => w.(clock := if time < 0.0 then w.clock else w.clock + time)
    case Gets(id) => w.(state := Get(w.state, w.clock, id))
    case Saves(id, messages) => w.(state := Save(cfg, w.state, w.clock, id, messages))
    case Clears(id) => w.(state := Clear(w.state, id))
    case Sweeps => w.(state := Cleanup(cfg, w.state, w.clock))
  }

  function Run(cfg: Config, actions: seq<Action>): World {
    if actions == [] then World(State([], map[], map[], {}), 0.0)
    else Apply(cfg, Run(cfg, actions[..|actions| - 1]), actions[|actions| - 1])
  }

  // Every stored id has an access time and a lock, and locks are kept for exactly
  // the ids with an access time.
  ghost predicate Shape(s: State, clock: real) {
    && Distinct(s.order)
    && (forall id :: id in s.order <==> id in s.history)
    && (forall id :: id in s.history ==> id in s.access)
    && (forall id :: id in s.locks <==> id in s.access)
    && (forall id :: id in s.access ==> ValidId(id) && s.access[id] <= clock)
  }

  // Between operations the store is also within its size.
  ghost predicate Sound(cfg: Config, w: World) {
    Shape(w.state, w.clock) && |w.state.order| <= cfg.maxSessions
  }

  lemma {:induction false} WithoutDistinct(order: seq<string>, ids: set<string>)
    requires Distinct(order)
    ensures Distinct(Without(order, ids)) && |Without(order, ids)| <= |order|
    ensures (exists id :: id in order && id in ids) ==> |Without(order, ids)| < |order|
  {
    if order != [] {
      var prefix, last := order[..|order| - 1], order[|order| - 1];
      WithoutDistinct(prefix, ids);
      WithoutMembers(prefix, ids, last);
      assert order == prefix + [last];
      assert forall i :: 0 <= i < |prefix| ==> prefix[i] == order[i] != last;
    }
  }

  lemma DropShape(s: State, clock: real, ids: set<string>)
    requires Shape(s, clock)
    ensures Shape(Drop(s, ids), clock) && |Drop(s, ids).order| <= |s.order|
    ensures forall id :: id in Drop(s, ids).history <==> id in s.history && id !in ids
    ensures forall id :: id in s.history && id !in ids ==> Drop(s, ids).history[id] == s.history[id]
    ensures (exists id :: id in s.order && id in ids) ==> |Drop(s, ids).order| < |s.order|
  {
    WithoutDistinct(s.order, ids);
    forall id
      ensures id in Without(s.order, ids) <==> id in s.order && id !in ids
    {
      WithoutMembers(s.order, ids, id);
    }
  }

  lemma PutShape(s: State, clock: real, id: string, messages: seq<Message>)
    requires Shape(s, clock) && ValidId(id)
    ensures var t := Put(Touch(s, clock, id), id, messages);
            && Shape(t, clock)
            && |t.order| == |s.order| + (if id in s.history then 0 else 1)
            && (id !in s.history ==> t.order == s.order + [id])
            && (forall k :: k in t.history <==> k in s.history || k == id)
  {
    hide ValidId;
  }

  // `victim` goes: none of the stored sessions was used less recently.
  ghost predicate LeastRecent(s: State, victim: string) {
    && victim in s.history && victim in s.access
    && forall k :: k in s.history && k in s.access ==> s.access[victim] <= s.access[k]
  }

  // With the newest session last and stamped now, the first oldest is another.
  lemma {:induction false} OldestIsOlder(order: seq<string>, access: map<string, real>)
    requires |order| >= 2
    requires forall k :: k in order ==> AccessOf(access, k) <= AccessOf(access, order[|order| - 1])
    requires Distinct(order)
    ensures Oldest(order, access) != order[|order| - 1]
  {
    var best, last := Oldest(order[..|order| - 1], access), order[|order| - 1];
    var i :| 0 <= i < |order| - 1 && order[..|order| - 1][i] == best;
    assert order[i] == best && best in order;
  }

  // A save stores the session. It evicts exactly when the id is new and the
  // store was full, and then one session, which was saved before, was a least
  // recently used one, and is not the one just saved.
  lemma SaveEvicts(cfg: Config, w: World, id: string, messages: seq<Message>)
    requires Sound(cfg, w) && ValidId(id) && cfg.maxSessions >= 1
    ensures var s, t := w.state, Save(cfg, w.state, w.clock, id, messages);
            && Sound(cfg, World(t, w.clock))
            && id in t.history && t.history[id] == Prepared(cfg, messages)
            && if id in s.history || |s.order| < cfg.maxSessions
               then t.history.Keys == s.history.Keys + {id}
                    && (forall k :: k in s.history && k != id ==> t.history[k] == s.history[k])
               else exists victim :: LeastRecent(s, victim) && victim != id && Evicted(s, t, id, victim)
  {
    hide ValidId, Prepared, Save, Put, Touch;
    var s := w.state;
    if id in s.history || |s.order| < cfg.maxSessions {
      SaveInRoom(cfg, w, id, messages);
    } else {
      SaveWhenFull(cfg, w, id, messages);
    }
  }

  lemma SaveInRoom(cfg: Config, w: World, id: string, messages: seq<Message>)
    requires Sound(cfg, w) && ValidId(id) && cfg.maxSessions >= 1
    requires id in w.state.history || |w.state.order| < cfg.maxSessions
    ensures var s, t := w.state, Save(cfg, w.state, w.clock, id, messages);
            && Sound(cfg, World(t, w.clock))
            && id in t.history && t.history[id] == Prepared(cfg, messages)
            && t.history.Keys == s.history.Keys + {id}
            && (forall k :: k in s.history && k != id ==> t.history[k] == s.history[k])
  {
    hide ValidId, Prepared, Drop, Put, Touch;
    var s, kept := w.state, Prepared(cfg, messages);
    PutShape(s, w.clock, id, kept);
    PutFinds(s, w.clock, id, kept);
    assert Put(Touch(s, w.clock, id), id, kept).history.Keys == s.history.Keys + {id};
  }

  lemma SaveWhenFull(cfg: Config, w: World, id: string, messages: seq<Message>)
    requires Sound(cfg, w) && ValidId(id) && cfg.maxSessions >= 1
    requires !(id in w.state.history || |w.state.order| < cfg.maxSessions)
    ensures var s, t := w.state, Save(cfg, w.state, w.clock, id, messages);
            && Sound(cfg, World(t, w.clock))
            && id in t.history && t.history[id] == Prepared(cfg, messages)
            && exists victim :: LeastRecent(s, victim) && victim != id && Evicted(s, t, id, victim)
  {
    hide ValidId, Prepared, Shape, Save, Drop, Put, Touch, Oldest, LeastRecent, Evicted;
    var s, kept := w.state, Prepared(cfg, messages);
    var put := Put(Touch(s, w.clock, id), id, kept);
    PutShape(s, w.clock, id, kept);
    PutFinds(s, w.clock, id, kept);
    var victim := Oldest(put.order, put.access);
    OldestGoes(s, put, w.clock, id, victim);
    DropShape(put, w.clock, {victim});
    SaveDrops(cfg, s, w.clock, id, messages);
  }

  lemma SaveDrops(cfg: Config, s: State, now: real, id: string, messages: seq<Message>)
    requires ValidId(id) && |Put(Touch(s, now, id), id, Prepared(cfg, messages)).order| > cfg.maxSessions
    ensures var put := Put(Touch(s, now, id), id, Prepared(cfg, messages));
            put.order != [] && Save(cfg, s, now, id, messages) == Drop(put, {Oldest(put.order, put.access)})
  {
    hide ValidId, Prepared, Drop, Put, Touch, Oldest;
  }

  lemma PutFinds(s: State, now: real, id: string, messages: seq<Message>)
    ensures var t := Put(Touch(s, now, id), id, messages);
            && id in t.history && t.history[id] == messages
            && id in t.access && t.access[id] == now
            && (forall k :: k in s.history && k != id ==> k in t.history && t.history[k] == s.history[k])
            && (forall k :: k in s.access && k != id ==> k in t.access && t.access[k] == s.access[k])
  {
  }

  // After a new session was put in a full store.
  lemma OldestGoes(s: State, put: State, clock: real, id: string, victim: string)
    requires Shape(s, clock) && Shape(put, clock) && s.order != [] && id !in s.history
    requires put.order == s.order + [id] && victim == Oldest(put.order, put.access)
    requires forall k :: k in put.history <==> k in s.history || k == id
    requires id in put.access && put.access[id] == clock
    requires forall k :: k in s.history ==> k in put.history && put.history[k] == s.history[k]
    requires forall k :: k in s.access && k != id ==> k in put.access && put.access[k] == s.access[k]
    ensures victim != id && LeastRecent(s, victim)
    ensures Evicted(s, Drop(put, {victim}), id, victim)
  {
    hide ValidId;
    assert put.order[|put.order| - 1] == id;
    assert forall k :: k in put.order ==> AccessOf(put.access, k) <= clock;
    OldestIsOlder(put.order, put.access);
    hide Oldest;
    assert forall k :: k in s.history ==> k in put.order && AccessOf(put.access, k) == s.access[k];
    assert put.history.Keys == s.history.Keys + {id};
  }

  ghost predicate Evicted(s: State, t: State, id: string, victim: string) {
    && t.history.Keys == s.history.Keys + {id} - {victim}
    && victim !in t.access && victim !in t.locks
    && forall k :: k in s.history && k != id && k != victim ==> k in t.history && t.history[k] == s.history[k]
  }

  // With no room for any session a save keeps nothing.
  lemma SaveWithoutRoom(cfg: Config, w: World, id: string, messages: seq<Message>)
    requires Sound(cfg, w) && ValidId(id) && cfg.maxSessions == 0
    ensures Sound(cfg, World(Save(cfg, w.state, w.clock, id, messages), w.clock))
    ensures Save(cfg, w.state, w.clock, id, messages).history == map[]
  {
    hide ValidId, Prepared, Drop;
    var kept := Prepared(cfg, messages);
    var put := Put(Touch(w.state, w.clock, id), id, kept);
    PutShape(w.state, w.clock, id, kept);
    assert put.order == [id] && Oldest(put.order, put.access) == id;
    DropShape(put, w.clock, {id});
  }

  lemma StepSound(cfg: Config, w: World, a: Action)
    requires Sound(cfg, w)
    ensures Sound(cfg, Apply(cfg, w, a))
  {
    hide ValidId, Save, Drop;
    match a
    case Saves(id, messages) =>
      if !ValidId(id) {
        SaveRefused(cfg, w.state, w.clock, id, messages);
      } else if cfg.maxSessions == 0 {
        SaveWithoutRoom(cfg, w, id, messages);
      } else {
        SaveEvicts(cfg, w, id, messages);
      }
    case Clears(id) => DropShape(w.state, w.clock, {id});
    case Sweeps => DropShape(w.state, w.clock, Expired(cfg, w.state, w.clock));
    case _ =>
  }

  lemma SaveRefused(cfg: Config, s: State, now: real, id: string, messages: seq<Message>)
    requires !ValidId(id)
    ensures Save(cfg, s, now, id, messages) == s
  {
  }

  lemma {:induction false} AlwaysSound(cfg: Config, actions: seq<Action>)
    ensures Sound(cfg, Run(cfg, actions))
  {
    if actions != [] {
      AlwaysSound(cfg, actions[..|actions| - 1]);
      StepSound(cfg, Run(cfg, actions[..|actions| - 1]), actions[|actions| - 1]);
    }
  }

  // A sweep leaves exactly the ids that are not expired, stored or not, and what
  // it leaves it does not touch.
  lemma SweepExactly(cfg: Config, actions: seq<Action>, id: string)
    ensures var w, after := Run(cfg, actions), Run(cfg, actions + [Sweeps]).state;
            var lives := id in w.state.access && w.clock - w.state.access[id] <= cfg.ttl;
            && (id in after.access <==> lives)
            && (id in after.locks <==> lives)
            && (id in after.history <==> lives && id in w.state.history)
            && (id in after.order <==> lives && id in w.state.history)
            && (lives ==> after.access[id] == w.state.access[id])
            && (lives && id in w.state.history ==> after.history[id] == w.state.history[id])
  {
    assert (actions + [Sweeps])[..|actions|] == actions;
    AlwaysSound(cfg, actions);
    var w := Run(cfg, actions);
    WithoutMembers(w.state.order, Expired(cfg, w.state, w.clock), id);
  }

  /******* What a get returns *******/

  // Who a save of `id` evicts.
  function Victim(cfg: Config, s: State, now: real, id: string): Option<string> {
    var t := Put(Touch(s, now, id), id, []);
    if |t.order| > cfg.maxSessions then Some(Oldest(t.order, t.access)) else None
  }

  // The last moment `id` was read or saved, if it was not dropped since.
  function LastTouch(cfg: Config, actions: seq<Action>, id: string): Option<real> {
    if actions == [] then None
    else
      var before, a := actions[..|actions| - 1], actions[|actions| - 1];
      var w, touched := Run(cfg, before), LastTouch(cfg, before, id);
      match a
      case Passes(_) => touched
      case Gets(i) => if ValidId(i) && i == id then Some(w.clock) else touched
      case Saves(i, _) =>
        if !ValidId(i) then touched
        else if Victim(cfg, w.state, w.clock, i) == Some(id) then None
        else if i == id then Some(w.clock) else touched
      case Clears(i) => if ValidId(i) && i == id then None else touched
      case Sweeps => if touched.Some? && w.clock - touched.value > cfg.ttl then None else touched
  }

  // The last history saved under `id`, as it was trimmed, if it was not cleared,
  // expired or evicted since.
  function LastSave(cfg: Config, actions: seq<Action>, id: string): Option<seq<Message>> {
    if actions == [] then None
    else
      var before, a := actions[..|actions| - 1], actions[|actions| - 1];
      var w, saved := Run(cfg, before), LastSave(cfg, before, id);
      match a
      case Passes(_) => saved
      case Gets(_) => saved
      case Saves(i, messages) =>
        if !ValidId(i) then saved
        else if Victim(cfg, w.state, w.clock, i) == Some(id) then None
        else if i == id then Some(Prepared(cfg, messages)) else saved
      case Clears(i) => if ValidId(i) && i == id then None else saved
      case Sweeps =>
        var touched := LastTouch(cfg, before, id);
        if touched.Some? && w.clock - touched.value > cfg.ttl then None else saved
  }

  function Find<V>(m: map<string, V>, id: string): Option<V> {
    if id in m then Some(m[id]) else None
  }

  lemma SaveFinds(cfg: Config, s: State, now: real, id: string, messages: seq<Message>, k: string)
    requires ValidId(id)
    ensures var t := Save(cfg, s, now, id, messages);
            if Victim(cfg, s, now, id) == Some(k) then Find(t.history, k).None? && Find(t.access, k).None?
            else if k == id then Find(t.history, k) == Some(Prepared(cfg, messages)) && Find(t.access, k) == Some(now)
            else Find(t.history, k) == Find(s.history, k) && Find(t.access, k) == Find(s.access, k)
  {
    hide ValidId, Prepared, Oldest, Without;
  }

  lemma {:induction false} FindsLast(cfg: Config, actions: seq<Action>, id: string)
    ensures Find(Run(cfg, actions).state.access, id) == LastTouch(cfg, actions, id)
    ensures Find(Run(cfg, actions).state.history, id) == LastSave(cfg, actions, id)
  {
    if actions != [] {
      hide ValidId, Save, Victim, Without;
      var before, a := actions[..|actions| - 1], actions[|actions| - 1];
      var w := Run(cfg, before);
      FindsLast(cfg, before, id);
      AlwaysSound(cfg, before);
      if a.Saves? {
        if ValidId(a.id) {
          SaveFinds(cfg, w.state, w.clock, a.id, a.messages, id);
        } else {
          SaveRefused(cfg, w.state, w.clock, a.id, a.messages);
        }
      }
    }
  }

  // Over any sequence of operations, a read returns the last saved history, as
  // it was trimmed, unless it was cleared, expired or evicted since; reading
  // changes nothing but the access time.
  lemma GetReturnsLastSave(cfg: Config, actions: seq<Action>, id: string)
    ensures var w := Run(cfg, actions);
            && Reading(w.state, id) == (match LastSave(cfg, actions, id) case Some(h) => h case None => [])
            && Get(w.state, w.clock, id).history == w.state.history
            && Get(w.state, w.clock, id).order == w.state.order
  {
    FindsLast(cfg, actions, id);
  }

  /******* What is stored *******/

  // A save keeps of the history, compacted first if there is a compactor, at most
  // `maxMessages` messages, none empty; all of them if they fit, and otherwise the
  // first and the longest tail from the ideal cut that answers no missing call.
  lemma PreparedExactly(cfg: Config, messages: seq<Message>, j: nat)
    ensures var input := if cfg.compactor.Some? then cfg.compactor.value(messages) else messages;
            var kept := Prepared(cfg, messages);
            && (cfg.maxMessages >= 1 ==> |kept| <= cfg.maxMessages)
            && (forall m :: m in kept ==> m.parts != [] && m in input)
            && (|input| <= cfg.maxMessages ==> forall m :: m in kept <==> m in input && m.parts != [])
            && (|input| > cfg.maxMessages >= 1 ==>
                  var k := CutOf(input, cfg.maxMessages);
                  && |input| - cfg.maxMessages <= k <= |input| - 1
                  && kept == WithParts([input[0]] + input[1 + k..])
                  && Answers(input[1 + k..])
                  && (|input| - cfg.maxMessages <= j < k ==> !Answers(input[1 + j..])))
  {
    var input := if cfg.compactor.Some? then cfg.compactor.value(messages) else messages;
    TrimBounds(input, cfg.maxMessages);
    if |input| <= cfg.maxMessages {
      RoomForAll(input, cfg.maxMessages);
    } else if cfg.maxMessages >= 1 {
      TailIsLongest(input, cfg.maxMessages, j);
    }
  }

  // Every stored history was saved, by a save of its own session.
  lemma {:induction false} StoredWasSaved(cfg: Config, actions: seq<Action>, id: string)
    requires id in Run(cfg, actions).state.history
    ensures exists i, messages :: 0 <= i < |actions| && actions[i] == Saves(id, messages)
                                  && Run(cfg, actions).state.history[id] == Prepared(cfg, messages)
    ensures cfg.maxMessages >= 1 ==> |Run(cfg, actions).state.history[id]| <= cfg.maxMessages
  {
    FindsLast(cfg, actions, id);
    var messages := LastSaved(cfg, actions, id);
    PreparedExactly(cfg, messages, 0);
  }

  lemma {:induction false} LastSaved(cfg: Config, actions: seq<Action>, id: string) returns (messages: seq<Message>)
    requires LastSave(cfg, actions, id).Some?
    ensures LastSave(cfg, actions, id) == Some(Prepared(cfg, messages))
    ensures exists i :: 0 <= i < |actions| && actions[i] == Saves(id, messages)
  {
    hide Victim, LastTouch, Prepared, ValidId;
    var before, a := actions[..|actions| - 1], actions[|actions| - 1];
    if a.Saves? && a.id == id && LastSave(cfg, actions, id) == Some(Prepared(cfg, a.messages)) {
      messages := a.messages;
      assert actions[|actions| - 1] == Saves(id, messages);
    } else {
      messages := LastSaved(cfg, before, id);
      var i :| 0 <= i < |before| && before[i] == Saves(id, messages);
      assert actions[i] == before[i];
    }
  }
}

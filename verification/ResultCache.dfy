// The result cache in front of the RAG workflow: a TTL + LRU ordered map, a
// table of in-flight futures, and the two stretches of code that touch them.
// Neither stretch awaits anything while it holds the lock, so each is one step.
module ResultCache {
  // What the cache key is derived from: the query, the retry limit and the
  // store's content version.
  datatype CacheKey = CacheKey(query: string, maxRetries: int, generation: nat)

  // A workflow result, tagged with the request whose own run computed it.
  datatype Answer = Answer(run: nat, text: string)

  datatype Failure = WorkflowError | WrongType | Timeout | Cancellation

  datatype FutureState = Unresolved | Value(answer: Answer) | Raised(failure: Failure)

  datatype Entry = Entry(key: CacheKey, answer: Answer, storedAt: real)

  // `entries` lists the ordered map from least to most recently used.
  datatype CacheState = CacheState(
    entries: seq<Entry>,
    pending: map<CacheKey, nat>,
    futures: seq<FutureState>,
    hits: nat,
    misses: nat)

  // What a request does after its lookup.
  datatype Decision =
    | Bypass
    | Hit(answer: Answer)
    | Follow(future: nat)
    | Lead(future: nat)

  // How the wrapped workflow run ends.
  datatype RunOutcome = Succeeded(answer: Answer) | NotADict | Failed | RunCancelled

  // What `run` hands back to its caller; without caching nobody checks that the
  // workflow's result is a dictionary.
  datatype Reply = Got(answer: Answer) | Unchecked | Raises(failure: Failure)

  /******* The ordered map *******/

  predicate Has(entries: seq<Entry>, key: CacheKey) {
    exists i :: 0 <= i < |entries| && entries[i].key == key
  }

  function IndexOf(entries: seq<Entry>, key: CacheKey): (i: nat)
    requires Has(entries, key)
    ensures i < |entries| && entries[i].key == key
    ensures forall j :: 0 <= j < i ==> entries[j].key != key
  {
    if entries[0].key == key then 0 else
      assert exists i :: 0 <= i < |entries[1..]| && entries[1..][i].key == key by {
        var i :| 0 <= i < |entries| && entries[i].key == key;
        assert entries[1..][i - 1].key == key;
      }
      var n := IndexOf(entries[1..], key);
      assert forall j :: 0 < j < n + 1 ==> entries[j] == entries[1..][j - 1];
      n + 1
  }

  predicate DistinctKeys(entries: seq<Entry>) {
    forall i, j :: 0 <= i < j < |entries| ==> entries[i].key != entries[j].key
  }

  function Delete(entries: seq<Entry>, key: CacheKey): seq<Entry> {
    if Has(entries, key)
    then entries[..IndexOf(entries, key)] + entries[IndexOf(entries, key) + 1..]
    else entries
  }

  function MoveToEnd(entries: seq<Entry>, key: CacheKey): seq<Entry>
    requires Has(entries, key)
  {
    Delete(entries, key) + [entries[IndexOf(entries, key)]]
  }

  // Assignment keeps the position of a key that is already present.
  function Put(entries: seq<Entry>, entry: Entry): seq<Entry> {
    if Has(entries, entry.key)
    then entries[IndexOf(entries, entry.key) := entry]
    else entries + [entry]
  }

  predicate Expired(entry: Entry, now: real, ttl: real) {
    now - entry.storedAt > ttl
  }

  function Unexpired(entries: seq<Entry>, now: real, ttl: real): seq<Entry> {
    if entries == [] then []
    else if Expired(entries[0], now, ttl) then Unexpired(entries[1..], now, ttl)
    else [entries[0]] + Unexpired(entries[1..], now, ttl)
  }

  function DropOldest(entries: seq<Entry>, size: nat): seq<Entry> {
    if |entries| > size && entries != [] then entries[1..] else entries
  }

  lemma {:induction false} UnexpiredMembers(entries: seq<Entry>, now: real, ttl: real)
    ensures forall e :: e in Unexpired(entries, now, ttl) <==> e in entries && !Expired(e, now, ttl)
  {
    if entries != [] {
      UnexpiredMembers(entries[1..], now, ttl);
      assert entries == [entries[0]] + entries[1..];
    }
  }

  lemma {:induction false} UnexpiredKeys(entries: seq<Entry>, now: real, ttl: real, key: CacheKey)
    ensures Has(Unexpired(entries, now, ttl), key) ==> Has(entries, key)
  {
    UnexpiredMembers(entries, now, ttl);
    var kept := Unexpired(entries, now, ttl);
    if Has(kept, key) {
      assert kept[IndexOf(kept, key)] in entries;
    }
  }

  /******* The two atomic stretches, as functions on the state *******/

  // Under the lock: evict expired entries, then hit, join or lead.
  function Lookup(c: CacheState, key: CacheKey, now: real, ttl: real): (CacheState, Decision) {
    var live := Unexpired(c.entries, now, ttl);
    if Has(live, key) then
      (c.(entries := MoveToEnd(live, key), hits := c.hits + 1), Hit(live[IndexOf(live, key)].answer))
    else if key in c.pending then
      (c.(entries := live, hits := c.hits + 1), Follow(c.pending[key]))
    else
      (c.(entries := live,
          pending := c.pending[key := |c.futures|],
          futures := c.futures + [Unresolved],
          misses := c.misses + 1),
       Lead(|c.futures|))
  }

  // Never overwrites a future that is already done.
  function Resolve(futures: seq<FutureState>, future: nat, state: FutureState): seq<FutureState>
    requires future < |futures|
  {
    if futures[future] == Unresolved then futures[future := state] else futures
  }

  // What the leader does once its workflow run is over.
  function Conclude(c: CacheState, key: CacheKey, future: nat, outcome: RunOutcome, now: real, size: nat)
    : (CacheState, Reply)
    requires future < |c.futures|
  {
    match outcome
    case Succeeded(answer) =>
      (c.(entries := DropOldest(Put(c.entries, Entry(key, answer, now)), size),
          pending := c.pending - {key},
          futures := Resolve(c.futures, future, Value(answer))),
       Got(answer))
    case NotADict => (Abandon(c, key, future, WrongType), Raises(WrongType))
    case Failed => (Abandon(c, key, future, WorkflowError), Raises(WorkflowError))
    case RunCancelled => (Abandon(c, key, future, Timeout), Raises(Cancellation))
  }

  // The pending entry goes only if it is still this leader's own future.
  function Abandon(c: CacheState, key: CacheKey, future: nat, failure: Failure): CacheState
    requires future < |c.futures|
  {
    c.(pending := if key in c.pending && c.pending[key] == future then c.pending - {key} else c.pending,
       futures := Resolve(c.futures, future, Raised(failure)))
  }

  /******* The mixin's own state *******/

  class Cache {
    const ttl: real
    const size: nat
    var entries: seq<Entry>
    var pending: map<CacheKey, nat>
    var futures: seq<FutureState>
    var hits: nat
    var misses: nat

    function State(): CacheState
      reads this
    {
      CacheState(entries, pending, futures, hits, misses)
    }

    constructor (ttl: real, size: nat)
      ensures this.ttl == ttl && this.size == size
      ensures State() == CacheState([], map[], [], 0, 0)
    {
      this.ttl, this.size := ttl, size;
      entries, pending, futures, hits, misses := [], map[], [], 0, 0;
    }

    // Collects the expired keys, then deletes them one by one.
    method EvictExpired(now: real)
      requires DistinctKeys(entries)
      modifies this`entries
      ensures entries == if ttl == 0.0 then old(entries) else Unexpired(old(entries), now, ttl)
    {
      if ttl == 0.0 {
        return;
      }
      var dead: seq<CacheKey> := [];
      var i := 0;
      while i < |entries|
        invariant 0 <= i <= |entries|
        invariant forall k :: k in dead <==>
          exists j :: 0 <= j < i && entries[j].key == k && Expired(entries[j], now, ttl)
      {
        if Expired(entries[i], now, ttl) {
          dead := dead + [entries[i].key];
        }
        i := i + 1;
      }
      ghost var was := entries;
      assert DeadKeys(was, dead, now, ttl) by {
        forall j | 0 <= j < |was|
          ensures was[j].key in dead <==> Expired(was[j], now, ttl)
        {
        }
      }
      var n := 0;
      WithoutNone(was);
      while n < |dead|
        invariant 0 <= n <= |dead|
        invariant DistinctKeys(entries)
        invariant entries == Without(was, dead[..n])
      {
        WithoutOneMore(was, dead[..n], dead[n]);
        assert dead[..n + 1] == dead[..n] + [dead[n]];
        entries := Delete(entries, dead[n]);
        n := n + 1;
      }
      assert dead[..n] == dead;
      WithoutDead(was, dead, now, ttl);
    }

    method EvictLru()
      modifies this`entries
      ensures entries == if old(entries) == [] then [] else old(entries)[1..]
    {
      if entries != [] {
        entries := entries[1..];
      }
    }

    // `run` up to the point where it awaits a future or the workflow.
    method Begin(query: string, maxRetries: int, generation: nat, now: real) returns (decision: Decision)
      requires DistinctKeys(entries)
      modifies this
      ensures ttl == 0.0 ==> State() == old(State()) && decision == Bypass
      ensures ttl != 0.0 ==>
        (State(), decision) == Lookup(old(State()), CacheKey(query, maxRetries, generation), now, ttl)
    {
      if ttl == 0.0 {
        return Bypass;
      }
      var key := CacheKey(query, maxRetries, generation);
      EvictExpired(now);
      if Has(entries, key) {
        decision := Hit(entries[IndexOf(entries, key)].answer);
        entries := MoveToEnd(entries, key);
        hits := hits + 1;
      } else if key in pending {
        decision := Follow(pending[key]);
        hits := hits + 1;
      } else {
        misses := misses + 1;
        var future := |futures|;
        futures := futures + [Unresolved];
        pending := pending[key := future];
        decision := Lead(future);
      }
    }

    // `run` from the moment the leader's workflow run is over.
    method Finish(key: CacheKey, future: nat, outcome: RunOutcome, now: real) returns (reply: Reply)
      requires future < |futures|
      modifies this
      ensures (State(), reply) == Conclude(old(State()), key, future, outcome, now, size)
    {
      if outcome.Succeeded? {
        entries := Put(entries, Entry(key, outcome.answer, now));
        if |entries| > size {
          EvictLru();
        }
        if futures[future] == Unresolved {
          futures := futures[future := Value(outcome.answer)];
        }
        pending := pending - {key};
        return Got(outcome.answer);
      }
      if key in pending && pending[key] == future {
        pending := pending - {key};
      }
      if futures[future] == Unresolved {
        if outcome.RunCancelled? {
          futures := futures[future := Raised(Timeout)];
        } else {
          futures := futures[future := Raised(if outcome.NotADict? then WrongType else WorkflowError)];
        }
      }
      reply := Raises(match outcome
                      case NotADict => WrongType
                      case Failed => WorkflowError
                      case _ => Cancellation);
    }
  }

  /******* Deleting the expired keys one by one is filtering *******/

  ghost predicate DeadKeys(entries: seq<Entry>, dead: seq<CacheKey>, now: real, ttl: real) {
    forall j :: 0 <= j < |entries| ==> (entries[j].key in dead <==> Expired(entries[j], now, ttl))
  }

  ghost function Without(entries: seq<Entry>, dead: seq<CacheKey>): seq<Entry> {
    if entries == [] then []
    else if entries[0].key in dead then Without(entries[1..], dead)
    else [entries[0]] + Without(entries[1..], dead)
  }

  lemma {:induction false} WithoutNone(entries: seq<Entry>)
    ensures Without(entries, []) == entries
  {
    if entries != [] {
      WithoutNone(entries[1..]);
    }
  }

  lemma {:induction false} WithoutMembers(entries: seq<Entry>, dead: seq<CacheKey>)
    ensures forall e :: e in Without(entries, dead) <==> e in entries && e.key !in dead
  {
    if entries != [] {
      WithoutMembers(entries[1..], dead);
      assert entries == [entries[0]] + entries[1..];
    }
  }

  lemma DeleteCons(head: Entry, rest: seq<Entry>, key: CacheKey)
    ensures Delete([head] + rest, key) == if head.key == key then rest else [head] + Delete(rest, key)
  {
    var whole := [head] + rest;
    assert whole[0] == head;
    if head.key == key {
      assert IndexOf(whole, key) == 0;
    } else {
      if Has(whole, key) {
        assert rest[IndexOf(whole, key) - 1].key == key;
      }
      if Has(rest, key) {
        assert whole[IndexOf(rest, key) + 1].key == key;
        assert IndexOf(whole, key) == IndexOf(rest, key) + 1;
      }
    }
  }

  lemma {:induction false} WithoutKeysDistinct(entries: seq<Entry>, dead: seq<CacheKey>)
    requires DistinctKeys(entries)
    ensures DistinctKeys(Without(entries, dead))
  {
    if entries != [] {
      WithoutKeysDistinct(entries[1..], dead);
      WithoutMembers(entries[1..], dead);
      var rest := Without(entries[1..], dead);
      forall i | 0 <= i < |rest|
        ensures rest[i].key != entries[0].key
      {
        assert rest[i] in entries[1..];
      }
    }
  }

  lemma {:induction false} WithoutOneMore(entries: seq<Entry>, dead: seq<CacheKey>, key: CacheKey)
    requires DistinctKeys(entries)
    ensures Without(entries, dead + [key]) == Delete(Without(entries, dead), key)
    ensures DistinctKeys(Delete(Without(entries, dead), key))
  {
    WithoutKeysDistinct(entries, dead + [key]);
    if entries != [] {
      var head, tail := entries[0], entries[1..];
      WithoutOneMore(tail, dead, key);
      DeleteCons(head, Without(tail, dead), key);
      if head.key == key && head.key !in dead {
        WithoutAbsent(tail, dead, key);
      }
    }
  }

  lemma {:induction false} WithoutAbsent(entries: seq<Entry>, dead: seq<CacheKey>, key: CacheKey)
    requires forall e :: e in entries ==> e.key != key
    ensures Without(entries, dead + [key]) == Without(entries, dead)
  {
    if entries != [] {
      WithoutAbsent(entries[1..], dead, key);
    }
  }

  lemma {:induction false} WithoutDead(entries: seq<Entry>, dead: seq<CacheKey>, now: real, ttl: real)
    requires DeadKeys(entries, dead, now, ttl)
    ensures Without(entries, dead) == Unexpired(entries, now, ttl)
  {
    if entries != [] {
      assert forall j :: 0 <= j < |entries[1..]| ==> entries[1..][j] == entries[j + 1];
      WithoutDead(entries[1..], dead, now, ttl);
    }
  }
}

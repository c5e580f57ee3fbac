// Many requests sharing one result cache. Every action below is one stretch of
// code between two real suspension points; an action that is not possible in a
// state leaves it unchanged, so a list of actions is any interleaving at all.
module ResultCacheProtocol {
  import opened ResultCache

  datatype Config = Config(ttl: real, size: nat)

  // Where a request's call of `run` stands.
  datatype Phase =
    | Running                    // caching disabled, own workflow run in progress
    | Leading(future: nat)       // own workflow run in progress, others may wait
    | Following(future: nat)     // awaiting the leader's future behind a shield
    | Finished(reply: Reply)

  // `searches` lists the store generations the request's own run has seen.
  datatype Task = Task(key: CacheKey, phase: Phase, searches: seq<nat>)

  datatype System = System(
    cache: CacheState,
    tasks: map<nat, Task>,
    generation: nat,
    touched: seq<CacheKey>,
    lookups: nat)

  datatype WorkflowEnd = Success(text: string) | BadType | Failure | Cancel

  datatype Action =
    | Begin(id: nat, query: string, maxRetries: int, now: real)
    | Search(id: nat)
    | End(id: nat, end: WorkflowEnd, now: real)
    | Wake(id: nat)
    | CancelFollower(id: nat)
    | StoreChanged

  function Init(): System {
    System(CacheState([], map[], [], 0, 0), map[], 0, [], 0)
  }

  function OutcomeOf(id: nat, end: WorkflowEnd): RunOutcome {
    match end
    case Success(text) => Succeeded(Answer(id, text))
    case BadType => NotADict
    case Failure => Failed
    case Cancel => RunCancelled
  }

  // The caller of a run without caching sees the outcome as it is.
  function DirectReply(id: nat, end: WorkflowEnd): Reply {
    match end
    case Success(text) => Got(Answer(id, text))
    case BadType => Unchecked
    case Failure => Raises(WorkflowError)
    case Cancel => Raises(Cancellation)
  }

  function SetPhase(s: System, id: nat, phase: Phase): map<nat, Task>
    requires id in s.tasks
  {
    s.tasks[id := s.tasks[id].(phase := phase)]
  }

  function DoBegin(cfg: Config, s: System, id: nat, query: string, maxRetries: int, now: real): System {
    var key := CacheKey(query, maxRetries, s.generation);
    if id in s.tasks then s
    else if cfg.ttl == 0.0 then s.(tasks := s.tasks[id := Task(key, Running, [])])
    else
      var (cache, decision) := Lookup(s.cache, key, now, cfg.ttl);
      var phase := match decision
        case Hit(answer) => Finished(Got(answer))
        case Follow(future) => Following(future)
        case Lead(future) => Leading(future)
        case Bypass => Running;
      System(cache, s.tasks[id := Task(key, phase, [])], s.generation,
             if decision.Hit? then s.touched + [key] else s.touched, s.lookups + 1)
  }

  function DoEnd(cfg: Config, s: System, id: nat, end: WorkflowEnd, now: real): System {
    if id !in s.tasks then s
    else match s.tasks[id].phase
      case Running => s.(tasks := SetPhase(s, id, Finished(DirectReply(id, end))))
      case Leading(future) =>
        if future >= |s.cache.futures| then s
        else
          var key := s.tasks[id].key;
          var (cache, reply) := Conclude(s.cache, key, future, OutcomeOf(id, end), now, cfg.size);
          s.(cache := cache, tasks := SetPhase(s, id, Finished(reply)),
             touched := if end.Success? then s.touched + [key] else s.touched)
      case _ => s
  }

  function DoWake(s: System, id: nat): System {
    if id !in s.tasks || !s.tasks[id].phase.Following? then s
    else
      var future := s.tasks[id].phase.future;
      if future >= |s.cache.futures| then s
      else match s.cache.futures[future]
        case Unresolved => s
        case Value(answer) => s.(tasks := SetPhase(s, id, Finished(Got(answer))))
        case Raised(failure) => s.(tasks := SetPhase(s, id, Finished(Raises(failure))))
  }

  function Apply(cfg: Config, s: System, a: Action): System {
    match a
    case Begin(id, query, maxRetries, now) => DoBegin(cfg, s, id, query, maxRetries, now)
    case Search(id) =>
      if id in s.tasks && (s.tasks[id].phase.Running? || s.tasks[id].phase.Leading?)
      then s.(tasks := s.tasks[id := s.tasks[id].(searches := s.tasks[id].searches + [s.generation])])
      else s
    case End(id, end, now) => DoEnd(cfg, s, id, end, now)
    case Wake(id) => DoWake(s, id)
    case CancelFollower(id) =>
      // The shield keeps the shared future untouched.
      if id in s.tasks && s.tasks[id].phase.Following?
      then s.(tasks := SetPhase(s, id, Finished(Raises(Cancellation))))
      else s
    case StoreChanged => s.(generation := s.generation + 1)
  }

  function Continue(cfg: Config, s: System, actions: seq<Action>): System {
    if actions == [] then s
    else Apply(cfg, Continue(cfg, s, actions[..|actions| - 1]), actions[|actions| - 1])
  }

  function Run(cfg: Config, actions: seq<Action>): System {
    Continue(cfg, Init(), actions)
  }

  /******* Single flight *******/

  ghost predicate IsLeader(s: System, id: nat, key: CacheKey) {
    id in s.tasks && s.tasks[id].key == key && s.tasks[id].phase.Leading?
  }

  ghost predicate PendingOk(s: System, key: CacheKey)
    requires key in s.cache.pending
  {
    var f := s.cache.pending[key];
    && f < |s.cache.futures|
    && s.cache.futures[f] == Unresolved
    && !Has(s.cache.entries, key)
    && exists id :: IsLeader(s, id, key)
  }

  ghost predicate TaskOk(s: System, id: nat)
    requires id in s.tasks
  {
    var key := s.tasks[id].key;
    match s.tasks[id].phase
    case Leading(f) => key in s.cache.pending && s.cache.pending[key] == f
    case Following(f) =>
      && f < |s.cache.futures|
      && (s.cache.futures[f] == Unresolved ==> key in s.cache.pending && s.cache.pending[key] == f)
    case _ => true
  }

  ghost predicate Awaited(s: System, f: nat) {
    exists key :: key in s.cache.pending && s.cache.pending[key] == f
  }

  ghost predicate SingleFlight(s: System) {
    && (forall key :: key in s.cache.pending ==> PendingOk(s, key))
    && (forall id :: id in s.tasks ==> TaskOk(s, id))
    && (forall id1, id2, key :: IsLeader(s, id1, key) && IsLeader(s, id2, key) ==> id1 == id2)
    && (forall k1, k2 :: k1 in s.cache.pending && k2 in s.cache.pending && k1 != k2 ==>
          s.cache.pending[k1] != s.cache.pending[k2])
    && (forall f :: 0 <= f < |s.cache.futures| && s.cache.futures[f] == Unresolved ==> Awaited(s, f))
    && (forall f :: 0 <= f < |s.cache.futures| ==> s.cache.futures[f] != Raised(Cancellation))
  }

  // No leader appears, disappears or changes key; a new follower joins a
  // pending future; no cache entry appears.
  lemma Unmoved(s: System, t: System)
    requires SingleFlight(s)
    requires t.cache.pending == s.cache.pending && t.cache.futures == s.cache.futures
    requires forall k :: Has(t.cache.entries, k) ==> Has(s.cache.entries, k)
    requires forall id :: id in s.tasks ==> id in t.tasks && t.tasks[id].key == s.tasks[id].key
    requires forall id :: id in s.tasks && s.tasks[id].phase.Leading? ==> t.tasks[id].phase == s.tasks[id].phase
    requires forall id :: id in t.tasks && t.tasks[id].phase.Leading? ==>
      id in s.tasks && t.tasks[id].phase == s.tasks[id].phase
    requires forall id :: id in t.tasks && t.tasks[id].phase.Following? ==>
      || (id in s.tasks && t.tasks[id].phase == s.tasks[id].phase)
      || (t.tasks[id].key in s.cache.pending && s.cache.pending[t.tasks[id].key] == t.tasks[id].phase.future)
    ensures SingleFlight(t)
  {
    hide Has;
    forall k | k in t.cache.pending
      ensures PendingOk(t, k)
    {
      assert PendingOk(s, k);
      var leader :| IsLeader(s, leader, k);
      assert IsLeader(t, leader, k);
    }
    forall i | i in t.tasks
      ensures TaskOk(t, i)
    {
      if i in s.tasks {
        assert TaskOk(s, i);
      }
      if t.tasks[i].key in s.cache.pending {
        assert PendingOk(s, t.tasks[i].key);
      }
    }
    forall f | 0 <= f < |t.cache.futures| && t.cache.futures[f] == Unresolved
      ensures Awaited(t, f)
    {
      assert Awaited(s, f);
    }
    forall id1, id2, k | IsLeader(t, id1, k) && IsLeader(t, id2, k)
      ensures id1 == id2
    {
      assert IsLeader(s, id1, k) && IsLeader(s, id2, k);
    }
  }

  // A new leader opens a new future under a key that was not pending.
  ghost predicate Opens(s: System, t: System, id: nat, key: CacheKey) {
    && key !in s.cache.pending && id !in s.tasks
    && t.cache.pending == s.cache.pending[key := |s.cache.futures|]
    && t.cache.futures == s.cache.futures + [Unresolved]
    && t.tasks == s.tasks[id := Task(key, Leading(|s.cache.futures|), [])]
    && forall k :: Has(t.cache.entries, k) ==> Has(s.cache.entries, k) && k != key
  }

  lemma OpenPending(s: System, t: System, id: nat, key: CacheKey, k: CacheKey)
    requires SingleFlight(s) && Opens(s, t, id, key) && k in t.cache.pending
    ensures PendingOk(t, k)
  {
    hide Has;
    if k == key {
      assert IsLeader(t, id, key);
    } else {
      assert PendingOk(s, k);
      var leader :| IsLeader(s, leader, k);
      assert IsLeader(t, leader, k);
    }
  }

  lemma OpenAwaited(s: System, t: System, id: nat, key: CacheKey, f: nat)
    requires SingleFlight(s) && Opens(s, t, id, key)
    requires f < |t.cache.futures| && t.cache.futures[f] == Unresolved
    ensures Awaited(t, f)
  {
    hide Has;
    if f < |s.cache.futures| {
      assert Awaited(s, f);
      var k :| k in s.cache.pending && s.cache.pending[k] == f;
      assert t.cache.pending[k] == f;
    } else {
      assert t.cache.pending[key] == f;
    }
  }

  lemma NewLeader(s: System, t: System, id: nat, key: CacheKey)
    requires SingleFlight(s) && Opens(s, t, id, key)
    ensures SingleFlight(t)
  {
    hide Has, PendingOk, Awaited;
    forall k | k in t.cache.pending
      ensures PendingOk(t, k)
    {
      OpenPending(s, t, id, key, k);
    }
    forall f | 0 <= f < |t.cache.futures| && t.cache.futures[f] == Unresolved
      ensures Awaited(t, f)
    {
      OpenAwaited(s, t, id, key, f);
    }
    forall i | i in t.tasks
      ensures TaskOk(t, i)
    {
      if i in s.tasks {
        assert TaskOk(s, i);
      }
    }
    forall id1, id2, k | IsLeader(t, id1, k) && IsLeader(t, id2, k)
      ensures id1 == id2
    {
      assert id1 in s.tasks ==> IsLeader(s, id1, k) && TaskOk(s, id1);
      assert id2 in s.tasks ==> IsLeader(s, id2, k) && TaskOk(s, id2);
    }
    forall k | k in s.cache.pending
      ensures s.cache.pending[k] < |s.cache.futures|
    {
      PendingBounded(s, k);
    }
  }

  lemma PendingBounded(s: System, k: CacheKey)
    requires SingleFlight(s) && k in s.cache.pending
    ensures s.cache.pending[k] < |s.cache.futures|
  {
    assert PendingOk(s, k);
  }

  lemma BeginKeepsSingleFlight(cfg: Config, s: System, id: nat, query: string, maxRetries: int, now: real)
    requires SingleFlight(s)
    ensures SingleFlight(DoBegin(cfg, s, id, query, maxRetries, now))
  {
    var t := DoBegin(cfg, s, id, query, maxRetries, now);
    var key := CacheKey(query, maxRetries, s.generation);
    var live := Unexpired(s.cache.entries, now, cfg.ttl);
    forall k | Has(t.cache.entries, k)
      ensures Has(s.cache.entries, k)
    {
      UnexpiredKeys(s.cache.entries, now, cfg.ttl, k);
      if Has(live, key) {
        MoveToEndKeys(live, key, k);
      }
    }
    if id !in s.tasks && cfg.ttl != 0.0 && !Has(live, key) && key !in s.cache.pending {
      NewLeader(s, t, id, key);
    } else {
      Unmoved(s, t);
    }
  }

  // Moving one element to the end keeps the rest in order.
  lemma MovedLast<T>(s: seq<T>, i: nat)
    requires i < |s|
    ensures var moved := s[..i] + s[i + 1..] + [s[i]];
            && |moved| == |s|
            && (forall j :: 0 <= j < |s| ==> moved[j] == s[if j < i then j else if j == |s| - 1 then i else j + 1])
            && forall x :: x in moved <==> x in s
  {
    assert s == s[..i] + [s[i]] + s[i + 1..];
  }

  lemma MoveToEndSame(entries: seq<Entry>, key: CacheKey)
    requires Has(entries, key)
    ensures forall e :: e in MoveToEnd(entries, key) <==> e in entries
    ensures DistinctKeys(entries) ==> DistinctKeys(MoveToEnd(entries, key))
  {
    MovedLast(entries, IndexOf(entries, key));
    hide Has;
  }

  lemma MoveToEndKeys(entries: seq<Entry>, key: CacheKey, other: CacheKey)
    requires Has(entries, key)
    ensures Has(MoveToEnd(entries, key), other) ==> Has(entries, other)
  {
    MoveToEndSame(entries, key);
    var moved := MoveToEnd(entries, key);
    if Has(moved, other) {
      assert moved[IndexOf(moved, other)] in entries;
    }
  }

  lemma PutKeys(entries: seq<Entry>, entry: Entry, size: nat, other: CacheKey)
    ensures Has(DropOldest(Put(entries, entry), size), other) ==> Has(entries, other) || other == entry.key
  {
    var put := Put(entries, entry);
    var kept := DropOldest(put, size);
    if Has(kept, other) {
      var j := IndexOf(kept, other) + |put| - |kept|;
      assert put[j].key == other;
      assert j < |entries| ==> entries[j].key == other;
    }
  }

  // The leader of `key` leaves: its future is settled, its pending entry goes.
  lemma LeaderLeaves(s: System, t: System, id: nat, key: CacheKey, future: nat)
    requires SingleFlight(s)
    requires IsLeader(s, id, key) && s.tasks[id].phase.future == future
    requires t.cache.pending == s.cache.pending - {key}
    requires |t.cache.futures| == |s.cache.futures|
    requires forall f :: 0 <= f < |s.cache.futures| && f != future ==> t.cache.futures[f] == s.cache.futures[f]
    requires future < |s.cache.futures| ==>
      t.cache.futures[future] != Unresolved && t.cache.futures[future] != Raised(Cancellation)
    requires id in t.tasks && t.tasks[id].phase.Finished? && t.tasks == s.tasks[id := t.tasks[id]]
    requires forall k :: Has(t.cache.entries, k) ==> Has(s.cache.entries, k) || k == key
    ensures SingleFlight(t)
  {
    hide Has;
    assert TaskOk(s, id) && PendingOk(s, key);
    forall k | k in t.cache.pending
      ensures PendingOk(t, k)
    {
      assert PendingOk(s, k);
      var leader :| IsLeader(s, leader, k);
      assert IsLeader(t, leader, k);
    }
    forall i | i in t.tasks
      ensures TaskOk(t, i)
    {
      assert TaskOk(s, i);
      assert i != id && s.tasks[i].phase.Leading? ==> IsLeader(s, i, s.tasks[i].key);
    }
    forall f | 0 <= f < |t.cache.futures| && t.cache.futures[f] == Unresolved
      ensures Awaited(t, f)
    {
      assert Awaited(s, f);
      var k :| k in s.cache.pending && s.cache.pending[k] == f;
      assert k in t.cache.pending;
    }
    forall id1, id2, k | IsLeader(t, id1, k) && IsLeader(t, id2, k)
      ensures id1 == id2
    {
      assert IsLeader(s, id1, k) && IsLeader(s, id2, k);
    }
  }

  lemma EndKeepsSingleFlight(cfg: Config, s: System, id: nat, end: WorkflowEnd, now: real)
    requires SingleFlight(s)
    ensures SingleFlight(DoEnd(cfg, s, id, end, now))
  {
    var t := DoEnd(cfg, s, id, end, now);
    if id in s.tasks && s.tasks[id].phase.Leading? {
      assert TaskOk(s, id);
      var key := s.tasks[id].key;
      assert PendingOk(s, key);
      forall k | Has(t.cache.entries, k)
        ensures Has(s.cache.entries, k) || k == key
      {
        if end.Success? {
          PutKeys(s.cache.entries, Entry(key, Answer(id, end.text), now), cfg.size, k);
        }
      }
      assert t.cache.pending == s.cache.pending - {key};
      LeaderLeaves(s, t, id, key, s.tasks[id].phase.future);
    } else {
      Unmoved(s, t);
    }
  }

  lemma StepKeepsSingleFlight(cfg: Config, s: System, a: Action)
    requires SingleFlight(s)
    ensures SingleFlight(Apply(cfg, s, a))
  {
    hide SingleFlight, DoBegin, DoEnd, Has;
    match a
    case Begin(id, query, maxRetries, now) => BeginKeepsSingleFlight(cfg, s, id, query, maxRetries, now);
    case End(id, end, now) => EndKeepsSingleFlight(cfg, s, id, end, now);
    case _ => Unmoved(s, Apply(cfg, s, a));
  }

  // In every reachable state each pending key has exactly one live leader, an
  // unresolved future and no cache entry; every unresolved future is pending.
  lemma {:induction false} AlwaysSingleFlight(cfg: Config, actions: seq<Action>)
    ensures SingleFlight(Run(cfg, actions))
  {
    if actions != [] {
      AlwaysSingleFlight(cfg, actions[..|actions| - 1]);
      StepKeepsSingleFlight(cfg, Run(cfg, actions[..|actions| - 1]), actions[|actions| - 1]);
    }
  }

  ghost predicate NoLeader(s: System) {
    forall id :: id in s.tasks ==> !s.tasks[id].phase.Leading?
  }

  lemma PendingHasLeader(s: System, key: CacheKey)
    requires SingleFlight(s) && key in s.cache.pending
    ensures !NoLeader(s)
  {
    assert PendingOk(s, key);
  }

  // Once no leader runs, nothing is pending and no follower waits in vain.
  lemma NoOrphans(cfg: Config, actions: seq<Action>)
    requires NoLeader(Run(cfg, actions))
    ensures Run(cfg, actions).cache.pending == map[]
    ensures forall id :: id in Run(cfg, actions).tasks && Run(cfg, actions).tasks[id].phase.Following? ==>
      Apply(cfg, Run(cfg, actions), Wake(id)).tasks[id].phase.Finished?
  {
    AlwaysSingleFlight(cfg, actions);
    var s := Run(cfg, actions);
    forall key
      ensures key in s.cache.pending ==> !NoLeader(s)
    {
      if key in s.cache.pending {
        PendingHasLeader(s, key);
      }
    }
    forall id | id in s.tasks && s.tasks[id].phase.Following?
      ensures DoWake(s, id).tasks[id].phase.Finished?
    {
      assert TaskOk(s, id);
    }
  }

  lemma StepSettles(cfg: Config, s: System, a: Action, future: nat)
    requires future < |s.cache.futures| && s.cache.futures[future] != Unresolved
    ensures future < |Apply(cfg, s, a).cache.futures|
    ensures Apply(cfg, s, a).cache.futures[future] == s.cache.futures[future]
  {
  }

  // No future is resolved twice: whatever happens next, a settled future keeps
  // its value.
  lemma {:induction false} SettledOnce(cfg: Config, s: System, more: seq<Action>, future: nat)
    requires future < |s.cache.futures| && s.cache.futures[future] != Unresolved
    ensures future < |Continue(cfg, s, more).cache.futures|
    ensures Continue(cfg, s, more).cache.futures[future] == s.cache.futures[future]
  {
    if more != [] {
      SettledOnce(cfg, s, more[..|more| - 1], future);
      StepSettles(cfg, Continue(cfg, s, more[..|more| - 1]), more[|more| - 1], future);
    }
  }

  ghost predicate CancelsOwn(a: Action, id: nat) {
    a == CancelFollower(id) || (a.End? && a.id == id && a.end.Cancel?)
  }

  lemma StepCancelsOwn(cfg: Config, s: System, a: Action, id: nat)
    requires SingleFlight(s)
    requires id in Apply(cfg, s, a).tasks
    requires Apply(cfg, s, a).tasks[id].phase == Finished(Raises(Cancellation))
    ensures CancelsOwn(a, id) || (id in s.tasks && s.tasks[id].phase == Finished(Raises(Cancellation)))
  {
    if id in s.tasks {
      assert TaskOk(s, id);
    }
  }

  // Only the request that was itself cancelled ever sees a cancellation.
  lemma {:induction false} CancellationIsOwn(cfg: Config, actions: seq<Action>, id: nat)
    requires id in Run(cfg, actions).tasks
    requires Run(cfg, actions).tasks[id].phase == Finished(Raises(Cancellation))
    ensures exists i :: 0 <= i < |actions| && CancelsOwn(actions[i], id)
  {
    var before, a := actions[..|actions| - 1], actions[|actions| - 1];
    AlwaysSingleFlight(cfg, before);
    StepCancelsOwn(cfg, Run(cfg, before), a, id);
    if !CancelsOwn(a, id) {
      CancellationIsOwn(cfg, before, id);
      var i :| 0 <= i < |before| && CancelsOwn(before[i], id);
      assert actions[i] == before[i];
    }
  }

  /******* Freshness *******/

  // `answer` is what the run of request `answer.run` itself returned, for this
  // very key, having searched only stores at least as new as the key's.
  ghost predicate From(s: System, answer: Answer, key: CacheKey) {
    && answer.run in s.tasks
    && s.tasks[answer.run].key == key
    && s.tasks[answer.run].phase == Finished(Got(answer))
    && forall g :: g in s.tasks[answer.run].searches ==> key.generation <= g <= s.generation
  }

  ghost predicate TaskFresh(s: System, id: nat)
    requires id in s.tasks
  {
    var task := s.tasks[id];
    && task.key.generation <= s.generation
    && (forall g :: g in task.searches ==> task.key.generation <= g <= s.generation)
    && (task.phase.Finished? && task.phase.reply.Got? ==> From(s, task.phase.reply.answer, task.key))
    && (task.phase.Following? && task.phase.future < |s.cache.futures| ==>
          var f := s.cache.futures[task.phase.future];
          f.Value? ==> From(s, f.answer, task.key))
  }

  ghost predicate Fresh(s: System) {
    && (forall e :: e in s.cache.entries ==> From(s, e.answer, e.key))
    && (forall id :: id in s.tasks ==> TaskFresh(s, id))
  }

  lemma FromStays(s: System, t: System, answer: Answer, key: CacheKey)
    requires From(s, answer, key)
    requires t.generation >= s.generation
    requires answer.run in t.tasks && t.tasks[answer.run] == s.tasks[answer.run]
    ensures From(t, answer, key)
  {
  }

  // What one action does to finished tasks, generations and single tasks.
  lemma StepShape(cfg: Config, s: System, a: Action)
    ensures var t := Apply(cfg, s, a);
            && t.generation >= s.generation
            && (forall id :: id in s.tasks && s.tasks[id].phase.Finished? ==>
                  id in t.tasks && t.tasks[id] == s.tasks[id])
            && (forall id :: id in t.tasks && (a.StoreChanged? || id != a.id) ==>
                  id in s.tasks && t.tasks[id] == s.tasks[id])
            && (forall id :: id in t.tasks && id !in s.tasks ==> a.Begin? && a.id == id)
            && |t.cache.futures| >= |s.cache.futures|
  {
  }

  // Only a search adds to what a run has searched.
  lemma SearchesStay(cfg: Config, s: System, a: Action)
    requires !a.Search?
    ensures var t := Apply(cfg, s, a);
            && (forall id :: id in s.tasks ==> id in t.tasks && t.tasks[id].searches == s.tasks[id].searches)
            && (forall id :: id in t.tasks && id !in s.tasks ==> t.tasks[id].searches == [])
            && (!a.StoreChanged? ==> t.generation == s.generation)
  {
  }

  lemma EntriesAfter(cfg: Config, s: System, a: Action, e: Entry)
    requires e in Apply(cfg, s, a).cache.entries
    ensures e in s.cache.entries ||
      (a.End? && a.end.Success? && a.id in s.tasks && s.tasks[a.id].phase.Leading? &&
       e == Entry(s.tasks[a.id].key, Answer(a.id, a.end.text), a.now))
  {
    match a
    case Begin(id, query, maxRetries, now) =>
      UnexpiredMembers(s.cache.entries, now, cfg.ttl);
      var live := Unexpired(s.cache.entries, now, cfg.ttl);
      assert e in s.cache.entries || e in live || Has(live, CacheKey(query, maxRetries, s.generation));
    case End(id, end, now) =>
    case _ =>
  }

  lemma EntryFresh(cfg: Config, s: System, a: Action, e: Entry)
    requires SingleFlight(s) && Fresh(s)
    requires e in Apply(cfg, s, a).cache.entries
    ensures From(Apply(cfg, s, a), e.answer, e.key)
  {
    StepShape(cfg, s, a);
    EntriesAfter(cfg, s, a, e);
    if e in s.cache.entries {
      FromStays(s, Apply(cfg, s, a), e.answer, e.key);
    } else {
      assert TaskFresh(s, a.id) && TaskOk(s, a.id) && PendingOk(s, s.tasks[a.id].key);
    }
  }

  lemma NewTaskFresh(cfg: Config, s: System, a: Action)
    requires SingleFlight(s) && Fresh(s)
    requires a.Begin? && a.id !in s.tasks
    ensures a.id in Apply(cfg, s, a).tasks && TaskFresh(Apply(cfg, s, a), a.id)
  {
    var t := Apply(cfg, s, a);
    StepShape(cfg, s, a);
    var key := t.tasks[a.id].key;
    if t.tasks[a.id].phase.Finished? {
      var live := Unexpired(s.cache.entries, a.now, cfg.ttl);
      UnexpiredMembers(s.cache.entries, a.now, cfg.ttl);
      var e := live[IndexOf(live, key)];
      assert e in s.cache.entries;
      FromStays(s, t, e.answer, e.key);
    } else if t.tasks[a.id].phase.Following? {
      assert PendingOk(s, key);
    }
  }

  // A request that does not follow stays as it is, searches the store as it is
  // now, or finishes with its own answer or with an error.
  ghost predicate OwnStep(s: System, task: Task, next: Task, id: nat) {
    || next == task
    || next == task.(searches := task.searches + [s.generation])
    || (next.phase.Finished? && next == task.(phase := next.phase)
        && (next.phase.reply.Got? ==> next.phase.reply.answer.run == id))
  }

  lemma OldTaskStep(cfg: Config, s: System, a: Action, id: nat)
    requires SingleFlight(s) && id in s.tasks && !s.tasks[id].phase.Following?
    ensures id in Apply(cfg, s, a).tasks && OwnStep(s, s.tasks[id], Apply(cfg, s, a).tasks[id], id)
  {
    hide Lookup, Has, Put;
    assert TaskOk(s, id);
    hide SingleFlight;
  }

  lemma OldTaskFresh(cfg: Config, s: System, a: Action, id: nat)
    requires SingleFlight(s) && Fresh(s)
    requires id in s.tasks && !s.tasks[id].phase.Following?
    ensures id in Apply(cfg, s, a).tasks && TaskFresh(Apply(cfg, s, a), id)
  {
    var t := Apply(cfg, s, a);
    StepShape(cfg, s, a);
    OldTaskStep(cfg, s, a, id);
    assert TaskFresh(s, id);
    hide SingleFlight, Fresh, Apply;
    if s.tasks[id].phase.Finished? && s.tasks[id].phase.reply.Got? {
      FromStays(s, t, s.tasks[id].phase.reply.answer, s.tasks[id].key);
    }
  }

  lemma StepKeepsFresh(cfg: Config, s: System, a: Action)
    requires SingleFlight(s) && Fresh(s)
    ensures Fresh(Apply(cfg, s, a))
  {
    hide From, TaskFresh, Apply, Has;
    var t := Apply(cfg, s, a);
    StepShape(cfg, s, a);
    forall e | e in t.cache.entries
      ensures From(t, e.answer, e.key)
    {
      EntryFresh(cfg, s, a, e);
    }
    forall id | id in t.tasks
      ensures TaskFresh(t, id)
    {
      if id !in s.tasks {
        NewTaskFresh(cfg, s, a);
      } else if s.tasks[id].phase.Following? {
        FollowerFresh(cfg, s, a, id);
      } else {
        OldTaskFresh(cfg, s, a, id);
      }
    }
  }

  // A follower stays as it is, is woken by its settled future, or gives up.
  lemma FollowerStep(cfg: Config, s: System, a: Action, id: nat)
    requires id in s.tasks && s.tasks[id].phase.Following? && s.tasks[id].phase.future < |s.cache.futures|
    ensures var t, f := Apply(cfg, s, a), s.cache.futures[s.tasks[id].phase.future];
            && id in t.tasks
            && (|| t.tasks[id] == s.tasks[id]
                || t.tasks[id] == s.tasks[id].(phase := Finished(Raises(Cancellation)))
                || (f.Value? && t.tasks[id] == s.tasks[id].(phase := Finished(Got(f.answer))))
                || (f.Raised? && t.tasks[id] == s.tasks[id].(phase := Finished(Raises(f.failure)))))
  {
    hide Lookup, Conclude;
  }

  // Only the leader of a future gives it a value, and that is its own answer.
  lemma OnlyLeaderResolves(cfg: Config, s: System, a: Action, f: nat)
    requires SingleFlight(s)
    requires f < |s.cache.futures| && !s.cache.futures[f].Value?
    requires f < |Apply(cfg, s, a).cache.futures| && Apply(cfg, s, a).cache.futures[f].Value?
    ensures a.End? && a.end.Success? && a.id in s.tasks && s.tasks[a.id].phase == Leading(f)
    ensures var t, answer := Apply(cfg, s, a), Answer(a.id, a.end.text);
            && t.cache.futures[f] == Value(answer)
            && a.id in t.tasks
            && t.tasks[a.id] == s.tasks[a.id].(phase := Finished(Got(answer)))
  {
    hide Has, Unexpired, MoveToEnd;
  }

  lemma FollowerFresh(cfg: Config, s: System, a: Action, id: nat)
    requires SingleFlight(s) && Fresh(s)
    requires id in s.tasks && s.tasks[id].phase.Following?
    ensures id in Apply(cfg, s, a).tasks && TaskFresh(Apply(cfg, s, a), id)
  {
    var t := Apply(cfg, s, a);
    var f := s.tasks[id].phase.future;
    StepShape(cfg, s, a);
    assert TaskFresh(s, id) && TaskOk(s, id);
    FollowerStep(cfg, s, a, id);
    if s.cache.futures[f].Value? {
      StepSettles(cfg, s, a, f);
      FromStays(s, t, s.cache.futures[f].answer, s.tasks[id].key);
    } else if t.cache.futures[f].Value? {
      OnlyLeaderResolves(cfg, s, a, f);
      assert TaskOk(s, a.id) && TaskFresh(s, a.id) && PendingOk(s, s.tasks[a.id].key);
      hide Apply, SingleFlight;
      assert s.tasks[a.id].key == s.tasks[id].key;
      assert From(t, Answer(a.id, a.end.text), s.tasks[id].key);
    }
  }

  lemma {:induction false} AlwaysFresh(cfg: Config, actions: seq<Action>)
    ensures Fresh(Run(cfg, actions))
  {
    if actions != [] {
      var before := actions[..|actions| - 1];
      AlwaysFresh(cfg, before);
      AlwaysSingleFlight(cfg, before);
      StepKeepsFresh(cfg, Run(cfg, before), actions[|actions| - 1]);
    }
  }

  // Every answer a request receives, from the cache, a leader or its own run,
  // was computed by a run with the same query, retry limit and generation, and
  // that run never searched a store older than the request's.
  lemma AnswersAreFresh(cfg: Config, actions: seq<Action>, id: nat, answer: Answer)
    requires id in Run(cfg, actions).tasks
    requires Run(cfg, actions).tasks[id].phase == Finished(Got(answer))
    ensures From(Run(cfg, actions), answer, Run(cfg, actions).tasks[id].key)
  {
    AlwaysFresh(cfg, actions);
    assert TaskFresh(Run(cfg, actions), id);
  }

  /******* Recency, capacity and expiry *******/

  // One past the position of the last touch of `key`; 0 if it was never touched.
  ghost function LastTouch(touched: seq<CacheKey>, key: CacheKey): (n: nat)
    ensures n <= |touched|
  {
    if touched == [] then 0
    else if touched[|touched| - 1] == key then |touched|
    else LastTouch(touched[..|touched| - 1], key)
  }

  ghost predicate InTouchOrder(entries: seq<Entry>, touched: seq<CacheKey>) {
    forall i, j :: 0 <= i < j < |entries| ==>
      LastTouch(touched, entries[i].key) < LastTouch(touched, entries[j].key)
  }

  ghost predicate LruOk(cfg: Config, s: System) {
    && InTouchOrder(s.cache.entries, s.touched)
    && |s.cache.entries| <= cfg.size
    && s.cache.hits + s.cache.misses == s.lookups
  }

  lemma TouchAgain(touched: seq<CacheKey>, key: CacheKey, other: CacheKey)
    ensures LastTouch(touched + [key], other) ==
            if other == key then |touched| + 1 else LastTouch(touched, other)
  {
    assert (touched + [key])[..|touched|] == touched;
  }

  lemma {:induction false} UnexpiredInOrder(entries: seq<Entry>, touched: seq<CacheKey>, now: real, ttl: real)
    requires InTouchOrder(entries, touched)
    ensures InTouchOrder(Unexpired(entries, now, ttl), touched)
    ensures |Unexpired(entries, now, ttl)| <= |entries|
  {
    if entries != [] {
      var tail := entries[1..];
      assert forall i :: 0 <= i < |tail| ==> tail[i] == entries[i + 1];
      UnexpiredInOrder(tail, touched, now, ttl);
      UnexpiredMembers(tail, now, ttl);
      var rest := Unexpired(tail, now, ttl);
      forall j | 0 <= j < |rest|
        ensures LastTouch(touched, entries[0].key) < LastTouch(touched, rest[j].key)
      {
        assert rest[j] in tail;
      }
    }
  }

  // Appending an entry for a key no other entry has, and touching that key.
  lemma AppendInOrder(entries: seq<Entry>, entry: Entry, touched: seq<CacheKey>)
    requires InTouchOrder(entries, touched)
    requires forall i :: 0 <= i < |entries| ==> entries[i].key != entry.key
    ensures InTouchOrder(entries + [entry], touched + [entry.key])
  {
    forall i | 0 <= i < |entries|
      ensures LastTouch(touched + [entry.key], entries[i].key) == LastTouch(touched, entries[i].key)
    {
      TouchAgain(touched, entry.key, entries[i].key);
    }
    TouchAgain(touched, entry.key, entry.key);
  }

  lemma MoveInOrder(entries: seq<Entry>, key: CacheKey, touched: seq<CacheKey>)
    requires InTouchOrder(entries, touched) && Has(entries, key)
    ensures InTouchOrder(MoveToEnd(entries, key), touched + [key])
    ensures |MoveToEnd(entries, key)| == |entries|
  {
    var i := IndexOf(entries, key);
    var others := Delete(entries, key);
    assert forall j :: 0 <= j < |others| ==> others[j] == entries[if j < i then j else j + 1];
    hide Has;
    assert InTouchOrder(others, touched);
    assert forall j :: 0 <= j < |others| ==> others[j].key != entries[i].key by {
      assert forall j :: 0 <= j < |entries| && j != i ==> entries[j].key != entries[i].key;
    }
    hide InTouchOrder;
    AppendInOrder(others, entries[i], touched);
  }

  lemma BeginKeepsLru(cfg: Config, s: System, id: nat, query: string, maxRetries: int, now: real)
    requires LruOk(cfg, s)
    ensures LruOk(cfg, DoBegin(cfg, s, id, query, maxRetries, now))
  {
    hide InTouchOrder, Has;
    var key := CacheKey(query, maxRetries, s.generation);
    UnexpiredInOrder(s.cache.entries, s.touched, now, cfg.ttl);
    var live := Unexpired(s.cache.entries, now, cfg.ttl);
    if Has(live, key) {
      MoveInOrder(live, key, s.touched);
    }
  }

  lemma DropInOrder(entries: seq<Entry>, touched: seq<CacheKey>, size: nat)
    requires InTouchOrder(entries, touched)
    ensures InTouchOrder(DropOldest(entries, size), touched)
  {
  }

  lemma EndKeepsLru(cfg: Config, s: System, id: nat, end: WorkflowEnd, now: real)
    requires cfg.size >= 1
    requires SingleFlight(s) && LruOk(cfg, s)
    ensures LruOk(cfg, DoEnd(cfg, s, id, end, now))
  {
    if id in s.tasks && s.tasks[id].phase.Leading? && end.Success? {
      var stored := Entry(s.tasks[id].key, Answer(id, end.text), now);
      assert TaskOk(s, id) && PendingOk(s, s.tasks[id].key);
      AppendInOrder(s.cache.entries, stored, s.touched);
      DropInOrder(s.cache.entries + [stored], s.touched + [stored.key], cfg.size);
      hide InTouchOrder, SingleFlight;
      assert Put(s.cache.entries, stored) == s.cache.entries + [stored];
    }
  }

  lemma StepKeepsLru(cfg: Config, s: System, a: Action)
    requires cfg.size >= 1
    requires SingleFlight(s) && LruOk(cfg, s)
    ensures LruOk(cfg, Apply(cfg, s, a))
  {
    hide SingleFlight, InTouchOrder, DoBegin, DoEnd;
    match a
    case Begin(id, query, maxRetries, now) => BeginKeepsLru(cfg, s, id, query, maxRetries, now);
    case End(id, end, now) => EndKeepsLru(cfg, s, id, end, now);
    case _ =>
  }

  // Between any two steps the cache fits its limit, lists its keys strictly by
  // last insertion or hit, and has counted every completed lookup once.
  lemma {:induction false} AlwaysLru(cfg: Config, actions: seq<Action>)
    requires cfg.size >= 1
    ensures LruOk(cfg, Run(cfg, actions))
  {
    if actions != [] {
      var before := actions[..|actions| - 1];
      AlwaysLru(cfg, before);
      AlwaysSingleFlight(cfg, before);
      StepKeepsLru(cfg, Run(cfg, before), actions[|actions| - 1]);
    }
  }

  lemma DropsOnlyFirst(entries: seq<Entry>, size: nat, key: CacheKey)
    requires Has(entries, key)
    ensures Has(DropOldest(entries, size), key) || (entries[0].key == key && |entries| > size)
  {
    if |entries| > size && entries[0].key != key {
      assert entries[1..][IndexOf(entries, key) - 1].key == key;
    }
  }

  // Storing a result pushes out at most one key: the least recently touched
  // one, and never the key just stored.
  lemma EvictsLeastRecent(cfg: Config, actions: seq<Action>, id: nat, text: string, now: real, gone: CacheKey)
    requires cfg.size >= 1
    requires id in Run(cfg, actions).tasks && Run(cfg, actions).tasks[id].phase.Leading?
    ensures var s := Run(cfg, actions);
            var t := Apply(cfg, s, End(id, Success(text), now));
            && Has(t.cache.entries, s.tasks[id].key)
            && Entry(s.tasks[id].key, Answer(id, text), now) in t.cache.entries
            && (Has(s.cache.entries, gone) && !Has(t.cache.entries, gone) ==>
                  && |s.cache.entries| == cfg.size
                  && forall e :: e in t.cache.entries ==>
                       LastTouch(t.touched, gone) < LastTouch(t.touched, e.key))
  {
    AlwaysLru(cfg, actions);
    AlwaysSingleFlight(cfg, actions);
    var s := Run(cfg, actions);
    var t := Apply(cfg, s, End(id, Success(text), now));
    assert TaskOk(s, id) && PendingOk(s, s.tasks[id].key);
    var stored := Entry(s.tasks[id].key, Answer(id, text), now);
    AppendInOrder(s.cache.entries, stored, s.touched);
    var full := s.cache.entries + [stored];
    assert t.cache.entries[|t.cache.entries| - 1] == stored;
    if Has(s.cache.entries, gone) && !Has(t.cache.entries, gone) {
      assert full[IndexOf(s.cache.entries, gone)].key == gone;
      DropsOnlyFirst(full, cfg.size, gone);
    }
  }

  // A hit returns an entry no older than the TTL and makes it the most recent.
  lemma HitWithinTtl(cfg: Config, actions: seq<Action>, id: nat, query: string, maxRetries: int, now: real)
    requires cfg.ttl != 0.0 && id !in Run(cfg, actions).tasks
    requires Apply(cfg, Run(cfg, actions), Begin(id, query, maxRetries, now)).tasks[id].phase.Finished?
    ensures var s := Run(cfg, actions);
            var t := Apply(cfg, s, Begin(id, query, maxRetries, now));
            var key := CacheKey(query, maxRetries, s.generation);
            exists e :: e in s.cache.entries && e.key == key && now - e.storedAt <= cfg.ttl
              && t.tasks[id].phase == Finished(Got(e.answer))
              && t.cache.entries != [] && t.cache.entries[|t.cache.entries| - 1] == e
  {
    var s := Run(cfg, actions);
    var live := Unexpired(s.cache.entries, now, cfg.ttl);
    UnexpiredMembers(s.cache.entries, now, cfg.ttl);
    var e := live[IndexOf(live, CacheKey(query, maxRetries, s.generation))];
    assert e in s.cache.entries;
  }

  /******* What a request gets *******/

  lemma {:induction false} UnexpiredDistinct(entries: seq<Entry>, now: real, ttl: real)
    requires DistinctKeys(entries)
    ensures DistinctKeys(Unexpired(entries, now, ttl))
  {
    if entries != [] {
      UnexpiredDistinct(entries[1..], now, ttl);
      UnexpiredMembers(entries[1..], now, ttl);
      var rest := Unexpired(entries[1..], now, ttl);
      forall i | 0 <= i < |rest|
        ensures rest[i].key != entries[0].key
      {
        assert rest[i] in entries[1..];
      }
    }
  }

  lemma StepKeepsDistinct(cfg: Config, s: System, a: Action)
    requires SingleFlight(s) && DistinctKeys(s.cache.entries)
    ensures DistinctKeys(Apply(cfg, s, a).cache.entries)
  {
    match a
    case Begin(id, query, maxRetries, now) =>
      var key := CacheKey(query, maxRetries, s.generation);
      UnexpiredDistinct(s.cache.entries, now, cfg.ttl);
      var live := Unexpired(s.cache.entries, now, cfg.ttl);
      if Has(live, key) {
        MoveToEndSame(live, key);
      }
    case End(id, end, now) =>
      if id in s.tasks && s.tasks[id].phase.Leading? {
        assert TaskOk(s, id) && PendingOk(s, s.tasks[id].key);
      }
    case _ =>
  }

  lemma {:induction false} AlwaysDistinct(cfg: Config, actions: seq<Action>)
    ensures DistinctKeys(Run(cfg, actions).cache.entries)
  {
    if actions != [] {
      hide Apply, SingleFlight, DistinctKeys;
      AlwaysDistinct(cfg, actions[..|actions| - 1]);
      AlwaysSingleFlight(cfg, actions[..|actions| - 1]);
      StepKeepsDistinct(cfg, Run(cfg, actions[..|actions| - 1]), actions[|actions| - 1]);
    }
  }

  // An entry that a new request may be answered with.
  ghost predicate Serves(cfg: Config, s: System, key: CacheKey, now: real, e: Entry) {
    e in s.cache.entries && e.key == key && now - e.storedAt <= cfg.ttl
  }

  lemma LookupFinds(cfg: Config, s: System, key: CacheKey, now: real)
    requires DistinctKeys(s.cache.entries)
    ensures Has(Unexpired(s.cache.entries, now, cfg.ttl), key) <==> exists e :: Serves(cfg, s, key, now, e)
    ensures forall e :: Serves(cfg, s, key, now, e) ==>
              Has(Unexpired(s.cache.entries, now, cfg.ttl), key)
              && Unexpired(s.cache.entries, now, cfg.ttl)[IndexOf(Unexpired(s.cache.entries, now, cfg.ttl), key)] == e
  {
    var live := Unexpired(s.cache.entries, now, cfg.ttl);
    UnexpiredMembers(s.cache.entries, now, cfg.ttl);
    UnexpiredDistinct(s.cache.entries, now, cfg.ttl);
    if Has(live, key) {
      assert live[IndexOf(live, key)] in live;
      assert Serves(cfg, s, key, now, live[IndexOf(live, key)]);
    }
    forall e | Serves(cfg, s, key, now, e)
      ensures Has(live, key) && live[IndexOf(live, key)] == e
    {
      assert e in live;
      var i :| 0 <= i < |live| && live[i] == e;
    }
  }

  // Exactly: a new request finishes at once if and only if the cache holds an
  // entry for its query, its retry limit and the store's generation that is no
  // older than the TTL, and then with that entry's answer. Otherwise it follows
  // the run in flight for that key, or leads one if there is none. The lookup
  // leaves exactly the entries that are no older than the TTL.
  lemma RequestGets(cfg: Config, actions: seq<Action>, id: nat, query: string, maxRetries: int, now: real)
    requires cfg.ttl != 0.0 && id !in Run(cfg, actions).tasks
    ensures var s := Run(cfg, actions);
            var t, key := Apply(cfg, s, Begin(id, query, maxRetries, now)), CacheKey(query, maxRetries, s.generation);
            && id in t.tasks
            && (t.tasks[id].phase.Finished? <==> exists e :: Serves(cfg, s, key, now, e))
            && (forall e :: Serves(cfg, s, key, now, e) ==> t.tasks[id].phase == Finished(Got(e.answer)))
            && (!t.tasks[id].phase.Finished? ==>
                  if key in s.cache.pending then t.tasks[id].phase == Following(s.cache.pending[key])
                  else t.tasks[id].phase == Leading(|s.cache.futures|)
                       && t.cache.pending == s.cache.pending[key := |s.cache.futures|])
            && (forall e :: e in t.cache.entries <==> e in s.cache.entries && now - e.storedAt <= cfg.ttl)
            && t.cache.hits == s.cache.hits + (if t.tasks[id].phase.Leading? then 0 else 1)
            && t.cache.misses == s.cache.misses + (if t.tasks[id].phase.Leading? then 1 else 0)
  {
    var s := Run(cfg, actions);
    var key := CacheKey(query, maxRetries, s.generation);
    AlwaysDistinct(cfg, actions);
    LookupFinds(cfg, s, key, now);
    UnexpiredMembers(s.cache.entries, now, cfg.ttl);
    var live := Unexpired(s.cache.entries, now, cfg.ttl);
    if Has(live, key) {
      MoveToEndSame(live, key);
    }
    hide Run, Unexpired, MoveToEnd, Has, DistinctKeys;
  }

  // With caching off every request runs the workflow, sees how that ends, and
  // leaves the cache alone.
  lemma WithoutCaching(cfg: Config, actions: seq<Action>, id: nat, query: string, maxRetries: int, end: WorkflowEnd,
                       now: real)
    requires cfg.ttl == 0.0 && id !in Run(cfg, actions).tasks
    ensures var s := Run(cfg, actions);
            var t := Apply(cfg, s, Begin(id, query, maxRetries, now));
            var u := Apply(cfg, t, End(id, end, now));
            && t.cache == s.cache && u.cache == s.cache && id in u.tasks
            && u.tasks[id].phase == Finished(match end
                                             case Success(text) => Got(Answer(id, text))
                                             case BadType => Unchecked
                                             case Failure => Raises(WorkflowError)
                                             case Cancel => Raises(Cancellation))
  {
  }

  // What an entry says about its origin is true: it was stored when the run it
  // names succeeded with that text.
  lemma {:induction false} StoredWhenRun(cfg: Config, actions: seq<Action>, e: Entry)
    requires e in Run(cfg, actions).cache.entries
    ensures End(e.answer.run, Success(e.answer.text), e.storedAt) in actions
  {
    var before, a := actions[..|actions| - 1], actions[|actions| - 1];
    EntriesAfter(cfg, Run(cfg, before), a, e);
    if e in Run(cfg, before).cache.entries {
      StoredWhenRun(cfg, before, e);
    }
  }

  // How a leader's run ends is what its caller sees and what every follower is
  // told, except that a cancellation is told as a timeout.
  lemma LeaderTellsAll(cfg: Config, actions: seq<Action>, leader: nat, follower: nat, end: WorkflowEnd, now: real)
    requires leader in Run(cfg, actions).tasks && Run(cfg, actions).tasks[leader].phase.Leading?
    requires follower in Run(cfg, actions).tasks
    requires Run(cfg, actions).tasks[follower].phase == Following(Run(cfg, actions).tasks[leader].phase.future)
    ensures var s := Apply(cfg, Run(cfg, actions), End(leader, end, now));
            && s.tasks[leader].phase == Finished(match end
                                                 case Success(text) => Got(Answer(leader, text))
                                                 case BadType => Raises(WrongType)
                                                 case Failure => Raises(WorkflowError)
                                                 case Cancel => Raises(Cancellation))
            && Apply(cfg, s, Wake(follower)).tasks[follower].phase ==
               Finished(match end
                        case Success(text) => Got(Answer(leader, text))
                        case BadType => Raises(WrongType)
                        case Failure => Raises(WorkflowError)
                        case Cancel => Raises(Timeout))
  {
    AlwaysSingleFlight(cfg, actions);
    var s := Run(cfg, actions);
    assert TaskOk(s, leader) && PendingOk(s, s.tasks[leader].key);
    hide Run, Put, DropOldest, Has;
  }
}

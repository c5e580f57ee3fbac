// The migration runner: an advisory lock, a tracking table and one transaction
// per file, under concurrent runners, failures and crashes.
module Migrate {
  import opened Prelude
  import opened Sorting

  /******* Which files *******/

  // File names are compared by UTF-16 code unit.
  type CodeUnit = u: nat | u < 0x1_0000

  type Name = seq<CodeUnit>

  const SUFFIX: Name := [0x2E, 0x73, 0x71, 0x6C] // ".sql"

  predicate IsSql(name: Name) {
    |name| >= |SUFFIX| && name[|name| - |SUFFIX|..] == SUFFIX
  }

  // A name that ends in ".sql".
  ghost predicate EndsInSql(name: Name) {
    exists stem: Name :: name == stem + [0x2E, 0x73, 0x71, 0x6C]
  }

  lemma IsSqlExactly(name: Name)
    ensures IsSql(name) <==> EndsInSql(name)
  {
    if IsSql(name) {
      assert name == name[..|name| - 4] + [0x2E, 0x73, 0x71, 0x6C];
    }
  }

  function SqlOnly(names: seq<Name>): seq<Name> {
    if names == [] then []
    else SqlOnly(names[..|names| - 1]) + if IsSql(names[|names| - 1]) then [names[|names| - 1]] else []
  }

  function ByName(): (Name, Name) -> bool {
    (a, b) => LexLeq(a, b)
  }

  function ListMigrationFiles(names: seq<Name>): seq<Name> {
    Sort(SqlOnly(names), ByName())
  }

  // `files` without those already applied, in the order of `files`.
  function PendingMigrations(files: seq<Name>, applied: set<Name>): seq<Name> {
    if files == [] then []
    else (if files[0] in applied then [] else [files[0]]) + PendingMigrations(files[1..], applied)
  }

  lemma ByNameTotal()
    ensures TotalPreorder(ByName())
  {
    var leq := ByName();
    forall a: Name, b: Name
      ensures leq(a, b) || leq(b, a)
    {
      LexTotal(a, b);
    }
    forall a: Name, b: Name, c: Name | leq(a, b) && leq(b, c)
      ensures leq(a, c)
    {
      LexTransitive(a, b, c);
    }
  }

  lemma {:induction false} SqlOnlyCounts(names: seq<Name>, x: Name)
    ensures multiset(SqlOnly(names))[x] == if IsSql(x) then multiset(names)[x] else 0
  {
    if names != [] {
      SqlOnlyCounts(names[..|names| - 1], x);
      assert names == names[..|names| - 1] + [names[|names| - 1]];
    }
  }

  lemma ListCounts(names: seq<Name>, x: Name)
    ensures multiset(ListMigrationFiles(names))[x] == if IsSql(x) then multiset(names)[x] else 0
  {
    ByNameTotal();
    SortCorrect(SqlOnly(names), ByName());
    SqlOnlyCounts(names, x);
  }

  lemma ListSorted(names: seq<Name>)
    ensures SortedBy(ListMigrationFiles(names), ByName())
  {
    ByNameTotal();
    SortCorrect(SqlOnly(names), ByName());
  }

  lemma ByNameAntisymmetric(a: seq<Name>)
    ensures Antisymmetric(a, ByName())
  {
    forall x: Name, y: Name | ByName()(x, y) && ByName()(y, x)
      ensures x == y
    {
      LexTotal(x, y);
    }
  }

  // The file list is the directory's .sql names, each once, in lexical order:
  // the same list in whatever order the directory gives them.
  lemma FilesExactly(names: seq<Name>, other: seq<Name>)
    requires Distinct(names) && multiset(names) == multiset(other)
    ensures ListMigrationFiles(names) == ListMigrationFiles(other)
    ensures SortedBy(ListMigrationFiles(names), ByName()) && Distinct(ListMigrationFiles(names))
    ensures forall x :: x in ListMigrationFiles(names) <==> x in names && EndsInSql(x)
  {
    hide ListMigrationFiles, SortedBy, Antisymmetric, TotalPreorder, IsSql, EndsInSql;
    var a, b := ListMigrationFiles(names), ListMigrationFiles(other);
    forall x
      ensures multiset(a)[x] == (if IsSql(x) then multiset(names)[x] else 0) == multiset(b)[x]
      ensures x in a <==> x in names && EndsInSql(x)
    {
      IsSqlExactly(x);
      ListCounts(names, x);
      ListCounts(other, x);
      assert x in a <==> multiset(a)[x] > 0;
      assert x in names <==> multiset(names)[x] > 0;
    }
    assert multiset(a) == multiset(b);
    CountDistinct(names);
    CountDistinct(a);
    ByNameTotal();
    ByNameAntisymmetric(a);
    ListSorted(names);
    ListSorted(other);
    SortedUnique(a, b, ByName());
  }

  lemma {:induction false} NoneApplied(files: seq<Name>, applied: set<Name>)
    requires forall f :: f in files ==> f !in applied
    ensures PendingMigrations(files, applied) == files
  {
    if files != [] {
      NoneApplied(files[1..], applied);
      assert files == [files[0]] + files[1..];
    }
  }

  // When what is applied is a prefix, what is pending is the rest.
  lemma {:induction false} PendingIsRest(files: seq<Name>, applied: set<Name>, k: nat)
    requires Distinct(files) && k <= |files|
    requires forall i :: 0 <= i < |files| ==> (files[i] in applied <==> i < k)
    ensures PendingMigrations(files, applied) == files[k..]
  {
    if k == 0 {
      NoneApplied(files, applied);
    } else {
      assert forall i, j :: 0 <= i < j < |files[1..]| ==>
               files[1..][i] == files[i + 1] && files[1..][j] == files[j + 1];
      PendingIsRest(files[1..], applied, k - 1);
      assert files[1..][k - 1..] == files[k..];
    }
  }

  /******* The lock *******/

  const LOCK_RETRY_INTERVAL_MS := 2000
  const LOCK_WAIT_TIMEOUT_MS := 30000

  // Polls until `acquired` says yes, or for thirty seconds: then it has polled
  // sixteen times and slept fifteen.
  method AcquireAdvisoryLock(acquired: nat -> bool) returns (held: bool, polls: nat, waitedMs: nat)
    ensures held <==> exists p: nat :: p < 16 && acquired(p)
    ensures held ==> polls >= 1 && acquired(polls - 1) && polls <= 16
    ensures forall p: nat :: p + 1 < polls ==> !acquired(p)
    ensures waitedMs == LOCK_RETRY_INTERVAL_MS * (polls - 1)
    ensures !held ==> polls == 16 && waitedMs == LOCK_WAIT_TIMEOUT_MS
  {
    polls, waitedMs := 0, 0;
    while true
      invariant waitedMs == LOCK_RETRY_INTERVAL_MS * polls && polls <= 15
      invariant forall p: nat :: p < polls ==> !acquired(p)
      decreases 16 - polls
    {
      polls := polls + 1;
      if acquired(polls - 1) {
        return true, polls, waitedMs;
      }
      if waitedMs >= LOCK_WAIT_TIMEOUT_MS {
        return false, polls, waitedMs;
      }
      waitedMs := waitedMs + LOCK_RETRY_INTERVAL_MS;
    }
  }

  /******* The database *******/

  datatype Exec<S> = Ran(schema: S) | Collides | Breaks

  // `exec` is what running a file's SQL does to a schema.
  datatype Env<!S> = Env(files: seq<Name>, exec: (S, Name) -> Exec<S>)

  datatype Db<S> = Db(tracked: seq<Name>, schema: S, lock: Option<nat>)

  datatype Failure = LockTimeout | Untracked(file: Name) | SqlError(file: Name) | Aborted | LostConnection

  datatype Outcome = Success | Failed(failure: Failure)

  datatype Phase =
    | Idle
    | Polling(polls: nat, waitedMs: nat)
    | Holding
    | Applying(pending: seq<Name>)
    | Unlocking(outcome: Outcome)
    | Closing(outcome: Outcome)
    | Ended(outcome: Outcome)
    | Crashed

  datatype State<S> = State(db: Db<S>, runners: map<nat, Phase>)

  datatype Action =
    | Connects(i: nat)
    | Polls(i: nat)
    | Loads(i: nat)
    | Applies(i: nat)
    | Aborts(i: nat)                         // a query fails for its own reasons and is rolled back
    | Disconnects(i: nat, committed: bool)   // the connection goes, before or after a commit took effect
    | Unlocks(i: nat)
    | UnlockFails(i: nat)
    | Closes(i: nat)
    | Crashes(i: nat)

  function PhaseOf<S>(s: State<S>, i: nat): Phase {
    if i in s.runners then s.runners[i] else Idle
  }

  function Goto<S>(s: State<S>, i: nat, p: Phase): State<S> {
    s.(runners := s.runners[i := p])
  }

  function Free<S>(db: Db<S>, i: nat): Db<S> {
    if db.lock == Some(i) then db.(lock := None) else db
  }

  // One file in one transaction: its SQL and its row, or neither.
  function ApplyFile<S>(env: Env<S>, db: Db<S>, file: Name): (Db<S>, Option<Failure>) {
    match env.exec(db.schema, file)
    case Collides => (db, Some(Untracked(file)))
    case Breaks => (db, Some(SqlError(file)))
    case Ran(schema) =>
      if file in db.tracked then (db, Some(SqlError(file)))
      else (db.(tracked := db.tracked + [file], schema := schema), None)
  }

  function AfterFile(pending: seq<Name>, failure: Option<Failure>): Phase
    requires pending != []
  {
    if failure.Some? then Unlocking(Failed(failure.value))
    else if |pending| == 1 then Unlocking(Success)
    else Applying(pending[1..])
  }

  function Load<S>(env: Env<S>, db: Db<S>): Phase {
    var pending := PendingMigrations(env.files, Elements(db.tracked));
    if pending == [] then Unlocking(Success) else Applying(pending)
  }

  function Poll<S>(s: State<S>, i: nat, polls: nat, waitedMs: nat): State<S> {
    if s.db.lock == None then Goto(s.(db := s.db.(lock := Some(i))), i, Holding)
    else if waitedMs >= LOCK_WAIT_TIMEOUT_MS then Goto(s, i, Closing(Failed(LockTimeout)))
    else Goto(s, i, Polling(polls + 1, waitedMs + LOCK_RETRY_INTERVAL_MS))
  }

  // The server drops the session: its lock goes with it, and of the transaction
  // it was in either all is kept or nothing.
  function Disconnect<S>(env: Env<S>, s: State<S>, i: nat, committed: bool): State<S> {
    var p := PhaseOf(s, i);
    var db := if p.Applying? && p.pending != [] && committed then ApplyFile(env, s.db, p.pending[0]).0 else s.db;
    Goto(s.(db := Free(db, i)), i, Closing(Failed(LostConnection)))
  }

  function Apply<S>(env: Env<S>, s: State<S>, a: Action): State<S> {
    var p := PhaseOf(s, a.i);
    match a
    case Connects(i) => if p.Idle? then Goto(s, i, Polling(0, 0)) else s
    case Polls(i) => if p.Polling? then Poll(s, i, p.polls, p.waitedMs) else s
    case Loads(i) => if p.Holding? then Goto(s, i, Load(env, s.db)) else s
    case Applies(i) =>
      if p.Applying? && p.pending != [] then
        var (db, failure) := ApplyFile(env, s.db, p.pending[0]);
        Goto(s.(db := db), i, AfterFile(p.pending, failure))
      else s
    case Aborts(i) => if p.Holding? || p.Applying? then Goto(s, i, Unlocking(Failed(Aborted))) else s
    case Disconnects(i, committed) =>
      if p.Polling? || p.Holding? || p.Applying? || p.Unlocking? then Disconnect(env, s, i, committed) else s
    case Unlocks(i) => if p.Unlocking? then Goto(s.(db := Free(s.db, i)), i, Closing(p.outcome)) else s
    case UnlockFails(i) => if p.Unlocking? then Goto(s, i, Closing(p.outcome)) else s
    case Closes(i) => if p.Closing? then Goto(s.(db := Free(s.db, i)), i, Ended(p.outcome)) else s
    case Crashes(i) => Goto(s.(db := Free(s.db, i)), i, Crashed)
  }

  function Run<S>(env: Env<S>, start: S, actions: seq<Action>): State<S> {
    if actions == [] then State(Db([], start, None), map[])
    else Apply(env, Run(env, start, actions[..|actions| - 1]), actions[|actions| - 1])
  }

  /******* One runner on its own connection *******/

  class Client<S> {
    const env: Env<S>
    const id: nat
    var db: Db<S>

    constructor (env: Env<S>, id: nat, db: Db<S>)
      ensures this.env == env && this.id == id && this.db == db
    {
      this.env, this.id, this.db := env, id, db;
    }

    method Transact(file: Name) returns (failure: Option<Failure>)
      modifies this
      ensures db == ApplyFile(env, old(db), file).0 && failure == ApplyFile(env, old(db), file).1
    {
      var before := db;
      match env.exec(db.schema, file) {
        case Collides => return Some(Untracked(file));
        case Breaks => return Some(SqlError(file));
        case Ran(schema) =>
          db := db.(schema := schema);
          if file in db.tracked {
            db := before;
            return Some(SqlError(file));
          }
          db := db.(tracked := db.tracked + [file]);
          return None;
      }
    }

    // The loop over what is pending, with the lock held throughout.
    method ApplyMigrations() returns (outcome: Outcome)
      requires db.lock == Some(id)
      modifies this
      ensures db == AllApplied(env, old(db), PendingMigrations(env.files, Elements(old(db.tracked)))).0
      ensures outcome == AllApplied(env, old(db), PendingMigrations(env.files, Elements(old(db.tracked)))).1
    {
      var pending := PendingMigrations(env.files, Elements(db.tracked));
      var i := 0;
      while i < |pending|
        invariant 0 <= i <= |pending|
        invariant AllApplied(env, db, pending[i..]) == AllApplied(env, old(db), pending)
      {
        var failure := Transact(pending[i]);
        if failure.Some? {
          return Failed(failure.value);
        }
        assert pending[i..][1..] == pending[i + 1..];
        i := i + 1;
      }
      return Success;
    }
  }

  function AllApplied<S>(env: Env<S>, db: Db<S>, pending: seq<Name>): (Db<S>, Outcome)
    decreases |pending|
  {
    if pending == [] then (db, Success)
    else
      var (next, failure) := ApplyFile(env, db, pending[0]);
      if failure.Some? then (next, Failed(failure.value)) else AllApplied(env, next, pending[1..])
  }

  // Where a runner left alone ends up.
  ghost predicate EndsAs<S>(s: State<S>, i: nat, end: (Db<S>, Outcome)) {
    s.db == end.0 && PhaseOf(s, i) == Unlocking(end.1)
  }

  // The loop is the machine's runner taking its steps without interference.
  lemma {:induction false} LoopIsSteps<S>(env: Env<S>, s: State<S>, i: nat, pending: seq<Name>) returns (n: nat)
    requires pending != [] && PhaseOf(s, i) == Applying(pending)
    ensures n >= 1 && EndsAs(Repeat(env, s, i, n), i, AllApplied(env, s.db, pending))
    decreases |pending|
  {
    var t := Apply(env, s, Applies(i));
    var (next, failure) := ApplyFile(env, s.db, pending[0]);
    assert t.db == next && PhaseOf(t, i) == AfterFile(pending, failure);
    assert Repeat(env, s, i, 1) == Repeat(env, t, i, 0) == t;
    if failure.Some? {
      n := 1;
    } else if |pending| == 1 {
      n := 1;
      assert AllApplied(env, next, pending[1..]) == (next, Success);
    } else {
      var m := LoopIsSteps(env, t, i, pending[1..]);
      n := m + 1;
    }
  }

  function Repeat<S>(env: Env<S>, s: State<S>, i: nat, n: nat): State<S>
    decreases n
  {
    if n == 0 then s else Repeat(env, Apply(env, s, Applies(i)), i, n - 1)
  }

  /******* What every interleaving keeps *******/

  // The schema that running exactly these files in order produces.
  function Fold<S>(env: Env<S>, start: S, files: seq<Name>): Option<S> {
    if files == [] then Some(start)
    else
      var before := Fold(env, start, files[..|files| - 1]);
      if before.None? then None
      else
        var r := env.exec(before.value, files[|files| - 1]);
        if r.Ran? then Some(r.schema) else None
  }

  predicate Owns(p: Phase) {
    p.Holding? || p.Applying? || p.Unlocking?
  }

  predicate Succeeded(p: Phase) {
    (p.Unlocking? || p.Closing? || p.Ended?) && p.outcome == Success
  }

  ghost predicate RunnerOk<S>(env: Env<S>, db: Db<S>, i: nat, p: Phase) {
    && (Owns(p) ==> db.lock == Some(i))
    && (db.lock == Some(i) ==> Owns(p) || p.Closing?)
    && (p.Applying? ==> p.pending != [] && |db.tracked| <= |env.files| && p.pending == env.files[|db.tracked|..])
    && (Succeeded(p) ==> db.tracked == env.files)
    && (p.Polling? ==> p.polls <= 15 && p.waitedMs == LOCK_RETRY_INTERVAL_MS * p.polls)
  }

  ghost predicate DbOk<S>(env: Env<S>, start: S, db: Db<S>) {
    db.tracked <= env.files && Fold(env, start, db.tracked) == Some(db.schema)
  }

  ghost predicate Sound<S>(env: Env<S>, start: S, s: State<S>) {
    && DbOk(env, start, s.db)
    && (forall i: nat :: RunnerOk(env, s.db, i, PhaseOf(s, i)))
  }

  lemma LoadOk<S>(env: Env<S>, start: S, db: Db<S>, i: nat)
    requires Distinct(env.files) && DbOk(env, start, db) && db.lock == Some(i)
    ensures RunnerOk(env, db, i, Load(env, db))
  {
    var k := |db.tracked|;
    forall j | 0 <= j < |env.files|
      ensures env.files[j] in Elements(db.tracked) <==> j < k
    {
      if env.files[j] in db.tracked {
        var m :| 0 <= m < k && db.tracked[m] == env.files[j];
        assert env.files[m] == env.files[j];
      } else if j < k {
        assert db.tracked[j] == env.files[j];
      }
    }
    PendingIsRest(env.files, Elements(db.tracked), k);
  }

  // Applying the next file moves the prefix on by it, or changes nothing.
  lemma ApplyFileOk<S>(env: Env<S>, start: S, db: Db<S>, pending: seq<Name>)
    requires DbOk(env, start, db) && Distinct(env.files)
    requires pending != [] && pending == env.files[|db.tracked|..]
    ensures var (next, failure) := ApplyFile(env, db, pending[0]);
            && DbOk(env, start, next) && next.lock == db.lock
            && (failure.Some? ==> next == db)
            && (failure.None? ==>
                  next.tracked == db.tracked + [pending[0]] && pending[1..] == env.files[|next.tracked|..])
  {
    var k, file := |db.tracked|, pending[0];
    assert file == env.files[k];
    assert file !in db.tracked;
    if env.exec(db.schema, file).Ran? {
      assert (db.tracked + [file])[..k] == db.tracked;
      assert env.files[..k + 1] == env.files[..k] + [file];
    }
  }

  // A runner's own step keeps every other runner's situation, unless it moves
  // the table on, which only the lock's owner does.
  lemma OthersOk<S>(env: Env<S>, s: State<S>, t: State<S>, i: nat, j: nat)
    requires i != j && RunnerOk(env, s.db, j, PhaseOf(s, j)) && PhaseOf(t, j) == PhaseOf(s, j)
    requires s.db.tracked == t.db.tracked || (s.db.lock == Some(i) && s.db.tracked != env.files)
    requires || t.db.lock == s.db.lock
             || (s.db.lock == None && t.db.lock == Some(i))
             || (s.db.lock == Some(i) && t.db.lock == None)
    ensures RunnerOk(env, t.db, j, PhaseOf(t, j))
  {
  }

  lemma OwnerApplies<S>(env: Env<S>, start: S, s: State<S>, i: nat)
    requires Distinct(env.files) && Sound(env, start, s) && PhaseOf(s, i).Applying?
    ensures Sound(env, start, Apply(env, s, Applies(i)))
  {
    var t, p := Apply(env, s, Applies(i)), PhaseOf(s, i);
    assert RunnerOk(env, s.db, i, p);
    ApplyFileOk(env, start, s.db, p.pending);
    forall j: nat
      ensures RunnerOk(env, t.db, j, PhaseOf(t, j))
    {
      assert RunnerOk(env, s.db, j, PhaseOf(s, j));
      if j == i {
        assert t.db.tracked == s.db.tracked + [p.pending[0]] && |p.pending| == 1 ==> t.db.tracked == env.files;
      } else {
        OthersOk(env, s, t, i, j);
      }
    }
  }

  lemma DisconnectOk<S>(env: Env<S>, start: S, s: State<S>, i: nat, committed: bool)
    requires Distinct(env.files) && Sound(env, start, s)
    ensures Sound(env, start, Disconnect(env, s, i, committed))
  {
    var t, p := Disconnect(env, s, i, committed), PhaseOf(s, i);
    assert RunnerOk(env, s.db, i, p);
    if p.Applying? && p.pending != [] && committed {
      ApplyFileOk(env, start, s.db, p.pending);
    }
    forall j: nat
      ensures RunnerOk(env, t.db, j, PhaseOf(t, j))
    {
      assert RunnerOk(env, s.db, j, PhaseOf(s, j));
      if j != i {
        OthersOk(env, s, t, i, j);
      }
    }
  }

  lemma LockStepOk<S>(env: Env<S>, start: S, s: State<S>, a: Action)
    requires Distinct(env.files) && Sound(env, start, s) && !a.Applies? && !a.Disconnects?
    ensures Sound(env, start, Apply(env, s, a))
  {
    var t, i := Apply(env, s, a), a.i;
    assert RunnerOk(env, s.db, i, PhaseOf(s, i));
    if a.Loads? && PhaseOf(s, i).Holding? {
      LoadOk(env, start, s.db, i);
    }
    hide Load;
    forall j: nat
      ensures RunnerOk(env, t.db, j, PhaseOf(t, j))
    {
      assert RunnerOk(env, s.db, j, PhaseOf(s, j));
      if j != i {
        OthersOk(env, s, t, i, j);
      }
    }
  }

  lemma StepSound<S>(env: Env<S>, start: S, s: State<S>, a: Action)
    requires Distinct(env.files) && Sound(env, start, s)
    ensures Sound(env, start, Apply(env, s, a))
  {
    hide Sound, ApplyFile, AfterFile, Disconnect;
    if a.Applies? {
      if PhaseOf(s, a.i).Applying? {
        OwnerApplies(env, start, s, a.i);
      }
    } else if a.Disconnects? {
      DisconnectOk(env, start, s, a.i, a.committed);
    } else {
      LockStepOk(env, start, s, a);
    }
  }

  lemma {:induction false} AlwaysSound<S>(env: Env<S>, start: S, actions: seq<Action>)
    requires Distinct(env.files)
    ensures Sound(env, start, Run(env, start, actions))
  {
    if actions != [] {
      hide Sound, Apply;
      AlwaysSound(env, start, actions[..|actions| - 1]);
      StepSound(env, start, Run(env, start, actions[..|actions| - 1]), actions[|actions| - 1]);
    }
  }

  // Under any interleaving of runners, failures and crashes: one runner at a
  // time works, the tracked names are a prefix of the sorted files, each once,
  // and the schema is the fold of exactly those files in order.
  lemma ExactlyOnce<S>(env: Env<S>, start: S, actions: seq<Action>, i: nat, j: nat)
    requires Distinct(env.files)
    ensures var s := Run(env, start, actions);
            && (Owns(PhaseOf(s, i)) && Owns(PhaseOf(s, j)) ==> i == j)
            && s.db.tracked <= env.files
            && Distinct(s.db.tracked)
            && Fold(env, start, s.db.tracked) == Some(s.db.schema)
  {
    AlwaysSound(env, start, actions);
    var s := Run(env, start, actions);
    assert RunnerOk(env, s.db, i, PhaseOf(s, i)) && RunnerOk(env, s.db, j, PhaseOf(s, j));
    assert s.db.tracked == env.files[..|s.db.tracked|];
  }

  lemma StepGrows<S>(env: Env<S>, start: S, s: State<S>, a: Action)
    requires Distinct(env.files) && Sound(env, start, s)
    ensures s.db.tracked <= Apply(env, s, a).db.tracked
  {
  }

  // Rows are never taken back.
  lemma {:induction false} TrackedGrows<S>(env: Env<S>, start: S, actions: seq<Action>, n: nat)
    requires Distinct(env.files) && n <= |actions|
    ensures Run(env, start, actions[..n]).db.tracked <= Run(env, start, actions).db.tracked
  {
    if n == |actions| {
      assert actions[..n] == actions;
    } else {
      var before := actions[..|actions| - 1];
      assert before[..n] == actions[..n];
      TrackedGrows(env, start, before, n);
      AlwaysSound(env, start, before);
      StepGrows(env, start, Run(env, start, before), actions[|actions| - 1]);
    }
  }

  // Once any run has succeeded every file is applied, and nothing any later run
  // does changes the table or the schema: what it loads is empty.
  lemma FinishedIsFinal<S>(env: Env<S>, start: S, actions: seq<Action>, n: nat, i: nat)
    requires Distinct(env.files) && n <= |actions|
    requires Succeeded(PhaseOf(Run(env, start, actions[..n]), i))
    ensures var s, t := Run(env, start, actions[..n]).db, Run(env, start, actions).db;
            && s.tracked == t.tracked == env.files
            && s.schema == t.schema
            && Load(env, t) == Unlocking(Success)
  {
    AlwaysSound(env, start, actions[..n]);
    AlwaysSound(env, start, actions);
    TrackedGrows(env, start, actions, n);
    var s, t := Run(env, start, actions[..n]), Run(env, start, actions);
    assert RunnerOk(env, s.db, i, PhaseOf(s, i));
    assert t.db.tracked == env.files;
    LoadOk(env, start, t.db.(lock := Some(i)), i);
  }

  // A runner gives up on the lock only after its sixteenth failed poll, fifteen
  // sleeps and thirty seconds after the first; before that it polls again.
  lemma GivesUpExactly<S>(env: Env<S>, start: S, actions: seq<Action>, i: nat)
    requires Distinct(env.files) && PhaseOf(Run(env, start, actions), i).Polling?
    requires Run(env, start, actions).db.lock != None
    ensures var p := PhaseOf(Run(env, start, actions), i);
            var q := PhaseOf(Run(env, start, actions + [Polls(i)]), i);
            && p.waitedMs == LOCK_RETRY_INTERVAL_MS * p.polls
            && (q == Closing(Failed(LockTimeout)) <==> p.polls == 15)
            && (q.Polling? <==> p.polls < 15)
            && (q.Polling? ==> q.polls == p.polls + 1)
  {
    AlwaysSound(env, start, actions);
    var s := Run(env, start, actions);
    assert RunnerOk(env, s.db, i, PhaseOf(s, i));
    assert (actions + [Polls(i)])[..|actions|] == actions;
  }

  /******* What a runner achieves *******/

  // The files up to the `k`th run one after another, and no further.
  ghost predicate WorksTo<S>(env: Env<S>, start: S, k: nat) {
    && k <= |env.files| && Fold(env, start, env.files[..k]).Some?
    && (k < |env.files| ==> Fold(env, start, env.files[..k + 1]).None?)
  }

  // What happens at the file that does not run.
  ghost predicate StopsBy<S>(env: Env<S>, start: S, k: nat, outcome: Outcome) {
    if k == |env.files| then outcome == Success
    else
      k < |env.files| && Fold(env, start, env.files[..k]).Some? &&
      match env.exec(Fold(env, start, env.files[..k]).value, env.files[k])
      case Ran(_) => false
      case Collides => outcome == Failed(Untracked(env.files[k]))
      case Breaks => outcome == Failed(SqlError(env.files[k]))
  }

  lemma NextFold<S>(env: Env<S>, start: S, k: nat)
    requires k < |env.files|
    ensures Fold(env, start, env.files[..k + 1]) ==
            match Fold(env, start, env.files[..k])
            case None => None
            case Some(schema) =>
              (match env.exec(schema, env.files[k])
               case Ran(after) => Some(after)
               case _ => None)
  {
    assert env.files[..k + 1][..k] == env.files[..k];
  }

  // The loop over what is pending applies exactly the files that run.
  lemma {:induction false} LoopExactly<S>(env: Env<S>, start: S, db: Db<S>, pending: seq<Name>) returns (k: nat)
    requires DbOk(env, start, db) && Distinct(env.files) && pending == env.files[|db.tracked|..]
    ensures WorksTo(env, start, k)
    ensures var end := AllApplied(env, db, pending);
            && end.0.tracked == env.files[..k] && Fold(env, start, env.files[..k]) == Some(end.0.schema)
            && end.0.lock == db.lock && StopsBy(env, start, k, end.1)
    decreases |pending|
  {
    var n := |db.tracked|;
    assert db.tracked == env.files[..n];
    if pending == [] {
      k := n;
    } else {
      NextFold(env, start, n);
      var (next, failure) := ApplyFile(env, db, pending[0]);
      NotTracked(env, db);
      if failure.Some? {
        k := n;
      } else {
        assert next.tracked == env.files[..n + 1];
        k := LoopExactly(env, start, next, pending[1..]);
      }
    }
  }

  lemma NotTracked<S>(env: Env<S>, db: Db<S>)
    requires Distinct(env.files) && db.tracked <= env.files && |db.tracked| < |env.files|
    ensures env.files[|db.tracked|] !in db.tracked
  {
  }

  function Times<T>(a: T, n: nat): seq<T> {
    if n == 0 then [] else Times(a, n - 1) + [a]
  }

  // One runner from its connection to its end, undisturbed.
  function LoneRun(i: nat, n: nat): seq<Action> {
    [Connects(i), Polls(i), Loads(i)] + Times(Applies(i), n) + [Unlocks(i), Closes(i)]
  }

  lemma {:induction false} RunMore<S>(env: Env<S>, start: S, actions: seq<Action>, a: Action)
    ensures Run(env, start, actions + [a]) == Apply(env, Run(env, start, actions), a)
  {
    assert (actions + [a])[..|actions|] == actions;
  }

  lemma {:induction false} RunTimes<S>(env: Env<S>, start: S, actions: seq<Action>, i: nat, n: nat)
    ensures Run(env, start, actions + Times(Applies(i), n)) == Repeat(env, Run(env, start, actions), i, n)
  {
    if n == 0 {
      assert actions + [] == actions;
    } else {
      RunTimes(env, start, actions, i, n - 1);
      assert actions + Times(Applies(i), n) == actions + Times(Applies(i), n - 1) + [Applies(i)];
      RunMore(env, start, actions + Times(Applies(i), n - 1), Applies(i));
      RepeatLast(env, Run(env, start, actions), i, n - 1);
    }
  }

  lemma {:induction false} RepeatLast<S>(env: Env<S>, s: State<S>, i: nat, n: nat)
    ensures Repeat(env, s, i, n + 1) == Apply(env, Repeat(env, s, i, n), Applies(i))
    decreases n
  {
    hide Apply;
    if n > 0 {
      RepeatLast(env, Apply(env, s, Applies(i)), i, n - 1);
    } else {
      assert Repeat(env, s, i, 1) == Repeat(env, Apply(env, s, Applies(i)), i, 0);
    }
  }

  function Connected<S>(env: Env<S>, s: State<S>, i: nat): State<S> {
    Apply(env, Apply(env, Apply(env, s, Connects(i)), Polls(i)), Loads(i))
  }

  lemma LoneRunSteps<S>(env: Env<S>, start: S, actions: seq<Action>, i: nat, n: nat)
    ensures Run(env, start, actions + LoneRun(i, n)) ==
            var worked := Repeat(env, Connected(env, Run(env, start, actions), i), i, n);
            Apply(env, Apply(env, worked, Unlocks(i)), Closes(i))
  {
    hide Apply, Run, Repeat;
    var loaded := actions + [Connects(i)] + [Polls(i)] + [Loads(i)];
    RunMore(env, start, actions, Connects(i));
    RunMore(env, start, actions + [Connects(i)], Polls(i));
    RunMore(env, start, actions + [Connects(i)] + [Polls(i)], Loads(i));
    var worked := loaded + Times(Applies(i), n);
    RunTimes(env, start, loaded, i, n);
    RunMore(env, start, worked, Unlocks(i));
    RunMore(env, start, worked + [Unlocks(i)], Closes(i));
    assert actions + LoneRun(i, n) == worked + [Unlocks(i)] + [Closes(i)];
  }

  // Whatever happened before, a runner that connects while the lock is free and is
  // left alone ends with exactly the files applied that run one after another:
  // with success if those are all, and else with the kind of the first failure. It
  // leaves the lock free.
  lemma LoneRunner<S>(env: Env<S>, start: S, actions: seq<Action>, i: nat) returns (n: nat, k: nat, outcome: Outcome)
    requires Distinct(env.files)
    requires Run(env, start, actions).db.lock == None && PhaseOf(Run(env, start, actions), i).Idle?
    ensures WorksTo(env, start, k) && StopsBy(env, start, k, outcome)
    ensures var t := Run(env, start, actions + LoneRun(i, n));
            && PhaseOf(t, i) == Ended(outcome) && t.db.lock == None
            && t.db.tracked == env.files[..k] && Fold(env, start, env.files[..k]) == Some(t.db.schema)
  {
    var s := Run(env, start, actions);
    AlwaysSound(env, start, actions);
    hide Apply, Run, Repeat, Sound, Fold, WorksTo, StopsBy;
    var l := Connected(env, s, i);
    LoadsRest(env, start, s, i, l);
    n, k, outcome := WorksThrough(env, start, l, i);
    LoneRunSteps(env, start, actions, i, n);
    Leaves(env, Repeat(env, l, i, n), i, outcome);
  }

  lemma LoadsRest<S>(env: Env<S>, start: S, s: State<S>, i: nat, l: State<S>)
    requires Distinct(env.files) && Sound(env, start, s) && s.db.lock == None && PhaseOf(s, i).Idle?
    requires l == Connected(env, s, i)
    ensures DbOk(env, start, l.db) && l.db == s.db.(lock := Some(i))
    ensures PhaseOf(l, i) == if |l.db.tracked| == |env.files| then Unlocking(Success)
                             else Applying(env.files[|l.db.tracked|..])
  {
    LoadOk(env, start, s.db.(lock := Some(i)), i);
  }

  lemma WorksThrough<S>(env: Env<S>, start: S, l: State<S>, i: nat) returns (n: nat, k: nat, outcome: Outcome)
    requires Distinct(env.files) && DbOk(env, start, l.db) && l.db.lock == Some(i)
    requires PhaseOf(l, i) == if |l.db.tracked| == |env.files| then Unlocking(Success)
                              else Applying(env.files[|l.db.tracked|..])
    ensures WorksTo(env, start, k) && StopsBy(env, start, k, outcome)
    ensures var t := Repeat(env, l, i, n);
            && PhaseOf(t, i) == Unlocking(outcome) && t.db.lock == Some(i)
            && t.db.tracked == env.files[..k] && Fold(env, start, env.files[..k]) == Some(t.db.schema)
  {
    var pending := env.files[|l.db.tracked|..];
    k := LoopExactly(env, start, l.db, pending);
    outcome := AllApplied(env, l.db, pending).1;
    if pending == [] {
      n := 0;
    } else {
      n := LoopIsSteps(env, l, i, pending);
    }
  }

  lemma Leaves<S>(env: Env<S>, s: State<S>, i: nat, outcome: Outcome)
    requires PhaseOf(s, i) == Unlocking(outcome) && s.db.lock == Some(i)
    ensures var t := Apply(env, Apply(env, s, Unlocks(i)), Closes(i));
            PhaseOf(t, i) == Ended(outcome) && t.db == s.db.(lock := None)
  {
  }
}

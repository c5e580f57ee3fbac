// The job_step table and the approval claims made against it. Every operation
// on the table is one transaction.
module JobStep {
  import opened Prelude

  // Job and step ids are uuids, which the database compares by value: two
  // spellings that differ in the case of their digits are one id.
  function LowerDigit(c: char): char {
    if 'A' <= c <= 'F' then (c as int + 32) as char else c
  }

  function Uuid(s: string): string {
    seq(|s|, i requires 0 <= i < |s| => LowerDigit(s[i]))
  }

  // Equal but for the case of a digit.
  predicate SameDigit(c: char, d: char) {
    c == d || ('A' <= c <= 'F' && d as int == c as int + 32) || ('A' <= d <= 'F' && c as int == d as int + 32)
  }

  lemma UuidExactly(a: string, b: string)
    ensures Uuid(a) == Uuid(b) <==> |a| == |b| && forall i :: 0 <= i < |a| ==> SameDigit(a[i], b[i])
  {
    if Uuid(a) == Uuid(b) {
      forall i | 0 <= i < |a|
        ensures SameDigit(a[i], b[i])
      {
        assert Uuid(a)[i] == Uuid(b)[i];
      }
    }
  }

  datatype RowKey = RowKey(job: string, step: string)

  function KeyOf(job: string, step: string): RowKey {
    RowKey(Uuid(job), Uuid(step))
  }

  function Targets(job: string, stepIds: seq<string>): seq<RowKey> {
    seq(|stepIds|, i requires 0 <= i < |stepIds| => KeyOf(job, stepIds[i]))
  }

  datatype ApprovalState = Unset | Pending | Consumed

  datatype Row = Row(approval: ApprovalState, consumedAt: Option<real>, tokens: int)

  type Table = map<RowKey, Row>

  /******* What each transaction does *******/

  function Register(t: Table, job: string, step: string): Table {
    if KeyOf(job, step) in t then t else t[KeyOf(job, step) := Row(Pending, None, 0)]
  }

  function RecordUsage(t: Table, job: string, step: string, tokens: int): Table {
    var k := KeyOf(job, step);
    t[k := if k in t then t[k].(tokens := tokens) else Row(Unset, None, tokens)]
  }

  function UsageRows(t: Table, job: string): map<RowKey, int> {
    map k | k in t && k.job == Uuid(job) :: t[k].tokens
  }

  ghost function SumValues<K>(m: map<K, int>): int
    decreases |m|
  {
    if m == map[] then 0 else
      var k :| k in m;
      m[k] + SumValues(m - {k})
  }

  function Matching(t: Table, job: string, stepIds: seq<string>): set<RowKey> {
    set k | k in t && k in Targets(job, stepIds) && t[k].approval == Pending
  }

  function Consume(t: Table, keys: set<RowKey>, at: real): Table {
    map k | k in t :: if k in keys then t[k].(approval := Consumed, consumedAt := Some(at)) else t[k]
  }

  datatype ClaimResult = ClaimResult(rowCount: nat, totalTokens: int)

  // All or nothing: a partial match is rolled back.
  function ClaimedTable(t: Table, job: string, stepIds: seq<string>, at: real): Table {
    var keys := Matching(t, job, stepIds);
    if |keys| == |stepIds| then Consume(t, keys, at) else t
  }

  ghost function ClaimReport(t: Table, job: string, stepIds: seq<string>): ClaimResult {
    if stepIds == [] then ClaimResult(0, 0)
    else ClaimResult(|Matching(t, job, stepIds)|, SumValues(UsageRows(t, job)))
  }

  /******* Deciding a claim *******/

  datatype ApprovalDecision = ApprovalDecision(toolCallId: string, approve: bool, args: Option<string>)

  datatype Shape = Single | Set

  datatype Outcome = Claimed(decisions: seq<ApprovalDecision>) | NotClaimable(submittedAs: Shape) | BudgetExceeded

  function StepIds(decisions: seq<ApprovalDecision>): seq<string> {
    seq(|decisions|, i requires 0 <= i < |decisions| => decisions[i].toolCallId)
  }

  function Judge(decisions: seq<ApprovalDecision>, submittedAs: Shape, report: ClaimResult, budget: int): Outcome {
    if report.rowCount != |decisions| then NotClaimable(submittedAs)
    else if report.totalTokens >= budget then BudgetExceeded
    else Claimed(decisions)
  }

  // The first id that repeats an earlier one, if any does.
  method FindDuplicateTarget(decisions: seq<ApprovalDecision>) returns (r: Option<string>)
    ensures r.None? <==> Distinct(StepIds(decisions))
    ensures r.Some? ==>
              exists j :: 0 <= j < |decisions| && decisions[j].toolCallId == r.value
                          && r.value in StepIds(decisions[..j]) && Distinct(StepIds(decisions[..j]))
  {
    var seen: set<string> := {};
    for i := 0 to |decisions|
      invariant seen == Elements(StepIds(decisions[..i]))
      invariant Distinct(StepIds(decisions[..i]))
    {
      var id := decisions[i].toolCallId;
      if id in seen {
        var k :| 0 <= k < i && StepIds(decisions[..i])[k] == id;
        assert StepIds(decisions)[k] == StepIds(decisions)[i];
        return Some(id);
      }
      assert StepIds(decisions[..i + 1]) == StepIds(decisions[..i]) + [id];
      seen := seen + {id};
    }
    assert decisions[..|decisions|] == decisions;
    return None;
  }

  /******* The store *******/

  class JobStepStore {
    var rows: Table

    constructor ()
      ensures rows == map[]
    {
      rows := map[];
    }

    method RegisterPending(job: string, step: string)
      modifies this
      ensures rows == Register(old(rows), job, step)
    {
      if KeyOf(job, step) !in rows {
        rows := rows[KeyOf(job, step) := Row(Pending, None, 0)];
      }
    }

    method RecordStepUsage(job: string, step: string, tokens: int)
      modifies this
      ensures rows == RecordUsage(old(rows), job, step, tokens)
    {
      var k := KeyOf(job, step);
      if k in rows {
        rows := rows[k := rows[k].(tokens := tokens)];
      } else {
        rows := rows[k := Row(Unset, None, tokens)];
      }
    }

    // The aggregate over one job's rows, in whatever order they are scanned.
    method SumTokens(job: string) returns (total: int)
      ensures total == SumValues(UsageRows(rows, job))
    {
      total := 0;
      var left := UsageRows(rows, job);
      while left != map[]
        invariant total + SumValues(left) == SumValues(UsageRows(rows, job))
        decreases |left|
      {
        var k :| k in left;
        SumPick(left, k);
        total := total + left[k];
        left := left - {k};
      }
    }

    method ClaimPending(job: string, stepIds: seq<string>, at: real) returns (report: ClaimResult)
      modifies this
      ensures report == ClaimReport(old(rows), job, stepIds)
      ensures rows == ClaimedTable(old(rows), job, stepIds, at)
    {
      if |stepIds| == 0 {
        assert Matching(rows, job, stepIds) == {};
        assert Consume(rows, {}, at) == rows;
        return ClaimResult(0, 0);
      }
      var before := rows;
      var total := SumTokens(job);
      var keys := Matching(rows, job, stepIds);
      rows := Consume(rows, keys, at);
      if |keys| != |stepIds| {
        rows := before;
      }
      return ClaimResult(|keys|, total);
    }

    method ClaimApprovalTargets(job: string, decisions: seq<ApprovalDecision>, submittedAs: Shape, budget: int,
                                at: real)
      returns (outcome: Outcome)
      modifies this
      ensures rows == ClaimedTable(old(rows), job, StepIds(decisions), at)
      ensures outcome == Judge(decisions, submittedAs, ClaimReport(old(rows), job, StepIds(decisions)), budget)
    {
      var report := ClaimPending(job, StepIds(decisions), at);
      if report.rowCount != |decisions| {
        return NotClaimable(submittedAs);
      }
      if report.totalTokens >= budget {
        return BudgetExceeded;
      }
      return Claimed(decisions);
    }
  }

  // The sum does not depend on the order of the rows.
  lemma {:induction false} SumPick<K>(m: map<K, int>, k: K)
    requires k in m
    ensures SumValues(m) == m[k] + SumValues(m - {k})
    decreases |m|
  {
    var j :| j in m && SumValues(m) == m[j] + SumValues(m - {j});
    if j != k {
      SumPick(m - {j}, k);
      SumPick(m - {k}, j);
      assert m - {j} - {k} == m - {k} - {j};
    }
  }

  /******* One claim *******/

  ghost predicate AllPending(t: Table, keys: seq<RowKey>) {
    forall k :: k in keys ==> k in t && t[k].approval == Pending
  }

  // A claim takes its whole set exactly when no id repeats, in any spelling, and
  // every one is pending; otherwise it changes nothing.
  lemma ClaimAllOrNothing(t: Table, job: string, stepIds: seq<string>, at: real)
    ensures var keys, after := Targets(job, stepIds), ClaimedTable(t, job, stepIds, at);
            var full := ClaimReport(t, job, stepIds).rowCount == |stepIds|;
            && (full <==> Distinct(keys) && AllPending(t, keys))
            && after.Keys == t.Keys
            && (forall k :: k in t && k in keys && full ==> after[k] == Row(Consumed, Some(at), t[k].tokens))
            && (forall k :: k in t && !(k in keys && full) ==> after[k] == t[k])
  {
    var keys, found := Targets(job, stepIds), Matching(t, job, stepIds);
    DistinctCardinality(keys);
    assert found <= Elements(keys);
    if |found| == |stepIds| {
      SameSize(found, Elements(keys));
      forall k | k in keys
        ensures k in t && t[k].approval == Pending
      {
        assert k in Elements(keys);
      }
    }
    if Distinct(keys) && AllPending(t, keys) {
      assert found == Elements(keys);
    }
  }

  lemma SameSize<T>(a: set<T>, b: set<T>)
    requires a <= b && |a| >= |b|
    ensures a == b
  {
    if x :| x in b && x !in a {
      assert a <= b - {x};
      Smaller(a, b - {x});
    }
  }

  lemma {:induction false} Smaller<T>(a: set<T>, b: set<T>)
    requires a <= b
    ensures |a| <= |b|
  {
    if a != {} {
      var x :| x in a;
      Smaller(a - {x}, b - {x});
    }
  }

  /******* Any interleaving of transactions *******/

  datatype Action =
    | Registers(job: string, step: string)
    | Uses(job: string, step: string, tokens: int)
    | Claims(job: string, decisions: seq<ApprovalDecision>, submittedAs: Shape, budget: int, at: real)

  // What one claim asked for, and what it was told.
  datatype Attempt = Attempt(
    request: seq<ApprovalDecision>,
    submittedAs: Shape,
    keys: seq<RowKey>,
    report: ClaimResult,
    outcome: Outcome)

  datatype World = World(table: Table, attempts: seq<Attempt>)

  ghost function Apply(w: World, a: Action): World {
    match a
    case Registers(job, step) => w.(table := Register(w.table, job, step))
    case Uses(job, step, tokens) => w.(table := RecordUsage(w.table, job, step, tokens))
    case Claims(job, decisions, submittedAs, budget, at) =>
      var ids := StepIds(decisions);
      var report := ClaimReport(w.table, job, ids);
      World(ClaimedTable(w.table, job, ids, at),
            w.attempts + [Attempt(decisions, submittedAs, Targets(job, ids), report,
                                  Judge(decisions, submittedAs, report, budget))])
  }

  ghost function Run(actions: seq<Action>): World {
    if actions == [] then World(map[], [])
    else Apply(Run(actions[..|actions| - 1]), actions[|actions| - 1])
  }

  predicate Full(a: Attempt) {
    a.report.rowCount == |a.keys|
  }

  // No step is in two full claims, and what a full claim took is consumed.
  ghost predicate OnceOnly(w: World) {
    && (forall i, k :: 0 <= i < |w.attempts| && Full(w.attempts[i]) && k in w.attempts[i].keys ==>
          k in w.table && w.table[k].approval == Consumed)
    && (forall i :: 0 <= i < |w.attempts| && Full(w.attempts[i]) ==> Distinct(w.attempts[i].keys))
    && (forall i, j, k :: 0 <= i < j < |w.attempts| && Full(w.attempts[i]) && Full(w.attempts[j]) ==>
          !(k in w.attempts[i].keys && k in w.attempts[j].keys))
  }

  // Consumed is for ever, with the moment it was consumed.
  ghost predicate Progresses(before: Table, after: Table) {
    forall k :: k in before ==>
      && k in after
      && (before[k].approval == Consumed ==>
            after[k].approval == Consumed && after[k].consumedAt == before[k].consumedAt)
      && (before[k].approval == Pending ==> after[k].approval != Unset)
      && (before[k].approval == Unset ==> after[k].approval == Unset)
  }

  lemma StepProgresses(w: World, a: Action)
    ensures Progresses(w.table, Apply(w, a).table)
  {
    if a.Claims? {
      ClaimAllOrNothing(w.table, a.job, StepIds(a.decisions), a.at);
    }
  }

  lemma StepOnceOnly(w: World, a: Action)
    requires OnceOnly(w)
    ensures OnceOnly(Apply(w, a))
  {
    var w' := Apply(w, a);
    StepProgresses(w, a);
    if a.Claims? {
      ClaimAllOrNothing(w.table, a.job, StepIds(a.decisions), a.at);
      var last := w'.attempts[|w.attempts|];
      assert Full(last) ==> AllPending(w.table, last.keys);
      assert forall i :: 0 <= i < |w.attempts| ==> w'.attempts[i] == w.attempts[i];
    }
  }

  lemma {:induction false} AlwaysOnceOnly(actions: seq<Action>)
    ensures OnceOnly(Run(actions))
  {
    if actions != [] {
      AlwaysOnceOnly(actions[..|actions| - 1]);
      StepOnceOnly(Run(actions[..|actions| - 1]), actions[|actions| - 1]);
    }
  }

  lemma {:induction false} ConsumedForEver(actions: seq<Action>, n: nat)
    requires n <= |actions|
    ensures Progresses(Run(actions[..n]).table, Run(actions).table)
    ensures Run(actions[..n]).attempts <= Run(actions).attempts
    decreases |actions| - n
  {
    if n == |actions| {
      assert actions[..n] == actions;
    } else {
      ConsumedForEver(actions, n + 1);
      assert actions[..n + 1][..n] == actions[..n];
      StepProgresses(Run(actions[..n]), actions[n]);
    }
  }

  // Consume once. Over any interleaving, two fully matched claims have no step
  // in common, none of them repeats one, and every other claim is refused.
  lemma ConsumeOnce(actions: seq<Action>, i: nat, j: nat)
    requires i < j < |Run(actions).attempts|
    ensures var a, b := Run(actions).attempts[i], Run(actions).attempts[j];
            && (Full(a) ==> Distinct(a.keys))
            && (Full(a) && (exists k :: k in a.keys && k in b.keys) ==> !Full(b))
  {
    AlwaysOnceOnly(actions);
  }

  // What each attempt was told: a claim that is granted carries the request's own
  // decisions, approvals, refusals and arguments as they were sent, for steps it
  // has taken; one that is not carries the shape of its request.
  ghost predicate Told(a: Attempt) {
    && |a.keys| == |a.request|
    && (a.outcome.Claimed? ==> Full(a) && a.outcome.decisions == a.request)
    && (a.outcome.BudgetExceeded? ==> Full(a))
    && (a.outcome.NotClaimable? <==> !Full(a))
    && (a.outcome.NotClaimable? ==> a.outcome.submittedAs == a.submittedAs)
  }

  lemma {:induction false} AlwaysTold(actions: seq<Action>)
    ensures forall a :: a in Run(actions).attempts ==> Told(a)
  {
    if actions != [] {
      AlwaysTold(actions[..|actions| - 1]);
    }
  }

  // Every claim is answered, in order, and it is its own request that the answer
  // is about.
  lemma {:induction false} AnswersInOrder(actions: seq<Action>)
    ensures forall i :: 0 <= i < |actions| && actions[i].Claims? ==>
              && 0 <= ClaimsIn(actions[..i]) < |Run(actions).attempts|
              && Run(actions).attempts[ClaimsIn(actions[..i])].request == actions[i].decisions
              && Run(actions).attempts[ClaimsIn(actions[..i])].submittedAs == actions[i].submittedAs
    ensures |Run(actions).attempts| == ClaimsIn(actions)
  {
    if actions != [] {
      var before, a := actions[..|actions| - 1], actions[|actions| - 1];
      AnswersInOrder(before);
      forall i | 0 <= i < |actions| && actions[i].Claims?
        ensures && 0 <= ClaimsIn(actions[..i]) < |Run(actions).attempts|
                && Run(actions).attempts[ClaimsIn(actions[..i])].request == actions[i].decisions
                && Run(actions).attempts[ClaimsIn(actions[..i])].submittedAs == actions[i].submittedAs
      {
        if i < |before| {
          assert actions[..i] == before[..i] && before[i] == actions[i];
        } else {
          assert actions[..i] == before;
        }
      }
    }
  }

  function ClaimsIn(actions: seq<Action>): nat {
    if actions == [] then 0
    else ClaimsIn(actions[..|actions| - 1]) + if actions[|actions| - 1].Claims? then 1 else 0
  }

  // A consumed row was taken by a claim.
  lemma {:induction false} ConsumedByClaim(actions: seq<Action>, k: RowKey)
    requires k in Run(actions).table && Run(actions).table[k].approval == Consumed
    ensures exists i :: 0 <= i < |Run(actions).attempts| && Full(Run(actions).attempts[i])
                        && k in Run(actions).attempts[i].keys
  {
    var before, a := actions[..|actions| - 1], actions[|actions| - 1];
    var w, w' := Run(before), Run(actions);
    if k in w.table && w.table[k].approval == Consumed {
      ConsumedByClaim(before, k);
      var i :| 0 <= i < |w.attempts| && Full(w.attempts[i]) && k in w.attempts[i].keys;
      assert w'.attempts[i] == w.attempts[i];
    } else if a.Claims? {
      ClaimAllOrNothing(w.table, a.job, StepIds(a.decisions), a.at);
      assert Full(w'.attempts[|w.attempts|]) && k in w'.attempts[|w.attempts|].keys;
    }
  }

  // The budget gate cannot be passed by asking again: once any of these steps
  // was refused for the budget, no later request naming it is ever claimed.
  lemma BudgetRefusalIsFinal(actions: seq<Action>, i: nat, j: nat)
    requires i < j < |Run(actions).attempts|
    requires Run(actions).attempts[i].outcome.BudgetExceeded?
    requires exists k :: k in Run(actions).attempts[i].keys && k in Run(actions).attempts[j].keys
    ensures Run(actions).attempts[j].outcome.NotClaimable?
  {
    var w := Run(actions);
    AlwaysTold(actions);
    assert Told(w.attempts[i]) && Told(w.attempts[j]);
    ConsumeOnce(actions, i, j);
  }

  /******* The reported total *******/

  // The last usage recorded for each step of `job`, told from the history alone;
  // a step that was only registered has spent nothing.
  function LastUsage(actions: seq<Action>, job: string): map<RowKey, int> {
    if actions == [] then map[]
    else
      var before, a := LastUsage(actions[..|actions| - 1], job), actions[|actions| - 1];
      match a
      case Registers(j, step) =>
        if Uuid(j) == Uuid(job) && KeyOf(j, step) !in before then before[KeyOf(j, step) := 0] else before
      case Uses(j, step, tokens) =>
        if Uuid(j) == Uuid(job) then before[KeyOf(j, step) := tokens] else before
      case Claims(_, _, _, _, _) => before
  }

  lemma {:induction false} UsageIsLast(actions: seq<Action>, job: string)
    ensures UsageRows(Run(actions).table, job) == LastUsage(actions, job)
  {
    hide Uuid, Judge;
    if actions != [] {
      var before, a := actions[..|actions| - 1], actions[|actions| - 1];
      UsageIsLast(before, job);
      if a.Claims? {
        ClaimAllOrNothing(Run(before).table, a.job, StepIds(a.decisions), a.at);
      }
    }
  }

  // The total a claim reports is the sum of each step's last recorded usage
  // exactly when the request names a step or there is nothing to sum: for an
  // empty request the store answers zero without looking.
  lemma ReportedTotal(actions: seq<Action>, job: string, stepIds: seq<string>)
    ensures ClaimReport(Run(actions).table, job, stepIds).totalTokens == SumValues(LastUsage(actions, job))
            <==> stepIds != [] || SumValues(LastUsage(actions, job)) == 0
  {
    UsageIsLast(actions, job);
  }

  // The input that makes the unconditional claim false: an empty request
  // against a job over its budget is reported as claimed.
  lemma EmptyRequestSeesNoSpending(job: string, step: string)
    ensures var actions := [Uses(job, step, 7)];
            && SumValues(LastUsage(actions, job)) == 7
            && ClaimReport(Run(actions).table, job, []).totalTokens == 0
            && Judge([], Set, ClaimReport(Run(actions).table, job, []), 5).Claimed?
  {
    var actions := [Uses(job, step, 7)];
    assert actions[..0] == [];
    assert LastUsage(actions, job) == map[KeyOf(job, step) := 7];
    var m := map[KeyOf(job, step) := 7];
    SumPick(m, KeyOf(job, step));
    assert m - {KeyOf(job, step)} == map[];
  }

  // When a request is claimed, over every history.
  lemma ClaimedExactly(actions: seq<Action>, job: string, decisions: seq<ApprovalDecision>, submittedAs: Shape,
                       budget: int)
    ensures var t := Run(actions).table;
            var keys := Targets(job, StepIds(decisions));
            var spent := if decisions == [] then 0 else SumValues(LastUsage(actions, job));
            var outcome := Judge(decisions, submittedAs, ClaimReport(t, job, StepIds(decisions)), budget);
            && |keys| == |decisions| && (forall i :: 0 <= i < |keys| ==> keys[i] == KeyOf(job, decisions[i].toolCallId))
            && (outcome.Claimed? <==> Distinct(keys) && AllPending(t, keys) && spent < budget)
            && (outcome.BudgetExceeded? <==> Distinct(keys) && AllPending(t, keys) && spent >= budget)
  {
    UsageIsLast(actions, job);
    ClaimAllOrNothing(Run(actions).table, job, StepIds(decisions), 0.0);
  }

  /******* Where pending comes from *******/

  predicate Touches(a: Action, k: RowKey) {
    (a.Registers? || a.Uses?) && KeyOf(a.job, a.step) == k
  }

  // The first transaction that wrote the step's row.
  function FirstTouch(actions: seq<Action>, k: RowKey): Option<Action> {
    if actions == [] then None
    else
      var earlier, a := FirstTouch(actions[..|actions| - 1], k), actions[|actions| - 1];
      if earlier.Some? then earlier else if Touches(a, k) then Some(a) else None
  }

  // A step can be claimed only if it was registered before its usage was first
  // recorded; a usage that comes first leaves it out of every claim for ever.
  lemma {:induction false} RegisteredFirst(actions: seq<Action>, k: RowKey)
    ensures var t := Run(actions).table;
            && (k in t <==> FirstTouch(actions, k).Some?)
            && (k in t ==> (t[k].approval == Unset <==> FirstTouch(actions, k).value.Uses?))
  {
    if actions != [] {
      var before, a := actions[..|actions| - 1], actions[|actions| - 1];
      RegisteredFirst(before, k);
      if a.Claims? {
        ClaimAllOrNothing(Run(before).table, a.job, StepIds(a.decisions), a.at);
      }
    }
  }
}

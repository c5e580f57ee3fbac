// How a job's options become the supervisor's: which steps wait for approval,
// and when that covers every body of a flagged kind.
module RunJob {
  import opened Prelude
  import opened Specialists
  import opened Supervisor
  import opened DurableRun

  // The two ways to flag a step, each optional, and what is handed on as it is.
  datatype Options = Options(
    requiresApproval: Option<string -> bool>,
    requiresApprovalForKind: Option<Kind -> bool>,
    isUuid: UuidCheck,
    gateConfigured: bool,
    hasStore: bool,
    verify: bool)

  predicate IdFlagged(o: Options, id: string) {
    o.requiresApproval.Some? && o.requiresApproval.value(id)
  }

  predicate KindFlagged(o: Options, kind: Kind) {
    o.requiresApprovalForKind.Some? && o.requiresApprovalForKind.value(kind)
  }

  // The kinds by step id: a later entry replaces an earlier one.
  function StepKindById(plan: Plan): map<string, Kind> {
    if plan == [] then map[]
    else
      var last := plan[|plan| - 1];
      StepKindById(plan[..|plan| - 1])[last.id := KindOf(last.task)]
  }

  function EffectiveRequiresApproval(o: Options, plan: Plan): string -> bool {
    var kinds := StepKindById(plan);
    (id: string) => IdFlagged(o, id) || (id in kinds && KindFlagged(o, kinds[id]))
  }

  function Resolve(o: Options, plan: Plan): Config {
    Config(o.isUuid, EffectiveRequiresApproval(o, plan), o.gateConfigured, o.hasStore, o.verify)
  }

  predicate IsLast(plan: Plan, j: nat)
    requires j < |plan|
  {
    forall k :: j < k < |plan| ==> plan[k].id != plan[j].id
  }

  lemma {:induction false} LastEntryWins(plan: Plan, j: nat)
    requires j < |plan| && IsLast(plan, j)
    ensures plan[j].id in StepKindById(plan) && StepKindById(plan)[plan[j].id] == KindOf(plan[j].task)
  {
    if j < |plan| - 1 {
      var rest := plan[..|plan| - 1];
      assert plan[|plan| - 1].id != plan[j].id;
      assert IsLast(rest, j);
      LastEntryWins(rest, j);
    }
  }

  lemma {:induction false} LastOf(plan: Plan, i: nat) returns (j: nat)
    requires i < |plan|
    ensures j < |plan| && plan[j].id == plan[i].id && IsLast(plan, j)
    decreases |plan| - i
  {
    if IsLast(plan, i) {
      j := i;
    } else {
      var k :| i < k < |plan| && plan[k].id == plan[i].id;
      j := LastOf(plan, k);
    }
  }

  /******* When flagged kinds are covered *******/

  // The step is reached: no step before it waits for a gate that is not there.
  predicate Reachable(o: Options, plan: Plan, i: nat)
    requires i <= |plan|
  {
    o.gateConfigured || forall k :: 0 <= k < i ==> !EffectiveRequiresApproval(o, plan)(plan[k].id)
  }

  // The first step with its id, the only one whose body can run, is of a flagged
  // kind; then so is its id or the last step with that id.
  predicate Covered(o: Options, plan: Plan, i: nat, j: nat)
    requires i < |plan| && j < |plan|
  {
    IsFirst(plan, i) && IsLast(plan, j) && plan[i].id == plan[j].id
    && KindFlagged(o, KindOf(plan[i].task)) && Reachable(o, plan, i) ==>
      IdFlagged(o, plan[i].id) || KindFlagged(o, KindOf(plan[j].task))
  }

  ghost predicate Approved(eng: Engine, c: Call) {
    && c.decision.Some? && c.decision.value.approved
    && c.id in eng.decisions && eng.decisions[c.id] == c.decision
  }

  // In every history each body of a flagged kind runs with its recorded approval.
  ghost predicate FlaggedKindsApproved(o: Options, plan: Plan) {
    forall scripts, c :: c in Runs(Resolve(o, plan), plan, scripts).calls && KindFlagged(o, KindOf(c.input)) ==>
                           Approved(Runs(Resolve(o, plan), plan, scripts).engine, c)
  }

  // Exactly when flagging a kind is enough.
  lemma FlaggedKindsApprovedExactly(o: Options, plan: Plan)
    ensures FlaggedKindsApproved(o, plan) <==>
            forall i, j :: 0 <= i < |plan| && 0 <= j < |plan| ==> Covered(o, plan, i, j)
  {
    hide Runs, IsFirst, IsLast, Reachable, EffectiveRequiresApproval;
    if forall i, j :: 0 <= i < |plan| && 0 <= j < |plan| ==> Covered(o, plan, i, j) {
      forall scripts, c | c in Runs(Resolve(o, plan), plan, scripts).calls && KindFlagged(o, KindOf(c.input))
        ensures Approved(Runs(Resolve(o, plan), plan, scripts).engine, c)
      {
        CoveredBodyApproved(o, plan, scripts, c);
      }
    }
    if FlaggedKindsApproved(o, plan) {
      forall i, j | 0 <= i < |plan| && 0 <= j < |plan|
        ensures Covered(o, plan, i, j)
      {
        if !Covered(o, plan, i, j) {
          UncoveredNotApproved(o, plan, i, j);
        }
      }
    }
  }

  /******* Covered kinds are approved *******/

  // Where the engine has no gate, a run gets as far as the first flagged step.
  ghost predicate Unblocked(cfg: Config, plan: Plan, p: Progress, n: nat) {
    && n <= |plan|
    && (p.status == Going ==> forall k :: 0 <= k < n ==> !cfg.requiresApproval(plan[k].id))
    && (forall c :: c in p.calls ==> RunsUnblocked(cfg, plan, c))
  }

  ghost predicate RunsUnblocked(cfg: Config, plan: Plan, c: Call) {
    exists n: nat :: n < |plan| && plan[n].id == c.id
                     && forall k :: 0 <= k <= n ==> !cfg.requiresApproval(plan[k].id)
  }

  lemma NoGateNoPass(cfg: Config, p: Progress, step: PlannedStep, b: Behaviour)
    requires !cfg.gateConfigured && p.status == Going
    ensures var q := DispatchStep(cfg, p, step, Some(b));
            && (cfg.requiresApproval(step.id) ==> q.status != Going && q.calls == p.calls)
            && (q.calls == p.calls || exists c: Call :: c.id == step.id && q.calls == p.calls + [c])
  {
    var task := GiveHandoff(step.task, p.handoff);
    DispatchFacts(cfg, p, step, b);
    if cfg.requiresApproval(step.id) {
      assert RunStep(cfg, p.engine, step.id, task, b) == PortOutcome(p.engine, [], [], Thrown(Misconfigured));
    } else {
      var calls := RunEngineStep(cfg, p.engine, step.id, task, None, b.body).calls;
      hide DispatchStep, MergeApprovedArgs;
      assert calls == [] || (|calls| == 1 && calls == [calls[0]] && calls[0].id == step.id);
      assert RunStep(cfg, p.engine, step.id, task, b).calls == calls;
    }
  }

  lemma StepUnblocked(cfg: Config, plan: Plan, p: Progress, n: nat, b: Option<Behaviour>)
    requires !cfg.gateConfigured && n < |plan| && Unblocked(cfg, plan, p, n)
    ensures Unblocked(cfg, plan, DispatchStep(cfg, p, plan[n], b), n + 1)
  {
    var q := DispatchStep(cfg, p, plan[n], b);
    if p.status == Going && b.Some? {
      NoGateNoPass(cfg, p, plan[n], b.value);
      hide DispatchStep;
      forall c | c in q.calls
        ensures RunsUnblocked(cfg, plan, c)
      {
        assert c in p.calls || c.id == plan[n].id;
      }
    }
  }

  lemma {:induction false} AlwaysUnblocked(cfg: Config, plan: Plan, scripts: seq<seq<Behaviour>>, c: Call)
    requires !cfg.gateConfigured && c in Runs(cfg, plan, scripts).calls
    ensures RunsUnblocked(cfg, plan, c)
  {
    var before, script := scripts[..|scripts| - 1], scripts[|scripts| - 1];
    var h := Runs(cfg, plan, before);
    if c in h.calls {
      AlwaysUnblocked(cfg, plan, before, c);
    } else {
      hide DispatchStep, Unblocked;
      var inv := (p: Progress, m: nat) => Unblocked(cfg, plan, p, m);
      assert inv(Begin(h.engine), 0) by { UnblockedAtFirst(cfg, plan, h.engine); }
      forall p, m: nat, b | m < |plan| && inv(p, m)
        ensures inv(DispatchStep(cfg, p, plan[m], b), m + 1)
      {
        StepUnblocked(cfg, plan, p, m, b);
      }
      AfterInduction(cfg, plan, h.engine, script, |plan|, inv);
      UnblockedCall(cfg, plan, After(cfg, plan, h.engine, script, |plan|), |plan|, c);
    }
  }

  lemma UnblockedAtFirst(cfg: Config, plan: Plan, eng: Engine)
    ensures Unblocked(cfg, plan, Begin(eng), 0)
  {
  }

  lemma UnblockedCall(cfg: Config, plan: Plan, p: Progress, n: nat, c: Call)
    requires Unblocked(cfg, plan, p, n) && c in p.calls
    ensures RunsUnblocked(cfg, plan, c)
  {
  }

  lemma RunsReachable(o: Options, plan: Plan, scripts: seq<seq<Behaviour>>, c: Call, i: nat)
    requires c in Runs(Resolve(o, plan), plan, scripts).calls
    requires i < |plan| && IsFirst(plan, i) && plan[i].id == c.id
    ensures Reachable(o, plan, i)
  {
    hide Runs;
    if !o.gateConfigured {
      AlwaysUnblocked(Resolve(o, plan), plan, scripts, c);
    }
  }

  lemma CoveredBodyApproved(o: Options, plan: Plan, scripts: seq<seq<Behaviour>>, c: Call)
    requires forall i, j :: 0 <= i < |plan| && 0 <= j < |plan| ==> Covered(o, plan, i, j)
    requires c in Runs(Resolve(o, plan), plan, scripts).calls && KindFlagged(o, KindOf(c.input))
    ensures Approved(Runs(Resolve(o, plan), plan, scripts).engine, c)
  {
    hide Runs;
    var cfg := Resolve(o, plan);
    BodiesAreApproved(cfg, plan, scripts, c);
    var i: nat :| i < |plan| && IsFirst(plan, i) && plan[i].id == c.id && KindOf(c.input) == KindOf(plan[i].task);
    var j := LastOf(plan, i);
    LastEntryWins(plan, j);
    RunsReachable(o, plan, scripts, c, i);
    assert Covered(o, plan, i, j);
  }

  // Flagging an id is always enough, and nothing else is held up: a body whose id
  // is flagged runs with its recorded approval, and one whose id is not, where the
  // last step with that id is not of a flagged kind either, without any decision.
  lemma FlaggedIdsApproved(o: Options, plan: Plan, scripts: seq<seq<Behaviour>>, c: Call, j: nat)
    requires c in Runs(Resolve(o, plan), plan, scripts).calls
    ensures IdFlagged(o, c.id) ==> Approved(Runs(Resolve(o, plan), plan, scripts).engine, c)
    ensures j < |plan| && IsLast(plan, j) && plan[j].id == c.id ==>
              !IdFlagged(o, c.id) && !KindFlagged(o, KindOf(plan[j].task)) ==> c.decision.None?
  {
    BodiesAreApproved(Resolve(o, plan), plan, scripts, c);
    hide Runs, IsLast;
    if j < |plan| && IsLast(plan, j) {
      LastEntryWins(plan, j);
    }
  }

  /******* An uncovered body runs unapproved *******/

  // A document that any document step of the plan would pass.
  function Sources(plan: Plan): string {
    if plan == [] then "x" else Sources(plan[..|plan| - 1]) + FirstSource(plan[|plan| - 1].task)
  }

  function FirstSource(task: Task): string {
    if task.Writing? && task.citations.Some? && task.citations.value != [] then task.citations.value[0].source else ""
  }

  lemma {:induction false} IncludesLater(s: string, part: string, a: string, b: string)
    requires Includes(s, part)
    ensures Includes(a + s + b, part)
  {
    if a != [] {
      IncludesLater(s, part, a[1..], b);
      assert (a + s + b)[1..] == a[1..] + s + b;
    } else if part <= s {
      assert part <= s + b && a + s + b == s + b;
    } else {
      IncludesLater(s[1..], part, [], b);
      assert (a + s + b)[1..] == [] + s[1..] + b;
    }
  }

  lemma {:induction false} SourcesInclude(plan: Plan, i: nat)
    requires i < |plan|
    ensures Sources(plan) != [] && Sources(plan)[0] == 'x' && Includes(Sources(plan), FirstSource(plan[i].task))
  {
    var n := |plan| - 1;
    var before, own := Sources(plan[..n]), FirstSource(plan[n].task);
    if n > 0 {
      SourcesInclude(plan[..n], 0);
    }
    assert Sources(plan) == before + own + [];
    if i == n {
      assert Includes(own, own);
      IncludesLater(own, own, before, []);
    } else {
      SourcesInclude(plan[..n], i);
      IncludesLater(before, FirstSource(plan[i].task), [], own);
      assert [] + before + own == before + own;
    }
  }

  // A result of the right kind that hands nothing on and passes any step's check.
  function EasyResult(plan: Plan, task: Task): Result {
    match task
    case Research(_, _) => Findings("", [])
    case Writing(_, _, _) => Written(Document("", Markdown, Sources(plan)), None)
    case Processing(_, _) => Processed(JNull)
  }

  predicate Easy(plan: Plan, r: Result) {
    || r == Findings("", [])
    || r == Written(Document("", Markdown, Sources(plan)), None)
    || r == Processed(JNull)
  }

  lemma EasyPasses(cfg: Config, plan: Plan, i: nat, r: Result)
    requires i < |plan| && Easy(plan, r)
    ensures Accepts(cfg, plan[i].task, r) && CitationsOf(r) == []
  {
    hide Includes, HasMarkup;
    SourcesInclude(plan, i);
    var task := plan[i].task;
    if task.Writing? && task.citations.Some? && task.citations.value != [] {
      assert task.citations.value[0] in task.citations.value;
    }
    if r.Written? {
      assert r.document.content[0] in r.document.content && !White('x');
    }
  }

  // Every operator approves at once and every body returns an easy result.
  function EasyScript(plan: Plan): (script: seq<Behaviour>)
    ensures |script| == |plan|
  {
    seq(|plan|, i requires 0 <= i < |plan| =>
      Behaviour(true, Arrives(Some(Decision(true, None))), Returns(EasyResult(plan, plan[i].task)), true, true))
  }

  ghost predicate EasySoFar(cfg: Config, plan: Plan, p: Progress, n: nat)
    requires n <= |plan|
  {
    && p.status == Going && p.handoff == []
    && (forall id :: id in p.engine.memo ==>
          Easy(plan, p.engine.memo[id]) && exists k :: 0 <= k < n && plan[k].id == id)
    && (forall id :: id in p.engine.decisions ==>
          cfg.requiresApproval(id) && p.engine.decisions[id] == Some(Decision(true, None)))
  }

  // The port lets an easy step through.
  lemma EasyPort(cfg: Config, plan: Plan, p: Progress, n: nat, b: Behaviour)
    requires n < |plan| && EasySoFar(cfg, plan, p, n)
    requires b == Behaviour(true, Arrives(Some(Decision(true, None))), Returns(EasyResult(plan, plan[n].task)),
                            true, true)
    requires cfg.requiresApproval(plan[n].id) ==> cfg.gateConfigured
    ensures var id, task := plan[n].id, plan[n].task;
            var port := RunStep(cfg, p.engine, id, task, b);
            && port.end.Done? && Easy(plan, port.end.result)
            && port.engine.memo == p.engine.memo[id := port.end.result]
            && (forall i :: i in port.engine.decisions ==>
                  cfg.requiresApproval(i) && port.engine.decisions[i] == Some(Decision(true, None)))
            && (id !in p.engine.memo && !cfg.requiresApproval(id) ==> port.calls == [Call(id, task, task, None, Saved)])
  {
    var id := plan[n].id;
    assert id in p.engine.memo ==> p.engine.memo[id := p.engine.memo[id]] == p.engine.memo;
  }

  lemma EasyStep(cfg: Config, plan: Plan, p: Progress, n: nat)
    requires n < |plan| && EasySoFar(cfg, plan, p, n)
    requires cfg.requiresApproval(plan[n].id) ==> cfg.gateConfigured
    ensures var q := DispatchStep(cfg, p, plan[n], Some(EasyScript(plan)[n]));
            && EasySoFar(cfg, plan, q, n + 1)
            && (plan[n].id !in p.engine.memo && !cfg.requiresApproval(plan[n].id) ==>
                  q.calls == p.calls + [Call(plan[n].id, plan[n].task, plan[n].task, None, Saved)])
  {
    hide RunStep, Easy, Accepts;
    var b := EasyScript(plan)[n];
    EasyPort(cfg, plan, p, n, b);
    EasyPasses(cfg, plan, n, RunStep(cfg, p.engine, plan[n].id, plan[n].task, b).end.result);
    DispatchFacts(cfg, p, plan[n], b);
  }

  lemma EasyStart(cfg: Config, plan: Plan)
    ensures EasySoFar(cfg, plan, Begin(FreshEngine()), 0)
  {
  }

  lemma {:induction false} EasyRun(cfg: Config, plan: Plan, n: nat)
    requires n <= |plan|
    requires cfg.gateConfigured || forall k :: 0 <= k < n ==> !cfg.requiresApproval(plan[k].id)
    ensures EasySoFar(cfg, plan, After(cfg, plan, FreshEngine(), EasyScript(plan), n), n)
  {
    hide DispatchStep, EasySoFar, EasyScript;
    if n == 0 {
      EasyStart(cfg, plan);
    } else {
      EasyRun(cfg, plan, n - 1);
      EasyStep(cfg, plan, After(cfg, plan, FreshEngine(), EasyScript(plan), n - 1), n - 1);
      AfterStep(cfg, plan, FreshEngine(), EasyScript(plan), n - 1);
    }
  }

  lemma EasyReaches(cfg: Config, plan: Plan, i: nat, q: Progress)
    requires i < |plan| && IsFirst(plan, i) && !cfg.requiresApproval(plan[i].id)
    requires cfg.gateConfigured || forall k :: 0 <= k < i ==> !cfg.requiresApproval(plan[k].id)
    requires q == After(cfg, plan, FreshEngine(), EasyScript(plan), i + 1)
    ensures Call(plan[i].id, plan[i].task, plan[i].task, None, Saved) in q.calls
    ensures plan[i].id !in q.engine.decisions
  {
    var p := After(cfg, plan, FreshEngine(), EasyScript(plan), i);
    EasyRun(cfg, plan, i);
    assert plan[i].id !in p.engine.memo;
    hide DispatchStep;
    EasyStep(cfg, plan, p, i);
    AfterStep(cfg, plan, FreshEngine(), EasyScript(plan), i);
    assert q.calls[|p.calls|] == Call(plan[i].id, plan[i].task, plan[i].task, None, Saved);
  }

  lemma OneAttempt(cfg: Config, plan: Plan, script: seq<Behaviour>, h: History)
    requires h == Runs(cfg, plan, [script])
    ensures h.engine == After(cfg, plan, FreshEngine(), script, |plan|).engine
    ensures h.calls == After(cfg, plan, FreshEngine(), script, |plan|).calls
    ensures h.writes == After(cfg, plan, FreshEngine(), script, |plan|).writes
  {
    hide After;
    var scripts := [script];
    assert scripts[..0] == [];
  }

  lemma Uncovered(o: Options, plan: Plan, i: nat, j: nat, cfg: Config)
    requires i < |plan| && j < |plan| && !Covered(o, plan, i, j) && cfg == Resolve(o, plan)
    ensures IsFirst(plan, i) && !cfg.requiresApproval(plan[i].id) && KindFlagged(o, KindOf(plan[i].task))
    ensures cfg.gateConfigured || forall k :: 0 <= k < i ==> !cfg.requiresApproval(plan[k].id)
  {
    hide IsFirst;
    LastEntryWins(plan, j);
  }

  lemma UncoveredNotApproved(o: Options, plan: Plan, i: nat, j: nat)
    requires i < |plan| && j < |plan| && !Covered(o, plan, i, j)
    ensures !FlaggedKindsApproved(o, plan)
  {
    var cfg := Resolve(o, plan);
    var scripts, c := [EasyScript(plan)[..i + 1]], Call(plan[i].id, plan[i].task, plan[i].task, None, Saved);
    Uncovered(o, plan, i, j, cfg);
    UncoveredBodyRuns(o, plan, i, j, Runs(cfg, plan, scripts));
    hide Runs, Covered, EasyScript;
    assert c in Runs(cfg, plan, scripts).calls && KindFlagged(o, KindOf(c.input));
    assert !Approved(Runs(cfg, plan, scripts).engine, c);
  }

  // One attempt that stops right after step `i`.
  lemma EasyHistory(cfg: Config, plan: Plan, i: nat, h: History)
    requires i < |plan| && IsFirst(plan, i) && !cfg.requiresApproval(plan[i].id)
    requires cfg.gateConfigured || forall k :: 0 <= k < i ==> !cfg.requiresApproval(plan[k].id)
    requires h == Runs(cfg, plan, [EasyScript(plan)[..i + 1]])
    ensures Call(plan[i].id, plan[i].task, plan[i].task, None, Saved) in h.calls
    ensures plan[i].id !in h.engine.decisions
  {
    hide Runs, EasyScript, After, IsFirst;
    var script := EasyScript(plan);
    OneAttempt(cfg, plan, script[..i + 1], h);
    Truncated(cfg, plan, script, i + 1);
    EasyReaches(cfg, plan, i, After(cfg, plan, FreshEngine(), script, i + 1));
  }

  lemma UncoveredBodyRuns(o: Options, plan: Plan, i: nat, j: nat, h: History)
    requires i < |plan| && j < |plan| && !Covered(o, plan, i, j)
    requires h == Runs(Resolve(o, plan), plan, [EasyScript(plan)[..i + 1]])
    ensures Call(plan[i].id, plan[i].task, plan[i].task, None, Saved) in h.calls
    ensures plan[i].id !in h.engine.decisions
  {
    hide Runs, Covered, EasyScript;
    Uncovered(o, plan, i, j, Resolve(o, plan));
    EasyHistory(Resolve(o, plan), plan, i, h);
  }

  // A process that is gone after `m` steps leaves what it had left by then.
  lemma {:induction false} SameStart(cfg: Config, plan: Plan, script: seq<Behaviour>, m: nat, n: nat)
    requires n <= m <= |script| && n <= |plan|
    ensures After(cfg, plan, FreshEngine(), script[..m], n) == After(cfg, plan, FreshEngine(), script, n)
  {
    hide DispatchStep;
    if n > 0 {
      SameStart(cfg, plan, script, m, n - 1);
    }
  }

  lemma Truncated(cfg: Config, plan: Plan, script: seq<Behaviour>, m: nat)
    requires m <= |script| && m <= |plan|
    ensures After(cfg, plan, FreshEngine(), script[..m], |plan|).engine ==
            After(cfg, plan, FreshEngine(), script, m).engine
    ensures After(cfg, plan, FreshEngine(), script[..m], |plan|).calls ==
            After(cfg, plan, FreshEngine(), script, m).calls
  {
    SameStart(cfg, plan, script, m, m);
    if m < |plan| {
      AfterStep(cfg, plan, FreshEngine(), script[..m], m);
      Stuck(cfg, plan, FreshEngine(), script[..m], m + 1, |plan|);
    }
  }

  /******* The plan that shows it *******/

  // Processing is flagged as a kind, but the step's id is planned once more, for
  // research: the processing body runs, no decision was asked for or made.
  lemma FlaggedProcessingRuns(x: string, operation: string, query: string, isUuid: UuidCheck, hasStore: bool,
                              verify: bool)
    ensures var o := Options(None, Some(kind => kind == DataProcessing), isUuid, true, hasStore, verify);
            var plan := [PlannedStep(x, Processing(operation, None)), PlannedStep(x, Research(query, None))];
            var h := Runs(Resolve(o, plan), plan, [EasyScript(plan)[..1]]);
            && h.engine.decisions == map[]
            && h.writes == []
            && h.calls == [Call(x, plan[0].task, plan[0].task, None, Saved)]
  {
    var o := Options(None, Some(kind => kind == DataProcessing), isUuid, true, hasStore, verify);
    var plan := [PlannedStep(x, Processing(operation, None)), PlannedStep(x, Research(query, None))];
    LastEntryWins(plan, 1);
    var cfg, script := Resolve(o, plan), EasyScript(plan)[..1];
    assert !cfg.requiresApproval(x);
    OneAttempt(cfg, plan, script, Runs(cfg, plan, [script]));
    hide EffectiveRequiresApproval, Runs;
    OnlyProcessing(cfg, plan, script, x, operation);
  }

  lemma OnlyProcessing(cfg: Config, plan: Plan, script: seq<Behaviour>, x: string, operation: string)
    requires |plan| == 2 && plan[0] == PlannedStep(x, Processing(operation, None)) && !cfg.requiresApproval(x)
    requires |script| == 1 && script[0].body == Returns(Processed(JNull)) && script[0].published
    ensures After(cfg, plan, FreshEngine(), script, 2).engine.decisions == map[]
    ensures After(cfg, plan, FreshEngine(), script, 2).writes == []
    ensures After(cfg, plan, FreshEngine(), script, 2).calls == [Call(x, plan[0].task, plan[0].task, None, Saved)]
  {
    assert After(cfg, plan, FreshEngine(), script, 0) == Begin(FreshEngine());
    var p := DispatchStep(cfg, Begin(FreshEngine()), plan[0], Some(script[0]));
    assert p.engine.decisions == map[] && p.writes == [] && p.status == Going;
    assert p.calls == [Call(x, plan[0].task, plan[0].task, None, Saved)];
    assert After(cfg, plan, FreshEngine(), script, 1) == p;
    assert After(cfg, plan, FreshEngine(), script, 2) == p.(status := Crashed);
  }
}

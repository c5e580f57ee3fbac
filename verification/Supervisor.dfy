// One attempt at running a plan: the supervisor's dispatch loop over a durable
// step port that remembers step results and approval decisions.
module Supervisor {
  import opened Prelude
  import opened Specialists

  datatype PlannedStep = PlannedStep(id: string, task: Task)

  type Plan = seq<PlannedStep>

  datatype Decision = Decision(approved: bool, args: Option<Json>)

  // The engine's two memos. A decision of `None` is a wait that timed out.
  datatype Engine = Engine(memo: map<string, Result>, decisions: map<string, Option<Decision>>)

  datatype Error =
    | Misconfigured
    | StoreError
    | Expired
    | Rejected
    | BadArgs
    | SpecialistError(message: string)
    | VerificationError

  datatype Config = Config(
    isUuid: UuidCheck,
    requiresApproval: string -> bool,
    gateConfigured: bool,
    hasStore: bool,
    verify: bool)

  // What the world does at one step of an attempt, where the memos do not
  // already settle it. A body may return to an engine that dies before it has
  // recorded the result: then it is `Forgotten`. `judged` is the optional second
  // verdict on a document, asked for once it has passed the mechanical check. What
  // follows the step is `published` unless the process dies, or the event sink
  // throws, right there.
  datatype GateEvent = Silent | Arrives(decision: Option<Decision>)
  datatype BodyEvent = Dies | Throws(message: string) | Forgotten(lost: Result) | Returns(result: Result)
  datatype Behaviour = Behaviour(stored: bool, gate: GateEvent, body: BodyEvent, judged: bool, published: bool)

  datatype JobEvent =
    | StepStart(id: string, kind: Kind)
    | StepCompletion(id: string, result: Result)
    | StepError(id: string, error: Error)
    | JobCompletion(metrics: Usage, stepCount: nat)

  datatype StepResult = StepResult(id: string, result: Result)

  // What is written to the step store: a step's pending row, and its tokens.
  datatype Write = Pending(id: string) | Spent(id: string, tokens: nat)

  // One run of a specialist's body, and how it ended.
  datatype CallEnd = Died | Threw | Unsaved | Saved
  datatype Call = Call(id: string, task: Task, input: Task, decision: Option<Decision>, end: CallEnd)

  datatype Status = Going | Failed(id: string, error: Error) | Crashed

  datatype Progress = Progress(
    engine: Engine,
    handoff: seq<Citation>,
    results: seq<StepResult>,
    events: seq<JobEvent>,
    calls: seq<Call>,
    writes: seq<Write>,
    status: Status)

  function Begin(eng: Engine): Progress {
    Progress(eng, [], [], [], [], [], Going)
  }

  /******* One step through the durable port *******/

  datatype StepEnd = Done(result: Result) | Thrown(error: Error) | Lost

  datatype PortOutcome = PortOutcome(engine: Engine, calls: seq<Call>, writes: seq<Write>, end: StepEnd)

  function CallEndOf(body: BodyEvent): CallEnd {
    match body
    case Dies => Died
    case Throws(_) => Threw
    case Forgotten(_) => Unsaved
    case Returns(_) => Saved
  }

  // The checkpointed step: a remembered result is replayed, the body not run.
  function RunEngineStep(cfg: Config, eng: Engine, id: string, task: Task, decision: Option<Decision>, body: BodyEvent)
    : PortOutcome
  {
    if id in eng.memo then PortOutcome(eng, [], [], Done(eng.memo[id]))
    else
      var input := MergeApprovedArgs(cfg.isUuid, task, if decision.Some? then decision.value.args else None);
      if input.None? then PortOutcome(eng, [], [], Thrown(BadArgs))
      else
        var calls := [Call(id, task, input.value, decision, CallEndOf(body))];
        match body
        case Dies => PortOutcome(eng, calls, [], Lost)
        case Throws(message) => PortOutcome(eng, calls, [], Thrown(SpecialistError(message)))
        case Forgotten(_) => PortOutcome(eng, calls, [], Lost)
        case Returns(result) => PortOutcome(eng.(memo := eng.memo[id := result]), calls, [], Done(result))
  }

  // The approval gate: the engine after it, and the decision, if one came.
  function PassGate(cfg: Config, eng: Engine, id: string, task: Task, b: Behaviour): PortOutcome {
    if id !in eng.decisions && b.gate.Silent? then PortOutcome(eng, [], [], Lost)
    else
      var decision := if id in eng.decisions then eng.decisions[id] else b.gate.decision;
      var eng' := eng.(decisions := eng.decisions[id := decision]);
      if decision.None? then PortOutcome(eng', [], [], Thrown(Expired))
      else if !decision.value.approved then PortOutcome(eng', [], [], Thrown(Rejected))
      else RunEngineStep(cfg, eng', id, task, decision, b.body)
  }

  // A flagged step is written to the pending set, again on every replay, right
  // before its gate is awaited.
  function RunStep(cfg: Config, eng: Engine, id: string, task: Task, b: Behaviour): PortOutcome {
    if !cfg.requiresApproval(id) then RunEngineStep(cfg, eng, id, task, None, b.body)
    else if !cfg.gateConfigured then PortOutcome(eng, [], [], Thrown(Misconfigured))
    else if cfg.hasStore && !b.stored then PortOutcome(eng, [], [], Thrown(StoreError))
    else PassGate(cfg, eng, id, task, b).(writes := if cfg.hasStore then [Pending(id)] else [])
  }

  /******* The dispatch loop *******/

  predicate ConsumesHandoff(planned: Task, handoff: seq<Citation>) {
    planned.Writing? && planned.citations.None? && handoff != []
  }

  function GiveHandoff(planned: Task, handoff: seq<Citation>): Task {
    if ConsumesHandoff(planned, handoff) then planned.(citations := Some(handoff)) else planned
  }

  function CitationsOf(result: Result): seq<Citation> {
    if result.Findings? then result.citations else []
  }

  predicate Verifies(cfg: Config, task: Task, result: Result) {
    cfg.verify && result.Written? && task.Writing?
  }

  predicate Accepts(cfg: Config, task: Task, result: Result) {
    Verifies(cfg, task, result) ==>
      DocumentPasses(result.document, if task.citations.Some? then task.citations.value else [])
  }

  predicate Rejects(cfg: Config, task: Task, result: Result, b: Behaviour) {
    !Accepts(cfg, task, result) || (Verifies(cfg, task, result) && !b.judged)
  }

  function UsageOf(result: Result): Usage {
    if result.Written? && result.usage.Some? then result.usage.value else Usage(0, 0, 0)
  }

  // A completed document step's tokens are recorded as its completion is emitted.
  function SpendingOf(id: string, result: Result): seq<Write> {
    if result.Written? && result.usage.Some? then [Spent(id, result.usage.value.totalTokens)] else []
  }

  function Plus(a: Usage, b: Usage): Usage {
    Usage(a.inputTokens + b.inputTokens, a.outputTokens + b.outputTokens, a.totalTokens + b.totalTokens)
  }

  function TotalUsage(results: seq<StepResult>): Usage {
    if results == [] then Usage(0, 0, 0)
    else Plus(TotalUsage(results[..|results| - 1]), UsageOf(results[|results| - 1].result))
  }

  // `b` is `None` once the attempt's process is gone.
  function DispatchStep(cfg: Config, p: Progress, step: PlannedStep, b: Option<Behaviour>): Progress {
    if p.status != Going then p
    else if b.None? then p.(status := Crashed)
    else
      var task := GiveHandoff(step.task, p.handoff);
      var handoff := if ConsumesHandoff(step.task, p.handoff) then [] else p.handoff;
      var started := p.events + [StepStart(step.id, KindOf(task))];
      var port := RunStep(cfg, p.engine, step.id, task, b.value);
      var end := if port.end.Done? && Rejects(cfg, task, port.end.result, b.value) then Thrown(VerificationError)
                 else port.end;
      var calls, writes := p.calls + port.calls, p.writes + port.writes;
      match if b.value.published then end else Lost
      case Lost => Progress(port.engine, handoff, p.results, started, calls, writes, Crashed)
      case Thrown(error) =>
        Progress(port.engine, handoff, p.results, started + [StepError(step.id, error)], calls, writes,
                 Failed(step.id, error))
      case Done(result) =>
        Progress(port.engine, handoff + CitationsOf(result), p.results + [StepResult(step.id, result)],
                 started + [StepCompletion(step.id, result)], calls,
                 writes + (if cfg.hasStore then SpendingOf(step.id, result) else []), Going)
  }

  function BehaviourAt(script: seq<Behaviour>, i: nat): Option<Behaviour> {
    if i < |script| then Some(script[i]) else None
  }

  function After(cfg: Config, plan: Plan, eng: Engine, script: seq<Behaviour>, n: nat): Progress
    requires n <= |plan|
  {
    if n == 0 then Begin(eng)
    else DispatchStep(cfg, After(cfg, plan, eng, script, n - 1), plan[n - 1], BehaviourAt(script, n - 1))
  }

  // A whole attempt; `Going` at the end means the plan finished.
  function Attempt(cfg: Config, plan: Plan, eng: Engine, script: seq<Behaviour>): Progress {
    var p := After(cfg, plan, eng, script, |plan|);
    if p.status != Going then p
    else p.(events := p.events + [JobCompletion(TotalUsage(p.results), |plan|)])
  }

  predicate Finished(p: Progress) {
    p.status == Going
  }

  /******* The worker *******/

  class Worker {
    const cfg: Config
    var memo: map<string, Result>
    var decisions: map<string, Option<Decision>>
    var events: seq<JobEvent>
    var calls: seq<Call>
    var writes: seq<Write>

    function EngineState(): Engine
      reads this
    {
      Engine(memo, decisions)
    }

    function Log(handoff: seq<Citation>, results: seq<StepResult>, status: Status): Progress
      reads this
    {
      Progress(EngineState(), handoff, results, events, calls, writes, status)
    }

    constructor (cfg: Config)
      ensures this.cfg == cfg && Log([], [], Going) == Begin(Engine(map[], map[]))
    {
      this.cfg := cfg;
      memo, decisions, events, calls, writes := map[], map[], [], [], [];
    }

    method EngineStep(id: string, task: Task, decision: Option<Decision>, body: BodyEvent) returns (end: StepEnd)
      modifies this`memo, this`calls
      ensures var port := RunEngineStep(cfg, old(EngineState()), id, task, decision, body);
              && EngineState() == port.engine && end == port.end
              && calls == old(calls) + port.calls && port.writes == []
    {
      if id in memo {
        return Done(memo[id]);
      }
      var input := MergeApprovedArgs(cfg.isUuid, task, if decision.Some? then decision.value.args else None);
      if input.None? {
        return Thrown(BadArgs);
      }
      calls := calls + [Call(id, task, input.value, decision, CallEndOf(body))];
      match body {
        case Dies => end := Lost;
        case Throws(message) => end := Thrown(SpecialistError(message));
        case Forgotten(_) => end := Lost;
        case Returns(result) =>
          memo := memo[id := result];
          end := Done(result);
      }
    }

    method Step(id: string, task: Task, b: Behaviour) returns (end: StepEnd)
      modifies this`memo, this`decisions, this`calls, this`writes
      ensures var port := RunStep(cfg, old(EngineState()), id, task, b);
              && EngineState() == port.engine && end == port.end
              && calls == old(calls) + port.calls && writes == old(writes) + port.writes
    {
      if !cfg.requiresApproval(id) {
        end := EngineStep(id, task, None, b.body);
        return;
      }
      if !cfg.gateConfigured {
        return Thrown(Misconfigured);
      }
      if cfg.hasStore {
        if !b.stored {
          return Thrown(StoreError);
        }
        writes := writes + [Pending(id)];
      }
      if id !in decisions {
        if b.gate.Silent? {
          return Lost;
        }
        decisions := decisions[id := b.gate.decision];
      }
      assert old(decisions)[id := decisions[id]] == decisions;
      if decisions[id].None? {
        return Thrown(Expired);
      }
      if !decisions[id].value.approved {
        return Thrown(Rejected);
      }
      end := EngineStep(id, task, decisions[id], b.body);
    }

    // Sums the usage of every document step.
    static method SumUsage(results: seq<StepResult>) returns (metrics: Usage)
      ensures metrics == TotalUsage(results)
    {
      metrics := Usage(0, 0, 0);
      for i := 0 to |results|
        invariant metrics == TotalUsage(results[..i])
      {
        assert results[..i + 1][..i] == results[..i];
        metrics := Plus(metrics, UsageOf(results[i].result));
      }
      assert results[..|results|] == results;
    }

    // One turn of the loop.
    method Turn(step: PlannedStep, b: Behaviour, handoff: seq<Citation>, results: seq<StepResult>)
      returns (handoff': seq<Citation>, results': seq<StepResult>, status: Status)
      modifies this
      ensures Log(handoff', results', status) == DispatchStep(cfg, old(Log(handoff, results, Going)), step, Some(b))
    {
      var consumes := ConsumesHandoff(step.task, handoff);
      var task := if consumes then step.task.(citations := Some(handoff)) else step.task;
      handoff', results' := if consumes then [] else handoff, results;
      events := events + [StepStart(step.id, KindOf(task))];
      var end := Step(step.id, task, b);
      if end.Done? && Rejects(cfg, task, end.result, b) {
        end := Thrown(VerificationError);
      }
      if !b.published {
        end := Lost;
      }
      match end {
        case Lost =>
          status := Crashed;
        case Thrown(error) =>
          events := events + [StepError(step.id, error)];
          status := Failed(step.id, error);
        case Done(result) =>
          handoff' := handoff' + CitationsOf(result);
          if cfg.hasStore {
            writes := writes + SpendingOf(step.id, result);
          }
          events := events + [StepCompletion(step.id, result)];
          results' := results' + [StepResult(step.id, result)];
          status := Going;
      }
    }

    method Dispatch(plan: Plan, script: seq<Behaviour>) returns (results: seq<StepResult>, status: Status)
      requires events == [] && calls == [] && writes == []
      modifies this
      ensures exists handoff :: Log(handoff, results, status) == Attempt(cfg, plan, old(EngineState()), script)
    {
      hide RunStep, Accepts, UsageOf;
      results := [];
      status := Going;
      var handoff: seq<Citation> := [];
      var i := 0;
      while i < |plan| && status == Going
        invariant 0 <= i <= |plan|
        invariant After(cfg, plan, old(EngineState()), script, i) == Log(handoff, results, status)
        decreases |plan| - i, status == Going
      {
        if i < |script| {
          handoff, results, status := Turn(plan[i], script[i], handoff, results);
        } else {
          status := Crashed;
        }
        i := i + 1;
      }
      Stuck(cfg, plan, old(EngineState()), script, i, |plan|);
      if status == Going {
        var metrics := SumUsage(results);
        events := events + [JobCompletion(metrics, |plan|)];
      }
      assert Log(handoff, results, status) == Attempt(cfg, plan, old(EngineState()), script);
    }
  }

  // A stopped attempt does nothing more.
  lemma {:induction false} Stuck(cfg: Config, plan: Plan, eng: Engine, script: seq<Behaviour>, m: nat, n: nat)
    requires m <= n <= |plan| && (m < n ==> After(cfg, plan, eng, script, m).status != Going)
    ensures After(cfg, plan, eng, script, n) == After(cfg, plan, eng, script, m)
  {
    if m < n {
      Stuck(cfg, plan, eng, script, m, n - 1);
    }
  }

  /******* The handoff, told from the results alone *******/

  // The citations of the research results in [lo, hi), in order.
  ghost function Gather(rs: seq<Result>, lo: nat, hi: nat): seq<Citation>
    requires lo <= hi <= |rs|
  {
    if lo == hi then [] else Gather(rs, lo, hi - 1) + CitationsOf(rs[hi - 1])
  }

  // Where the window that feeds step `i` begins: at the last step before it that
  // consumed one.
  ghost function WindowStart(plan: Plan, rs: seq<Result>, i: nat): (n: nat)
    requires i <= |plan| && i <= |rs|
    ensures n <= i
    decreases i, 0
  {
    if i == 0 then 0 else if Consumer(plan, rs, i - 1) then i - 1 else WindowStart(plan, rs, i - 1)
  }

  ghost predicate Consumer(plan: Plan, rs: seq<Result>, i: nat)
    requires i < |plan| && i <= |rs|
    decreases i, 1
  {
    ConsumesHandoff(plan[i].task, Gather(rs, WindowStart(plan, rs, i), i))
  }

  // What step `i` is given before any operator's edit.
  ghost function Given(plan: Plan, rs: seq<Result>, i: nat): Task
    requires i < |plan| && i <= |rs|
  {
    GiveHandoff(plan[i].task, Gather(rs, WindowStart(plan, rs, i), i))
  }

  // Exactly: a document step without citations of its own gets everything its
  // window gathered; every other step is given its task as planned.
  lemma GivenExactly(plan: Plan, rs: seq<Result>, i: nat)
    requires i < |plan| && i <= |rs|
    ensures KindOf(Given(plan, rs, i)) == KindOf(plan[i].task)
    ensures var window := Gather(rs, WindowStart(plan, rs, i), i);
            if plan[i].task.Writing? && plan[i].task.citations.None? && window != []
            then Given(plan, rs, i) == plan[i].task.(citations := Some(window))
            else Given(plan, rs, i) == plan[i].task
  {
  }

  // Windows of two consumers do not overlap, so no research step's citations
  // reach two documents.
  lemma {:induction false} WindowsDisjoint(plan: Plan, rs: seq<Result>, i: nat, k: nat)
    requires i < k < |plan| && k <= |rs|
    requires Consumer(plan, rs, i)
    ensures WindowStart(plan, rs, i) <= i <= WindowStart(plan, rs, k)
  {
    if k > i + 1 && !Consumer(plan, rs, k - 1) {
      WindowsDisjoint(plan, rs, i, k - 1);
    }
  }

  // Within a window nothing is lost: no step between its start and its consumer
  // consumed anything.
  lemma {:induction false} WindowWhole(plan: Plan, rs: seq<Result>, i: nat, j: nat)
    requires i <= |plan| && i <= |rs| && WindowStart(plan, rs, i) < j < i
    ensures !Consumer(plan, rs, j)
  {
    if j < i - 1 {
      WindowWhole(plan, rs, i - 1, j);
    }
  }

  // A window is what came since the last consumer, or since the start.
  lemma {:induction false} WindowBegins(plan: Plan, rs: seq<Result>, i: nat)
    requires i <= |plan| && i <= |rs|
    ensures WindowStart(plan, rs, i) == 0 || Consumer(plan, rs, WindowStart(plan, rs, i))
  {
    if i > 0 && !Consumer(plan, rs, i - 1) {
      WindowBegins(plan, rs, i - 1);
    }
  }

  // Of each step in a window: if it is a research step its citations are there,
  // whole and in its place, and any other step adds nothing.
  lemma {:induction false} GatherSplit(rs: seq<Result>, lo: nat, j: nat, hi: nat)
    requires lo <= j < hi <= |rs|
    ensures Gather(rs, lo, hi) ==
            Gather(rs, lo, j) + (if rs[j].Findings? then rs[j].citations else []) + Gather(rs, j + 1, hi)
    ensures Gather(rs, lo, lo) == []
  {
    if j < hi - 1 {
      GatherSplit(rs, lo, j, hi - 1);
    }
  }

  /******* The event trace *******/

  ghost function Results(results: seq<StepResult>): seq<Result> {
    seq(|results|, i requires 0 <= i < |results| => results[i].result)
  }

  // A start and a completion for each of the first `n` steps, in plan order.
  ghost function Pairs(plan: Plan, rs: seq<Result>, n: nat): seq<JobEvent>
    requires n <= |plan| && n <= |rs|
  {
    if n == 0 then []
    else Pairs(plan, rs, n - 1) + [StepStart(plan[n - 1].id, KindOf(plan[n - 1].task)),
                                   StepCompletion(plan[n - 1].id, rs[n - 1])]
  }

  // The results are the plan's first steps', as the engine remembers them.
  ghost predicate Recorded(plan: Plan, results: seq<StepResult>, memo: map<string, Result>) {
    && |results| <= |plan|
    && forall i :: 0 <= i < |results| ==>
         results[i].id == plan[i].id && plan[i].id in memo && memo[plan[i].id] == results[i].result
  }

  ghost predicate AllAccepted(cfg: Config, plan: Plan, rs: seq<Result>) {
    |rs| <= |plan| && forall i :: 0 <= i < |rs| ==> Accepts(cfg, Given(plan, rs, i), rs[i])
  }

  ghost predicate Walked(cfg: Config, plan: Plan, p: Progress, n: nat)
    requires n <= |plan|
  {
    var rs := Results(p.results);
    var k := |p.results|;
    && k <= n
    && Recorded(plan, p.results, p.engine.memo)
    && AllAccepted(cfg, plan, rs)
    && match p.status
       case Going => k == n && p.handoff == Gather(rs, WindowStart(plan, rs, n), n) && p.events == Pairs(plan, rs, n)
       case Crashed =>
         && k < n
         && (p.events == Pairs(plan, rs, k) ||
             p.events == Pairs(plan, rs, k) + [StepStart(plan[k].id, KindOf(plan[k].task))])
       case Failed(id, error) =>
         && k < n && id == plan[k].id
         && p.events == Pairs(plan, rs, k) + [StepStart(id, KindOf(plan[k].task)), StepError(id, error)]
  }

  // What is told from results only depends on the results it looks at.
  lemma {:induction false} GatherPrefix(rs: seq<Result>, more: seq<Result>, lo: nat, hi: nat)
    requires lo <= hi <= |rs|
    ensures Gather(rs + more, lo, hi) == Gather(rs, lo, hi)
  {
    if lo < hi {
      GatherPrefix(rs, more, lo, hi - 1);
      assert (rs + more)[hi - 1] == rs[hi - 1];
    }
  }

  lemma {:induction false} WindowPrefix(plan: Plan, rs: seq<Result>, more: seq<Result>, i: nat)
    requires i <= |plan| && i <= |rs|
    ensures WindowStart(plan, rs + more, i) == WindowStart(plan, rs, i)
    ensures i < |plan| ==> Given(plan, rs + more, i) == Given(plan, rs, i)
    ensures i < |plan| ==> (Consumer(plan, rs + more, i) <==> Consumer(plan, rs, i))
  {
    if i > 0 {
      WindowPrefix(plan, rs, more, i - 1);
    }
    GatherPrefix(rs, more, WindowStart(plan, rs, i), i);
  }

  lemma {:induction false} PairsPrefix(plan: Plan, rs: seq<Result>, more: seq<Result>, n: nat)
    requires n <= |plan| && n <= |rs|
    ensures Pairs(plan, rs + more, n) == Pairs(plan, rs, n)
  {
    if n > 0 {
      PairsPrefix(plan, rs, more, n - 1);
      assert (rs + more)[n - 1] == rs[n - 1];
    }
  }

  lemma PortRemembers(cfg: Config, eng: Engine, id: string, task: Task, b: Behaviour)
    ensures var port := RunStep(cfg, eng, id, task, b);
            && (forall i :: i in eng.memo ==> i in port.engine.memo && port.engine.memo[i] == eng.memo[i])
            && (port.end.Done? ==> id in port.engine.memo && port.engine.memo[id] == port.end.result)
  {
    hide MergeApprovedArgs;
  }

  lemma AcceptsPrefix(cfg: Config, plan: Plan, rs: seq<Result>, r: Result)
    requires |rs| < |plan| && AllAccepted(cfg, plan, rs)
    requires Accepts(cfg, Given(plan, rs, |rs|), r)
    ensures AllAccepted(cfg, plan, rs + [r])
  {
    hide Accepts, Gather, WindowStart, Given;
    forall i | 0 <= i < |rs| + 1
      ensures Accepts(cfg, Given(plan, rs + [r], i), (rs + [r])[i])
    {
      WindowPrefix(plan, rs, [r], i);
    }
  }

  lemma PairsOn(plan: Plan, rs: seq<Result>, r: Result)
    requires |rs| < |plan|
    ensures Pairs(plan, rs + [r], |rs| + 1) ==
            Pairs(plan, rs, |rs|) + [StepStart(plan[|rs|].id, KindOf(plan[|rs|].task)),
                                     StepCompletion(plan[|rs|].id, r)]
  {
    PairsPrefix(plan, rs, [r], |rs|);
  }

  lemma HandoffOn(plan: Plan, rs: seq<Result>, r: Result, n: nat)
    requires n == |rs| < |plan|
    ensures Gather(rs + [r], WindowStart(plan, rs + [r], n + 1), n + 1) ==
            (if Consumer(plan, rs, n) then [] else Gather(rs, WindowStart(plan, rs, n), n)) + CitationsOf(r)
  {
    WindowPrefix(plan, rs, [r], n);
    GatherPrefix(rs, [r], WindowStart(plan, rs, n), n);
    assert (rs + [r])[n] == r;
  }

  // One more completed step.
  lemma WalkOn(cfg: Config, plan: Plan, p: Progress, n: nat, q: Progress, r: Result)
    requires n < |plan| && Walked(cfg, plan, p, n) && p.status == Going
    requires q.status == Going
    requires q.results == p.results + [StepResult(plan[n].id, r)]
    requires q.events == p.events + [StepStart(plan[n].id, KindOf(plan[n].task)), StepCompletion(plan[n].id, r)]
    requires q.handoff == (if ConsumesHandoff(plan[n].task, p.handoff) then [] else p.handoff) + CitationsOf(r)
    requires forall id :: id in p.engine.memo ==> id in q.engine.memo && q.engine.memo[id] == p.engine.memo[id]
    requires plan[n].id in q.engine.memo && q.engine.memo[plan[n].id] == r
    requires Accepts(cfg, GiveHandoff(plan[n].task, p.handoff), r)
    ensures Walked(cfg, plan, q, n + 1)
  {
    hide Accepts, Gather, WindowStart, Pairs;
    var rs := Results(p.results);
    assert Results(q.results) == rs + [r];
    AcceptsPrefix(cfg, plan, rs, r);
    PairsOn(plan, rs, r);
    HandoffOn(plan, rs, r, n);
  }

  // The last step.
  lemma WalkEnds(cfg: Config, plan: Plan, p: Progress, n: nat, q: Progress)
    requires n < |plan| && Walked(cfg, plan, p, n) && p.status == Going
    requires q.results == p.results
    requires forall id :: id in p.engine.memo ==> id in q.engine.memo && q.engine.memo[id] == p.engine.memo[id]
    requires var started := p.events + [StepStart(plan[n].id, KindOf(plan[n].task))];
             match q.status
             case Going => false
             case Crashed => q.events == p.events || q.events == started
             case Failed(id, error) => id == plan[n].id && q.events == started + [StepError(id, error)]
    ensures Walked(cfg, plan, q, n + 1)
  {
    assert Results(q.results) == Results(p.results);
  }

  lemma StepWalks(cfg: Config, plan: Plan, p: Progress, n: nat, b: Option<Behaviour>)
    requires n < |plan| && Walked(cfg, plan, p, n)
    ensures Walked(cfg, plan, DispatchStep(cfg, p, plan[n], b), n + 1)
  {
    var q := DispatchStep(cfg, p, plan[n], b);
    if p.status == Going {
      if b.None? {
        WalkEnds(cfg, plan, p, n, q);
      } else {
        var task := GiveHandoff(plan[n].task, p.handoff);
        PortRemembers(cfg, p.engine, plan[n].id, task, b.value);
        if q.status == Going {
          WalkOn(cfg, plan, p, n, q, q.results[n].result);
        } else {
          WalkEnds(cfg, plan, p, n, q);
        }
      }
    }
  }

  lemma StartWalks(cfg: Config, plan: Plan, eng: Engine)
    ensures Walked(cfg, plan, Begin(eng), 0)
  {
  }

  lemma AfterStep(cfg: Config, plan: Plan, eng: Engine, script: seq<Behaviour>, n: nat)
    requires n < |plan|
    ensures After(cfg, plan, eng, script, n + 1) ==
            DispatchStep(cfg, After(cfg, plan, eng, script, n), plan[n], BehaviourAt(script, n))
  {
  }

  // What every step of an attempt keeps holds after any number of them.
  lemma {:induction false} AfterInduction(cfg: Config, plan: Plan, eng: Engine, script: seq<Behaviour>, n: nat,
                                          inv: (Progress, nat) -> bool)
    requires n <= |plan| && inv(Begin(eng), 0)
    requires forall p, m: nat, b | m < |plan| && inv(p, m) :: inv(DispatchStep(cfg, p, plan[m], b), m + 1)
    ensures inv(After(cfg, plan, eng, script, n), n)
  {
    if n > 0 {
      AfterInduction(cfg, plan, eng, script, n - 1, inv);
      AfterStep(cfg, plan, eng, script, n - 1);
    }
  }

  lemma AlwaysWalked(cfg: Config, plan: Plan, eng: Engine, script: seq<Behaviour>, n: nat)
    requires n <= |plan|
    ensures Walked(cfg, plan, After(cfg, plan, eng, script, n), n)
  {
    var inv := (p: Progress, m: nat) => m <= |plan| && Walked(cfg, plan, p, m);
    StartWalks(cfg, plan, eng);
    forall p, m: nat, b | m < |plan| && inv(p, m)
      ensures inv(DispatchStep(cfg, p, plan[m], b), m + 1)
    {
      StepWalks(cfg, plan, p, m, b);
    }
    AfterInduction(cfg, plan, eng, script, n, inv);
  }

  function Sum(counts: seq<nat>): nat {
    if counts == [] then 0 else counts[0] + Sum(counts[1..])
  }

  // One count of each step's usage; a step without usage counts nothing.
  function Column(results: seq<StepResult>, pick: Usage -> nat): seq<nat> {
    seq(|results|, i requires 0 <= i < |results| => CountIn(results[i].result, pick))
  }

  function CountIn(result: Result, pick: Usage -> nat): nat {
    if result.Written? && result.usage.Some? then pick(result.usage.value) else 0
  }

  lemma {:induction false} SumAppend(counts: seq<nat>, last: nat)
    ensures Sum(counts + [last]) == Sum(counts) + last
  {
    if counts == [] {
      assert [last][1..] == [] && counts + [last] == [last];
    } else {
      SumAppend(counts[1..], last);
      assert (counts + [last])[1..] == counts[1..] + [last];
    }
  }

  lemma ColumnAppend(results: seq<StepResult>, pick: Usage -> nat)
    requires results != [] && pick(Usage(0, 0, 0)) == 0
    ensures Sum(Column(results, pick)) ==
            Sum(Column(results[..|results| - 1], pick)) + pick(UsageOf(results[|results| - 1].result))
  {
    var before := Column(results[..|results| - 1], pick);
    SumAppend(before, pick(UsageOf(results[|results| - 1].result)));
    assert Column(results, pick) == before + [pick(UsageOf(results[|results| - 1].result))];
  }

  lemma {:induction false} TotalsAreSums(results: seq<StepResult>)
    ensures TotalUsage(results).inputTokens == Sum(Column(results, (u: Usage) => u.inputTokens))
    ensures TotalUsage(results).outputTokens == Sum(Column(results, (u: Usage) => u.outputTokens))
    ensures TotalUsage(results).totalTokens == Sum(Column(results, (u: Usage) => u.totalTokens))
  {
    if results != [] {
      hide Sum, Column;
      TotalsAreSums(results[..|results| - 1]);
      ColumnAppend(results, (u: Usage) => u.inputTokens);
      ColumnAppend(results, (u: Usage) => u.outputTokens);
      ColumnAppend(results, (u: Usage) => u.totalTokens);
    } else {
      assert forall pick: Usage -> nat :: Column([], pick) == [];
    }
  }

  lemma PairsHoldNoTotals(plan: Plan, rs: seq<Result>, n: nat, e: JobEvent)
    requires n <= |plan| && n <= |rs| && e.JobCompletion?
    ensures e !in Pairs(plan, rs, n)
  {
  }

  // The metrics published with the job's completion are, each, the sum of that
  // count over the results; the step count is the plan's.
  lemma PublishedTotals(cfg: Config, plan: Plan, eng: Engine, script: seq<Behaviour>, metrics: Usage, steps: nat)
    requires JobCompletion(metrics, steps) in Attempt(cfg, plan, eng, script).events
    ensures var p := Attempt(cfg, plan, eng, script);
            && Finished(p) && steps == |plan| == |p.results|
            && metrics.inputTokens == Sum(Column(p.results, (u: Usage) => u.inputTokens))
            && metrics.outputTokens == Sum(Column(p.results, (u: Usage) => u.outputTokens))
            && metrics.totalTokens == Sum(Column(p.results, (u: Usage) => u.totalTokens))
  {
    var p := Attempt(cfg, plan, eng, script);
    TraceShape(cfg, plan, eng, script);
    PairsHoldNoTotals(plan, Results(p.results), |p.results|, JobCompletion(metrics, steps));
    TotalsAreSums(p.results);
    hide Attempt, Sum, Column;
  }

  // With verification on, every document a completed step carries has something
  // to read, names a source if the step was given citations, and has markup
  // exactly as its format asks.
  lemma VerifiedDocuments(cfg: Config, plan: Plan, eng: Engine, script: seq<Behaviour>, i: nat)
    requires cfg.verify && i < |Attempt(cfg, plan, eng, script).results| && i < |plan| && plan[i].task.Writing?
    requires Attempt(cfg, plan, eng, script).results[i].result.Written?
    ensures var p := Attempt(cfg, plan, eng, script);
            var doc, given := p.results[i].result.document, Given(plan, Results(p.results), i);
            && (exists k :: 0 <= k < |doc.content| && !White(doc.content[k]))
            && (given.Writing? && given.citations.Some? && given.citations.value != [] ==>
                  exists c :: c in given.citations.value && Occurs(c.source, doc.content))
            && (doc.format == Html ==> HasMarkup(doc.content))
            && (doc.format == Plaintext ==> !HasMarkup(doc.content))
  {
    var p := Attempt(cfg, plan, eng, script);
    AlwaysWalked(cfg, plan, eng, script, |plan|);
    var doc, given := p.results[i].result.document, Given(plan, Results(p.results), i);
    assert Accepts(cfg, given, Results(p.results)[i]);
    GivenExactly(plan, Results(p.results), i);
    hide Given, Attempt, HasMarkup;
    forall part
      ensures Includes(doc.content, part) <==> Occurs(part, doc.content)
    {
      IncludesExactly(doc.content, part);
    }
  }

  // Whatever happens, the trace is a paired start and completion per step in
  // plan order, ending in one job completion whose tokens are the sums over the
  // steps, in one error for the failing step, or where the process died.
  lemma TraceShape(cfg: Config, plan: Plan, eng: Engine, script: seq<Behaviour>)
    ensures var p := Attempt(cfg, plan, eng, script);
            var rs := Results(p.results);
            var k := |p.results|;
            && k <= |plan|
            && match p.status
               case Going =>
                 && k == |plan|
                 && p.events == Pairs(plan, rs, k) + [JobCompletion(TotalUsage(p.results), |plan|)]
               case Failed(id, error) =>
                 && k < |plan| && id == plan[k].id
                 && p.events == Pairs(plan, rs, k) + [StepStart(id, KindOf(plan[k].task)), StepError(id, error)]
               case Crashed =>
                 && k < |plan|
                 && (p.events == Pairs(plan, rs, k) ||
                     p.events == Pairs(plan, rs, k) + [StepStart(plan[k].id, KindOf(plan[k].task))])
  {
    AlwaysWalked(cfg, plan, eng, script, |plan|);
  }
}

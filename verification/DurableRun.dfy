// The same plan attempted again and again over memos that only grow: after each
// crash, failure or suspension the loop is re-run from the top.
module DurableRun {
  import opened Prelude
  import opened Specialists
  import opened Supervisor

  // What all attempts together leave behind.
  datatype History = History(engine: Engine, calls: seq<Call>, events: seq<JobEvent>, writes: seq<Write>)

  function FreshEngine(): Engine {
    Engine(map[], map[])
  }

  // One attempt per script, each from the memos the previous ones left.
  function Runs(cfg: Config, plan: Plan, scripts: seq<seq<Behaviour>>): History {
    if scripts == [] then History(FreshEngine(), [], [], [])
    else
      var before := Runs(cfg, plan, scripts[..|scripts| - 1]);
      var p := Attempt(cfg, plan, before.engine, scripts[|scripts| - 1]);
      History(p.engine, before.calls + p.calls, before.events + p.events, before.writes + p.writes)
  }

  function LastAttempt(cfg: Config, plan: Plan, scripts: seq<seq<Behaviour>>): Progress
    requires scripts != []
  {
    Attempt(cfg, plan, Runs(cfg, plan, scripts[..|scripts| - 1]).engine, scripts[|scripts| - 1])
  }

  // The calls whose result the engine has recorded.
  function SavedCalls(calls: seq<Call>): seq<Call> {
    if calls == [] then []
    else SavedCalls(calls[..|calls| - 1]) + if calls[|calls| - 1].end.Saved? then [calls[|calls| - 1]] else []
  }

  lemma {:induction false} SavedAppend(a: seq<Call>, b: seq<Call>)
    ensures SavedCalls(a + b) == SavedCalls(a) + SavedCalls(b)
  {
    if b == [] {
      assert a + b == a;
    } else {
      SavedAppend(a, b[..|b| - 1]);
      assert (a + b)[..|a + b| - 1] == a + b[..|b| - 1];
    }
  }

  /******* Steps that share an id *******/

  // Plan validation leaves step ids free to repeat; the engine's memo is keyed
  // by them.
  predicate IsFirst(plan: Plan, i: nat)
    requires i < |plan|
  {
    forall j :: 0 <= j < i ==> plan[j].id != plan[i].id
  }

  ghost predicate DistinctIds(plan: Plan) {
    forall i, j :: 0 <= i < j < |plan| ==> plan[i].id != plan[j].id
  }

  // The steps among the first `n` whose id has not come before, in plan order.
  function Firsts(plan: Plan, n: nat): (steps: seq<nat>)
    requires n <= |plan|
    ensures forall k :: 0 <= k < |steps| ==> steps[k] < n && IsFirst(plan, steps[k])
  {
    if n == 0 then [] else Firsts(plan, n - 1) + if IsFirst(plan, n - 1) then [n - 1] else []
  }

  lemma {:induction false} FirstsDistinct(plan: Plan, n: nat)
    requires n <= |plan|
    ensures forall i, j :: 0 <= i < j < |Firsts(plan, n)| ==>
              Firsts(plan, n)[i] < Firsts(plan, n)[j] && plan[Firsts(plan, n)[i]].id != plan[Firsts(plan, n)[j]].id
  {
    if n > 0 {
      FirstsDistinct(plan, n - 1);
      var before, steps := Firsts(plan, n - 1), Firsts(plan, n);
      forall i, j | 0 <= i < j < |steps|
        ensures steps[i] < steps[j] && plan[steps[i]].id != plan[steps[j]].id
      {
        assert before <= steps && i < |before|;
        assert j == |before| ==> steps[j] == n - 1 && IsFirst(plan, n - 1);
      }
    }
  }

  lemma {:induction false} FirstsPrefix(plan: Plan, m: nat, n: nat)
    requires m <= n <= |plan|
    ensures Firsts(plan, m) <= Firsts(plan, n)
  {
    if m < n {
      FirstsPrefix(plan, m, n - 1);
    }
  }

  lemma {:induction false} FirstsSkip(plan: Plan, m: nat, n: nat)
    requires m <= n <= |plan| && forall i :: m <= i < n ==> !IsFirst(plan, i)
    ensures Firsts(plan, n) == Firsts(plan, m)
  {
    if m < n {
      FirstsSkip(plan, m, n - 1);
    }
  }

  lemma {:induction false} FirstsCount(plan: Plan, n: nat)
    requires n <= |plan|
    ensures |Firsts(plan, n)| <= n
    ensures |Firsts(plan, n)| == n <==> forall i :: 0 <= i < n ==> IsFirst(plan, i)
  {
    if n > 0 {
      FirstsCount(plan, n - 1);
    }
  }

  /******* What the memos mean *******/

  // How far the memo reaches: the first step it cannot answer.
  function Frontier(plan: Plan, memo: map<string, Result>, k: nat): (m: nat)
    requires k <= |plan|
    ensures k <= m <= |plan|
    ensures forall i :: k <= i < m ==> plan[i].id in memo
    ensures m < |plan| ==> plan[m].id !in memo
    decreases |plan| - k
  {
    if k < |plan| && plan[k].id in memo then Frontier(plan, memo, k + 1) else k
  }

  function Reached(plan: Plan, eng: Engine): (m: nat)
    ensures m <= |plan| && (forall i :: 0 <= i < m ==> plan[i].id in eng.memo)
    ensures m < |plan| ==> plan[m].id !in eng.memo
  {
    Frontier(plan, eng.memo, 0)
  }

  ghost function Remembered(plan: Plan, eng: Engine, m: nat): (rs: seq<Result>)
    requires m <= |plan| && forall i :: 0 <= i < m ==> plan[i].id in eng.memo
    ensures |rs| == m
  {
    seq(m, i requires 0 <= i < m => eng.memo[plan[i].id])
  }

  ghost function AllRemembered(plan: Plan, eng: Engine): seq<Result> {
    Remembered(plan, eng, Reached(plan, eng))
  }

  // `c` is the one saved run of step `i`: on the input the handoff gives it, with
  // the operator's edit merged in, and approved if it had to be.
  ghost predicate CallFits(cfg: Config, plan: Plan, rs: seq<Result>, eng: Engine, i: nat, c: Call)
    requires i < |plan| && i <= |rs|
  {
    && c.end.Saved?
    && c.id == plan[i].id
    && c.task == Given(plan, rs, i)
    && MergeApprovedArgs(cfg.isUuid, c.task, if c.decision.Some? then c.decision.value.args else None) == Some(c.input)
    && Cleared(cfg, eng, c.id, c.decision)
  }

  // The engine after the gate, and the decision it lets through.
  ghost predicate Cleared(cfg: Config, eng: Engine, id: string, decision: Option<Decision>) {
    if cfg.requiresApproval(id)
    then cfg.gateConfigured && decision.Some? && decision.value.approved
         && id in eng.decisions && eng.decisions[id] == decision
    else decision.None?
  }

  // The memo holds exactly the results of the first steps, and each of them comes
  // from the one saved call of the first step with its id.
  ghost predicate Consistent(cfg: Config, plan: Plan, eng: Engine, ok: seq<Call>) {
    var firsts := Firsts(plan, Reached(plan, eng));
    && |ok| == |firsts|
    && (forall id :: id in eng.memo ==> exists k :: 0 <= k < |ok| && ok[k].id == id)
    && (forall k :: 0 <= k < |ok| ==> CallFits(cfg, plan, AllRemembered(plan, eng), eng, firsts[k], ok[k]))
  }

  lemma FitAt(cfg: Config, plan: Plan, eng: Engine, ok: seq<Call>, k: nat)
    requires Consistent(cfg, plan, eng, ok)
    ensures |ok| == |Firsts(plan, Reached(plan, eng))|
    ensures k < |ok| ==>
              CallFits(cfg, plan, AllRemembered(plan, eng), eng, Firsts(plan, Reached(plan, eng))[k], ok[k])
  {
    hide CallFits, Firsts;
  }

  // A new decision for a step not yet done changes nothing that is settled.
  lemma DecisionKeepsConsistent(cfg: Config, plan: Plan, eng: Engine, ok: seq<Call>, id: string, d: Option<Decision>)
    requires Consistent(cfg, plan, eng, ok)
    requires id in eng.decisions ==> eng.decisions[id] == d
    requires id in eng.memo ==> id in eng.decisions
    ensures var eng' := eng.(decisions := eng.decisions[id := d]);
            Consistent(cfg, plan, eng', ok) && AllRemembered(plan, eng') == AllRemembered(plan, eng)
  {
    hide Given, MergeApprovedArgs, Firsts;
    var eng' := eng.(decisions := eng.decisions[id := d]);
    assert AllRemembered(plan, eng') == AllRemembered(plan, eng);
    var firsts := Firsts(plan, Reached(plan, eng));
    forall k | 0 <= k < |ok|
      ensures CallFits(cfg, plan, AllRemembered(plan, eng'), eng', firsts[k], ok[k])
    {
      assert CallFits(cfg, plan, AllRemembered(plan, eng), eng, firsts[k], ok[k]);
    }
  }

  // A step beyond the frontier whose id is remembered repeats an earlier one.
  lemma RememberedRepeats(cfg: Config, plan: Plan, eng: Engine, ok: seq<Call>, i: nat)
    requires Consistent(cfg, plan, eng, ok) && Reached(plan, eng) <= i < |plan| && plan[i].id in eng.memo
    ensures !IsFirst(plan, i)
  {
    hide Given, MergeApprovedArgs;
    var k :| 0 <= k < |ok| && ok[k].id == plan[i].id;
    var first := Firsts(plan, Reached(plan, eng))[k];
    assert CallFits(cfg, plan, AllRemembered(plan, eng), eng, first, ok[k]);
    assert plan[first].id == plan[i].id;
  }

  // Where the memo reaches once it knows the next step too: further steps it can
  // answer already repeat an id.
  lemma NextReached(cfg: Config, plan: Plan, eng: Engine, ok: seq<Call>, r: Result, m: nat, eng': Engine)
    requires Consistent(cfg, plan, eng, ok) && m == Reached(plan, eng) < |plan|
    requires eng' == eng.(memo := eng.memo[plan[m].id := r])
    ensures IsFirst(plan, m)
    ensures m < Reached(plan, eng')
    ensures Firsts(plan, Reached(plan, eng')) == Firsts(plan, m) + [m]
    ensures AllRemembered(plan, eng) + [r] <= AllRemembered(plan, eng')
  {
    hide Consistent;
    var m' := Reached(plan, eng');
    assert forall i :: 0 <= i <= m ==> plan[i].id in eng'.memo;
    forall i | m < i < m'
      ensures !IsFirst(plan, i)
    {
      if plan[i].id in eng.memo {
        RememberedRepeats(cfg, plan, eng, ok, i);
      }
    }
    FirstsSkip(plan, m + 1, m');
  }

  // The next step's body succeeds and its result is saved.
  lemma SuccessKeepsConsistent(cfg: Config, plan: Plan, eng: Engine, ok: seq<Call>, c: Call, r: Result)
    requires Consistent(cfg, plan, eng, ok) && Reached(plan, eng) < |plan|
    requires c.id == plan[Reached(plan, eng)].id
    requires CallFits(cfg, plan, AllRemembered(plan, eng), eng, Reached(plan, eng), c)
    ensures Consistent(cfg, plan, eng.(memo := eng.memo[c.id := r]), ok + [c])
  {
    hide CallFits, Firsts, Reached, AllRemembered;
    var eng', m := eng.(memo := eng.memo[c.id := r]), Reached(plan, eng);
    assert eng'.memo.Keys == eng.memo.Keys + {c.id};
    NextReached(cfg, plan, eng, ok, r, m, eng');
    SuccessFits(cfg, plan, eng, eng', ok, c, m);
    MemoCovered(eng.memo, eng'.memo, ok, c);
  }

  lemma MemoCovered(before: map<string, Result>, after: map<string, Result>, ok: seq<Call>, c: Call)
    requires forall id :: id in before ==> exists k :: 0 <= k < |ok| && ok[k].id == id
    requires after.Keys == before.Keys + {c.id}
    ensures forall id :: id in after ==> exists k :: 0 <= k < |ok + [c]| && (ok + [c])[k].id == id
  {
    forall id | id in after
      ensures exists k :: 0 <= k < |ok + [c]| && (ok + [c])[k].id == id
    {
      if id == c.id {
        assert (ok + [c])[|ok|].id == id;
      } else {
        var k :| 0 <= k < |ok| && ok[k].id == id;
        assert (ok + [c])[k].id == id;
      }
    }
  }

  lemma SuccessFits(cfg: Config, plan: Plan, before: Engine, after: Engine, ok: seq<Call>, c: Call, m: nat)
    requires Consistent(cfg, plan, before, ok) && m == Reached(plan, before) < |plan|
    requires CallFits(cfg, plan, AllRemembered(plan, before), before, m, c)
    requires before.decisions == after.decisions
    requires Firsts(plan, Reached(plan, after)) == Firsts(plan, m) + [m]
    requires AllRemembered(plan, before) <= AllRemembered(plan, after)
    ensures forall k :: 0 <= k < |ok| + 1 ==>
              CallFits(cfg, plan, AllRemembered(plan, after), after, Firsts(plan, Reached(plan, after))[k],
                       (ok + [c])[k])
  {
    hide MergeApprovedArgs, Given, Cleared;
    var rs, rs' := AllRemembered(plan, before), AllRemembered(plan, after);
    var firsts := Firsts(plan, Reached(plan, after));
    forall k | 0 <= k < |ok| + 1
      ensures CallFits(cfg, plan, rs', after, firsts[k], (ok + [c])[k])
    {
      assert k < |ok| ==> firsts[k] == Firsts(plan, m)[k];
      FitStays(cfg, plan, rs, rs', before, after, firsts[k], (ok + [c])[k]);
    }
  }

  lemma FitStays(cfg: Config, plan: Plan, rs: seq<Result>, more: seq<Result>, before: Engine, after: Engine, i: nat,
                 c: Call)
    requires i < |plan| && i <= |rs| && rs <= more && before.decisions == after.decisions
    requires CallFits(cfg, plan, rs, before, i, c)
    ensures CallFits(cfg, plan, more, after, i, c)
  {
    hide MergeApprovedArgs;
    WindowPrefix(plan, rs, more[|rs|..], i);
    assert rs + more[|rs|..] == more;
  }

  // What one step through the port leaves behind.
  ghost predicate PortOk(cfg: Config, plan: Plan, ok: seq<Call>, n: nat, port: PortOutcome) {
    && Consistent(cfg, plan, port.engine, ok + SavedCalls(port.calls))
    && (port.end.Done? ==> n < Reached(plan, port.engine))
    && (forall c :: c in port.calls ==> CallSafe(cfg, plan, port.engine, c))
  }

  lemma NothingRan(cfg: Config, plan: Plan, ok: seq<Call>, n: nat, port: PortOutcome)
    requires Consistent(cfg, plan, port.engine, ok) && port.calls == []
    requires port.end.Done? ==> n < Reached(plan, port.engine)
    ensures PortOk(cfg, plan, ok, n, port)
  {
    assert ok + SavedCalls([]) == ok;
  }

  lemma EngineStepConsistent(cfg: Config, plan: Plan, eng: Engine, ok: seq<Call>, n: nat, task: Task,
                             decision: Option<Decision>, body: BodyEvent)
    requires Consistent(cfg, plan, eng, ok)
    requires n <= Reached(plan, eng) && n < |plan|
    requires task == Given(plan, AllRemembered(plan, eng)[..n], n)
    requires Cleared(cfg, eng, plan[n].id, decision)
    ensures PortOk(cfg, plan, ok, n, RunEngineStep(cfg, eng, plan[n].id, task, decision, body))
  {
    hide Consistent, Given;
    var id := plan[n].id;
    var port := RunEngineStep(cfg, eng, id, task, decision, body);
    var input := MergeApprovedArgs(cfg.isUuid, task, if decision.Some? then decision.value.args else None);
    if id in eng.memo || input.None? {
      NothingRan(cfg, plan, ok, n, port);
    } else {
      FirstRun(cfg, plan, eng, ok, n, Call(id, task, input.value, decision, CallEndOf(body)), body, port);
    }
  }

  // The body of the first step not yet remembered runs.
  lemma AtFrontier(cfg: Config, plan: Plan, eng: Engine, ok: seq<Call>, n: nat)
    requires Consistent(cfg, plan, eng, ok)
    requires n <= Reached(plan, eng) && n < |plan| && plan[n].id !in eng.memo
    ensures n == Reached(plan, eng) && AllRemembered(plan, eng)[..n] == AllRemembered(plan, eng)
    ensures IsFirst(plan, n)
  {
  }

  lemma FirstRun(cfg: Config, plan: Plan, eng: Engine, ok: seq<Call>, n: nat, c: Call, body: BodyEvent,
                 port: PortOutcome)
    requires Consistent(cfg, plan, eng, ok)
    requires n <= Reached(plan, eng) && n < |plan| && plan[n].id !in eng.memo
    requires c.id == plan[n].id && c.task == Given(plan, AllRemembered(plan, eng)[..n], n)
    requires MergeApprovedArgs(cfg.isUuid, c.task, if c.decision.Some? then c.decision.value.args else None)
             == Some(c.input)
    requires Cleared(cfg, eng, c.id, c.decision) && c.end == CallEndOf(body)
    requires port.calls == [c] && (port.end.Done? ==> body.Returns?)
    requires port.engine == if body.Returns? then eng.(memo := eng.memo[c.id := body.result]) else eng
    ensures PortOk(cfg, plan, ok, n, port)
  {
    hide Given, MergeApprovedArgs, Consistent;
    var rs := AllRemembered(plan, eng);
    AtFrontier(cfg, plan, eng, ok, n);
    FirstRunSafe(cfg, plan, port.engine, rs, n, c);
    assert [c][..0] == [];
    assert SavedCalls([c]) == if body.Returns? then [c] else [];
    hide IsFirst, Firsts, Frontier;
    if body.Returns? {
      NextReached(cfg, plan, eng, ok, body.result, n, port.engine);
      SuccessKeepsConsistent(cfg, plan, eng, ok, c, body.result);
    } else {
      assert ok + [] == ok;
    }
  }

  lemma FirstRunSafe(cfg: Config, plan: Plan, eng: Engine, rs: seq<Result>, n: nat, c: Call)
    requires n < |plan| && n <= |rs| && IsFirst(plan, n) && c.id == plan[n].id && c.task == Given(plan, rs, n)
    requires MergeApprovedArgs(cfg.isUuid, c.task, if c.decision.Some? then c.decision.value.args else None)
             == Some(c.input)
    requires Cleared(cfg, eng, c.id, c.decision)
    ensures CallSafe(cfg, plan, eng, c)
  {
    GivenExactly(plan, rs, n);
    MergeKeepsKind(cfg.isUuid, c.task, if c.decision.Some? then c.decision.value.args else None);
    assert KindOf(c.input) == KindOf(plan[n].task);
  }

  // A body only ever runs on the first planned step with its id, as the kind that
  // was planned there, and with the recorded approval if the id is flagged.
  ghost predicate CallSafe(cfg: Config, plan: Plan, eng: Engine, c: Call) {
    && (exists i: nat :: i < |plan| && IsFirst(plan, i) && plan[i].id == c.id
                         && KindOf(c.input) == KindOf(plan[i].task))
    && Cleared(cfg, eng, c.id, c.decision)
  }

  lemma StepConsistent(cfg: Config, plan: Plan, eng: Engine, ok: seq<Call>, n: nat, task: Task, b: Behaviour)
    requires Consistent(cfg, plan, eng, ok)
    requires n <= Reached(plan, eng) && n < |plan|
    requires task == Given(plan, AllRemembered(plan, eng)[..n], n)
    ensures PortOk(cfg, plan, ok, n, RunStep(cfg, eng, plan[n].id, task, b))
  {
    hide Given, RunEngineStep, Consistent;
    var id, port := plan[n].id, RunStep(cfg, eng, plan[n].id, task, b);
    if !cfg.requiresApproval(id) {
      EngineStepConsistent(cfg, plan, eng, ok, n, task, None, b.body);
    } else if !cfg.gateConfigured || (cfg.hasStore && !b.stored) || (id !in eng.decisions && b.gate.Silent?) {
      NothingRan(cfg, plan, ok, n, port);
    } else {
      var decision := if id in eng.decisions then eng.decisions[id] else b.gate.decision;
      var eng' := eng.(decisions := eng.decisions[id := decision]);
      GateConsistent(cfg, plan, eng, ok, id, decision);
      if decision.Some? && decision.value.approved {
        EngineStepConsistent(cfg, plan, eng', ok, n, task, decision, b.body);
        SameOutcome(cfg, plan, ok, n, RunEngineStep(cfg, eng', id, task, decision, b.body), port);
      } else {
        NothingRan(cfg, plan, ok, n, port);
      }
    }
  }

  // The pending set is no part of it.
  lemma SameOutcome(cfg: Config, plan: Plan, ok: seq<Call>, n: nat, a: PortOutcome, b: PortOutcome)
    requires PortOk(cfg, plan, ok, n, a) && b == a.(writes := b.writes)
    ensures PortOk(cfg, plan, ok, n, b)
  {
    hide Consistent, CallSafe, Reached;
  }

  lemma StepDecisionsGrow(cfg: Config, eng: Engine, id: string, task: Task, b: Behaviour)
    ensures DecisionsGrow(eng, RunStep(cfg, eng, id, task, b).engine)
  {
    hide MergeApprovedArgs;
  }

  lemma GateConsistent(cfg: Config, plan: Plan, eng: Engine, ok: seq<Call>, id: string, decision: Option<Decision>)
    requires Consistent(cfg, plan, eng, ok) && cfg.requiresApproval(id)
    requires id in eng.decisions ==> eng.decisions[id] == decision
    ensures var eng' := eng.(decisions := eng.decisions[id := decision]);
            && Consistent(cfg, plan, eng', ok)
            && Reached(plan, eng') == Reached(plan, eng)
            && AllRemembered(plan, eng') == AllRemembered(plan, eng)
  {
    if id in eng.memo {
      var k :| 0 <= k < |ok| && ok[k].id == id;
      assert CallFits(cfg, plan, AllRemembered(plan, eng), eng, Firsts(plan, Reached(plan, eng))[k], ok[k]);
    }
    DecisionKeepsConsistent(cfg, plan, eng, ok, id, decision);
  }

  ghost predicate DecisionsGrow(before: Engine, after: Engine) {
    forall id :: id in before.decisions ==> id in after.decisions && after.decisions[id] == before.decisions[id]
  }

  lemma SafeStays(cfg: Config, plan: Plan, before: Engine, after: Engine, calls: seq<Call>)
    requires DecisionsGrow(before, after)
    requires forall c :: c in calls ==> CallSafe(cfg, plan, before, c)
    ensures forall c :: c in calls ==> CallSafe(cfg, plan, after, c)
  {
    hide IsFirst;
  }

  // During an attempt that began after the calls `done`.
  ghost predicate OnTrack(cfg: Config, plan: Plan, p: Progress, done: seq<Call>, n: nat)
    requires n <= |plan|
  {
    && Walked(cfg, plan, p, n)
    && Consistent(cfg, plan, p.engine, SavedCalls(done + p.calls))
    && (p.status == Going ==> n <= Reached(plan, p.engine))
    && (forall c :: c in done + p.calls ==> CallSafe(cfg, plan, p.engine, c))
  }

  lemma DispatchFacts(cfg: Config, p: Progress, step: PlannedStep, b: Behaviour)
    requires p.status == Going
    ensures var port := RunStep(cfg, p.engine, step.id, GiveHandoff(step.task, p.handoff), b);
            var q := DispatchStep(cfg, p, step, Some(b));
            q.engine == port.engine && q.calls == p.calls + port.calls && (q.status == Going ==> port.end.Done?)
  {
    hide RunStep;
  }

  // A going attempt hands the next step what its window gives it.
  lemma TaskOnTrack(cfg: Config, plan: Plan, p: Progress, n: nat)
    requires n < |plan| && Walked(cfg, plan, p, n) && p.status == Going && n <= Reached(plan, p.engine)
    ensures GiveHandoff(plan[n].task, p.handoff) == Given(plan, AllRemembered(plan, p.engine)[..n], n)
  {
    assert AllRemembered(plan, p.engine)[..n] == Results(p.results);
  }

  lemma DispatchStepOnTrack(cfg: Config, plan: Plan, p: Progress, done: seq<Call>, n: nat, b: Option<Behaviour>)
    requires n < |plan| && OnTrack(cfg, plan, p, done, n)
    ensures OnTrack(cfg, plan, DispatchStep(cfg, p, plan[n], b), done, n + 1)
  {
    hide Walked, Consistent, CallSafe, RunStep, Given, Reached;
    var q := DispatchStep(cfg, p, plan[n], b);
    StepWalks(cfg, plan, p, n, b);
    if p.status == Going && b.Some? {
      var ok := SavedCalls(done + p.calls);
      var task := GiveHandoff(plan[n].task, p.handoff);
      TaskOnTrack(cfg, plan, p, n);
      StepConsistent(cfg, plan, p.engine, ok, n, task, b.value);
      StepDecisionsGrow(cfg, p.engine, plan[n].id, task, b.value);
      DispatchFacts(cfg, p, plan[n], b.value);
      var port := RunStep(cfg, p.engine, plan[n].id, task, b.value);
      hide DispatchStep;
      SavedAppend(done + p.calls, port.calls);
      SafeStays(cfg, plan, p.engine, port.engine, done + p.calls);
      OnTrackNext(cfg, plan, p, done, n, q, port);
    }
  }

  lemma OnTrackNext(cfg: Config, plan: Plan, p: Progress, done: seq<Call>, n: nat, q: Progress, port: PortOutcome)
    requires n < |plan| && Walked(cfg, plan, q, n + 1)
    requires q.engine == port.engine && q.calls == p.calls + port.calls
    requires q.status == Going ==> port.end.Done?
    requires Consistent(cfg, plan, port.engine, SavedCalls(done + p.calls + port.calls))
    requires port.end.Done? ==> n < Reached(plan, port.engine)
    requires forall c :: c in done + p.calls ==> CallSafe(cfg, plan, port.engine, c)
    requires forall c :: c in port.calls ==> CallSafe(cfg, plan, port.engine, c)
    ensures OnTrack(cfg, plan, q, done, n + 1)
  {
    hide Walked, Consistent, CallSafe, Reached;
    assert done + q.calls == done + p.calls + port.calls;
  }

  ghost predicate HistoryOk(cfg: Config, plan: Plan, h: History) {
    && Consistent(cfg, plan, h.engine, SavedCalls(h.calls))
    && (forall c :: c in h.calls ==> CallSafe(cfg, plan, h.engine, c))
  }

  lemma StartOnTrack(cfg: Config, plan: Plan, h: History)
    requires HistoryOk(cfg, plan, h)
    ensures OnTrack(cfg, plan, Begin(h.engine), h.calls, 0)
  {
    hide Consistent, CallSafe;
    StartWalks(cfg, plan, h.engine);
    assert h.calls + [] == h.calls;
  }

  lemma StepsOnTrack(cfg: Config, plan: Plan, done: seq<Call>, inv: (Progress, nat) -> bool)
    requires forall p, m: nat | m <= |plan| :: inv(p, m) <==> OnTrack(cfg, plan, p, done, m)
    ensures forall p, m: nat, b | m < |plan| && inv(p, m) :: inv(DispatchStep(cfg, p, plan[m], b), m + 1)
  {
    hide OnTrack, DispatchStep;
    forall p, m: nat, b | m < |plan| && inv(p, m)
      ensures inv(DispatchStep(cfg, p, plan[m], b), m + 1)
    {
      DispatchStepOnTrack(cfg, plan, p, done, m, b);
    }
  }

  lemma AfterOnTrack(cfg: Config, plan: Plan, h: History, script: seq<Behaviour>)
    requires HistoryOk(cfg, plan, h)
    ensures OnTrack(cfg, plan, After(cfg, plan, h.engine, script, |plan|), h.calls, |plan|)
  {
    hide OnTrack, DispatchStep, HistoryOk;
    var inv := (p: Progress, m: nat) => m <= |plan| && OnTrack(cfg, plan, p, h.calls, m);
    StartOnTrack(cfg, plan, h);
    StepsOnTrack(cfg, plan, h.calls, inv);
    AfterInduction(cfg, plan, h.engine, script, |plan|, inv);
    assert inv(After(cfg, plan, h.engine, script, |plan|), |plan|);
  }

  // Over any attempts at any plan the memo holds exactly what one saved call per
  // id produced, each on the right, approved input.
  lemma {:induction false} AlwaysConsistent(cfg: Config, plan: Plan, scripts: seq<seq<Behaviour>>)
    ensures HistoryOk(cfg, plan, Runs(cfg, plan, scripts))
  {
    if scripts == [] {
      assert SavedCalls([]) == [] && Firsts(plan, 0) == [];
      assert Reached(plan, FreshEngine()) == 0;
    } else {
      AlwaysConsistent(cfg, plan, scripts[..|scripts| - 1]);
      hide Consistent, CallSafe, After;
      AfterOnTrack(cfg, plan, Runs(cfg, plan, scripts[..|scripts| - 1]), scripts[|scripts| - 1]);
    }
  }

  // Over any sequence of crashes and re-runs each step's body is saved at most
  // once, in plan order.
  lemma BodiesSucceedOnce(cfg: Config, plan: Plan, scripts: seq<seq<Behaviour>>)
    ensures var ok, firsts := SavedCalls(Runs(cfg, plan, scripts).calls), Firsts(plan, |plan|);
            && |ok| <= |firsts|
            && (forall k :: 0 <= k < |ok| ==> ok[k].id == plan[firsts[k]].id)
            && (forall i, j :: 0 <= i < j < |ok| ==> ok[i].id != ok[j].id)
  {
    AlwaysConsistent(cfg, plan, scripts);
    hide CallSafe, MergeApprovedArgs, Given;
    var h := Runs(cfg, plan, scripts);
    var ok, m := SavedCalls(h.calls), Reached(plan, h.engine);
    FirstsPrefix(plan, m, |plan|);
    FirstsDistinct(plan, |plan|);
    forall k | 0 <= k < |ok|
      ensures ok[k].id == plan[Firsts(plan, |plan|)[k]].id
    {
      assert CallFits(cfg, plan, AllRemembered(plan, h.engine), h.engine, Firsts(plan, m)[k], ok[k]);
    }
  }

  // No body ever runs again once a result of its step is saved; so a body that
  // returned runs again only if its result was lost.
  ghost predicate NoneAfterSaved(eng: Engine, calls: seq<Call>) {
    && (forall c :: c in calls && c.end.Saved? ==> c.id in eng.memo)
    && (forall i, j :: 0 <= i < j < |calls| && calls[i].id == calls[j].id ==> !calls[i].end.Saved?)
  }

  // A step runs at most one body, its own, and only if it has no saved result.
  lemma PortCalls(cfg: Config, eng: Engine, id: string, task: Task, b: Behaviour)
    ensures var port := RunStep(cfg, eng, id, task, b);
            && |port.calls| <= 1
            && (forall c :: c in port.calls ==>
                  c.id == id && id !in eng.memo && (c.end.Saved? ==> id in port.engine.memo))
            && (forall i :: i in eng.memo ==> i in port.engine.memo)
  {
    hide MergeApprovedArgs;
  }

  lemma MoreCalls(eng: Engine, calls: seq<Call>, after: Engine, more: seq<Call>, id: string)
    requires NoneAfterSaved(eng, calls) && |more| <= 1
    requires forall c :: c in more ==> c.id == id && id !in eng.memo && (c.end.Saved? ==> id in after.memo)
    requires forall i :: i in eng.memo ==> i in after.memo
    ensures NoneAfterSaved(after, calls + more)
  {
    if more == [] {
      assert calls + more == calls;
    } else {
      var all := calls + more;
      assert more == [more[0]];
      forall i, j | 0 <= i < j < |all| && all[i].id == all[j].id
        ensures !all[i].end.Saved?
      {
        assert all[i] == calls[i] && all[i] in calls;
        assert j == |calls| ==> all[j] == more[0];
      }
    }
  }

  lemma StepAfterSaved(cfg: Config, p: Progress, step: PlannedStep, b: Option<Behaviour>, done: seq<Call>)
    requires NoneAfterSaved(p.engine, done + p.calls)
    ensures NoneAfterSaved(DispatchStep(cfg, p, step, b).engine, done + DispatchStep(cfg, p, step, b).calls)
  {
    hide NoneAfterSaved, RunStep;
    if p.status == Going && b.Some? {
      var task := GiveHandoff(step.task, p.handoff);
      DispatchFacts(cfg, p, step, b.value);
      hide DispatchStep;
      var port := RunStep(cfg, p.engine, step.id, task, b.value);
      PortCalls(cfg, p.engine, step.id, task, b.value);
      MoreCalls(p.engine, done + p.calls, port.engine, port.calls, step.id);
      assert done + (p.calls + port.calls) == done + p.calls + port.calls;
    }
  }

  lemma {:induction false} AlwaysAfterSaved(cfg: Config, plan: Plan, scripts: seq<seq<Behaviour>>)
    ensures NoneAfterSaved(Runs(cfg, plan, scripts).engine, Runs(cfg, plan, scripts).calls)
  {
    if scripts != [] {
      var h, script := Runs(cfg, plan, scripts[..|scripts| - 1]), scripts[|scripts| - 1];
      AlwaysAfterSaved(cfg, plan, scripts[..|scripts| - 1]);
      hide NoneAfterSaved, DispatchStep;
      var inv := (p: Progress, m: nat) => NoneAfterSaved(p.engine, h.calls + p.calls);
      assert h.calls + [] == h.calls;
      forall p, m: nat, b | m < |plan| && inv(p, m)
        ensures inv(DispatchStep(cfg, p, plan[m], b), m + 1)
      {
        StepAfterSaved(cfg, p, plan[m], b, h.calls);
      }
      AfterInduction(cfg, plan, h.engine, script, |plan|, inv);
      assert inv(After(cfg, plan, h.engine, script, |plan|), |plan|);
    }
  }

  // If a step's body runs twice, the first run was not saved: it died, threw, or
  // returned to an engine that died before recording the result.
  lemma RunsAgainOnlyIfLost(cfg: Config, plan: Plan, scripts: seq<seq<Behaviour>>, i: nat, j: nat)
    requires i < j < |Runs(cfg, plan, scripts).calls|
    requires Runs(cfg, plan, scripts).calls[i].id == Runs(cfg, plan, scripts).calls[j].id
    ensures var end := Runs(cfg, plan, scripts).calls[i].end; end.Died? || end.Threw? || end.Unsaved?
  {
    AlwaysAfterSaved(cfg, plan, scripts);
  }

  // Whatever the plan, no flagged step's body runs without the recorded approval,
  // and no edit changes the kind of specialist that runs, whether or not the run
  // succeeds: it is the kind of the first planned step with that id.
  lemma BodiesAreApproved(cfg: Config, plan: Plan, scripts: seq<seq<Behaviour>>, c: Call)
    requires c in Runs(cfg, plan, scripts).calls
    ensures var h := Runs(cfg, plan, scripts);
            && (cfg.requiresApproval(c.id) ==>
                  && c.decision.Some? && c.decision.value.approved
                  && c.id in h.engine.decisions && h.engine.decisions[c.id] == c.decision)
            && (!cfg.requiresApproval(c.id) ==> c.decision.None?)
    ensures exists i: nat :: i < |plan| && IsFirst(plan, i) && plan[i].id == c.id
                             && KindOf(c.input) == KindOf(plan[i].task)
  {
    AlwaysConsistent(cfg, plan, scripts);
  }

  // Over all attempts, a document step without citations of its own was run on
  // exactly what the research steps since the last consumer found, in order, and
  // every other step on its own input.
  lemma HandedExactly(cfg: Config, plan: Plan, scripts: seq<seq<Behaviour>>, k: nat)
    requires k < |SavedCalls(Runs(cfg, plan, scripts).calls)|
    ensures var h := Runs(cfg, plan, scripts);
            && k < |Firsts(plan, |plan|)|
            && var i, rs := Firsts(plan, |plan|)[k], AllRemembered(plan, h.engine);
               i <= |rs|
               && var found := Gather(rs, WindowStart(plan, rs, i), i);
                  SavedCalls(h.calls)[k].task ==
                  if plan[i].task.Writing? && plan[i].task.citations.None? && found != []
                  then plan[i].task.(citations := Some(found)) else plan[i].task
  {
    AlwaysConsistent(cfg, plan, scripts);
    hide CallSafe, MergeApprovedArgs;
    var h := Runs(cfg, plan, scripts);
    var m := Reached(plan, h.engine);
    FirstsPrefix(plan, m, |plan|);
    var i, rs := Firsts(plan, m)[k], AllRemembered(plan, h.engine);
    assert CallFits(cfg, plan, rs, h.engine, i, SavedCalls(h.calls)[k]);
    GivenExactly(plan, rs, i);
  }

  /******* The uninterrupted run *******/

  // Every gate and every body answers at once, as the memos say they did.
  function PerfectScript(plan: Plan, eng: Engine): (script: seq<Behaviour>)
    ensures |script| == |plan|
  {
    seq(|plan|, i requires 0 <= i < |plan| =>
      Behaviour(true,
                if plan[i].id in eng.decisions then Arrives(eng.decisions[plan[i].id]) else Silent,
                if plan[i].id in eng.memo then Returns(eng.memo[plan[i].id]) else Dies,
                true, true))
  }

  // What the perfect run has put into its own memos by step `n`.
  ghost predicate Mirrors(cfg: Config, plan: Plan, eng: Engine, own: Engine, n: nat)
    requires n <= |plan|
  {
    && (forall id :: id in own.memo ==> id in eng.memo && own.memo[id] == eng.memo[id])
    && (forall id :: id in own.memo <==> exists i :: 0 <= i < n && plan[i].id == id)
    && (forall id :: id in own.decisions ==> id in eng.decisions && own.decisions[id] == eng.decisions[id])
  }

  ghost predicate PerfectSoFar(cfg: Config, plan: Plan, eng: Engine, ok: seq<Call>, rs: seq<Result>, p: Progress,
                               n: nat)
    requires n <= |plan| && n <= |rs|
  {
    && p.status == Going
    && |Firsts(plan, n)| <= |ok|
    && p.calls == ok[..|Firsts(plan, n)|]
    && |p.results| == n
    && Results(p.results) == rs[..n]
    && p.handoff == Gather(rs, WindowStart(plan, rs, n), n)
    && Mirrors(cfg, plan, eng, p.engine, n)
  }

  // A finished history: every step's result is remembered.
  ghost predicate Complete(cfg: Config, plan: Plan, eng: Engine, ok: seq<Call>) {
    && Consistent(cfg, plan, eng, ok)
    && Reached(plan, eng) == |plan|
    && AllAccepted(cfg, plan, AllRemembered(plan, eng))
  }

  // Every remembered step's gate let it through.
  lemma RememberedCleared(cfg: Config, plan: Plan, eng: Engine, ok: seq<Call>, id: string)
    requires Consistent(cfg, plan, eng, ok) && id in eng.memo && cfg.requiresApproval(id)
    ensures cfg.gateConfigured && id in eng.decisions
            && eng.decisions[id].Some? && eng.decisions[id].value.approved
  {
    hide MergeApprovedArgs, Given;
    var k :| 0 <= k < |ok| && ok[k].id == id;
    assert CallFits(cfg, plan, AllRemembered(plan, eng), eng, Firsts(plan, Reached(plan, eng))[k], ok[k]);
  }

  // The saved call of a first step.
  lemma CallOfFirst(cfg: Config, plan: Plan, eng: Engine, ok: seq<Call>, n: nat)
    requires Consistent(cfg, plan, eng, ok) && n < Reached(plan, eng) && IsFirst(plan, n)
    ensures |Firsts(plan, n)| < |ok|
    ensures CallFits(cfg, plan, AllRemembered(plan, eng), eng, n, ok[|Firsts(plan, n)|])
  {
    hide CallFits, Consistent, AllRemembered, Reached;
    FirstsPrefix(plan, n + 1, Reached(plan, eng));
    var k := |Firsts(plan, n)|;
    assert Firsts(plan, n + 1) == Firsts(plan, n) + [n];
    assert k < |Firsts(plan, Reached(plan, eng))| && Firsts(plan, Reached(plan, eng))[k] == n;
    FitAt(cfg, plan, eng, ok, k);
  }

  // What the perfect run's step through the port does.
  ghost predicate PerfectPort(plan: Plan, eng: Engine, ok: seq<Call>, rs: seq<Result>, own: Engine, n: nat,
                              port: PortOutcome)
    requires n < |plan| && n < |rs|
  {
    && port.end == Done(rs[n])
    && port.calls == (if IsFirst(plan, n) && |Firsts(plan, n)| < |ok| then [ok[|Firsts(plan, n)|]] else [])
    && (IsFirst(plan, n) ==> |Firsts(plan, n)| < |ok|)
    && port.engine.memo == own.memo[plan[n].id := rs[n]]
    && (forall id :: id in port.engine.decisions ==>
          (id in own.decisions && port.engine.decisions[id] == own.decisions[id])
          || (id == plan[n].id && id in eng.decisions && port.engine.decisions[id] == eng.decisions[id]))
  }

  // A repeated id is replayed from the perfect run's own memo.
  lemma PerfectReplay(cfg: Config, plan: Plan, eng: Engine, ok: seq<Call>, own: Engine, n: nat, task: Task)
    requires Complete(cfg, plan, eng, ok) && n < |plan| && !IsFirst(plan, n)
    requires Mirrors(cfg, plan, eng, own, n)
    ensures PerfectPort(plan, eng, ok, AllRemembered(plan, eng), own, n,
                        RunStep(cfg, own, plan[n].id, task, PerfectScript(plan, eng)[n]))
  {
    hide Consistent, RunStep, AllAccepted, Firsts;
    var id, rs := plan[n].id, AllRemembered(plan, eng);
    OwnMemo(cfg, plan, eng, own, n);
    assert rs[n] == eng.memo[id];
    if cfg.requiresApproval(id) {
      RememberedCleared(cfg, plan, eng, ok, id);
    }
    ReplayedStep(cfg, eng, own, id, task, PerfectScript(plan, eng)[n]);
    assert own.memo[id := rs[n]] == own.memo;
  }

  lemma OwnMemo(cfg: Config, plan: Plan, eng: Engine, own: Engine, n: nat)
    requires n < |plan| && Mirrors(cfg, plan, eng, own, n)
    ensures plan[n].id in own.memo <==> !IsFirst(plan, n)
  {
  }

  lemma ReplayedStep(cfg: Config, eng: Engine, own: Engine, id: string, task: Task, b: Behaviour)
    requires id in own.memo && b.stored && (id in eng.decisions ==> b.gate == Arrives(eng.decisions[id]))
    requires cfg.requiresApproval(id) ==>
               cfg.gateConfigured && id in eng.decisions
               && eng.decisions[id].Some? && eng.decisions[id].value.approved
    requires forall i :: i in own.decisions ==> i in eng.decisions && own.decisions[i] == eng.decisions[i]
    ensures var port := RunStep(cfg, own, id, task, b);
            && port.end == Done(own.memo[id]) && port.calls == [] && port.engine.memo == own.memo
            && (forall i :: i in port.engine.decisions ==>
                  (i in own.decisions && port.engine.decisions[i] == own.decisions[i])
                  || (i == id && i in eng.decisions && port.engine.decisions[i] == eng.decisions[i]))
  {
  }

  // The first step with its id runs the body as the saved call did.
  lemma PerfectCall(cfg: Config, plan: Plan, eng: Engine, ok: seq<Call>, own: Engine, n: nat, task: Task)
    requires Complete(cfg, plan, eng, ok) && n < |plan| && IsFirst(plan, n)
    requires Mirrors(cfg, plan, eng, own, n)
    requires task == Given(plan, AllRemembered(plan, eng), n)
    ensures PerfectPort(plan, eng, ok, AllRemembered(plan, eng), own, n,
                        RunStep(cfg, own, plan[n].id, task, PerfectScript(plan, eng)[n]))
  {
    hide Consistent, MergeApprovedArgs, AllAccepted, Firsts, Frontier, Given;
    var id, rs := plan[n].id, AllRemembered(plan, eng);
    CallOfFirst(cfg, plan, eng, ok, n);
    var c := ok[|Firsts(plan, n)|];
    assert c == Call(id, task, c.input, c.decision, Saved);
    OwnMemo(cfg, plan, eng, own, n);
    assert rs[n] == eng.memo[id];
    hide RunStep, IsFirst;
    PerfectBody(cfg, eng, own, c, PerfectScript(plan, eng)[n], rs[n]);
  }

  lemma PerfectBody(cfg: Config, eng: Engine, own: Engine, c: Call, b: Behaviour, r: Result)
    requires c.end == Saved && c.id !in own.memo && Cleared(cfg, eng, c.id, c.decision)
    requires MergeApprovedArgs(cfg.isUuid, c.task, if c.decision.Some? then c.decision.value.args else None)
             == Some(c.input)
    requires forall id :: id in own.decisions ==> id in eng.decisions && own.decisions[id] == eng.decisions[id]
    requires b.stored && b.body == Returns(r) && (c.id in eng.decisions ==> b.gate == Arrives(eng.decisions[c.id]))
    ensures var port := RunStep(cfg, own, c.id, c.task, b);
            && port.end == Done(r) && port.calls == [c]
            && port.engine.memo == own.memo[c.id := r]
            && (forall id :: id in port.engine.decisions ==>
                  (id in own.decisions && port.engine.decisions[id] == own.decisions[id])
                  || (id == c.id && id in eng.decisions && port.engine.decisions[id] == eng.decisions[id]))
  {
    hide MergeApprovedArgs;
  }

  lemma PerfectStep(cfg: Config, plan: Plan, eng: Engine, ok: seq<Call>, p: Progress, n: nat)
    requires Complete(cfg, plan, eng, ok) && n < |plan|
    requires PerfectSoFar(cfg, plan, eng, ok, AllRemembered(plan, eng), p, n)
    ensures PerfectSoFar(cfg, plan, eng, ok, AllRemembered(plan, eng),
                         DispatchStep(cfg, p, plan[n], Some(PerfectScript(plan, eng)[n])), n + 1)
  {
    hide Consistent, RunStep, Mirrors, Gather, WindowStart;
    var rs := AllRemembered(plan, eng);
    var b := PerfectScript(plan, eng)[n];
    var task := GiveHandoff(plan[n].task, p.handoff);
    if IsFirst(plan, n) {
      PerfectCall(cfg, plan, eng, ok, p.engine, n, task);
    } else {
      PerfectReplay(cfg, plan, eng, ok, p.engine, n, task);
    }
    hide IsFirst, Firsts;
    assert Accepts(cfg, Given(plan, rs, n), rs[n]);
    hide Accepts;
    PerfectNext(cfg, plan, eng, ok, rs, p, n, DispatchStep(cfg, p, plan[n], Some(b)),
                RunStep(cfg, p.engine, plan[n].id, task, b));
  }

  lemma MirrorsNext(cfg: Config, plan: Plan, eng: Engine, ok: seq<Call>, rs: seq<Result>, own: Engine, n: nat,
                    port: PortOutcome)
    requires n < |plan| == |rs| && plan[n].id in eng.memo && rs[n] == eng.memo[plan[n].id]
    requires Mirrors(cfg, plan, eng, own, n) && PerfectPort(plan, eng, ok, rs, own, n, port)
    ensures Mirrors(cfg, plan, eng, port.engine, n + 1)
  {
    hide IsFirst, Firsts;
    forall id
      ensures id in port.engine.memo <==> exists i :: 0 <= i < n + 1 && plan[i].id == id
    {
      assert id in own.memo <==> exists i :: 0 <= i < n && plan[i].id == id;
    }
  }

  lemma PerfectNext(cfg: Config, plan: Plan, eng: Engine, ok: seq<Call>, rs: seq<Result>, p: Progress, n: nat,
                    q: Progress, port: PortOutcome)
    requires |plan| == |rs| && n < |plan| && plan[n].id in eng.memo && rs[n] == eng.memo[plan[n].id]
    requires PerfectSoFar(cfg, plan, eng, ok, rs, p, n) && PerfectPort(plan, eng, ok, rs, p.engine, n, port)
    requires q.status == Going && q.engine == port.engine
    requires q.results == p.results + [StepResult(plan[n].id, rs[n])]
    requires q.calls == p.calls + port.calls
    requires q.handoff == (if ConsumesHandoff(plan[n].task, p.handoff) then [] else p.handoff) + CitationsOf(rs[n])
    ensures PerfectSoFar(cfg, plan, eng, ok, rs, q, n + 1)
  {
    hide ConsumesHandoff, CitationsOf, WindowStart, Gather, Mirrors, Firsts, IsFirst;
    MirrorsNext(cfg, plan, eng, ok, rs, p.engine, n, port);
    CallsAlong(plan, ok, n);
    assert Results(q.results) == Results(p.results) + [rs[n]];
    assert rs[..n + 1] == rs[..n] + [rs[n]];
    HandoffAlong(plan, rs, n);
  }

  lemma CallsAlong(plan: Plan, ok: seq<Call>, n: nat)
    requires n < |plan| && |Firsts(plan, n)| <= |ok| && (IsFirst(plan, n) ==> |Firsts(plan, n)| < |ok|)
    ensures |Firsts(plan, n + 1)| <= |ok|
    ensures ok[..|Firsts(plan, n + 1)|] ==
            ok[..|Firsts(plan, n)|] + if IsFirst(plan, n) then [ok[|Firsts(plan, n)|]] else []
  {
    hide IsFirst;
  }

  // The handoff after step `n`, read off the whole list of results.
  lemma HandoffAlong(plan: Plan, rs: seq<Result>, n: nat)
    requires |plan| == |rs| && n < |plan|
    ensures Gather(rs, WindowStart(plan, rs, n + 1), n + 1) ==
            (if Consumer(plan, rs, n) then [] else Gather(rs, WindowStart(plan, rs, n), n)) + CitationsOf(rs[n])
  {
    assert rs == rs[..n] + rs[n..] && rs == rs[..n + 1] + rs[n + 1..] && rs[..n + 1] == rs[..n] + [rs[n]];
    HandoffOn(plan, rs[..n], rs[n], n);
    WindowPrefix(plan, rs[..n], rs[n..], n);
    GatherPrefix(rs[..n], rs[n..], WindowStart(plan, rs[..n], n), n);
    WindowPrefix(plan, rs[..n + 1], rs[n + 1..], n + 1);
    GatherPrefix(rs[..n + 1], rs[n + 1..], WindowStart(plan, rs[..n + 1], n + 1), n + 1);
  }

  lemma PerfectStart(cfg: Config, plan: Plan, eng: Engine, ok: seq<Call>)
    ensures PerfectSoFar(cfg, plan, eng, ok, AllRemembered(plan, eng), Begin(FreshEngine()), 0)
  {
    assert Results([]) == AllRemembered(plan, eng)[..0];
  }

  lemma {:induction false} PerfectRun(cfg: Config, plan: Plan, eng: Engine, ok: seq<Call>, n: nat)
    requires Complete(cfg, plan, eng, ok) && n <= |plan|
    ensures PerfectSoFar(cfg, plan, eng, ok, AllRemembered(plan, eng),
                         After(cfg, plan, FreshEngine(), PerfectScript(plan, eng), n), n)
  {
    hide PerfectSoFar, DispatchStep, PerfectScript, Consistent, AllAccepted, FreshEngine;
    var script := PerfectScript(plan, eng);
    if n == 0 {
      PerfectStart(cfg, plan, eng, ok);
    } else {
      PerfectRun(cfg, plan, eng, ok, n - 1);
      PerfectStep(cfg, plan, eng, ok, After(cfg, plan, FreshEngine(), script, n - 1), n - 1);
      AfterStep(cfg, plan, FreshEngine(), script, n - 1);
    }
  }

  // What a finished attempt leaves is complete.
  lemma FinishedComplete(cfg: Config, plan: Plan, scripts: seq<seq<Behaviour>>)
    requires scripts != [] && Finished(LastAttempt(cfg, plan, scripts))
    ensures var h, p := Runs(cfg, plan, scripts), LastAttempt(cfg, plan, scripts);
            && Complete(cfg, plan, h.engine, SavedCalls(h.calls))
            && AllRemembered(plan, h.engine) == Results(p.results)
            && |p.results| == |plan|
            && forall i :: 0 <= i < |plan| ==> p.results[i].id == plan[i].id
  {
    hide Consistent, DispatchStep, Gather, WindowStart, Pairs, CallSafe, Accepts;
    var before := Runs(cfg, plan, scripts[..|scripts| - 1]);
    AlwaysConsistent(cfg, plan, scripts[..|scripts| - 1]);
    AfterOnTrack(cfg, plan, before, scripts[|scripts| - 1]);
    var h, p := Runs(cfg, plan, scripts), LastAttempt(cfg, plan, scripts);
    assert AllRemembered(plan, h.engine) == Results(p.results);
  }

  // Replay equivalence. After any sequence of crashed, failed and suspended
  // attempts at any plan, the attempt that finishes returns the results and
  // publishes the events of one uninterrupted run with the same outcomes; and the
  // saved runs of bodies over all attempts, with their inputs, are that run's calls.
  lemma ReplayEquivalence(cfg: Config, plan: Plan, scripts: seq<seq<Behaviour>>)
    requires scripts != [] && Finished(LastAttempt(cfg, plan, scripts))
    ensures var h := Runs(cfg, plan, scripts);
            var p := LastAttempt(cfg, plan, scripts);
            var u := Attempt(cfg, plan, FreshEngine(), PerfectScript(plan, h.engine));
            && Finished(u)
            && u.results == p.results
            && u.events == p.events
            && u.calls == SavedCalls(h.calls)
  {
    hide DispatchStep, PerfectScript, Consistent, AllAccepted, Gather, WindowStart, Mirrors;
    var before := Runs(cfg, plan, scripts[..|scripts| - 1]);
    var h := Runs(cfg, plan, scripts);
    var ok := SavedCalls(h.calls);
    FinishedComplete(cfg, plan, scripts);
    PerfectRun(cfg, plan, h.engine, ok, |plan|);
    SavedAll(cfg, plan, h.engine, ok);
    assert ok[..|ok|] == ok;
    var rs := AllRemembered(plan, h.engine);
    assert rs[..|plan|] == rs;
    SameResults(cfg, plan, before.engine, scripts[|scripts| - 1], FreshEngine(), PerfectScript(plan, h.engine));
  }

  lemma SavedAll(cfg: Config, plan: Plan, eng: Engine, ok: seq<Call>)
    requires Complete(cfg, plan, eng, ok)
    ensures |ok| == |Firsts(plan, |plan|)|
  {
  }

  /******* When ids repeat *******/

  // A finished plan has one saved call per step, that is, every step has a result
  // of its own, exactly when no id repeats, which plan validation does not check.
  lemma OwnResultsExactly(cfg: Config, plan: Plan, scripts: seq<seq<Behaviour>>)
    requires scripts != [] && Finished(LastAttempt(cfg, plan, scripts))
    ensures |SavedCalls(Runs(cfg, plan, scripts).calls)| == |plan| <==> DistinctIds(plan)
  {
    hide Complete, Consistent, Firsts;
    FinishedComplete(cfg, plan, scripts);
    SavedAll(cfg, plan, Runs(cfg, plan, scripts).engine, SavedCalls(Runs(cfg, plan, scripts).calls));
    FirstsCount(plan, |plan|);
    FirstEverywhere(plan);
  }

  lemma FirstEverywhere(plan: Plan)
    ensures (forall i :: 0 <= i < |plan| ==> IsFirst(plan, i)) <==> DistinctIds(plan)
  {
    if forall i :: 0 <= i < |plan| ==> IsFirst(plan, i) {
      forall i, j | 0 <= i < j < |plan|
        ensures plan[i].id != plan[j].id
      {
        assert IsFirst(plan, j);
      }
    }
  }

  // Steps that share an id end with one result, whatever they were asked to do.
  lemma RepeatedIdRepeatsResult(cfg: Config, plan: Plan, scripts: seq<seq<Behaviour>>, i: nat, j: nat)
    requires i < j < |plan| && plan[i].id == plan[j].id
    requires scripts != [] && Finished(LastAttempt(cfg, plan, scripts))
    ensures var p := LastAttempt(cfg, plan, scripts);
            |p.results| == |plan| && p.results[i].result == p.results[j].result
  {
    hide DispatchStep, Gather, WindowStart, Pairs;
    var before := Runs(cfg, plan, scripts[..|scripts| - 1]);
    AlwaysWalked(cfg, plan, before.engine, scripts[|scripts| - 1], |plan|);
  }

  // The plan that shows it: research, then processing under the same id. It
  // finishes, the processing body never runs, and its step ends with the findings.
  lemma ProcessingEndsWithFindings(cfg: Config, x: string, query: string, operation: string, findings: string)
    requires !cfg.requiresApproval(x)
    ensures var plan := [PlannedStep(x, Research(query, None)), PlannedStep(x, Processing(operation, None))];
            var result := Findings(findings, []);
            var script := [Behaviour(true, Silent, Returns(result), true, true),
                           Behaviour(true, Silent, Dies, true, true)];
            var p := LastAttempt(cfg, plan, [script]);
            && Finished(p)
            && p.results == [StepResult(x, result), StepResult(x, result)]
            && p.calls == [Call(x, plan[0].task, plan[0].task, None, Saved)]
  {
    var plan := [PlannedStep(x, Research(query, None)), PlannedStep(x, Processing(operation, None))];
    var result := Findings(findings, []);
    var script := [Behaviour(true, Silent, Returns(result), true, true), Behaviour(true, Silent, Dies, true, true)];
    var scripts: seq<seq<Behaviour>> := [script];
    assert scripts[..0] == [];
    var p0 := Begin(FreshEngine());
    var p1 := DispatchStep(cfg, p0, plan[0], Some(script[0]));
    assert p1.engine.memo == map[x := result] && p1.status == Going && p1.results == [StepResult(x, result)];
    var p2 := DispatchStep(cfg, p1, plan[1], Some(script[1]));
    assert p2.status == Going && p2.results == [StepResult(x, result), StepResult(x, result)];
    assert After(cfg, plan, FreshEngine(), script, 1) == p1;
    assert After(cfg, plan, FreshEngine(), script, 2) == p2;
  }

  // Two finished attempts with equal results agree on everything published.
  lemma SameResults(cfg: Config, plan: Plan, e1: Engine, s1: seq<Behaviour>, e2: Engine, s2: seq<Behaviour>)
    requires Finished(Attempt(cfg, plan, e1, s1)) && Finished(Attempt(cfg, plan, e2, s2))
    requires Results(Attempt(cfg, plan, e1, s1).results) == Results(Attempt(cfg, plan, e2, s2).results)
    ensures Attempt(cfg, plan, e1, s1).results == Attempt(cfg, plan, e2, s2).results
    ensures Attempt(cfg, plan, e1, s1).events == Attempt(cfg, plan, e2, s2).events
  {
    AlwaysWalked(cfg, plan, e1, s1, |plan|);
    AlwaysWalked(cfg, plan, e2, s2, |plan|);
    var a, b := After(cfg, plan, e1, s1, |plan|).results, After(cfg, plan, e2, s2, |plan|).results;
    forall i | 0 <= i < |plan|
      ensures a[i] == b[i]
    {
      assert a[i].result == Results(a)[i] == Results(b)[i];
    }
    assert a == b;
  }
}

// What the approval gate, the checkpoint and the step store promise, step by step
// and over whole histories.
module Gate {
  import opened Prelude
  import opened Specialists
  import opened Supervisor
  import opened DurableRun

  /******* How a step ends *******/

  // The step's pending row is written and its gate awaited.
  predicate AtGate(cfg: Config, id: string, b: Behaviour) {
    cfg.requiresApproval(id) && cfg.gateConfigured && (cfg.hasStore ==> b.stored)
  }

  predicate ApprovedIn(eng: Engine, id: string) {
    id in eng.decisions && eng.decisions[id].Some? && eng.decisions[id].value.approved
  }

  // The gate, if there is one, has let the step through.
  predicate Passes(cfg: Config, id: string, b: Behaviour, after: Engine) {
    cfg.requiresApproval(id) ==> AtGate(cfg, id, b) && ApprovedIn(after, id)
  }

  // The arguments the operator sent along.
  function ApprovedArgs(cfg: Config, id: string, after: Engine): Option<Json> {
    if cfg.requiresApproval(id) && ApprovedIn(after, id) then after.decisions[id].value.args else None
  }

  // Which decision counts: the recorded one if there is one, else the first that
  // arrives.
  lemma FirstDecisionCounts(cfg: Config, p: Progress, step: PlannedStep, b: Behaviour, q: Progress)
    requires p.status == Going && q == DispatchStep(cfg, p, step, Some(b))
    ensures q.engine.decisions ==
            if AtGate(cfg, step.id, b) && step.id !in p.engine.decisions && b.gate.Arrives?
            then p.engine.decisions[step.id := b.gate.decision] else p.engine.decisions
  {
    hide MergeApprovedArgs, Rejects;
    if AtGate(cfg, step.id, b) && step.id in p.engine.decisions {
      assert p.engine.decisions[step.id := p.engine.decisions[step.id]] == p.engine.decisions;
    }
  }

  // How a step ends at its gate, exactly.
  lemma GateExactly(cfg: Config, p: Progress, step: PlannedStep, b: Behaviour, q: Progress)
    requires p.status == Going && b.published && q == DispatchStep(cfg, p, step, Some(b))
    ensures q.status == Failed(step.id, Misconfigured) <==> cfg.requiresApproval(step.id) && !cfg.gateConfigured
    ensures q.status == Failed(step.id, StoreError) <==>
            cfg.requiresApproval(step.id) && cfg.gateConfigured && cfg.hasStore && !b.stored
    ensures q.status == Failed(step.id, Expired) <==>
            AtGate(cfg, step.id, b) && step.id in q.engine.decisions && q.engine.decisions[step.id].None?
    ensures q.status == Failed(step.id, Rejected) <==>
            && AtGate(cfg, step.id, b) && step.id in q.engine.decisions
            && q.engine.decisions[step.id].Some? && !q.engine.decisions[step.id].value.approved
    ensures AtGate(cfg, step.id, b) && step.id !in q.engine.decisions ==> q.status == Crashed
  {
    hide MergeApprovedArgs, Rejects;
    FirstDecisionCounts(cfg, p, step, b, q);
  }

  // The step's body runs: it was let through and has no remembered result.
  predicate RunsBody(cfg: Config, p: Progress, id: string, b: Behaviour, after: Engine) {
    Passes(cfg, id, b, after) && id !in p.engine.memo
  }

  lemma PortBody(cfg: Config, eng: Engine, id: string, task: Task, b: Behaviour, port: PortOutcome, input: Option<Task>)
    requires port == RunStep(cfg, eng, id, task, b)
    requires input == MergeApprovedArgs(cfg.isUuid, task, ApprovedArgs(cfg, id, port.engine))
    ensures var runs := Passes(cfg, id, b, port.engine) && id !in eng.memo;
            && (runs ==> port.end == match input
                                     case None => Thrown(BadArgs)
                                     case Some(_) =>
                                       match b.body
                                       case Dies => Lost
                                       case Throws(m) => Thrown(SpecialistError(m))
                                       case Forgotten(_) => Lost
                                       case Returns(r) => Done(r))
            && (!runs ==> !port.end.Thrown? || (!port.end.error.BadArgs? && !port.end.error.SpecialistError?))
            && port.engine.memo == (if runs && input.Some? && b.body.Returns?
                                    then eng.memo[id := b.body.result] else eng.memo)
            && (if runs && input.Some?
                then |port.calls| == 1 && port.calls[0].id == id && port.calls[0].input == input.value
                else port.calls == [])
  {
    hide MergeApprovedArgs;
  }

  // The body runs on the input as the operator's arguments leave it, or not at all
  // if they do not fit; how each of this ends, exactly.
  lemma BodyExactly(cfg: Config, p: Progress, step: PlannedStep, b: Behaviour, q: Progress, input: Option<Task>)
    requires p.status == Going && b.published && q == DispatchStep(cfg, p, step, Some(b))
    requires input == MergeApprovedArgs(cfg.isUuid, GiveHandoff(step.task, p.handoff),
                                        ApprovedArgs(cfg, step.id, q.engine))
    ensures var runs := RunsBody(cfg, p, step.id, b, q.engine);
            && (q.status == Failed(step.id, BadArgs) <==> runs && input.None?)
            && (forall m :: q.status == Failed(step.id, SpecialistError(m)) <==>
                              runs && input.Some? && b.body == Throws(m))
            && (runs && input.Some? && (b.body.Dies? || b.body.Forgotten?) ==> q.status == Crashed)
  {
    PortBody(cfg, p.engine, step.id, GiveHandoff(step.task, p.handoff), b,
             RunStep(cfg, p.engine, step.id, GiveHandoff(step.task, p.handoff), b), input);
    hide MergeApprovedArgs, Rejects, RunStep, Passes;
  }

  // What the body leaves behind: one call, and its result in the memo if it
  // returned to an engine that lived to record it.
  lemma BodyLeaves(cfg: Config, p: Progress, step: PlannedStep, b: Behaviour, q: Progress, input: Option<Task>)
    requires p.status == Going && q == DispatchStep(cfg, p, step, Some(b))
    requires input == MergeApprovedArgs(cfg.isUuid, GiveHandoff(step.task, p.handoff),
                                        ApprovedArgs(cfg, step.id, q.engine))
    ensures var runs := RunsBody(cfg, p, step.id, b, q.engine);
            && q.engine.memo == (if runs && input.Some? && b.body.Returns?
                                 then p.engine.memo[step.id := b.body.result] else p.engine.memo)
            && (if runs && input.Some?
                then exists c :: q.calls == p.calls + [c] && c.id == step.id && c.input == input.value
                else q.calls == p.calls)
  {
    var port := RunStep(cfg, p.engine, step.id, GiveHandoff(step.task, p.handoff), b);
    PortBody(cfg, p.engine, step.id, GiveHandoff(step.task, p.handoff), b, port, input);
    DispatchFacts(cfg, p, step, b);
    hide MergeApprovedArgs, RunStep, Passes, DispatchStep;
    if port.calls != [] {
      assert port.calls == [port.calls[0]];
    }
  }

  // And a step that has a result completes with it exactly when its document, if
  // it is one that is verified, passes and is not rejected by the second verdict.
  lemma CompletionExactly(cfg: Config, p: Progress, step: PlannedStep, b: Behaviour, q: Progress)
    requires p.status == Going && b.published && q == DispatchStep(cfg, p, step, Some(b))
    ensures var id, given := step.id, GiveHandoff(step.task, p.handoff);
            var done := Passes(cfg, id, b, q.engine) && id in q.engine.memo;
            && (q.status == Going ==> done && q.results == p.results + [StepResult(id, q.engine.memo[id])])
            && (done ==>
                  var r := q.engine.memo[id];
                  var cited := if given.Writing? && given.citations.Some? then given.citations.value else [];
                  var rejected := cfg.verify && r.Written? && given.Writing?
                                  && (!b.judged || !DocumentPasses(r.document, cited));
                  q.status == if rejected then Failed(id, VerificationError) else Going)
            && (q.status == Failed(id, VerificationError) ==> done)
  {
    hide MergeApprovedArgs, DocumentPasses;
    var id, task := step.id, GiveHandoff(step.task, p.handoff);
    if AtGate(cfg, id, b) && id in p.engine.decisions {
      assert p.engine.decisions[id := p.engine.decisions[id]] == p.engine.decisions;
    }
  }

  // What a step writes to the store: its pending row when it comes to its gate,
  // and, once it has completed with a usage, its tokens.
  lemma WritesExactly(cfg: Config, p: Progress, step: PlannedStep, b: Behaviour, q: Progress)
    requires p.status == Going && q == DispatchStep(cfg, p, step, Some(b))
    ensures var spent := if q.status == Going && q.engine.memo[step.id].Written? && q.engine.memo[step.id].usage.Some?
                         then [Spent(step.id, q.engine.memo[step.id].usage.value.totalTokens)] else [];
            q.writes == p.writes + if !cfg.hasStore then []
                                   else (if AtGate(cfg, step.id, b) then [Pending(step.id)] else []) + spent
  {
    hide MergeApprovedArgs, DocumentPasses;
  }

  /******* What is in the store *******/

  // Every gate that was awaited and every flagged body that ran has its pending
  // row, only flagged planned steps have one, and a flagged step has it before
  // any of its tokens are recorded.
  ghost predicate StoreOk(cfg: Config, plan: Plan, eng: Engine, calls: seq<Call>, writes: seq<Write>) {
    && (!cfg.hasStore ==> writes == [])
    && (cfg.hasStore ==> forall id :: id in eng.decisions ==> Pending(id) in writes)
    && (cfg.hasStore ==> forall c :: c in calls && cfg.requiresApproval(c.id) ==> Pending(c.id) in writes)
    && (forall id :: Pending(id) in writes ==> cfg.requiresApproval(id) && Planned(plan, id))
    && (forall k :: 0 <= k < |writes| && writes[k].Spent? && cfg.requiresApproval(writes[k].id) ==>
          Pending(writes[k].id) in writes[..k])
  }

  ghost predicate Planned(plan: Plan, id: string) {
    exists i :: 0 <= i < |plan| && plan[i].id == id
  }

  lemma WriteAdded(cfg: Config, plan: Plan, eng: Engine, calls: seq<Call>, writes: seq<Write>, w: Write)
    requires StoreOk(cfg, plan, eng, calls, writes) && cfg.hasStore
    requires w.Pending? ==> cfg.requiresApproval(w.id) && Planned(plan, w.id)
    requires w.Spent? && cfg.requiresApproval(w.id) ==> Pending(w.id) in writes
    ensures StoreOk(cfg, plan, eng, calls, writes + [w])
  {
    var all := writes + [w];
    forall k | 0 <= k < |all| && all[k].Spent? && cfg.requiresApproval(all[k].id)
      ensures Pending(all[k].id) in all[..k]
    {
      assert all[..k] == writes[..k];
      assert k == |writes| ==> writes[..k] == writes;
    }
  }

  lemma EngineMoved(cfg: Config, plan: Plan, before: Engine, after: Engine, calls: seq<Call>, more: seq<Call>,
                    writes: seq<Write>)
    requires StoreOk(cfg, plan, before, calls, writes)
    requires cfg.hasStore ==> forall id :: id in after.decisions ==> id in before.decisions || Pending(id) in writes
    requires cfg.hasStore ==> forall c :: c in more && cfg.requiresApproval(c.id) ==> Pending(c.id) in writes
    ensures StoreOk(cfg, plan, after, calls + more, writes)
  {
  }

  lemma OneCall(cfg: Config, p: Progress, step: PlannedStep, b: Behaviour, q: Progress) returns (more: seq<Call>)
    requires p.status == Going && q == DispatchStep(cfg, p, step, Some(b))
    ensures q.calls == p.calls + more
    ensures forall c :: c in more ==> c.id == step.id && (cfg.requiresApproval(step.id) ==> AtGate(cfg, step.id, b))
    ensures q.status == Going && cfg.requiresApproval(step.id) ==> AtGate(cfg, step.id, b)
  {
    var task := GiveHandoff(step.task, p.handoff);
    var port := RunStep(cfg, p.engine, step.id, task, b);
    more := port.calls;
    PortBody(cfg, p.engine, step.id, task, b, port,
             MergeApprovedArgs(cfg.isUuid, task, ApprovedArgs(cfg, step.id, port.engine)));
    DispatchFacts(cfg, p, step, b);
    hide DispatchStep, MergeApprovedArgs;
    if !AtGate(cfg, step.id, b) && cfg.requiresApproval(step.id) {
      assert port.end.Thrown? && port.calls == [];
    }
  }

  lemma StepStoreOk(cfg: Config, plan: Plan, p: Progress, n: nat, b: Option<Behaviour>, calls: seq<Call>,
                    writes: seq<Write>)
    requires n < |plan| && StoreOk(cfg, plan, p.engine, calls + p.calls, writes + p.writes)
    ensures StoreOk(cfg, plan, DispatchStep(cfg, p, plan[n], b).engine, calls + DispatchStep(cfg, p, plan[n], b).calls,
                    writes + DispatchStep(cfg, p, plan[n], b).writes)
  {
    var q, id := DispatchStep(cfg, p, plan[n], b), plan[n].id;
    if p.status == Going && b.Some? {
      FirstDecisionCounts(cfg, p, plan[n], b.value, q);
      WritesExactly(cfg, p, plan[n], b.value, q);
      var more := OneCall(cfg, p, plan[n], b.value, q);
      hide DispatchStep, StoreOk;
      assert Planned(plan, id);
      var all := writes + p.writes;
      if cfg.hasStore && AtGate(cfg, id, b.value) {
        WriteAdded(cfg, plan, p.engine, calls + p.calls, all, Pending(id));
        all := all + [Pending(id)];
      }
      EngineMoved(cfg, plan, p.engine, q.engine, calls + p.calls, more, all);
      assert calls + p.calls + more == calls + q.calls;
      if all != writes + q.writes {
        var spent := q.writes[|q.writes| - 1];
        assert writes + q.writes == all + [spent];
        WriteAdded(cfg, plan, q.engine, calls + q.calls, all, spent);
      }
    }
  }

  lemma NothingWritten(cfg: Config, plan: Plan)
    ensures StoreOk(cfg, plan, FreshEngine(), [], [])
  {
  }

  lemma {:induction false} AlwaysStoreOk(cfg: Config, plan: Plan, scripts: seq<seq<Behaviour>>)
    ensures var h := Runs(cfg, plan, scripts); StoreOk(cfg, plan, h.engine, h.calls, h.writes)
  {
    if scripts == [] {
      NothingWritten(cfg, plan);
    } else {
      var h, script := Runs(cfg, plan, scripts[..|scripts| - 1]), scripts[|scripts| - 1];
      AlwaysStoreOk(cfg, plan, scripts[..|scripts| - 1]);
      hide StoreOk, DispatchStep;
      var inv := (p: Progress, m: nat) => StoreOk(cfg, plan, p.engine, h.calls + p.calls, h.writes + p.writes);
      assert h.calls + [] == h.calls && h.writes + [] == h.writes;
      forall p, m: nat, b | m < |plan| && inv(p, m)
        ensures inv(DispatchStep(cfg, p, plan[m], b), m + 1)
      {
        StepStoreOk(cfg, plan, p, m, b, h.calls, h.writes);
      }
      AfterInduction(cfg, plan, h.engine, script, |plan|, inv);
      assert inv(After(cfg, plan, h.engine, script, |plan|), |plan|);
    }
  }

  // Over any attempts: with a store, every step whose gate was passed or has
  // decided, and every flagged step whose body ever ran, has its pending row; no
  // other step has one; and a flagged step has it before any of its tokens.
  lemma RegisteredExactly(cfg: Config, plan: Plan, scripts: seq<seq<Behaviour>>, id: string, k: nat)
    ensures var h := Runs(cfg, plan, scripts);
            && (cfg.hasStore && id in h.engine.decisions ==> Pending(id) in h.writes)
            && (cfg.hasStore && cfg.requiresApproval(id) && (exists c :: c in h.calls && c.id == id) ==>
                  Pending(id) in h.writes)
            && (Pending(id) in h.writes ==>
                  cfg.hasStore && cfg.requiresApproval(id) && exists i :: 0 <= i < |plan| && plan[i].id == id)
            && (k < |h.writes| && h.writes[k].Spent? && cfg.requiresApproval(h.writes[k].id) ==>
                  exists j :: 0 <= j < k && h.writes[j] == Pending(h.writes[k].id))
  {
    AlwaysStoreOk(cfg, plan, scripts);
    hide Runs;
  }

  // A step that is reached and waits at its gate, its row having been stored, ends
  // the attempt there with that row in the store.
  lemma WaitsRegistered(cfg: Config, plan: Plan, scripts: seq<seq<Behaviour>>, n: nat)
    requires scripts != [] && cfg.hasStore && n < |plan| && n < |scripts[|scripts| - 1]|
    requires var p := After(cfg, plan, Runs(cfg, plan, scripts[..|scripts| - 1]).engine, scripts[|scripts| - 1], n);
             var b := scripts[|scripts| - 1][n];
             && Finished(p) && AtGate(cfg, plan[n].id, b) && plan[n].id !in p.engine.decisions && b.gate.Silent?
    ensures Pending(plan[n].id) in Runs(cfg, plan, scripts).writes
    ensures LastAttempt(cfg, plan, scripts).status == Crashed
  {
    var eng, script := Runs(cfg, plan, scripts[..|scripts| - 1]).engine, scripts[|scripts| - 1];
    var p, b := After(cfg, plan, eng, script, n), script[n];
    AfterStep(cfg, plan, eng, script, n);
    var q := DispatchStep(cfg, p, plan[n], Some(b));
    WritesExactly(cfg, p, plan[n], b, q);
    SilentCrashes(cfg, p, plan[n], b);
    hide DispatchStep;
    Stuck(cfg, plan, eng, script, n + 1, |plan|);
  }

  lemma SilentCrashes(cfg: Config, p: Progress, step: PlannedStep, b: Behaviour)
    requires Finished(p) && AtGate(cfg, step.id, b) && step.id !in p.engine.decisions && b.gate.Silent?
    ensures DispatchStep(cfg, p, step, Some(b)).status == Crashed
  {
  }

  /******* A refusal is final *******/

  lemma {:induction false} DecisionsStay(cfg: Config, plan: Plan, scripts: seq<seq<Behaviour>>, n: nat)
    requires n <= |scripts|
    ensures DecisionsGrow(Runs(cfg, plan, scripts[..n]).engine, Runs(cfg, plan, scripts).engine)
  {
    if n == |scripts| {
      assert scripts[..n] == scripts;
    } else {
      var before, script := scripts[..|scripts| - 1], scripts[|scripts| - 1];
      assert before[..n] == scripts[..n];
      DecisionsStay(cfg, plan, before, n);
      var eng := Runs(cfg, plan, before).engine;
      hide DispatchStep, Runs;
      var inv := (p: Progress, m: nat) => DecisionsGrow(eng, p.engine);
      forall p, m: nat, b | m < |plan| && inv(p, m)
        ensures inv(DispatchStep(cfg, p, plan[m], b), m + 1)
      {
        StepDecides(cfg, p, plan[m], b);
      }
      AfterInduction(cfg, plan, eng, script, |plan|, inv);
      var after := After(cfg, plan, eng, script, |plan|);
      assert inv(after, |plan|);
      LastEngine(cfg, plan, scripts, after);
    }
  }

  lemma StepDecides(cfg: Config, p: Progress, step: PlannedStep, b: Option<Behaviour>)
    ensures DecisionsGrow(p.engine, DispatchStep(cfg, p, step, b).engine)
  {
    if p.status == Going && b.Some? {
      DispatchFacts(cfg, p, step, b.value);
      hide DispatchStep;
      StepDecisionsGrow(cfg, p.engine, step.id, GiveHandoff(step.task, p.handoff), b.value);
    }
  }

  lemma LastEngine(cfg: Config, plan: Plan, scripts: seq<seq<Behaviour>>, p: Progress)
    requires scripts != []
    requires p == After(cfg, plan, Runs(cfg, plan, scripts[..|scripts| - 1]).engine, scripts[|scripts| - 1], |plan|)
    ensures Runs(cfg, plan, scripts).engine == p.engine
  {
    hide After;
  }

  // Once a flagged step's gate has timed out or been refused, that stays its
  // decision, its body never runs in any attempt, before or after, and it never
  // has a result.
  lemma RefusalIsFinal(cfg: Config, plan: Plan, scripts: seq<seq<Behaviour>>, n: nat, id: string)
    requires n <= |scripts| && cfg.requiresApproval(id)
    requires var eng := Runs(cfg, plan, scripts[..n]).engine; id in eng.decisions && !ApprovedIn(eng, id)
    ensures var h := Runs(cfg, plan, scripts);
            && id in h.engine.decisions && h.engine.decisions[id] == Runs(cfg, plan, scripts[..n]).engine.decisions[id]
            && id !in h.engine.memo
            && forall c :: c in h.calls ==> c.id != id
  {
    var h := Runs(cfg, plan, scripts);
    DecisionsStay(cfg, plan, scripts, n);
    AlwaysConsistent(cfg, plan, scripts);
    forall c | c in h.calls
      ensures c.id != id
    {
      BodiesAreApproved(cfg, plan, scripts, c);
    }
    hide Runs, Consistent;
    if id in h.engine.memo {
      RememberedCleared(cfg, plan, h.engine, SavedCalls(h.calls), id);
    }
  }
}

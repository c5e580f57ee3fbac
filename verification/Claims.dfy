// The gate and the table together: a step that waits can be claimed.
module Claims {
  import opened Prelude
  import opened Specialists
  import opened Supervisor
  import opened DurableRun
  import Gate
  import JobStep
  import Spending

  // The first write that reached a row.
  function FirstWrite(job: string, writes: seq<Write>, k: JobStep.RowKey): Option<Write> {
    if writes == [] then None
    else
      var earlier, last := FirstWrite(job, writes[..|writes| - 1], k), writes[|writes| - 1];
      if earlier.Some? then earlier else if JobStep.KeyOf(job, last.id) == k then Some(last) else None
  }

  lemma {:induction false} FirstWriteExactly(job: string, writes: seq<Write>, k: JobStep.RowKey)
    ensures FirstWrite(job, writes, k).None? ==> forall w :: w in writes ==> JobStep.KeyOf(job, w.id) != k
    ensures FirstWrite(job, writes, k).Some? ==>
              exists j :: 0 <= j < |writes| && FirstWrite(job, writes, k) == Some(writes[j])
                          && JobStep.KeyOf(job, writes[j].id) == k
                          && forall i :: 0 <= i < j ==> JobStep.KeyOf(job, writes[i].id) != k
  {
    hide JobStep.KeyOf;
    if writes != [] {
      var before, last := writes[..|writes| - 1], writes[|writes| - 1];
      FirstWriteExactly(job, before, k);
      assert writes == before + [last];
      assert forall i :: 0 <= i < |before| ==> writes[i] == before[i];
      assert forall i :: 0 <= i < |before| ==> before[i] in before;
    }
  }

  ghost predicate SameFirst(touch: Option<JobStep.Action>, write: Option<Write>) {
    (touch.None? <==> write.None?) && (touch.Some? ==> (touch.value.Uses? <==> write.value.Spent?))
  }

  lemma {:induction false} FirstTouchIsFirstWrite(actions: seq<JobStep.Action>, job: string, writes: seq<Write>,
                                                  k: JobStep.RowKey)
    requires Spending.Stored(actions, job, writes) && k.job == JobStep.Uuid(job)
    ensures SameFirst(JobStep.FirstTouch(actions, k), FirstWrite(job, writes, k))
  {
    hide JobStep.Uuid, Spending.Stored;
    if actions == [] {
      Spending.StoredNothing(job, writes);
    } else {
      var before, a := actions[..|actions| - 1], actions[|actions| - 1];
      Spending.StoredBefore(actions, job, writes);
      if (a.Registers? || a.Uses?) && JobStep.Uuid(a.job) == JobStep.Uuid(job) {
        FirstTouchIsFirstWrite(before, job, writes[..|writes| - 1], k);
        Spending.SameKey(a, job, writes[|writes| - 1]);
      } else {
        FirstTouchIsFirstWrite(before, job, writes, k);
      }
    }
  }

  // The step's row was made by a usage of another spelling of its id.
  ghost predicate SpentFirst(job: string, writes: seq<Write>, id: string) {
    exists j :: 0 <= j < |writes| && writes[j].Spent? && JobStep.KeyOf(job, writes[j].id) == JobStep.KeyOf(job, id)
                && forall i :: 0 <= i < j ==> JobStep.KeyOf(job, writes[i].id) != JobStep.KeyOf(job, id)
  }

  lemma RowState(actions: seq<JobStep.Action>, job: string, writes: seq<Write>, id: string)
    requires Spending.Stored(actions, job, writes) && Pending(id) in writes
    ensures JobStep.KeyOf(job, id) in JobStep.Run(actions).table
    ensures JobStep.Run(actions).table[JobStep.KeyOf(job, id)].approval == JobStep.Unset <==>
            SpentFirst(job, writes, id)
  {
    var k := JobStep.KeyOf(job, id);
    JobStep.RegisteredFirst(actions, k);
    FirstTouchIsFirstWrite(actions, job, writes, k);
    FirstWriteExactly(job, writes, k);
    hide JobStep.KeyOf, JobStep.Run, Spending.Stored;
  }

  lemma OneTarget(t: JobStep.Table, job: string, id: string)
    ensures JobStep.ClaimReport(t, job, [id]).rowCount ==
            if JobStep.KeyOf(job, id) in t && t[JobStep.KeyOf(job, id)].approval == JobStep.Pending then 1 else 0
  {
    var k := JobStep.KeyOf(job, id);
    assert JobStep.Targets(job, [id]) == [k];
    assert JobStep.Matching(t, job, [id]) ==
           if k in t && t[k].approval == JobStep.Pending then {k} else {};
  }

  // Over any attempts and whatever the store does besides: a registered step can
  // be claimed, alone, exactly when its row was not first made by a usage under
  // another spelling of its id, and no earlier claim has taken it.
  lemma ClaimableExactly(cfg: Config, plan: Plan, scripts: seq<seq<Behaviour>>, actions: seq<JobStep.Action>,
                         job: string, id: string, h: History)
    requires h == Runs(cfg, plan, scripts) && Spending.Stored(actions, job, h.writes) && Pending(id) in h.writes
    ensures JobStep.ClaimReport(JobStep.Run(actions).table, job, [id]).rowCount == 1 <==>
            && !SpentFirst(job, h.writes, id)
            && forall a :: a in JobStep.Run(actions).attempts && JobStep.Full(a) ==> JobStep.KeyOf(job, id) !in a.keys
  {
    hide Runs, SpentFirst, JobStep.KeyOf, JobStep.ClaimReport, Spending.Stored;
    var w, k := JobStep.Run(actions), JobStep.KeyOf(job, id);
    RowState(actions, job, h.writes, id);
    OneTarget(w.table, job, id);
    JobStep.AlwaysOnceOnly(actions);
    hide JobStep.Run;
    if w.table[k].approval == JobStep.Consumed {
      JobStep.ConsumedByClaim(actions, k);
    }
    forall a | a in w.attempts && JobStep.Full(a) && k in a.keys
      ensures w.table[k].approval == JobStep.Consumed
    {
      TakenIsConsumed(w, a, k);
    }
  }

  lemma TakenIsConsumed(w: JobStep.World, a: JobStep.Attempt, k: JobStep.RowKey)
    requires JobStep.OnceOnly(w) && a in w.attempts && JobStep.Full(a) && k in a.keys
    ensures k in w.table && w.table[k].approval == JobStep.Consumed
  {
    var i :| 0 <= i < |w.attempts| && w.attempts[i] == a;
  }

  // When no uuid is written in two spellings, a usage never comes first: a flagged
  // step is registered before it can spend anything.
  lemma RegisteredIsFirst(cfg: Config, plan: Plan, scripts: seq<seq<Behaviour>>, job: string, id: string, h: History)
    requires h == Runs(cfg, plan, scripts) && Pending(id) in h.writes
    requires forall w :: w in h.writes && JobStep.Uuid(w.id) == JobStep.Uuid(id) ==> w.id == id
    ensures !SpentFirst(job, h.writes, id)
  {
    hide Runs, JobStep.Uuid;
    if SpentFirst(job, h.writes, id) {
      var j :| 0 <= j < |h.writes| && h.writes[j].Spent?
               && JobStep.KeyOf(job, h.writes[j].id) == JobStep.KeyOf(job, id)
               && forall i :: 0 <= i < j ==> JobStep.KeyOf(job, h.writes[i].id) != JobStep.KeyOf(job, id);
      Gate.RegisteredExactly(cfg, plan, scripts, id, j);
    }
  }

  // A document step, then a flagged processing step under another spelling of the
  // same uuid: it is registered and waits, and cannot be claimed.
  lemma RespelledNotClaimable(cfg: Config, job: string, x: string, y: string)
    requires x != y && JobStep.Uuid(x) == JobStep.Uuid(y) && cfg.hasStore && cfg.gateConfigured
    requires !cfg.requiresApproval(x) && cfg.requiresApproval(y)
    ensures var plan := [PlannedStep(x, Writing("", Markdown, None)), PlannedStep(y, Processing("wipe", None))];
            var waits := Behaviour(true, Silent, Dies, true, true);
            var h := Runs(cfg, plan, [[Spending.Reports(5), waits]]);
            var actions := [JobStep.Uses(job, x, 5), JobStep.Registers(job, y)];
            && h.writes == [Spent(x, 5), Pending(y)]
            && Spending.Stored(actions, job, h.writes)
            && JobStep.ClaimReport(JobStep.Run(actions).table, job, [y]).rowCount == 0
  {
    var plan := [PlannedStep(x, Writing("", Markdown, None)), PlannedStep(y, Processing("wipe", None))];
    var waits := Behaviour(true, Silent, Dies, true, true);
    var script := [Spending.Reports(5), waits];
    WaitsAfterReport(cfg, x, y, plan, script, Runs(cfg, plan, [script]));
    hide Runs;
    UnsetRow(job, x, y, [JobStep.Uses(job, x, 5), JobStep.Registers(job, y)]);
  }

  lemma WaitsAfterReport(cfg: Config, x: string, y: string, plan: Plan, script: seq<Behaviour>, h: History)
    requires x != y && cfg.hasStore && cfg.gateConfigured && !cfg.requiresApproval(x) && cfg.requiresApproval(y)
    requires plan == [PlannedStep(x, Writing("", Markdown, None)), PlannedStep(y, Processing("wipe", None))]
    requires script == [Spending.Reports(5), Behaviour(true, Silent, Dies, true, true)]
    requires h == Runs(cfg, plan, [script])
    ensures h.writes == [Spent(x, 5), Pending(y)]
  {
    var scripts := [script];
    assert scripts[..0] == [];
    var none := FreshEngine();
    Spending.DocumentStep(cfg, Begin(none), x, 5);
    var p1 := DispatchStep(cfg, Begin(none), plan[0], Some(script[0]));
    var p2 := DispatchStep(cfg, p1, plan[1], Some(script[1]));
    assert p2.writes == p1.writes + [Pending(y)] by {
      Gate.WritesExactly(cfg, p1, plan[1], script[1], p2);
      Gate.SilentCrashes(cfg, p1, plan[1], script[1]);
    }
    hide DispatchStep;
    assert After(cfg, plan, none, script, 0) == Begin(none);
    assert After(cfg, plan, none, script, 1) == p1;
    assert After(cfg, plan, none, script, 2) == p2;
  }

  lemma UnsetRow(job: string, x: string, y: string, actions: seq<JobStep.Action>)
    requires JobStep.Uuid(x) == JobStep.Uuid(y)
    requires actions == [JobStep.Uses(job, x, 5), JobStep.Registers(job, y)]
    ensures Spending.Stored(actions, job, [Spent(x, 5), Pending(y)])
    ensures JobStep.ClaimReport(JobStep.Run(actions).table, job, [y]).rowCount == 0
  {
    hide JobStep.Uuid, JobStep.Run, JobStep.ClaimReport;
    var k := JobStep.KeyOf(job, y);
    assert actions[..1] == [actions[0]] && actions[..1][..0] == [];
    assert Spending.WritesOf(actions[..1], job) == [actions[0]];
    assert Spending.WritesOf(actions, job) == actions;
    assert JobStep.KeyOf(job, x) == k;
    assert JobStep.FirstTouch(actions[..1], k) == Some(actions[0]);
    JobStep.RegisteredFirst(actions, k);
    OneTarget(JobStep.Run(actions).table, job, y);
  }
}

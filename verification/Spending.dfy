// The token counts of a job's attempts, as the step rows end up holding them:
// every published completion of a document step writes its count again.
module Spending {
  import opened Prelude
  import opened Specialists
  import opened Supervisor
  import DurableRun
  import Gate
  import JobStep

  type Spend = w: Write | w.Spent? witness Spent("", 0)

  // The usage that published completions carry.
  function Usages(events: seq<JobEvent>): seq<Spend> {
    if events == [] then [] else Usages(events[..|events| - 1]) + UsageIn(events[|events| - 1])
  }

  function UsageIn(event: JobEvent): seq<Spend> {
    if event.StepCompletion? && event.result.Written? && event.result.usage.Some?
    then [Spent(event.id, event.result.usage.value.totalTokens)]
    else []
  }

  function Spends(writes: seq<Write>): seq<Spend> {
    if writes == [] then []
    else Spends(writes[..|writes| - 1]) + SpendIn(writes[|writes| - 1])
  }

  function SpendIn(w: Write): seq<Spend> {
    if w.Spent? then [w] else []
  }

  /******* What reaches the store *******/

  // `job`'s registrations and usage among a store's transactions.
  function WritesOf(actions: seq<JobStep.Action>, job: string): seq<JobStep.Action> {
    if actions == [] then []
    else
      var a := actions[|actions| - 1];
      WritesOf(actions[..|actions| - 1], job)
      + if (a.Registers? || a.Uses?) && JobStep.Uuid(a.job) == JobStep.Uuid(job) then [a] else []
  }

  predicate Stores(a: JobStep.Action, job: string, w: Write) {
    && (a.Registers? || a.Uses?) && JobStep.Uuid(a.job) == JobStep.Uuid(job) && a.step == w.id
    && match w
       case Pending(_) => a.Registers?
       case Spent(_, tokens) => a.Uses? && a.tokens == tokens
  }

  // Exactly `writes` reached the store for `job`, in that order, whatever else the
  // store did in between.
  predicate Stored(actions: seq<JobStep.Action>, job: string, writes: seq<Write>) {
    var own := WritesOf(actions, job);
    |own| == |writes| && forall i :: 0 <= i < |own| ==> Stores(own[i], job, writes[i])
  }

  // The transactions up to the last one, and what they stored.
  lemma StoredBefore(actions: seq<JobStep.Action>, job: string, writes: seq<Write>)
    requires Stored(actions, job, writes) && actions != []
    ensures var before, a := actions[..|actions| - 1], actions[|actions| - 1];
            if (a.Registers? || a.Uses?) && JobStep.Uuid(a.job) == JobStep.Uuid(job)
            then writes != [] && Stores(a, job, writes[|writes| - 1]) && Stored(before, job, writes[..|writes| - 1])
            else Stored(before, job, writes)
  {
    hide JobStep.Uuid;
    var before, a := actions[..|actions| - 1], actions[|actions| - 1];
    if (a.Registers? || a.Uses?) && JobStep.Uuid(a.job) == JobStep.Uuid(job) {
      assert WritesOf(actions, job) == WritesOf(before, job) + [a];
    } else {
      assert WritesOf(actions, job) == WritesOf(before, job);
    }
  }

  // The last write to each row.
  function LastWrites(job: string, writes: seq<Spend>): map<JobStep.RowKey, Spend> {
    if writes == [] then map[]
    else
      var last := writes[|writes| - 1];
      LastWrites(job, writes[..|writes| - 1])[JobStep.KeyOf(job, last.id) := last]
  }

  lemma {:induction false} LastWritesExactly(job: string, writes: seq<Spend>)
    ensures forall k :: k in LastWrites(job, writes) ==>
              LastWrites(job, writes)[k] in writes && JobStep.KeyOf(job, LastWrites(job, writes)[k].id) == k
    ensures forall w :: w in writes ==> JobStep.KeyOf(job, w.id) in LastWrites(job, writes)
  {
    hide JobStep.KeyOf;
    if writes != [] {
      var before, last := writes[..|writes| - 1], writes[|writes| - 1];
      LastWritesExactly(job, before);
      assert writes == before + [last];
    }
  }

  // A row holds its last usage; a row without one has spent nothing.
  ghost predicate RowsHold(rows: map<JobStep.RowKey, int>, last: map<JobStep.RowKey, Spend>) {
    && (forall k :: k in last ==> k in rows && rows[k] == last[k].tokens)
    && (forall k :: k in rows && k !in last ==> rows[k] == 0)
  }

  lemma {:induction false} RowsHoldLastWrites(actions: seq<JobStep.Action>, job: string, writes: seq<Write>)
    requires Stored(actions, job, writes)
    ensures RowsHold(JobStep.LastUsage(actions, job), LastWrites(job, Spends(writes)))
  {
    hide JobStep.Uuid, JobStep.KeyOf, Stored, WritesOf, LastWrites, Spends;
    if actions == [] {
      StoredNothing(job, writes);
      NoRows(job);
    } else {
      var before, a := actions[..|actions| - 1], actions[|actions| - 1];
      StoredBefore(actions, job, writes);
      if (a.Registers? || a.Uses?) && JobStep.Uuid(a.job) == JobStep.Uuid(job) {
        RowsHoldLastWrites(before, job, writes[..|writes| - 1]);
        LastWriteOn(job, writes);
        SameKey(a, job, writes[|writes| - 1]);
      } else {
        RowsHoldLastWrites(before, job, writes);
      }
    }
  }

  lemma NoRows(job: string)
    ensures JobStep.LastUsage([], job) == map[] && LastWrites(job, Spends([])) == map[]
  {
  }

  lemma SameKey(a: JobStep.Action, job: string, w: Write)
    requires Stores(a, job, w)
    ensures JobStep.KeyOf(a.job, a.step) == JobStep.KeyOf(job, w.id)
  {
  }

  lemma LastWriteOn(job: string, writes: seq<Write>)
    requires writes != []
    ensures var w, earlier := writes[|writes| - 1], LastWrites(job, Spends(writes[..|writes| - 1]));
            LastWrites(job, Spends(writes)) == if w.Spent? then earlier[JobStep.KeyOf(job, w.id) := w] else earlier
  {
    hide JobStep.KeyOf;
    var w, earlier := writes[|writes| - 1], Spends(writes[..|writes| - 1]);
    if w.Spent? {
      assert Spends(writes) == earlier + [w];
      assert (earlier + [w])[..|earlier|] == earlier;
    } else {
      assert Spends(writes) == earlier;
    }
  }

  lemma StoredNothing(job: string, writes: seq<Write>)
    requires Stored([], job, writes)
    ensures writes == []
  {
  }

  /******* Published completions are remembered *******/

  ghost predicate PublishedRemembered(eng: Engine, events: seq<JobEvent>) {
    forall e :: e in events && e.StepCompletion? ==> e.id in eng.memo && eng.memo[e.id] == e.result
  }

  lemma StepPublishes(cfg: Config, p: Progress, step: PlannedStep, b: Option<Behaviour>, done: seq<JobEvent>)
    requires PublishedRemembered(p.engine, done + p.events)
    ensures PublishedRemembered(DispatchStep(cfg, p, step, b).engine, done + DispatchStep(cfg, p, step, b).events)
  {
    if p.status == Going && b.Some? {
      PortRemembers(cfg, p.engine, step.id, GiveHandoff(step.task, p.handoff), b.value);
      hide RunStep, Accepts;
      var q := DispatchStep(cfg, p, step, b);
      forall e | e in done + q.events && e.StepCompletion?
        ensures e.id in q.engine.memo && q.engine.memo[e.id] == e.result
      {
        assert e in done + p.events || e.id == step.id;
      }
    }
  }

  // Whatever is published as a step's result, in any attempt, is what the engine
  // remembers for its id.
  lemma {:induction false} AlwaysPublishedRemembered(cfg: Config, plan: Plan, scripts: seq<seq<Behaviour>>)
    ensures PublishedRemembered(DurableRun.Runs(cfg, plan, scripts).engine, DurableRun.Runs(cfg, plan, scripts).events)
  {
    if scripts != [] {
      var h, script := DurableRun.Runs(cfg, plan, scripts[..|scripts| - 1]), scripts[|scripts| - 1];
      AlwaysPublishedRemembered(cfg, plan, scripts[..|scripts| - 1]);
      hide PublishedRemembered, DispatchStep;
      var inv := (p: Progress, m: nat) => PublishedRemembered(p.engine, h.events + p.events);
      assert h.events + [] == h.events;
      forall p, m: nat, b | m < |plan| && inv(p, m)
        ensures inv(DispatchStep(cfg, p, plan[m], b), m + 1)
      {
        StepPublishes(cfg, p, plan[m], b, h.events);
      }
      AfterInduction(cfg, plan, h.engine, script, |plan|, inv);
      var p := After(cfg, plan, h.engine, script, |plan|);
      assert inv(p, |plan|);
      AttemptPublishes(cfg, plan, h.engine, script, p, h.events);
    }
  }

  lemma AttemptPublishes(cfg: Config, plan: Plan, eng: Engine, script: seq<Behaviour>, p: Progress, done: seq<JobEvent>)
    requires p == After(cfg, plan, eng, script, |plan|) && PublishedRemembered(p.engine, done + p.events)
    ensures PublishedRemembered(Attempt(cfg, plan, eng, script).engine, done + Attempt(cfg, plan, eng, script).events)
  {
    hide After;
  }

  lemma {:induction false} UsagesAppend(a: seq<JobEvent>, b: seq<JobEvent>)
    ensures Usages(a + b) == Usages(a) + Usages(b)
  {
    if b == [] {
      assert a + b == a;
    } else {
      UsagesAppend(a, b[..|b| - 1]);
      assert (a + b)[..|a + b| - 1] == a + b[..|b| - 1];
    }
  }

  lemma {:induction false} SpendsAppend(a: seq<Write>, b: seq<Write>)
    ensures Spends(a + b) == Spends(a) + Spends(b)
  {
    if b == [] {
      assert a + b == a;
    } else {
      SpendsAppend(a, b[..|b| - 1]);
      assert (a + b)[..|a + b| - 1] == a + b[..|b| - 1];
    }
  }

  lemma OneSpend(w: Write)
    ensures Spends([w]) == SpendIn(w)
  {
    assert [w][..0] == [];
  }

  lemma OneUsage(e: JobEvent)
    ensures Usages([e]) == UsageIn(e)
  {
    assert [e][..0] == [];
  }

  // Tokens are recorded as completions are published, if there is a store.
  ghost predicate SpentAsPublished(cfg: Config, writes: seq<Write>, events: seq<JobEvent>) {
    Spends(writes) == if cfg.hasStore then Usages(events) else []
  }

  // What one step adds to both.
  lemma StepAdds(cfg: Config, p: Progress, step: PlannedStep, b: Behaviour, q: Progress)
    returns (writes: seq<Write>, events: seq<JobEvent>)
    requires p.status == Going && q == DispatchStep(cfg, p, step, Some(b))
    ensures q.writes == p.writes + writes && q.events == p.events + events
    ensures SpentAsPublished(cfg, writes, events)
  {
    Gate.WritesExactly(cfg, p, step, b, q);
    StepEvents(cfg, p, step, b, q);
    var started := StepStart(step.id, KindOf(GiveHandoff(step.task, p.handoff)));
    var pending := if cfg.hasStore && Gate.AtGate(cfg, step.id, b) then [Pending(step.id)] else [];
    var ended := if q.status == Going then [StepCompletion(step.id, q.engine.memo[step.id])]
                 else if q.status.Failed? then [StepError(step.id, q.status.error)] else [];
    var spent := if cfg.hasStore && ended != [] then UsageIn(ended[0]) else [];
    writes, events := pending + spent, [started] + ended;
    hide DispatchStep, Gate.AtGate;
    assert q.writes == p.writes + writes && q.events == p.events + events;
    StartAndEnd(started, ended);
    PendingAndSpent(pending, spent);
  }

  lemma StartAndEnd(started: JobEvent, ended: seq<JobEvent>)
    requires started.StepStart? && |ended| <= 1
    ensures Usages([started] + ended) == if ended == [] then [] else UsageIn(ended[0])
  {
    UsagesAppend([started], ended);
    OneUsage(started);
    if ended != [] {
      OneUsage(ended[0]);
      assert ended == [ended[0]];
    }
  }

  lemma PendingAndSpent(pending: seq<Write>, spent: seq<Write>)
    requires pending == [] || (|pending| == 1 && pending[0].Pending?)
    requires spent == [] || (|spent| == 1 && spent[0].Spent?)
    ensures Spends(pending + spent) == spent
  {
    SpendsAppend(pending, spent);
    AtMostOne(pending);
    AtMostOne(spent);
    hide Spends;
    assert spent != [] ==> spent == [spent[0]];
  }

  lemma AtMostOne(writes: seq<Write>)
    requires |writes| <= 1
    ensures Spends(writes) == if writes == [] then [] else SpendIn(writes[0])
  {
    if writes != [] {
      OneSpend(writes[0]);
      assert writes == [writes[0]];
    }
  }

  lemma StepEvents(cfg: Config, p: Progress, step: PlannedStep, b: Behaviour, q: Progress)
    requires p.status == Going && q == DispatchStep(cfg, p, step, Some(b))
    ensures var started := [StepStart(step.id, KindOf(GiveHandoff(step.task, p.handoff)))];
            q.events == p.events + started + match q.status
                                             case Going => [StepCompletion(step.id, q.engine.memo[step.id])]
                                             case Failed(_, error) => [StepError(step.id, error)]
                                             case Crashed => []
  {
    PortRemembers(cfg, p.engine, step.id, GiveHandoff(step.task, p.handoff), b);
    hide RunStep, Rejects;
  }

  lemma StepSpends(cfg: Config, p: Progress, step: PlannedStep, b: Option<Behaviour>, writes: seq<Write>,
                   events: seq<JobEvent>, q: Progress)
    requires q == DispatchStep(cfg, p, step, b)
    requires SpentAsPublished(cfg, writes + p.writes, events + p.events)
    ensures SpentAsPublished(cfg, writes + q.writes, events + q.events)
  {
    hide DispatchStep, SpentAsPublished;
    if p.status == Going && b.Some? {
      var w, e := StepAdds(cfg, p, step, b.value, q);
      assert writes + q.writes == (writes + p.writes) + w;
      assert events + q.events == (events + p.events) + e;
      BothAppend(cfg, writes + p.writes, w, events + p.events, e);
    } else {
      SamePublished(cfg, p, step, b);
    }
  }

  lemma BothAppend(cfg: Config, writes: seq<Write>, more: seq<Write>, events: seq<JobEvent>, later: seq<JobEvent>)
    requires SpentAsPublished(cfg, writes, events) && SpentAsPublished(cfg, more, later)
    ensures SpentAsPublished(cfg, writes + more, events + later)
  {
    SpendsAppend(writes, more);
    UsagesAppend(events, later);
  }

  lemma SamePublished(cfg: Config, p: Progress, step: PlannedStep, b: Option<Behaviour>)
    requires p.status != Going || b.None?
    ensures DispatchStep(cfg, p, step, b).writes == p.writes && DispatchStep(cfg, p, step, b).events == p.events
  {
  }

  // Over any attempts, the tokens recorded are, in order, those of the published
  // completions.
  lemma {:induction false} AlwaysSpentAsPublished(cfg: Config, plan: Plan, scripts: seq<seq<Behaviour>>)
    ensures SpentAsPublished(cfg, DurableRun.Runs(cfg, plan, scripts).writes,
                             DurableRun.Runs(cfg, plan, scripts).events)
  {
    if scripts != [] {
      var h, script := DurableRun.Runs(cfg, plan, scripts[..|scripts| - 1]), scripts[|scripts| - 1];
      AlwaysSpentAsPublished(cfg, plan, scripts[..|scripts| - 1]);
      hide SpentAsPublished, DispatchStep;
      var inv := (p: Progress, m: nat) => SpentAsPublished(cfg, h.writes + p.writes, h.events + p.events);
      assert h.writes + [] == h.writes && h.events + [] == h.events;
      forall p, m: nat, b | m < |plan| && inv(p, m)
        ensures inv(DispatchStep(cfg, p, plan[m], b), m + 1)
      {
        StepSpends(cfg, p, plan[m], b, h.writes, h.events, DispatchStep(cfg, p, plan[m], b));
      }
      AfterInduction(cfg, plan, h.engine, script, |plan|, inv);
      var p := After(cfg, plan, h.engine, script, |plan|);
      assert inv(p, |plan|);
      AttemptSpends(cfg, plan, h.engine, script, p, h.writes, h.events);
    }
  }

  lemma AttemptSpends(cfg: Config, plan: Plan, eng: Engine, script: seq<Behaviour>, p: Progress, writes: seq<Write>,
                      events: seq<JobEvent>)
    requires p == After(cfg, plan, eng, script, |plan|) && SpentAsPublished(cfg, writes + p.writes, events + p.events)
    ensures SpentAsPublished(cfg, writes + Attempt(cfg, plan, eng, script).writes,
                             events + Attempt(cfg, plan, eng, script).events)
  {
    hide After;
    if p.status == Going {
      var last := JobCompletion(TotalUsage(p.results), |plan|);
      UsagesAppend(events + p.events, [last]);
      OneUsage(last);
      assert events + (p.events + [last]) == events + p.events + [last];
    }
  }

  // The count of a remembered step.
  function CountOf(eng: Engine, id: string): nat {
    if id in eng.memo && eng.memo[id].Written? && eng.memo[id].usage.Some?
    then eng.memo[id].usage.value.totalTokens else 0
  }

  lemma {:induction false} UsagesAreRemembered(eng: Engine, events: seq<JobEvent>)
    requires PublishedRemembered(eng, events)
    ensures forall w :: w in Usages(events) ==> w.tokens == CountOf(eng, w.id)
  {
    if events != [] {
      var before, last := events[..|events| - 1], events[|events| - 1];
      assert events == before + [last];
      UsagesAreRemembered(eng, before);
    }
  }

  /******* Sums *******/

  lemma {:induction false} SumPadded<K>(m: map<K, int>, n: map<K, int>)
    requires forall k :: k in n ==> k in m && m[k] == n[k]
    requires forall k :: k in m && k !in n ==> m[k] == 0
    ensures JobStep.SumValues(m) == JobStep.SumValues(n)
    decreases |m|
  {
    if k :| k in m && k !in n {
      JobStep.SumPick(m, k);
      SumPadded(m - {k}, n);
    } else {
      assert m == n;
    }
  }

  lemma {:induction false} SumRenamed<K, L>(m: map<K, int>, n: map<L, int>, name: map<K, L>)
    requires m.Keys == name.Keys && (forall k :: k in name ==> name[k] in n)
    requires forall l :: l in n ==> exists k :: k in name && name[k] == l
    requires forall j, k :: j in name && k in name && name[j] == name[k] ==> j == k
    requires forall k :: k in m ==> n[name[k]] == m[k]
    ensures JobStep.SumValues(m) == JobStep.SumValues(n)
    decreases |m|
  {
    if m == map[] {
      assert n == map[];
    } else {
      var k :| k in m;
      JobStep.SumPick(m, k);
      JobStep.SumPick(n, name[k]);
      var name' := name - {k};
      forall l | l in n && l != name[k]
        ensures exists j :: j in name' && name'[j] == l
      {
        var j :| j in name && name[j] == l;
        assert j in name' && name'[j] == l;
      }
      SumRenamed(m - {k}, n - {name[k]}, name');
    }
  }

  lemma {:induction false} SumSplit<K>(m: map<K, int>, part: set<K>)
    ensures JobStep.SumValues(m) ==
            JobStep.SumValues(map k | k in m && k in part :: m[k])
            + JobStep.SumValues(map k | k in m && k !in part :: m[k])
    decreases |m|
  {
    var a, b := map k | k in m && k in part :: m[k], map k | k in m && k !in part :: m[k];
    if k :| k in m {
      JobStep.SumPick(m, k);
      var m' := m - {k};
      SumSplit(m', part);
      var a', b' := map k | k in m' && k in part :: m'[k], map k | k in m' && k !in part :: m'[k];
      if k in part {
        JobStep.SumPick(a, k);
        assert a - {k} == a' && b == b';
      } else {
        JobStep.SumPick(b, k);
        assert b - {k} == b' && a == a';
      }
    }
  }

  lemma {:induction false} SumNatural<K>(m: map<K, int>)
    requires forall k :: k in m ==> m[k] >= 0
    ensures JobStep.SumValues(m) >= 0
    ensures JobStep.SumValues(m) == 0 <==> forall k :: k in m ==> m[k] == 0
    decreases |m|
  {
    if k :| k in m {
      JobStep.SumPick(m, k);
      SumNatural(m - {k});
      assert forall j :: j in m && j != k ==> j in m - {k} && m[j] == (m - {k})[j];
    }
  }

  /******* What a claim is told *******/

  function Published(writes: seq<Spend>): set<string> {
    set w | w in writes :: w.id
  }

  // Ids whose count another spelling of the same uuid has replaced.
  function Overwritten(job: string, writes: seq<Spend>): set<string> {
    set id | id in Published(writes) && LastSpelling(job, writes, id) != id
  }

  function LastSpelling(job: string, writes: seq<Spend>, id: string): string {
    var last, k := LastWrites(job, writes), JobStep.KeyOf(job, id);
    if k in last then last[k].id else id
  }

  function Counts(eng: Engine, ids: set<string>): map<string, int> {
    map id | id in ids :: CountOf(eng, id)
  }

  // The ids that last wrote a row.
  function Owners(job: string, writes: seq<Spend>): set<string> {
    set k | k in LastWrites(job, writes) :: LastWrites(job, writes)[k].id
  }

  lemma OwnersAreTheRest(job: string, writes: seq<Spend>)
    ensures Owners(job, writes) == Published(writes) - Overwritten(job, writes)
  {
    LastWritesExactly(job, writes);
    hide JobStep.KeyOf, LastWrites;
    var last := LastWrites(job, writes);
    forall id | id in Owners(job, writes)
      ensures id in Published(writes) && LastSpelling(job, writes, id) == id
    {
      var k :| k in last && last[k].id == id;
      assert last[k] in writes && JobStep.KeyOf(job, id) == k;
    }
    forall id | id in Published(writes) && LastSpelling(job, writes, id) == id
      ensures id in Owners(job, writes)
    {
      var w :| w in writes && w.id == id;
      assert JobStep.KeyOf(job, w.id) in last;
    }
  }

  // The rows of `job` add up to the counts of the ids that last wrote them.
  lemma RowsAddUp(eng: Engine, actions: seq<JobStep.Action>, job: string, stored: seq<Write>, writes: seq<Spend>)
    requires Stored(actions, job, stored) && writes == Spends(stored)
    requires forall w :: w in writes ==> w.tokens == CountOf(eng, w.id)
    ensures JobStep.SumValues(JobStep.LastUsage(actions, job)) ==
            JobStep.SumValues(Counts(eng, Owners(job, writes)))
  {
    RowsHoldLastWrites(actions, job, stored);
    LastWritesExactly(job, writes);
    hide JobStep.KeyOf, LastWrites, JobStep.LastUsage, CountOf;
    var last := LastWrites(job, writes);
    var rows := map k | k in last :: last[k].tokens as int;
    SumPadded(JobStep.LastUsage(actions, job), rows);
    var name := map k | k in last :: last[k].id;
    forall k | k in last
      ensures rows[k] == CountOf(eng, name[k]) && JobStep.KeyOf(job, name[k]) == k
    {
    }
    SumRenamed(rows, Counts(eng, Owners(job, writes)), name);
  }

  lemma OwnCounts(eng: Engine, job: string, writes: seq<Spend>)
    ensures JobStep.SumValues(Counts(eng, Published(writes))) ==
            JobStep.SumValues(Counts(eng, Owners(job, writes)))
            + JobStep.SumValues(Counts(eng, Overwritten(job, writes)))
  {
    OwnersAreTheRest(job, writes);
    hide CountOf, LastSpelling;
    var all, part := Counts(eng, Published(writes)), Owners(job, writes);
    SumSplit(all, part);
    assert (map k | k in all && k in part :: all[k]) == Counts(eng, part);
    assert (map k | k in all && k !in part :: all[k]) == Counts(eng, Overwritten(job, writes));
  }

  // However often attempts are repeated and completions published again, and
  // whatever else the store does in between, the total a claim on the job is told
  // counts each published document step once, at what the engine remembers for
  // it; only a step whose id is spelled differently from a later one of the same
  // uuid is missing from it.
  lemma ReportedOnce(cfg: Config, plan: Plan, scripts: seq<seq<Behaviour>>, actions: seq<JobStep.Action>, job: string,
                     stepIds: seq<string>, h: DurableRun.History)
    requires h == DurableRun.Runs(cfg, plan, scripts)
    requires Stored(actions, job, h.writes) && stepIds != []
    ensures JobStep.ClaimReport(JobStep.Run(actions).table, job, stepIds).totalTokens ==
            JobStep.SumValues(Counts(h.engine, Published(Spends(h.writes))))
            - JobStep.SumValues(Counts(h.engine, Overwritten(job, Spends(h.writes))))
  {
    hide DurableRun.Runs, Counts, Spends, Usages;
    var writes := Spends(h.writes);
    AlwaysPublishedRemembered(cfg, plan, scripts);
    UsagesAreRemembered(h.engine, h.events);
    AlwaysSpentAsPublished(cfg, plan, scripts);
    RowsAddUp(h.engine, actions, job, h.writes, writes);
    OwnCounts(h.engine, job, writes);
    JobStep.ReportedTotal(actions, job, stepIds);
  }

  // Nothing is overwritten exactly when no published uuid is spelled in two ways.
  lemma OverwrittenExactly(job: string, writes: seq<Spend>)
    ensures Overwritten(job, writes) == {} <==>
            forall i, j :: i in Published(writes) && j in Published(writes) && JobStep.Uuid(i) == JobStep.Uuid(j) ==>
                             i == j
  {
    LastWritesExactly(job, writes);
    hide LastWrites, JobStep.Uuid;
    forall id | id in Published(writes)
      ensures LastSpelling(job, writes, id) in Published(writes)
      ensures JobStep.Uuid(LastSpelling(job, writes, id)) == JobStep.Uuid(id)
      ensures id in Overwritten(job, writes) <==> LastSpelling(job, writes, id) != id
    {
    }
    forall i, j | i in Published(writes) && j in Published(writes) && JobStep.Uuid(i) == JobStep.Uuid(j)
      ensures LastSpelling(job, writes, i) == LastSpelling(job, writes, j)
    {
    }
  }

  // So every published step is counted exactly when the ones whose rows were
  // overwritten had nothing to count.
  lemma CountedExactly(cfg: Config, plan: Plan, scripts: seq<seq<Behaviour>>, actions: seq<JobStep.Action>, job: string,
                       stepIds: seq<string>, h: DurableRun.History)
    requires h == DurableRun.Runs(cfg, plan, scripts)
    requires Stored(actions, job, h.writes) && stepIds != []
    ensures JobStep.ClaimReport(JobStep.Run(actions).table, job, stepIds).totalTokens ==
            JobStep.SumValues(Counts(h.engine, Published(Spends(h.writes))))
            <==> forall id :: id in Overwritten(job, Spends(h.writes)) ==> CountOf(h.engine, id) == 0
  {
    hide DurableRun.Runs, Spends, JobStep.ClaimReport, JobStep.SumValues, CountOf, Overwritten;
    ReportedOnce(cfg, plan, scripts, actions, job, stepIds, h);
    var lost := Overwritten(job, Spends(h.writes));
    SumNatural(Counts(h.engine, lost));
    assert forall id :: id in Counts(h.engine, lost) <==> id in lost;
    assert forall id :: id in lost ==> Counts(h.engine, lost)[id] == CountOf(h.engine, id);
  }

  /******* The plan that shows it *******/

  function Report(tokens: nat): Result {
    Written(Document("", Markdown, "x"), Some(Usage(0, 0, tokens)))
  }

  function Reports(tokens: nat): Behaviour {
    Behaviour(true, Silent, Returns(Report(tokens)), true, true)
  }

  lemma DocumentStep(cfg: Config, p: Progress, id: string, tokens: nat)
    requires p.status == Going && p.handoff == [] && id !in p.engine.memo && !cfg.requiresApproval(id) && cfg.hasStore
    ensures var q := DispatchStep(cfg, p, PlannedStep(id, Writing("", Markdown, None)), Some(Reports(tokens)));
            && q.status == Going && q.handoff == []
            && q.engine == p.engine.(memo := p.engine.memo[id := Report(tokens)])
            && q.writes == p.writes + [Spent(id, tokens)]
  {
    var task := Writing("", Markdown, None);
    assert Accepts(cfg, task, Report(tokens)) by {
      assert Report(tokens).document.content[0] == 'x' && !White('x');
    }
    hide Accepts, MergedFields;
  }

  lemma TwoDocuments(cfg: Config, x: string, y: string, plan: Plan, script: seq<Behaviour>, h: DurableRun.History)
    requires x != y && !cfg.requiresApproval(x) && !cfg.requiresApproval(y) && cfg.hasStore
    requires plan == [PlannedStep(x, Writing("", Markdown, None)), PlannedStep(y, Writing("", Markdown, None))]
    requires script == [Reports(5), Reports(7)] && h == DurableRun.Runs(cfg, plan, [script])
    ensures h.writes == [Spent(x, 5), Spent(y, 7)]
  {
    hide DispatchStep;
    var scripts := [script];
    assert scripts[..0] == [];
    var none := DurableRun.FreshEngine();
    DocumentStep(cfg, Begin(none), x, 5);
    var p1 := DispatchStep(cfg, Begin(none), plan[0], Some(script[0]));
    DocumentStep(cfg, p1, y, 7);
    var p2 := DispatchStep(cfg, p1, plan[1], Some(script[1]));
    assert After(cfg, plan, none, script, 0) == Begin(none);
    assert After(cfg, plan, none, script, 1) == p1;
    assert After(cfg, plan, none, script, 2) == p2;
  }

  // Two document steps whose ids are one uuid in two spellings: they spend five
  // and seven tokens, and the job is reported to have spent seven.
  lemma SpellingLosesCount(cfg: Config, job: string, x: string, y: string)
    requires x != y && JobStep.Uuid(x) == JobStep.Uuid(y) && !cfg.requiresApproval(x) && !cfg.requiresApproval(y)
    requires cfg.hasStore
    ensures var plan := [PlannedStep(x, Writing("", Markdown, None)), PlannedStep(y, Writing("", Markdown, None))];
            var actions := [JobStep.Uses(job, x, 5), JobStep.Uses(job, y, 7)];
            && Stored(actions, job, DurableRun.Runs(cfg, plan, [[Reports(5), Reports(7)]]).writes)
            && JobStep.ClaimReport(JobStep.Run(actions).table, job, [y]).totalTokens == 7
  {
    var plan := [PlannedStep(x, Writing("", Markdown, None)), PlannedStep(y, Writing("", Markdown, None))];
    var script := [Reports(5), Reports(7)];
    TwoDocuments(cfg, x, y, plan, script, DurableRun.Runs(cfg, plan, [script]));
    hide DurableRun.Runs;
    TwoSpellings(job, x, y, [JobStep.Uses(job, x, 5), JobStep.Uses(job, y, 7)]);
  }

  lemma TwoSpellings(job: string, x: string, y: string, actions: seq<JobStep.Action>)
    requires JobStep.Uuid(x) == JobStep.Uuid(y) && actions == [JobStep.Uses(job, x, 5), JobStep.Uses(job, y, 7)]
    ensures Stored(actions, job, [Spent(x, 5), Spent(y, 7)])
    ensures JobStep.ClaimReport(JobStep.Run(actions).table, job, [y]).totalTokens == 7
  {
    hide JobStep.Uuid, JobStep.Run, JobStep.ClaimReport;
    var k := JobStep.KeyOf(job, y);
    assert actions[..1] == [actions[0]] && actions[..1][..0] == [];
    assert WritesOf(actions[..1], job) == [actions[0]];
    assert WritesOf(actions, job) == actions;
    assert JobStep.LastUsage(actions[..1], job) == map[k := 5];
    assert JobStep.LastUsage(actions, job) == map[k := 7];
    OneRow(map[k := 7], k);
    JobStep.ReportedTotal(actions, job, [y]);
  }

  lemma OneRow<K>(rows: map<K, int>, k: K)
    requires rows.Keys == {k}
    ensures JobStep.SumValues(rows) == rows[k]
  {
    JobStep.SumPick(rows, k);
    assert rows - {k} == map[];
  }
}

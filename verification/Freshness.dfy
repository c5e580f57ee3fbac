// The result cache over the versioned store: requests look up keys made from
// the store's generation while documents are added and cleared, and a leader's
// own run searches the live store.
module Freshness {
  import RC = ResultCacheProtocol
  import ResultCache
  import VS = VectorStoreProtocol
  import opened VectorStore

  // `history[g]` is the corpus of generation `g`; `seen[id]` lists the corpora
  // that request `id`'s own run has searched.
  datatype World = World(
    cache: RC.System,
    store: VS.System,
    history: seq<VS.Corpus>,
    seen: map<nat, seq<VS.Corpus>>)

  datatype Step =
    | Request(request: RC.Action)
    | StoreStep(change: VS.Action)
    | Search(id: nat, queryId: nat, query: string, topK: int)

  datatype Setting = Setting(cache: RC.Config, env: Env, lim: Limits)

  function Init(): World {
    World(RC.Init(), VS.Init(), [VS.CorpusOf(EmptyIndex())], map[])
  }

  predicate Working(w: World, id: nat) {
    id in w.cache.tasks && (w.cache.tasks[id].phase.Running? || w.cache.tasks[id].phase.Leading?)
  }

  function SeenBy(w: World, id: nat): seq<VS.Corpus> {
    if id in w.seen then w.seen[id] else []
  }

  function Apply(cfg: Setting, w: World, step: Step): World {
    match step
    case Request(a) =>
      if a.Search? || a.StoreChanged? then w else w.(cache := RC.Apply(cfg.cache, w.cache, a))
    case StoreStep(a) =>
      if a.Ask? then w
      else
        var store := VS.Apply(cfg.env, cfg.lim, w.store, a);
        if store.ix.generation == w.store.ix.generation then w.(store := store)
        else World(RC.Apply(cfg.cache, w.cache, RC.StoreChanged), store,
                   w.history + [VS.CorpusOf(store.ix)], w.seen)
    case Search(id, queryId, query, topK) =>
      if !Working(w, id) || queryId in w.store.queries then w
      else w.(cache := RC.Apply(cfg.cache, w.cache, RC.Search(id)),
              store := VS.Apply(cfg.env, cfg.lim, w.store, VS.Ask(queryId, query, topK)),
              seen := w.seen[id := SeenBy(w, id) + [VS.CorpusOf(w.store.ix)]])
  }

  function Run(cfg: Setting, steps: seq<Step>): World {
    if steps == [] then Init() else Apply(cfg, Run(cfg, steps[..|steps| - 1]), steps[|steps| - 1])
  }

  // A run's searches, by generation, are the corpora it saw.
  ghost predicate SawWhatItSearched(w: World, id: nat)
    requires id in w.cache.tasks
  {
    var searches := w.cache.tasks[id].searches;
    && |SeenBy(w, id)| == |searches|
    && forall i :: 0 <= i < |searches| ==> searches[i] < |w.history| && SeenBy(w, id)[i] == w.history[searches[i]]
  }

  ghost predicate Joined(env: Env, w: World) {
    && RC.SingleFlight(w.cache)
    && RC.Fresh(w.cache)
    && VS.Represents(env, w.store.ix, w.store.added)
    && w.cache.generation == w.store.ix.generation
    && |w.history| == w.store.ix.generation + 1
    && w.history[w.store.ix.generation] == VS.CorpusOf(w.store.ix)
    && (forall id :: id in w.seen ==> id in w.cache.tasks)
    && (forall id :: id in w.cache.tasks ==> SawWhatItSearched(w, id))
  }

  lemma RequestKeepsJoined(cfg: Setting, w: World, a: RC.Action)
    requires Joined(cfg.env, w) && !a.Search? && !a.StoreChanged?
    ensures Joined(cfg.env, Apply(cfg, w, Request(a)))
  {
    RC.StepKeepsSingleFlight(cfg.cache, w.cache, a);
    RC.StepKeepsFresh(cfg.cache, w.cache, a);
    RC.SearchesStay(cfg.cache, w.cache, a);
    SawStays(w, Apply(cfg, w, Request(a)));
  }

  lemma SawStays(w: World, t: World)
    requires t.history == w.history && t.seen == w.seen
    requires forall id :: id in w.seen ==> id in w.cache.tasks
    requires forall id :: id in w.cache.tasks ==> SawWhatItSearched(w, id)
    requires forall id :: id in w.cache.tasks ==>
      id in t.cache.tasks && t.cache.tasks[id].searches == w.cache.tasks[id].searches
    requires forall id :: id in t.cache.tasks && id !in w.cache.tasks ==> t.cache.tasks[id].searches == []
    ensures forall id :: id in t.cache.tasks ==> SawWhatItSearched(t, id)
  {
    forall id | id in t.cache.tasks
      ensures SawWhatItSearched(t, id)
    {
      assert id in w.cache.tasks ==> SawWhatItSearched(w, id);
    }
  }

  // What a change of the store's generation does to the cache's side.
  lemma ChangeNoticed(cfg: Setting, c: RC.System)
    requires RC.SingleFlight(c) && RC.Fresh(c)
    ensures var t := RC.Apply(cfg.cache, c, RC.StoreChanged);
            RC.SingleFlight(t) && RC.Fresh(t) && t == c.(generation := c.generation + 1)
  {
    RC.StepKeepsSingleFlight(cfg.cache, c, RC.StoreChanged);
    RC.StepKeepsFresh(cfg.cache, c, RC.StoreChanged);
    hide RC.SingleFlight, RC.Fresh;
  }

  lemma HistoryGrows(w: World, t: World)
    requires t.cache.tasks == w.cache.tasks && t.seen == w.seen && w.history <= t.history
    requires forall id :: id in w.cache.tasks ==> SawWhatItSearched(w, id)
    ensures forall id :: id in t.cache.tasks ==> SawWhatItSearched(t, id)
  {
    forall id | id in t.cache.tasks
      ensures SawWhatItSearched(t, id)
    {
      assert SawWhatItSearched(w, id);
    }
  }

  lemma StoreKeepsJoined(cfg: Setting, w: World, a: VS.Action)
    requires Joined(cfg.env, w) && VS.WithinLimits(cfg.lim, w.store.ix) && !a.Ask?
    ensures Joined(cfg.env, Apply(cfg, w, StoreStep(a)))
    ensures VS.WithinLimits(cfg.lim, Apply(cfg, w, StoreStep(a)).store.ix)
  {
    VS.StepRepresents(cfg.env, cfg.lim, w.store, a);
    VS.GenerationMoves(cfg.env, cfg.lim, w.store, a);
    ChangeNoticed(cfg, w.cache);
    hide RC.SingleFlight, RC.Fresh, RC.Apply, VS.Apply, VS.Represents, VS.WithinLimits, SawWhatItSearched;
    HistoryGrows(w, Apply(cfg, w, StoreStep(a)));
  }

  // What a search of `id`'s own run does to the cache's side.
  lemma SearchNoticed(cfg: Setting, w: World, id: nat)
    requires RC.SingleFlight(w.cache) && RC.Fresh(w.cache) && Working(w, id)
    ensures var t := RC.Apply(cfg.cache, w.cache, RC.Search(id));
            && RC.SingleFlight(t) && RC.Fresh(t) && t.generation == w.cache.generation
            && var task := w.cache.tasks[id];
               t.tasks == w.cache.tasks[id := task.(searches := task.searches + [w.cache.generation])]
  {
    RC.StepKeepsSingleFlight(cfg.cache, w.cache, RC.Search(id));
    RC.StepKeepsFresh(cfg.cache, w.cache, RC.Search(id));
    hide RC.SingleFlight, RC.Fresh;
  }

  lemma SearchSeen(w: World, t: World, id: nat)
    requires id in w.cache.tasks && w.cache.generation + 1 == |w.history| && t.history == w.history
    requires var task := w.cache.tasks[id];
             t.cache.tasks == w.cache.tasks[id := task.(searches := task.searches + [w.cache.generation])]
    requires t.seen == w.seen[id := SeenBy(w, id) + [w.history[w.cache.generation]]]
    requires forall i :: i in w.cache.tasks ==> SawWhatItSearched(w, i)
    ensures forall i :: i in t.cache.tasks ==> SawWhatItSearched(t, i)
  {
    forall i | i in t.cache.tasks
      ensures SawWhatItSearched(t, i)
    {
      assert SawWhatItSearched(w, i);
    }
  }

  lemma SearchKeepsJoined(cfg: Setting, w: World, id: nat, queryId: nat, query: string, topK: int)
    requires Joined(cfg.env, w) && VS.WithinLimits(cfg.lim, w.store.ix)
    ensures Joined(cfg.env, Apply(cfg, w, Search(id, queryId, query, topK)))
    ensures VS.WithinLimits(cfg.lim, Apply(cfg, w, Search(id, queryId, query, topK)).store.ix)
  {
    var t := Apply(cfg, w, Search(id, queryId, query, topK));
    var ask := VS.Ask(queryId, query, topK);
    if Working(w, id) && queryId !in w.store.queries {
      VS.StepRepresents(cfg.env, cfg.lim, w.store, ask);
      VS.GenerationMoves(cfg.env, cfg.lim, w.store, ask);
      VS.QueryLeavesCorpus(cfg.env, cfg.lim, w.store, ask);
      SearchNoticed(cfg, w, id);
      hide RC.SingleFlight, RC.Fresh, RC.Apply, VS.Apply, VS.Represents, VS.WithinLimits, SawWhatItSearched;
      SearchSeen(w, t, id);
    }
  }

  lemma {:induction false} AlwaysJoined(cfg: Setting, steps: seq<Step>)
    ensures Joined(cfg.env, Run(cfg, steps))
    ensures VS.WithinLimits(cfg.lim, Run(cfg, steps).store.ix)
  {
    if steps != [] {
      var w := Run(cfg, steps[..|steps| - 1]);
      AlwaysJoined(cfg, steps[..|steps| - 1]);
      match steps[|steps| - 1]
      case Request(a) => if !a.Search? && !a.StoreChanged? { RequestKeepsJoined(cfg, w, a); }
      case StoreStep(a) => if !a.Ask? { StoreKeepsJoined(cfg, w, a); }
      case Search(id, queryId, query, topK) => SearchKeepsJoined(cfg, w, id, queryId, query, topK);
    }
  }

  // Every answer a request receives was computed by a run for the same query,
  // retry limit and generation, and each corpus that run searched was current
  // at that generation or later: never a store older than the request's.
  lemma AnswersAreFresh(cfg: Setting, steps: seq<Step>, id: nat, answer: ResultCache.Answer)
    requires id in Run(cfg, steps).cache.tasks
    requires Run(cfg, steps).cache.tasks[id].phase == RC.Finished(ResultCache.Got(answer))
    ensures var w := Run(cfg, steps);
            var key := w.cache.tasks[id].key;
            && answer.run in w.cache.tasks
            && w.cache.tasks[answer.run].key == key
            && w.cache.tasks[answer.run].phase == RC.Finished(ResultCache.Got(answer))
            && forall c :: c in SeenBy(w, answer.run) ==>
                 exists g :: key.generation <= g < |w.history| && w.history[g] == c
  {
    AlwaysJoined(cfg, steps);
    var w := Run(cfg, steps);
    assert RC.TaskFresh(w.cache, id);
    assert SawWhatItSearched(w, answer.run);
    var searches := w.cache.tasks[answer.run].searches;
    forall c | c in SeenBy(w, answer.run)
      ensures exists g :: w.cache.tasks[id].key.generation <= g < |w.history| && w.history[g] == c
    {
      var i :| 0 <= i < |SeenBy(w, answer.run)| && SeenBy(w, answer.run)[i] == c;
      assert searches[i] in searches;
      assert w.history[searches[i]] == c;
    }
  }
}

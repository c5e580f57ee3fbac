// Adds, clears and the three phases of many queries, interleaved in any order.
// An action that is not possible in a state leaves it unchanged.
module VectorStoreProtocol {
  import opened Prelude
  import opened VectorMath
  import opened VectorStore
  import Sorting
  import Decimal

  // The corpus as it was when a query took its snapshot.
  datatype Corpus = Corpus(documents: seq<string>, docTokens: seq<seq<string>>, ordinals: seq<nat>)

  datatype Phase =
    | Refused
    | Scoring(snapshot: Snapshot, generation: nat)
    | Ready(snapshot: Snapshot, generation: nat, ranking: Ranking)
    | Answered(hits: seq<Hit>)

  datatype Query = Query(corpus: Corpus, tokens: seq<string>, topK: nat, phase: Phase)

  // `added` lists every chunk added since the last clear.
  datatype System = System(ix: Index, queries: map<nat, Query>, added: seq<string>)

  datatype Action =
    | Add(chunks: seq<string>)
    | Clear
    | Ask(id: nat, query: string, topK: int)
    | Score(id: nat)
    | Publish(id: nat)

  function Init(): System {
    System(EmptyIndex(), map[], [])
  }

  function CorpusOf(ix: Index): Corpus {
    Corpus(ix.documents, ix.docTokens, ix.ordinals)
  }

  function DoAsk(env: Env, s: System, id: nat, query: string, topK: int): System {
    if id in s.queries then s
    else
      var (ix, start) := StartQuery(env, s.ix, query, topK);
      var k := if topK < 0 then 0 else topK;
      var q := match start
        case Invalid => Query(CorpusOf(s.ix), [], k, Refused)
        case NoHits => Query(CorpusOf(s.ix), env.tokenize(query), k, Answered([]))
        case Started(tokens, snapshot, generation) =>
          Query(CorpusOf(s.ix), tokens, k, Scoring(snapshot, generation));
      s.(ix := ix, queries := s.queries[id := q])
  }

  function DoScore(env: Env, s: System, id: nat): System {
    if id !in s.queries || !s.queries[id].phase.Scoring? then s
    else
      var q := s.queries[id];
      var snap := q.phase.snapshot;
      if !(|snap.documents| == |snap.docTokens| == |snap.ordinals|
           && (snap.vectors.Some? ==> |snap.vectors.value| == |snap.documents|)
           && (snap.norms.Some? ==> |snap.norms.value| == |snap.documents|)) then s
      else
        var ranking := ScoreSnapshot(env, q.tokens, snap, q.topK);
        var phase := if snap.vectors.Some? then Answered(ranking.hits)
                     else Ready(snap, q.phase.generation, ranking);
        s.(queries := s.queries[id := q.(phase := phase)])
  }

  function DoPublish(s: System, id: nat): System {
    if id !in s.queries || !s.queries[id].phase.Ready? then s
    else
      var q := s.queries[id];
      s.(ix := VectorStore.Publish(s.ix, q.phase.snapshot, q.phase.generation, q.phase.ranking),
         queries := s.queries[id := q.(phase := Answered(q.phase.ranking.hits))])
  }

  function Apply(env: Env, lim: Limits, s: System, a: Action): System {
    match a
    case Add(chunks) =>
      if |s.ix.documents| != |s.ix.docTokens| then s
      else s.(ix := AddDocuments(env, lim, s.ix, chunks),
              added := if TooLarge(lim, chunks) then s.added else s.added + chunks)
    case Clear => s.(ix := VectorStore.Clear(s.ix), added := [])
    case Ask(id, query, topK) => DoAsk(env, s, id, query, topK)
    case Score(id) => DoScore(env, s, id)
    case Publish(id) => DoPublish(s, id)
  }

  function Run(env: Env, lim: Limits, actions: seq<Action>): System {
    if actions == [] then Init()
    else Apply(env, lim, Run(env, lim, actions[..|actions| - 1]), actions[|actions| - 1])
  }

  /******* Index representation *******/

  ghost predicate Represents(env: Env, ix: Index, added: seq<string>) {
    && Aligned(ix)
    && |ix.documents| <= |added|
    && ix.documents == added[|added| - |ix.documents|..]
    && ix.nextOrdinal == |added|
    && (forall i :: 0 <= i < |ix.documents| ==> ix.docTokens[i] == env.tokenize(ix.documents[i]))
    && (forall i :: 0 <= i < |ix.documents| ==> ix.ordinals[i] == ix.nextOrdinal - |ix.documents| + i)
    && ix.memoryUsage == TotalEstimate(ix.documents, ix.docTokens)
  }

  ghost predicate WithinLimits(lim: Limits, ix: Index) {
    && |ix.documents| <= lim.maxDocuments
    && (lim.maxMemory.Some? ==> ix.memoryUsage <= lim.maxMemory.value)
  }

  // Clamping at zero never changes the memory account.
  lemma EvictExact(env: Env, ix: Index, added: seq<string>, n: nat)
    requires Represents(env, ix, added)
    ensures Represents(env, EvictOldest(ix, n), added)
    ensures var gone := Min(n, |ix.documents|);
            EvictOldest(ix, n).memoryUsage ==
            ix.memoryUsage - TotalEstimate(ix.documents[..gone], ix.docTokens[..gone])
  {
    TotalEstimateSplit(ix.documents, ix.docTokens, Min(n, |ix.documents|));
    hide TotalEstimate;
  }

  lemma {:induction false} ShedMemoryExact(env: Env, ix: Index, added: seq<string>, limit: nat)
    requires Represents(env, ix, added)
    ensures Represents(env, ShedMemory(ix, limit), added)
    ensures ShedMemory(ix, limit).memoryUsage <= limit
    ensures |ShedMemory(ix, limit).documents| <= |ix.documents|
    decreases |ix.documents|
  {
    if ix.memoryUsage > limit && |ix.documents| > 0 {
      EvictExact(env, ix, added, 1);
      ShedMemoryExact(env, EvictOldest(ix, 1), added, limit);
    }
  }

  lemma AddOneExact(env: Env, ix: Index, added: seq<string>, chunk: string)
    requires Represents(env, ix, added)
    ensures Represents(env, AddOne(env, ix, chunk), added + [chunk])
  {
    var after := AddOne(env, ix, chunk);
    assert after.documents[..|ix.documents|] == ix.documents;
    assert after.docTokens[..|ix.documents|] == ix.docTokens;
    TotalEstimateSnoc(after.documents, after.docTokens);
    hide Estimate, TotalEstimate;
  }

  lemma {:induction false} AddAllExact(env: Env, ix: Index, added: seq<string>, chunks: seq<string>)
    requires Represents(env, ix, added)
    ensures Represents(env, AddAll(env, ix, chunks), added + chunks)
    ensures AddAll(env, ix, chunks).generation == ix.generation
  {
    assert Aligned(ix);
    hide Represents;
    if chunks == [] {
      assert added + chunks == added;
    } else {
      var before, c := chunks[..|chunks| - 1], chunks[|chunks| - 1];
      AddAllExact(env, ix, added, before);
      AddOneExact(env, AddAll(env, ix, before), added + before, c);
      assert added + chunks == added + before + [c];
    }
  }

  lemma ShedExact(env: Env, lim: Limits, ix: Index, added: seq<string>)
    requires Represents(env, ix, added)
    ensures Represents(env, Shed(lim, ix), added)
    ensures WithinLimits(lim, Shed(lim, ix))
  {
    hide ShedMemory, TotalEstimate;
    var n := |ix.documents| - lim.maxDocuments;
    if n > 0 {
      EvictExact(env, ix, added, n);
    }
    var counted := if n > 0 then EvictOldest(ix, n) else ix;
    if lim.maxMemory.Some? {
      ShedMemoryExact(env, counted, added, lim.maxMemory.value);
    }
  }

  // Queries touch the derived caches only.
  lemma QueryLeavesCorpus(env: Env, lim: Limits, s: System, a: Action)
    requires a.Ask? || a.Score? || a.Publish?
    ensures var t := Apply(env, lim, s, a);
            && t.ix == s.ix.(idf := t.ix.idf, vectors := t.ix.vectors, norms := t.ix.norms)
            && t.added == s.added
  {
  }

  lemma RepresentsWithout(env: Env, lim: Limits, ix: Index, added: seq<string>, other: Index)
    requires Represents(env, ix, added) && WithinLimits(lim, ix)
    requires other == ix.(idf := other.idf, vectors := other.vectors, norms := other.norms,
                          generation := other.generation)
    ensures Represents(env, other, added) && WithinLimits(lim, other)
  {
  }

  lemma AddRepresents(env: Env, lim: Limits, ix: Index, added: seq<string>, chunks: seq<string>)
    requires Represents(env, ix, added)
    ensures var shed := Shed(lim, AddAll(env, ix, chunks));
            Represents(env, shed, added + chunks) && WithinLimits(lim, shed)
  {
    AddAllExact(env, ix, added, chunks);
    ShedExact(env, lim, AddAll(env, ix, chunks), added + chunks);
  }

  lemma StepRepresents(env: Env, lim: Limits, s: System, a: Action)
    requires Represents(env, s.ix, s.added) && WithinLimits(lim, s.ix)
    ensures Represents(env, Apply(env, lim, s, a).ix, Apply(env, lim, s, a).added)
    ensures WithinLimits(lim, Apply(env, lim, s, a).ix)
  {
    var t := Apply(env, lim, s, a);
    if a.Add? {
      if !TooLarge(lim, a.chunks) {
        AddRepresents(env, lim, s.ix, s.added, a.chunks);
        RepresentsWithout(env, lim, Shed(lim, AddAll(env, s.ix, a.chunks)), s.added + a.chunks, t.ix);
      }
    } else if !a.Clear? {
      QueryLeavesCorpus(env, lim, s, a);
      RepresentsWithout(env, lim, s.ix, s.added, t.ix);
    }
  }

  // Whatever was added, cleared and queried: the documents are the newest of
  // what was added since the last clear, the three lists stay aligned, the
  // ordinals are one block ending at the next ordinal, the memory account is
  // exact, and both limits hold.
  lemma {:induction false} AlwaysRepresents(env: Env, lim: Limits, actions: seq<Action>)
    ensures Represents(env, Run(env, lim, actions).ix, Run(env, lim, actions).added)
    ensures WithinLimits(lim, Run(env, lim, actions).ix)
  {
    if actions != [] {
      AlwaysRepresents(env, lim, actions[..|actions| - 1]);
      StepRepresents(env, lim, Run(env, lim, actions[..|actions| - 1]), actions[|actions| - 1]);
    }
  }

  // No two stored documents share a chunk id.
  lemma ChunkIdsDistinct(env: Env, lim: Limits, actions: seq<Action>, source: string, i: nat, j: nat)
    requires i < j < |Run(env, lim, actions).ix.documents|
    ensures j < |Run(env, lim, actions).ix.ordinals|
    ensures Decimal.ChunkId(source, Run(env, lim, actions).ix.ordinals[i]) !=
            Decimal.ChunkId(source, Run(env, lim, actions).ix.ordinals[j])
  {
    AlwaysRepresents(env, lim, actions);
    var ordinals := Run(env, lim, actions).ix.ordinals;
    Decimal.ChunkIdInjective(source, ordinals[i], ordinals[j]);
  }

  // The version counter moves with every change of the corpus and only then.
  lemma GenerationMoves(env: Env, lim: Limits, s: System, a: Action)
    requires Represents(env, s.ix, s.added)
    ensures var t := Apply(env, lim, s, a);
            && t.ix.generation == s.ix.generation +
                 (if a.Clear? || (a.Add? && !TooLarge(lim, a.chunks)) then 1 else 0)
            && (t.ix.generation == s.ix.generation ==> CorpusOf(t.ix) == CorpusOf(s.ix))
  {
    if a.Add? {
      AddAllExact(env, s.ix, s.added, a.chunks);
      ShedGeneration(lim, AddAll(env, s.ix, a.chunks));
    }
  }

  lemma ShedGeneration(lim: Limits, ix: Index)
    requires |ix.documents| == |ix.docTokens|
    ensures Shed(lim, ix).generation == ix.generation
  {
    var n := |ix.documents| - lim.maxDocuments;
    var counted := if n > 0 then EvictOldest(ix, n) else ix;
    if lim.maxMemory.Some? {
      ShedMemoryGeneration(counted, lim.maxMemory.value);
    }
  }

  lemma {:induction false} ShedMemoryGeneration(ix: Index, limit: nat)
    requires |ix.documents| == |ix.docTokens|
    ensures ShedMemory(ix, limit).generation == ix.generation
    decreases |ix.documents|
  {
    if ix.memoryUsage > limit && |ix.documents| > 0 {
      ShedMemoryGeneration(EvictOldest(ix, 1), limit);
    }
  }

  /******* What is accepted, kept and refused *******/

  // Joined end to end.
  function Flat(tokens: seq<string>): string {
    if tokens == [] then "" else Flat(tokens[..|tokens| - 1]) + tokens[|tokens| - 1]
  }

  lemma {:induction false} TokenBytesAppend(tokens: seq<string>, last: string)
    ensures TokenBytes(tokens + [last]) == TokenBytes(tokens) + |last| * 2
  {
    if tokens == [] {
      assert [last][1..] == [] && tokens + [last] == [last];
    } else {
      TokenBytesAppend(tokens[1..], last);
      assert (tokens + [last])[1..] == tokens[1..] + [last];
    }
  }

  // A document is charged two bytes a character, of its own and of its tokens,
  // eight a token, and a hundred.
  lemma {:induction false} EstimateExactly(chunk: string, tokens: seq<string>)
    ensures Estimate(chunk, tokens) == 2 * |chunk| + 2 * |Flat(tokens)| + 8 * |tokens| + 100
  {
    if tokens != [] {
      var before, last := tokens[..|tokens| - 1], tokens[|tokens| - 1];
      EstimateExactly(chunk, before);
      TokenBytesAppend(before, last);
      assert tokens == before + [last];
    }
  }

  // The `n` newest of a list of documents fit both limits.
  ghost predicate Fits(env: Env, lim: Limits, docs: seq<string>, n: nat)
    requires n <= |docs|
  {
    && n <= lim.maxDocuments
    && (lim.maxMemory.Some? ==> Charged(env, docs[|docs| - n..]) <= lim.maxMemory.value)
  }

  ghost function Charged(env: Env, docs: seq<string>): nat {
    if docs == [] then 0
    else Charged(env, docs[1..]) + Estimate(docs[0], env.tokenize(docs[0]))
  }

  lemma {:induction false} ChargedIs(env: Env, docs: seq<string>, docTokens: seq<seq<string>>)
    requires |docs| == |docTokens| && forall i :: 0 <= i < |docs| ==> docTokens[i] == env.tokenize(docs[i])
    ensures TotalEstimate(docs, docTokens) == Charged(env, docs)
  {
    if docs != [] {
      ChargedIs(env, docs[1..], docTokens[1..]);
    }
  }

  // Shedding for memory stops at the first suffix that fits.
  lemma {:induction false} ShedsNoMore(env: Env, ix: Index, added: seq<string>, limit: nat, n: nat)
    requires Represents(env, ix, added) && |ShedMemory(ix, limit).documents| < n <= |ix.documents|
    ensures n <= |added| && Charged(env, added[|added| - n..]) > limit
    decreases |ix.documents|
  {
    var k := |ix.documents|;
    ChargedIs(env, ix.documents, ix.docTokens);
    if ix.memoryUsage > limit {
      if n == k {
        assert ix.documents == added[|added| - n..];
      } else {
        EvictExact(env, ix, added, 1);
        hide Represents, TotalEstimate;
        ShedsNoMore(env, EvictOldest(ix, 1), added, limit, n);
      }
    }
  }

  // What is shed: never more than the limits ask for.
  lemma ShedsLeast(env: Env, lim: Limits, ix: Index, added: seq<string>, n: nat)
    requires Represents(env, ix, added) && |Shed(lim, ix).documents| < n <= |ix.documents|
    ensures n <= |added| && !Fits(env, lim, added, n)
  {
    if n <= lim.maxDocuments {
      var over := |ix.documents| - lim.maxDocuments;
      if over > 0 {
        EvictExact(env, ix, added, over);
      }
      var counted := if over > 0 then EvictOldest(ix, over) else ix;
      assert n <= |counted.documents|;
      hide Represents, EvictOldest;
      ShedsNoMore(env, counted, added, lim.maxMemory.value, n);
    }
  }

  // `kept` is the longest run of the newest documents, old and new, that fits.
  ghost predicate KeepsLongest(env: Env, lim: Limits, stored: seq<string>, chunks: seq<string>, kept: seq<string>) {
    var all := stored + chunks;
    && |kept| <= |all| && kept == all[|all| - |kept|..] && Fits(env, lim, all, |kept|)
    && forall n :: |kept| < n <= |all| ==> !Fits(env, lim, all, n)
  }

  // An added call is refused, leaving everything as it was, exactly when some
  // chunk is too long. Otherwise what is kept is the longest run of the newest
  // documents, old and new, that fits both limits.
  lemma AddKeepsLongest(env: Env, lim: Limits, actions: seq<Action>, chunks: seq<string>)
    ensures (exists c :: c in chunks && |c| > lim.maxChunkSize) ==>
              Apply(env, lim, Run(env, lim, actions), Add(chunks)) == Run(env, lim, actions)
    ensures !(exists c :: c in chunks && |c| > lim.maxChunkSize) ==>
              KeepsLongest(env, lim, Run(env, lim, actions).ix.documents, chunks,
                           Apply(env, lim, Run(env, lim, actions), Add(chunks)).ix.documents)
  {
    AlwaysRepresents(env, lim, actions);
    hide Run, WithinLimits, Fits, Shed, AddAll, KeepsLongest;
    var s := Run(env, lim, actions);
    assert |s.ix.documents| == |s.ix.docTokens|;
    hide Represents;
    if !TooLarge(lim, chunks) {
      AddedKeepsLongest(env, lim, s.ix, s.added, chunks);
    }
  }

  lemma AddedKeepsLongest(env: Env, lim: Limits, ix: Index, added: seq<string>, chunks: seq<string>)
    requires Represents(env, ix, added)
    ensures KeepsLongest(env, lim, ix.documents, chunks, Shed(lim, AddAll(env, ix, chunks)).documents)
  {
    hide AddAll, Shed, Fits, TotalEstimate, Represents, WithinLimits;
    NewestAre(env, ix, added, chunks);
    var all, full := ix.documents + chunks, AddAll(env, ix, chunks);
    var shed := Shed(lim, full);
    AddAllExact(env, ix, added, chunks);
    NewestAre(env, full, added + chunks, []);
    ShedExact(env, lim, full, added + chunks);
    AddAllDocuments(env, ix, chunks);
    ShedShrinks(lim, full);
    KeptFits(env, lim, shed, added + chunks);
    SameSuffix(env, lim, added + chunks, all, |shed.documents|);
    forall n | |shed.documents| < n <= |all|
      ensures !Fits(env, lim, all, n)
    {
      ShedsLeast(env, lim, full, added + chunks, n);
      SameSuffix(env, lim, added + chunks, all, n);
    }
  }

  // What the index holds and what is added are the newest of all that was added.
  lemma NewestAre(env: Env, ix: Index, added: seq<string>, chunks: seq<string>)
    requires Represents(env, ix, added)
    ensures var all := ix.documents + chunks;
            |all| <= |added + chunks| && (added + chunks)[|added + chunks| - |all|..] == all
    ensures Aligned(ix)
  {
  }

  lemma SameSuffix(env: Env, lim: Limits, added: seq<string>, all: seq<string>, n: nat)
    requires n <= |all| <= |added| && added[|added| - |all|..] == all
    ensures added[|added| - n..] == all[|all| - n..]
    ensures Fits(env, lim, added, n) <==> Fits(env, lim, all, n)
  {
  }

  lemma KeptFits(env: Env, lim: Limits, ix: Index, added: seq<string>)
    requires Represents(env, ix, added) && WithinLimits(lim, ix)
    ensures |ix.documents| <= |added| && ix.documents == added[|added| - |ix.documents|..]
    ensures Fits(env, lim, added, |ix.documents|)
  {
    ChargedIs(env, ix.documents, ix.docTokens);
  }

  lemma {:induction false} AddAllDocuments(env: Env, ix: Index, chunks: seq<string>)
    requires Aligned(ix)
    ensures AddAll(env, ix, chunks).documents == ix.documents + chunks
  {
    if chunks != [] {
      AddAllDocuments(env, ix, chunks[..|chunks| - 1]);
    }
  }

  lemma ShedShrinks(lim: Limits, ix: Index)
    requires Aligned(ix)
    ensures |Shed(lim, ix).documents| <= |ix.documents|
  {
    var over := |ix.documents| - lim.maxDocuments;
    if lim.maxMemory.Some? {
      ShedMemoryShrinks(if over > 0 then EvictOldest(ix, over) else ix, lim.maxMemory.value);
    }
  }

  lemma {:induction false} ShedMemoryShrinks(ix: Index, limit: nat)
    requires |ix.documents| == |ix.docTokens|
    ensures |ShedMemory(ix, limit).documents| <= |ix.documents|
    decreases |ix.documents|
  {
    if ix.memoryUsage > limit && |ix.documents| > 0 {
      ShedMemoryShrinks(EvictOldest(ix, 1), limit);
    }
  }

  // A query is refused exactly for a bad `topK`, a query that is too long, or, if
  // there is anything to search, one with too many tokens. It is answered at once,
  // with nothing, when there is nothing to search or to search for. Otherwise the
  // corpus as it is will be scored for the query's own tokens.
  lemma AskExactly(env: Env, lim: Limits, actions: seq<Action>, id: nat, query: string, topK: int)
    requires id !in Run(env, lim, actions).queries
    ensures var s, t := Run(env, lim, actions), Apply(env, lim, Run(env, lim, actions), Ask(id, query, topK));
            var tokens := env.tokenize(query);
            && id in t.queries && t.queries[id].corpus == CorpusOf(s.ix)
            && (t.queries[id].phase.Refused? <==>
                  topK < 1 || topK > 1000 || |query| > 10000 || (s.ix.documents != [] && |tokens| > 10000))
            && (!t.queries[id].phase.Refused? ==>
                  && t.queries[id].tokens == tokens && t.queries[id].topK == topK
                  && (if s.ix.documents == [] || tokens == [] then t.queries[id].phase == Answered([])
                      else t.queries[id].phase.Scoring?))
  {
  }

  /******* Derived-cache coherence *******/

  // Every derived cache is absent or what recomputing it would give.
  ghost predicate Coherent(env: Env, ix: Index) {
    && Aligned(ix)
    && (ix.idf.Some? ==> ix.idf.value == Idf(ix.docTokens, env.math))
    && (ix.vectors.Some? <==> ix.norms.Some?)
    && (ix.vectors.Some? ==> ix.vectors.value == Vectors(ix.docTokens, Idf(ix.docTokens, env.math)))
    && (ix.norms.Some? ==>
          ix.norms.value == Norms(Vectors(ix.docTokens, Idf(ix.docTokens, env.math)), env.math))
  }

  ghost predicate SnapshotOf(env: Env, snap: Snapshot, c: Corpus) {
    && snap.documents == c.documents && snap.docTokens == c.docTokens && snap.ordinals == c.ordinals
    && |c.documents| == |c.docTokens| == |c.ordinals|
    && snap.idf == Idf(c.docTokens, env.math)
    && (snap.vectors.Some? <==> snap.norms.Some?)
    && (snap.vectors.Some? ==> snap.vectors.value == Vectors(c.docTokens, snap.idf))
    && (snap.norms.Some? ==> snap.norms.value == Norms(Vectors(c.docTokens, snap.idf), env.math))
  }

  // Scoring every document of a corpus from nothing but its tokens, by the
  // plain cosine.
  ghost function FreshScores(env: Env, c: Corpus, tokens: seq<string>): (r: seq<Scored>)
    ensures |r| == |c.docTokens|
  {
    var idf := Idf(c.docTokens, env.math);
    seq(|c.docTokens|, i requires 0 <= i < |c.docTokens| =>
      Scored(i, Cosine(TfIdf(tokens, idf), TfIdf(c.docTokens[i], idf), env.math)))
  }

  ghost function FreshHits(env: Env, c: Corpus, tokens: seq<string>, topK: nat): seq<Hit>
    requires |c.documents| == |c.docTokens| == |c.ordinals|
  {
    if tokens == [] then [] else TopHits(c.documents, c.ordinals, FreshScores(env, c, tokens), topK)
  }

  ghost predicate QueryOk(env: Env, ix: Index, q: Query) {
    && |q.corpus.documents| == |q.corpus.docTokens| == |q.corpus.ordinals|
    && Distinct(q.corpus.ordinals)
    && match q.phase
       case Refused => true
       case Answered(hits) => hits == FreshHits(env, q.corpus, q.tokens, q.topK)
       case Scoring(snap, generation) =>
         && q.tokens != []
         && SnapshotOf(env, snap, q.corpus)
         && generation <= ix.generation
         && (generation == ix.generation ==> q.corpus.docTokens == ix.docTokens)
       case Ready(snap, generation, ranking) =>
         && SnapshotOf(env, snap, q.corpus)
         && generation <= ix.generation
         && (generation == ix.generation ==> q.corpus.docTokens == ix.docTokens)
         && ranking.vectors == Vectors(q.corpus.docTokens, snap.idf)
         && ranking.norms == Norms(ranking.vectors, env.math)
         && ranking.hits == FreshHits(env, q.corpus, q.tokens, q.topK)
  }

  ghost predicate AllOk(env: Env, s: System) {
    && Coherent(env, s.ix)
    && (forall id :: id in s.queries ==> QueryOk(env, s.ix, s.queries[id]))
  }

  lemma {:induction false} TfIdfDistinct(tokens: seq<string>, idf: map<string, real>)
    ensures DistinctTerms(TfIdf(tokens, idf))
  {
    FirstSeenDistinct(tokens);
  }

  // Scoring a snapshot, with or without cached vectors, gives the plain answer.
  lemma ScoreIsFresh(env: Env, snap: Snapshot, c: Corpus, tokens: seq<string>, topK: nat)
    requires SnapshotOf(env, snap, c) && tokens != []
    ensures ScoreSnapshot(env, tokens, snap, topK).hits == FreshHits(env, c, tokens, topK)
    ensures ScoreSnapshot(env, tokens, snap, topK).vectors == Vectors(c.docTokens, snap.idf)
    ensures ScoreSnapshot(env, tokens, snap, topK).norms == Norms(Vectors(c.docTokens, snap.idf), env.math)
  {
    var vectors := Vectors(c.docTokens, snap.idf);
    var norms := Norms(vectors, env.math);
    var query := TfIdf(tokens, snap.idf);
    var queryNorm := env.math.sqrt(SumOfSquares(query));
    var scores, plain := Scores(query, queryNorm, vectors, norms), FreshScores(env, c, tokens);
    forall i | 0 <= i < |scores|
      ensures scores[i] == plain[i]
    {
      TfIdfDistinct(tokens, snap.idf);
      TfIdfDistinct(c.docTokens[i], snap.idf);
      CosineRefines(query, vectors[i], env.math);
    }
    assert scores == plain;
  }

  lemma QueryStays(env: Env, before: Index, after: Index, q: Query)
    requires QueryOk(env, before, q)
    requires after.generation >= before.generation
    requires after.generation == before.generation ==> after.docTokens == before.docTokens
    ensures QueryOk(env, after, q)
  {
  }

  lemma ScoreKeepsOk(env: Env, s: System, id: nat)
    requires AllOk(env, s)
    ensures AllOk(env, DoScore(env, s, id))
  {
    if id in s.queries && s.queries[id].phase.Scoring? {
      var q := s.queries[id];
      assert QueryOk(env, s.ix, q);
      ScoreIsFresh(env, q.phase.snapshot, q.corpus, q.tokens, q.topK);
    }
  }

  lemma PublishKeepsOk(env: Env, s: System, id: nat)
    requires AllOk(env, s)
    ensures AllOk(env, DoPublish(s, id))
  {
    if id in s.queries && s.queries[id].phase.Ready? {
      var t := DoPublish(s, id);
      assert QueryOk(env, s.ix, s.queries[id]);
      forall i | i in t.queries
        ensures QueryOk(env, t.ix, t.queries[i])
      {
        assert QueryOk(env, s.ix, s.queries[i]);
      }
    }
  }

  lemma AskKeepsOk(env: Env, s: System, id: nat, query: string, topK: int)
    requires AllOk(env, s) && Represents(env, s.ix, s.added)
    ensures AllOk(env, DoAsk(env, s, id, query, topK))
  {
    var t := DoAsk(env, s, id, query, topK);
    assert t.ix.docTokens == s.ix.docTokens && t.ix.generation == s.ix.generation;
    forall i | i in t.queries
      ensures QueryOk(env, t.ix, t.queries[i])
    {
      assert Distinct(s.ix.ordinals);
      if i in s.queries {
        QueryStays(env, s.ix, t.ix, s.queries[i]);
      } else if s.ix.documents == [] {
        NothingToScore(env, CorpusOf(s.ix), t.queries[i].tokens, t.queries[i].topK);
      }
    }
  }

  lemma NothingToScore(env: Env, c: Corpus, tokens: seq<string>, topK: nat)
    requires c.documents == [] && |c.documents| == |c.docTokens| == |c.ordinals|
    ensures FreshHits(env, c, tokens, topK) == []
  {
  }

  // In every reachable state the live IDF map, vectors and norms are absent or
  // equal to recomputation, and every answered query was answered as if its
  // corpus had been scored afresh.
  lemma {:induction false} AlwaysCoherent(env: Env, lim: Limits, actions: seq<Action>)
    ensures AllOk(env, Run(env, lim, actions))
  {
    if actions != [] {
      var before, a := actions[..|actions| - 1], actions[|actions| - 1];
      var s := Run(env, lim, before);
      AlwaysCoherent(env, lim, before);
      AlwaysRepresents(env, lim, before);
      AlwaysRepresents(env, lim, actions);
      GenerationMoves(env, lim, s, a);
      match a
      case Score(id) => ScoreKeepsOk(env, s, id);
      case Publish(id) => PublishKeepsOk(env, s, id);
      case Ask(id, query, topK) => AskKeepsOk(env, s, id, query, topK);
      case _ =>
        var t := Apply(env, lim, s, a);
        forall id | id in t.queries
          ensures QueryOk(env, t.ix, t.queries[id])
        {
          QueryStays(env, s.ix, t.ix, s.queries[id]);
        }
    }
  }

  lemma AnswersAreFresh(env: Env, lim: Limits, actions: seq<Action>, id: nat)
    requires id in Run(env, lim, actions).queries
    requires Run(env, lim, actions).queries[id].phase.Answered?
    ensures var q := Run(env, lim, actions).queries[id];
            && |q.corpus.documents| == |q.corpus.docTokens| == |q.corpus.ordinals|
            && q.phase.hits == FreshHits(env, q.corpus, q.tokens, q.topK)
  {
    AlwaysCoherent(env, lim, actions);
    assert QueryOk(env, Run(env, lim, actions).ix, Run(env, lim, actions).queries[id]);
  }

  // The caches do fill: a query that is scored leaves the IDF map behind, and one
  // that had to derive the vectors publishes them and their norms, fresh, exactly
  // when the corpus has not moved meanwhile.
  lemma CachesFill(env: Env, lim: Limits, actions: seq<Action>, id: nat, query: string, topK: int)
    ensures var s, t := Run(env, lim, actions), Apply(env, lim, Run(env, lim, actions), Ask(id, query, topK));
            id !in s.queries && id in t.queries && t.queries[id].phase.Scoring? ==> t.ix.idf.Some?
    ensures var s, t := Run(env, lim, actions), Apply(env, lim, Run(env, lim, actions), Publish(id));
            id in s.queries && s.queries[id].phase.Ready? && s.queries[id].phase.snapshot.vectors.None? ==>
              if s.ix.generation == s.queries[id].phase.generation
              then t.ix.vectors == Some(Vectors(s.ix.docTokens, Idf(s.ix.docTokens, env.math))) && t.ix.norms.Some?
              else t.ix == s.ix
  {
    AlwaysCoherent(env, lim, actions);
    var s := Run(env, lim, actions);
    hide Run;
    if id in s.queries && s.queries[id].phase.Ready? {
      assert QueryOk(env, s.ix, s.queries[id]);
    }
  }

  /******* What the ranking means *******/

  // By score, highest first; equal scores in document order.
  function Before(): (Scored, Scored) -> bool {
    (x: Scored, y: Scored) => x.score > y.score || (x.score == y.score && x.index <= y.index)
  }

  lemma {:induction false} InsertStable(x: Scored, s: seq<Scored>)
    requires Sorting.SortedBy(s, Before())
    requires forall y :: y in s ==> x.index < y.index
    ensures Sorting.SortedBy(Sorting.Insert(x, s, ByScore()), Before())
    ensures multiset(Sorting.Insert(x, s, ByScore())) == multiset{x} + multiset(s)
  {
    if s == [] {
      assert Sorting.Insert(x, s, ByScore()) == [x];
    } else if ByScore()(x, s[0]) {
      assert s[0] in s;
      forall i | 0 <= i < |s|
        ensures Before()(x, s[i])
      {
        assert i > 0 ==> Before()(s[0], s[i]);
      }
      hide Sorting.SortedBy;
      Sorting.ConsSorted(x, s, Before());
    } else {
      Sorting.UnconsSorted(s, Before());
      InsertStable(x, s[1..]);
      var rest := Sorting.Insert(x, s[1..], ByScore());
      hide Sorting.SortedBy, Sorting.Insert;
      forall i | 0 <= i < |rest|
        ensures Before()(s[0], rest[i])
      {
        assert rest[i] in multiset(rest);
        assert rest[i] == x || rest[i] in s[1..];
        assert s[0] in s;
      }
      Sorting.ConsSorted(s[0], rest, Before());
      assert s == [s[0]] + s[1..];
      assert Sorting.SortedBy([s[0]] + rest, Before());
    }
  }

  lemma {:induction false} SortStable(s: seq<Scored>)
    requires forall i, j :: 0 <= i < j < |s| ==> s[i].index < s[j].index
    ensures Sorting.SortedBy(Sorting.Sort(s, ByScore()), Before())
    ensures multiset(Sorting.Sort(s, ByScore())) == multiset(s)
  {
    if s != [] {
      SortStable(s[1..]);
      var rest := Sorting.Sort(s[1..], ByScore());
      forall y | y in rest
        ensures s[0].index < y.index
      {
        assert y in multiset(s[1..]);
      }
      InsertStable(s[0], rest);
      assert s == [s[0]] + s[1..];
    }
  }

  // All documents of a corpus, best first.
  ghost function Order(env: Env, c: Corpus, tokens: seq<string>): seq<Scored> {
    Sorting.Sort(FreshScores(env, c, tokens), ByScore())
  }

  // The order lists every document once, by score and then position, and every
  // similarity lies in [0, 1].
  lemma OrderRanksAll(env: Env, c: Corpus, tokens: seq<string>)
    requires env.math.Valid()
    ensures multiset(Order(env, c, tokens)) == multiset(FreshScores(env, c, tokens))
    ensures Sorting.SortedBy(Order(env, c, tokens), Before())
    ensures |Order(env, c, tokens)| == |c.docTokens|
    ensures forall s :: s in Order(env, c, tokens) ==> s.index < |c.docTokens| && 0.0 <= s.score <= 1.0
  {
    var scores := FreshScores(env, c, tokens);
    var order := Order(env, c, tokens);
    SortStable(scores);
    assert |multiset(order)| == |multiset(scores)|;
    forall s | s in order
      ensures s.index < |c.docTokens| && 0.0 <= s.score <= 1.0
    {
      assert s in multiset(scores);
      var j :| 0 <= j < |scores| && scores[j] == s;
      ScoreInUnit(env, c, tokens, j);
    }
  }

  // The answer is the front of that order: whatever it leaves out ranks after
  // everything it returns. Each hit is one document's text, ordinal and score.
  lemma BestDocuments(env: Env, c: Corpus, tokens: seq<string>, topK: nat)
    requires env.math.Valid()
    requires |c.documents| == |c.docTokens| == |c.ordinals| && tokens != []
    ensures |FreshHits(env, c, tokens, topK)| == Min(topK, |c.documents|)
    ensures forall i :: 0 <= i < |FreshHits(env, c, tokens, topK)| ==>
      && i < |Order(env, c, tokens)| && Order(env, c, tokens)[i].index < |c.documents|
      && FreshHits(env, c, tokens, topK)[i].text == c.documents[Order(env, c, tokens)[i].index]
      && FreshHits(env, c, tokens, topK)[i].ordinal == c.ordinals[Order(env, c, tokens)[i].index]
      && FreshHits(env, c, tokens, topK)[i].score == Order(env, c, tokens)[i].score
  {
    OrderRanksAll(env, c, tokens);
  }

  lemma ScoreInUnit(env: Env, c: Corpus, tokens: seq<string>, j: nat)
    requires env.math.Valid()
    requires j < |c.docTokens|
    ensures 0.0 <= FreshScores(env, c, tokens)[j].score <= 1.0
  {
    var idf := Idf(c.docTokens, env.math);
    IdfNonNegative(c.docTokens, env.math);
    TfIdfShape(tokens, idf);
    TfIdfShape(c.docTokens[j], idf);
    CosineBound(TfIdf(tokens, idf), TfIdf(c.docTokens[j], idf), env.math);
  }
}

// The in-memory TF-IDF store: a FIFO-bounded document index with caches derived
// from it, queried from a snapshot that is scored off the event loop.
module VectorStore {
  import opened Prelude
  import opened VectorMath
  import Sorting

  const MAX_TOP_K := 1000
  const MAX_QUERY_LENGTH := 10000
  const MAX_QUERY_TOKENS := 10000

  // `text.lower().split()` and the two numeric functions.
  datatype Env = Env(tokenize: string -> seq<string>, math: Math)

  datatype Limits = Limits(maxDocuments: nat, maxChunkSize: nat, maxMemory: Option<nat>)

  datatype Index = Index(
    documents: seq<string>,
    docTokens: seq<seq<string>>,
    ordinals: seq<nat>,
    nextOrdinal: nat,
    memoryUsage: int,
    idf: Option<map<string, real>>,
    vectors: Option<seq<Vec>>,
    norms: Option<seq<real>>,
    generation: nat)

  datatype Snapshot = Snapshot(
    documents: seq<string>,
    docTokens: seq<seq<string>>,
    ordinals: seq<nat>,
    idf: map<string, real>,
    vectors: Option<seq<Vec>>,
    norms: Option<seq<real>>)

  datatype Hit = Hit(text: string, ordinal: nat, score: real)

  function EmptyIndex(): Index {
    Index([], [], [], 0, 0, None, None, None, 0)
  }

  /******* Memory accounting and eviction *******/

  function TokenBytes(tokens: seq<string>): nat {
    if tokens == [] then 0 else |tokens[0]| * 2 + TokenBytes(tokens[1..])
  }

  function Estimate(chunk: string, tokens: seq<string>): nat {
    |chunk| * 2 + (TokenBytes(tokens) + |tokens| * 8) + 100
  }

  function TotalEstimate(documents: seq<string>, docTokens: seq<seq<string>>): nat
    requires |documents| == |docTokens|
  {
    if documents == [] then 0
    else Estimate(documents[0], docTokens[0]) + TotalEstimate(documents[1..], docTokens[1..])
  }

  function Min(a: nat, b: nat): nat {
    if a <= b then a else b
  }

  function Max(a: int, b: int): int {
    if a >= b then a else b
  }

  // Python's `s[n:]`, which is empty past the end.
  function From<T>(s: seq<T>, n: nat): seq<T> {
    s[Min(n, |s|)..]
  }

  ghost predicate Aligned(ix: Index) {
    |ix.documents| == |ix.docTokens| == |ix.ordinals|
  }

  function EvictOldest(ix: Index, n: nat): Index
    requires |ix.documents| == |ix.docTokens|
  {
    var gone := Min(n, |ix.documents|);
    ix.(documents := From(ix.documents, n),
        docTokens := From(ix.docTokens, n),
        ordinals := From(ix.ordinals, n),
        memoryUsage := Max(0, ix.memoryUsage - TotalEstimate(ix.documents[..gone], ix.docTokens[..gone])))
  }

  function ShedMemory(ix: Index, limit: nat): (r: Index)
    requires |ix.documents| == |ix.docTokens|
    ensures |r.documents| == |r.docTokens|
    decreases |ix.documents|
  {
    if ix.memoryUsage > limit && |ix.documents| > 0 then ShedMemory(EvictOldest(ix, 1), limit) else ix
  }

  /******* Adding, clearing *******/

  function AddOne(env: Env, ix: Index, chunk: string): Index {
    var tokens := env.tokenize(chunk);
    ix.(documents := ix.documents + [chunk],
        docTokens := ix.docTokens + [tokens],
        ordinals := ix.ordinals + [ix.nextOrdinal],
        nextOrdinal := ix.nextOrdinal + 1,
        memoryUsage := ix.memoryUsage + Estimate(chunk, tokens))
  }

  function AddAll(env: Env, ix: Index, chunks: seq<string>): (r: Index)
    requires |ix.documents| == |ix.docTokens|
    ensures |r.documents| == |r.docTokens|
  {
    if chunks == [] then ix
    else AddOne(env, AddAll(env, ix, chunks[..|chunks| - 1]), chunks[|chunks| - 1])
  }

  function Shed(lim: Limits, ix: Index): (r: Index)
    requires |ix.documents| == |ix.docTokens|
    ensures |r.documents| == |r.docTokens|
  {
    var counted := if |ix.documents| > lim.maxDocuments
                   then EvictOldest(ix, |ix.documents| - lim.maxDocuments) else ix;
    if lim.maxMemory.Some? then ShedMemory(counted, lim.maxMemory.value) else counted
  }

  function Invalidate(ix: Index): Index {
    ix.(idf := None, vectors := None, norms := None)
  }

  predicate TooLarge(lim: Limits, chunks: seq<string>) {
    exists c :: c in chunks && |c| > lim.maxChunkSize
  }

  // A rejected call leaves the store as it was.
  function AddDocuments(env: Env, lim: Limits, ix: Index, chunks: seq<string>): (r: Index)
    requires |ix.documents| == |ix.docTokens|
    ensures |r.documents| == |r.docTokens|
  {
    if TooLarge(lim, chunks) then ix
    else
      var shed := Shed(lim, AddAll(env, ix, chunks));
      Invalidate(shed).(generation := shed.generation + 1)
  }

  function Clear(ix: Index): Index {
    EmptyIndex().(generation := ix.generation + 1)
  }

  /******* Scoring a snapshot *******/

  function Vectors(docTokens: seq<seq<string>>, idf: map<string, real>): (r: seq<Vec>)
    ensures |r| == |docTokens|
  {
    seq(|docTokens|, i requires 0 <= i < |docTokens| => TfIdf(docTokens[i], idf))
  }

  function Norms(vectors: seq<Vec>, m: Math): (r: seq<real>)
    ensures |r| == |vectors|
  {
    seq(|vectors|, i requires 0 <= i < |vectors| => m.sqrt(SumOfSquares(vectors[i])))
  }

  datatype Scored = Scored(index: nat, score: real)

  // Sorting by score alone, descending; the sort is stable.
  function ByScore(): (Scored, Scored) -> bool {
    (x: Scored, y: Scored) => x.score >= y.score
  }

  function Scores(query: Vec, queryNorm: real, vectors: seq<Vec>, norms: seq<real>): (r: seq<Scored>)
    requires |vectors| == |norms|
    ensures |r| == |vectors|
    ensures forall i :: 0 <= i < |r| ==> r[i].index == i
  {
    seq(|vectors|, i requires 0 <= i < |vectors| =>
      Scored(i, CosineWithNorms(query, queryNorm, vectors[i], norms[i])))
  }

  function Pick(documents: seq<string>, ordinals: seq<nat>, s: Scored): Hit
    requires |documents| == |ordinals|
  {
    if s.index < |documents| then Hit(documents[s.index], ordinals[s.index], s.score)
    else Hit("", 0, s.score)
  }

  function TopHits(documents: seq<string>, ordinals: seq<nat>, scores: seq<Scored>, topK: nat): seq<Hit>
    requires |documents| == |ordinals|
  {
    var sorted := Sorting.Sort(scores, ByScore());
    var best := sorted[..Min(topK, |sorted|)];
    seq(|best|, i requires 0 <= i < |best| => Pick(documents, ordinals, best[i]))
  }

  datatype Ranking = Ranking(hits: seq<Hit>, vectors: seq<Vec>, norms: seq<real>)

  ghost predicate SnapshotShape(snap: Snapshot) {
    && |snap.documents| == |snap.docTokens| == |snap.ordinals|
    && (snap.vectors.Some? ==> |snap.vectors.value| == |snap.documents|)
    && (snap.norms.Some? ==> |snap.norms.value| == |snap.documents|)
  }

  function ScoreSnapshot(env: Env, queryTokens: seq<string>, snap: Snapshot, topK: nat): Ranking
    requires SnapshotShape(snap)
  {
    var stale := snap.vectors.None? || snap.norms.None?;
    var vectors := if stale then Vectors(snap.docTokens, snap.idf) else snap.vectors.value;
    var norms := if stale then Norms(vectors, env.math) else snap.norms.value;
    var query := TfIdf(queryTokens, snap.idf);
    var queryNorm := env.math.sqrt(SumOfSquares(query));
    Ranking(TopHits(snap.documents, snap.ordinals, Scores(query, queryNorm, vectors, norms), topK), vectors, norms)
  }

  /******* Starting and finishing a query *******/

  datatype Start =
    | Invalid
    | NoHits
    | Started(tokens: seq<string>, snapshot: Snapshot, generation: nat)

  function StartQuery(env: Env, ix: Index, query: string, topK: int): (Index, Start) {
    if topK < 1 || topK > MAX_TOP_K || |query| > MAX_QUERY_LENGTH then (ix, Invalid)
    else if ix.documents == [] then (ix, NoHits)
    else
      var tokens := env.tokenize(query);
      if |tokens| > MAX_QUERY_TOKENS then (ix, Invalid)
      else if tokens == [] then (ix, NoHits)
      else
        var idf := if ix.idf.Some? then ix.idf.value else Idf(ix.docTokens, env.math);
        (ix.(idf := Some(idf)),
         Started(tokens, Snapshot(ix.documents, ix.docTokens, ix.ordinals, idf, ix.vectors, ix.norms),
                 ix.generation))
  }

  // Only a query that had to derive the vectors publishes them, and only if
  // the corpus has not changed since its snapshot.
  function Publish(ix: Index, snap: Snapshot, generation: nat, r: Ranking): Index {
    if snap.vectors.None? && ix.generation == generation
    then ix.(vectors := Some(r.vectors), norms := Some(r.norms))
    else ix
  }

  /******* The store itself *******/

  class Store {
    const env: Env
    const lim: Limits
    var documents: seq<string>
    var docTokens: seq<seq<string>>
    var ordinals: seq<nat>
    var nextOrdinal: nat
    var memoryUsage: int
    var idf: Option<map<string, real>>
    var vectors: Option<seq<Vec>>
    var norms: Option<seq<real>>
    var generation: nat

    function State(): Index
      reads this
    {
      Index(documents, docTokens, ordinals, nextOrdinal, memoryUsage, idf, vectors, norms, generation)
    }

    constructor (env: Env, lim: Limits)
      ensures this.env == env && this.lim == lim
      ensures State() == EmptyIndex()
    {
      this.env, this.lim := env, lim;
      documents, docTokens, ordinals := [], [], [];
      nextOrdinal, memoryUsage, generation := 0, 0, 0;
      idf, vectors, norms := None, None, None;
    }

    method Evict(n: nat)
      requires Aligned(State())
      modifies this
      ensures State() == EvictOldest(old(State()), n)
      ensures Aligned(State())
    {
      var gone := Min(n, |documents|);
      for i := 0 to gone
        invariant State() == old(State()).(memoryUsage := memoryUsage)
        invariant memoryUsage == old(memoryUsage) - TotalEstimate(documents[..i], docTokens[..i])
      {
        TotalEstimateSnoc(documents[..i + 1], docTokens[..i + 1]);
        assert documents[..i + 1][..i] == documents[..i] && docTokens[..i + 1][..i] == docTokens[..i];
        memoryUsage := memoryUsage - Estimate(documents[i], docTokens[i]);
      }
      documents := From(documents, n);
      docTokens := From(docTokens, n);
      ordinals := From(ordinals, n);
      memoryUsage := Max(0, memoryUsage);
    }

    method AppendAll(chunks: seq<string>)
      requires Aligned(State())
      modifies this
      ensures State() == AddAll(env, old(State()), chunks)
      ensures Aligned(State())
    {
      for i := 0 to |chunks|
        invariant Aligned(State())
        invariant State() == AddAll(env, old(State()), chunks[..i])
      {
        assert chunks[..i + 1][..i] == chunks[..i];
        var tokens := env.tokenize(chunks[i]);
        documents := documents + [chunks[i]];
        docTokens := docTokens + [tokens];
        ordinals := ordinals + [nextOrdinal];
        nextOrdinal := nextOrdinal + 1;
        memoryUsage := memoryUsage + Estimate(chunks[i], tokens);
      }
      assert chunks[..|chunks|] == chunks;
    }

    method EnforceLimits()
      requires Aligned(State())
      modifies this
      ensures State() == Shed(lim, old(State()))
      ensures Aligned(State())
    {
      if |documents| > lim.maxDocuments {
        Evict(|documents| - lim.maxDocuments);
      }
      ghost var counted := State();
      if lim.maxMemory.Some? {
        while memoryUsage > lim.maxMemory.value && |documents| > 0
          invariant Aligned(State())
          invariant ShedMemory(State(), lim.maxMemory.value) == ShedMemory(counted, lim.maxMemory.value)
          decreases |documents|
        {
          Evict(1);
        }
      }
    }

    method Add(chunks: seq<string>) returns (ok: bool)
      requires Aligned(State())
      modifies this
      ensures ok == !TooLarge(lim, chunks)
      ensures State() == AddDocuments(env, lim, old(State()), chunks)
      ensures Aligned(State())
    {
      for i := 0 to |chunks|
        invariant State() == old(State())
        invariant forall j :: 0 <= j < i ==> |chunks[j]| <= lim.maxChunkSize
      {
        if |chunks[i]| > lim.maxChunkSize {
          return false;
        }
      }
      AppendAll(chunks);
      EnforceLimits();
      idf, vectors, norms := None, None, None;
      generation := generation + 1;
      ok := true;
    }

    method ClearAll()
      modifies this
      ensures State() == Clear(old(State()))
    {
      documents, docTokens, ordinals := [], [], [];
      nextOrdinal, memoryUsage := 0, 0;
      idf, vectors, norms := None, None, None;
      generation := generation + 1;
    }

    method BeginQuery(query: string, topK: int) returns (start: Start)
      modifies this`idf
      ensures (State(), start) == StartQuery(env, old(State()), query, topK)
    {
      if topK < 1 || topK > MAX_TOP_K || |query| > MAX_QUERY_LENGTH {
        return Invalid;
      }
      if documents == [] {
        return NoHits;
      }
      var tokens := env.tokenize(query);
      if |tokens| > MAX_QUERY_TOKENS {
        return Invalid;
      }
      if tokens == [] {
        return NoHits;
      }
      if idf.None? {
        var weights := CalculateIdf(docTokens, env.math);
        idf := Some(weights);
      }
      start := Started(tokens, Snapshot(documents, docTokens, ordinals, idf.value, vectors, norms), generation);
    }

    static method DeriveVectors(docTokens: seq<seq<string>>, idf: map<string, real>) returns (vectors: seq<Vec>)
      ensures vectors == Vectors(docTokens, idf)
    {
      vectors := [];
      for i := 0 to |docTokens|
        invariant vectors == Vectors(docTokens, idf)[..i]
      {
        var v := CalculateTfIdfVector(docTokens[i], idf);
        vectors := vectors + [v];
      }
    }

    static method ScoreAll(query: Vec, queryNorm: real, vectors: seq<Vec>, norms: seq<real>)
      returns (scores: seq<Scored>)
      requires |vectors| == |norms|
      ensures scores == Scores(query, queryNorm, vectors, norms)
    {
      scores := [];
      for i := 0 to |vectors|
        invariant scores == Scores(query, queryNorm, vectors, norms)[..i]
      {
        scores := scores + [Scored(i, CosineWithNorms(query, queryNorm, vectors[i], norms[i]))];
      }
    }

    // Runs in a worker thread: reads its arguments only.
    static method Score(env: Env, queryTokens: seq<string>, snap: Snapshot, topK: nat) returns (r: Ranking)
      requires SnapshotShape(snap)
      ensures r == ScoreSnapshot(env, queryTokens, snap, topK)
    {
      var vectors: seq<Vec>, norms: seq<real>;
      if snap.vectors.None? || snap.norms.None? {
        vectors := DeriveVectors(snap.docTokens, snap.idf);
        norms := Norms(vectors, env.math);
      } else {
        vectors, norms := snap.vectors.value, snap.norms.value;
      }
      var query := CalculateTfIdfVector(queryTokens, snap.idf);
      var queryNorm := env.math.sqrt(SumOfSquares(query));
      var scores := ScoreAll(query, queryNorm, vectors, norms);
      r := Ranking(TopHits(snap.documents, snap.ordinals, scores, topK), vectors, norms);
    }

    method EndQuery(snap: Snapshot, generation: nat, r: Ranking)
      modifies this`vectors, this`norms
      ensures State() == Publish(old(State()), snap, generation, r)
    {
      if snap.vectors.None? && this.generation == generation {
        vectors := Some(r.vectors);
        norms := Some(r.norms);
      }
    }
  }

  lemma {:induction false} TotalEstimateSnoc(documents: seq<string>, docTokens: seq<seq<string>>)
    requires |documents| == |docTokens| && documents != []
    ensures var n := |documents| - 1;
            TotalEstimate(documents, docTokens) ==
            TotalEstimate(documents[..n], docTokens[..n]) + Estimate(documents[n], docTokens[n])
  {
    var n := |documents| - 1;
    if n > 0 {
      TotalEstimateSnoc(documents[1..], docTokens[1..]);
      assert documents[1..][..n - 1] == documents[..n][1..];
      assert docTokens[1..][..n - 1] == docTokens[..n][1..];
    }
  }

  lemma {:induction false} TotalEstimateSplit(documents: seq<string>, docTokens: seq<seq<string>>, n: nat)
    requires |documents| == |docTokens| && n <= |documents|
    ensures TotalEstimate(documents, docTokens) ==
            TotalEstimate(documents[..n], docTokens[..n]) + TotalEstimate(documents[n..], docTokens[n..])
  {
    if n > 0 {
      TotalEstimateSplit(documents[1..], docTokens[1..], n - 1);
      assert documents[1..][..n - 1] == documents[..n][1..];
      assert docTokens[1..][..n - 1] == docTokens[..n][1..];
      assert documents[1..][n - 1..] == documents[n..] && docTokens[1..][n - 1..] == docTokens[n..];
    }
  }
}

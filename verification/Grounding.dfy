// What the corrective loop cites, traced back to the store: the ids of a query's
// hits never collide, so their order, and with it every citation, is determined.
module Grounding {
  import opened Prelude
  import opened Sorting
  import opened VectorStore
  import VS = VectorStoreProtocol
  import Decimal
  import Crag

  // `query_with_scores` turns ranked documents into hits with ids.
  function Retrieved(source: string, hits: seq<Hit>): seq<Crag.Hit> {
    seq(|hits|, i requires 0 <= i < |hits| =>
      Crag.Hit(Decimal.ChunkId(source, hits[i].ordinal), hits[i].text, hits[i].score))
  }

  // A ranking uses each document once.
  lemma RankedOnce(scores: seq<Scored>, sorted: seq<Scored>)
    requires forall i :: 0 <= i < |scores| ==> scores[i].index == i
    requires sorted == Sort(scores, ByScore())
    ensures forall i, j :: 0 <= i < j < |sorted| ==> sorted[i].index != sorted[j].index
    ensures forall i :: 0 <= i < |sorted| ==> sorted[i].index < |scores|
  {
    VS.SortStable(scores);
    RearrangedDistinct(scores, sorted);
    forall i | 0 <= i < |sorted|
      ensures sorted[i].index < |scores| && scores[sorted[i].index] == sorted[i]
    {
      assert sorted[i] in multiset(scores);
    }
  }

  lemma TopHitsOnce(documents: seq<string>, ordinals: seq<nat>, scores: seq<Scored>, topK: nat)
    requires |documents| == |ordinals| == |scores| && Distinct(ordinals)
    requires forall i :: 0 <= i < |scores| ==> scores[i].index == i
    ensures var hits := TopHits(documents, ordinals, scores, topK);
            forall i, j :: 0 <= i < j < |hits| ==> hits[i].ordinal != hits[j].ordinal
  {
    var sorted := Sort(scores, ByScore());
    RankedOnce(scores, sorted);
    var best := sorted[..Min(topK, |sorted|)];
    var hits := TopHits(documents, ordinals, scores, topK);
    forall i, j | 0 <= i < j < |hits|
      ensures hits[i].ordinal != hits[j].ordinal
    {
      assert best[i] == sorted[i] && best[j] == sorted[j];
      assert hits[i].ordinal == ordinals[sorted[i].index] && hits[j].ordinal == ordinals[sorted[j].index];
    }
  }

  // Under any interleaving of adds, clears and queries, no two hits of an answer
  // share a chunk id.
  lemma AnswerIdsDistinct(env: Env, lim: Limits, actions: seq<VS.Action>, id: nat, source: string, i: nat, j: nat)
    requires id in VS.Run(env, lim, actions).queries
    requires VS.Run(env, lim, actions).queries[id].phase.Answered?
    requires i < j < |VS.Run(env, lim, actions).queries[id].phase.hits|
    ensures var hits := Retrieved(source, VS.Run(env, lim, actions).queries[id].phase.hits);
            hits[i].chunkId != hits[j].chunkId
  {
    VS.AlwaysCoherent(env, lim, actions);
    VS.AnswersAreFresh(env, lim, actions, id);
    var q := VS.Run(env, lim, actions).queries[id];
    assert VS.QueryOk(env, VS.Run(env, lim, actions).ix, q);
    if q.tokens != [] {
      TopHitsOnce(q.corpus.documents, q.corpus.ordinals, VS.FreshScores(env, q.corpus, q.tokens), q.topK);
    }
    Decimal.ChunkIdInjective(source, q.phase.hits[i].ordinal, q.phase.hits[j].ordinal);
  }

  // So the order in which an answer is cited does not depend on how it is listed.
  lemma CitationOrderDetermined(env: Env, lim: Limits, actions: seq<VS.Action>, id: nat, source: string,
                                listed: seq<Crag.Hit>)
    requires id in VS.Run(env, lim, actions).queries
    requires VS.Run(env, lim, actions).queries[id].phase.Answered?
    requires multiset(listed) == multiset(Retrieved(source, VS.Run(env, lim, actions).queries[id].phase.hits))
    ensures Crag.OrderHits(listed) ==
            Crag.OrderHits(Retrieved(source, VS.Run(env, lim, actions).queries[id].phase.hits))
  {
    hide VS.Run, Crag.OrderHits, StringLeq;
    var hits := Retrieved(source, VS.Run(env, lim, actions).queries[id].phase.hits);
    forall i, j | 0 <= i < j < |hits|
      ensures hits[i].chunkId != hits[j].chunkId
    {
      AnswerIdsDistinct(env, lim, actions, id, source, i, j);
    }
    DifferentIds(hits);
    hide Crag.DistinctIds, Retrieved;
    Crag.OrderUnique(hits, listed);
  }

  lemma DifferentIds(hits: seq<Crag.Hit>)
    requires forall i, j :: 0 <= i < j < |hits| ==> hits[i].chunkId != hits[j].chunkId
    ensures Crag.DistinctIds(hits)
  {
  }
}

// One corrective-RAG run: search, grade, perhaps search again, then answer from
// the hits that fit the prompt.
module Crag {
  import opened Prelude
  import opened Sorting

  datatype Hit = Hit(chunkId: string, text: string, score: real)

  /******* Citations *******/

  // By descending score, then ascending id.
  predicate HitLeq(a: Hit, b: Hit) {
    a.score > b.score || (a.score == b.score && StringLeq(a.chunkId, b.chunkId))
  }

  function HitOrder(): (Hit, Hit) -> bool {
    (a, b) => HitLeq(a, b)
  }

  function OrderHits(hits: seq<Hit>): seq<Hit> {
    Sort(hits, HitOrder())
  }

  lemma HitOrderTotal()
    ensures TotalPreorder(HitOrder())
  {
    var leq := HitOrder();
    forall a, b
      ensures leq(a, b) || leq(b, a)
    {
      StringTotal(a.chunkId, b.chunkId);
    }
    forall a, b, c | leq(a, b) && leq(b, c)
      ensures leq(a, c)
    {
      if a.score == b.score == c.score {
        StringTransitive(a.chunkId, b.chunkId, c.chunkId);
      }
    }
  }

  ghost predicate DistinctIds(hits: seq<Hit>) {
    forall x, y :: x in hits && y in hits && x.chunkId == y.chunkId ==> x == y
  }

  lemma OrderAntisymmetric(hits: seq<Hit>)
    requires DistinctIds(hits)
    ensures Antisymmetric(hits, HitOrder())
  {
    forall x, y | x in hits && y in hits && HitOrder()(x, y) && HitOrder()(y, x)
      ensures x == y
    {
      StringTotal(x.chunkId, y.chunkId);
    }
  }

  lemma SameMembers(a: seq<Hit>, b: seq<Hit>)
    requires multiset(a) == multiset(b)
    ensures forall x :: x in a <==> x in b
  {
    assert forall x :: x in a <==> x in multiset(a);
    assert forall x :: x in b <==> x in multiset(b);
  }

  // The order lists the same hits by descending score and, among equal scores,
  // ascending id. For hits with different ids it is the only such order, however
  // the store listed them.
  lemma OrderUnique(hits: seq<Hit>, listed: seq<Hit>)
    requires multiset(listed) == multiset(hits)
    ensures var ordered := OrderHits(hits);
            && multiset(ordered) == multiset(hits)
            && (forall i, j :: 0 <= i < j < |ordered| ==>
                  ordered[i].score > ordered[j].score
                  || (ordered[i].score == ordered[j].score && StringLeq(ordered[i].chunkId, ordered[j].chunkId)))
    ensures DistinctIds(hits) ==> OrderHits(listed) == OrderHits(hits)
  {
    var leq := HitOrder();
    HitOrderTotal();
    SortCorrect(hits, leq);
    SortCorrect(listed, leq);
    var ordered := OrderHits(hits);
    forall i, j | 0 <= i < j < |ordered|
      ensures ordered[i].score > ordered[j].score
              || (ordered[i].score == ordered[j].score && StringLeq(ordered[i].chunkId, ordered[j].chunkId))
    {
      assert leq(ordered[i], ordered[j]);
    }
    if DistinctIds(hits) {
      hide Sort, SortedBy, TotalPreorder, HitLeq;
      SameMembers(hits, ordered);
      OrderAntisymmetric(ordered);
      SortedUnique(ordered, OrderHits(listed), leq);
    }
  }

  datatype CitationError = EmptyCitations | DanglingCitations(unknown: set<string>)

  function ValidateCitations(cited: set<string>, known: set<string>): Option<CitationError> {
    if cited == {} then Some(EmptyCitations)
    else if cited - known != {} then Some(DanglingCitations(cited - known))
    else None
  }

  // No citation at all is one error; citing what was never retrieved is another,
  // which names exactly those ids.
  lemma ValidateExactly(cited: set<string>, known: set<string>)
    ensures ValidateCitations(cited, known).None? <==> cited != {} && cited <= known
    ensures ValidateCitations(cited, known) == Some(EmptyCitations) <==> cited == {}
    ensures ValidateCitations(cited, known).Some? && ValidateCitations(cited, known).value.DanglingCitations? ==>
              forall id :: id in ValidateCitations(cited, known).value.unknown <==> id in cited && id !in known
  {
    if cited - known == {} {
      assert forall id :: id in cited && id !in known ==> id in cited - known;
    }
  }

  function Ids(hits: seq<Hit>): set<string> {
    set h | h in hits :: h.chunkId
  }

  /******* The character budget *******/

  function Texts(hits: seq<Hit>): seq<string> {
    seq(|hits|, i requires 0 <= i < |hits| => hits[i].text)
  }

  function Chars(texts: seq<string>): nat {
    if texts == [] then 0 else Chars(texts[..|texts| - 1]) + |texts[|texts| - 1]|
  }

  // `n` texts are the longest prefix within the budget, and never fewer than one.
  ghost predicate LongestPrefix(texts: seq<string>, maxChars: int, n: nat) {
    && n <= |texts|
    && (texts != [] ==> n >= 1)
    && (n >= 2 ==> Chars(texts[..n]) <= maxChars)
    && (forall k :: n < k <= |texts| ==> Chars(texts[..k]) > maxChars)
  }

  lemma {:induction false} CharsMonotone(texts: seq<string>, i: nat, k: nat)
    requires i <= k <= |texts|
    ensures Chars(texts[..i]) <= Chars(texts[..k])
  {
    if i < k {
      CharsMonotone(texts, i, k - 1);
      assert texts[..k][..k - 1] == texts[..k - 1];
    }
  }

  lemma LongestUnique(texts: seq<string>, maxChars: int, m: nat, n: nat)
    requires LongestPrefix(texts, maxChars, m) && LongestPrefix(texts, maxChars, n)
    ensures m == n
  {
  }

  method TruncateChunks(chunks: seq<string>, maxChars: int) returns (result: seq<string>)
    ensures result <= chunks && LongestPrefix(chunks, maxChars, |result|)
  {
    if chunks == [] {
      return [];
    }
    var total := 0;
    result := [];
    var i := 0;
    while i < |chunks|
      invariant 0 <= i <= |chunks| && result == chunks[..i] && total == Chars(chunks[..i])
      invariant i >= 2 ==> total <= maxChars
    {
      assert chunks[..i + 1][..i] == chunks[..i];
      if total + |chunks[i]| > maxChars && result != [] {
        forall k | i < k <= |chunks|
          ensures Chars(chunks[..k]) > maxChars
        {
          CharsMonotone(chunks, i + 1, k);
        }
        return;
      }
      result := result + [chunks[i]];
      total := total + |chunks[i]|;
      i := i + 1;
    }
  }

  function FitCount(texts: seq<string>, maxChars: int, n: nat): (k: nat)
    requires 1 <= n <= |texts| && (n >= 2 ==> Chars(texts[..n]) <= maxChars)
    ensures LongestPrefix(texts, maxChars, k)
    decreases |texts| - n
  {
    if n < |texts| && Chars(texts[..n + 1]) <= maxChars then FitCount(texts, maxChars, n + 1)
    else
      assert forall k :: n < k <= |texts| ==> Chars(texts[..k]) > maxChars by {
        forall k | n < k <= |texts|
          ensures Chars(texts[..k]) > maxChars
        {
          CharsMonotone(texts, n + 1, k);
        }
      }
      n
  }

  // The hits that are cited and shown to the model.
  function TruncateHits(hits: seq<Hit>, maxChars: int): seq<Hit> {
    if hits == [] then [] else hits[..FitCount(Texts(hits), maxChars, 1)]
  }

  method TruncateHitList(hits: seq<Hit>, maxChars: int) returns (result: seq<Hit>)
    ensures result == TruncateHits(hits, maxChars)
  {
    if hits == [] {
      return [];
    }
    var total := 0;
    result := [];
    var i := 0;
    while i < |hits|
      invariant 0 <= i <= |hits| && result == hits[..i] && total == Chars(Texts(hits)[..i])
      invariant i >= 2 ==> total <= maxChars
      invariant i >= 1 ==> FitCount(Texts(hits), maxChars, 1) == FitCount(Texts(hits), maxChars, i)
    {
      assert Texts(hits)[..i + 1][..i] == Texts(hits)[..i];
      if total + |hits[i].text| > maxChars && result != [] {
        return;
      }
      result := result + [hits[i]];
      total := total + |hits[i].text|;
      i := i + 1;
    }
  }

  // Truncation keeps the longest prefix that fits, and at least one hit; doing
  // it again changes nothing.
  lemma TruncateFacts(hits: seq<Hit>, maxChars: int)
    ensures var kept := TruncateHits(hits, maxChars);
            && kept <= hits
            && LongestPrefix(Texts(hits), maxChars, |kept|)
            && (hits != [] ==> kept != [])
            && TruncateHits(kept, maxChars) == kept
  {
    var kept := TruncateHits(hits, maxChars);
    if hits != [] {
      var n := |kept|;
      assert Texts(kept) == Texts(hits)[..n];
      assert Texts(kept)[..n] == Texts(kept);
      assert LongestPrefix(Texts(kept), maxChars, n);
      LongestUnique(Texts(kept), maxChars, n, FitCount(Texts(kept), maxChars, 1));
    }
  }

  /******* Calling a model *******/

  datatype AgentEvent<T> = Output(value: T) | TimesOut | Raises(transient: bool)

  datatype Called<T> = Called(value: T, calls: nat, slept: real)

  datatype RetryPolicy = RetryPolicy(maxAttempts: nat, baseDelay: real)

  function Pow2(n: nat): nat {
    if n == 0 then 1 else 2 * Pow2(n - 1)
  }

  function Delay(policy: RetryPolicy, jitter: nat -> real, attempt: nat): real {
    policy.baseDelay * Pow2(attempt) as real + jitter(attempt)
  }

  function RetryFrom<T>(policy: RetryPolicy, events: nat -> AgentEvent<T>, jitter: nat -> real, fallback: T,
                        attempt: nat)
    : Called<T>
    decreases policy.maxAttempts - attempt
  {
    if attempt >= policy.maxAttempts then Called(fallback, 0, 0.0)
    else match events(attempt)
      case Output(value) => Called(value, 1, 0.0)
      case TimesOut => Called(fallback, 1, 0.0)
      case Raises(transient) =>
        if attempt < policy.maxAttempts - 1 && transient then
          var rest := RetryFrom(policy, events, jitter, fallback, attempt + 1);
          Called(rest.value, 1 + rest.calls, Delay(policy, jitter, attempt) + rest.slept)
        else Called(fallback, 1, 0.0)
  }

  ghost predicate JitterOk(jitter: nat -> real) {
    forall i: nat :: 0.0 <= jitter(i) <= 1.0
  }

  // What the attempts from `attempt` on may cost at most.
  ghost predicate Cheap(policy: RetryPolicy, attempt: nat, calls: nat, slept: real)
    requires attempt < policy.maxAttempts
  {
    && 1 <= calls <= policy.maxAttempts - attempt
    && slept <= policy.baseDelay * (Pow2(policy.maxAttempts - 1) as real - Pow2(attempt) as real)
                + (policy.maxAttempts - 1 - attempt) as real
  }

  lemma Backoff(base: real, p: real, top: real, j: real, rest: real, left: real)
    requires 0.0 <= j <= 1.0 && rest <= base * (top - 2.0 * p) + left
    ensures base * p + j + rest <= base * (top - p) + left + 1.0
  {
    assert base * (top - 2.0 * p) + base * p == base * (top - p);
  }

  lemma CheapStep(policy: RetryPolicy, attempt: nat, jitter: nat -> real, calls: nat, slept: real)
    requires 0.0 <= jitter(attempt) <= 1.0 && attempt + 1 < policy.maxAttempts
    requires Cheap(policy, attempt + 1, calls, slept)
    ensures Cheap(policy, attempt, 1 + calls, Delay(policy, jitter, attempt) + slept)
  {
    var j := jitter(attempt);
    var top, p := Pow2(policy.maxAttempts - 1) as real, Pow2(attempt) as real;
    assert Pow2(attempt + 1) as real == 2.0 * p;
    Backoff(policy.baseDelay, p, top, j, slept, (policy.maxAttempts - 2 - attempt) as real);
  }

  lemma {:induction false} Pow2Grows(i: nat, k: nat)
    requires i <= k
    ensures 1 <= Pow2(i) <= Pow2(k)
  {
    if i < k {
      Pow2Grows(i, k - 1);
    } else if i > 0 {
      Pow2Grows(i - 1, i - 1);
    }
  }

  lemma CheapOnce(policy: RetryPolicy, attempt: nat)
    requires policy.baseDelay >= 0.0 && attempt < policy.maxAttempts
    ensures Cheap(policy, attempt, 1, 0.0)
  {
    Pow2Grows(attempt, policy.maxAttempts - 1);
    SpanNonNegative(policy.baseDelay, Pow2(attempt), Pow2(policy.maxAttempts - 1));
  }

  lemma {:induction false} RetryBounds<T>(policy: RetryPolicy, events: nat -> AgentEvent<T>, jitter: nat -> real,
                                          fallback: T, attempt: nat)
    requires JitterOk(jitter) && policy.baseDelay >= 0.0 && attempt < policy.maxAttempts
    ensures var c := RetryFrom(policy, events, jitter, fallback, attempt); Cheap(policy, attempt, c.calls, c.slept)
    decreases policy.maxAttempts - attempt
  {
    hide Cheap, Pow2, Delay;
    CheapOnce(policy, attempt);
    if attempt + 1 < policy.maxAttempts {
      RetryBounds(policy, events, jitter, fallback, attempt + 1);
      var rest := RetryFrom(policy, events, jitter, fallback, attempt + 1);
      CheapStep(policy, attempt, jitter, rest.calls, rest.slept);
    }
  }

  lemma SpanNonNegative(base: real, p: nat, top: nat)
    requires base >= 0.0 && p <= top
    ensures base * (top as real - p as real) >= 0.0
  {
  }

  // A whole call: at most `A` agent runs, and at most base * (2^(A-1) - 1) + (A - 1)
  // of sleep.
  function Call<T>(policy: RetryPolicy, events: nat -> AgentEvent<T>, jitter: nat -> real, fallback: T): Called<T> {
    RetryFrom(policy, events, jitter, fallback, 0)
  }

  function SleepBound(policy: RetryPolicy): real {
    if policy.maxAttempts == 0 then 0.0
    else policy.baseDelay * (Pow2(policy.maxAttempts - 1) as real - 1.0) + (policy.maxAttempts - 1) as real
  }

  lemma CallBounds<T>(policy: RetryPolicy, events: nat -> AgentEvent<T>, jitter: nat -> real, fallback: T)
    requires JitterOk(jitter) && policy.baseDelay >= 0.0
    ensures Call(policy, events, jitter, fallback).calls <= policy.maxAttempts
    ensures Call(policy, events, jitter, fallback).slept <= SleepBound(policy)
    ensures policy.maxAttempts > 0 ==>
              SleepBound(policy) ==
              policy.baseDelay * (Pow2(policy.maxAttempts - 1) as real - 1.0) + (policy.maxAttempts - 1) as real
  {
    if policy.maxAttempts > 0 {
      RetryBounds(policy, events, jitter, fallback, 0);
    }
  }

  function SumDelays(policy: RetryPolicy, jitter: nat -> real, first: nat, count: nat): real
    decreases count
  {
    if count == 0 then 0.0 else Delay(policy, jitter, first) + SumDelays(policy, jitter, first + 1, count - 1)
  }

  // Exactly: the call stops at the first attempt that does not end in a transient
  // error, or at the last; it has slept once after each attempt before that, and
  // returns that attempt's output or the fallback.
  lemma {:induction false} CallStopsAt<T>(policy: RetryPolicy, events: nat -> AgentEvent<T>, jitter: nat -> real,
                                          fallback: T, attempt: nat, stop: nat)
    requires attempt <= stop < policy.maxAttempts
    requires forall i :: attempt <= i < stop ==> events(i) == Raises(true)
    requires stop == policy.maxAttempts - 1 || events(stop) != Raises(true)
    ensures RetryFrom(policy, events, jitter, fallback, attempt) ==
            Called(if events(stop).Output? then events(stop).value else fallback, stop - attempt + 1,
                   SumDelays(policy, jitter, attempt, stop - attempt))
    decreases stop - attempt
  {
    if attempt < stop {
      assert events(attempt) == Raises(true);
      CallStopsAt(policy, events, jitter, fallback, attempt + 1, stop);
    }
  }

  // The first delay is the base and the jitter; each further one doubles the base.
  lemma DelayDoubles(policy: RetryPolicy, jitter: nat -> real, attempt: nat)
    ensures Delay(policy, jitter, 0) == policy.baseDelay + jitter(0)
    ensures Delay(policy, jitter, attempt + 1) - jitter(attempt + 1) ==
            2.0 * (Delay(policy, jitter, attempt) - jitter(attempt))
  {
    assert Pow2(attempt + 1) as real == 2.0 * Pow2(attempt) as real;
    Doubled(policy.baseDelay, Pow2(attempt) as real);
  }

  lemma Doubled(base: real, p: real)
    ensures base * (2.0 * p) == 2.0 * (base * p)
  {
  }

  /******* The workflow *******/

  datatype Config = Config(initialK: nat, widenedK: nat, maxChars: int, policy: RetryPolicy, strip: string -> string)

  // What the world answers: the store to each search, if it does not raise, the model to each attempt
  // of each grading and of the synthesis, and the jitter of each sleep.
  datatype World = World(
    search: (nat, nat) -> Option<seq<Hit>>,
    grade: (nat, seq<string>) -> (nat -> AgentEvent<bool>),
    answer: seq<string> -> (nat -> AgentEvent<string>),
    jitter: nat -> (nat -> real))

  const NO_CONTEXT :=
    "I couldn't find relevant information to answer your question. "
    + "Please try rephrasing or asking a different question."
  const APOLOGY := "I encountered an error while processing your question. Please try again or rephrase your question."

  datatype Error = InvalidState | SearchFailed | InvalidEvent | BadCitations(error: CitationError)

  datatype Result = Result(answer: string, contextFound: bool, searchCount: nat, citations: seq<Hit>)

  // What a run leaves behind; `lastHits` is what the last search gave, and `prompt`
  // lists the texts the synthesis was shown.
  datatype Outcome = Outcome(
    reply: Option<Result>,
    error: Option<Error>,
    lastHits: seq<Hit>,
    retrieved: set<string>,
    prompt: seq<string>,
    calls: nat,
    slept: real)

  function TopK(cfg: Config, n: nat): nat {
    if n == 1 then cfg.initialK else cfg.widenedK
  }

  function ChunksShown(cfg: Config, hits: seq<Hit>): seq<string>
    requires hits != []
  {
    Texts(hits)[..FitCount(Texts(hits), cfg.maxChars, 1)]
  }

  function Grade(cfg: Config, w: World, n: nat, hits: seq<Hit>): Called<bool>
    requires hits != []
  {
    Call(cfg.policy, w.grade(n, ChunksShown(cfg, hits)), w.jitter(n), false)
  }

  function Synthesize(cfg: Config, w: World, n: nat, hits: seq<Hit>, contextFound: bool, retrieved: set<string>,
                      calls: nat, slept: real): Outcome
  {
    if hits == [] then
      Outcome(Some(Result(NO_CONTEXT, contextFound, n, [])), None, hits, retrieved, [], calls, slept)
    else
      var citations := TruncateHits(OrderHits(hits), cfg.maxChars);
      var shown := Texts(TruncateHits(citations, cfg.maxChars));
      var c := Call(cfg.policy, w.answer(shown), w.jitter(0), APOLOGY);
      var bad := ValidateCitations(Ids(citations), retrieved);
      if bad.Some? then
        Outcome(None, Some(BadCitations(bad.value)), hits, retrieved, shown, calls + c.calls, slept + c.slept)
      else
        Outcome(Some(Result(cfg.strip(c.value), contextFound, n, citations)), None, hits, retrieved, shown,
                calls + c.calls, slept + c.slept)
  }

  predicate SearchRaises(cfg: Config, w: World, n: nat) {
    w.search(n, TopK(cfg, n)).None?
  }

  function HitsAt(cfg: Config, w: World, n: nat): seq<Hit> {
    var found := w.search(n, TopK(cfg, n));
    if found.Some? then found.value else []
  }

  // From the `n`th search on.
  function From(cfg: Config, w: World, query: string, maxRetries: int, n: nat, known: set<string>, calls: nat,
                slept: real): Outcome
    requires n >= 1
    decreases maxRetries - n
  {
    var hits := HitsAt(cfg, w, n);
    var retrieved := known + Ids(hits);
    if SearchRaises(cfg, w, n) then Outcome(None, Some(SearchFailed), hits, retrieved, [], calls, slept)
    else if !(1 <= |query| <= 10000) || |hits| > 100 then
      Outcome(None, Some(InvalidEvent), hits, retrieved, [], calls, slept)
    else if hits == [] then Synthesize(cfg, w, n, [], false, retrieved, calls, slept)
    else
      var g := Grade(cfg, w, n, hits);
      if g.value then Synthesize(cfg, w, n, hits, true, retrieved, calls + g.calls, slept + g.slept)
      else if n < maxRetries then From(cfg, w, query, maxRetries, n + 1, retrieved, calls + g.calls, slept + g.slept)
      else Synthesize(cfg, w, n, hits, false, retrieved, calls + g.calls, slept + g.slept)
  }

  function Run(cfg: Config, w: World, query: string, maxRetries: int): Outcome {
    if 0 <= maxRetries <= 10 then From(cfg, w, query, maxRetries, 1, {}, 0, 0.0)
    else Outcome(None, Some(InvalidState), [], {}, [], 0, 0.0)
  }

  /******* The steps *******/

  class Workflow {
    const cfg: Config
    const world: World
    var searchCount: nat
    var retrieved: set<string>
    var finalAnswer: Option<string>
    var contextFound: bool
    var lastHits: seq<Hit>
    var prompt: seq<string>
    var calls: nat
    var slept: real

    constructor (cfg: Config, world: World)
      ensures this.cfg == cfg && this.world == world
      ensures searchCount == 0 && retrieved == {} && finalAnswer == None && !contextFound
      ensures lastHits == [] && prompt == [] && calls == 0 && slept == 0.0
    {
      this.cfg, this.world := cfg, world;
      searchCount, retrieved, finalAnswer, contextFound := 0, {}, None, false;
      lastHits, prompt, calls, slept := [], [], 0, 0.0;
    }

    method RunAgentWithRetry<T>(events: nat -> AgentEvent<T>, jitter: nat -> real, fallback: T) returns (value: T)
      modifies this`calls, this`slept
      ensures var c := Call(cfg.policy, events, jitter, fallback);
              value == c.value && calls == old(calls) + c.calls && slept == old(slept) + c.slept
    {
      var attempt := 0;
      while attempt < cfg.policy.maxAttempts
        invariant 0 <= attempt <= cfg.policy.maxAttempts
        invariant var c, rest := Call(cfg.policy, events, jitter, fallback),
                                 RetryFrom(cfg.policy, events, jitter, fallback, attempt);
                  && c.value == rest.value
                  && old(calls) + c.calls == calls + rest.calls
                  && old(slept) + c.slept == slept + rest.slept
      {
        calls := calls + 1;
        match events(attempt) {
          case Output(output) => return output;
          case TimesOut => return fallback;
          case Raises(transient) =>
            if attempt < cfg.policy.maxAttempts - 1 && transient {
              slept := slept + Delay(cfg.policy, jitter, attempt);
            } else {
              return fallback;
            }
        }
        attempt := attempt + 1;
      }
      return fallback;
    }

    method Search() returns (found: Option<seq<Hit>>)
      modifies this`searchCount, this`retrieved, this`lastHits
      ensures searchCount == old(searchCount) + 1
      ensures found.None? <==> SearchRaises(cfg, world, searchCount)
      ensures lastHits == HitsAt(cfg, world, searchCount) && (found.Some? ==> found.value == lastHits)
      ensures retrieved == old(retrieved) + Ids(lastHits)
    {
      var topK := if searchCount == 0 then cfg.initialK else cfg.widenedK;
      searchCount := searchCount + 1;
      found := world.search(searchCount, topK);
      if found.None? {
        lastHits := [];
        return;
      }
      lastHits := found.value;
      retrieved := retrieved + set h | h in found.value :: h.chunkId;
    }

    method EvaluateRelevance(hits: seq<Hit>) returns (sufficient: bool)
      requires hits != []
      modifies this`calls, this`slept
      ensures var g := Grade(cfg, world, searchCount, hits);
              sufficient == g.value && calls == old(calls) + g.calls && slept == old(slept) + g.slept
    {
      var shown := TruncateChunks(Texts(hits), cfg.maxChars);
      LongestUnique(Texts(hits), cfg.maxChars, |shown|, FitCount(Texts(hits), cfg.maxChars, 1));
      assert shown == ChunksShown(cfg, hits);
      sufficient := RunAgentWithRetry(world.grade(searchCount, shown), world.jitter(searchCount), false);
    }

    function Ended(result: Option<Result>, error: Option<Error>): Outcome
      reads this
    {
      Outcome(result, error, lastHits, retrieved, prompt, calls, slept)
    }

    method SynthesizeStep(hits: seq<Hit>, found: bool) returns (result: Option<Result>, error: Option<Error>)
      requires hits == lastHits && prompt == []
      modifies this
      ensures Ended(result, error) ==
              Synthesize(cfg, world, old(searchCount), hits, found, old(retrieved), old(calls), old(slept))
      ensures result.Some? ==> finalAnswer == Some(result.value.answer) && contextFound == found
    {
      hide TruncateHits, OrderHits, Call, ValidateCitations, Ids;
      var citations: seq<Hit>, answer := [], NO_CONTEXT;
      if hits != [] {
        citations := TruncateHitList(OrderHits(hits), cfg.maxChars);
        var again := TruncateHitList(citations, cfg.maxChars);
        prompt := Texts(again);
        var response := RunAgentWithRetry(world.answer(prompt), world.jitter(0), APOLOGY);
        answer := cfg.strip(response);
        var bad := ValidateCitations(Ids(citations), retrieved);
        if bad.Some? {
          return None, Some(BadCitations(bad.value));
        }
      }
      finalAnswer := Some(answer);
      contextFound := found;
      return Some(Result(answer, found, searchCount, citations)), None;
    }

    method Execute(query: string, maxRetries: int) returns (result: Option<Result>, error: Option<Error>)
      requires searchCount == 0 && retrieved == {} && lastHits == [] && prompt == [] && calls == 0 && slept == 0.0
      modifies this
      ensures Ended(result, error) == Run(cfg, world, query, maxRetries)
    {
      hide Grade, Synthesize, Ids, TopK;
      if !(0 <= maxRetries <= 10) {
        return None, Some(InvalidState);
      }
      while true
        invariant prompt == []
        invariant From(cfg, world, query, maxRetries, searchCount + 1, retrieved, calls, slept)
                  == Run(cfg, world, query, maxRetries)
        decreases maxRetries - searchCount
      {
        var found := Search();
        if found.None? {
          return None, Some(SearchFailed);
        }
        var hits := found.value;
        if !(1 <= |query| <= 10000) || |hits| > 100 {
          return None, Some(InvalidEvent);
        }
        var sufficient := false;
        if hits != [] {
          sufficient := EvaluateRelevance(hits);
        }
        if hits == [] || sufficient || searchCount >= maxRetries {
          result, error := SynthesizeStep(hits, sufficient);
          return;
        }
      }
    }
  }

  /******* What every run keeps *******/

  function MaxSearches(maxRetries: int): nat {
    if maxRetries < 1 then 1 else maxRetries
  }

  // What the `n`th search found, if it did not raise: the first asks for the
  // initial number of hits, every later one for the widened number.
  ghost function Found(cfg: Config, w: World, n: nat): Option<seq<Hit>> {
    w.search(n, if n == 1 then cfg.initialK else cfg.widenedK)
  }

  ghost predicate WorldOk(w: World) {
    forall i :: JitterOk(w.jitter(i))
  }

  // The answer rests on the last search: the citations are the longest prefix of
  // its hits, in their one order, that fits the budget, and they are what the
  // model was shown.
  ghost predicate Grounded(cfg: Config, o: Outcome) {
    o.reply.Some? ==>
      var r := o.reply.value;
      && r.citations == TruncateHits(OrderHits(o.lastHits), cfg.maxChars)
      && o.prompt == Texts(r.citations)
      && (r.citations == [] <==> o.lastHits == [])
      && Ids(r.citations) <= o.retrieved
  }

  lemma SynthesizeGrounded(cfg: Config, w: World, n: nat, hits: seq<Hit>, found: bool, retrieved: set<string>,
                           calls: nat, slept: real)
    requires Ids(hits) <= retrieved
    ensures var o := Synthesize(cfg, w, n, hits, found, retrieved, calls, slept);
            && o.reply.Some? && Grounded(cfg, o) && o.lastHits == hits
            && o.reply.value.searchCount == n && o.reply.value.contextFound == found
  {
    var ordered := OrderHits(hits);
    var citations := TruncateHits(ordered, cfg.maxChars);
    HitOrderTotal();
    SortCorrect(hits, HitOrder());
    TruncateFacts(ordered, cfg.maxChars);
    if hits != [] {
      assert |ordered| == |hits|;
      forall h | h in citations
        ensures h.chunkId in retrieved
      {
        assert h in multiset(ordered);
        assert h in multiset(hits);
        assert h.chunkId in Ids(hits);
      }
      assert citations[0].chunkId in Ids(citations);
    }
  }

  // The attempt a call ends with: the first that is no transient error, or the last.
  ghost predicate StopsWith<T>(policy: RetryPolicy, events: nat -> AgentEvent<T>, stop: nat) {
    && stop < policy.maxAttempts
    && (forall i :: 0 <= i < stop ==> events(i) == Raises(true))
    && (stop == policy.maxAttempts - 1 || events(stop) != Raises(true))
  }

  lemma {:induction false} StopExists<T>(policy: RetryPolicy, events: nat -> AgentEvent<T>, from: nat)
    returns (stop: nat)
    requires from < policy.maxAttempts && forall i :: 0 <= i < from ==> events(i) == Raises(true)
    ensures StopsWith(policy, events, stop)
    decreases policy.maxAttempts - from
  {
    if from == policy.maxAttempts - 1 || events(from) != Raises(true) {
      stop := from;
    } else {
      stop := StopExists(policy, events, from + 1);
    }
  }

  // What that attempt says, or the fallback.
  ghost predicate Says<T>(policy: RetryPolicy, events: nat -> AgentEvent<T>, fallback: T, value: T) {
    if policy.maxAttempts == 0 then value == fallback
    else exists stop :: StopsWith(policy, events, stop) && value == match events(stop)
                                                                   case Output(v) => v
                                                                   case _ => fallback
  }

  lemma CallSays<T>(policy: RetryPolicy, events: nat -> AgentEvent<T>, jitter: nat -> real, fallback: T)
    ensures Says(policy, events, fallback, Call(policy, events, jitter, fallback).value)
  {
    if policy.maxAttempts > 0 {
      var stop := StopExists(policy, events, 0);
      CallStopsAt(policy, events, jitter, fallback, 0, stop);
    }
  }

  // The relevance model, shown the longest prefix of the texts that fits, says the hits are
  // enough.
  ghost predicate Enough(cfg: Config, w: World, n: nat, hits: seq<Hit>) {
    exists k: nat :: LongestPrefix(Texts(hits), cfg.maxChars, k)
                     && Says(cfg.policy, w.grade(n, Texts(hits)[..k]), false, true)
  }

  lemma SaysOne<T>(policy: RetryPolicy, events: nat -> AgentEvent<T>, fallback: T, a: T, b: T)
    requires Says(policy, events, fallback, a) && Says(policy, events, fallback, b)
    ensures a == b
  {
    if policy.maxAttempts > 0 {
      var i :| StopsWith(policy, events, i) && a == match events(i) case Output(v) => v case _ => fallback;
      var j :| StopsWith(policy, events, j) && b == match events(j) case Output(v) => v case _ => fallback;
      assert i == j;
    }
  }

  lemma EnoughIsGrade(cfg: Config, w: World, n: nat, hits: seq<Hit>)
    requires hits != []
    ensures Enough(cfg, w, n, hits) <==> Grade(cfg, w, n, hits).value
  {
    hide Says;
    var k := FitCount(Texts(hits), cfg.maxChars, 1);
    var events := w.grade(n, Texts(hits)[..k]);
    CallSays(cfg.policy, events, w.jitter(n), false);
    if Enough(cfg, w, n, hits) {
      var m: nat :| LongestPrefix(Texts(hits), cfg.maxChars, m)
                    && Says(cfg.policy, w.grade(n, Texts(hits)[..m]), false, true);
      LongestUnique(Texts(hits), cfg.maxChars, m, k);
      SaysOne(cfg.policy, events, false, true, Grade(cfg, w, n, hits).value);
    }
  }

  // The search at which a run stops.
  ghost predicate StopsAt(cfg: Config, w: World, query: string, maxRetries: int, n: nat)
    requires n >= 1
  {
    var found := Found(cfg, w, n);
    || found.None? || !(1 <= |query| <= 10000) || |found.value| > 100 || found.value == []
    || Enough(cfg, w, n, found.value)
    || n >= maxRetries
  }

  // Where, with what and after how many calls a run ends.
  ghost predicate EndsWell(cfg: Config, w: World, query: string, maxRetries: int, n: nat, last: nat, o: Outcome)
    requires n >= 1
  {
    var found := Found(cfg, w, last);
    && n <= last <= (if n > MaxSearches(maxRetries) then n else MaxSearches(maxRetries))
    && StopsAt(cfg, w, query, maxRetries, last)
    && (forall k :: n <= k < last ==> !StopsAt(cfg, w, query, maxRetries, k))
    && o.lastHits == (if found.Some? then found.value else [])
    && Grounded(cfg, o)
    && (o.reply.None? <==> o.error.Some?)
    && (o.error.None? || o.error == Some(SearchFailed) || o.error == Some(InvalidEvent))
    && (o.error == Some(SearchFailed) <==> found.None?)
    && (o.error == Some(InvalidEvent) <==>
          found.Some? && (!(1 <= |query| <= 10000) || |o.lastHits| > 100))
    && (o.reply.Some? ==>
          && o.reply.value.searchCount == last
          && (o.reply.value.contextFound <==> o.lastHits != [] && Enough(cfg, w, last, o.lastHits))
          && Answers(cfg, w, o))
  }

  // The answer: the apology for no context when nothing was found, else what the
  // model says to the texts it is shown, stripped, or its own apology.
  ghost predicate Answers(cfg: Config, w: World, o: Outcome)
    requires o.reply.Some?
  {
    if o.lastHits == [] then
      o.reply.value.answer == "I couldn't find relevant information to answer your question. "
                              + "Please try rephrasing or asking a different question."
    else
      exists said ::
        && Says(cfg.policy, w.answer(o.prompt),
                "I encountered an error while processing your question. Please try again or rephrase your question.",
                said)
        && o.reply.value.answer == cfg.strip(said)
  }

  lemma {:induction false} FromEnds(cfg: Config, w: World, query: string, maxRetries: int, n: nat, known: set<string>,
                                    calls: nat, slept: real)
    returns (last: nat)
    requires n >= 1
    ensures EndsWell(cfg, w, query, maxRetries, n, last, From(cfg, w, query, maxRetries, n, known, calls, slept))
    decreases maxRetries - n
  {
    hide Synthesize, Grade, Grounded, Enough, Answers;
    var hits := HitsAt(cfg, w, n);
    var retrieved := known + Ids(hits);
    last := n;
    assert SearchRaises(cfg, w, n) <==> Found(cfg, w, n).None?;
    if SearchRaises(cfg, w, n) || !(1 <= |query| <= 10000) || |hits| > 100 {
      NoReplyGrounded(cfg, From(cfg, w, query, maxRetries, n, known, calls, slept));
    } else if hits == [] {
      SynthesizeGrounded(cfg, w, n, [], false, retrieved, calls, slept);
      SynthesizeKeeps(cfg, w, n, [], false, retrieved, calls, slept);
      SynthesizeAnswers(cfg, w, n, [], false, retrieved, calls, slept);
    } else {
      var g := Grade(cfg, w, n, hits);
      EnoughIsGrade(cfg, w, n, hits);
      if !g.value && n < maxRetries {
        last := FromEnds(cfg, w, query, maxRetries, n + 1, retrieved, calls + g.calls, slept + g.slept);
      } else {
        SynthesizeGrounded(cfg, w, n, hits, g.value, retrieved, calls + g.calls, slept + g.slept);
        SynthesizeKeeps(cfg, w, n, hits, g.value, retrieved, calls + g.calls, slept + g.slept);
        SynthesizeAnswers(cfg, w, n, hits, g.value, retrieved, calls + g.calls, slept + g.slept);
      }
    }
  }

  lemma NoReplyGrounded(cfg: Config, o: Outcome)
    requires o.reply.None?
    ensures Grounded(cfg, o)
  {
  }

  lemma SynthesizeAnswers(cfg: Config, w: World, n: nat, hits: seq<Hit>, found: bool, retrieved: set<string>,
                          calls: nat, slept: real)
    requires Synthesize(cfg, w, n, hits, found, retrieved, calls, slept).reply.Some?
    ensures Answers(cfg, w, Synthesize(cfg, w, n, hits, found, retrieved, calls, slept))
  {
    hide TruncateHits, OrderHits, Call, ValidateCitations, Says;
    if hits != [] {
      var shown := Texts(TruncateHits(TruncateHits(OrderHits(hits), cfg.maxChars), cfg.maxChars));
      CallSays(cfg.policy, w.answer(shown), w.jitter(0), APOLOGY);
    }
  }

  lemma SynthesizeKeeps(cfg: Config, w: World, n: nat, hits: seq<Hit>, found: bool, retrieved: set<string>, calls: nat,
                        slept: real)
    ensures var o := Synthesize(cfg, w, n, hits, found, retrieved, calls, slept);
            && o.lastHits == hits && o.error != Some(InvalidEvent) && o.error != Some(SearchFailed)
            && (o.error.None? <==> o.reply.Some?)
  {
  }

  // Every run with a retry limit in range ends after at most max(1, limit)
  // searches: at the first one that raises, finds nothing or enough, or at the last. It
  // is grounded in that search's hits, answers with what the model says to them,
  // and validating its citations never fails.
  lemma RunEnds(cfg: Config, w: World, query: string, maxRetries: int)
    ensures var o := Run(cfg, w, query, maxRetries);
            && (o.error == Some(InvalidState) <==> !(0 <= maxRetries <= 10))
            && (o.error.Some? ==> !o.error.value.BadCitations?)
            && (0 <= maxRetries <= 10 ==>
                  exists last: nat :: 1 <= last <= MaxSearches(maxRetries)
                                      && EndsWell(cfg, w, query, maxRetries, 1, last, o))
  {
    if 0 <= maxRetries <= 10 {
      var last := FromEnds(cfg, w, query, maxRetries, 1, {}, 0, 0.0);
      assert EndsWell(cfg, w, query, maxRetries, 1, last, Run(cfg, w, query, maxRetries));
    }
  }

  /******* What a run costs *******/

  // `k` model calls more at the most.
  ghost predicate Within(cfg: Config, k: nat, calls: nat, slept: real, calls': nat, slept': real) {
    && calls' <= calls + k * cfg.policy.maxAttempts
    && slept' <= slept + k as real * SleepBound(cfg.policy)
  }

  lemma WithinAdds(cfg: Config, k: nat, calls: nat, slept: real, c: nat, s: real, calls': nat, slept': real)
    requires c <= cfg.policy.maxAttempts && s <= SleepBound(cfg.policy)
    requires Within(cfg, k, calls + c, slept + s, calls', slept')
    ensures Within(cfg, k + 1, calls, slept, calls', slept')
  {
    var a, b := cfg.policy.maxAttempts, SleepBound(cfg.policy);
    assert (k + 1) * a == k * a + a;
    assert (k + 1) as real * b == k as real * b + b;
  }

  lemma WithinWeaker(cfg: Config, j: nat, k: nat, calls: nat, slept: real, calls': nat, slept': real)
    requires j <= k && cfg.policy.baseDelay >= 0.0
    requires Within(cfg, j, calls, slept, calls', slept')
    ensures Within(cfg, k, calls, slept, calls', slept')
  {
    var a, b := cfg.policy.maxAttempts, SleepBound(cfg.policy);
    SleepBoundNonNegative(cfg.policy);
    assert k * a == j * a + (k - j) * a;
    assert k as real * b == j as real * b + (k - j) as real * b;
    ProductNonNegative(k - j, b);
  }

  lemma ProductNonNegative(k: nat, b: real)
    requires b >= 0.0
    ensures k as real * b >= 0.0
  {
  }

  lemma SleepBoundNonNegative(policy: RetryPolicy)
    requires policy.baseDelay >= 0.0
    ensures SleepBound(policy) >= 0.0
  {
    if policy.maxAttempts > 0 {
      Pow2Grows(0, policy.maxAttempts - 1);
      SpanNonNegative(policy.baseDelay, 1, Pow2(policy.maxAttempts - 1));
    }
  }

  lemma SynthesizeCosts(cfg: Config, w: World, n: nat, hits: seq<Hit>, found: bool, retrieved: set<string>, calls: nat,
                        slept: real)
    requires WorldOk(w) && cfg.policy.baseDelay >= 0.0
    ensures var o := Synthesize(cfg, w, n, hits, found, retrieved, calls, slept);
            Within(cfg, 1, calls, slept, o.calls, o.slept)
  {
    SleepBoundNonNegative(cfg.policy);
    if hits != [] {
      var shown := Texts(TruncateHits(TruncateHits(OrderHits(hits), cfg.maxChars), cfg.maxChars));
      CallBounds(cfg.policy, w.answer(shown), w.jitter(0), APOLOGY);
    }
  }

  lemma {:induction false} FromCosts(cfg: Config, w: World, query: string, maxRetries: int, n: nat, known: set<string>,
                                     calls: nat, slept: real)
    requires n >= 1 && WorldOk(w) && cfg.policy.baseDelay >= 0.0
    ensures var o := From(cfg, w, query, maxRetries, n, known, calls, slept);
            Within(cfg, if n > maxRetries then 2 else maxRetries - n + 2, calls, slept, o.calls, o.slept)
    decreases maxRetries - n
  {
    hide Synthesize, Within, Call;
    var hits := HitsAt(cfg, w, n);
    var retrieved := known + Ids(hits);
    var o := From(cfg, w, query, maxRetries, n, known, calls, slept);
    var k: nat := if n > maxRetries then 2 else maxRetries - n + 2;
    if SearchRaises(cfg, w, n) || !(1 <= |query| <= 10000) || |hits| > 100 {
      WithinNone(cfg, calls, slept);
      WithinWeaker(cfg, 0, k, calls, slept, o.calls, o.slept);
    } else if hits == [] {
      SynthesizeCosts(cfg, w, n, [], false, retrieved, calls, slept);
      WithinWeaker(cfg, 1, k, calls, slept, o.calls, o.slept);
    } else {
      var g := Grade(cfg, w, n, hits);
      CallBounds(cfg.policy, w.grade(n, ChunksShown(cfg, hits)), w.jitter(n), false);
      if !g.value && n < maxRetries {
        FromCosts(cfg, w, query, maxRetries, n + 1, retrieved, calls + g.calls, slept + g.slept);
        WithinAdds(cfg, k - 1, calls, slept, g.calls, g.slept, o.calls, o.slept);
      } else {
        SynthesizeCosts(cfg, w, n, hits, g.value, retrieved, calls + g.calls, slept + g.slept);
        WithinAdds(cfg, 1, calls, slept, g.calls, g.slept, o.calls, o.slept);
        WithinWeaker(cfg, 2, k, calls, slept, o.calls, o.slept);
      }
    }
  }

  lemma WithinNone(cfg: Config, calls: nat, slept: real)
    ensures Within(cfg, 0, calls, slept, calls, slept)
  {
  }

  // A run makes at most (max(1, limit) + 1) * A agent calls and sleeps at most as
  // many times base * (2^(A-1) - 1) + (A - 1).
  lemma RunCosts(cfg: Config, w: World, query: string, maxRetries: int)
    requires WorldOk(w) && cfg.policy.baseDelay >= 0.0
    ensures var o := Run(cfg, w, query, maxRetries);
            && o.calls <= (MaxSearches(maxRetries) + 1) * cfg.policy.maxAttempts
            && o.slept <= (MaxSearches(maxRetries) + 1) as real * SleepBound(cfg.policy)
  {
    hide SleepBound, From, Within;
    var o, k := Run(cfg, w, query, maxRetries), MaxSearches(maxRetries) + 1;
    WithinNone(cfg, 0, 0.0);
    WithinWeaker(cfg, 0, k, 0, 0.0, 0, 0.0);
    if 0 <= maxRetries <= 10 {
      FromCosts(cfg, w, query, maxRetries, 1, {}, 0, 0.0);
    }
    WithinTotal(cfg, k, o.calls, o.slept);
  }

  lemma WithinTotal(cfg: Config, k: nat, calls: nat, slept: real)
    requires Within(cfg, k, 0, 0.0, calls, slept)
    ensures calls <= k * cfg.policy.maxAttempts && slept <= k as real * SleepBound(cfg.policy)
  {
    hide SleepBound;
  }
}

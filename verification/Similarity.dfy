// What a ranked query's scores are, told from the words of the texts alone:
// counts in a multiset, documents in a set, and sums over sets of terms.
module Similarity {
  import opened Prelude
  import opened VectorMath
  import opened VectorStore
  import opened VectorStoreProtocol

  // The documents a term occurs in.
  ghost function Holders(docs: seq<seq<string>>, term: string): set<nat> {
    set i: nat | i < |docs| && term in docs[i]
  }

  // Term frequency times inverse document frequency; a term of no document
  // weighs nothing.
  ghost function Weight(m: Math, docs: seq<seq<string>>, tokens: seq<string>, term: string): real {
    if term !in tokens || Holders(docs, term) == {} then 0.0
    else multiset(tokens)[term] as real / |tokens| as real * m.log(|docs| as real / |Holders(docs, term)| as real)
  }

  ghost function Sum(terms: set<string>, f: string -> real): real {
    if terms == {} then 0.0
    else
      var t :| t in terms;
      f(t) + Sum(terms - {t}, f)
  }

  ghost function Dot(m: Math, docs: seq<seq<string>>, a: seq<string>, b: seq<string>): real {
    Sum(Elements(a) * Elements(b), t => Weight(m, docs, a, t) * Weight(m, docs, b, t))
  }

  // `n` is the length of the text's vector.
  ghost predicate IsNorm(m: Math, docs: seq<seq<string>>, a: seq<string>, n: real) {
    n >= 0.0 && n * n == Squares(m, docs, a)
  }

  ghost function Squares(m: Math, docs: seq<seq<string>>, a: seq<string>): real {
    Sum(Elements(a), t => Weight(m, docs, a, t) * Weight(m, docs, a, t))
  }

  lemma {:induction false} SumRemove(terms: set<string>, f: string -> real, t: string)
    requires t in terms
    ensures Sum(terms, f) == f(t) + Sum(terms - {t}, f)
  {
    var u :| u in terms && Sum(terms, f) == f(u) + Sum(terms - {u}, f);
    if u != t {
      SumRemove(terms - {u}, f, t);
      SumRemove(terms - {t}, f, u);
      assert terms - {u} - {t} == terms - {t} - {u};
    }
  }

  lemma {:induction false} SumIsProducts(terms: set<string>, v1: Vec, v2: Vec, f: string -> real)
    requires forall t :: t in terms ==> Product(v1, v2, t) == f(t)
    ensures SumProducts(terms, v1, v2) == Sum(terms, f)
  {
    hide Product;
    if terms != {} {
      var t :| t in terms;
      SumProductsRemove(terms, v1, v2, t);
      SumRemove(terms, f, t);
      SumIsProducts(terms - {t}, v1, v2, f);
    }
  }

  /******* The model's counts and weights *******/

  lemma {:induction false} CountIsMultiplicity(tokens: seq<string>, term: string)
    ensures Count(tokens, term) == multiset(tokens)[term]
  {
    if tokens != [] {
      CountIsMultiplicity(tokens[1..], term);
      assert tokens == [tokens[0]] + tokens[1..];
    }
  }

  lemma {:induction false} DocFreqIsHolders(docs: seq<seq<string>>, term: string)
    ensures DocFreq(docs, term) == |Holders(docs, term)|
  {
    if docs != [] {
      var n := |docs| - 1;
      var before, last := docs[..n], docs[n];
      DocFreqIsHolders(before, term);
      assert docs == before + [last];
      DocFreqAppend(before, last, term);
      assert Holders(docs, term) == Holders(before, term) + if term in last then {n} else {};
    }
  }

  lemma {:induction false} WeightAt(v: Vec, i: nat)
    requires DistinctTerms(v) && i < |v|
    ensures WeightOf(v, v[i].term) == v[i].weight
  {
    if i > 0 {
      assert forall j :: 0 <= j < |v| - 1 ==> v[1..][j] == v[j + 1];
      WeightAt(v[1..], i - 1);
    }
  }

  lemma {:induction false} WeightAbsent(v: Vec, t: string)
    requires t !in Terms(v)
    ensures WeightOf(v, t) == 0.0
  {
    if v != [] {
      assert v[0].term in Terms(v);
      assert v == [v[0]] + v[1..];
      TermsCons(v[0], v[1..]);
      WeightAbsent(v[1..], t);
    }
  }

  lemma VectorTerms(tokens: seq<string>, idf: map<string, real>)
    ensures Terms(TfIdf(tokens, idf)) == Elements(tokens)
  {
    var v := TfIdf(tokens, idf);
    if tokens != [] {
      var terms := FirstSeen(tokens);
      hide FirstSeen;
      forall t | t in Elements(tokens)
        ensures t in Terms(v)
      {
        var i :| 0 <= i < |terms| && terms[i] == t;
        assert v[i].term == t;
      }
    }
  }

  // A vector's weights are those of the text.
  lemma VectorWeight(m: Math, docs: seq<seq<string>>, tokens: seq<string>, t: string)
    ensures WeightOf(TfIdf(tokens, Idf(docs, m)), t) == Weight(m, docs, tokens, t)
  {
    var idf := Idf(docs, m);
    var v := TfIdf(tokens, idf);
    VectorTerms(tokens, idf);
    if t !in tokens {
      WeightAbsent(v, t);
    } else {
      assert t in Terms(v);
      hide TfIdf, Idf;
      var i :| 0 <= i < |v| && v[i].term == t;
      TfIdfDistinct(tokens, idf);
      WeightAt(v, i);
      WeightIs(m, docs, tokens, i);
    }
  }

  lemma WeightIs(m: Math, docs: seq<seq<string>>, tokens: seq<string>, i: nat)
    requires i < |TfIdf(tokens, Idf(docs, m))|
    ensures TfIdf(tokens, Idf(docs, m))[i].weight == Weight(m, docs, tokens, TfIdf(tokens, Idf(docs, m))[i].term)
  {
    hide Count, Idf, Holders, FirstSeen;
    var idf, t := Idf(docs, m), TfIdf(tokens, Idf(docs, m))[i].term;
    CountIsMultiplicity(tokens, t);
    IdfIs(m, docs, t);
    assert t in FirstSeen(tokens);
  }

  lemma IdfIs(m: Math, docs: seq<seq<string>>, t: string)
    ensures (if t in Idf(docs, m) then Idf(docs, m)[t] else 0.0) ==
            if Holders(docs, t) == {} then 0.0 else m.log(|docs| as real / |Holders(docs, t)| as real)
  {
    DocFreqIsHolders(docs, t);
    VocabularyCounted(docs);
    hide DocFreq, Holders, Vocabulary;
  }

  lemma SquaresCons(x: Weighted, rest: Vec)
    requires x.term !in Terms(rest)
    ensures var v := [x] + rest;
            SumProducts(Terms(v), v, v) == x.weight * x.weight + SumProducts(Terms(rest), rest, rest)
  {
    var v := [x] + rest;
    TermsCons(x, rest);
    hide Terms, SumProducts, WeightOf;
    forall t | t in Terms(rest)
      ensures Product(rest, rest, t) == Product(v, v, t)
    {
      WeightCons(x, rest, t);
    }
    SumProductsCongruent(Terms(rest), rest, v, rest, v);
    WeightCons(x, rest, x.term);
    SumProductsRemove(Terms(v), v, v, x.term);
    assert Terms(v) - {x.term} == Terms(rest);
  }

  lemma FirstApart(v: Vec)
    requires DistinctTerms(v) && v != []
    ensures DistinctTerms(v[1..]) && v[0].term !in Terms(v[1..])
  {
    DistinctTail(v);
  }

  lemma {:induction false} SquaresAreProducts(v: Vec)
    requires DistinctTerms(v)
    ensures SumOfSquares(v) == SumProducts(Terms(v), v, v)
  {
    if v != [] {
      hide Terms, SumProducts, DistinctTerms;
      FirstApart(v);
      SquaresAreProducts(v[1..]);
      SquaresCons(v[0], v[1..]);
      assert v == [v[0]] + v[1..];
    }
  }

  lemma VectorSquares(m: Math, docs: seq<seq<string>>, tokens: seq<string>)
    ensures SumOfSquares(TfIdf(tokens, Idf(docs, m))) == Squares(m, docs, tokens)
  {
    var v := TfIdf(tokens, Idf(docs, m));
    hide SumOfSquares, SumProducts, TfIdf, Idf, Weight, Sum, Terms;
    TfIdfDistinct(tokens, Idf(docs, m));
    SquaresAreProducts(v);
    VectorTerms(tokens, Idf(docs, m));
    forall t
      ensures Product(v, v, t) == Weight(m, docs, tokens, t) * Weight(m, docs, tokens, t)
    {
      VectorWeight(m, docs, tokens, t);
    }
    SumIsProducts(Terms(v), v, v, t => Weight(m, docs, tokens, t) * Weight(m, docs, tokens, t));
  }

  lemma NormIsRoot(m: Math, docs: seq<seq<string>>, tokens: seq<string>, n: real)
    requires m.Valid() && IsNorm(m, docs, tokens, n)
    ensures n == m.sqrt(SumOfSquares(TfIdf(tokens, Idf(docs, m))))
  {
    hide SumOfSquares, TfIdf, Idf, Squares;
    VectorSquares(m, docs, tokens);
    SquaredNorm(TfIdf(tokens, Idf(docs, m)), m);
    SameRoot(n, m.sqrt(SumOfSquares(TfIdf(tokens, Idf(docs, m)))));
  }

  lemma SameRoot(a: real, b: real)
    requires a >= 0.0 && b >= 0.0 && a * a == b * b
    ensures a == b
  {
    SquareOrder(a, b);
    SquareOrder(b, a);
  }

  lemma DotIsProducts(m: Math, docs: seq<seq<string>>, a: seq<string>, b: seq<string>, v: Vec, w: Vec)
    requires v == TfIdf(a, Idf(docs, m)) && w == TfIdf(b, Idf(docs, m))
    ensures SumProducts(Terms(v) * Terms(w), v, w) == Dot(m, docs, a, b)
  {
    hide SumProducts, TfIdf, Idf, Weight, Sum;
    VectorTerms(a, Idf(docs, m));
    VectorTerms(b, Idf(docs, m));
    forall t
      ensures Product(v, w, t) == Weight(m, docs, a, t) * Weight(m, docs, b, t)
    {
      VectorWeight(m, docs, a, t);
      VectorWeight(m, docs, b, t);
    }
    SumIsProducts(Terms(v) * Terms(w), v, w, t => Weight(m, docs, a, t) * Weight(m, docs, b, t));
  }

  lemma CosineIs(m: Math, docs: seq<seq<string>>, a: seq<string>, b: seq<string>, n1: real, n2: real)
    requires m.Valid() && IsNorm(m, docs, a, n1) && IsNorm(m, docs, b, n2)
    ensures n1 != 0.0 && n2 != 0.0 ==>
              Cosine(TfIdf(a, Idf(docs, m)), TfIdf(b, Idf(docs, m)), m) * (n1 * n2) == Dot(m, docs, a, b)
    ensures n1 == 0.0 || n2 == 0.0 ==> Cosine(TfIdf(a, Idf(docs, m)), TfIdf(b, Idf(docs, m)), m) == 0.0
  {
    hide TfIdf, Idf, Dot, IsNorm, Cosine, CosineWithNorms, SumOfSquares, SumProducts, Terms;
    var v, w := TfIdf(a, Idf(docs, m)), TfIdf(b, Idf(docs, m));
    NormIsRoot(m, docs, a, n1);
    NormIsRoot(m, docs, b, n2);
    TfIdfDistinct(a, Idf(docs, m));
    TfIdfDistinct(b, Idf(docs, m));
    DotIsProducts(m, docs, a, b, v, w);
    CosineRefines(v, w, m);
    CosineWithNormsExactly(v, n1, w, n2);
  }

  ghost function Times(x: real, y: real): real {
    x * y
  }

  lemma ScoreScaled(env: Env, c: Corpus, tokens: seq<string>, j: nat, n1: real, n2: real)
    requires env.math.Valid() && j < |c.docTokens|
    requires IsNorm(env.math, c.docTokens, tokens, n1) && IsNorm(env.math, c.docTokens, c.docTokens[j], n2)
    ensures FreshScores(env, c, tokens)[j].index == j
    ensures n1 != 0.0 && n2 != 0.0 ==>
              Times(FreshScores(env, c, tokens)[j].score, Times(n1, n2))
              == Dot(env.math, c.docTokens, tokens, c.docTokens[j])
    ensures n1 == 0.0 || n2 == 0.0 ==> FreshScores(env, c, tokens)[j].score == 0.0
  {
    hide TfIdf, Idf, Dot, IsNorm, Cosine;
    CosineIs(env.math, c.docTokens, tokens, c.docTokens[j], n1, n2);
  }

  /******* What the scores are *******/

  // Each document's score, scaled back by the two norms, is the sum over the
  // terms it shares with the query of the products of their weights.
  lemma ScoreExactly(env: Env, c: Corpus, tokens: seq<string>, j: nat, n1: real, n2: real)
    requires env.math.Valid() && j < |c.docTokens|
    requires IsNorm(env.math, c.docTokens, tokens, n1) && IsNorm(env.math, c.docTokens, c.docTokens[j], n2)
    ensures FreshScores(env, c, tokens)[j].index == j
    ensures n1 != 0.0 && n2 != 0.0 ==>
              FreshScores(env, c, tokens)[j].score * (n1 * n2) == Dot(env.math, c.docTokens, tokens, c.docTokens[j])
    ensures n1 == 0.0 || n2 == 0.0 ==> FreshScores(env, c, tokens)[j].score == 0.0
  {
    hide FreshScores, Dot, IsNorm;
    ScoreScaled(env, c, tokens, j, n1, n2);
  }

  lemma NormExists(m: Math, docs: seq<seq<string>>, tokens: seq<string>) returns (n: real)
    requires m.Valid()
    ensures IsNorm(m, docs, tokens, n)
  {
    hide SumOfSquares, TfIdf, Idf, Squares;
    VectorSquares(m, docs, tokens);
    SquaredNorm(TfIdf(tokens, Idf(docs, m)), m);
    n := m.sqrt(SumOfSquares(TfIdf(tokens, Idf(docs, m))));
  }

  // A document that shares no term with the query scores nothing.
  lemma NothingInCommon(env: Env, c: Corpus, tokens: seq<string>, j: nat)
    requires env.math.Valid() && j < |c.docTokens| && Elements(tokens) !! Elements(c.docTokens[j])
    ensures FreshScores(env, c, tokens)[j].score == 0.0
  {
    hide IsNorm, FreshScores, Times;
    var n1 := NormExists(env.math, c.docTokens, tokens);
    var n2 := NormExists(env.math, c.docTokens, c.docTokens[j]);
    ScoreScaled(env, c, tokens, j, n1, n2);
    assert Elements(tokens) * Elements(c.docTokens[j]) == {};
    if n1 != 0.0 && n2 != 0.0 {
      NonZeroTimes(n1, n2);
      ZeroFactor(FreshScores(env, c, tokens)[j].score, Times(n1, n2));
    }
  }

  lemma NonZeroTimes(x: real, y: real)
    requires x != 0.0 && y != 0.0
    ensures Times(x, y) != 0.0
  {
  }

  lemma ZeroFactor(x: real, p: real)
    requires p != 0.0 && Times(x, p) == 0.0
    ensures x == 0.0
  {
  }

  // A document of the query's own words, in any order, scores one, unless its
  // words weigh nothing at all.
  lemma SameWords(env: Env, c: Corpus, tokens: seq<string>, j: nat, n: real)
    requires env.math.Valid() && j < |c.docTokens| && multiset(tokens) == multiset(c.docTokens[j])
    requires IsNorm(env.math, c.docTokens, tokens, n)
    ensures FreshScores(env, c, tokens)[j].score == if n == 0.0 then 0.0 else 1.0
  {
    hide IsNorm, FreshScores, Dot, Squares, Times;
    SameSums(env.math, c.docTokens, tokens, c.docTokens[j]);
    SameNorm(env.math, c.docTokens, tokens, c.docTokens[j], n);
    ScoreScaled(env, c, tokens, j, n, n);
    if n != 0.0 {
      NonZeroTimes(n, n);
      OneFactor(FreshScores(env, c, tokens)[j].score, Times(n, n));
    }
  }

  lemma SameNorm(m: Math, docs: seq<seq<string>>, a: seq<string>, b: seq<string>, n: real)
    requires IsNorm(m, docs, a, n) && Squares(m, docs, b) == Squares(m, docs, a)
    ensures IsNorm(m, docs, b, n) && Times(n, n) == Squares(m, docs, a)
  {
  }

  lemma SameSums(m: Math, docs: seq<seq<string>>, a: seq<string>, b: seq<string>)
    requires multiset(a) == multiset(b)
    ensures Squares(m, docs, b) == Squares(m, docs, a) == Dot(m, docs, a, b)
  {
    SameWeights(m, docs, a, b);
    hide Weight, Sum;
    var square := t => Weight(m, docs, a, t) * Weight(m, docs, a, t);
    SumSame(Elements(a), square, t => Weight(m, docs, b, t) * Weight(m, docs, b, t));
    assert Elements(a) * Elements(b) == Elements(a);
    SumSame(Elements(a), square, t => Weight(m, docs, a, t) * Weight(m, docs, b, t));
  }

  lemma OneFactor(x: real, p: real)
    requires p != 0.0 && Times(x, p) == p
    ensures x == 1.0
  {
    if x != 1.0 {
      NonZeroTimes(x - 1.0, p);
    }
  }

  lemma {:induction false} SumSame(terms: set<string>, f: string -> real, g: string -> real)
    requires forall t :: t in terms ==> f(t) == g(t)
    ensures Sum(terms, f) == Sum(terms, g)
  {
    if terms != {} {
      var t :| t in terms;
      SumRemove(terms, f, t);
      SumRemove(terms, g, t);
      SumSame(terms - {t}, f, g);
    }
  }

  lemma SameWeights(m: Math, docs: seq<seq<string>>, a: seq<string>, b: seq<string>)
    requires multiset(a) == multiset(b)
    ensures Elements(a) == Elements(b)
    ensures forall t :: Weight(m, docs, a, t) == Weight(m, docs, b, t)
  {
    assert |a| == |multiset(a)| == |b|;
    assert forall t :: t in a <==> t in multiset(a);
    assert forall t :: t in b <==> t in multiset(b);
  }
}

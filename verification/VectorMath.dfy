// TF-IDF vectors and cosine similarity over real arithmetic. A vector is a
// Python dict: its items in insertion order, each term once.
module VectorMath {
  import opened Prelude

  datatype Weighted = Weighted(term: string, weight: real)

  type Vec = seq<Weighted>

  // The two library functions, known only by their defining facts.
  datatype Math = Math(sqrt: real -> real, log: real -> real) {
    ghost predicate Valid() {
      && (forall x: real :: x >= 0.0 ==> sqrt(x) >= 0.0 && sqrt(x) * sqrt(x) == x)
      && (forall x: real :: x >= 1.0 ==> log(x) >= 0.0)
    }
  }

  ghost predicate DistinctTerms(v: Vec) {
    forall i, j :: 0 <= i < j < |v| ==> v[i].term != v[j].term
  }

  ghost predicate NonNegative(v: Vec) {
    forall i :: 0 <= i < |v| ==> v[i].weight >= 0.0
  }

  predicate HasTerm(v: Vec, term: string) {
    exists i :: 0 <= i < |v| && v[i].term == term
  }

  // `v.get(term, 0.0)`
  function WeightOf(v: Vec, term: string): real {
    if v == [] then 0.0 else if v[0].term == term then v[0].weight else WeightOf(v[1..], term)
  }

  function SumOfSquares(v: Vec): (r: real)
    ensures r >= 0.0
  {
    if v == [] then 0.0 else v[0].weight * v[0].weight + SumOfSquares(v[1..])
  }

  // The sum over one vector's items of the products with the other's weights.
  function Scan(smaller: Vec, larger: Vec): real {
    if smaller == [] then 0.0
    else (if HasTerm(larger, smaller[0].term)
          then smaller[0].weight * WeightOf(larger, smaller[0].term) else 0.0) + Scan(smaller[1..], larger)
  }

  function Ratio(dot: real, norm1: real, norm2: real): real {
    if norm1 == 0.0 || norm2 == 0.0 then 0.0 else dot / (norm1 * norm2)
  }

  function CosineWithNorms(v1: Vec, norm1: real, v2: Vec, norm2: real): real {
    if v1 == [] || v2 == [] then 0.0
    else Ratio(if |v1| <= |v2| then Scan(v1, v2) else Scan(v2, v1), norm1, norm2)
  }

  /******* The plain form: a sum over the set of common terms *******/

  ghost function Terms(v: Vec): set<string> {
    set i | 0 <= i < |v| :: v[i].term
  }

  ghost function Product(v1: Vec, v2: Vec, t: string): real {
    WeightOf(v1, t) * WeightOf(v2, t)
  }

  ghost function SumProducts(terms: set<string>, v1: Vec, v2: Vec): real {
    if terms == {} then 0.0
    else
      var t :| t in terms;
      Product(v1, v2, t) + SumProducts(terms - {t}, v1, v2)
  }

  ghost function Cosine(v1: Vec, v2: Vec, m: Math): real {
    if v1 == [] || v2 == [] then 0.0
    else
      var dot := SumProducts(Terms(v1) * Terms(v2), v1, v2);
      Ratio(dot, m.sqrt(SumOfSquares(v1)), m.sqrt(SumOfSquares(v2)))
  }

  // The order in which a set is summed does not matter.
  lemma {:induction false} SumProductsRemove(terms: set<string>, v1: Vec, v2: Vec, t: string)
    requires t in terms
    ensures SumProducts(terms, v1, v2) == Product(v1, v2, t) + SumProducts(terms - {t}, v1, v2)
  {
    hide Product;
    var u :| u in terms && SumProducts(terms, v1, v2) == Product(v1, v2, u) + SumProducts(terms - {u}, v1, v2);
    if u != t {
      SumProductsRemove(terms - {u}, v1, v2, t);
      SumProductsRemove(terms - {t}, v1, v2, u);
      assert terms - {u} - {t} == terms - {t} - {u};
    }
  }

  lemma {:induction false} SumProductsCongruent(terms: set<string>, v1: Vec, w1: Vec, v2: Vec, w2: Vec)
    requires forall t :: t in terms ==> Product(v1, v2, t) == Product(w1, w2, t)
    ensures SumProducts(terms, v1, v2) == SumProducts(terms, w1, w2)
  {
    hide Product;
    if terms != {} {
      var t :| t in terms;
      SumProductsRemove(terms, v1, v2, t);
      SumProductsRemove(terms, w1, w2, t);
      SumProductsCongruent(terms - {t}, v1, w1, v2, w2);
    }
  }

  lemma TermsCons(x: Weighted, rest: Vec)
    ensures Terms([x] + rest) == {x.term} + Terms(rest)
  {
    var v := [x] + rest;
    assert v[0].term == x.term;
    forall t | t in Terms(rest)
      ensures t in Terms(v)
    {
      var i :| 0 <= i < |rest| && rest[i].term == t;
      assert v[i + 1].term == t;
    }
  }

  lemma WeightCons(x: Weighted, rest: Vec, t: string)
    ensures WeightOf([x] + rest, t) == if x.term == t then x.weight else WeightOf(rest, t)
  {
    assert ([x] + rest)[1..] == rest;
  }

  lemma ProductCons(x: Weighted, rest: Vec, v2: Vec, t: string)
    ensures Product([x] + rest, v2, t) ==
            if x.term == t then x.weight * WeightOf(v2, t) else Product(rest, v2, t)
  {
    WeightCons(x, rest, t);
  }

  lemma SumCommonCons(x: Weighted, rest: Vec, v2: Vec)
    requires x.term !in Terms(rest)
    ensures var v1 := [x] + rest;
            SumProducts(Terms(v1) * Terms(v2), v1, v2) ==
            (if x.term in Terms(v2) then x.weight * WeightOf(v2, x.term) else 0.0) +
            SumProducts(Terms(rest) * Terms(v2), rest, v2)
  {
    hide Product, WeightOf, SumProducts, Terms;
    var v1 := [x] + rest;
    TermsCons(x, rest);
    var common, all := Terms(rest) * Terms(v2), Terms(v1) * Terms(v2);
    forall t | t in common
      ensures Product(rest, v2, t) == Product(v1, v2, t)
    {
      ProductCons(x, rest, v2, t);
    }
    SumProductsCongruent(common, rest, v1, v2, v2);
    if x.term in Terms(v2) {
      ProductCons(x, rest, v2, x.term);
      SumProductsRemove(all, v1, v2, x.term);
      assert all - {x.term} == common;
    } else {
      assert all == common;
    }
  }

  lemma ScanCons(x: Weighted, rest: Vec, v2: Vec)
    ensures Scan([x] + rest, v2) ==
            (if x.term in Terms(v2) then x.weight * WeightOf(v2, x.term) else 0.0) + Scan(rest, v2)
  {
    assert ([x] + rest)[1..] == rest;
    assert HasTerm(v2, x.term) <==> x.term in Terms(v2);
  }

  // Scanning one vector visits exactly the common terms.
  lemma {:induction false} ScanIsSum(v1: Vec, v2: Vec)
    requires DistinctTerms(v1)
    ensures Scan(v1, v2) == SumProducts(Terms(v1) * Terms(v2), v1, v2)
  {
    if v1 == [] {
      assert Terms(v1) * Terms(v2) == {};
    } else {
      var x, rest := v1[0], v1[1..];
      assert x.term !in Terms(rest);
      ScanIsSum(rest, v2);
      ScanCons(x, rest, v2);
      SumCommonCons(x, rest, v2);
      assert v1 == [x] + rest;
    }
  }

  lemma ProductsCommute(v1: Vec, v2: Vec)
    ensures forall t :: Product(v1, v2, t) == Product(v2, v1, t)
  {
  }

  lemma ScanSymmetric(v1: Vec, v2: Vec)
    requires DistinctTerms(v1) && DistinctTerms(v2)
    ensures Scan(v1, v2) == Scan(v2, v1)
  {
    ScanIsSum(v1, v2);
    ScanIsSum(v2, v1);
    ProductsCommute(v1, v2);
    SumProductsCongruent(Terms(v1) * Terms(v2), v1, v2, v2, v1);
    assert Terms(v1) * Terms(v2) == Terms(v2) * Terms(v1);
  }

  lemma WalkSmaller(v1: Vec, v2: Vec)
    requires DistinctTerms(v1) && DistinctTerms(v2)
    ensures (if |v1| <= |v2| then Scan(v1, v2) else Scan(v2, v1)) == SumProducts(Terms(v1) * Terms(v2), v1, v2)
  {
    ScanIsSum(v1, v2);
    ScanSymmetric(v1, v2);
  }

  // The form with pre-computed norms that walks the smaller vector computes
  // the plain cosine, whatever the weights.
  lemma CosineRefines(v1: Vec, v2: Vec, m: Math)
    requires DistinctTerms(v1) && DistinctTerms(v2)
    ensures CosineWithNorms(v1, m.sqrt(SumOfSquares(v1)), v2, m.sqrt(SumOfSquares(v2))) == Cosine(v1, v2, m)
  {
    hide Scan, SumProducts, SumOfSquares, Terms, Ratio;
    WalkSmaller(v1, v2);
  }

  lemma QuotientTimes(d: real, p: real)
    requires p != 0.0
    ensures d / p * p == d
  {
  }

  // Scaled back by the norms the value is the sum over the common terms of the
  // products of their weights; a zero norm makes it zero.
  lemma CosineWithNormsExactly(v1: Vec, norm1: real, v2: Vec, norm2: real)
    requires DistinctTerms(v1) && DistinctTerms(v2)
    ensures norm1 != 0.0 && norm2 != 0.0 ==>
              CosineWithNorms(v1, norm1, v2, norm2) * (norm1 * norm2) == SumProducts(Terms(v1) * Terms(v2), v1, v2)
    ensures norm1 == 0.0 || norm2 == 0.0 ==> CosineWithNorms(v1, norm1, v2, norm2) == 0.0
  {
    WalkSmaller(v1, v2);
    if v1 == [] || v2 == [] {
      assert Terms(v1) * Terms(v2) == {};
    } else if norm1 != 0.0 && norm2 != 0.0 {
      hide Scan, SumProducts, Terms;
      QuotientTimes(if |v1| <= |v2| then Scan(v1, v2) else Scan(v2, v1), norm1 * norm2);
    }
  }

  /******* Cauchy-Schwarz *******/

  lemma PositiveProduct(x: real, y: real)
    requires x > 0.0 && y > 0.0
    ensures x * y > 0.0
  {
  }

  lemma SquareOrder(u: real, v: real)
    requires v >= 0.0 && u * u <= v * v
    ensures u <= v
  {
    assert (u - v) * (u + v) == u * u - v * v;
    if u > v {
      PositiveProduct(u - v, u + v);
    }
  }

  lemma ProductOrder(p: real, q: real, r: real, s: real)
    requires 0.0 <= p <= q && 0.0 <= r <= s
    ensures p * r <= q * s
  {
    assert p * r <= q * r;
    assert q * r <= q * s;
  }

  // One more coordinate keeps the inequality.
  lemma OneMoreCoordinate(d: real, a: real, b: real, x: real, y: real)
    requires a >= 0.0 && b >= 0.0 && d * d <= a * b
    ensures (d + x * y) * (d + x * y) <= (a + x * x) * (b + y * y)
  {
    var p, q := a * (y * y), b * (x * x);
    var u := 2.0 * d * (x * y);
    assert p >= 0.0 && q >= 0.0;
    assert u * u <= (p + q) * (p + q) by {
      var z := (x * y) * (x * y);
      assert z >= 0.0;
      calc {
        u * u;
        4.0 * (d * d) * z;
      <= { ProductOrder(d * d, a * b, z, z); }
        4.0 * (a * b) * z;
        { Regroup(a, b, x, y); }
        4.0 * (p * q);
      <= { assert (p - q) * (p - q) >= 0.0; }
        (p + q) * (p + q);
      }
    }
    SquareOrder(u, p + q);
    calc {
      (d + x * y) * (d + x * y);
      d * d + u + (x * y) * (x * y);
    <=
      a * b + (p + q) + (x * y) * (x * y);
      { Expand(a, b, x, y); }
      (a + x * x) * (b + y * y);
    }
  }

  lemma Regroup(a: real, b: real, x: real, y: real)
    ensures (a * b) * ((x * y) * (x * y)) == (a * (y * y)) * (b * (x * x))
  {
    var s, t := x * x, y * y;
    assert (x * y) * (x * y) == s * t by {
      calc {
        (x * y) * (x * y);
        x * (y * (x * y));
        x * (x * (y * y));
        s * t;
      }
    }
    calc {
      (a * b) * (s * t);
      a * (b * (s * t));
      a * (t * (b * s));
      (a * t) * (b * s);
    }
  }

  lemma Expand(a: real, b: real, x: real, y: real)
    ensures (a + x * x) * (b + y * y) == a * b + (a * (y * y) + b * (x * x)) + (x * y) * (x * y)
  {
    var s, t := x * x, y * y;
    assert (a + s) * (b + t) == a * b + a * t + s * b + s * t;
    assert s * t == (x * y) * (x * y) by {
      calc {
        s * t;
        x * (x * (y * y));
        x * (y * (x * y));
        (x * y) * (x * y);
      }
    }
  }

  ghost function Without(v: Vec, term: string): Vec {
    if v == [] then []
    else if v[0].term == term then v[1..]
    else [v[0]] + Without(v[1..], term)
  }

  lemma HasTermCons(x: Weighted, rest: Vec, t: string)
    ensures HasTerm([x] + rest, t) <==> x.term == t || HasTerm(rest, t)
  {
    TermsCons(x, rest);
    assert HasTerm([x] + rest, t) <==> t in Terms([x] + rest);
    assert HasTerm(rest, t) <==> t in Terms(rest);
  }

  lemma {:induction false} WithoutMembers(v: Vec, term: string, x: Weighted)
    requires DistinctTerms(v)
    ensures x in Without(v, term) <==> x in v && x.term != term
  {
    if v != [] {
      DistinctTail(v);
      WithoutMembers(v[1..], term, x);
      assert v == [v[0]] + v[1..];
    }
  }

  lemma DistinctTail(v: Vec)
    requires DistinctTerms(v) && v != []
    ensures DistinctTerms(v[1..])
    ensures forall x :: x in v[1..] ==> x.term != v[0].term
  {
    assert forall i :: 0 <= i < |v| - 1 ==> v[1..][i] == v[i + 1];
  }

  lemma DistinctCons(x: Weighted, rest: Vec)
    requires DistinctTerms(rest) && forall y :: y in rest ==> y.term != x.term
    ensures DistinctTerms([x] + rest)
  {
    var v := [x] + rest;
    forall i, j | 0 <= i < j < |v|
      ensures v[i].term != v[j].term
    {
      assert v[j] == rest[j - 1] && rest[j - 1] in rest;
      assert i > 0 ==> v[i] == rest[i - 1];
    }
  }

  lemma {:induction false} WithoutDistinct(v: Vec, term: string)
    requires DistinctTerms(v)
    ensures DistinctTerms(Without(v, term))
  {
    if v != [] {
      hide DistinctTerms;
      DistinctTail(v);
      if v[0].term != term {
        var w := Without(v[1..], term);
        WithoutDistinct(v[1..], term);
        forall y | y in w
          ensures y.term != v[0].term
        {
          WithoutMembers(v[1..], term, y);
        }
        DistinctCons(v[0], w);
      }
    }
  }

  lemma {:induction false} WithoutWeight(v: Vec, term: string, t: string)
    requires t != term
    ensures WeightOf(Without(v, term), t) == WeightOf(v, t)
    ensures HasTerm(Without(v, term), t) <==> HasTerm(v, t)
  {
    if v != [] {
      assert v == [v[0]] + v[1..];
      HasTermCons(v[0], v[1..], t);
      if v[0].term != term {
        WithoutWeight(v[1..], term, t);
        HasTermCons(v[0], Without(v[1..], term), t);
        WeightCons(v[0], Without(v[1..], term), t);
      }
    }
  }

  lemma {:induction false} WithoutSquares(v: Vec, term: string)
    requires HasTerm(v, term)
    ensures SumOfSquares(v) == SumOfSquares(Without(v, term)) + WeightOf(v, term) * WeightOf(v, term)
  {
    if v[0].term != term {
      assert v == [v[0]] + v[1..];
      HasTermCons(v[0], v[1..], term);
      WithoutSquares(v[1..], term);
      assert ([v[0]] + Without(v[1..], term))[1..] == Without(v[1..], term);
    }
  }

  lemma {:induction false} ScanWithout(v1: Vec, v2: Vec, term: string)
    requires forall i :: 0 <= i < |v1| ==> v1[i].term != term
    ensures Scan(v1, Without(v2, term)) == Scan(v1, v2)
  {
    if v1 != [] {
      ScanWithout(v1[1..], v2, term);
      WithoutWeight(v2, term, v1[0].term);
    }
  }

  // Splitting off the first item of one vector, and its term from the other.
  lemma SplitOff(x: Weighted, rest: Vec, v2: Vec) returns (other: Vec, w: real)
    requires DistinctTerms([x] + rest) && DistinctTerms(v2)
    ensures DistinctTerms(rest) && DistinctTerms(other)
    ensures Scan([x] + rest, v2) == Scan(rest, other) + x.weight * w
    ensures SumOfSquares([x] + rest) == SumOfSquares(rest) + x.weight * x.weight
    ensures SumOfSquares(v2) == SumOfSquares(other) + w * w
  {
    hide Scan, WeightOf, Without;
    ScanCons(x, rest, v2);
    assert ([x] + rest)[1..] == rest;
    DistinctTail([x] + rest);
    assert HasTerm(v2, x.term) <==> x.term in Terms(v2);
    if HasTerm(v2, x.term) {
      other, w := Without(v2, x.term), WeightOf(v2, x.term);
      WithoutDistinct(v2, x.term);
      WithoutSquares(v2, x.term);
      assert forall i :: 0 <= i < |rest| ==> rest[i] in rest;
      ScanWithout(rest, v2, x.term);
    } else {
      other, w := v2, 0.0;
    }
  }

  // A dot product against the two sums of squares.
  ghost predicate Schwarz(dot: real, squares1: real, squares2: real) {
    dot * dot <= squares1 * squares2
  }

  lemma {:induction false} CauchySchwarz(v1: Vec, v2: Vec)
    requires DistinctTerms(v1) && DistinctTerms(v2)
    ensures Schwarz(Scan(v1, v2), SumOfSquares(v1), SumOfSquares(v2))
    decreases |v1|
  {
    if v1 == [] {
      assert Scan(v1, v2) == 0.0 && SumOfSquares(v1) == 0.0;
    } else {
      var x, rest := v1[0], v1[1..];
      assert v1 == [x] + rest;
      var other, w := SplitOff(x, rest, v2);
      CauchySchwarz(rest, other);
      CoordinateStep(Scan(rest, other), SumOfSquares(rest), SumOfSquares(other), x.weight, w,
                     Scan(v1, v2), SumOfSquares(v1), SumOfSquares(v2));
    }
  }

  lemma CoordinateStep(d: real, a: real, b: real, x: real, y: real, d': real, a': real, b': real)
    requires a >= 0.0 && b >= 0.0 && Schwarz(d, a, b)
    requires d' == d + x * y && a' == a + x * x && b' == b + y * y
    ensures Schwarz(d', a', b')
  {
    OneMoreCoordinate(d, a, b, x, y);
  }

  lemma {:induction false} ScanNonNegative(v1: Vec, v2: Vec)
    requires NonNegative(v1) && NonNegative(v2)
    ensures Scan(v1, v2) >= 0.0
  {
    if v1 != [] {
      ScanNonNegative(v1[1..], v2);
      WeightNonNegative(v2, v1[0].term);
      assert v1[0].weight * WeightOf(v2, v1[0].term) >= 0.0;
    }
  }

  lemma {:induction false} WeightNonNegative(v: Vec, t: string)
    requires NonNegative(v)
    ensures WeightOf(v, t) >= 0.0
  {
    if v != [] {
      WeightNonNegative(v[1..], t);
    }
  }

  lemma QuotientInUnit(d: real, n1: real, n2: real)
    requires 0.0 <= d && n1 > 0.0 && n2 > 0.0
    requires Schwarz(d, n1 * n1, n2 * n2)
    ensures 0.0 <= d / (n1 * n2) <= 1.0
  {
    assert (n1 * n1) * (n2 * n2) == (n1 * n2) * (n1 * n2) by {
      calc {
        (n1 * n1) * (n2 * n2);
        n1 * (n1 * (n2 * n2));
        n1 * (n2 * (n1 * n2));
        (n1 * n2) * (n1 * n2);
      }
    }
    assert n1 * n2 > 0.0;
    SquareOrder(d, n1 * n2);
    var p := n1 * n2;
    assert d / p <= 1.0 && d / p >= 0.0;
  }

  // For non-negative vectors of any size the similarity lies in [0, 1].
  lemma CosineBound(v1: Vec, v2: Vec, m: Math)
    requires m.Valid()
    requires DistinctTerms(v1) && DistinctTerms(v2) && NonNegative(v1) && NonNegative(v2)
    ensures 0.0 <= Cosine(v1, v2, m) <= 1.0
  {
    hide Scan, SumProducts, SumOfSquares, Terms, Schwarz, Ratio;
    ScanIsSum(v1, v2);
    ScanNonNegative(v1, v2);
    CauchySchwarz(v1, v2);
    SquaredNorm(v1, m);
    SquaredNorm(v2, m);
    RatioInUnit(Scan(v1, v2), SumOfSquares(v1), SumOfSquares(v2), m.sqrt(SumOfSquares(v1)), m.sqrt(SumOfSquares(v2)));
  }

  lemma RatioInUnit(d: real, squares1: real, squares2: real, n1: real, n2: real)
    requires 0.0 <= d && n1 >= 0.0 && n2 >= 0.0
    requires n1 * n1 == squares1 && n2 * n2 == squares2 && Schwarz(d, squares1, squares2)
    ensures 0.0 <= Ratio(d, n1, n2) <= 1.0
  {
    hide Schwarz;
    if n1 != 0.0 && n2 != 0.0 {
      QuotientInUnit(d, n1, n2);
    }
  }

  lemma SquaredNorm(v: Vec, m: Math)
    requires m.Valid()
    ensures m.sqrt(SumOfSquares(v)) >= 0.0
    ensures m.sqrt(SumOfSquares(v)) * m.sqrt(SumOfSquares(v)) == SumOfSquares(v)
  {
  }

  /******* IDF and TF-IDF *******/

  // Number of documents that contain `term`.
  function DocFreq(docs: seq<seq<string>>, term: string): (n: nat)
    ensures n <= |docs|
    ensures n == 0 <==> forall d :: d in docs ==> term !in d
  {
    if docs == [] then 0
    else
      assert docs == [docs[0]] + docs[1..];
      (if term in docs[0] then 1 else 0) + DocFreq(docs[1..], term)
  }

  function Vocabulary(docs: seq<seq<string>>): set<string> {
    set d, t | d in docs && t in d :: t
  }

  function WeightFor(n: nat, df: nat, m: Math): real {
    if df == 0 then 0.0 else m.log(n as real / df as real)
  }

  function Idf(docs: seq<seq<string>>, m: Math): map<string, real> {
    map t | t in Vocabulary(docs) :: WeightFor(|docs|, DocFreq(docs, t), m)
  }

  lemma VocabularyCounted(docs: seq<seq<string>>)
    ensures forall t :: t in Vocabulary(docs) <==> DocFreq(docs, t) > 0
  {
  }

  lemma {:induction false} DocFreqAppend(docs: seq<seq<string>>, doc: seq<string>, term: string)
    ensures DocFreq(docs + [doc], term) == DocFreq(docs, term) + if term in doc then 1 else 0
  {
    if docs == [] {
      assert docs + [doc] == [doc] && [doc][1..] == [];
    } else {
      DocFreqAppend(docs[1..], doc, term);
      assert (docs + [doc])[1..] == docs[1..] + [doc];
    }
  }

  // Counts the document once for each different token in it.
  method CountDocument(df: map<string, nat>, doc: seq<string>) returns (counted: map<string, nat>)
    ensures counted.Keys == df.Keys + Elements(doc)
    ensures forall t :: t in counted ==>
      counted[t] == (if t in df then df[t] else 0) + (if t in doc then 1 else 0)
  {
    counted := df;
    var unique := Elements(doc);
    ghost var done: set<string> := {};
    while unique != {}
      invariant unique + done == Elements(doc) && unique !! done
      invariant counted.Keys == df.Keys + done
      invariant forall t :: t in counted ==>
        counted[t] == (if t in df then df[t] else 0) + (if t in done then 1 else 0)
      decreases unique
    {
      var token :| token in unique;
      counted := counted[token := (if token in counted then counted[token] else 0) + 1];
      done := done + {token};
      unique := unique - {token};
    }
  }

  ghost predicate Counts(df: map<string, nat>, docs: seq<seq<string>>) {
    && (forall t :: t in df <==> DocFreq(docs, t) > 0)
    && (forall t :: t in df ==> df[t] == DocFreq(docs, t))
  }

  lemma CountsGiveIdf(df: map<string, nat>, docs: seq<seq<string>>, m: Math, idf: map<string, real>)
    requires Counts(df, docs)
    requires idf == map t | t in df :: WeightFor(|docs|, df[t], m)
    ensures idf == Idf(docs, m)
  {
    VocabularyCounted(docs);
    assert idf.Keys == Idf(docs, m).Keys;
  }

  method CalculateIdf(docs: seq<seq<string>>, m: Math) returns (idf: map<string, real>)
    ensures idf == Idf(docs, m)
  {
    if |docs| == 0 {
      return map[];
    }
    var df: map<string, nat> := map[];
    for i := 0 to |docs|
      invariant Counts(df, docs[..i])
    {
      assert docs[..i + 1] == docs[..i] + [docs[i]];
      df := CountDocument(df, docs[i]);
      forall t
        ensures DocFreq(docs[..i + 1], t) == DocFreq(docs[..i], t) + if t in docs[i] then 1 else 0
      {
        DocFreqAppend(docs[..i], docs[i], t);
      }
    }
    assert docs[..|docs|] == docs;
    idf := map t | t in df :: WeightFor(|docs|, df[t], m);
    CountsGiveIdf(df, docs, m, idf);
  }

  lemma RatioAtLeastOne(n: real, d: real)
    requires 1.0 <= d <= n
    ensures n / d >= 1.0
  {
  }

  // Every IDF weight is non-negative, as 1 <= df <= N.
  lemma IdfNonNegative(docs: seq<seq<string>>, m: Math)
    requires m.Valid()
    ensures forall t :: t in Idf(docs, m) ==> Idf(docs, m)[t] >= 0.0
  {
    forall t | t in Idf(docs, m)
      ensures Idf(docs, m)[t] >= 0.0
    {
      VocabularyCounted(docs);
      RatioAtLeastOne(|docs| as real, DocFreq(docs, t) as real);
    }
  }

  function Count(tokens: seq<string>, term: string): nat {
    if tokens == [] then 0 else (if tokens[0] == term then 1 else 0) + Count(tokens[1..], term)
  }

  // The distinct tokens in order of first occurrence, as a Counter lists them.
  function FirstSeen(tokens: seq<string>): (terms: seq<string>)
    ensures forall t :: t in terms <==> t in tokens
  {
    if tokens == [] then []
    else
      assert tokens == tokens[..|tokens| - 1] + [tokens[|tokens| - 1]];
      var before := FirstSeen(tokens[..|tokens| - 1]);
      if tokens[|tokens| - 1] in before then before else before + [tokens[|tokens| - 1]]
  }

  lemma {:induction false} FirstSeenDistinct(tokens: seq<string>)
    ensures Distinct(FirstSeen(tokens))
  {
    if tokens != [] {
      FirstSeenDistinct(tokens[..|tokens| - 1]);
    }
  }

  function SumCounts(terms: seq<string>, tokens: seq<string>): nat {
    if terms == [] then 0 else SumCounts(terms[..|terms| - 1], tokens) + Count(tokens, terms[|terms| - 1])
  }

  lemma {:induction false} CountAppend(tokens: seq<string>, last: string, term: string)
    ensures Count(tokens + [last], term) == Count(tokens, term) + if last == term then 1 else 0
  {
    if tokens == [] {
      assert [last][1..] == [] && tokens + [last] == [last];
    } else {
      CountAppend(tokens[1..], last, term);
      assert (tokens + [last])[1..] == tokens[1..] + [last];
    }
  }

  lemma {:induction false} SumCountsAppend(terms: seq<string>, tokens: seq<string>, last: string)
    requires Distinct(terms)
    ensures SumCounts(terms, tokens + [last]) == SumCounts(terms, tokens) + if last in terms then 1 else 0
  {
    if terms != [] {
      var rest, t := terms[..|terms| - 1], terms[|terms| - 1];
      SumCountsAppend(rest, tokens, last);
      CountAppend(tokens, last, t);
      assert terms == rest + [t];
      assert forall i :: 0 <= i < |rest| ==> rest[i] == terms[i] != t;
    }
  }

  lemma {:induction false} NotCounted(tokens: seq<string>, term: string)
    requires term !in tokens
    ensures Count(tokens, term) == 0
  {
    if tokens != [] {
      assert tokens[0] in tokens;
      NotCounted(tokens[1..], term);
    }
  }

  // Every token is counted under exactly one term: the term frequencies of a text
  // add up to one.
  lemma {:induction false} CountsPartition(tokens: seq<string>)
    ensures SumCounts(FirstSeen(tokens), tokens) == |tokens|
  {
    if tokens != [] {
      var before, last := tokens[..|tokens| - 1], tokens[|tokens| - 1];
      CountsPartition(before);
      FirstSeenDistinct(before);
      assert tokens == before + [last];
      SumCountsAppend(FirstSeen(before), before, last);
      if last !in before {
        NotCounted(before, last);
        CountAppend(before, last, last);
        assert FirstSeen(tokens)[..|FirstSeen(before)|] == FirstSeen(before);
      }
    }
  }

  function TfIdfWeight(tokens: seq<string>, idf: map<string, real>, term: string): real
    requires tokens != []
  {
    Count(tokens, term) as real / |tokens| as real * if term in idf then idf[term] else 0.0
  }

  function TfIdf(tokens: seq<string>, idf: map<string, real>): (v: Vec) {
    if tokens == [] then []
    else
      var terms := FirstSeen(tokens);
      seq(|terms|, i requires 0 <= i < |terms| => Weighted(terms[i], TfIdfWeight(tokens, idf, terms[i])))
  }

  method CalculateTfIdfVector(tokens: seq<string>, idf: map<string, real>) returns (v: Vec)
    ensures v == TfIdf(tokens, idf)
  {
    if tokens == [] {
      return [];
    }
    var terms := FirstSeen(tokens);
    v := [];
    for i := 0 to |terms|
      invariant v == TfIdf(tokens, idf)[..i]
    {
      var tf := Count(tokens, terms[i]) as real / |tokens| as real;
      var weight := if terms[i] in idf then idf[terms[i]] else 0.0;
      v := v + [Weighted(terms[i], tf * weight)];
      assert TfIdf(tokens, idf)[i] == Weighted(terms[i], tf * weight);
    }
  }

  lemma TfIdfShape(tokens: seq<string>, idf: map<string, real>)
    requires forall t :: t in idf ==> idf[t] >= 0.0
    ensures DistinctTerms(TfIdf(tokens, idf)) && NonNegative(TfIdf(tokens, idf))
  {
    FirstSeenDistinct(tokens);
    if tokens != [] {
      forall term
        ensures TfIdfWeight(tokens, idf, term) >= 0.0
      {
        var tf := Count(tokens, term) as real / |tokens| as real;
        var w := if term in idf then idf[term] else 0.0;
        assert tf >= 0.0;
        assert tf * w >= 0.0;
      }
    }
  }
}

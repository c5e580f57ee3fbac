// The stable sort of the standard libraries, with what fixes its result.
module Sorting {
  ghost predicate TotalPreorder<T(!new)>(leq: (T, T) -> bool) {
    && (forall x, y :: leq(x, y) || leq(y, x))
    && (forall x, y, z :: leq(x, y) && leq(y, z) ==> leq(x, z))
  }

  ghost predicate SortedBy<T>(s: seq<T>, leq: (T, T) -> bool) {
    forall i, j :: 0 <= i < j < |s| ==> leq(s[i], s[j])
  }

  // Puts `x` in front of the first element it may precede.
  function Insert<T>(x: T, s: seq<T>, leq: (T, T) -> bool): seq<T> {
    if s == [] then [x]
    else if leq(x, s[0]) then [x] + s
    else [s[0]] + Insert(x, s[1..], leq)
  }

  function Sort<T>(s: seq<T>, leq: (T, T) -> bool): seq<T> {
    if s == [] then [] else Insert(s[0], Sort(s[1..], leq), leq)
  }

  lemma ConsSorted<T>(head: T, rest: seq<T>, leq: (T, T) -> bool)
    requires SortedBy(rest, leq) && forall i :: 0 <= i < |rest| ==> leq(head, rest[i])
    ensures SortedBy([head] + rest, leq)
  {
    var s := [head] + rest;
    forall i, j | 0 <= i < j < |s|
      ensures leq(s[i], s[j])
    {
      assert s[j] == rest[j - 1];
      assert i > 0 ==> s[i] == rest[i - 1];
    }
  }

  lemma UnconsSorted<T>(s: seq<T>, leq: (T, T) -> bool)
    requires SortedBy(s, leq) && s != []
    ensures SortedBy(s[1..], leq)
    ensures forall y :: y in s[1..] ==> leq(s[0], y)
  {
    assert forall i :: 0 <= i < |s| - 1 ==> s[1..][i] == s[i + 1];
  }

  lemma {:induction false} InsertSorted<T(!new)>(x: T, s: seq<T>, leq: (T, T) -> bool)
    requires TotalPreorder(leq) && SortedBy(s, leq)
    ensures SortedBy(Insert(x, s, leq), leq)
    ensures multiset(Insert(x, s, leq)) == multiset{x} + multiset(s)
  {
    if s == [] {
      assert Insert(x, s, leq) == [x];
    } else if leq(x, s[0]) {
      forall i | 0 <= i < |s|
        ensures leq(x, s[i])
      {
        assert i > 0 ==> leq(s[0], s[i]);
      }
      hide SortedBy;
      ConsSorted(x, s, leq);
    } else {
      UnconsSorted(s, leq);
      hide SortedBy;
      InsertSorted(x, s[1..], leq);
      var rest := Insert(x, s[1..], leq);
      forall i | 0 <= i < |rest|
        ensures leq(s[0], rest[i])
      {
        assert rest[i] in multiset(rest);
        assert rest[i] == x || rest[i] in s[1..];
      }
      ConsSorted(s[0], rest, leq);
      assert s == [s[0]] + s[1..];
    }
  }

  lemma {:induction false} SortCorrect<T(!new)>(s: seq<T>, leq: (T, T) -> bool)
    requires TotalPreorder(leq)
    ensures SortedBy(Sort(s, leq), leq)
    ensures multiset(Sort(s, leq)) == multiset(s)
    ensures |Sort(s, leq)| == |s|
  {
    if s != [] {
      SortCorrect(s[1..], leq);
      InsertSorted(s[0], Sort(s[1..], leq), leq);
      assert s == [s[0]] + s[1..];
      assert |multiset(Sort(s, leq))| == |multiset(s)|;
    }
  }

  // Elements that compare equal both ways are the same element of the list.
  ghost predicate Antisymmetric<T>(s: seq<T>, leq: (T, T) -> bool) {
    forall x, y :: x in s && y in s && leq(x, y) && leq(y, x) ==> x == y
  }

  lemma FirstAway<T>(s: seq<T>)
    requires s != []
    ensures multiset(s[1..]) == multiset(s) - multiset{s[0]}
    ensures forall x :: x in s[1..] ==> x in s
  {
    assert s == [s[0]] + s[1..];
  }

  lemma SameFirst<T(!new)>(a: seq<T>, b: seq<T>, leq: (T, T) -> bool)
    requires TotalPreorder(leq) && Antisymmetric(a, leq) && a != [] && b != []
    requires SortedBy(a, leq) && SortedBy(b, leq) && multiset(a) == multiset(b)
    ensures a[0] == b[0]
  {
    assert a[0] in multiset(b) && b[0] in multiset(a);
    assert leq(a[0], b[0]) && leq(b[0], a[0]);
  }

  // There is only one sorted arrangement when no two elements tie.
  lemma {:induction false} SortedUnique<T(!new)>(a: seq<T>, b: seq<T>, leq: (T, T) -> bool)
    requires TotalPreorder(leq) && Antisymmetric(a, leq)
    requires SortedBy(a, leq) && SortedBy(b, leq) && multiset(a) == multiset(b)
    ensures a == b
  {
    assert |multiset(a)| == |multiset(b)|;
    if a != [] {
      SameFirst(a, b, leq);
      hide TotalPreorder;
      FirstAway(a);
      FirstAway(b);
      SortedUnique(a[1..], b[1..], leq);
      assert a == [a[0]] + a[1..] && b == [b[0]] + b[1..];
    }
  }

  /******* Texts in the order of their codes *******/

  predicate LexLeq(a: seq<nat>, b: seq<nat>) {
    a == [] || (b != [] && (a[0] < b[0] || (a[0] == b[0] && LexLeq(a[1..], b[1..]))))
  }

  lemma {:induction false} LexTotal(a: seq<nat>, b: seq<nat>)
    ensures LexLeq(a, b) || LexLeq(b, a)
    ensures LexLeq(a, b) && LexLeq(b, a) ==> a == b
  {
    if a != [] && b != [] && a[0] == b[0] {
      LexTotal(a[1..], b[1..]);
      assert a == [a[0]] + a[1..] && b == [b[0]] + b[1..];
    }
  }

  lemma {:induction false} LexTransitive(a: seq<nat>, b: seq<nat>, c: seq<nat>)
    requires LexLeq(a, b) && LexLeq(b, c)
    ensures LexLeq(a, c)
  {
    if a != [] && a[0] == b[0] == c[0] {
      LexTransitive(a[1..], b[1..], c[1..]);
    }
  }

  // Strings compare by code point.
  function CodePoints(s: string): (codes: seq<nat>)
    ensures |codes| == |s| && forall i :: 0 <= i < |s| ==> codes[i] == s[i] as int
  {
    seq(|s|, i requires 0 <= i < |s| => s[i] as int)
  }

  predicate StringLeq(a: string, b: string) {
    LexLeq(CodePoints(a), CodePoints(b))
  }

  lemma StringTotal(a: string, b: string)
    ensures StringLeq(a, b) || StringLeq(b, a)
    ensures StringLeq(a, b) && StringLeq(b, a) ==> a == b
  {
    LexTotal(CodePoints(a), CodePoints(b));
    if CodePoints(a) == CodePoints(b) {
      forall i | 0 <= i < |a|
        ensures a[i] == b[i]
      {
        assert CodePoints(a)[i] == CodePoints(b)[i];
      }
      assert a == b;
    }
  }

  lemma StringTransitive(a: string, b: string, c: string)
    requires StringLeq(a, b) && StringLeq(b, c)
    ensures StringLeq(a, c)
  {
    LexTransitive(CodePoints(a), CodePoints(b), CodePoints(c));
  }
}

// Small vocabulary shared by the models: optional values and facts about
// sequences without repetition.
module Prelude {

  datatype Option<+T> = None | Some(value: T)

  predicate Distinct<T(==)>(s: seq<T>) {
    forall i, j :: 0 <= i < j < |s| ==> s[i] != s[j]
  }

  function Elements<T>(s: seq<T>): set<T> {
    set x | x in s
  }

  // How many different values a sequence holds: all of them are different
  // exactly when the set is as large as the sequence is long.
  lemma {:induction false} DistinctCardinality<T>(s: seq<T>)
    ensures |Elements(s)| <= |s|
    ensures |Elements(s)| == |s| <==> Distinct(s)
  {
    if s == [] {
      assert Elements(s) == {};
    } else {
      var rest, x := s[..|s| - 1], s[|s| - 1];
      DistinctCardinality(rest);
      assert s == rest + [x];
      assert Elements(s) == Elements(rest) + {x};
      if x in rest {
        assert Elements(s) == Elements(rest);
        var i :| 0 <= i < |rest| && rest[i] == x;
        assert s[i] == s[|s| - 1];
      } else {
        assert Distinct(s) <==> Distinct(rest) by {
          if Distinct(s) {
            assert forall i, j :: 0 <= i < j < |rest| ==> rest[i] == s[i] && rest[j] == s[j];
          }
        }
      }
    }
  }

  // No element occurs twice.
  lemma {:induction false} CountDistinct<T(!new)>(s: seq<T>)
    ensures Distinct(s) <==> forall x :: multiset(s)[x] <= 1
  {
    if s != [] {
      var rest, last := s[..|s| - 1], s[|s| - 1];
      CountDistinct(rest);
      assert s == rest + [last];
      assert multiset(s)[last] == multiset(rest)[last] + 1;
      assert last in rest <==> multiset(rest)[last] >= 1;
      assert forall i :: 0 <= i < |rest| ==> s[i] == rest[i];
      assert Distinct(s) <==> Distinct(rest) && last !in rest;
      assert forall x :: x != last ==> multiset(s)[x] == multiset(rest)[x];
    }
  }

  // A rearrangement repeats nothing new.
  lemma RearrangedDistinct<T(!new)>(s: seq<T>, t: seq<T>)
    requires Distinct(s) && multiset(s) == multiset(t)
    ensures Distinct(t)
  {
    CountDistinct(s);
    CountDistinct(t);
  }

  // A run of consecutive characters.
  lemma Range(s: string, first: char, c: char)
    requires first as int + |s| < 0xD800 && forall i :: 0 <= i < |s| ==> s[i] == (first as int + i) as char
    ensures c in s <==> first as int <= c as int < first as int + |s|
  {
    if first as int <= c as int < first as int + |s| {
      assert s[c as int - first as int] == c;
    }
  }

  lemma Lower(c: char)
    ensures c in "abcdefghijklmnopqrstuvwxyz" <==> 'a' <= c <= 'z'
  {
    Range("abcdefghijklmnopqrstuvwxyz", 'a', c);
  }

  lemma Upper(c: char)
    ensures c in "ABCDEFGHIJKLMNOPQRSTUVWXYZ" <==> 'A' <= c <= 'Z'
  {
    Range("ABCDEFGHIJKLMNOPQRSTUVWXYZ", 'A', c);
  }

  lemma Ranges(c: char)
    ensures c in "abcdefghijklmnopqrstuvwxyz" <==> 'a' <= c <= 'z'
    ensures c in "ABCDEFGHIJKLMNOPQRSTUVWXYZ" <==> 'A' <= c <= 'Z'
    ensures c in "0123456789" <==> '0' <= c <= '9'
  {
    Lower(c);
    Upper(c);
    Range("0123456789", '0', c);
  }
}

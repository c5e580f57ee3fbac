// Decimal numerals as Python prints them, and the two strings built from them:
// the cache key material and the zero-padded chunk id.
module Decimal {

  function Digit(d: nat): char
    requires d < 10
  {
    "0123456789"[d]
  }

  function DigitValue(c: char): nat {
    if '0' <= c <= '9' then c as nat - '0' as nat else 0
  }

  function Numeral(n: nat): (s: string)
    ensures s != []
    ensures forall c :: c in s ==> '0' <= c <= '9'
  {
    if n < 10 then [Digit(n)] else Numeral(n / 10) + [Digit(n % 10)]
  }

  function ValueOf(s: string): nat {
    if s == [] then 0 else 10 * ValueOf(s[..|s| - 1]) + DigitValue(s[|s| - 1])
  }

  lemma {:induction false} NumeralValue(n: nat)
    ensures ValueOf(Numeral(n)) == n
  {
    if n >= 10 {
      NumeralValue(n / 10);
      assert Numeral(n)[..|Numeral(n)| - 1] == Numeral(n / 10);
    }
  }

  function Signed(i: int): string {
    if i < 0 then "-" + Numeral(-i) else Numeral(i)
  }

  lemma SignedInjective(i: int, j: int)
    requires Signed(i) == Signed(j)
    ensures i == j
  {
    if i < 0 && j < 0 {
      assert Numeral(-i) == Signed(i)[1..] == Signed(j)[1..] == Numeral(-j);
    }
    NumeralValue(if i < 0 then -i else i);
    NumeralValue(if j < 0 then -j else j);
    assert i < 0 ==> Signed(i)[0] == '-';
    assert j < 0 ==> Signed(j)[0] == '-';
    assert i >= 0 ==> Signed(i)[0] in Signed(i);
    assert j >= 0 ==> Signed(j)[0] in Signed(j);
  }

  lemma SignedHasNoBar(i: int)
    ensures '|' !in Signed(i)
  {
  }

  // f"{query}|{max_retries}|{generation}"
  function KeyMaterial(query: string, maxRetries: int, generation: nat): string {
    query + "|" + Signed(maxRetries) + "|" + Signed(generation)
  }

  // Text cut at its last bar: the part after it has no bar.
  lemma LastBar(a: string, b: string, c: string, d: string)
    requires '|' !in b && '|' !in d
    requires a + "|" + b == c + "|" + d
    ensures a == c && b == d
  {
    var whole := a + "|" + b;
    assert forall i :: |a| < i < |whole| ==> whole[i] == b[i - |a| - 1];
    assert forall i :: |c| < i < |whole| ==> whole[i] == d[i - |c| - 1];
    assert whole[|a|] == '|' && whole[|c|] == '|';
    assert a == whole[..|a|] && c == whole[..|c|];
    assert b == whole[|a| + 1..] && d == whole[|c| + 1..];
  }

  // A query may contain bars of its own, yet the three parts can be read back.
  lemma KeyMaterialInjective(q1: string, r1: int, g1: nat, q2: string, r2: int, g2: nat)
    ensures KeyMaterial(q1, r1, g1) == KeyMaterial(q2, r2, g2) <==> q1 == q2 && r1 == r2 && g1 == g2
  {
    if KeyMaterial(q1, r1, g1) == KeyMaterial(q2, r2, g2) {
      SignedHasNoBar(r1);
      SignedHasNoBar(r2);
      SignedHasNoBar(g1);
      SignedHasNoBar(g2);
      LastBar(q1 + "|" + Signed(r1), Signed(g1), q2 + "|" + Signed(r2), Signed(g2));
      LastBar(q1, Signed(r1), q2, Signed(r2));
      SignedInjective(r1, r2);
      SignedInjective(g1, g2);
    }
  }

  function Zeros(n: nat): (s: string)
    ensures |s| == n
  {
    if n == 0 then "" else Zeros(n - 1) + "0"
  }

  // f"{ordinal:04d}"
  function Pad4(n: nat): string {
    var s := Numeral(n);
    if |s| < 4 then Zeros(4 - |s|) + s else s
  }

  lemma {:induction false} LeadingZeros(n: nat, s: string)
    ensures ValueOf(Zeros(n) + s) == ValueOf(s)
    decreases |s|, n
  {
    var whole := Zeros(n) + s;
    if s != [] {
      LeadingZeros(n, s[..|s| - 1]);
      assert whole[..|whole| - 1] == Zeros(n) + s[..|s| - 1];
    } else if n > 0 {
      LeadingZeros(n - 1, s);
      assert whole[..|whole| - 1] == Zeros(n - 1) + s;
    }
  }

  // f"{SOURCE}::{ordinal:04d}"
  function ChunkId(source: string, ordinal: nat): string {
    source + "::" + Pad4(ordinal)
  }

  // Padding never merges two ordinals, also past four digits.
  lemma ChunkIdInjective(source: string, m: nat, n: nat)
    ensures ChunkId(source, m) == ChunkId(source, n) <==> m == n
  {
    if ChunkId(source, m) == ChunkId(source, n) {
      assert Pad4(m) == ChunkId(source, m)[|source| + 2..];
      assert Pad4(n) == ChunkId(source, n)[|source| + 2..];
      LeadingZeros(if |Numeral(m)| < 4 then 4 - |Numeral(m)| else 0, Numeral(m));
      LeadingZeros(if |Numeral(n)| < 4 then 4 - |Numeral(n)| else 0, Numeral(n));
      NumeralValue(m);
      NumeralValue(n);
      assert ValueOf(Pad4(m)) == m && ValueOf(Pad4(n)) == n;
    }
  }
}

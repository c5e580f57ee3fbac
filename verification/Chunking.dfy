// Splitting a text into fixed-size windows that overlap. Text is a sequence of
// UTF-16 code units, as JavaScript indexes it.
module Chunking {
  import opened Prelude

  type CodeUnit = n: nat | n < 0x10000

  type Text = seq<CodeUnit>

  // White space and line terminators, as `trim` removes them.
  predicate White(c: CodeUnit) {
    0x9 <= c <= 0xD || c == 0x20 || c == 0xA0 || c == 0x1680 || 0x2000 <= c <= 0x200A || c == 0x2028 || c == 0x2029
    || c == 0x202F || c == 0x205F || c == 0x3000 || c == 0xFEFF
  }

  // The characters it counts are those that ECMAScript lists as white space or as
  // line terminators.
  lemma WhiteExactly(c: CodeUnit)
    ensures White(c) <==>
            c in {0x9, 0xA, 0xB, 0xC, 0xD, 0x20, 0xA0, 0x1680, 0x2000, 0x2001, 0x2002, 0x2003, 0x2004, 0x2005, 0x2006,
                  0x2007, 0x2008, 0x2009, 0x200A, 0x2028, 0x2029, 0x202F, 0x205F, 0x3000, 0xFEFF}
  {
  }

  function TrimStart(s: Text): Text {
    if s != [] && White(s[0]) then TrimStart(s[1..]) else s
  }

  function TrimEnd(s: Text): Text {
    if s != [] && White(s[|s| - 1]) then TrimEnd(s[..|s| - 1]) else s
  }

  function Trim(s: Text): Text {
    TrimEnd(TrimStart(s))
  }

  lemma {:induction false} TrimStartCut(s: Text) returns (i: nat)
    ensures i <= |s| && TrimStart(s) == s[i..] && (forall k :: 0 <= k < i ==> White(s[k]))
    ensures i < |s| ==> !White(s[i])
  {
    if s != [] && White(s[0]) {
      var j := TrimStartCut(s[1..]);
      i := j + 1;
      assert s[1..][j..] == s[i..];
      assert forall k :: 1 <= k < i ==> s[k] == s[1..][k - 1];
    } else {
      i := 0;
    }
  }

  lemma {:induction false} TrimEndCut(s: Text) returns (i: nat)
    ensures i <= |s| && TrimEnd(s) == s[..i] && (forall k :: i <= k < |s| ==> White(s[k]))
    ensures i > 0 ==> !White(s[i - 1])
  {
    if s != [] && White(s[|s| - 1]) {
      i := TrimEndCut(s[..|s| - 1]);
      assert s[..|s| - 1][..i] == s[..i];
      assert forall k :: i <= k < |s| - 1 ==> s[k] == s[..|s| - 1][k];
    } else {
      i := |s|;
    }
  }

  // What is left is the text between the first and the last character that is
  // not white.
  lemma TrimExactly(s: Text) returns (i: nat, j: nat)
    ensures i <= j <= |s| && Trim(s) == s[i..j]
    ensures forall k :: 0 <= k < i || j <= k < |s| ==> White(s[k])
    ensures i < j ==> !White(s[i]) && !White(s[j - 1])
  {
    i := TrimStartCut(s);
    var m := TrimEndCut(s[i..]);
    j := i + m;
    assert s[i..][..m] == s[i..j];
    assert forall k :: j <= k < |s| ==> s[k] == s[i..][k - i];
    assert m > 0 ==> s[j - 1] == s[i..][m - 1];
  }

  /******* Windows *******/

  datatype Error = BadSize | BadOverlap | OverlapTooLarge

  datatype Result = Chunks(windows: seq<Text>) | Refused(error: Error)

  const DEFAULT_SIZE := 1000.0
  const DEFAULT_OVERLAP := 200.0

  predicate IsInteger(x: real) {
    x.Floor as real == x
  }

  predicate Is(x: real, n: nat) {
    x == n as real
  }

  // A slice that stops at the end of the text.
  function Slice(clean: Text, start: nat, size: nat): Text
    requires start <= |clean|
  {
    if start + size <= |clean| then clean[start..start + size] else clean[start..]
  }

  // Where window `k` starts.
  function Start(k: nat, step: nat): nat {
    k * step
  }

  // `n` windows are as few as reach the end.
  ghost predicate JustCovers(len: nat, size: nat, step: nat, n: nat) {
    n >= 1 && Start(n - 1, step) + size >= len && (n >= 2 ==> Start(n - 2, step) + size < len)
  }

  ghost predicate WindowsOf(clean: Text, size: nat, step: nat, ws: seq<Text>) {
    forall k: nat :: k < |ws| ==> Start(k, step) <= |clean| && ws[k] == Slice(clean, Start(k, step), size)
  }

  ghost predicate Chunked(clean: Text, size: nat, overlap: nat, ws: seq<Text>)
    requires overlap < size
  {
    if clean == [] then ws == []
    else WindowsOf(clean, size, size - overlap, ws) && JustCovers(|clean|, size, size - overlap, |ws|)
  }

  lemma NextStart(k: nat, step: nat)
    ensures Start(k + 1, step) == Start(k, step) + step
    ensures Start(0, step) == 0
  {
  }

  // A size must be a positive integer, an overlap a non-negative one below it;
  // the first of the three to fail is reported. Left out, they are 1000 and 200.
  method ChunkText(text: Text, size: Option<real>, overlap: Option<real>) returns (r: Result)
    ensures var s, v := if size.Some? then size.value else 1000.0, if overlap.Some? then overlap.value else 200.0;
            && (r == Refused(BadSize) <==> !(exists n: nat :: n > 0 && Is(s, n)))
            && (r == Refused(BadOverlap) <==> (exists n: nat :: n > 0 && Is(s, n)) && !(exists m: nat :: Is(v, m)))
            && (r == Refused(OverlapTooLarge) <==>
                  (exists n: nat :: n > 0 && Is(s, n)) && (exists m: nat :: Is(v, m)) && v >= s)
            && (r.Chunks? ==>
                  exists n: nat, m: nat :: Is(s, n) && Is(v, m) && m < n && Chunked(Trim(text), n, m, r.windows))
  {
    var s := if size.Some? then size.value else DEFAULT_SIZE;
    var v := if overlap.Some? then overlap.value else DEFAULT_OVERLAP;
    if !IsInteger(s) || s <= 0.0 {
      return Refused(BadSize);
    }
    assert Is(s, s.Floor);
    if !IsInteger(v) || v < 0.0 {
      return Refused(BadOverlap);
    }
    assert Is(v, v.Floor);
    if v >= s {
      return Refused(OverlapTooLarge);
    }
    var windows := Windows(Trim(text), s.Floor, v.Floor);
    assert Chunked(Trim(text), s.Floor, v.Floor, windows);
    return Chunks(windows);
  }

  method Windows(clean: Text, size: nat, overlap: nat) returns (chunks: seq<Text>)
    requires overlap < size
    ensures clean == [] ==> chunks == []
    ensures clean != [] ==>
              WindowsOf(clean, size, size - overlap, chunks) && JustCovers(|clean|, size, size - overlap, |chunks|)
  {
    if |clean| == 0 {
      return [];
    }
    if |clean| <= size {
      NextStart(0, size - overlap);
      FirstUpTo(clean, size);
      return [clean];
    }
    var step := size - overlap;
    chunks := [];
    var start := 0;
    while start < |clean|
      invariant start == Start(|chunks|, step)
      invariant WindowsOf(clean, size, step, chunks)
      invariant chunks != [] ==> Start(|chunks| - 1, step) + size < |clean|
      decreases |clean| - start
    {
      ghost var k := |chunks|;
      chunks := chunks + [Slice(clean, start, size)];
      if start + size >= |clean| {
        return;
      }
      NextStart(k, step);
      start := start + step;
    }
  }

  /******* What the windows promise *******/

  lemma MulMonotone(i: nat, k: nat, step: nat)
    requires i <= k
    ensures Start(i, step) <= Start(k, step)
  {
  }

  // Where window `k` of `n` ends: within the text, except that the last one ends
  // with it.
  lemma WindowEnds(len: nat, size: nat, step: nat, n: nat, k: nat)
    requires JustCovers(len, size, step, n) && k < n
    ensures k < n - 1 ==> Start(k, step) + size < len
    ensures k == n - 1 ==> Start(k, step) + size >= len
  {
    if k < n - 1 {
      MulMonotone(k, n - 2, step);
    }
  }

  lemma SlicesOverlap(clean: Text, start: nat, size: nat, overlap: nat)
    requires overlap < size && start + size < |clean|
    ensures var a, b := Slice(clean, start, size), Slice(clean, start + (size - overlap), size);
            |a| == size && overlap < |b| <= size && a[size - overlap..] == b[..overlap]
  {
    var next := start + (size - overlap);
    assert Slice(clean, start, size)[size - overlap..] == clean[next..start + size];
    assert Slice(clean, next, size)[..overlap] == clean[next..next + overlap];
  }

  // No window is longer than `size`, every window but the last has exactly that
  // length, and two neighbours share exactly `overlap` characters.
  lemma WindowsOverlap(clean: Text, size: nat, overlap: nat, ws: seq<Text>, k: nat)
    requires overlap < size && clean != []
    requires WindowsOf(clean, size, size - overlap, ws) && JustCovers(|clean|, size, size - overlap, |ws|)
    requires k < |ws|
    ensures 0 < |ws[k]| <= size
    ensures k < |ws| - 1 ==> |ws[k]| == size && |ws[k + 1]| > overlap && ws[k][size - overlap..] == ws[k + 1][..overlap]
  {
    hide Slice, JustCovers, Start;
    var step := size - overlap;
    if k < |ws| - 1 {
      WindowEnds(|clean|, size, step, |ws|, k);
      NextStart(k, step);
      SlicesOverlap(clean, Start(k, step), size, overlap);
    } else if k > 0 {
      WindowEnds(|clean|, size, step, |ws|, k - 1);
      NextStart(k - 1, step);
      SlicesOverlap(clean, Start(k - 1, step), size, overlap);
    } else {
      NextStart(0, step);
      FirstSlice(clean, size);
    }
  }

  lemma FirstSlice(clean: Text, size: nat)
    requires clean != [] && size > 0
    ensures 0 < |Slice(clean, 0, size)| <= size
    ensures Slice(clean, 0, size) == if size <= |clean| then clean[..size] else clean
  {
  }

  // The first window, then every later one without the characters it shares.
  function Rebuild(ws: seq<Text>, overlap: nat): Text {
    if ws == [] then []
    else if |ws| == 1 then ws[0]
    else
      var last := ws[|ws| - 1];
      Rebuild(ws[..|ws| - 1], overlap) + if overlap <= |last| then last[overlap..] else []
  }

  function UpTo(clean: Text, end: nat): Text {
    if end <= |clean| then clean[..end] else clean
  }

  lemma SliceExtends(clean: Text, start: nat, size: nat, overlap: nat)
    requires overlap < size && start + overlap <= |clean|
    ensures overlap <= |Slice(clean, start, size)|
    ensures UpTo(clean, start + overlap) + Slice(clean, start, size)[overlap..] == UpTo(clean, start + size)
  {
    var end := start + overlap;
    if start + size <= |clean| {
      assert Slice(clean, start, size)[overlap..] == clean[end..start + size];
      assert clean[..end] + clean[end..start + size] == clean[..start + size];
    } else {
      assert Slice(clean, start, size)[overlap..] == clean[end..];
      assert clean[..end] + clean[end..] == clean;
    }
  }

  lemma {:induction false} RebuildPrefix(clean: Text, size: nat, overlap: nat, ws: seq<Text>, n: nat)
    requires overlap < size && clean != []
    requires WindowsOf(clean, size, size - overlap, ws) && JustCovers(|clean|, size, size - overlap, |ws|)
    requires 1 <= n <= |ws|
    ensures Rebuild(ws[..n], overlap) == UpTo(clean, Start(n - 1, size - overlap) + size)
  {
    hide Slice, UpTo, JustCovers, Start;
    var step := size - overlap;
    if n == 1 {
      NextStart(0, step);
      FirstUpTo(clean, size);
    } else {
      RebuildPrefix(clean, size, overlap, ws, n - 1);
      assert ws[..n][..n - 1] == ws[..n - 1];
      WindowEnds(|clean|, size, step, |ws|, n - 2);
      NextStart(n - 2, step);
      SliceExtends(clean, Start(n - 1, step), size, overlap);
    }
  }

  lemma FirstUpTo(clean: Text, size: nat)
    ensures Slice(clean, 0, size) == UpTo(clean, size)
  {
  }

  // Nothing is lost: the windows rebuild the trimmed text.
  lemma WindowsRebuild(clean: Text, size: nat, overlap: nat, ws: seq<Text>)
    requires overlap < size && clean != []
    requires WindowsOf(clean, size, size - overlap, ws) && JustCovers(|clean|, size, size - overlap, |ws|)
    ensures Rebuild(ws, overlap) == clean
  {
    hide Start, Slice, Rebuild;
    var n := |ws|;
    RebuildPrefix(clean, size, overlap, ws, n);
    WindowEnds(|clean|, size, size - overlap, n, n - 1);
    assert ws[..n] == ws;
  }

  lemma DivExact(n: nat, step: nat, r: nat)
    requires r < step
    ensures (Start(n, step) + r) / step == n
  {
    var total := Start(n, step) + r;
    var q := total / step;
    assert total == Start(q, step) + total % step;
    hide Start;
    if q < n {
      MulMonotone(q + 1, n, step);
      NextStart(q, step);
    } else if q > n {
      MulMonotone(n + 1, q, step);
      NextStart(n, step);
    }
  }

  // How many windows there are: ceil((len - overlap) / (size - overlap)) for a
  // text longer than one window, and one for a shorter text.
  lemma WindowCount(len: nat, size: nat, overlap: nat, n: nat)
    requires overlap < size && len > 0 && JustCovers(len, size, size - overlap, n)
    ensures len > size ==> n == (len - overlap + (size - overlap) - 1) / (size - overlap)
    ensures len <= size ==> n == 1
  {
    hide Start;
    var step := size - overlap;
    NextStart(n - 1, step);
    if n >= 2 {
      NextStart(n - 2, step);
      MulMonotone(0, n - 2, step);
    } else {
      NextStart(0, step);
    }
    if len > size {
      DivExact(n, step, len - overlap + step - 1 - Start(n, step));
    }
  }
}

/** Sequence helpers shared by the vector assembler and the batched upsert:
    flattening, fixed-size chunking and sums. */
module SeqUtils {

  function Min(a: int, b: int): int {
    if a <= b then a else b
  }

  /** The set of elements of a sequence. */
  function Elements<T>(s: seq<T>): set<T> {
    set x | x in s
  }

  predicate NoDuplicates<T(==)>(s: seq<T>) {
    forall i, j :: 0 <= i < j < |s| ==> s[i] != s[j]
  }

  lemma DisjointConcat<T>(a: seq<T>, b: seq<T>)
    requires NoDuplicates(a) && NoDuplicates(b) && Elements(a) !! Elements(b)
    ensures NoDuplicates(a + b) && Elements(a + b) == Elements(a) + Elements(b)
  {
    var c := a + b;
    forall i, j | 0 <= i < j < |c|
      ensures c[i] != c[j]
    {
      if j < |a| {
      } else if i >= |a| {
        assert c[i] == b[i - |a|] && c[j] == b[j - |a|];
      } else {
        assert c[i] in Elements(a) && c[j] in Elements(b);
      }
    }
  }

  function Sum(s: seq<int>): int {
    if s == [] then 0 else Sum(s[..|s| - 1]) + s[|s| - 1]
  }

  lemma {:induction false} SumAppend(a: seq<int>, b: seq<int>)
    ensures Sum(a + b) == Sum(a) + Sum(b)
    decreases |b|
  {
    if b == [] {
      assert a + b == a;
    } else {
      var b' := b[..|b| - 1];
      assert (a + b)[..|a + b| - 1] == a + b';
      SumAppend(a, b');
    }
  }

  /** Concatenation of a sequence of sequences, in order. */
  function Flatten<T>(xss: seq<seq<T>>): seq<T> {
    if xss == [] then [] else Flatten(xss[..|xss| - 1]) + xss[|xss| - 1]
  }

  lemma {:induction false} FlattenAppend<T>(a: seq<seq<T>>, b: seq<seq<T>>)
    ensures Flatten(a + b) == Flatten(a) + Flatten(b)
    decreases |b|
  {
    if b == [] {
      assert a + b == a;
    } else {
      var b', last := b[..|b| - 1], b[|b| - 1];
      assert (a + b)[..|a + b| - 1] == a + b';
      assert (a + b)[|a + b| - 1] == last;
      assert Flatten(a + b) == Flatten(a + b') + last;
      FlattenAppend(a, b');
      assert Flatten(b) == Flatten(b') + last;
    }
  }

  /** ceil(n / d): the number of d-sized pieces needed to cover n items. */
  function CeilDiv(n: nat, d: nat): (r: nat)
    requires d >= 1
    ensures r * d >= n
    ensures r >= 1 ==> (r - 1) * d < n
    decreases n
  {
    if n == 0 then 0
    else if n <= d then 1
    else
      var r' := CeilDiv(n - d, d);
      MulSucc(r', d);
      r' + 1
  }

  lemma MulSucc(k: int, d: int)
    ensures (k + 1) * d == k * d + d
  {
  }

  /** The consecutive pieces of `s` of length `d`, the last one possibly shorter. */
  function Chunks<T>(s: seq<T>, d: nat): seq<seq<T>>
    requires d >= 1
    decreases |s|
  {
    if s == [] then []
    else if |s| <= d then [s]
    else [s[..d]] + Chunks(s[d..], d)
  }

  /** There are ceil(|s| / d) chunks, none of them empty, and all but the last of length d. */
  lemma {:induction false} ChunksCount<T>(s: seq<T>, d: nat)
    requires d >= 1
    ensures |Chunks(s, d)| == CeilDiv(|s|, d)
    ensures forall k :: 0 <= k < |Chunks(s, d)| ==> |Chunks(s, d)[k]| >= 1
    ensures forall k :: 0 <= k < |Chunks(s, d)| - 1 ==> |Chunks(s, d)[k]| == d
    decreases |s|
  {
    if |s| > d {
      ChunksCount(s[d..], d);
      assert Chunks(s, d) == [s[..d]] + Chunks(s[d..], d);
    }
  }

  /** Chunk k is s[k*d .. min((k+1)*d, |s|)]. */
  lemma {:induction false} ChunkAt<T>(s: seq<T>, d: nat, k: nat)
    requires d >= 1 && k < |Chunks(s, d)|
    ensures k * d < |s| && Chunks(s, d)[k] == s[k * d .. Min((k + 1) * d, |s|)]
    decreases |s|
  {
    if k > 0 {
      assert |s| > d;
      var rest := Chunks(s[d..], d);
      assert Chunks(s, d) == [s[..d]] + rest;
      ChunkAt(s[d..], d, k - 1);
      MulSucc(k - 1, d);
      MulSucc(k, d);
      assert s[d..][(k - 1) * d .. Min(k * d, |s| - d)] == s[k * d .. Min((k + 1) * d, |s|)];
    }
  }

  lemma FlattenCons<T>(x: seq<T>, xss: seq<seq<T>>)
    ensures Flatten([x] + xss) == x + Flatten(xss)
  {
    assert [x][..0] == [];
    FlattenAppend([x], xss);
  }

  /** Concatenating the chunks gives back the sequence. */
  lemma {:induction false} FlattenChunks<T>(s: seq<T>, d: nat)
    requires d >= 1
    ensures Flatten(Chunks(s, d)) == s
    decreases |s|
  {
    if s == [] {
    } else if |s| <= d {
      assert Flatten(Chunks(s, d)) == s by {
        assert Chunks(s, d) == [s] + [];
        FlattenCons(s, []);
      }
    } else {
      FlattenChunks(s[d..], d);
      assert Flatten(Chunks(s, d)) == s by {
        var head, tail := s[..d], s[d..];
        assert Chunks(s, d) == [head] + Chunks(tail, d);
        FlattenCons(head, Chunks(tail, d));
        assert head + tail == s;
      }
    }
  }

  /** A sequence of `n` zeros. */
  function Zeros(n: nat): (r: seq<int>)
    ensures |r| == n && forall i :: 0 <= i < n ==> r[i] == 0
  {
    seq(n, _ => 0)
  }
}

/** Sequence helpers shared by the models: the pieces a `chunks(n)` iterator yields, their
    concatenation, and counting. */
module Slices {

  /** The pieces `s.chunks(size)` yields: all of length `size` but perhaps the last. */
  function Chunks<T>(s: seq<T>, size: nat): (pieces: seq<seq<T>>)
    requires size > 0
    ensures forall i :: 0 <= i < |pieces| ==> 0 < |pieces[i]| <= size
    decreases |s|
  {
    if |s| == 0 then []
    else if |s| <= size then [s]
    else [s[..size]] + Chunks(s[size..], size)
  }

  function Concat<T>(pieces: seq<seq<T>>): (s: seq<T>) {
    if |pieces| == 0 then [] else pieces[0] + Concat(pieces[1..])
  }

  /** Chunking loses nothing, repeats nothing and keeps the order. */
  lemma {:induction false} ConcatChunks<T>(s: seq<T>, size: nat)
    requires size > 0
    ensures Concat(Chunks(s, size)) == s
    decreases |s|
  {
    if |s| > size {
      ConcatChunks(s[size..], size);
      var c := Chunks(s, size);
      assert c[0] == s[..size] && c[1..] == Chunks(s[size..], size);
    } else if |s| > 0 {
      assert Chunks(s, size)[1..] == [];
    }
  }

  /** All pieces are full but perhaps the last. */
  lemma {:induction false} ChunkSizes<T>(s: seq<T>, size: nat)
    requires size > 0
    ensures var pieces := Chunks(s, size);
            && (|pieces| == 0 <==> |s| == 0)
            && forall i :: 0 <= i < |pieces| - 1 ==> |pieces[i]| == size
    decreases |s|
  {
    if |s| > size {
      ChunkSizes(s[size..], size);
    }
  }

  lemma {:induction false} ConcatAppend<T>(a: seq<seq<T>>, b: seq<seq<T>>)
    ensures Concat(a + b) == Concat(a) + Concat(b)
    decreases |a|
  {
    if |a| == 0 {
      assert a + b == b;
    } else {
      ConcatAppend(a[1..], b);
      assert (a + b)[0] == a[0] && (a + b)[1..] == a[1..] + b;
    }
  }

  /** How many pieces there are: the quotient rounded up. */
  lemma {:induction false} ChunkCount<T>(s: seq<T>, size: nat)
    requires size > 0
    ensures |s| <= size * |Chunks(s, size)| < |s| + size
    decreases |s|
  {
    if |s| > size {
      ChunkCount(s[size..], size);
    }
  }

  function Count<T(==)>(s: seq<T>, x: T): nat {
    if |s| == 0 then 0 else Count(s[..|s| - 1], x) + if s[|s| - 1] == x then 1 else 0
  }

  lemma CountNext<T>(s: seq<T>, n: nat, x: T)
    requires n < |s|
    ensures Count(s[..n + 1], x) == Count(s[..n], x) + if s[n] == x then 1 else 0
  {
    assert s[..n + 1][..n] == s[..n];
  }

  lemma {:induction false} CountSum<T>(a: seq<T>, b: seq<T>, x: T)
    ensures Count(a + b, x) == Count(a, x) + Count(b, x)
    decreases |b|
  {
    if |b| == 0 {
      assert a + b == a;
    } else {
      CountSum(a, b[..|b| - 1], x);
      assert (a + b)[..|a + b| - 1] == a + b[..|b| - 1];
    }
  }

  ghost predicate Distinct<T>(s: seq<T>) {
    forall i, j :: 0 <= i < j < |s| ==> s[i] != s[j]
  }

  ghost predicate Ascending(s: seq<nat>) {
    forall i, j :: 0 <= i < j < |s| ==> s[i] < s[j]
  }

  lemma SamePlace<T>(s: seq<T>, i: nat, j: nat)
    requires Distinct(s) && i < |s| && j < |s|
    ensures s[i] == s[j] ==> i == j
  {
  }

  lemma {:induction false} DistinctOnce<T>(s: seq<T>, x: T)
    requires Distinct(s)
    ensures Count(s, x) == if x in s then 1 else 0
    decreases |s|
  {
    if |s| > 0 {
      var n := |s| - 1;
      DistinctOnce(s[..n], x);
      assert s == s[..n] + [s[n]] && s[n] !in s[..n];
    }
  }

  lemma {:induction false} CountAbsent<T>(s: seq<T>, x: T)
    ensures x !in s <==> Count(s, x) == 0
    decreases |s|
  {
    if |s| > 0 {
      CountAbsent(s[..|s| - 1], x);
      assert s == s[..|s| - 1] + [s[|s| - 1]];
    }
  }

  /** The same elements, each as often. */
  ghost predicate IsPermutation<T(!new)>(a: seq<T>, b: seq<T>) {
    forall x :: Count(a, x) == Count(b, x)
  }

  lemma {:induction false} CountTwice<T>(s: seq<T>, i: nat, j: nat)
    requires i < j < |s| && s[i] == s[j]
    ensures Count(s, s[i]) >= 2
  {
    CountSum(s[..j], s[j..], s[i]);
    assert s == s[..j] + s[j..];
    CountAbsent(s[..j], s[..j][i]);
    CountAbsent(s[j..], s[j..][0]);
  }

  lemma PermutationDistinct<T(!new)>(a: seq<T>, b: seq<T>)
    requires IsPermutation(a, b) && Distinct(b)
    ensures Distinct(a)
  {
    forall i, j | 0 <= i < j < |a|
      ensures a[i] != a[j]
    {
      DistinctOnce(b, a[i]);
      if a[i] == a[j] {
        CountTwice(a, i, j);
      }
    }
  }

  lemma PermutationHolds<T(!new)>(a: seq<T>, b: seq<T>, x: T)
    requires IsPermutation(a, b)
    ensures x in a <==> x in b
  {
    CountAbsent(a, x);
    CountAbsent(b, x);
  }
}

/** Suffixes and subsequences. */
module Sequences {

  /** The last max elements of s. */
  function Suffix<T>(s: seq<T>, max: nat): seq<T> { if |s| <= max then s else s[|s| - max..] }

  lemma SuffixSnoc<T>(s: seq<T>, max: nat, x: T)
    requires max > 0
    ensures Suffix(s + [x], max)
         == if |s| < max then Suffix(s, max) + [x] else Suffix(s, max)[1..] + [x]
  {
  }

  /** A bounded buffer may be cut after every element instead of once at the end. */
  lemma SuffixOfSuffix<T>(s: seq<T>, max: nat, x: T)
    requires max > 0
    ensures Suffix(Suffix(s, max) + [x], max) == Suffix(s + [x], max)
  {
  }

  /** xs is ys with some elements left out. */
  predicate Subsequence<T(==)>(xs: seq<T>, ys: seq<T>)
  {
    if ys == [] then xs == []
    else
      var n := |ys| - 1;
      Subsequence(xs, ys[..n]) || (xs != [] && xs[|xs| - 1] == ys[n] && Subsequence(xs[..|xs| - 1], ys[..n]))
  }

  /** An element added to ys may be taken or left. */
  lemma SubsequenceSnoc<T>(xs: seq<T>, ys: seq<T>, y: T)
    requires Subsequence(xs, ys)
    ensures Subsequence(xs, ys + [y]) && Subsequence(xs + [y], ys + [y])
  {
    assert (ys + [y])[..|ys|] == ys && (xs + [y])[..|xs|] == xs;
  }

  lemma {:induction false} SubsequenceSelf<T>(xs: seq<T>)
    ensures Subsequence(xs, xs)
  {
    if xs != [] {
      SubsequenceSelf(xs[..|xs| - 1]);
    }
  }

  /** A subsequence is no longer, and if as long it is the same. */
  lemma {:induction false} SubsequenceLength<T>(xs: seq<T>, ys: seq<T>)
    requires Subsequence(xs, ys)
    ensures |xs| <= |ys| && (|xs| == |ys| ==> xs == ys)
  {
    if ys != [] {
      var n := |ys| - 1;
      if Subsequence(xs, ys[..n]) {
        SubsequenceLength(xs, ys[..n]);
      } else {
        SubsequenceLength(xs[..|xs| - 1], ys[..n]);
        assert |xs| == |ys| ==> xs == xs[..n] + [xs[n]] == ys[..n] + [ys[n]] == ys;
      }
    }
  }
}

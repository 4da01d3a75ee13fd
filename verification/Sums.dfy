/** Order-independent sums over sequences and over the values of a map. */
module Sums {

  function Sum<T>(f: T -> real, xs: seq<T>): real
  {
    if |xs| == 0 then 0.0 else Sum(f, xs[..|xs| - 1]) + f(xs[|xs| - 1])
  }

  lemma SumSnoc<T>(f: T -> real, xs: seq<T>, x: T)
    ensures Sum(f, xs + [x]) == Sum(f, xs) + f(x)
  {
    assert (xs + [x])[..|xs|] == xs;
  }

  lemma {:induction false} SumRemove<T>(f: T -> real, xs: seq<T>, k: nat)
    requires k < |xs|
    ensures Sum(f, xs) == Sum(f, xs[..k] + xs[k + 1..]) + f(xs[k])
  {
    var n := |xs| - 1;
    if k == n {
      assert xs[..k] + xs[k + 1..] == xs[..n];
    } else {
      SumRemove(f, xs[..n], k);
      var rest := xs[..n][..k] + xs[..n][k + 1..];
      assert xs[..k] + xs[k + 1..] == rest + [xs[n]];
      SumSnoc(f, rest, xs[n]);
    }
  }

  /** The sum is a function of the multiset of the elements. */
  lemma {:induction false} SumPermutation<T>(f: T -> real, xs: seq<T>, ys: seq<T>)
    requires multiset(xs) == multiset(ys)
    ensures Sum(f, xs) == Sum(f, ys)
    decreases |xs|
  {
    if |xs| == 0 {
      assert |multiset(ys)| == 0;
    } else {
      var n := |xs| - 1;
      assert xs == xs[..n] + [xs[n]];
      assert xs[n] in multiset(ys);
      var k :| 0 <= k < |ys| && ys[k] == xs[n];
      var rest := ys[..k] + ys[k + 1..];
      assert ys == ys[..k] + [ys[k]] + ys[k + 1..];
      assert multiset(rest) == multiset(ys) - multiset{ys[k]} == multiset(xs[..n]);
      SumPermutation(f, xs[..n], rest);
      SumRemove(f, ys, k);
    }
  }

  lemma SumPointwise<T>(f: T -> real, g: T -> real, xs: seq<T>)
    requires forall x :: x in xs ==> f(x) == g(x)
    ensures Sum(f, xs) == Sum(g, xs)
  {
  }

  // ----- sums over a map's values ---------------------------------------------

  ghost function SumValues<K>(m: map<K, real>): real
  {
    if m == map[] then 0.0
    else var k :| k in m; m[k] + SumValues(m - {k})
  }

  lemma {:induction false} SumValuesRemove<K>(m: map<K, real>, k: K)
    requires k in m
    ensures SumValues(m) == m[k] + SumValues(m - {k})
    decreases |m|
  {
    var j :| j in m && SumValues(m) == m[j] + SumValues(m - {j});
    if j != k {
      assert |m - {j}| == |m| - 1 && |m - {k}| == |m| - 1 by {
        assert (m - {j}).Keys == m.Keys - {j} && (m - {k}).Keys == m.Keys - {k};
      }
      SumValuesRemove(m - {j}, k);
      SumValuesRemove(m - {k}, j);
      assert m - {j} - {k} == m - {k} - {j};
    }
  }

  lemma SumValuesUpdate<K>(m: map<K, real>, k: K, v: real)
    ensures SumValues(m[k := v]) == SumValues(m) + v - (if k in m then m[k] else 0.0)
  {
    SumValuesRemove(m[k := v], k);
    assert m[k := v] - {k} == m - {k};
    if k in m {
      SumValuesRemove(m, k);
    } else {
      assert m - {k} == m;
    }
  }

  ghost function Total<K, V(!new)>(f: V -> int, m: map<K, V>): int
  {
    if m == map[] then 0
    else var k :| k in m; f(m[k]) + Total(f, m - {k})
  }

  lemma {:induction false} TotalRemove<K, V(!new)>(f: V -> int, m: map<K, V>, k: K)
    requires k in m
    ensures Total(f, m) == f(m[k]) + Total(f, m - {k})
    decreases |m|
  {
    var j :| j in m && Total(f, m) == f(m[j]) + Total(f, m - {j});
    if j != k {
      assert |m - {j}| == |m| - 1 && |m - {k}| == |m| - 1 by {
        assert (m - {j}).Keys == m.Keys - {j} && (m - {k}).Keys == m.Keys - {k};
      }
      TotalRemove(f, m - {j}, k);
      TotalRemove(f, m - {k}, j);
      assert m - {j} - {k} == m - {k} - {j};
    }
  }

  // ----- listings of a set --------------------------------------------------------

  predicate Distinct<T(==)>(xs: seq<T>)
  {
    forall i, j :: 0 <= i < j < |xs| ==> xs[i] != xs[j]
  }

  /** xs lists every element of s once. */
  predicate Lists<T(==)>(xs: seq<T>, s: set<T>)
  {
    && Distinct(xs)
    && (forall k :: 0 <= k < |xs| ==> xs[k] in s)
    && (forall x :: x in s ==> x in xs)
  }

  ghost function Enumerate<T>(s: set<T>): (xs: seq<T>)
    ensures Lists(xs, s)
  {
    if s == {} then []
    else
      var x :| x in s;
      ListsSnoc(Enumerate(s - {x}), s - {x}, x);
      assert s - {x} + {x} == s;
      Enumerate(s - {x}) + [x]
  }

  lemma ListsSnoc<T>(xs: seq<T>, s: set<T>, x: T)
    requires Lists(xs, s) && x !in s
    ensures Lists(xs + [x], s + {x})
  {
    forall y | y in s + {x} ensures y in xs + [x] {
      if y == x {
        assert (xs + [x])[|xs|] == x;
      }
    }
  }

  /** Any two listings of a set are permutations of each other. */
  lemma {:induction false} ListingsPermute<T>(xs: seq<T>, ys: seq<T>, s: set<T>)
    requires Lists(xs, s) && Lists(ys, s)
    ensures multiset(xs) == multiset(ys)
  {
    forall x ensures multiset(xs)[x] == multiset(ys)[x] {
      Multiplicity(xs, s, x);
      Multiplicity(ys, s, x);
    }
  }

  lemma {:induction false} Multiplicity<T>(xs: seq<T>, s: set<T>, x: T)
    requires Lists(xs, s)
    ensures multiset(xs)[x] == if x in s then 1 else 0
  {
    if x in s {
      var k :| 0 <= k < |xs| && xs[k] == x;
      assert xs == xs[..k] + [x] + xs[k + 1..];
      assert x !in xs[..k] && x !in xs[k + 1..];
    } else {
      assert x !in xs;
    }
  }
}

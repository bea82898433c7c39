/** Sums over finite maps and sequences, the arithmetic behind every conservation result. */
module Sums {

  /** The sum of `w` over the values of `m`. */
  ghost function Total<K(!new), V(!new)>(m: map<K, V>, w: V -> int): int
  {
    if m == map[] then 0
    else
      var k :| k in m;
      w(m[k]) + Total(m - {k}, w)
  }

  /** Any key may be split off first. */
  lemma {:induction false} TotalRemove<K(!new), V(!new)>(m: map<K, V>, w: V -> int, k: K)
    requires k in m
    ensures Total(m, w) == w(m[k]) + Total(m - {k}, w)
    decreases |m|
  {
    var k0 :| k0 in m && Total(m, w) == w(m[k0]) + Total(m - {k0}, w);
    if k0 != k {
      TotalRemove(m - {k0}, w, k);
      TotalRemove(m - {k}, w, k0);
      assert m - {k0} - {k} == m - {k} - {k0};
    }
  }

  lemma TotalInsert<K(!new), V(!new)>(m: map<K, V>, w: V -> int, k: K, v: V)
    requires k !in m
    ensures Total(m[k := v], w) == Total(m, w) + w(v)
  {
    TotalRemove(m[k := v], w, k);
    assert m[k := v] - {k} == m;
  }

  lemma TotalUpdate<K(!new), V(!new)>(m: map<K, V>, w: V -> int, k: K, v: V)
    requires k in m
    ensures Total(m[k := v], w) == Total(m, w) - w(m[k]) + w(v)
  {
    TotalRemove(m, w, k);
    TotalRemove(m[k := v], w, k);
    assert m[k := v] - {k} == m - {k};
  }

  /** Two maps with the same keys and pointwise equal weights have the same sum. */
  lemma {:induction false} TotalSame<K(!new), V(!new), U(!new)>(m: map<K, V>, w: V -> int, n: map<K, U>, u: U -> int)
    requires m.Keys == n.Keys
    requires forall k :: k in m ==> w(m[k]) == u(n[k])
    ensures Total(m, w) == Total(n, u)
    decreases |m|
  {
    if m != map[] {
      var k :| k in m && Total(m, w) == w(m[k]) + Total(m - {k}, w);
      TotalRemove(n, u, k);
      TotalSame(m - {k}, w, n - {k}, u);
    } else {
      assert n == map[];
    }
  }

  /** Terms that are differences sum up to the difference. */
  lemma {:induction false} TotalDifference<K(!new), V(!new), U(!new)>(m: map<K, V>, w: V -> int, n: map<K, U>,
                                                                      u: U -> int, v: U -> int)
    requires m.Keys == n.Keys
    requires forall k :: k in m ==> w(m[k]) == u(n[k]) - v(n[k])
    ensures Total(m, w) == Total(n, u) - Total(n, v)
    decreases |m|
  {
    if m != map[] {
      var k :| k in m && Total(m, w) == w(m[k]) + Total(m - {k}, w);
      TotalRemove(n, u, k);
      TotalRemove(n, v, k);
      TotalDifference(m - {k}, w, n - {k}, u, v);
    } else {
      assert n == map[];
    }
  }

  /** Nonnegative weights: each term is bounded by the sum. */
  lemma {:induction false} TotalBounds<K(!new), V(!new)>(m: map<K, V>, w: V -> int)
    requires forall k :: k in m ==> w(m[k]) >= 0
    ensures Total(m, w) >= 0
    ensures forall k :: k in m ==> w(m[k]) <= Total(m, w)
    decreases |m|
  {
    forall k | k in m
      ensures 0 <= w(m[k]) <= Total(m, w)
    {
      TotalRemove(m, w, k);
      TotalBounds(m - {k}, w);
    }
  }

  function Itself(): int -> int {
    (x: int) => x
  }

  /** The sum of `w` over a sequence. */
  ghost function SumSeq<T>(s: seq<T>, w: T -> int): int
  {
    if s == [] then 0 else SumSeq(s[..|s| - 1], w) + w(s[|s| - 1])
  }

  lemma SumAppend<T>(s: seq<T>, x: T, w: T -> int)
    ensures SumSeq(s + [x], w) == SumSeq(s, w) + w(x)
  {
    assert (s + [x])[..|s|] == s;
  }

  lemma SumUpToNext<T>(s: seq<T>, n: nat, w: T -> int)
    requires n < |s|
    ensures SumSeq(s[..n + 1], w) == SumSeq(s[..n], w) + w(s[n])
  {
    assert s[..n + 1] == s[..n] + [s[n]];
    SumAppend(s[..n], s[n], w);
  }

  lemma {:induction false} SumConcat<T>(s: seq<T>, t: seq<T>, w: T -> int)
    ensures SumSeq(s + t, w) == SumSeq(s, w) + SumSeq(t, w)
    decreases |t|
  {
    if t == [] {
      assert s + t == s;
    } else {
      assert (s + t)[..|s + t| - 1] == s + t[..|t| - 1];
      SumConcat(s, t[..|t| - 1], w);
    }
  }

  lemma {:induction false} SumUpdate<T>(s: seq<T>, i: nat, x: T, w: T -> int)
    requires i < |s|
    ensures SumSeq(s[i := x], w) == SumSeq(s, w) - w(s[i]) + w(x)
    decreases |s|
  {
    var n := |s| - 1;
    if i == n {
      assert s[i := x][..n] == s[..n];
    } else {
      assert s[i := x][..n] == s[..n][i := x];
      SumUpdate(s[..n], i, x, w);
    }
  }

  /** Sequences of the same length with pointwise equal weights. */
  lemma {:induction false} SumSame<T, U>(s: seq<T>, w: T -> int, t: seq<U>, u: U -> int)
    requires |s| == |t|
    requires forall i :: 0 <= i < |s| ==> w(s[i]) == u(t[i])
    ensures SumSeq(s, w) == SumSeq(t, u)
    decreases |s|
  {
    if s != [] {
      SumSame(s[..|s| - 1], w, t[..|t| - 1], u);
    }
  }

  function Without<T>(s: seq<T>, i: nat): seq<T>
    requires i < |s|
  {
    s[..i] + s[i + 1..]
  }

  lemma {:induction false} WithoutSplits<T>(s: seq<T>, i: nat, w: T -> int)
    requires i < |s|
    ensures SumSeq(s, w) == SumSeq(Without(s, i), w) + w(s[i])
    decreases |s|
  {
    var n := |s| - 1;
    if i == n {
      assert Without(s, i) == s[..n];
    } else {
      WithoutSplits(s[..n], i, w);
      assert Without(s, i)[..n - 1] == Without(s[..n], i);
    }
  }

  lemma WithoutRemoves<T>(s: seq<T>, i: nat)
    requires i < |s|
    ensures multiset(Without(s, i)) == multiset(s) - multiset{s[i]}
  {
    assert s == s[..i] + [s[i]] + s[i + 1..];
  }

  /** A sum does not depend on the order of its terms. */
  lemma {:induction false} SumPermutation<T>(s: seq<T>, t: seq<T>, w: T -> int)
    requires multiset(s) == multiset(t)
    ensures SumSeq(s, w) == SumSeq(t, w)
    decreases |s|
  {
    if s == [] {
      assert |multiset(t)| == 0;
    } else {
      var n := |s| - 1;
      assert s[n] in multiset(t);
      var i :| 0 <= i < |t| && t[i] == s[n];
      assert Without(s, n) == s[..n];
      WithoutRemoves(s, n);
      WithoutRemoves(t, i);
      WithoutSplits(t, i, w);
      SumPermutation(s[..n], Without(t, i), w);
    }
  }

  lemma {:induction false} SumNonnegative<T>(s: seq<T>, w: T -> int)
    requires forall i :: 0 <= i < |s| ==> w(s[i]) >= 0
    ensures SumSeq(s, w) >= 0
    ensures forall i :: 0 <= i < |s| ==> w(s[i]) <= SumSeq(s, w)
    decreases |s|
  {
    if s != [] {
      SumNonnegative(s[..|s| - 1], w);
    }
  }
}

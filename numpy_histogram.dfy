/**
 * `numpy.histogram(values, bins=e)[0]` for an array of edges `e`: bin k holds the
 * values v with e[k] <= v < e[k+1], the last bin also holds v == e[|e|-1], and values
 * outside [e[0], e[|e|-1]] fall in no bin.
 */
module NumpyHistogram {
  import opened NumpyGrid

  /** lo <= z < hi, or lo <= z <= hi for a closed interval. */
  predicate Within(z: real, lo: real, hi: real, closed: bool) {
    lo <= z && (z < hi || (closed && z == hi))
  }

  /** z lies in bin k of the edges e; only the last bin is closed on the right. */
  predicate InBin(e: seq<real>, k: int, z: real) {
    0 <= k < |e| - 1 && Within(z, e[k], e[k + 1], k == |e| - 2)
  }

  /** How many entries of `values` lie within [lo, hi) (or [lo, hi] when closed). */
  function CountWithin(values: seq<real>, lo: real, hi: real, closed: bool): (c: nat)
    ensures c <= |values|
  {
    if values == [] then 0
    else (if Within(values[0], lo, hi, closed) then 1 else 0) + CountWithin(values[1..], lo, hi, closed)
  }

  /** The count numpy reports for bin k. */
  function BinCount(values: seq<real>, e: seq<real>, k: int): nat
    requires 0 <= k < |e| - 1
  {
    CountWithin(values, e[k], e[k + 1], k == |e| - 2)
  }

  /** numpy.histogram's counts; numpy raises ValueError for edges that decrease somewhere. */
  function Histogram(values: seq<real>, e: seq<real>): (h: seq<nat>)
    requires |e| >= 1 && NonDecreasing(e)
    ensures |h| == |e| - 1
  {
    seq(|e| - 1, k requires 0 <= k < |e| - 1 => BinCount(values, e, k))
  }

  function Sum(h: seq<nat>): nat {
    if h == [] then 0 else Sum(h[..|h| - 1]) + h[|h| - 1]
  }

  lemma {:induction false} CountWithinEmpty(values: seq<real>, lo: real)
    ensures CountWithin(values, lo, lo, false) == 0
  {
    if values != [] {
      CountWithinEmpty(values[1..], lo);
    }
  }

  /** Adjacent intervals [a, b) and [b, c) (or [b, c]) together count [a, c) (or [a, c]). */
  lemma {:induction false} CountWithinAdjacent(values: seq<real>, a: real, b: real, c: real, closed: bool)
    requires a <= b <= c
    ensures CountWithin(values, a, b, false) + CountWithin(values, b, c, closed) == CountWithin(values, a, c, closed)
  {
    if values != [] {
      CountWithinAdjacent(values[1..], a, b, c, closed);
    }
  }

  lemma {:induction false} CountWithinAppend(s: seq<real>, t: seq<real>, lo: real, hi: real, closed: bool)
    ensures CountWithin(s + t, lo, hi, closed) == CountWithin(s, lo, hi, closed) + CountWithin(t, lo, hi, closed)
  {
    if s == [] {
      assert s + t == t;
    } else {
      assert (s + t)[1..] == s[1..] + t;
      CountWithinAppend(s[1..], t, lo, hi, closed);
    }
  }

  /** Removing entry i from s takes away exactly that entry's contribution to the count. */
  lemma CountWithinRemove(s: seq<real>, i: int, lo: real, hi: real, closed: bool)
    requires 0 <= i < |s|
    ensures CountWithin(s, lo, hi, closed)
         == (if Within(s[i], lo, hi, closed) then 1 else 0) + CountWithin(s[..i] + s[i + 1..], lo, hi, closed)
  {
    assert s == s[..i] + [s[i]] + s[i + 1..];
    CountWithinAppend(s[..i] + [s[i]], s[i + 1..], lo, hi, closed);
    CountWithinAppend(s[..i], [s[i]], lo, hi, closed);
    CountWithinAppend(s[..i], s[i + 1..], lo, hi, closed);
  }

  lemma MultisetRemove<T>(s: seq<T>, i: int)
    requires 0 <= i < |s|
    ensures multiset(s[..i] + s[i + 1..]) == multiset(s) - multiset{s[i]}
  {
    assert s == s[..i] + [s[i]] + s[i + 1..];
  }

  /** The head of `a` occurs in its permutation `b`, and the rests are permutations again. */
  lemma MatchHead<T>(a: seq<T>, b: seq<T>) returns (i: int)
    requires a != [] && multiset(a) == multiset(b)
    ensures 0 <= i < |b| && b[i] == a[0]
    ensures multiset(a[1..]) == multiset(b[..i] + b[i + 1..])
  {
    assert a[0] in multiset(b);
    i :| 0 <= i < |b| && b[i] == a[0];
    MultisetRemove(b, i);
    assert a == [a[0]] + a[1..];
    assert multiset(a) == multiset{a[0]} + multiset(a[1..]);
  }

  /** A count depends only on which values occur how often, not on their order. */
  lemma {:induction false} CountWithinPermutation(a: seq<real>, b: seq<real>, lo: real, hi: real, closed: bool)
    requires multiset(a) == multiset(b)
    ensures CountWithin(a, lo, hi, closed) == CountWithin(b, lo, hi, closed)
    decreases |a|
  {
    if a == [] {
      assert |b| == |multiset(b)| == 0;
    } else {
      var i := MatchHead(a, b);
      CountWithinPermutation(a[1..], b[..i] + b[i + 1..], lo, hi, closed);
      CountWithinRemove(b, i, lo, hi, closed);
    }
  }

  /** Permuting the values leaves every bin count unchanged. */
  lemma HistogramPermutation(a: seq<real>, b: seq<real>, e: seq<real>)
    requires |e| >= 1 && NonDecreasing(e)
    requires multiset(a) == multiset(b)
    ensures Histogram(a, e) == Histogram(b, e)
  {
    forall k | 0 <= k < |e| - 1
      ensures Histogram(a, e)[k] == Histogram(b, e)[k]
    {
      CountWithinPermutation(a, b, e[k], e[k + 1], k == |e| - 2);
    }
  }

  /** The first m bins together count the values in [e[0], e[m]), closed when m is the last edge. */
  lemma {:induction false} HistogramPrefixTotal(values: seq<real>, e: seq<real>, m: nat)
    requires |e| >= 2 && NonDecreasing(e) && m <= |e| - 1
    ensures Sum(Histogram(values, e)[..m]) == CountWithin(values, e[0], e[m], m == |e| - 1)
  {
    var h := Histogram(values, e);
    if m == 0 {
      CountWithinEmpty(values, e[0]);
    } else {
      HistogramPrefixTotal(values, e, m - 1);
      assert h[..m][..m - 1] == h[..m - 1];
      NonDecreasingOrdered(e, 0, m - 1);
      CountWithinAdjacent(values, e[0], e[m - 1], e[m], m == |e| - 1);
    }
  }

  /** Every value in [e[0], e[|e|-1]] is counted once; values outside are dropped. */
  lemma HistogramTotal(values: seq<real>, e: seq<real>)
    requires |e| >= 2 && NonDecreasing(e)
    ensures Sum(Histogram(values, e)) == CountWithin(values, e[0], e[|e| - 1], true)
    ensures Sum(Histogram(values, e)) <= |values|
  {
    var h := Histogram(values, e);
    HistogramPrefixTotal(values, e, |e| - 1);
    assert h[..|e| - 1] == h;
  }

  /** The lowest edge lands in the first bin and the highest edge in the last bin. */
  lemma EndPointsBinned(e: seq<real>)
    requires |e| >= 2 && NonDecreasing(e) && e[0] < e[1]
    ensures InBin(e, 0, e[0]) && InBin(e, |e| - 2, e[|e| - 1])
  {
  }

  /** With non-decreasing edges no value lies in two bins. */
  lemma {:induction false} BinUnique(e: seq<real>, j: int, k: int, z: real)
    requires NonDecreasing(e) && InBin(e, j, z) && InBin(e, k, z)
    ensures j == k
  {
    if j < k {
      NonDecreasingOrdered(e, j + 1, k);
    } else if k < j {
      NonDecreasingOrdered(e, k + 1, j);
    }
  }
}

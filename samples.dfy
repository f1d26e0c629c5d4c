/**
 * Numeric samples: sums, means, extremes, sorting and the order statistics used by every
 * statistics routine of the benchmark. Floating-point values are modelled as `real`, Go
 * durations (nanoseconds, `int64`) as `int`.
 */
module Samples {

  /** Sum of a sequence of samples, accumulated from the front as the source's loops do. */
  function Sum(s: seq<real>): real
  {
    if s == [] then 0.0 else Sum(s[..|s| - 1]) + s[|s| - 1]
  }

  function Mean(s: seq<real>): real
    requires |s| > 0
  {
    Sum(s) / (|s| as real)
  }

  /** Sum of squared deviations from `m`: the numerator of the variance. */
  function SumSquares(s: seq<real>, m: real): (r: real)
    ensures r >= 0.0
  {
    if s == [] then 0.0
    else
      var d := s[|s| - 1] - m;
      SquareNonNegative(d);
      SumSquares(s[..|s| - 1], m) + d * d
  }

  lemma SquareNonNegative(d: real)
    ensures d * d >= 0.0
  {
    if d < 0.0 {
      assert d * d == (-d) * (-d);
    }
  }

  /** Sample variance (divisor n - 1), 0 for fewer than two samples; the standard deviation is its square root. */
  function SampleVariance(s: seq<real>): (r: real)
    ensures r >= 0.0
    ensures |s| <= 1 ==> r == 0.0
  {
    if |s| <= 1 then 0.0 else SumSquares(s, Mean(s)) / ((|s| - 1) as real)
  }

  /** Population variance (divisor n), 0 for fewer than two samples. */
  function PopulationVariance(s: seq<real>): (r: real)
    ensures r >= 0.0
    ensures |s| <= 1 ==> r == 0.0
  {
    if |s| <= 1 then 0.0 else SumSquares(s, Mean(s)) / (|s| as real)
  }

  function SeqMin(s: seq<real>): (m: real)
    requires |s| > 0
    ensures m in s
    ensures forall i :: 0 <= i < |s| ==> m <= s[i]
  {
    if |s| == 1 then s[0]
    else
      var m' := SeqMin(s[..|s| - 1]);
      if s[|s| - 1] < m' then s[|s| - 1] else m'
  }

  function SeqMax(s: seq<real>): (m: real)
    requires |s| > 0
    ensures m in s
    ensures forall i :: 0 <= i < |s| ==> s[i] <= m
  {
    if |s| == 1 then s[0]
    else
      var m' := SeqMax(s[..|s| - 1]);
      if s[|s| - 1] > m' then s[|s| - 1] else m'
  }

  predicate IsSorted(s: seq<real>)
  {
    forall i, j :: 0 <= i <= j < |s| ==> s[i] <= s[j]
  }

  function Insert(x: real, s: seq<real>): (r: seq<real>)
    requires IsSorted(s)
    ensures IsSorted(r)
    ensures multiset(r) == multiset(s) + multiset{x}
    ensures |r| == |s| + 1
  {
    if s == [] then [x]
    else if x <= s[0] then
      ConsSorted(x, s);
      [x] + s
    else
      var rest := Insert(x, s[1..]);
      assert s == [s[0]] + s[1..];
      BoundedPermutation(s[0], s[1..], x, rest);
      ConsSorted(s[0], rest);
      [s[0]] + rest
  }

  /** A lower bound of a sorted sequence can be put in front of it. */
  lemma ConsSorted(y: real, t: seq<real>)
    requires IsSorted(t)
    requires forall i :: 0 <= i < |t| ==> y <= t[i]
    ensures IsSorted([y] + t)
  {
    forall i, j | 0 <= i <= j < |[y] + t|
      ensures ([y] + t)[i] <= ([y] + t)[j]
    {
      if i > 0 {
        assert ([y] + t)[i] == t[i - 1] && ([y] + t)[j] == t[j - 1];
      }
    }
  }

  /** A lower bound of `t` and of `x` bounds every element of a permutation of `t` plus `x`. */
  lemma BoundedPermutation(y: real, t: seq<real>, x: real, u: seq<real>)
    requires forall i :: 0 <= i < |t| ==> y <= t[i]
    requires y <= x
    requires multiset(u) == multiset(t) + multiset{x}
    ensures forall i :: 0 <= i < |u| ==> y <= u[i]
  {
    forall i | 0 <= i < |u|
      ensures y <= u[i]
    {
      assert u[i] in multiset(u);
      if u[i] != x {
        assert u[i] in multiset(t);
        assert u[i] in t;
      }
    }
  }

  /**
   * Ascending order of the samples: the model of Python's `sorted` and Go's `sort.Float64s`.
   * Its contract is all the model relies on: the result is sorted and is a permutation of the input.
   */
  function SortReals(s: seq<real>): (r: seq<real>)
    ensures IsSorted(r)
    ensures multiset(r) == multiset(s)
    ensures |r| == |s|
  {
    if s == [] then []
    else
      assert s == s[..|s| - 1] + [s[|s| - 1]];
      Insert(s[|s| - 1], SortReals(s[..|s| - 1]))
  }

  /** Median of sorted samples: the middle one, or the mean of the two middle ones for an even count. */
  function Median(sorted: seq<real>): real
    requires |sorted| > 0
  {
    var n := |sorted|;
    if n % 2 == 1 then sorted[n / 2] else (sorted[n / 2 - 1] + sorted[n / 2]) / 2.0
  }

  /** The first and last elements of a sorted permutation are the minimum and maximum of the samples. */
  lemma SortedEnds(s: seq<real>, r: seq<real>)
    requires |s| > 0 && IsSorted(r) && multiset(r) == multiset(s)
    ensures |r| == |s|
    ensures r[0] == SeqMin(s) && r[|r| - 1] == SeqMax(s)
  {
    assert |r| == |multiset(r)| == |multiset(s)| == |s|;
    var lo, hi := SeqMin(s), SeqMax(s);
    assert r[0] in multiset(s) && r[|r| - 1] in multiset(s);
    assert lo in multiset(r) && hi in multiset(r);
    var i :| 0 <= i < |r| && r[i] == lo;
    var j :| 0 <= j < |r| && r[j] == hi;
  }

  /** Every element of a sorted permutation is bounded by the samples' minimum and maximum. */
  lemma SortedWithin(s: seq<real>, r: seq<real>, k: int)
    requires |s| > 0 && IsSorted(r) && multiset(r) == multiset(s) && 0 <= k < |r|
    ensures SeqMin(s) <= r[k] <= SeqMax(s)
  {
    SortedEnds(s, r);
  }

  lemma {:induction false} SumBounds(s: seq<real>, lo: real, hi: real)
    requires forall i :: 0 <= i < |s| ==> lo <= s[i] <= hi
    ensures (|s| as real) * lo <= Sum(s) <= (|s| as real) * hi
  {
    if s != [] {
      SumBounds(s[..|s| - 1], lo, hi);
    }
  }

  /** The mean lies between the minimum and the maximum. */
  lemma MeanWithin(s: seq<real>)
    requires |s| > 0
    ensures SeqMin(s) <= Mean(s) <= SeqMax(s)
  {
    MeanBetween(s, SeqMin(s), SeqMax(s));
  }

  /** Bounds that hold for every sample hold for the mean. */
  lemma MeanBetween(s: seq<real>, lo: real, hi: real)
    requires |s| > 0
    requires forall i :: 0 <= i < |s| ==> lo <= s[i] <= hi
    ensures lo <= Mean(s) <= hi
  {
    SumBounds(s, lo, hi);
    QuotientWithin(Sum(s), |s| as real, lo, hi);
  }

  lemma QuotientWithin(a: real, n: real, lo: real, hi: real)
    requires n > 0.0 && n * lo <= a <= n * hi
    ensures lo <= a / n <= hi
  {
    var q := a / n;
    assert q * n == a;
  }

  /** The median of sorted samples lies between the first element and the element at n/2. */
  lemma MedianWithin(sorted: seq<real>)
    requires |sorted| > 0 && IsSorted(sorted)
    ensures sorted[0] <= Median(sorted) <= sorted[|sorted| / 2] <= sorted[|sorted| - 1]
  {
  }

  /** Sum of integer samples (Go durations in nanoseconds). */
  function SumInt(s: seq<int>): int
  {
    if s == [] then 0 else SumInt(s[..|s| - 1]) + s[|s| - 1]
  }

  /** Go's integer division, which truncates toward zero (Dafny's `/` is Euclidean). */
  function TruncDiv(a: int, b: int): (q: int)
    requires b > 0
    ensures a >= 0 ==> q == a / b && q * b <= a < (q + 1) * b
    ensures a < 0 ==> (q - 1) * b < a <= q * b
  {
    if a >= 0 then a / b else -((-a) / b)
  }

  /** The nearest-rank index `int(n * 0.95)`. */
  function P95Index(n: nat): (k: nat)
    requires n > 0
    ensures k < n && n / 2 <= k
  {
    n * 95 / 100
  }

  /** The nearest-rank index `int(n * 0.99)`. */
  function P99Index(n: nat): (k: nat)
    requires n > 0
    ensures k < n && P95Index(n) <= k
  {
    n * 99 / 100
  }

  /** One measurement of each sample, in sample order. */
  function Column<S>(ss: seq<S>, f: S -> real): (col: seq<real>)
    ensures |col| == |ss| && forall j :: 0 <= j < |ss| ==> col[j] == f(ss[j])
  {
    if ss == [] then [] else Column(ss[..|ss| - 1], f) + [f(ss[|ss| - 1])]
  }

  /** Adding one sample adds its measurement at the end of the column. */
  lemma ColumnSnoc<S>(ss: seq<S>, s: S, f: S -> real)
    ensures Column(ss + [s], f) == Column(ss, f) + [f(s)]
  {
    assert (ss + [s])[..|ss|] == ss;
  }
}

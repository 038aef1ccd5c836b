/** Percentile ranks with the average-rank tie convention: among the n values of a
    column, a value v that is preceded by L smaller values and shares its value with E
    entries (itself included) occupies the ranks L+1 .. L+E, whose average L + (E+1)/2
    divided by n is its percentile rank. */
module Ranking {
  import opened Collections

  /** Number of entries of `xs` strictly smaller than `v`. */
  function CountLess(xs: seq<real>, v: real): nat
  {
    if xs == [] then 0 else (if xs[0] < v then 1 else 0) + CountLess(xs[1..], v)
  }

  /** Number of entries of `xs` equal to `v`. */
  function CountEqual(xs: seq<real>, v: real): nat
  {
    if xs == [] then 0 else (if xs[0] == v then 1 else 0) + CountEqual(xs[1..], v)
  }

  /** The smaller and the equal entries are disjoint parts of the column, and a value
      of the column is counted among the equal ones at least once. */
  lemma {:induction false} CountsWithin(xs: seq<real>, v: real)
    ensures CountLess(xs, v) + CountEqual(xs, v) <= |xs|
    ensures v in xs ==> CountEqual(xs, v) >= 1
  {
    if xs != [] {
      CountsWithin(xs[1..], v);
      assert v in xs && xs[0] != v ==> v in xs[1..];
    }
  }

  function PercentileRank(xs: seq<real>, v: real): real
    requires |xs| > 0
  {
    ((CountLess(xs, v) as real) + ((CountEqual(xs, v) as real) + 1.0) / 2.0) / (|xs| as real)
  }

  /** Every value of a column has a percentile rank in (0, 1]. */
  lemma PercentileRankBounds(xs: seq<real>, v: real)
    requires v in xs
    ensures 0.0 < PercentileRank(xs, v) <= 1.0
  {
    CountsWithin(xs, v);
    var n := |xs| as real;
    var a := (CountLess(xs, v) as real) + ((CountEqual(xs, v) as real) + 1.0) / 2.0;
    assert 0.0 < a <= n;
    assert PercentileRank(xs, v) == a / n;
    DivLe(a, n, n);
    DivLt(0.0, a, n);
    assert n / n == 1.0 && 0.0 / n == 0.0;
  }

  lemma {:induction false} CountLessConcat(a: seq<real>, b: seq<real>, v: real)
    ensures CountLess(a + b, v) == CountLess(a, v) + CountLess(b, v)
    ensures CountEqual(a + b, v) == CountEqual(a, v) + CountEqual(b, v)
  {
    if a == [] {
      assert a + b == b;
    } else {
      CountLessConcat(a[1..], b, v);
      assert (a + b)[1..] == a[1..] + b;
    }
  }

  /** The counts depend only on the multiset of values, not on their order. */
  lemma {:induction false} CountsPermutation(xs: seq<real>, ys: seq<real>, v: real)
    requires multiset(xs) == multiset(ys)
    ensures CountLess(xs, v) == CountLess(ys, v)
    ensures CountEqual(xs, v) == CountEqual(ys, v)
  {
    if xs != [] {
      var x := xs[0];
      assert x in multiset(ys);
      var i :| 0 <= i < |ys| && ys[i] == x;
      var rest := ys[..i] + ys[i + 1..];
      assert ys == ys[..i] + [x] + ys[i + 1..];
      assert xs == [x] + xs[1..];
      assert multiset(ys) == multiset(ys[..i]) + multiset{x} + multiset(ys[i + 1..]);
      assert multiset(xs) == multiset{x} + multiset(xs[1..]);
      assert multiset(rest) == multiset(ys[..i]) + multiset(ys[i + 1..]);
      assert multiset(xs[1..]) == multiset(xs) - multiset{x};
      assert multiset(rest) == multiset(ys) - multiset{x};
      CountsPermutation(xs[1..], rest, v);
      CountLessConcat(ys[..i] + [x], ys[i + 1..], v);
      CountLessConcat(ys[..i], [x], v);
      CountLessConcat(ys[..i], ys[i + 1..], v);
    }
  }

  /** A row's percentile rank does not depend on where the other rows sit. */
  lemma PercentileRankPermutation(xs: seq<real>, ys: seq<real>, v: real)
    requires |xs| > 0 && multiset(xs) == multiset(ys)
    ensures |ys| > 0 && PercentileRank(xs, v) == PercentileRank(ys, v)
  {
    CountsPermutation(xs, ys, v);
    assert |xs| == |multiset(xs)| == |ys|;
  }

  lemma {:induction false} CountsOrdered(xs: seq<real>, v: real, w: real)
    requires v < w
    ensures CountLess(xs, v) + CountEqual(xs, v) <= CountLess(xs, w)
  {
    if xs != [] {
      CountsOrdered(xs[1..], v, w);
    }
  }

  /** Percentile rank is strictly increasing in the value: a smaller value of the
      column ranks strictly lower. */
  lemma PercentileRankMonotone(xs: seq<real>, v: real, w: real)
    requires v in xs && w in xs && v < w
    ensures PercentileRank(xs, v) < PercentileRank(xs, w)
  {
    CountsOrdered(xs, v, w);
    CountsWithin(xs, v);
    CountsWithin(xs, w);
    var n := |xs| as real;
    var a := (CountLess(xs, v) as real) + ((CountEqual(xs, v) as real) + 1.0) / 2.0;
    var b := (CountLess(xs, w) as real) + ((CountEqual(xs, w) as real) + 1.0) / 2.0;
    assert a < b;
    DivLt(a, b, n);
  }

  /** The percentile rank of the `i`-th row within its own column lies in (0, 1]. */
  lemma ColumnRankBounds<T>(s: seq<T>, f: T -> real, i: nat)
    requires i < |s|
    ensures 0.0 < PercentileRank(Project(s, f), f(s[i])) <= 1.0
  {
    assert Project(s, f)[i] == f(s[i]);
    PercentileRankBounds(Project(s, f), f(s[i]));
  }

  lemma DivLe(a: real, b: real, n: real)
    requires n > 0.0 && a <= b
    ensures a / n <= b / n
  {
    assert (b - a) / n >= 0.0;
  }

  lemma DivLt(a: real, b: real, n: real)
    requires n > 0.0 && a < b
    ensures a / n < b / n
  {
    assert (b - a) / n > 0.0;
  }
}

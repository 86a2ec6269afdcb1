/** The descriptive statistics the comparison harness computes over latency samples:
    `sum`, `min`, `max`, `statistics.mean` and `statistics.median`, over exact reals. */
module Statistics {

  function Sum(xs: seq<real>): real
  {
    if xs == [] then 0.0 else Sum(xs[..|xs| - 1]) + xs[|xs| - 1]
  }

  /** The total of two runs of samples is the sum of their totals. */
  lemma {:induction false} SumConcat(xs: seq<real>, ys: seq<real>)
    ensures Sum(xs + ys) == Sum(xs) + Sum(ys)
  {
    if ys == [] {
      assert xs + ys == xs;
    } else {
      var init := ys[..|ys| - 1];
      assert (xs + ys)[..|xs + ys| - 1] == xs + init;
      assert (xs + ys)[|xs + ys| - 1] == ys[|ys| - 1];
      SumConcat(xs, init);
    }
  }

  /** Non-negative samples, as latencies are, have a non-negative total. */
  lemma {:induction false} SumNonNegative(xs: seq<real>)
    requires forall k :: 0 <= k < |xs| ==> 0.0 <= xs[k]
    ensures 0.0 <= Sum(xs)
  {
    if xs != [] {
      var init := xs[..|xs| - 1];
      assert forall k :: 0 <= k < |init| ==> init[k] == xs[k];
      SumNonNegative(init);
    }
  }

  /** `min(xs)`: an element of `xs` no larger than any other. */
  function Min(xs: seq<real>): (m: real)
    requires xs != []
    ensures m in xs
    ensures forall k :: 0 <= k < |xs| ==> m <= xs[k]
  {
    if |xs| == 1 then xs[0]
    else
      var rest := Min(xs[..|xs| - 1]);
      assert forall k :: 0 <= k < |xs| - 1 ==> xs[k] == xs[..|xs| - 1][k];
      if xs[|xs| - 1] < rest then xs[|xs| - 1] else rest
  }

  /** `max(xs)`: an element of `xs` no smaller than any other. */
  function Max(xs: seq<real>): (m: real)
    requires xs != []
    ensures m in xs
    ensures forall k :: 0 <= k < |xs| ==> xs[k] <= m
  {
    if |xs| == 1 then xs[0]
    else
      var rest := Max(xs[..|xs| - 1]);
      assert forall k :: 0 <= k < |xs| - 1 ==> xs[k] == xs[..|xs| - 1][k];
      if rest < xs[|xs| - 1] then xs[|xs| - 1] else rest
  }

  /** `statistics.mean(xs)`. */
  function Mean(xs: seq<real>): (m: real)
    requires xs != []
    ensures m * (|xs| as real) == Sum(xs)
  {
    Sum(xs) / (|xs| as real)
  }

  /** `n` copies of the smallest element sum to at most the total, `n` copies of the largest
      to at least it. */
  lemma {:induction false} SumBounds(xs: seq<real>, lo: real, hi: real)
    requires forall k :: 0 <= k < |xs| ==> lo <= xs[k] <= hi
    ensures (|xs| as real) * lo <= Sum(xs) <= (|xs| as real) * hi
  {
    if xs != [] {
      var init := xs[..|xs| - 1];
      assert forall k :: 0 <= k < |init| ==> init[k] == xs[k];
      SumBounds(init, lo, hi);
      var m := |init| as real;
      var last := xs[|xs| - 1];
      assert Sum(xs) == Sum(init) + last;
      StepBounds(m, Sum(init), last, lo, hi);
      assert |xs| as real == m + 1.0;
    }
  }

  lemma StepBounds(m: real, total: real, last: real, lo: real, hi: real)
    requires m * lo <= total <= m * hi && lo <= last <= hi
    ensures (m + 1.0) * lo <= total + last <= (m + 1.0) * hi
  {
    assert (m + 1.0) * lo == m * lo + lo;
    assert (m + 1.0) * hi == m * hi + hi;
  }

  /** The mean lies between the smallest and the largest sample. */
  lemma MeanBounds(xs: seq<real>)
    requires xs != []
    ensures Min(xs) <= Mean(xs) <= Max(xs)
  {
    SumBounds(xs, Min(xs), Max(xs));
    QuotientBounds(Min(xs), Sum(xs), Max(xs), |xs| as real);
  }

  lemma QuotientBounds(lo: real, total: real, hi: real, n: real)
    requires n > 0.0 && n * lo <= total <= n * hi
    ensures lo <= total / n <= hi
  {
    var q := total / n;
    assert total == n * q;
    assert n * lo <= n * q <= n * hi;
  }

  predicate Ascending(xs: seq<real>)
  {
    forall j, k :: 0 <= j < k < |xs| ==> xs[j] <= xs[k]
  }

  /** Places `x` into an ascending sequence. */
  function Insert(x: real, xs: seq<real>): (r: seq<real>)
    requires Ascending(xs)
    ensures Ascending(r)
    ensures multiset(r) == multiset(xs) + multiset{x}
  {
    if xs == [] then [x]
    else if x <= xs[0] then [x] + xs
    else
      var tail := Insert(x, xs[1..]);
      assert xs == [xs[0]] + xs[1..];
      HeadBoundsTail(xs);
      LowerBound(xs[0], tail, multiset(xs[1..]) + multiset{x});
      AscendingCons(xs[0], tail);
      [xs[0]] + tail
  }

  /** The head of an ascending sequence bounds every later sample from below. */
  lemma HeadBoundsTail(xs: seq<real>)
    requires Ascending(xs) && xs != []
    ensures forall y :: y in multiset(xs[1..]) ==> xs[0] <= y
  {
    forall y | y in multiset(xs[1..]) ensures xs[0] <= y {
      var k :| 0 <= k < |xs[1..]| && xs[1..][k] == y;
      assert xs[k + 1] == y;
    }
  }

  lemma LowerBound(h: real, t: seq<real>, m: multiset<real>)
    requires multiset(t) == m && forall y :: y in m ==> h <= y
    ensures forall k :: 0 <= k < |t| ==> h <= t[k]
  {
    forall k | 0 <= k < |t| ensures h <= t[k] {
      assert t[k] in multiset(t);
    }
  }

  lemma AscendingCons(h: real, t: seq<real>)
    requires Ascending(t) && forall k :: 0 <= k < |t| ==> h <= t[k]
    ensures Ascending([h] + t)
  {
    var r := [h] + t;
    forall j, k | 0 <= j < k < |r| ensures r[j] <= r[k] {
      assert r[k] == t[k - 1];
      if j > 0 { assert r[j] == t[j - 1]; }
    }
  }

  /** `sorted(xs)`: the same samples in ascending order. */
  function SortAscending(xs: seq<real>): (r: seq<real>)
    ensures Ascending(r)
    ensures multiset(r) == multiset(xs)
  {
    if xs == [] then []
    else
      assert xs == [xs[0]] + xs[1..];
      Insert(xs[0], SortAscending(xs[1..]))
  }

  /** `statistics.median(xs)`: the middle sorted sample, or the average of the two middle ones
      when the count is even. */
  function Median(xs: seq<real>): (m: real)
    requires xs != []
    ensures |xs| % 2 == 1 ==> m in xs
    ensures |xs| % 2 == 0 ==> exists a, b :: a in xs && b in xs && a <= b && m == (a + b) / 2.0
  {
    var s := SortAscending(xs);
    assert |s| == |multiset(s)| == |multiset(xs)| == |xs|;
    var n := |s|;
    if n % 2 == 1 then
      assert s[n / 2] in multiset(s);
      s[n / 2]
    else
      var a, b := s[n / 2 - 1], s[n / 2];
      assert a in multiset(s) && b in multiset(s);
      assert a in xs && b in xs && a <= b;
      (a + b) / 2.0
  }

  /** Two ascending arrangements of the same samples are the same sequence: sorting has only one
      possible answer. */
  lemma {:induction false} AscendingUnique(a: seq<real>, b: seq<real>)
    requires Ascending(a) && Ascending(b) && multiset(a) == multiset(b)
    ensures a == b
  {
    if a == [] {
      assert |b| == |multiset(b)|;
    } else {
      assert |b| == |multiset(b)| && b != [];
      HeadIsLeast(a, b[0]);
      HeadIsLeast(b, a[0]);
      TailMultiset(a);
      TailMultiset(b);
      AscendingTail(a);
      AscendingTail(b);
      AscendingUnique(a[1..], b[1..]);
      SameHeadSameTail(a, b);
    }
  }

  lemma SameHeadSameTail(a: seq<real>, b: seq<real>)
    requires a != [] && b != [] && a[0] == b[0] && a[1..] == b[1..]
    ensures a == b
  {
    assert a == [a[0]] + a[1..] && b == [b[0]] + b[1..];
  }

  lemma HeadIsLeast(a: seq<real>, x: real)
    requires Ascending(a) && x in multiset(a)
    ensures a[0] <= x
  {
    var k :| 0 <= k < |a| && a[k] == x;
  }

  lemma AscendingTail(a: seq<real>)
    requires Ascending(a) && a != []
    ensures Ascending(a[1..])
  {
    forall j, k | 0 <= j < k < |a| - 1 ensures a[1..][j] <= a[1..][k] {
      assert a[1..][j] == a[j + 1] && a[1..][k] == a[k + 1];
    }
  }

  lemma TailMultiset(a: seq<real>)
    requires a != []
    ensures multiset(a[1..]) == multiset(a) - multiset{a[0]}
  {
    assert a == [a[0]] + a[1..];
  }

  /** `statistics.median` is the middle of ANY ascending arrangement of the samples, or the
      average of its two middle values when the count is even. */
  lemma MedianIsMiddle(xs: seq<real>, s: seq<real>)
    requires xs != []
    requires Ascending(s) && multiset(s) == multiset(xs)
    ensures |s| == |xs|
    ensures |xs| % 2 == 1 ==> Median(xs) == s[|xs| / 2]
    ensures |xs| % 2 == 0 ==> Median(xs) == (s[|xs| / 2 - 1] + s[|xs| / 2]) / 2.0
  {
    assert |s| == |multiset(s)| == |multiset(xs)| == |xs|;
    AscendingUnique(s, SortAscending(xs));
  }

  /** The median lies between the smallest and the largest sample. */
  lemma MedianBounds(xs: seq<real>)
    requires xs != []
    ensures Min(xs) <= Median(xs) <= Max(xs)
  {
    var s := SortAscending(xs);
    assert |s| == |multiset(s)| == |multiset(xs)| == |xs|;
    forall k | 0 <= k < |s| ensures Min(xs) <= s[k] <= Max(xs) {
      assert s[k] in multiset(s);
      assert s[k] in xs;
    }
  }

  /** A single sample is its own mean and median. */
  lemma SingleSample(x: real)
    ensures Mean([x]) == x && Median([x]) == x && Min([x]) == x && Max([x]) == x
  {
    assert [x][..0] == [];
    assert Sum([x]) == x;
    assert SortAscending([x]) == Insert(x, SortAscending([])) == [x];
  }
}

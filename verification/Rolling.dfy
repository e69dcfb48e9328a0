/** Rolling statistics over a price series: prefix sums and a monotonic deque against their definitions. */
module Rolling {
  import opened Sums

  /** Sum of `xs[a..b]`. */
  function RangeSum(xs: seq<real>, a: nat, b: nat): real
    requires a <= b <= |xs|
  {
    if a == b then 0.0 else RangeSum(xs, a, b - 1) + xs[b - 1]
  }

  /** Sum of squared distances from `m`. */
  function SquaredDeviations(xs: seq<real>, a: nat, b: nat, m: real): real
    requires a <= b <= |xs|
  {
    if a == b then 0.0 else SquaredDeviations(xs, a, b - 1, m) + Times(xs[b - 1] - m, xs[b - 1] - m)
  }

  function Mean(xs: seq<real>, a: nat, b: nat): real
    requires a < b <= |xs|
  {
    RangeSum(xs, a, b) / (b - a) as real
  }

  /** Population variance of `xs[a..b]`, by definition. */
  function Variance(xs: seq<real>, a: nat, b: nat): real
    requires a < b <= |xs|
  {
    SquaredDeviations(xs, a, b, Mean(xs, a, b)) / (b - a) as real
  }

  /** First index of the trailing window of at most `window` values that ends at `i`. */
  function WindowStart(i: nat, window: nat): (start: nat)
    requires window >= 1
    ensures start <= i && i - start + 1 <= window
  {
    if i + 1 <= window then 0 else i + 1 - window
  }

  function MeanAt(xs: seq<real>, i: nat, window: nat, minimum: nat): Option<real>
    requires i < |xs| && window >= 1
  {
    var start := WindowStart(i, window);
    if i - start + 1 >= minimum then Some(Mean(xs, start, i + 1)) else None
  }

  function StdAt(sqrt: real -> real, xs: seq<real>, i: nat, window: nat, minimum: nat): Option<real>
    requires i < |xs| && window >= 1
  {
    var start := WindowStart(i, window);
    if i - start + 1 >= minimum then Some(sqrt(Variance(xs, start, i + 1))) else None
  }

  // ---- prefix sums ----

  ghost predicate IsPrefix(prefix: seq<real>, xs: seq<real>, n: nat)
  {
    n <= |xs| && |prefix| == n + 1 && forall k :: 0 <= k <= n ==> prefix[k] == RangeSum(xs, 0, k)
  }

  lemma {:induction false} RangeSplit(xs: seq<real>, a: nat, b: nat, c: nat)
    requires a <= b <= c <= |xs|
    ensures RangeSum(xs, a, c) == RangeSum(xs, a, b) + RangeSum(xs, b, c)
  {
    if b < c { RangeSplit(xs, a, b, c - 1); }
  }

  method PrefixSums(xs: seq<real>) returns (prefix: seq<real>)
    ensures IsPrefix(prefix, xs, |xs|)
  {
    prefix := [0.0];
    for i := 0 to |xs|
      invariant IsPrefix(prefix, xs, i)
    {
      prefix := prefix + [prefix[i] + xs[i]];
    }
  }

  /** A difference of prefix sums is the sum of the range. */
  lemma PrefixDifference(prefix: seq<real>, xs: seq<real>, a: nat, b: nat)
    requires IsPrefix(prefix, xs, |xs|) && a <= b <= |xs|
    ensures prefix[b] - prefix[a] == RangeSum(xs, a, b)
  {
    RangeSplit(xs, 0, a, b);
  }

  method RollingMeanSeries(xs: seq<real>, window: nat, minimum: nat) returns (out: seq<Option<real>>)
    requires window >= 1
    ensures |out| == |xs| && forall i :: 0 <= i < |xs| ==> out[i] == MeanAt(xs, i, window, minimum)
  {
    var prefix := PrefixSums(xs);
    out := seq(|xs|, _ => None);
    for i := 0 to |xs|
      invariant |out| == |xs| && forall j :: 0 <= j < i ==> out[j] == MeanAt(xs, j, window, minimum)
    {
      var start := WindowStart(i, window);
      var count := i - start + 1;
      if count >= minimum {
        PrefixDifference(prefix, xs, start, i + 1);
        out := out[i := Some((prefix[i + 1] - prefix[start]) / count as real)];
      } else {
        out := out[i := None];
      }
    }
  }

  function Squares(xs: seq<real>): seq<real> { seq(|xs|, i requires 0 <= i < |xs| => Times(xs[i], xs[i])) }

  lemma {:induction false} DeviationsExpand(xs: seq<real>, a: nat, b: nat, m: real)
    requires a <= b <= |xs|
    ensures SquaredDeviations(xs, a, b, m) ==
            Expanded(RangeSum(Squares(xs), a, b), RangeSum(xs, a, b), (b - a) as real, m)
  {
    if a < b {
      DeviationsExpand(xs, a, b - 1, m);
      assert Squares(xs)[b - 1] == Times(xs[b - 1], xs[b - 1]);
      ExpandedStep(RangeSum(Squares(xs), a, b - 1), RangeSum(xs, a, b - 1), (b - 1 - a) as real, m, xs[b - 1]);
    }
  }

  /** The square of the deviations, multiplied out: `q` sums squares, `s` values, over `n` values. */
  function Expanded(q: real, s: real, n: real, m: real): real { q - 2.0 * (m * s) + n * (m * m) }

  lemma ExpandedStep(q: real, s: real, n: real, m: real, x: real)
    ensures Expanded(q + Times(x, x), s + x, n + 1.0, m) == Expanded(q, s, n, m) + Times(x - m, x - m)
  {
    assert (x - m) * (x - m) == x * x - 2.0 * (m * x) + m * m;
    assert m * (s + x) == m * s + m * x;
    assert (n + 1.0) * (m * m) == n * (m * m) + m * m;
  }

  lemma {:induction false} DeviationsNonNegative(xs: seq<real>, a: nat, b: nat, m: real)
    requires a <= b <= |xs|
    ensures SquaredDeviations(xs, a, b, m) >= 0.0
  {
    if a < b {
      DeviationsNonNegative(xs, a, b - 1, m);
      SquareNonNegative(xs[b - 1] - m);
    }
  }

  lemma SquareNonNegative(x: real)
    ensures Times(x, x) >= 0.0
  {
  }

  /** Mean of squares minus square of the mean: the variance as the loops compute it from totals. */
  function FromTotals(q: real, s: real, n: real): real
    requires n > 0.0
  {
    q / n - (s / n) * (s / n)
  }

  /** The formula from totals is the variance, so in exact arithmetic the clamp at zero never bites. */
  lemma VarianceFromSums(xs: seq<real>, a: nat, b: nat)
    requires a < b <= |xs|
    ensures Variance(xs, a, b) == FromTotals(RangeSum(Squares(xs), a, b), RangeSum(xs, a, b), (b - a) as real)
    ensures Variance(xs, a, b) >= 0.0
  {
    var mean := Mean(xs, a, b);
    DeviationsExpand(xs, a, b, mean);
    DeviationsNonNegative(xs, a, b, mean);
    MeanAlgebra((b - a) as real, RangeSum(xs, a, b), RangeSum(Squares(xs), a, b), SquaredDeviations(xs, a, b, mean));
  }

  lemma MeanAlgebra(n: real, s: real, q: real, d: real)
    requires n > 0.0 && d == Expanded(q, s, n, s / n) && d >= 0.0
    ensures d / n == FromTotals(q, s, n) && d / n >= 0.0
  {
    var mean := s / n;
    assert s == n * mean;
    assert mean * s == n * (mean * mean);
    assert d == q - n * (mean * mean);
    assert n * (mean * mean) / n == mean * mean;
  }

  /** The loop shared by standard deviation and volatility: variance of `xs[start..i + 1]` from prefix sums. */
  method WindowVariance(prefix: seq<real>, squares: seq<real>, start: nat, i: nat, ghost xs: seq<real>)
    returns (variance: real)
    requires start <= i < |xs| && IsPrefix(prefix, xs, |xs|) && IsPrefix(squares, Squares(xs), |xs|)
    ensures variance == Variance(xs, start, i + 1)
  {
    var count := (i - start + 1) as real;
    var total, totalSquares := prefix[i + 1] - prefix[start], squares[i + 1] - squares[start];
    PrefixDifference(prefix, xs, start, i + 1);
    PrefixDifference(squares, Squares(xs), start, i + 1);
    VarianceFromSums(xs, start, i + 1);
    variance := Max(0.0, FromTotals(totalSquares, total, count));
  }

  method RollingStdSeries(sqrt: real -> real, xs: seq<real>, window: nat, minimum: nat) returns (out: seq<Option<real>>)
    requires window >= 1
    ensures |out| == |xs| && forall i :: 0 <= i < |xs| ==> out[i] == StdAt(sqrt, xs, i, window, minimum)
  {
    var prefix := PrefixSums(xs);
    var squares := PrefixSums(Squares(xs));
    out := seq(|xs|, _ => None);
    for i := 0 to |xs|
      invariant |out| == |xs| && forall j :: 0 <= j < i ==> out[j] == StdAt(sqrt, xs, j, window, minimum)
    {
      var start := WindowStart(i, window);
      if i - start + 1 < minimum {
        out := out[i := None];
        continue;
      }
      var variance := WindowVariance(prefix, squares, start, i, xs);
      out := out[i := Some(sqrt(variance))];
    }
  }

  // ---- volatility ----

  /** Daily log returns; the first day has none and counts as zero, as do days without positive prices. */
  function LogReturns(ln: real -> real, xs: seq<real>): seq<real>
  {
    seq(|xs|, i requires 0 <= i < |xs| =>
      if i > 0 && xs[i - 1] > 0.0 && xs[i] > 0.0 then ln(xs[i] / xs[i - 1]) else 0.0)
  }

  /** Annualized volatility of the returns in the window; the first day's placeholder is left out. */
  function VolatilityOf(sqrt: real -> real, logReturns: seq<real>, i: nat, window: nat, minimum: nat): Option<real>
    requires i < |logReturns| && window >= 1
  {
    var start := Later(1, WindowStart(i, window));
    if i >= 1 && i - start + 1 >= minimum
    then Some(Times(sqrt(Variance(logReturns, start, i + 1)), sqrt(365.0))) else None
  }

  function VolatilityAt(ln: real -> real, sqrt: real -> real, xs: seq<real>, i: nat, window: nat,
                        minimum: nat): Option<real>
    requires i < |xs| && window >= 1
  {
    VolatilityOf(sqrt, LogReturns(ln, xs), i, window, minimum)
  }

  function Later(a: nat, b: nat): nat { if a <= b then b else a }

  method LogReturnSeries(ln: real -> real, xs: seq<real>) returns (r: seq<real>)
    requires xs != []
    ensures r == LogReturns(ln, xs)
  {
    r := [0.0];
    for i := 1 to |xs|
      invariant |r| == i && forall j :: 0 <= j < i ==> r[j] == LogReturns(ln, xs)[j]
    {
      r := r + [if xs[i - 1] > 0.0 && xs[i] > 0.0 then ln(xs[i] / xs[i - 1]) else 0.0];
    }
  }

  method RollingVolatilitySeries(ln: real -> real, sqrt: real -> real, xs: seq<real>, window: nat, minimum: nat)
    returns (out: seq<Option<real>>)
    requires window >= 1
    ensures |out| == |xs| && forall i :: 0 <= i < |xs| ==> out[i] == VolatilityAt(ln, sqrt, xs, i, window, minimum)
  {
    if xs == [] { return []; }
    var logReturns := LogReturnSeries(ln, xs);
    out := VolatilitySeriesOf(sqrt, logReturns, window, minimum);
  }

  method VolatilitySeriesOf(sqrt: real -> real, logReturns: seq<real>, window: nat, minimum: nat)
    returns (out: seq<Option<real>>)
    requires window >= 1 && logReturns != []
    ensures |out| == |logReturns|
    ensures forall i :: 0 <= i < |logReturns| ==> out[i] == VolatilityOf(sqrt, logReturns, i, window, minimum)
  {
    var prefix := PrefixSums(logReturns);
    var squares := PrefixSums(Squares(logReturns));
    out := seq(|logReturns|, _ => None);
    for i := 1 to |logReturns|
      invariant |out| == |logReturns|
      invariant forall j :: 0 <= j < i ==> out[j] == VolatilityOf(sqrt, logReturns, j, window, minimum)
    {
      var start := Later(1, WindowStart(i, window));
      if i - start + 1 < minimum {
        out := out[i := None];
        continue;
      }
      var variance := WindowVariance(prefix, squares, start, i, logReturns);
      out := out[i := Some(Times(sqrt(variance), sqrt(365.0)))];
    }
  }

  // ---- monotonic deque ----

  /** `m` is the latest index of the maximum of `xs[a..b]`. */
  ghost predicate LatestMax(xs: seq<real>, a: nat, b: nat, m: nat)
  {
    a <= m < b <= |xs| && (forall k :: a <= k < m ==> xs[k] <= xs[m]) && forall k :: m < k < b ==> xs[k] < xs[m]
  }

  /** The maximum of `xs[a..b]`, by definition. */
  function RangeMax(xs: seq<real>, a: nat, b: nat): real
    requires a < b <= |xs|
  {
    if a + 1 == b then xs[a] else Max(RangeMax(xs, a, b - 1), xs[b - 1])
  }

  lemma {:induction false} RangeMaxIs(xs: seq<real>, a: nat, b: nat)
    requires a < b <= |xs|
    ensures forall k :: a <= k < b ==> xs[k] <= RangeMax(xs, a, b)
    ensures exists k :: a <= k < b && xs[k] == RangeMax(xs, a, b)
  {
    if a + 1 < b {
      RangeMaxIs(xs, a, b - 1);
      var k :| a <= k < b - 1 && xs[k] == RangeMax(xs, a, b - 1);
      assert xs[if RangeMax(xs, a, b - 1) <= xs[b - 1] then b - 1 else k] == RangeMax(xs, a, b);
    } else {
      assert xs[a] == RangeMax(xs, a, b);
    }
  }

  lemma LatestMaxIsMax(xs: seq<real>, a: nat, b: nat, m: nat)
    requires LatestMax(xs, a, b, m)
    ensures xs[m] == RangeMax(xs, a, b)
  {
    RangeMaxIs(xs, a, b);
  }

  /** The latest index of the maximum, by definition. */
  function LatestHigh(xs: seq<real>, a: nat, b: nat): nat
    requires a < b <= |xs|
    ensures a <= LatestHigh(xs, a, b) < b
  {
    if a + 1 == b then a
    else
      var m := LatestHigh(xs, a, b - 1);
      if xs[m] <= xs[b - 1] then b - 1 else m
  }

  lemma {:induction false} LatestMaxIsHigh(xs: seq<real>, a: nat, b: nat, m: nat)
    requires LatestMax(xs, a, b, m)
    ensures m == LatestHigh(xs, a, b)
  {
    if a + 1 < b {
      if m == b - 1 {
        var h := LatestHigh(xs, a, b - 1);
        assert xs[h] <= xs[m];
      } else {
        LatestMaxIsHigh(xs, a, b - 1, m);
        assert xs[b - 1] < xs[m];
      }
    }
  }

  /** Increasing indices, each the latest maximum of the stretch that ends at `end` and starts after its
      predecessor. */
  ghost predicate Chain(xs: seq<real>, q: seq<nat>, start: nat, end: nat)
  {
    && end <= |xs|
    && (forall j :: 0 <= j < |q| ==> start <= q[j] < end)
    && (forall i, j :: 0 <= i < j < |q| ==> q[i] < q[j])
    && (q != [] ==> LatestMax(xs, start, end, q[0]))
    && (forall j :: 0 < j < |q| ==> LatestMax(xs, q[j - 1] + 1, end, q[j]))
  }

  /** The deque for the window `xs[start..end]`. */
  ghost predicate IsDeque(xs: seq<real>, q: seq<nat>, start: nat, end: nat)
  {
    Chain(xs, q, start, end) && (start < end ==> q != [] && q[|q| - 1] == end - 1) && (start >= end ==> q == [])
  }

  /** The window start before index `i` is looked at. */
  function StartBefore(i: nat, window: nat): nat
    requires window >= 1
  {
    if i == 0 then 0 else WindowStart(i - 1, window)
  }

  lemma DropFront(xs: seq<real>, q: seq<nat>, start: nat, end: nat)
    requires Chain(xs, q, start, end) && q != []
    ensures Chain(xs, q[1..], q[0] + 1, end)
  {
  }

  lemma ShrinkFront(xs: seq<real>, q: seq<nat>, start: nat, later: nat, end: nat)
    requires Chain(xs, q, start, end) && start <= later && (q != [] ==> later <= q[0])
    ensures Chain(xs, q, later, end)
  {
    forall j | 0 <= j < |q| ensures later <= q[j] { if j > 0 { assert q[0] < q[j]; } }
  }

  /** Where the stretch behind the last index of the chain begins. */
  function BackStart(q: seq<nat>, start: nat): nat { if q == [] then start else q[|q| - 1] + 1 }

  /** Everything behind the chain is at most `x`. */
  ghost predicate Covered(xs: seq<real>, q: seq<nat>, start: nat, end: nat, x: real)
  {
    end <= |xs| && forall k :: BackStart(q, start) <= k < end ==> xs[k] <= x
  }

  lemma DropBack(xs: seq<real>, q: seq<nat>, start: nat, end: nat, x: real)
    requires Chain(xs, q, start, end) && q != [] && Covered(xs, q, start, end, x) && xs[q[|q| - 1]] <= x
    ensures Chain(xs, q[..|q| - 1], start, end) && Covered(xs, q[..|q| - 1], start, end, x)
  {
    var last := q[|q| - 1];
    var from := BackStart(q[..|q| - 1], start);
    assert LatestMax(xs, from, end, last);
  }

  lemma PushBack(xs: seq<real>, q: seq<nat>, start: nat, i: nat)
    requires i < |xs| && start <= i && Chain(xs, q, start, i) && Covered(xs, q, start, i, xs[i])
    requires forall j :: 0 <= j < |q| ==> xs[q[j]] > xs[i]
    ensures Chain(xs, q + [i], start, i + 1)
  {
    var r := q + [i];
    forall j | 0 < j < |r| ensures LatestMax(xs, r[j - 1] + 1, i + 1, r[j]) {
      if j < |q| { assert xs[q[j]] > xs[i]; }
    }
  }

  /** Values along the chain fall strictly, so it is enough to look at its end. */
  lemma ChainFalls(xs: seq<real>, q: seq<nat>, start: nat, end: nat, x: real)
    requires Chain(xs, q, start, end) && (q != [] ==> xs[q[|q| - 1]] > x)
    ensures forall j :: 0 <= j < |q| ==> xs[q[j]] > x
  {
    forall j | 0 <= j < |q| ensures xs[q[j]] > x {
      if j < |q| - 1 {
        assert LatestMax(xs, if j == 0 then start else q[j - 1] + 1, end, q[j]);
        assert q[j] < q[|q| - 1];
      }
    }
  }

  /** Move the window one to the right: drop what left it, drop what the new value covers, append. */
  method PushDeque(xs: seq<real>, q0: seq<nat>, i: nat, window: nat, ghost pops0: nat)
    returns (q: seq<nat>, ghost pops: nat)
    requires i < |xs| && window >= 1 && IsDeque(xs, q0, StartBefore(i, window), i) && pops0 + |q0| == i
    ensures IsDeque(xs, q, WindowStart(i, window), i + 1) && q[0] < |xs|
    ensures pops + |q| == i + 1
  {
    q, pops := q0, pops0;
    var start := WindowStart(i, window);
    ghost var from: nat := StartBefore(i, window);
    while q != [] && q[0] < start
      invariant Chain(xs, q, from, i) && from <= start && pops + |q| == i
      invariant Covered(xs, q, start, i, xs[i])
      decreases |q|
    {
      DropFront(xs, q, from, i);
      from := q[0] + 1;
      q, pops := q[1..], pops + 1;
    }
    ShrinkFront(xs, q, from, start, i);
    while q != [] && xs[q[|q| - 1]] <= xs[i]
      invariant Chain(xs, q, start, i) && Covered(xs, q, start, i, xs[i]) && pops + |q| == i
      decreases |q|
    {
      DropBack(xs, q, start, i, xs[i]);
      q, pops := q[..|q| - 1], pops + 1;
    }
    ChainFalls(xs, q, start, i, xs[i]);
    PushBack(xs, q, start, i);
    q := q + [i];
  }

  function MaxAt(xs: seq<real>, i: nat, window: nat, minimum: nat): Option<real>
    requires i < |xs| && window >= 1
  {
    var start := WindowStart(i, window);
    if i - start + 1 >= minimum then Some(RangeMax(xs, start, i + 1)) else None
  }

  /** The rolling maximum; the deque does at most one push and one pop per index. */
  method RollingMaxSeries(xs: seq<real>, window: nat, minimum: nat) returns (out: seq<Option<real>>, ghost pops: nat)
    requires window >= 1
    ensures |out| == |xs| && forall i :: 0 <= i < |xs| ==> out[i] == MaxAt(xs, i, window, minimum)
    ensures pops <= |xs|
  {
    out := seq(|xs|, _ => None);
    var q: seq<nat> := [];
    pops := 0;
    for i := 0 to |xs|
      invariant |out| == |xs| && forall j :: 0 <= j < i ==> out[j] == MaxAt(xs, j, window, minimum)
      invariant IsDeque(xs, q, StartBefore(i, window), i)
      invariant pops + |q| == i
    {
      q, pops := PushDeque(xs, q, i, window, pops);
      var start := WindowStart(i, window);
      LatestMaxIsMax(xs, start, i + 1, q[0]);
      if i - start + 1 >= minimum {
        out := out[i := Some(xs[q[0]])];
      } else {
        out := out[i := None];
      }
    }
  }

  /** Days between index `i` and the latest highest value of the trailing window. */
  function AgeAt(xs: seq<real>, i: nat, window: nat): real
    requires i < |xs| && window >= 1
  {
    (i - LatestHigh(xs, WindowStart(i, window), i + 1)) as real
  }

  /** Age of the latest highest value in the trailing window. */
  method DaysSinceRollingHighSeries(xs: seq<real>, window: nat) returns (out: seq<Option<real>>)
    requires window >= 1
    ensures |out| == |xs|
    ensures forall i :: 0 <= i < |xs| ==> out[i] == Some(AgeAt(xs, i, window))
  {
    out := seq(|xs|, _ => None);
    var q: seq<nat> := [];
    ghost var pops: nat := 0;
    for i := 0 to |xs|
      invariant |out| == |xs|
      invariant forall j :: 0 <= j < i ==> out[j] == Some(AgeAt(xs, j, window))
      invariant IsDeque(xs, q, StartBefore(i, window), i)
      invariant pops + |q| == i
    {
      q, pops := PushDeque(xs, q, i, window, pops);
      LatestMaxIsHigh(xs, WindowStart(i, window), i + 1, q[0]);
      out := out[i := Some((i - q[0]) as real)];
    }
  }
}

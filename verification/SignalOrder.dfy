/** How each signal moves when only the last price is raised. */
module SignalOrder {
  import opened Maths
  import opened Rolling
  import opened Rsi
  import opened ScoreLaws
  import opened Signals
  import opened Sums

  /** Defined in both cases or in neither, and not lower in the second. */
  predicate Rises(a: Option<real>, b: Option<real>)
  {
    a.Some? == b.Some? && (a.Some? ==> a.value <= b.value)
  }

  /** Positive prices `xs` and `ys` on days up to `i`, equal before day `i`, not lower on day `i` in `ys`. */
  ghost predicate LastRaised(xs: seq<real>, ys: seq<real>, i: nat)
  {
    AgreeTo(xs, ys, i) && |xs| == |ys| == i + 1 && xs[i] <= ys[i] && forall k :: 0 <= k <= i ==> xs[k] > 0.0
  }

  lemma Appended(xs: seq<real>, ys: seq<real>, start: nat, i: nat)
    requires LastRaised(xs, ys, i) && start <= i
    ensures RangeSum(xs, start, i + 1) == RangeSum(xs, start, i) + xs[i]
    ensures RangeSum(ys, start, i + 1) == RangeSum(xs, start, i) + ys[i]
    ensures RangeSum(xs, start, i) >= 0.0
  {
    RangeSumCausal(xs, ys, start, i);
    RangeSumNonNegative(xs, start, i);
  }

  // ---- price over its own moving average ----

  lemma RatioToAverage(s: real, n: real, p: real, p': real)
    requires s >= 0.0 && n > 0.0 && 0.0 < p <= p'
    ensures (s + p) / n > 0.0 && (s + p') / n > 0.0
    ensures Ratio(p, (s + p) / n) <= Ratio(p', (s + p') / n)
  {
    var a, b := (s + p) / n, (s + p') / n;
    assert a * n == s + p && b * n == s + p';
    assert a > 0.0 && b > 0.0;
    assert p * b <= p' * a by {
      assert (p' * a - p * b) * n == p' * (a * n) - p * (b * n);
      assert p' * (s + p) - p * (s + p') == (p' - p) * s;
      assert (p' - p) * s >= 0.0;
    }
    CrossDivide(p, a, p', b);
  }

  lemma AverageRises(xs: seq<real>, ys: seq<real>, i: nat, window: nat)
    requires LastRaised(xs, ys, i) && window >= 1
    ensures var a, b := AverageAt(xs, i, window), AverageAt(ys, i, window);
            && a.Some? == b.Some?
            && (a.Some? ==> a.value > 0.0 && b.value > 0.0 && Ratio(xs[i], a.value) <= Ratio(ys[i], b.value))
  {
    var start := WindowStart(i, window);
    Appended(xs, ys, start, i);
    RatioToAverage(RangeSum(xs, start, i), (i + 1 - start) as real, xs[i], ys[i]);
  }

  lemma MaxRises(xs: seq<real>, ys: seq<real>, i: nat, window: nat, minimum: nat)
    requires LastRaised(xs, ys, i) && window >= 1
    ensures var a, b := MaxAt(xs, i, window, minimum), MaxAt(ys, i, window, minimum);
            && a.Some? == b.Some?
            && (a.Some? ==> a.value > 0.0 && b.value > 0.0 && Ratio(xs[i], a.value) <= Ratio(ys[i], b.value))
  {
    var start := WindowStart(i, window);
    if start < i {
      RangeMaxCausal(xs, ys, start, i);
      RatioToHigh(RangeMax(xs, start, i), xs[i], ys[i]);
    } else {
      CrossDivide(xs[i], xs[i], ys[i], ys[i]);
    }
  }

  lemma RatioToHigh(h: real, p: real, p': real)
    requires 0.0 < p <= p'
    ensures Ratio(p, Max(h, p)) <= Ratio(p', Max(h, p'))
  {
    CrossDivide(p, Max(h, p), p', Max(h, p'));
    if p' <= h {
      assert p * h <= p' * h;
    } else if p <= h {
      assert p * p' <= h * p';
    }
  }

  /** A larger ratio of price to base gives a larger log ratio. */
  lemma LogRatioRises(f: Maths, p: real, p': real, a: Option<real>, b: Option<real>, volatility: Option<real>,
                      floor: real)
    requires Lawful(f) && floor > 0.0 && p > 0.0 && p' > 0.0 && a.Some? == b.Some?
    requires a.Some? ==> a.value > 0.0 && b.value > 0.0 && Ratio(p, a.value) <= Ratio(p', b.value)
    ensures Rises(NormalizedLogRatio(f, p, a, volatility, floor), NormalizedLogRatio(f, p', b, volatility, floor))
  {
    if a.Some? && volatility.Some? && volatility.value > 0.0 {
      LogOverScale(f, Ratio(p, a.value), Ratio(p', b.value), Max(volatility.value, floor));
    }
  }

  lemma LogOverScale(f: Maths, x: real, y: real, scale: real)
    requires Lawful(f) && 0.0 < x <= y && scale > 0.0
    ensures f.ln(x) / scale <= f.ln(y) / scale
  {
    LnOrder(f, x, y);
    DivideOrder(f.ln(x), f.ln(y), scale);
  }

  lemma DivideOrder(a: real, b: real, c: real)
    requires a <= b && c > 0.0
    ensures a / c <= b / c
  {
  }

  lemma ReturnRises(f: Maths, p: real, p': real, previous: Option<real>, volatility: Option<real>, days: nat,
                    floor: real)
    requires Lawful(f) && 0.0 < p <= p'
    ensures Rises(StandardizedReturn(f, p, previous, volatility, days, floor),
                  StandardizedReturn(f, p', previous, volatility, days, floor))
  {
    if StandardizedReturn(f, p, previous, volatility, days, floor).Some? {
      DivideOrder(p, p', previous.value);
      RatioPositive(p, previous.value);
      LogOverScale(f, Ratio(p, previous.value), Ratio(p', previous.value),
                   Times(Max(volatility.value, floor), f.sqrt(days as real / 365.0)));
    }
  }

  lemma RatioPositive(a: real, b: real)
    requires a > 0.0 && b > 0.0
    ensures Ratio(a, b) > 0.0
  {
  }

  // ---- relative strength ----

  lemma BlendRises(average: real, period: nat, change: real, change': real)
    requires period >= 1 && change <= change'
    ensures Blend(average, period, change) <= Blend(average, period, change')
  {
    var carried := average * (period - 1) as real;
    DivideOrder(carried + change, carried + change', period as real);
  }

  lemma MeanRises(xs: seq<real>, ys: seq<real>, n: nat)
    requires AgreeTo(xs, ys, n) && n < |xs| && n < |ys| && xs[n] <= ys[n]
    ensures Mean(xs, 0, n + 1) <= Mean(ys, 0, n + 1)
  {
    RangeSumCausal(xs, ys, 0, n);
    DivideOrder(RangeSum(xs, 0, n + 1), RangeSum(ys, 0, n + 1), (n + 1) as real);
  }

  lemma SmoothedRises(xs: seq<real>, ys: seq<real>, period: nat, c: nat)
    requires 1 <= period <= c + 1 && AgreeTo(xs, ys, c) && c < |xs| && c < |ys| && xs[c] <= ys[c]
    ensures Smoothed(xs, period, c) <= Smoothed(ys, period, c)
  {
    if c + 1 == period {
      MeanRises(xs, ys, c);
    } else {
      SmoothedCausal(xs, ys, period, c - 1);
      BlendRises(Smoothed(xs, period, c - 1), period, xs[c], ys[c]);
    }
  }

  lemma ChangesMove(xs: seq<real>, ys: seq<real>, i: nat)
    requires LastRaised(xs, ys, i) && i >= 1
    ensures AgreeTo(Gains(xs), Gains(ys), i - 1) && Gains(xs)[i - 1] <= Gains(ys)[i - 1]
    ensures AgreeTo(Losses(ys), Losses(xs), i - 1) && Losses(ys)[i - 1] <= Losses(xs)[i - 1]
  {
  }

  lemma SmoothedBetween(xs: seq<real>, ys: seq<real>, period: nat, c: nat)
    requires 1 <= period <= c + 1 && AgreeTo(xs, ys, c) && c < |xs| && c < |ys| && xs[c] <= ys[c]
    requires forall k :: 0 <= k < |xs| ==> xs[k] >= 0.0
    ensures 0.0 <= Smoothed(xs, period, c) <= Smoothed(ys, period, c)
  {
    SmoothedRises(xs, ys, period, c);
    SmoothedNonNegative(xs, period, c);
  }

  lemma GainsRise(xs: seq<real>, ys: seq<real>, i: nat, period: nat)
    requires LastRaised(xs, ys, i) && 1 <= period <= i
    ensures 0.0 <= Smoothed(Gains(xs), period, i - 1) <= Smoothed(Gains(ys), period, i - 1)
  {
    var g, h := Gains(xs), Gains(ys);
    ChangesMove(xs, ys, i);
    assert |g| == |h| == i && forall k :: 0 <= k < |g| ==> g[k] >= 0.0;
    SmoothedBetween(g, h, period, i - 1);
  }

  lemma LossesFall(xs: seq<real>, ys: seq<real>, i: nat, period: nat)
    requires LastRaised(xs, ys, i) && 1 <= period <= i
    ensures 0.0 <= Smoothed(Losses(ys), period, i - 1) <= Smoothed(Losses(xs), period, i - 1)
  {
    var g, h := Losses(ys), Losses(xs);
    ChangesMove(xs, ys, i);
    assert |g| == |h| == i && forall k :: 0 <= k < |g| ==> g[k] >= 0.0;
    SmoothedBetween(g, h, period, i - 1);
  }

  lemma RsiRises(xs: seq<real>, ys: seq<real>, i: nat, period: nat)
    requires LastRaised(xs, ys, i) && period >= 1
    ensures Rises(RsiAt(xs, i, period), RsiAt(ys, i, period))
  {
    if i >= period {
      GainsRise(xs, ys, i, period);
      LossesFall(xs, ys, i, period);
      StrengthMonotone(Smoothed(Gains(xs), period, i - 1), Smoothed(Losses(xs), period, i - 1),
                       Smoothed(Gains(ys), period, i - 1), Smoothed(Losses(ys), period, i - 1));
    }
  }

  // ---- the short window in units of its own deviation ----

  /** All values of a range are one price. */
  ghost predicate Flat(xs: seq<real>, a: nat, b: nat)
  {
    b <= |xs| && forall j :: a <= j < b ==> xs[j] == xs[a]
  }

  /** A full window of equal prices ends on day `i`. */
  ghost predicate FlatTo(xs: seq<real>, i: nat, window: nat) { i + 1 >= window && Flat(xs, i + 1 - window, i + 1) }

  lemma StrictProducts(a: real, b: real, c: real, d: real)
    requires 0.0 <= a < b && 0.0 <= c < d
    ensures a * c < b * d
  {
    Products(a, b, c, c);
    assert (d - c) * b > 0.0;
    assert b * d == b * c + (d - c) * b;
  }

  lemma SquareZero(d: real)
    ensures d == 0.0 ==> Times(d, d) == 0.0
    ensures d != 0.0 ==> Times(d, d) > 0.0
  {
    var c := if d < 0.0 then -d else d;
    if c > 0.0 { StrictProducts(0.0, c, 0.0, c); }
    assert d * d == c * c;
  }

  lemma {:induction false} ZeroDeviations(xs: seq<real>, a: nat, b: nat, m: real)
    requires a <= b <= |xs|
    ensures (forall k :: a <= k < b ==> xs[k] == m) ==> SquaredDeviations(xs, a, b, m) == 0.0
    ensures forall k :: a <= k < b && xs[k] != m ==> SquaredDeviations(xs, a, b, m) > 0.0
  {
    if a < b {
      ZeroDeviations(xs, a, b - 1, m);
      DeviationsNonNegative(xs, a, b - 1, m);
      SquareZero(xs[b - 1] - m);
    }
  }

  lemma {:induction false} FlatSum(xs: seq<real>, a: nat, b: nat, v: real)
    requires a <= b <= |xs| && forall k :: a <= k < b ==> xs[k] == v
    ensures RangeSum(xs, a, b) == v * (b - a) as real
  {
    if a < b { FlatSum(xs, a, b - 1, v); }
  }

  lemma DivideBack(x: real, n: real, w: real)
    requires n > 0.0 && x == n * w
    ensures x / n == w
  {
  }

  /** The variance vanishes exactly on flat ranges. */
  lemma VarianceZeroIff(xs: seq<real>, a: nat, b: nat)
    requires a < b <= |xs|
    ensures Variance(xs, a, b) >= 0.0
    ensures Variance(xs, a, b) == 0.0 <==> Flat(xs, a, b)
  {
    VarianceFromSums(xs, a, b);
    ZeroDeviations(xs, a, b, Mean(xs, a, b));
    ZeroQuotient(SquaredDeviations(xs, a, b, Mean(xs, a, b)), (b - a) as real);
    if Flat(xs, a, b) { FlatMean(xs, a, b); }
  }

  lemma ZeroQuotient(d: real, n: real)
    requires n > 0.0
    ensures d / n == 0.0 <==> d == 0.0
  {
    assert d == (d / n) * n;
  }

  lemma FlatMean(xs: seq<real>, a: nat, b: nat)
    requires a < b <= |xs| && Flat(xs, a, b)
    ensures Mean(xs, a, b) == xs[a]
  {
    FlatSum(xs, a, b, xs[a]);
    DivideBack(RangeSum(xs, a, b), (b - a) as real, xs[a]);
  }

  lemma FlatLogs(f: Maths, xs: seq<real>, a: nat, b: nat)
    requires Lawful(f) && b <= |xs| && forall k :: a <= k < b ==> xs[k] > 0.0
    ensures Flat(Logs(f, xs), a, b) <==> Flat(xs, a, b)
  {
    forall j | a <= j < b ensures Logs(f, xs)[j] == Logs(f, xs)[a] <==> xs[j] == xs[a] {
      LnOrder(f, xs[j], xs[a]);
      LnOrder(f, xs[a], xs[j]);
    }
    if Flat(Logs(f, xs), a, b) {
      forall j | a <= j < b ensures xs[j] == xs[a] { assert Logs(f, xs)[j] == Logs(f, xs)[a]; }
    }
  }

  lemma DeviationPositiveIff(f: Maths, x: real)
    requires Lawful(f) && x >= 0.0
    ensures f.sqrt(x) > 0.0 <==> x > 0.0
  {
    SqrtOf(f, x);
    if f.sqrt(x) > 0.0 { StrictProducts(0.0, f.sqrt(x), 0.0, f.sqrt(x)); }
  }

  /** The signal needs a full window whose values are not all equal. */
  lemma ZDefinedIff(f: Maths, ls: seq<real>, i: nat, window: nat)
    requires Lawful(f) && i < |ls| && window >= 1
    ensures ZScore(ls[i], AverageAt(ls, i, window), StdAt(f.sqrt, ls, i, window, window)).Some? <==>
              i + 1 >= window && Variance(ls, i + 1 - window, i + 1) > 0.0
  {
    if i + 1 >= window {
      VarianceFromSums(ls, i + 1 - window, i + 1);
      DeviationPositiveIff(f, Variance(ls, i + 1 - window, i + 1));
    }
  }

  lemma MovesIff(f: Maths, xs: seq<real>, i: nat, window: nat)
    requires Lawful(f) && i < |xs| && 1 <= window <= i + 1 && forall k :: 0 <= k <= i ==> xs[k] > 0.0
    ensures Variance(Logs(f, xs), i + 1 - window, i + 1) > 0.0 <==> !FlatTo(xs, i, window)
  {
    VarianceZeroIff(Logs(f, xs), i + 1 - window, i + 1);
    FlatLogs(f, xs, i + 1 - window, i + 1);
  }

  /** The signal exists exactly when a full window holds at least two different prices. */
  lemma ShortZDefinedIff(f: Maths, m: Model, xs: seq<real>, i: nat)
    requires Lawful(f) && Usable(m) && i < |xs| && forall k :: 0 <= k <= i ==> xs[k] > 0.0
    ensures SignalAt(f, m, ShortZ, xs, i).Some? <==>
              i + 1 >= m.shortDeviation && !FlatTo(xs, i, m.shortDeviation)
  {
    ZDefinedIff(f, Logs(f, xs), i, m.shortDeviation);
    if i + 1 >= m.shortDeviation { MovesIff(f, xs, i, m.shortDeviation); }
  }

  lemma SquareOrder(a: real, b: real)
    requires 0.0 <= a && 0.0 <= b && a * a <= b * b
    ensures a <= b
  {
    if b < a { StrictProducts(b, a, b, a); }
  }

  lemma StrictScale(k: real, a: real, b: real)
    requires k > 0.0 && a < b
    ensures k * a < k * b
  {
  }

  lemma Cancel(k: real, a: real, b: real)
    requires k > 0.0 && k * a <= k * b
    ensures a <= b
  {
    if b < a { StrictScale(k, b, a); }
  }

  /** Distances over deviations that grow together: `e * e + c == k * (s * s)` on both sides. */
  lemma ZOrderPositive(e: real, s: real, e': real, s': real, k: real, c: real)
    requires k > 0.0 && c >= 0.0 && s > 0.0 && s' > 0.0 && 0.0 <= e <= e'
    requires e * e + c == k * (s * s) && e' * e' + c == k * (s' * s')
    ensures e * s' <= e' * s
  {
    var x, y := e * s', e' * s;
    var u, v := e * e, e' * e';
    assert u <= v by { Products(e, e', e, e'); }
    assert k * (x * x) == u * (v + c) by { assert x * x == u * (s' * s'); }
    assert k * (y * y) == v * (u + c) by { assert y * y == v * (s * s); }
    assert u * c <= v * c by { Products(u, v, c, c); }
    assert u * (v + c) == u * v + u * c && v * (u + c) == u * v + v * c;
    assert x * x <= y * y by { Cancel(k, x * x, y * y); }
    assert x >= 0.0 && y >= 0.0;
    SquareOrder(x, y);
  }

  lemma ZOrder(e: real, s: real, e': real, s': real, k: real, c: real)
    requires k > 0.0 && c >= 0.0 && s > 0.0 && s' > 0.0 && e <= e'
    requires e * e + c == k * (s * s) && e' * e' + c == k * (s' * s')
    ensures e / s <= e' / s'
  {
    if e >= 0.0 {
      ZOrderPositive(e, s, e', s', k, c);
    } else if e' <= 0.0 {
      assert (-e) * (-e) == e * e && (-e') * (-e') == e' * e';
      ZOrderPositive(-e', s', -e, s, k, c);
      assert (-e') * s == -(e' * s) && (-e) * s' == -(e * s');
    } else {
      assert e * s' <= 0.0 <= e' * s;
    }
    CrossDivide(e, s, e', s');
  }

  /** What the earlier values of a window contribute to the comparison: their spread, suitably scaled. */
  ghost function Residue(q: real, s: real, k: real): real
    requires k > 0.0
  {
    (Times(k, q) - Times(s, s)) / (k + 1.0)
  }

  lemma MeanDistance(s: real, l: real, k: real)
    requires k > 0.0
    ensures l - (s + l) / (k + 1.0) == (Times(k, l) - s) / (k + 1.0)
  {
    var n := k + 1.0;
    var mu := (s + l) / n;
    assert n * mu == s + l;
    DivideBack(k * l - s, n, l - mu);
  }

  lemma TotalsBack(q: real, s: real, n: real)
    requires n > 0.0
    ensures Times(n, FromTotals(q, s, n)) == q - Times(n, Times(s / n, s / n))
  {
    var x, y := q / n, (s / n) * (s / n);
    assert n * (x - y) == n * x - n * y;
  }

  /** Distance from a mean that includes the value itself, against the variance that includes it. */
  lemma OwnDistance(q: real, s: real, l: real, k: real)
    requires k > 0.0
    ensures var e := l - (s + l) / (k + 1.0);
            Times(e, e) + Residue(q, s, k) == Times(k, FromTotals(q + Times(l, l), s + l, k + 1.0))
  {
    var n := k + 1.0;
    var mu := (s + l) / n;
    var e, v := l - mu, FromTotals(q + Times(l, l), s + l, n);
    TotalsBack(q + Times(l, l), s + l, n);
    assert s == k * mu - e by { assert n * mu == s + l; assert n * mu == k * mu + mu; }
    OwnDistanceAlgebra(q, s, l, mu, e, k, v);
    DivideBack(Times(k, q) - Times(s, s), n, Times(k, v) - Times(e, e));
  }

  lemma OwnDistanceAlgebra(q: real, s: real, l: real, mu: real, e: real, k: real, v: real)
    requires l == mu + e && s == k * mu - e
    requires Times(k + 1.0, v) == q + Times(l, l) - Times(k + 1.0, Times(mu, mu))
    ensures Times(k, q) - Times(s, s) == (k + 1.0) * (Times(k, v) - Times(e, e))
  {
    var a, b, c := mu * mu, mu * e, e * e;
    assert (mu + e) * (mu + e) == a + 2.0 * b + c;
    assert q == (k + 1.0) * v - a - 2.0 * b - c + (k + 1.0) * a;
    assert q == (k + 1.0) * v + k * a - 2.0 * b - c;
    assert k * q == k * ((k + 1.0) * v) + k * (k * a) - 2.0 * (k * b) - k * c;
    assert (k * mu - e) * (k * mu - e) == k * (k * a) - 2.0 * (k * b) + c;
    assert k * ((k + 1.0) * v) == (k + 1.0) * (k * v);
    assert (k + 1.0) * (k * v - c) == (k + 1.0) * (k * v) - k * c - c;
  }

  lemma ResidueNonNegative(xs: seq<real>, a: nat, b: nat)
    requires a < b <= |xs|
    ensures Residue(RangeSum(Squares(xs), a, b), RangeSum(xs, a, b), (b - a) as real) >= 0.0
  {
    VarianceFromSums(xs, a, b);
    SpreadAlgebra(RangeSum(Squares(xs), a, b), RangeSum(xs, a, b), (b - a) as real);
  }

  lemma SpreadAlgebra(q: real, s: real, k: real)
    requires k > 0.0 && FromTotals(q, s, k) >= 0.0
    ensures Residue(q, s, k) >= 0.0
  {
    var x, y := q / k, s / k;
    assert q == x * k && s == y * k;
    assert s * s == (y * y) * (k * k);
    assert k * q == x * (k * k);
    assert (x - y * y) * (k * k) >= 0.0;
    assert (x - y * y) * (k * k) == x * (k * k) - (y * y) * (k * k);
    DivideOrder(0.0, k * q - s * s, k + 1.0);
  }

  /** Last value of the window, its distance from the mean. */
  ghost function Distance(ls: seq<real>, start: nat, i: nat): real
    requires start <= i < |ls|
  {
    ls[i] - Mean(ls, start, i + 1)
  }

  /** Distance and variance of one window, in the form that `ZOrder` compares. */
  lemma WindowDistance(ls: seq<real>, start: nat, i: nat)
    requires start < i < |ls|
    ensures var k, s, q := (i - start) as real, RangeSum(ls, start, i), RangeSum(Squares(ls), start, i);
            var e := Distance(ls, start, i);
            && e == (Times(k, ls[i]) - s) / (k + 1.0)
            && Times(e, e) + Residue(q, s, k) == Times(k, Variance(ls, start, i + 1))
  {
    var k, s, q := (i - start) as real, RangeSum(ls, start, i), RangeSum(Squares(ls), start, i);
    WindowTotals(ls, start, i);
    MeanDistance(s, ls[i], k);
    OwnDistance(q, s, ls[i], k);
  }

  lemma WindowTotals(ls: seq<real>, start: nat, i: nat)
    requires start < i < |ls|
    ensures var k, s, q := (i - start) as real, RangeSum(ls, start, i), RangeSum(Squares(ls), start, i);
            && Mean(ls, start, i + 1) == (s + ls[i]) / (k + 1.0)
            && Variance(ls, start, i + 1) == FromTotals(q + Times(ls[i], ls[i]), s + ls[i], k + 1.0)
  {
    VarianceFromSums(ls, start, i + 1);
    assert Squares(ls)[i] == Times(ls[i], ls[i]);
    assert (i + 1 - start) as real == (i - start) as real + 1.0;
  }

  lemma SquaresCausal(xs: seq<real>, ys: seq<real>, a: nat, b: nat)
    requires a <= b && AgreeTo(xs, ys, b)
    ensures RangeSum(Squares(xs), a, b) == RangeSum(Squares(ys), a, b)
  {
    assert forall k :: 0 <= k < b ==> Squares(xs)[k] == Times(xs[k], xs[k]) && Squares(ys)[k] == Times(xs[k], xs[k]);
    RangeSumCausal(Squares(xs), Squares(ys), a, b);
  }

  lemma DistanceRises(s: real, k: real, l: real, l': real)
    requires k > 0.0 && l <= l'
    ensures (Times(k, l) - s) / (k + 1.0) <= (Times(k, l') - s) / (k + 1.0)
  {
    assert k * l' - k * l == k * (l' - l);
    Products(0.0, k, 0.0, l' - l);
    DivideOrder(k * l - s, k * l' - s, k + 1.0);
  }

  /** With the signal defined on both sides, raising the last value does not lower it. */
  lemma ZRises(f: Maths, xs: seq<real>, ys: seq<real>, start: nat, i: nat)
    requires Lawful(f) && start < i && AgreeTo(xs, ys, i) && i < |xs| && i < |ys| && xs[i] <= ys[i]
    requires Variance(xs, start, i + 1) > 0.0 && Variance(ys, start, i + 1) > 0.0
    ensures f.sqrt(Variance(xs, start, i + 1)) > 0.0 && f.sqrt(Variance(ys, start, i + 1)) > 0.0
    ensures Distance(xs, start, i) / f.sqrt(Variance(xs, start, i + 1))
            <= Distance(ys, start, i) / f.sqrt(Variance(ys, start, i + 1))
  {
    var k := (i - start) as real;
    var s, q := RangeSum(xs, start, i), RangeSum(Squares(xs), start, i);
    RangeSumCausal(xs, ys, start, i);
    SquaresCausal(xs, ys, start, i);
    WindowDistance(xs, start, i);
    WindowDistance(ys, start, i);
    ResidueNonNegative(xs, start, i);
    DistanceRises(s, k, xs[i], ys[i]);
    ZOrderRoots(f, Distance(xs, start, i), Variance(xs, start, i + 1), Distance(ys, start, i),
                Variance(ys, start, i + 1), k, Residue(q, s, k));
  }

  lemma ZOrderRoots(f: Maths, e: real, v: real, e': real, v': real, k: real, c: real)
    requires Lawful(f) && k > 0.0 && c >= 0.0 && v > 0.0 && v' > 0.0 && e <= e'
    requires Times(e, e) + c == Times(k, v) && Times(e', e') + c == Times(k, v')
    ensures f.sqrt(v) > 0.0 && f.sqrt(v') > 0.0 && e / f.sqrt(v) <= e' / f.sqrt(v')
  {
    SqrtOf(f, v);
    SqrtOf(f, v');
    ZOrder(e, f.sqrt(v), e', f.sqrt(v'), k, c);
  }

  lemma ZScoreRises(f: Maths, ls: seq<real>, ks: seq<real>, i: nat, window: nat)
    requires Lawful(f) && window >= 2 && AgreeTo(ls, ks, i) && i < |ls| && i < |ks| && ls[i] <= ks[i]
    requires i + 1 >= window ==>
               Variance(ls, i + 1 - window, i + 1) > 0.0 && Variance(ks, i + 1 - window, i + 1) > 0.0
    ensures Rises(ZScore(ls[i], AverageAt(ls, i, window), StdAt(f.sqrt, ls, i, window, window)),
                  ZScore(ks[i], AverageAt(ks, i, window), StdAt(f.sqrt, ks, i, window, window)))
  {
    if i + 1 >= window { ZRises(f, ls, ks, i + 1 - window, i); }
  }

  lemma ShortZIs(f: Maths, m: Model, xs: seq<real>, i: nat)
    requires Usable(m) && i < |xs|
    ensures var ls := Logs(f, xs);
            SignalAt(f, m, ShortZ, xs, i)
            == ZScore(ls[i], AverageAt(ls, i, m.shortDeviation),
                      StdAt(f.sqrt, ls, i, m.shortDeviation, m.shortDeviation))
  {
  }

  lemma MovingLogs(f: Maths, xs: seq<real>, a: nat, b: nat)
    requires Lawful(f) && a < b <= |xs| && !Flat(xs, a, b) && forall k :: a <= k < b ==> xs[k] > 0.0
    ensures Variance(Logs(f, xs), a, b) > 0.0
  {
    FlatLogs(f, xs, a, b);
    VarianceZeroIff(Logs(f, xs), a, b);
  }

  lemma LogScoreRises(f: Maths, xs: seq<real>, ys: seq<real>, i: nat, window: nat)
    requires Lawful(f) && window >= 2 && LastRaised(xs, ys, i)
    requires !FlatTo(xs, i, window) && !FlatTo(ys, i, window)
    ensures var ls, ks := Logs(f, xs), Logs(f, ys);
            Rises(ZScore(ls[i], AverageAt(ls, i, window), StdAt(f.sqrt, ls, i, window, window)),
                  ZScore(ks[i], AverageAt(ks, i, window), StdAt(f.sqrt, ks, i, window, window)))
  {
    LnOrder(f, xs[i], ys[i]);
    if i + 1 >= window {
      MovingLogs(f, xs, i + 1 - window, i + 1);
      MovingLogs(f, ys, i + 1 - window, i + 1);
    }
    ZScoreRises(f, Logs(f, xs), Logs(f, ys), i, window);
  }

  /** Raising the last price never lowers the short deviation, except where one of the two prices, and only
      one, makes the whole window flat: there the signal appears or disappears. */
  lemma ShortZRisesIff(f: Maths, m: Model, xs: seq<real>, ys: seq<real>, i: nat)
    requires Lawful(f) && Usable(m) && LastRaised(xs, ys, i)
    ensures Rises(SignalAt(f, m, ShortZ, xs, i), SignalAt(f, m, ShortZ, ys, i)) <==>
              (FlatTo(xs, i, m.shortDeviation) <==> FlatTo(ys, i, m.shortDeviation))
  {
    ShortZDefinedIff(f, m, xs, i);
    ShortZDefinedIff(f, m, ys, i);
    if !FlatTo(xs, i, m.shortDeviation) && !FlatTo(ys, i, m.shortDeviation) {
      ShortZIs(f, m, xs, i);
      ShortZIs(f, m, ys, i);
      LogScoreRises(f, xs, ys, i, m.shortDeviation);
    }
  }

  // ---- averages of nested windows ----

  lemma PiRises(xs: seq<real>, ys: seq<real>, i: nat, short: nat, long: nat)
    requires LastRaised(xs, ys, i) && 1 <= short <= long
    ensures Rises(PiRatio(AverageAt(xs, i, short), AverageAt(xs, i, long)),
                  PiRatio(AverageAt(ys, i, short), AverageAt(ys, i, long)))
  {
    if i + 1 >= long {
      var a, b := i + 1 - short, i + 1 - long;
      assert WindowStart(i, short) == a && WindowStart(i, long) == b;
      Appended(xs, ys, a, i);
      Appended(xs, ys, b, i);
      RangeSplit(xs, b, a, i);
      RangeSumNonNegative(xs, b, a);
      NestedRatio(RangeSum(xs, a, i), RangeSum(xs, b, i), short as real, long as real, xs[i], ys[i]);
    }
  }

  lemma NestedCross(a: real, b: real, p: real, p': real)
    requires a <= b && p <= p'
    ensures Times(a + p, b + p') <= Times(a + p', b + p)
  {
    Products(0.0, p' - p, 0.0, b - a);
    assert (a + p') * (b + p) - (a + p) * (b + p') == (p' - p) * (b - a);
  }

  /** Dividing both sides of a cross product by the same lengths keeps its order. */
  lemma ScaledCross(a: real, a': real, b: real, b': real, n: real, k: real)
    requires n > 0.0 && k > 0.0 && Times(a, b') <= Times(a', b)
    ensures Times(a / n, b' / k) <= Times(a' / n, b / k)
  {
    var x, x', y, y' := a / n, a' / n, b / k, b' / k;
    assert x * n == a && x' * n == a' && y * k == b && y' * k == b';
    assert a * b' == (n * k) * (x * y');
    assert a' * b == (n * k) * (x' * y);
    assert n * k > 0.0;
    Cancel(n * k, x * y', x' * y);
  }

  lemma NestedRatio(a: real, b: real, n: real, k: real, p: real, p': real)
    requires 0.0 <= a <= b && n > 0.0 && k > 0.0 && 0.0 < p <= p'
    ensures (b + p) / k > 0.0 && (b + p') / k > 0.0
    ensures ((a + p) / n) / (2.0 * ((b + p) / k)) <= ((a + p') / n) / (2.0 * ((b + p') / k))
  {
    NestedCross(a, b, p, p');
    ScaledCross(a + p, a + p', b + p, b + p', n, k);
    RatioPositive(b + p, k);
    RatioPositive(b + p', k);
    HalfCross((a + p) / n, (b + p) / k, (a + p') / n, (b + p') / k);
  }

  lemma HalfCross(x: real, y: real, x': real, y': real)
    requires y > 0.0 && y' > 0.0 && Times(x, y') <= Times(x', y)
    ensures x / (2.0 * y) <= x' / (2.0 * y')
  {
    assert x * (2.0 * y') == 2.0 * (x * y') && x' * (2.0 * y) == 2.0 * (x' * y);
    CrossDivide(x, 2.0 * y, x', 2.0 * y');
  }

  lemma UpperRises(xs: seq<real>, ys: seq<real>, i: nat, window: nat, multiplier: real)
    requires LastRaised(xs, ys, i) && window >= 1 && multiplier > 0.0
    ensures Rises(UpperRatio(xs[i], multiplier, AverageAt(xs, i, window)),
                  UpperRatio(ys[i], multiplier, AverageAt(ys, i, window)))
  {
    AverageRises(xs, ys, i, window);
    if AverageAt(xs, i, window).Some? {
      ScaledRatio(xs[i], AverageAt(xs, i, window).value, ys[i], AverageAt(ys, i, window).value, multiplier);
    }
  }

  lemma ScaledRatio(p: real, a: real, q: real, b: real, multiplier: real)
    requires a > 0.0 && b > 0.0 && multiplier > 0.0 && Ratio(p, a) <= Ratio(q, b)
    ensures Times(multiplier, a) > 0.0 && Times(multiplier, b) > 0.0
    ensures Ratio(p, Times(multiplier, a)) <= Ratio(q, Times(multiplier, b))
  {
    CrossDivide(p, a, q, b);
    assert p * (multiplier * b) == multiplier * (p * b) && q * (multiplier * a) == multiplier * (q * a);
    assert multiplier * (p * b) <= multiplier * (q * a);
    CrossDivide(p, multiplier * a, q, multiplier * b);
  }

  // ---- all signals ----

  lemma TrendRises(f: Maths, m: Model, xs: seq<real>, ys: seq<real>, i: nat, window: nat)
    requires Lawful(f) && Usable(m) && LastRaised(xs, ys, i) && window >= 1
    ensures Rises(
      NormalizedLogRatio(f, xs[i], AverageAt(xs, i, window), VolatilityBefore(f, m, xs, i), m.volatilityFloor),
      NormalizedLogRatio(f, ys[i], AverageAt(ys, i, window), VolatilityBefore(f, m, ys, i), m.volatilityFloor))
  {
    VolatilityCausal(f, m, xs, ys, i);
    AverageRises(xs, ys, i, window);
    LogRatioRises(f, xs[i], ys[i], AverageAt(xs, i, window), AverageAt(ys, i, window),
                  VolatilityBefore(f, m, xs, i), m.volatilityFloor);
  }

  lemma DrawdownRises(f: Maths, m: Model, xs: seq<real>, ys: seq<real>, i: nat, window: nat, minimum: nat)
    requires Lawful(f) && Usable(m) && LastRaised(xs, ys, i) && window >= 1
    ensures Rises(
      NormalizedLogRatio(f, xs[i], MaxAt(xs, i, window, minimum), VolatilityBefore(f, m, xs, i), m.volatilityFloor),
      NormalizedLogRatio(f, ys[i], MaxAt(ys, i, window, minimum), VolatilityBefore(f, m, ys, i), m.volatilityFloor))
  {
    VolatilityCausal(f, m, xs, ys, i);
    MaxRises(xs, ys, i, window, minimum);
    LogRatioRises(f, xs[i], ys[i], MaxAt(xs, i, window, minimum), MaxAt(ys, i, window, minimum),
                  VolatilityBefore(f, m, xs, i), m.volatilityFloor);
  }

  lemma MomentumRises(f: Maths, m: Model, xs: seq<real>, ys: seq<real>, i: nat, days: nat)
    requires Lawful(f) && Usable(m) && LastRaised(xs, ys, i) && days >= 1
    ensures Rises(
      StandardizedReturn(f, xs[i], PriceBefore(xs, i, days), VolatilityBefore(f, m, xs, i), days, m.volatilityFloor),
      StandardizedReturn(f, ys[i], PriceBefore(ys, i, days), VolatilityBefore(f, m, ys, i), days, m.volatilityFloor))
  {
    VolatilityCausal(f, m, xs, ys, i);
    ReturnRises(f, xs[i], ys[i], PriceBefore(xs, i, days), VolatilityBefore(f, m, xs, i), days, m.volatilityFloor);
  }

  /** What keeps a signal from falling when the last price rises. */
  ghost predicate Steady(m: Model, s: Signal, xs: seq<real>, ys: seq<real>, i: nat)
    requires Usable(m)
  {
    && (s == PiCycle ==> m.piShort <= m.piLong)
    && (s == ShortZ ==> (FlatTo(xs, i, m.shortDeviation) <==> FlatTo(ys, i, m.shortDeviation)))
  }

  /** Raising only the last price never lowers a signal on that day and never changes whether it exists. */
  lemma SignalRises(f: Maths, m: Model, s: Signal, xs: seq<real>, ys: seq<real>, i: nat)
    requires Lawful(f) && Usable(m) && LastRaised(xs, ys, i) && Steady(m, s, xs, ys, i)
    ensures Rises(SignalAt(f, m, s, xs, i), SignalAt(f, m, s, ys, i))
  {
    match s
    case TrendBase => TrendRises(f, m, xs, ys, i, m.trendBase);
    case TrendLong => TrendRises(f, m, xs, ys, i, m.trendLong);
    case TrendCycle => TrendRises(f, m, xs, ys, i, m.trendCycle);
    case TrendMid => TrendRises(f, m, xs, ys, i, m.trendMid);
    case TrendShort => TrendRises(f, m, xs, ys, i, m.trendShort);
    case DrawdownLocal => DrawdownRises(f, m, xs, ys, i, m.drawdownWindow, m.drawdownMinimum);
    case DrawdownRegime => DrawdownRises(f, m, xs, ys, i, m.adaptiveWindow, m.regimeMinimum);
    case MomentumShort => MomentumRises(f, m, xs, ys, i, m.momentumShort);
    case MomentumLong => MomentumRises(f, m, xs, ys, i, m.momentumLong);
    case RelativeStrength => RsiRises(xs, ys, i, m.rsiPeriod);
    case ShortZ => ShortZRisesIff(f, m, xs, ys, i);
    case PiCycle => PiRises(xs, ys, i, m.piShort, m.piLong);
    case TwoYearUpper => UpperRises(xs, ys, i, m.trendLong, m.twoYearMultiplier);
  }
}

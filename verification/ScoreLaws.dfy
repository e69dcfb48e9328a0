/** Laws of the score over whole series: no look-ahead, agreement of the two implementations, bounds. */
module ScoreLaws {
  import opened Maths
  import opened PowerLaw
  import opened Rolling
  import opened Rsi
  import opened Score
  import opened Signals
  import opened Sums

  // ---- no look-ahead: what day i reads lies at or before day i ----

  ghost predicate AgreeTo(xs: seq<real>, ys: seq<real>, n: nat)
  {
    n <= |xs| && n <= |ys| && forall k :: 0 <= k < n ==> xs[k] == ys[k]
  }

  lemma {:induction false} RangeSumCausal(xs: seq<real>, ys: seq<real>, a: nat, b: nat)
    requires a <= b && AgreeTo(xs, ys, b)
    ensures RangeSum(xs, a, b) == RangeSum(ys, a, b)
  {
    if a < b { RangeSumCausal(xs, ys, a, b - 1); }
  }

  lemma {:induction false} DeviationsCausal(xs: seq<real>, ys: seq<real>, a: nat, b: nat, m: real)
    requires a <= b && AgreeTo(xs, ys, b)
    ensures SquaredDeviations(xs, a, b, m) == SquaredDeviations(ys, a, b, m)
  {
    if a < b { DeviationsCausal(xs, ys, a, b - 1, m); }
  }

  lemma AverageCausal(xs: seq<real>, ys: seq<real>, i: nat, window: nat)
    requires window >= 1 && AgreeTo(xs, ys, i + 1)
    ensures AverageAt(xs, i, window) == AverageAt(ys, i, window)
  {
    RangeSumCausal(xs, ys, WindowStart(i, window), i + 1);
  }

  lemma VarianceCausal(xs: seq<real>, ys: seq<real>, a: nat, b: nat)
    requires a < b && AgreeTo(xs, ys, b)
    ensures Variance(xs, a, b) == Variance(ys, a, b)
  {
    RangeSumCausal(xs, ys, a, b);
    DeviationsCausal(xs, ys, a, b, Mean(xs, a, b));
  }

  lemma {:induction false} RangeMaxCausal(xs: seq<real>, ys: seq<real>, a: nat, b: nat)
    requires a < b && AgreeTo(xs, ys, b)
    ensures RangeMax(xs, a, b) == RangeMax(ys, a, b)
  {
    if a + 1 < b { RangeMaxCausal(xs, ys, a, b - 1); }
  }

  lemma {:induction false} SmoothedCausal(xs: seq<real>, ys: seq<real>, period: nat, c: nat)
    requires 1 <= period <= c + 1 && AgreeTo(xs, ys, c + 1)
    ensures Smoothed(xs, period, c) == Smoothed(ys, period, c)
  {
    if c + 1 == period { RangeSumCausal(xs, ys, 0, period); } else { SmoothedCausal(xs, ys, period, c - 1); }
  }

  lemma RsiCausal(xs: seq<real>, ys: seq<real>, i: nat, period: nat)
    requires period >= 1 && AgreeTo(xs, ys, i + 1)
    ensures RsiAt(xs, i, period) == RsiAt(ys, i, period)
  {
    if i >= period {
      SmoothedCausal(Gains(xs), Gains(ys), period, i - 1);
      SmoothedCausal(Losses(xs), Losses(ys), period, i - 1);
    }
  }

  lemma VolatilityCausal(f: Maths, m: Model, xs: seq<real>, ys: seq<real>, i: nat)
    requires Usable(m) && AgreeTo(xs, ys, i) && i < |xs| && i < |ys|
    ensures VolatilityBefore(f, m, xs, i) == VolatilityBefore(f, m, ys, i)
  {
    if i > 1 {
      var start := Later(1, WindowStart(i - 1, m.volatilityWindow));
      VarianceCausal(LogReturns(f.ln, xs), LogReturns(f.ln, ys), start, i);
    }
  }

  lemma StdCausal(f: Maths, xs: seq<real>, ys: seq<real>, i: nat, window: nat)
    requires window >= 1 && AgreeTo(xs, ys, i + 1)
    ensures StdAt(f.sqrt, xs, i, window, window) == StdAt(f.sqrt, ys, i, window, window)
  {
    VarianceCausal(xs, ys, WindowStart(i, window), i + 1);
  }

  lemma AveragesCausal(m: Model, xs: seq<real>, ys: seq<real>, i: nat)
    requires Usable(m) && AgreeTo(xs, ys, i + 1)
    ensures AverageAt(xs, i, m.trendShort) == AverageAt(ys, i, m.trendShort)
    ensures AverageAt(xs, i, m.piShort) == AverageAt(ys, i, m.piShort)
    ensures AverageAt(xs, i, m.trendBase) == AverageAt(ys, i, m.trendBase)
    ensures AverageAt(xs, i, m.piLong) == AverageAt(ys, i, m.piLong)
    ensures AverageAt(xs, i, m.trendMid) == AverageAt(ys, i, m.trendMid)
    ensures AverageAt(xs, i, m.trendLong) == AverageAt(ys, i, m.trendLong)
    ensures AverageAt(xs, i, m.trendCycle) == AverageAt(ys, i, m.trendCycle)
  {
    AverageCausal(xs, ys, i, m.trendShort);
    AverageCausal(xs, ys, i, m.piShort);
    AverageCausal(xs, ys, i, m.trendBase);
    AverageCausal(xs, ys, i, m.piLong);
    AverageCausal(xs, ys, i, m.trendMid);
    AverageCausal(xs, ys, i, m.trendLong);
    AverageCausal(xs, ys, i, m.trendCycle);
  }

  lemma HighCausal(xs: seq<real>, ys: seq<real>, i: nat, window: nat, minimum: nat)
    requires window >= 1 && AgreeTo(xs, ys, i + 1)
    ensures MaxAt(xs, i, window, minimum) == MaxAt(ys, i, window, minimum)
  {
    RangeMaxCausal(xs, ys, WindowStart(i, window), i + 1);
  }

  lemma LogsCausal(f: Maths, xs: seq<real>, ys: seq<real>, i: nat, window: nat)
    requires window >= 1 && AgreeTo(xs, ys, i + 1)
    ensures AverageAt(Logs(f, xs), i, window) == AverageAt(Logs(f, ys), i, window)
    ensures StdAt(f.sqrt, Logs(f, xs), i, window, window) == StdAt(f.sqrt, Logs(f, ys), i, window, window)
  {
    AverageCausal(Logs(f, xs), Logs(f, ys), i, window);
    StdCausal(f, Logs(f, xs), Logs(f, ys), i, window);
  }

  lemma InputsCausal(f: Maths, m: Model, xs: seq<real>, ys: seq<real>, i: nat)
    requires Usable(m) && AgreeTo(xs, ys, i + 1)
    ensures InputsAt(f, m, xs, i) == InputsAt(f, m, ys, i)
  {
    VolatilityCausal(f, m, xs, ys, i);
    AveragesCausal(m, xs, ys, i);
    LogsCausal(f, xs, ys, i, m.shortDeviation);
    HighCausal(xs, ys, i, m.drawdownWindow, m.drawdownMinimum);
    HighCausal(xs, ys, i, m.adaptiveWindow, m.regimeMinimum);
    RsiCausal(xs, ys, i, m.rsiPeriod);
  }

  /** Every signal of day `i` depends on prices up to day `i` alone. */
  lemma SignalCausal(f: Maths, m: Model, s: Signal, xs: seq<real>, ys: seq<real>, i: nat)
    requires Usable(m) && AgreeTo(xs, ys, i + 1)
    ensures SignalAt(f, m, s, xs, i) == SignalAt(f, m, s, ys, i)
  {
    InputsCausal(f, m, xs, ys, i);
  }

  /** Earlier signals agree, as series. */
  lemma HistoryCausal(f: Maths, m: Model, s: Signal, xs: seq<real>, ys: seq<real>, a: nat, i: nat)
    requires Usable(m) && AgreeTo(xs, ys, i) && a <= i
    ensures SignalSeries(f, m, s, xs)[a..i] == SignalSeries(f, m, s, ys)[a..i]
  {
    forall j | 0 <= j < i ensures SignalSeries(f, m, s, xs)[j] == SignalSeries(f, m, s, ys)[j] {
      SignalCausal(f, m, s, xs, ys, j);
    }
  }

  /** The percentile looks at one value and at the window before it. */
  lemma SamePercentile(one: seq<Option<real>>, other: seq<Option<real>>, i: nat, window: nat, minimum: nat)
    requires minimum >= 1 && i < |one| && i < |other| && one[i] == other[i]
    requires var start := if i <= window then 0 else i - window; one[start..i] == other[start..i]
    ensures CheapnessPercentile(one, i, window, minimum) == CheapnessPercentile(other, i, window, minimum)
  {
  }

  lemma PercentileCausal(f: Maths, m: Model, s: Signal, xs: seq<real>, ys: seq<real>, i: nat)
    requires Usable(m) && AgreeTo(xs, ys, i + 1)
    ensures PercentileAt(f, m, s, xs, i) == PercentileAt(f, m, s, ys, i)
  {
    var one, other := SignalSeries(f, m, s, xs), SignalSeries(f, m, s, ys);
    HistoryCausal(f, m, s, xs, ys, if i <= m.adaptiveWindow then 0 else i - m.adaptiveWindow, i);
    assert one[i] == other[i] by { SignalCausal(f, m, s, xs, ys, i); }
    SamePercentile(one, other, i, m.adaptiveWindow, m.adaptiveMinimum);
  }

  lemma ReadingsCausal(f: Maths, m: Model, dated: seq<Dated>, k: nat, i: nat)
    requires Usable(m) && i < k <= |dated|
    ensures ReadingsAt(f, m, dated[..k], i) == ReadingsAt(f, m, dated, i)
  {
    var xs, ys := Prices(dated[..k]), Prices(dated);
    forall s: Signal ensures PercentileAt(f, m, s, xs, i) == PercentileAt(f, m, s, ys, i) {
      PercentileCausal(f, m, s, xs, ys, i);
    }
    assert xs[..i] == ys[..i];
    assert dated[..k][..i + 1] == dated[..i + 1];
  }

  /** No look-ahead: the score of day `i` is the same in every continuation of the history. */
  lemma NoLookAhead(f: Maths, m: Model, w: Weights, dated: seq<Dated>, k: nat, i: nat)
    requires Usable(m) && i < k <= |dated|
    ensures ScoreAt(f, m, w, dated[..k], i) == ScoreAt(f, m, w, dated, i)
  {
    ReadingsCausal(f, m, dated, k, i);
  }

  // ---- the two implementations agree ----

  lemma CutIsPrefix(dated: seq<Dated>, i: nat)
    requires Ordered(dated) && i < |dated|
    ensures CutAt(dated, dated[i].day, dated[i].price) == dated[..i + 1]
  {
    KeepPrefix(dated, i + 1, NotAfter(dated[i].day));
    assert dated[..i + 1][..i] + [dated[i]] == dated[..i + 1];
  }

  /** The score that the one-day calculation gives for day `i` of the history is the entry of the series. */
  lemma ImplementationsAgree(f: Maths, m: Model, w: Weights, dated: seq<Dated>, i: nat)
    requires Usable(m) && Ordered(dated) && i < |dated|
    ensures var cut := CutAt(dated, dated[i].day, dated[i].price);
            |cut| == i + 1 && ScoreAt(f, m, w, cut, |cut| - 1) == ScoreAt(f, m, w, dated, i)
  {
    CutIsPrefix(dated, i);
    NoLookAhead(f, m, w, dated, i + 1, i);
  }

  /** Both programs on one history: the series agrees with the one-day calculation on every day. */
  method CompareImplementations(f: Maths, m: Model, w: Weights, dated: seq<Dated>, i: nat)
    returns (inSeries: Option<real>, alone: Option<real>)
    requires Usable(m) && Ordered(dated) && i < |dated|
    ensures inSeries == alone == ScoreAt(f, m, w, dated, i)
  {
    var scores := MainScoreSeries(f, m, w, dated);
    inSeries := scores[i];
    alone := CalculateScore(f, m, w, dated, dated[i].price, dated[i].day);
    ImplementationsAgree(f, m, w, dated, i);
  }

  // ---- bounds ----

  predicate InRange(value: Option<real>) { value.Some? ==> 0.0 <= value.value <= 100.0 }

  lemma QuotientInRange(a: real, b: real)
    requires b > 0.0 && 0.0 <= a <= 100.0 * b
    ensures 0.0 <= a / b <= 100.0
  {
  }

  lemma ShareInRange(part: nat, whole: nat)
    requires part <= whole && whole > 0
    ensures 0.0 <= Share(part, whole) <= 100.0
  {
    QuotientInRange(100.0 * part as real, whole as real);
  }

  lemma PercentileInRange(series: seq<Option<real>>, i: nat, window: nat, minimum: nat)
    requires minimum >= 1
    ensures InRange(CheapnessPercentile(series, i, window, minimum))
  {
    if CheapnessPercentile(series, i, window, minimum).Some? {
      var history := Known(series[if i <= window then 0 else i - window..i]);
      ShareInRange(CountAtLeast(history, series[i].value), |history|);
    }
  }

  lemma RankInRange(current: real, prior: seq<real>, window: nat, minimum: nat)
    requires minimum >= 1
    ensures InRange(RollingPercentileCurrent(current, prior, window, minimum))
  {
    if RollingPercentileCurrent(current, prior, window, minimum).Some? {
      var history := if |prior| > window then prior[|prior| - window..] else prior;
      ShareInRange(CountAtMost(history, current), |history|);
    }
  }

  lemma TermInRange(value: real, weight: real)
    requires 0.0 <= value <= 100.0 && weight > 0.0
    ensures 0.0 <= Times(value, weight) <= 100.0 * weight
  {
    Products(0.0, value, weight, weight);
    Products(value, 100.0, weight, weight);
  }

  lemma {:induction false} SumInRange(items: seq<Weighted>)
    requires forall i :: 0 <= i < |items| ==> InRange(items[i].value)
    ensures 0.0 <= WeightedSum(items) <= 100.0 * UsableWeight(items)
  {
    if items != [] {
      var n := |items| - 1;
      SumInRange(items[..n]);
      if Counts(items[n]) {
        assert InRange(items[n].value);
        TermInRange(items[n].value.value, items[n].weight);
      }
    }
  }

  lemma AverageInRange(items: seq<Weighted>)
    requires forall i :: 0 <= i < |items| ==> InRange(items[i].value)
    ensures InRange(WeightedAverage(items))
  {
    SumInRange(items);
    if UsableWeight(items) > 0.0 { QuotientInRange(WeightedSum(items), UsableWeight(items)); }
  }

  lemma {:induction false} SegmentInRange(value: real, curve: seq<(real, real)>, k: nat)
    requires IsCurve(curve) && k + 1 < |curve| && curve[k].0 <= value < curve[|curve| - 1].0
    ensures 0.0 <= Segment(value, curve, k) <= 100.0
    decreases |curve| - k
  {
    if value > curve[k + 1].0 { SegmentInRange(value, curve, k + 1); }
  }

  lemma PowerLawInRange(price: real, fair: Option<real>)
    ensures InRange(PowerLawScore(price, fair))
  {
    if fair.Some? && fair.value > 0.0 {
      var ratio := Ratio(price, fair.value);
      if POWER_LAW_CURVE[0].0 < ratio < POWER_LAW_CURVE[|POWER_LAW_CURVE| - 1].0 {
        SegmentInRange(ratio, POWER_LAW_CURVE, 0);
      }
    }
  }

  ghost predicate AllInRange(r: Readings) { forall k: Indicator :: InRange(Reading(r, k)) }

  lemma ReadingIs(f: Maths, m: Model, dated: seq<Dated>, i: nat, s: Signal)
    requires Usable(m) && i < |dated|
    ensures Reading(ReadingsAt(f, m, dated, i), Percentile(s)) == PercentileAt(f, m, s, Prices(dated), i)
  {
  }

  lemma SignalPercentileInRange(f: Maths, m: Model, s: Signal, xs: seq<real>, i: nat)
    requires Usable(m)
    ensures InRange(PercentileAt(f, m, s, xs, i))
  {
    PercentileInRange(SignalSeries(f, m, s, xs), i, m.adaptiveWindow, m.adaptiveMinimum);
  }

  lemma ReadingsInRange(f: Maths, m: Model, dated: seq<Dated>, i: nat)
    requires Usable(m) && i < |dated|
    ensures AllInRange(ReadingsAt(f, m, dated, i))
  {
    forall k: Indicator ensures InRange(Reading(ReadingsAt(f, m, dated, i), k)) {
      match k
      case Percentile(s) =>
        ReadingIs(f, m, dated, i, s);
        SignalPercentileInRange(f, m, s, Prices(dated), i);
      case PricePercentile =>
        RankInRange(dated[i].price, Prices(dated)[..i], m.percentileWindow, m.percentileMinimum);
      case PowerLaw => PowerLawInRange(dated[i].price, FairAt(f, dated, i, m.powerLawMinimum));
    }
  }

  /** Every component, and the weighted total before clamping, lies in 0..100: the clamp never bites. */
  lemma TotalInRange(w: Weights, r: Readings)
    requires AllInRange(r)
    ensures forall c: Component :: InRange(WeightedAverage(ComponentItems(w, c, r)))
    ensures InRange(WeightedAverage(TotalItems(w, r)))
    ensures TotalScore(w, r) == WeightedAverage(TotalItems(w, r))
  {
    forall c: Component ensures InRange(WeightedAverage(ComponentItems(w, c, r))) {
      AverageInRange(ComponentItems(w, c, r));
    }
    AverageInRange(TotalItems(w, r));
  }

  /** Every defined score lies in 0..100, and clamping never changes it. */
  lemma ScoreInRange(f: Maths, m: Model, w: Weights, dated: seq<Dated>, i: nat)
    requires Usable(m) && i < |dated|
    ensures InRange(ScoreAt(f, m, w, dated, i))
    ensures i + 1 >= m.minimumHistory ==>
              ScoreAt(f, m, w, dated, i) == WeightedAverage(TotalItems(w, ReadingsAt(f, m, dated, i)))
  {
    ReadingsInRange(f, m, dated, i);
    TotalInRange(w, ReadingsAt(f, m, dated, i));
  }
}

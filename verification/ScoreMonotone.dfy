/** The score never rises when only the current price is raised, given nested pi averages: the proof, with the
    exact condition on the short deviation. */
module ScoreMonotone {
  import opened Maths
  import opened PowerLaw
  import opened Score
  import opened ScoreLaws
  import opened SignalOrder
  import opened Signals
  import opened Sums

  // ---- percentiles ----

  lemma {:induction false} CountAtLeastFalls(xs: seq<real>, low: real, high: real)
    requires low <= high
    ensures CountAtLeast(xs, high) <= CountAtLeast(xs, low)
  {
    if xs != [] { CountAtLeastFalls(xs[..|xs| - 1], low, high); }
  }

  lemma {:induction false} CountAtMostRises(xs: seq<real>, low: real, high: real)
    requires low <= high
    ensures CountAtMost(xs, low) <= CountAtMost(xs, high)
  {
    if xs != [] { CountAtMostRises(xs[..|xs| - 1], low, high); }
  }

  lemma ShareOrder(a: nat, b: nat, whole: nat)
    requires a <= b && whole > 0
    ensures Share(a, whole) <= Share(b, whole)
  {
    DivideOrder(100.0 * a as real, 100.0 * b as real, whole as real);
  }

  /** A higher current value on the same earlier values is not cheaper. */
  lemma PercentileFalls(one: seq<Option<real>>, other: seq<Option<real>>, i: nat, window: nat, minimum: nat)
    requires minimum >= 1 && i < |one| && i < |other| && Rises(one[i], other[i])
    requires var start := if i <= window then 0 else i - window; one[start..i] == other[start..i]
    ensures Rises(CheapnessPercentile(other, i, window, minimum), CheapnessPercentile(one, i, window, minimum))
  {
    var history := Known(one[if i <= window then 0 else i - window..i]);
    if one[i].Some? && |history| >= minimum {
      CountAtLeastFalls(history, one[i].value, other[i].value);
      ShareOrder(CountAtLeast(history, other[i].value), CountAtLeast(history, one[i].value), |history|);
    }
  }

  lemma SignalPercentileFalls(f: Maths, m: Model, s: Signal, xs: seq<real>, ys: seq<real>, i: nat)
    requires Usable(m) && LastRaised(xs, ys, i) && Rises(SignalAt(f, m, s, xs, i), SignalAt(f, m, s, ys, i))
    ensures Rises(PercentileAt(f, m, s, ys, i), PercentileAt(f, m, s, xs, i))
  {
    HistoryCausal(f, m, s, xs, ys, RankStart(m, i), i);
    PercentileFalls(SignalSeries(f, m, s, xs), SignalSeries(f, m, s, ys), i, m.adaptiveWindow, m.adaptiveMinimum);
  }

  /** The first day that day `i` is ranked against. */
  function RankStart(m: Model, i: nat): nat { if i <= m.adaptiveWindow then 0 else i - m.adaptiveWindow }

  /** Days from `a` to before `b` that end a full window with two different prices. */
  ghost function MovingDays(xs: seq<real>, a: nat, b: nat, window: nat): nat
  {
    if b <= a then 0
    else MovingDays(xs, a, b - 1, window) + if b >= window && !FlatTo(xs, b - 1, window) then 1 else 0
  }

  /** Enough earlier days have a short deviation to rank today's. */
  ghost predicate Ranked(m: Model, xs: seq<real>, i: nat)
  {
    MovingDays(xs, RankStart(m, i), i, m.shortDeviation) >= m.adaptiveMinimum
  }

  lemma KnownPush(series: seq<Option<real>>, a: nat, b: nat)
    requires a < b <= |series|
    ensures |Known(series[a..b])| == |Known(series[a..b - 1])| + if series[b - 1].Some? then 1 else 0
  {
    assert series[a..b][..b - 1 - a] == series[a..b - 1] && series[a..b][b - 1 - a] == series[b - 1];
  }

  lemma SeriesDefinedIff(f: Maths, m: Model, xs: seq<real>, i: nat)
    requires Lawful(f) && Usable(m) && i < |xs| && forall k :: 0 <= k <= i ==> xs[k] > 0.0
    ensures SignalSeries(f, m, ShortZ, xs)[i].Some? <==> i + 1 >= m.shortDeviation && !FlatTo(xs, i, m.shortDeviation)
  {
    ShortZDefinedIff(f, m, xs, i);
  }

  lemma KnownDay(f: Maths, m: Model, xs: seq<real>, series: seq<Option<real>>, a: nat, b: nat)
    requires Lawful(f) && Usable(m) && a < b <= |xs| && forall k :: 0 <= k < b ==> xs[k] > 0.0
    requires series == SignalSeries(f, m, ShortZ, xs)
    ensures |Known(series[a..b])| ==
            |Known(series[a..b - 1])| + if b >= m.shortDeviation && !FlatTo(xs, b - 1, m.shortDeviation) then 1 else 0
  {
    SeriesDefinedIff(f, m, xs, b - 1);
    KnownPush(series, a, b);
  }

  lemma {:induction false} KnownDays(f: Maths, m: Model, xs: seq<real>, series: seq<Option<real>>, a: nat, b: nat)
    requires Lawful(f) && Usable(m) && a <= b <= |xs| && forall k :: 0 <= k < b ==> xs[k] > 0.0
    requires series == SignalSeries(f, m, ShortZ, xs)
    ensures |Known(series[a..b])| == MovingDays(xs, a, b, m.shortDeviation)
  {
    if a < b {
      KnownDays(f, m, xs, series, a, b - 1);
      KnownDay(f, m, xs, series, a, b);
    }
  }

  lemma RankedCausal(f: Maths, m: Model, xs: seq<real>, ys: seq<real>, i: nat)
    requires Lawful(f) && Usable(m) && LastRaised(xs, ys, i)
    ensures Ranked(m, xs, i) <==> Ranked(m, ys, i)
  {
    HistoryCausal(f, m, ShortZ, xs, ys, RankStart(m, i), i);
    KnownDays(f, m, xs, SignalSeries(f, m, ShortZ, xs), RankStart(m, i), i);
    KnownDays(f, m, ys, SignalSeries(f, m, ShortZ, ys), RankStart(m, i), i);
  }

  /** When the percentile of the short deviation exists. */
  ghost predicate HasRank(m: Model, xs: seq<real>, i: nat)
  {
    Ranked(m, xs, i) && i + 1 >= m.shortDeviation && !FlatTo(xs, i, m.shortDeviation)
  }

  lemma RankDefinedIff(series: seq<Option<real>>, i: nat, start: nat, window: nat, minimum: nat)
    requires minimum >= 1 && i < |series| && start == if i <= window then 0 else i - window
    ensures CheapnessPercentile(series, i, window, minimum).Some? <==>
            series[i].Some? && |Known(series[start..i])| >= minimum
  {
  }

  lemma ShortPercentileDefinedIff(f: Maths, m: Model, xs: seq<real>, i: nat)
    requires Lawful(f) && Usable(m) && i < |xs| && forall k :: 0 <= k <= i ==> xs[k] > 0.0
    ensures PercentileAt(f, m, ShortZ, xs, i).Some? <==> HasRank(m, xs, i)
  {
    var series := SignalSeries(f, m, ShortZ, xs);
    RankDefinedIff(series, i, RankStart(m, i), m.adaptiveWindow, m.adaptiveMinimum);
    KnownDays(f, m, xs, series, RankStart(m, i), i);
    SeriesDefinedIff(f, m, xs, i);
  }

  /** No rank, or none or both of today's prices make the short window flat. */
  ghost predicate ShortSteady(m: Model, xs: seq<real>, ys: seq<real>, i: nat)
  {
    Ranked(m, xs, i) ==> (FlatTo(xs, i, m.shortDeviation) <==> FlatTo(ys, i, m.shortDeviation))
  }

  lemma ShortPercentileFalls(f: Maths, m: Model, xs: seq<real>, ys: seq<real>, i: nat)
    requires Lawful(f) && Usable(m) && LastRaised(xs, ys, i)
    requires FlatTo(xs, i, m.shortDeviation) <==> FlatTo(ys, i, m.shortDeviation)
    ensures Rises(PercentileAt(f, m, ShortZ, ys, i), PercentileAt(f, m, ShortZ, xs, i))
  {
    ShortZRisesIff(f, m, xs, ys, i);
    SignalPercentileFalls(f, m, ShortZ, xs, ys, i);
  }

  lemma SteadyMeansAlike(f: Maths, m: Model, xs: seq<real>, ys: seq<real>, i: nat)
    requires Lawful(f) && Usable(m) && LastRaised(xs, ys, i)
    ensures ShortSteady(m, xs, ys, i) <==> (HasRank(m, xs, i) <==> HasRank(m, ys, i))
  {
    RankedCausal(f, m, xs, ys, i);
  }

  /** The percentile of the short deviation never rises with the last price, exactly under that condition. */
  lemma ShortPercentileFallsIff(f: Maths, m: Model, xs: seq<real>, ys: seq<real>, i: nat)
    requires Lawful(f) && Usable(m) && LastRaised(xs, ys, i)
    ensures Rises(PercentileAt(f, m, ShortZ, ys, i), PercentileAt(f, m, ShortZ, xs, i)) <==> ShortSteady(m, xs, ys, i)
  {
    SteadyMeansAlike(f, m, xs, ys, i);
    ShortPercentileDefinedIff(f, m, xs, i);
    ShortPercentileDefinedIff(f, m, ys, i);
    if FlatTo(xs, i, m.shortDeviation) <==> FlatTo(ys, i, m.shortDeviation) {
      ShortPercentileFalls(f, m, xs, ys, i);
    }
  }

  lemma PricePercentileFalls(m: Model, xs: seq<real>, ys: seq<real>, i: nat)
    requires Usable(m) && LastRaised(xs, ys, i)
    ensures Rises(PricePercentileAt(m, ys, i), PricePercentileAt(m, xs, i))
  {
    var prior := xs[..i];
    assert ys[..i] == prior;
    var history := if i > m.percentileWindow then prior[i - m.percentileWindow..] else prior;
    if |history| >= m.percentileMinimum {
      CountAtMostRises(history, xs[i], ys[i]);
      ShareOrder(CountAtMost(history, xs[i]), CountAtMost(history, ys[i]), |history|);
    }
  }

  // ---- the power-law curve ----

  ghost predicate Falling(curve: seq<(real, real)>)
  {
    IsCurve(curve) && forall i, j :: 0 <= i < j < |curve| ==> curve[i].1 >= curve[j].1
  }

  lemma ClampOrder(a: real, b: real)
    requires a <= b
    ensures Clamp(a) <= Clamp(b)
  {
  }

  lemma NegTimes(a: real, b: real)
    ensures Times(-a, b) == -Times(a, b)
  {
  }

  lemma TimesOrder(k: real, a: real, b: real)
    requires k >= 0.0 && a <= b
    ensures Times(k, a) <= Times(k, b)
  {
    var d := b - a;
    assert k * d >= 0.0;
    assert k * b == k * a + k * d;
  }

  lemma TimesEnds(k: real)
    ensures Times(k, 0.0) == 0.0 && Times(k, 1.0) == k
  {
  }

  /** Moving down from `y` by a larger part of the drop ends no higher, and never below `y - drop`. */
  lemma PartialDrop(y: real, drop: real, t: real, t': real)
    requires drop >= 0.0 && 0.0 <= t <= t' <= 1.0
    ensures y - drop <= y + Times(-drop, t') <= y + Times(-drop, t) <= y
  {
    TimesOrder(drop, 0.0, t);
    TimesOrder(drop, t, t');
    TimesOrder(drop, t', 1.0);
    TimesEnds(drop);
    NegTimes(drop, t);
    NegTimes(drop, t');
  }

  /** On one falling segment: a larger value gives no higher score, and both stay between the ends. */
  lemma InterpolatedFalls(value: real, value': real, a: (real, real), b: (real, real))
    requires a.0 < b.0 && a.1 >= b.1 && a.0 <= value <= value' <= b.0
    ensures Clamp(b.1) <= Interpolated(value', a, b) <= Interpolated(value, a, b) <= Clamp(a.1)
  {
    var t, t' := (value - a.0) / (b.0 - a.0), (value' - a.0) / (b.0 - a.0);
    UnitFraction(value - a.0, b.0 - a.0);
    UnitFraction(value' - a.0, b.0 - a.0);
    DivideOrder(value - a.0, value' - a.0, b.0 - a.0);
    PartialDrop(a.1, a.1 - b.1, t, t');
    assert -(a.1 - b.1) == b.1 - a.1;
    ClampOrder(b.1, a.1 + Times(b.1 - a.1, t'));
    ClampOrder(a.1 + Times(b.1 - a.1, t'), a.1 + Times(b.1 - a.1, t));
    ClampOrder(a.1 + Times(b.1 - a.1, t), a.1);
  }

  lemma {:induction false} SegmentBounds(value: real, curve: seq<(real, real)>, k: nat)
    requires Falling(curve) && k + 1 < |curve| && curve[k].0 <= value < curve[|curve| - 1].0
    ensures Clamp(curve[|curve| - 1].1) <= Segment(value, curve, k) <= Clamp(curve[k].1)
    decreases |curve| - k
  {
    var last := curve[|curve| - 1].1;
    if value <= curve[k + 1].0 {
      InterpolatedFalls(value, value, curve[k], curve[k + 1]);
      if k + 1 < |curve| - 1 { ClampOrder(last, curve[k + 1].1); }
    } else {
      SegmentBounds(value, curve, k + 1);
      ClampOrder(curve[k + 1].1, curve[k].1);
    }
  }

  lemma {:induction false} SegmentFalls(value: real, value': real, curve: seq<(real, real)>, k: nat)
    requires Falling(curve) && k + 1 < |curve| && curve[k].0 <= value <= value' < curve[|curve| - 1].0
    ensures Segment(value', curve, k) <= Segment(value, curve, k)
    decreases |curve| - k
  {
    if value' <= curve[k + 1].0 {
      InterpolatedFalls(value, value', curve[k], curve[k + 1]);
    } else if value <= curve[k + 1].0 {
      SegmentBounds(value', curve, k + 1);
      InterpolatedFalls(value, value, curve[k], curve[k + 1]);
    } else {
      SegmentFalls(value, value', curve, k + 1);
    }
  }

  /** Interpolation through a falling curve never rises. */
  lemma PiecewiseFalls(value: real, value': real, curve: seq<(real, real)>)
    requires Falling(curve) && value <= value'
    ensures Piecewise(value', curve) <= Piecewise(value, curve)
  {
    var n := |curve| - 1;
    if n > 0 { ClampOrder(curve[n].1, curve[0].1); }
    if curve[0].0 < value < curve[n].0 { SegmentBounds(value, curve, 0); }
    if curve[0].0 < value' < curve[n].0 { SegmentBounds(value', curve, 0); }
    if curve[0].0 < value && value' < curve[n].0 { SegmentFalls(value, value', curve, 0); }
  }

  /** The price against its fair value rises with the price, although the price is part of the fit. */
  lemma FairRatioRises(f: Maths, dated: seq<Dated>, raised: seq<Dated>, i: nat, minimum: nat)
    requires Lawful(f) && LastDayRaised(dated, raised, i)
    ensures var a, b := FairAt(f, dated, i, minimum), FairAt(f, raised, i, minimum);
            && a.Some? == b.Some?
            && (a.Some? ==> a.value > 0.0 && b.value > 0.0
                            && Ratio(dated[i].price, a.value) <= Ratio(raised[i].price, b.value))
  {
    if Fits(dated[i]) {
      assert dated[..i + 1] == dated && raised[..i + 1] == raised && dated[..i] == raised[..i];
      PointsStep(f, dated, i);
      PointsStep(f, raised, i);
      var p, p', x := dated[i].price, raised[i].price, LnAge(f, dated[i].day);
      var xs, ys := Xs(f, dated[..i]), Ys(f, dated[..i]);
      LnOrder(f, p, p');
      ResidualRises(xs, ys, x, f.ln(p), f.ln(p'), minimum);
      var low, high := Fit(xs + [x], ys + [f.ln(p)], minimum), Fit(xs + [x], ys + [f.ln(p')], minimum);
      if low.Some? { RatioFromLogs(f, p, At(low.value, x), p', At(high.value, x)); }
    }
  }

  lemma RatioFromLogs(f: Maths, p: real, u: real, p': real, u': real)
    requires Lawful(f) && p > 0.0 && p' > 0.0 && f.ln(p) - u <= f.ln(p') - u'
    ensures f.exp(u) > 0.0 && f.exp(u') > 0.0 && Ratio(p, f.exp(u)) <= Ratio(p', f.exp(u'))
  {
    var a, b := f.exp(u), f.exp(u');
    assert a > 0.0 && b > 0.0 && f.ln(a) == u && f.ln(b) == u';
    LnQuotient(f, p, a);
    LnQuotient(f, p', b);
    RatioPositive(p, a);
    RatioPositive(p', b);
    LnOrder(f, Ratio(p, a), Ratio(p', b));
  }

  lemma PowerLawFalls(price: real, fair: Option<real>, price': real, fair': Option<real>)
    requires fair.Some? == fair'.Some?
    requires fair.Some? ==> fair.value > 0.0 && fair'.value > 0.0
    requires fair.Some? ==> Ratio(price, fair.value) <= Ratio(price', fair'.value)
    ensures Rises(PowerLawScore(price', fair'), PowerLawScore(price, fair))
  {
    if fair.Some? { PiecewiseFalls(Ratio(price, fair.value), Ratio(price', fair'.value), POWER_LAW_CURVE); }
  }

  // ---- weighted averages ----

  /** The same weight, and where it counts, no higher a value. */
  predicate ItemFalls(a: Weighted, b: Weighted)
  {
    a.weight == b.weight && (a.weight > 0.0 ==> Rises(b.value, a.value))
  }

  lemma {:induction false} SumsFall(as_: seq<Weighted>, bs: seq<Weighted>)
    requires |as_| == |bs| && forall i :: 0 <= i < |as_| ==> ItemFalls(as_[i], bs[i])
    ensures UsableWeight(as_) == UsableWeight(bs) && WeightedSum(bs) <= WeightedSum(as_)
  {
    if as_ != [] {
      var n := |as_| - 1;
      SumsFall(as_[..n], bs[..n]);
      assert ItemFalls(as_[n], bs[n]);
      if Counts(as_[n]) { TermOrder(bs[n].value.value, as_[n].value.value, as_[n].weight); }
    }
  }

  lemma TermOrder(a: real, b: real, w: real)
    requires a <= b && w >= 0.0
    ensures Times(a, w) <= Times(b, w)
  {
  }

  lemma AverageFalls(as_: seq<Weighted>, bs: seq<Weighted>)
    requires |as_| == |bs| && forall i :: 0 <= i < |as_| ==> ItemFalls(as_[i], bs[i])
    ensures Rises(WeightedAverage(bs), WeightedAverage(as_))
  {
    SumsFall(as_, bs);
    if UsableWeight(as_) > 0.0 { DivideOrder(WeightedSum(bs), WeightedSum(as_), UsableWeight(as_)); }
  }

  /** An indicator matters where both its own weight and its component's weight count. */
  predicate Matters(w: Weights, c: Component, k: Indicator)
  {
    ComponentWeight(w, c) > 0.0 && IndicatorWeight(w, c, k) > 0.0 && k in IndicatorsOf(c)
  }

  lemma TotalFalls(w: Weights, r: Readings, r': Readings)
    requires forall c: Component, k: Indicator :: Matters(w, c, k) ==> Rises(Reading(r', k), Reading(r, k))
    ensures Rises(TotalScore(w, r'), TotalScore(w, r))
  {
    forall i | 0 <= i < |COMPONENTS| ensures ItemFalls(TotalItems(w, r)[i], TotalItems(w, r')[i]) {
      var c := COMPONENTS[i];
      if ComponentWeight(w, c) > 0.0 {
        var items, items' := ComponentItems(w, c, r), ComponentItems(w, c, r');
        forall j | 0 <= j < |items| ensures ItemFalls(items[j], items'[j]) {
          var k := IndicatorsOf(c)[j];
          assert IndicatorWeight(w, c, k) > 0.0 ==> Matters(w, c, k);
        }
        AverageFalls(items, items');
      }
    }
    AverageFalls(TotalItems(w, r), TotalItems(w, r'));
    if TotalScore(w, r).Some? {
      ClampOrder(WeightedAverage(TotalItems(w, r')).value, WeightedAverage(TotalItems(w, r)).value);
    }
  }

  // ---- the score ----

  /** A dated history and the same with a last price that is not lower. */
  ghost predicate LastDayRaised(dated: seq<Dated>, raised: seq<Dated>, i: nat)
  {
    && |dated| == |raised| == i + 1
    && (forall k :: 0 <= k < i ==> dated[k] == raised[k])
    && (forall k :: 0 <= k <= i ==> dated[k].price > 0.0)
    && dated[i].day == raised[i].day && dated[i].price <= raised[i].price
  }

  /** Where a score exists and the short deviation matters in it, its percentile is steady. */
  ghost predicate ShortWindowSteady(m: Model, w: Weights, dated: seq<Dated>, raised: seq<Dated>, i: nat)
  {
    i + 1 >= m.minimumHistory && Matters(w, Deviation, Percentile(ShortZ)) ==>
      ShortSteady(m, Prices(dated), Prices(raised), i)
  }

  lemma PricesRaised(dated: seq<Dated>, raised: seq<Dated>, i: nat)
    requires LastDayRaised(dated, raised, i)
    ensures LastRaised(Prices(dated), Prices(raised), i)
  {
  }

  lemma ReadingsFall(f: Maths, m: Model, dated: seq<Dated>, raised: seq<Dated>, i: nat, k: Indicator)
    requires Lawful(f) && Usable(m) && m.piShort <= m.piLong && LastDayRaised(dated, raised, i)
    requires k == Percentile(ShortZ) ==> ShortSteady(m, Prices(dated), Prices(raised), i)
    ensures Rises(Reading(ReadingsAt(f, m, raised, i), k), Reading(ReadingsAt(f, m, dated, i), k))
  {
    PricesRaised(dated, raised, i);
    match k
    case Percentile(s) =>
      ReadingIs(f, m, dated, i, s);
      ReadingIs(f, m, raised, i, s);
      if s == ShortZ {
        ShortPercentileFallsIff(f, m, Prices(dated), Prices(raised), i);
      } else {
        SignalRises(f, m, s, Prices(dated), Prices(raised), i);
        SignalPercentileFalls(f, m, s, Prices(dated), Prices(raised), i);
      }
    case PricePercentile => PricePercentileFalls(m, Prices(dated), Prices(raised), i);
    case PowerLaw =>
      FairRatioRises(f, dated, raised, i, m.powerLawMinimum);
      PowerLawFalls(dated[i].price, FairAt(f, dated, i, m.powerLawMinimum),
                    raised[i].price, FairAt(f, raised, i, m.powerLawMinimum));
  }

  lemma ShortZIsDeviation(c: Component)
    requires Percentile(ShortZ) in IndicatorsOf(c)
    ensures c == Deviation
  {
    var j :| 0 <= j < |IndicatorsOf(c)| && IndicatorsOf(c)[j] == Percentile(ShortZ);
  }

  lemma MatterFalls(f: Maths, m: Model, w: Weights, dated: seq<Dated>, raised: seq<Dated>, i: nat, c: Component,
                    k: Indicator)
    requires Lawful(f) && Usable(m) && m.piShort <= m.piLong && i + 1 >= m.minimumHistory
    requires LastDayRaised(dated, raised, i) && ShortWindowSteady(m, w, dated, raised, i) && Matters(w, c, k)
    ensures Rises(Reading(ReadingsAt(f, m, raised, i), k), Reading(ReadingsAt(f, m, dated, i), k))
  {
    if k == Percentile(ShortZ) { ShortZIsDeviation(c); }
    ReadingsFall(f, m, dated, raised, i, k);
  }

  lemma AllFall(f: Maths, m: Model, w: Weights, dated: seq<Dated>, raised: seq<Dated>, i: nat)
    requires Lawful(f) && Usable(m) && m.piShort <= m.piLong && i + 1 >= m.minimumHistory
    requires LastDayRaised(dated, raised, i) && ShortWindowSteady(m, w, dated, raised, i)
    ensures Rises(TotalScore(w, ReadingsAt(f, m, raised, i)), TotalScore(w, ReadingsAt(f, m, dated, i)))
  {
    var r, r' := ReadingsAt(f, m, dated, i), ReadingsAt(f, m, raised, i);
    forall c: Component, k: Indicator | Matters(w, c, k) ensures Rises(Reading(r', k), Reading(r, k)) {
      MatterFalls(f, m, w, dated, raised, i, c, k);
    }
    TotalFalls(w, r, r');
  }

  /** With all earlier prices fixed, raising only the current price never raises the score and never makes it
      appear or disappear, provided the pi averages are nested. */
  lemma ScoreFalls(f: Maths, m: Model, w: Weights, dated: seq<Dated>, raised: seq<Dated>, i: nat)
    requires Lawful(f) && Usable(m) && m.piShort <= m.piLong
    requires LastDayRaised(dated, raised, i) && ShortWindowSteady(m, w, dated, raised, i)
    ensures Rises(ScoreAt(f, m, w, raised, i), ScoreAt(f, m, w, dated, i))
  {
    if i + 1 >= m.minimumHistory { AllFall(f, m, w, dated, raised, i); }
  }
}

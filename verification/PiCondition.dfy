/** The exact conditions: the score never rises with the current price when the pi averages are nested and, for
    one history under all weights, when not just one of the prices makes a ranked short window flat. */
module PiCondition {
  import opened Maths
  import opened PowerLaw
  import opened Rsi
  import opened Score
  import opened ScoreLaws
  import opened ScoreMonotone
  import opened SignalOrder
  import opened Signals
  import opened Sums

  /** The same history, once with today's price and once with one that is not lower. */
  ghost predicate RaisedToday(m: Model, w: Weights, dated: seq<Dated>, raised: seq<Dated>)
    requires Usable(m)
  {
    && dated != [] && Ordered(dated) && LastDayRaised(dated, raised, |dated| - 1)
    && ShortWindowSteady(m, w, dated, raised, |dated| - 1)
  }

  /** Under any weights, on any history, raising today's price never raises the score. */
  ghost predicate NeverRises(f: Maths, m: Model)
    requires Usable(m)
  {
    forall w: Weights, dated: seq<Dated>, raised: seq<Dated> :: RaisedToday(m, w, dated, raised) ==>
      Rises(ScoreAt(f, m, w, raised, |dated| - 1), ScoreAt(f, m, w, dated, |dated| - 1))
  }

  // ---- a weighted average of which only one item counts ----

  lemma {:induction false} NothingCounts(items: seq<Weighted>)
    requires forall j :: 0 <= j < |items| ==> !Counts(items[j])
    ensures UsableWeight(items) == 0.0 && WeightedSum(items) == 0.0
  {
    if items != [] { NothingCounts(items[..|items| - 1]); }
  }

  lemma {:induction false} OneCounts(items: seq<Weighted>, k: nat)
    requires k < |items| && Counts(items[k]) && forall j :: 0 <= j < |items| && j != k ==> !Counts(items[j])
    ensures UsableWeight(items) == items[k].weight
    ensures WeightedSum(items) == Times(items[k].value.value, items[k].weight)
  {
    var n := |items| - 1;
    if k == n { NothingCounts(items[..n]); } else { OneCounts(items[..n], k); }
  }

  lemma OnlyAverage(items: seq<Weighted>, k: nat)
    requires k < |items| && Counts(items[k]) && forall j :: 0 <= j < |items| && j != k ==> !Counts(items[j])
    requires items[k].weight == 1.0
    ensures WeightedAverage(items) == items[k].value
  {
    OneCounts(items, k);
  }

  /** A component in which the indicator has a place. */
  function Home(k: Indicator): (c: Component)
    ensures k in IndicatorsOf(c)
  {
    match k
    case PricePercentile => Range
    case PowerLaw => LongTerm
    case Percentile(s) =>
      match s
      case TrendBase => LongTerm
      case TrendLong => LongTerm
      case TrendCycle => LongTerm
      case TrendMid => Range
      case TrendShort => Deviation
      case DrawdownLocal => Drawdown
      case DrawdownRegime => Drawdown
      case MomentumShort => Momentum
      case MomentumLong => Momentum
      case RelativeStrength => Momentum
      case ShortZ => Deviation
      case PiCycle => Cycle
      case TwoYearUpper => Cycle
  }

  /** All weight on one indicator. */
  function Alone(k: Indicator): Weights { Weights(map[Home(k) := 1.0], map[(Home(k), k) := 1.0]) }

  lemma OnlyOrNone(items: seq<Weighted>, k: nat)
    requires k < |items| && items[k].weight == 1.0
    requires forall j :: 0 <= j < |items| && j != k ==> !Counts(items[j])
    ensures WeightedAverage(items) == items[k].value
  {
    if Counts(items[k]) { OnlyAverage(items, k); } else { NothingCounts(items); }
  }

  /** The place of a component in the list, and the only one. */
  function Place(c: Component): (n: nat)
    ensures n < |COMPONENTS| && COMPONENTS[n] == c
    ensures forall j :: 0 <= j < |COMPONENTS| && COMPONENTS[j] == c ==> j == n
  {
    match c
    case LongTerm => 0
    case Drawdown => 1
    case Range => 2
    case Deviation => 3
    case Momentum => 4
    case Cycle => 5
  }

  lemma AloneComponent(k: Indicator, r: Readings)
    ensures WeightedAverage(ComponentItems(Alone(k), Home(k), r)) == Reading(r, k)
  {
    var j :| 0 <= j < |IndicatorsOf(Home(k))| && IndicatorsOf(Home(k))[j] == k;
    OnlyOrNone(ComponentItems(Alone(k), Home(k), r), j);
  }

  /** With all weight on one indicator, the score is that indicator. */
  lemma AloneTotal(k: Indicator, r: Readings)
    requires InRange(Reading(r, k))
    ensures TotalScore(Alone(k), r) == Reading(r, k)
  {
    AloneComponent(k, r);
    OnlyOrNone(TotalItems(Alone(k), r), Place(Home(k)));
  }

  /** Weight on the pi cycle alone. */
  const PI_ONLY: Weights := Alone(Percentile(PiCycle))

  // ---- a flat history with one different last price ----

  function FlatHistory(n: nat, last: real): seq<Dated>
  {
    seq(n + 1, j requires 0 <= j <= n => Dated(j + 1, if j < n then 1.0 else last))
  }

  lemma FlatAverage(n: nat, last: real, j: nat, window: nat)
    requires 1 <= window <= j + 1 && j < n
    ensures AverageAt(Prices(FlatHistory(n, last)), j, window) == Some(1.0)
  {
    FlatMean(Prices(FlatHistory(n, last)), j + 1 - window, j + 1);
  }

  lemma LastAverage(n: nat, last: real, window: nat)
    requires 1 <= window <= n + 1
    ensures AverageAt(Prices(FlatHistory(n, last)), n, window) == Some(((window - 1) as real + last) / window as real)
  {
    FlatSum(Prices(FlatHistory(n, last)), n + 1 - window, n, 1.0);
  }

  /** One half on every earlier day with full windows. */
  lemma EarlierPi(f: Maths, m: Model, n: nat, last: real, j: nat)
    requires Usable(m) && m.piShort <= j + 1 && m.piLong <= j + 1 && j < n
    ensures SignalAt(f, m, PiCycle, Prices(FlatHistory(n, last)), j) == Some(0.5)
  {
    PiIs(f, m, Prices(FlatHistory(n, last)), j);
    FlatAverage(n, last, j, m.piShort);
    FlatAverage(n, last, j, m.piLong);
  }

  /** Which of two averages, over `s` and over `l` values, lies further on the side of the last value. */
  lemma InvertedCross(s: real, l: real, last: real)
    requires 1.0 <= l < s
    ensures last < 1.0 ==> Times((l - 1.0) + last, s) < Times((s - 1.0) + last, l)
    ensures last > 1.0 ==> Times((s - 1.0) + last, l) < Times((l - 1.0) + last, s)
  {
    var a, b := (s - 1.0) + last, (l - 1.0) + last;
    assert a * l - b * s == (1.0 - last) * (s - l) by {
      assert a * l == s * l - l + last * l && b * s == l * s - s + last * s;
      assert (1.0 - last) * (s - l) == s - l - last * s + last * l;
    }
    if last < 1.0 { StrictProducts(0.0, 1.0 - last, 0.0, s - l); }
    if last > 1.0 { StrictProducts(0.0, last - 1.0, 0.0, s - l); }
    assert (1.0 - last) * (s - l) == -((last - 1.0) * (s - l));
  }

  lemma HalfRatio(x: real, y: real)
    requires x > 0.0 && y > 0.0
    ensures y < x ==> x / (2.0 * y) > 0.5
    ensures x < y ==> x / (2.0 * y) < 0.5
  {
    CrossDivide(x, 2.0 * y, 1.0, 2.0);
    CrossDivide(1.0, 2.0, x, 2.0 * y);
  }

  lemma InvertedAverages(s: real, l: real, last: real)
    requires 1.0 <= l < s && last > 0.0
    ensures ((l - 1.0) + last) / l > 0.0
    ensures var ratio := (((s - 1.0) + last) / s) / (2.0 * (((l - 1.0) + last) / l));
            (last < 1.0 ==> ratio > 0.5) && (last > 1.0 ==> ratio < 0.5)
  {
    var a, b := (s - 1.0) + last, (l - 1.0) + last;
    RatioPositive(b, l);
    RatioPositive(a, s);
    CrossDivide(a, s, b, l);
    CrossDivide(b, l, a, s);
    InvertedCross(s, l, last);
    HalfRatio(a / s, b / l);
  }

  lemma PiIs(f: Maths, m: Model, xs: seq<real>, i: nat)
    requires Usable(m) && i < |xs|
    ensures SignalAt(f, m, PiCycle, xs, i) == PiRatio(AverageAt(xs, i, m.piShort), AverageAt(xs, i, m.piLong))
  {
  }

  lemma LastRatio(n: nat, last: real, short: nat, long: nat)
    requires 1 <= long < short <= n + 1 && last > 0.0
    ensures var xs := Prices(FlatHistory(n, last));
            var z := PiRatio(AverageAt(xs, n, short), AverageAt(xs, n, long));
            z.Some? && (last < 1.0 ==> z.value > 0.5) && (last > 1.0 ==> z.value < 0.5)
  {
    LastAverage(n, last, short);
    LastAverage(n, last, long);
    InvertedAverages(short as real, long as real, last);
  }

  lemma LastPi(f: Maths, m: Model, n: nat, last: real)
    requires Usable(m) && m.piLong < m.piShort <= n + 1 && last > 0.0
    ensures var z := SignalAt(f, m, PiCycle, Prices(FlatHistory(n, last)), n);
            z.Some? && (last < 1.0 ==> z.value > 0.5) && (last > 1.0 ==> z.value < 0.5)
  {
    PiIs(f, m, Prices(FlatHistory(n, last)), n);
    LastRatio(n, last, m.piShort, m.piLong);
  }

  lemma {:induction false} KnownConstant(series: seq<Option<real>>, v: real)
    requires forall k :: 0 <= k < |series| ==> series[k] == Some(v)
    ensures |Known(series)| == |series| && forall k :: 0 <= k < |series| ==> Known(series)[k] == v
  {
    if series != [] { KnownConstant(series[..|series| - 1], v); }
  }

  lemma {:induction false} CountConstant(xs: seq<real>, v: real, bound: real)
    requires forall k :: 0 <= k < |xs| ==> xs[k] == v
    ensures CountAtLeast(xs, bound) == if v >= bound then |xs| else 0
  {
    if xs != [] { CountConstant(xs[..|xs| - 1], v, bound); }
  }

  lemma ShareEnds(n: nat)
    requires n > 0
    ensures Share(n, n) == 100.0 && Share(0, n) == 0.0
  {
    DivideBack(100.0 * n as real, n as real, 100.0);
  }

  /** Against a constant history the percentile is all or nothing. */
  lemma ConstantRank(series: seq<Option<real>>, i: nat, window: nat, minimum: nat, v: real)
    requires 1 <= minimum <= window <= i < |series| && series[i].Some?
    requires forall k :: i - window <= k < i ==> series[k] == Some(v)
    ensures CheapnessPercentile(series, i, window, minimum) == Some(if v >= series[i].value then 100.0 else 0.0)
  {
    var history := series[i - window..i];
    KnownConstant(history, v);
    CountConstant(Known(history), v, series[i].value);
    ShareEnds(window);
  }

  /** The pi percentile of the last day is 0 below and 100 above the flat price. */
  lemma InvertedPercentile(f: Maths, m: Model, n: nat, last: real)
    requires Usable(m) && m.piLong < m.piShort && n >= m.piShort + m.adaptiveWindow && last > 0.0 && last != 1.0
    ensures PercentileAt(f, m, PiCycle, Prices(FlatHistory(n, last)), n) == Some(if last < 1.0 then 0.0 else 100.0)
  {
    var series := SignalSeries(f, m, PiCycle, Prices(FlatHistory(n, last)));
    forall k | n - m.adaptiveWindow <= k < n ensures series[k] == Some(0.5) { EarlierPi(f, m, n, last, k); }
    LastPi(f, m, n, last);
    ConstantRank(series, n, m.adaptiveWindow, m.adaptiveMinimum, 0.5);
  }

  /** With the short average over more days than the long one, a flat history shows a score that climbs from
      0 to 100 while today's price climbs from half to twice the flat price. */
  lemma InvertedPiRises(f: Maths, m: Model, n: nat, last: real)
    requires Usable(m) && m.piLong < m.piShort && n >= m.piShort + m.adaptiveWindow + m.minimumHistory
    requires last > 0.0 && last != 1.0
    ensures ScoreAt(f, m, PI_ONLY, FlatHistory(n, last), n) == Some(if last < 1.0 then 0.0 else 100.0)
  {
    InvertedPercentile(f, m, n, last);
    AloneTotal(Percentile(PiCycle), ReadingsAt(f, m, FlatHistory(n, last), n));
  }

  lemma FlatRaised(m: Model, n: nat)
    requires Usable(m)
    ensures RaisedToday(m, PI_ONLY, FlatHistory(n, 0.5), FlatHistory(n, 2.0))
  {
    assert !Matters(PI_ONLY, Deviation, Percentile(ShortZ));
  }

  lemma InvertedScores(f: Maths, m: Model, n: nat)
    requires Usable(m) && m.piLong < m.piShort && n >= m.piShort + m.adaptiveWindow + m.minimumHistory
    ensures !Rises(ScoreAt(f, m, PI_ONLY, FlatHistory(n, 2.0), n), ScoreAt(f, m, PI_ONLY, FlatHistory(n, 0.5), n))
  {
    InvertedPiRises(f, m, n, 0.5);
    InvertedPiRises(f, m, n, 2.0);
  }

  lemma OneBreaks(f: Maths, m: Model, w: Weights, dated: seq<Dated>, raised: seq<Dated>, i: nat)
    requires Usable(m) && |dated| == i + 1 && RaisedToday(m, w, dated, raised)
    requires !Rises(ScoreAt(f, m, w, raised, i), ScoreAt(f, m, w, dated, i))
    ensures !NeverRises(f, m)
  {
  }

  lemma InvertedBreaks(f: Maths, m: Model)
    requires Usable(m) && m.piLong < m.piShort
    ensures !NeverRises(f, m)
  {
    var n := m.piShort + m.adaptiveWindow + m.minimumHistory;
    FlatRaised(m, n);
    InvertedScores(f, m, n);
    OneBreaks(f, m, PI_ONLY, FlatHistory(n, 0.5), FlatHistory(n, 2.0), n);
  }

  // ---- exact conditions ----

  lemma AloneScore(f: Maths, m: Model, dated: seq<Dated>, i: nat, k: Indicator)
    requires Usable(m) && i < |dated| && m.minimumHistory <= i + 1
    ensures ScoreAt(f, m, Alone(k), dated, i) == Reading(ReadingsAt(f, m, dated, i), k)
  {
    ReadingsInRange(f, m, dated, i);
    AloneTotal(k, ReadingsAt(f, m, dated, i));
  }

  /** Under weight on the short deviation alone, raising today's price never raises the score exactly while
      its percentile is steady. */
  lemma ShortDeviationAloneIff(f: Maths, m: Model, dated: seq<Dated>, raised: seq<Dated>, i: nat)
    requires Lawful(f) && Usable(m) && LastDayRaised(dated, raised, i) && m.minimumHistory <= i + 1
    ensures var w := Alone(Percentile(ShortZ));
            Rises(ScoreAt(f, m, w, raised, i), ScoreAt(f, m, w, dated, i)) <==>
            ShortSteady(m, Prices(dated), Prices(raised), i)
  {
    AloneScore(f, m, dated, i, Percentile(ShortZ));
    AloneScore(f, m, raised, i, Percentile(ShortZ));
    ReadingIs(f, m, dated, i, ShortZ);
    ReadingIs(f, m, raised, i, ShortZ);
    PricesRaised(dated, raised, i);
    ShortPercentileFallsIff(f, m, Prices(dated), Prices(raised), i);
  }

  /** Raising today's price of one history raises the score under no weights. */
  ghost predicate FallsAlways(f: Maths, m: Model, dated: seq<Dated>, raised: seq<Dated>, i: nat)
    requires Usable(m) && i < |dated| && i < |raised|
  {
    forall w: Weights :: Rises(ScoreAt(f, m, w, raised, i), ScoreAt(f, m, w, dated, i))
  }

  /** With nested pi averages, that holds of a history and two prices exactly when there is no score that day,
      too few earlier days to rank the short deviation, or not just one of the two prices that makes the short
      window flat. */
  lemma FallsAlwaysIff(f: Maths, m: Model, dated: seq<Dated>, raised: seq<Dated>, i: nat)
    requires Lawful(f) && Usable(m) && m.piShort <= m.piLong && LastDayRaised(dated, raised, i)
    ensures FallsAlways(f, m, dated, raised, i) <==>
              (i + 1 >= m.minimumHistory ==> ShortSteady(m, Prices(dated), Prices(raised), i))
  {
    if i + 1 >= m.minimumHistory && !ShortSteady(m, Prices(dated), Prices(raised), i) {
      ShortDeviationAloneIff(f, m, dated, raised, i);
    } else {
      forall w: Weights ensures Rises(ScoreAt(f, m, w, raised, i), ScoreAt(f, m, w, dated, i)) {
        ScoreFalls(f, m, w, dated, raised, i);
      }
    }
  }

  lemma NestedHolds(f: Maths, m: Model)
    requires Lawful(f) && Usable(m) && m.piShort <= m.piLong
    ensures NeverRises(f, m)
  {
    forall w: Weights, dated: seq<Dated>, raised: seq<Dated> | RaisedToday(m, w, dated, raised)
      ensures Rises(ScoreAt(f, m, w, raised, |dated| - 1), ScoreAt(f, m, w, dated, |dated| - 1))
    {
      ScoreFalls(f, m, w, dated, raised, |dated| - 1);
    }
  }

  /** Raising today's price never raises the score exactly when the short pi average covers no more days than
      the long one. */
  lemma NeverRisesIff(f: Maths, m: Model)
    requires Lawful(f) && Usable(m)
    ensures NeverRises(f, m) <==> m.piShort <= m.piLong
  {
    if m.piShort <= m.piLong { NestedHolds(f, m); } else { InvertedBreaks(f, m); }
  }
}

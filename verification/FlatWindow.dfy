/** A day whose short window was flat before: the price at which the short deviation vanishes from the score,
    and the rise of the score behind it. */
module FlatWindow {
  import opened Maths
  import opened PiCondition
  import opened PowerLaw
  import opened Rolling
  import opened Rsi
  import opened Score
  import opened ScoreLaws
  import opened ScoreMonotone
  import opened SignalOrder
  import opened Signals
  import opened Sums

  /** Price `d` days before the last day, for a short window of `n` days: the last price, a flat stretch at 2,
      one at 1, and an alternation before. */
  function PriceBack(n: nat, d: nat, last: real): real
    requires n >= 2
  {
    if d == 0 then last
    else if d < n then 2.0
    else if d < 2 * n - 1 then 1.0
    else if (d - (2 * n - 1)) % 2 == 0 then 2.0
    else 1.0
  }

  function StepHistory(n: nat, days: nat, last: real): seq<Dated>
    requires n >= 2
  {
    seq(days + 1, j requires 0 <= j <= days => Dated(j + 1, PriceBack(n, days - j, last)))
  }

  /** Prices of the history, counted from its end. */
  lemma StepPrices(n: nat, days: nat, last: real)
    requires n >= 2
    ensures var xs := Prices(StepHistory(n, days, last));
            |xs| == days + 1 && forall j :: 0 <= j <= days ==> xs[j] == PriceBack(n, days - j, last)
  {
    var dated := StepHistory(n, days, last);
    forall j | 0 <= j <= days ensures Prices(dated)[j] == PriceBack(n, days - j, last) {
      var d: nat := days - j;
      assert dated[j] == Dated(j + 1, PriceBack(n, d, last));
    }
  }

  /** No full window that ends before the last day is flat. */
  lemma EarlierNotFlat(n: nat, days: nat, last: real, j: nat)
    requires n >= 2 && n - 1 <= j < days
    ensures !Flat(Prices(StepHistory(n, days, last)), j + 1 - n, j + 1)
  {
    var xs, d := Prices(StepHistory(n, days, last)), days - j;
    var other := if d < n then n else if d < 2 * n - 1 then 2 * n - 1 else d + 1;
    assert xs[j] == PriceBack(n, d, last);
    assert xs[days - other] == PriceBack(n, other, last);
  }

  lemma LastFlatIff(n: nat, days: nat, last: real)
    requires n >= 2 && days >= n
    ensures Flat(Prices(StepHistory(n, days, last)), days + 1 - n, days + 1) <==> last == 2.0
    ensures Flat(Prices(StepHistory(n, days, last)), days + 1 - n, days)
  {
    var xs := Prices(StepHistory(n, days, last));
    StepPrices(n, days, last);
    assert xs[days] == last && xs[days - 1] == 2.0;
  }

  // ---- the signal on the two days that follow a flat stretch ----

  lemma FlatResidue(ls: seq<real>, a: nat, b: nat)
    requires a < b <= |ls| && Flat(ls, a, b)
    ensures Residue(RangeSum(Squares(ls), a, b), RangeSum(ls, a, b), (b - a) as real) == 0.0
    ensures RangeSum(ls, a, b) == Times(ls[a], (b - a) as real)
  {
    var v, k := ls[a], (b - a) as real;
    FlatSum(ls, a, b, v);
    forall j | a <= j < b ensures Squares(ls)[j] == Times(v, v) { assert ls[j] == v; }
    FlatSum(Squares(ls), a, b, Times(v, v));
    assert k * ((v * v) * k) == (v * k) * (v * k);
    DivideBack(0.0, k + 1.0, 0.0);
  }

  /** After two flat stretches of the same length, the smaller jump does not look larger. */
  lemma JumpOrder(f: Maths, ls: seq<real>, a: nat, i: nat, b: nat, j: nat)
    requires Lawful(f) && a < i < |ls| && b < j < |ls| && i - a == j - b
    requires Flat(ls, a, i) && Flat(ls, b, j) && ls[i] - ls[a] <= ls[j] - ls[b]
    requires Variance(ls, a, i + 1) > 0.0 && Variance(ls, b, j + 1) > 0.0
    ensures f.sqrt(Variance(ls, a, i + 1)) > 0.0 && f.sqrt(Variance(ls, b, j + 1)) > 0.0
    ensures Distance(ls, a, i) / f.sqrt(Variance(ls, a, i + 1)) <= Distance(ls, b, j) / f.sqrt(Variance(ls, b, j + 1))
  {
    var k := (i - a) as real;
    FlatResidue(ls, a, i);
    FlatResidue(ls, b, j);
    WindowDistance(ls, a, i);
    WindowDistance(ls, b, j);
    JumpDistance(k, ls[a], ls[i], ls[b], ls[j]);
    ZOrderRoots(f, Distance(ls, a, i), Variance(ls, a, i + 1), Distance(ls, b, j), Variance(ls, b, j + 1), k, 0.0);
  }

  lemma ScaleOrder(k: real, a: real, b: real)
    requires k > 0.0 && a <= b
    ensures k * a <= k * b
  {
    assert k * (b - a) == k * b - k * a;
    Products(0.0, k, 0.0, b - a);
  }

  lemma JumpDistance(k: real, v: real, l: real, v': real, l': real)
    requires k > 0.0 && l - v <= l' - v'
    ensures (Times(k, l) - Times(v, k)) / (k + 1.0) <= (Times(k, l') - Times(v', k)) / (k + 1.0)
  {
    var a, b := l - v, l' - v';
    assert Times(k, l) - Times(v, k) == k * a && Times(k, l') - Times(v', k) == k * b;
    ScaleOrder(k, a, b);
    DivideOrder(Times(k, l) - Times(v, k), Times(k, l') - Times(v', k), k + 1.0);
  }

  lemma LogJumps(f: Maths)
    requires Lawful(f)
    ensures f.ln(3.0) - f.ln(2.0) <= f.ln(2.0) - f.ln(1.0)
  {
    LnQuotient(f, 3.0, 2.0);
    LnQuotient(f, 2.0, 1.0);
    LnOrder(f, 1.5, 2.0);
    assert 3.0 / 2.0 == 1.5 && 2.0 / 1.0 == 2.0;
  }

  lemma ZOfWindow(f: Maths, ls: seq<real>, i: nat, window: nat)
    requires Lawful(f) && i < |ls| && 2 <= window <= i + 1 && Variance(ls, i + 1 - window, i + 1) > 0.0
    ensures f.sqrt(Variance(ls, i + 1 - window, i + 1)) > 0.0
    ensures ZScore(ls[i], AverageAt(ls, i, window), StdAt(f.sqrt, ls, i, window, window))
            == Some(Distance(ls, i + 1 - window, i) / f.sqrt(Variance(ls, i + 1 - window, i + 1)))
  {
    DeviationPositiveIff(f, Variance(ls, i + 1 - window, i + 1));
  }

  lemma PositivePrices(n: nat, days: nat, last: real)
    requires n >= 2 && last > 0.0
    ensures forall k :: 0 <= k <= days ==> Prices(StepHistory(n, days, last))[k] > 0.0
  {
    StepPrices(n, days, last);
  }

  /** The shape of the last windows: flat stretches of the same length before days `i` and `days`. */
  lemma Stretches(n: nat, days: nat)
    requires n >= 2 && days >= 2 * n
    ensures var xs, i := Prices(StepHistory(n, days, 3.0)), days - (n - 1);
            && |xs| == days + 1 && xs[days] == 3.0 && xs[days + 1 - n] == 2.0 && xs[i] == 2.0 && xs[i + 1 - n] == 1.0
            && Flat(xs, days + 1 - n, days) && Flat(xs, i + 1 - n, i)
            && !Flat(xs, days + 1 - n, days + 1) && !Flat(xs, i + 1 - n, i + 1)
  {
    StepPrices(n, days, 3.0);
    LastFlatIff(n, days, 3.0);
    EarlierNotFlat(n, days, 3.0, days - (n - 1));
  }

  function LogScore(f: Maths, ls: seq<real>, i: nat, window: nat): Option<real>
    requires i < |ls| && window >= 1
  {
    ZScore(ls[i], AverageAt(ls, i, window), StdAt(f.sqrt, ls, i, window, window))
  }

  lemma JumpScores(f: Maths, xs: seq<real>, i: nat, days: nat, n: nat)
    requires Lawful(f) && n >= 2 && n <= i + 1 && i < days < |xs|
    requires forall k :: 0 <= k < |xs| ==> xs[k] > 0.0
    requires xs[days] == 3.0 && xs[days + 1 - n] == 2.0 && xs[i] == 2.0 && xs[i + 1 - n] == 1.0
    requires Flat(xs, days + 1 - n, days) && Flat(xs, i + 1 - n, i)
    requires !Flat(xs, days + 1 - n, days + 1) && !Flat(xs, i + 1 - n, i + 1)
    ensures Rises(LogScore(f, Logs(f, xs), days, n), LogScore(f, Logs(f, xs), i, n))
    ensures LogScore(f, Logs(f, xs), i, n).Some?
  {
    MovingLogs(f, xs, days + 1 - n, days + 1);
    MovingLogs(f, xs, i + 1 - n, i + 1);
    FlatLogs(f, xs, days + 1 - n, days);
    FlatLogs(f, xs, i + 1 - n, i);
    LogJumps(f);
    JumpOrder(f, Logs(f, xs), days + 1 - n, days, i + 1 - n, i);
    ZOfWindow(f, Logs(f, xs), days, n);
    ZOfWindow(f, Logs(f, xs), i, n);
  }

  lemma HistoryJumps(f: Maths, n: nat, days: nat)
    requires Lawful(f) && n >= 2 && days >= 2 * n
    ensures var xs, i := Prices(StepHistory(n, days, 3.0)), days - (n - 1);
            && |xs| == days + 1
            && Rises(LogScore(f, Logs(f, xs), days, n), LogScore(f, Logs(f, xs), i, n))
            && LogScore(f, Logs(f, xs), i, n).Some?
  {
    PositivePrices(n, days, 3.0);
    Stretches(n, days);
    JumpScores(f, Prices(StepHistory(n, days, 3.0)), days - (n - 1), days, n);
  }

  /** A signal rises with the z-score that it is. */
  lemma ShortZRises(f: Maths, m: Model, xs: seq<real>, i: nat, j: nat)
    requires Usable(m) && i < |xs| && j < |xs|
    requires Rises(LogScore(f, Logs(f, xs), i, m.shortDeviation), LogScore(f, Logs(f, xs), j, m.shortDeviation))
    requires LogScore(f, Logs(f, xs), j, m.shortDeviation).Some?
    ensures Rises(SignalAt(f, m, ShortZ, xs, i), SignalAt(f, m, ShortZ, xs, j))
    ensures SignalAt(f, m, ShortZ, xs, j).Some?
  {
    ShortZIs(f, m, xs, i);
    ShortZIs(f, m, xs, j);
  }

  /** The jump to 2 stood out at least as much as the jump to 3 does. */
  lemma LaterJumpIsSmaller(f: Maths, m: Model, days: nat)
    requires Lawful(f) && Usable(m) && days >= 2 * m.shortDeviation
    ensures var xs, i := Prices(StepHistory(m.shortDeviation, days, 3.0)), days - (m.shortDeviation - 1);
            |xs| == days + 1
            && Rises(SignalAt(f, m, ShortZ, xs, days), SignalAt(f, m, ShortZ, xs, i))
            && SignalAt(f, m, ShortZ, xs, i).Some?
  {
    HistoryJumps(f, m.shortDeviation, days);
    ShortZRises(f, m, Prices(StepHistory(m.shortDeviation, days, 3.0)), days, days - (m.shortDeviation - 1));
  }

  // ---- percentiles ----

  lemma {:induction false} KnownAll(series: seq<Option<real>>)
    requires forall k :: 0 <= k < |series| ==> series[k].Some?
    ensures |Known(series)| == |series| && forall k :: 0 <= k < |series| ==> Known(series)[k] == series[k].value
  {
    if series != [] { KnownAll(series[..|series| - 1]); }
  }

  lemma {:induction false} CountsOne(xs: seq<real>, k: nat, bound: real)
    requires k < |xs| && xs[k] >= bound
    ensures CountAtLeast(xs, bound) >= 1
  {
    if k < |xs| - 1 { CountsOne(xs[..|xs| - 1], k, bound); }
  }

  lemma {:induction false} CountsAll(xs: seq<real>, bound: real)
    requires forall k :: 0 <= k < |xs| ==> xs[k] <= bound
    ensures CountAtMost(xs, bound) == |xs|
  {
    if xs != [] { CountsAll(xs[..|xs| - 1], bound); }
  }

  /** One earlier value that is as high makes the percentile positive. */
  lemma SomeRank(series: seq<Option<real>>, i: nat, window: nat, minimum: nat, k: nat)
    requires 1 <= minimum <= window <= i < |series| && i - window <= k < i
    requires forall j :: i - window <= j < i ==> series[j].Some?
    requires Rises(series[i], series[k]) && series[k].Some?
    ensures var r := CheapnessPercentile(series, i, window, minimum); r.Some? && r.value > 0.0
  {
    var history := series[i - window..i];
    KnownAll(history);
    CountsOne(Known(history), k - (i - window), series[i].value);
    SharePositive(CountAtLeast(Known(history), series[i].value), window);
  }

  lemma SharePositive(part: nat, whole: nat)
    requires 1 <= part && whole > 0
    ensures Share(part, whole) > 0.0
  {
    RatioPositive(100.0 * part as real, whole as real);
  }

  /** Long enough for every percentile to exist. */
  function DaysFor(m: Model): nat
  {
    2 * m.shortDeviation + m.adaptiveWindow + m.percentileWindow + m.minimumHistory
  }

  lemma EarlierDefined(f: Maths, m: Model, days: nat, j: nat)
    requires Lawful(f) && Usable(m) && m.shortDeviation - 1 <= j < days
    ensures SignalAt(f, m, ShortZ, Prices(StepHistory(m.shortDeviation, days, 3.0)), j).Some?
  {
    PositivePrices(m.shortDeviation, days, 3.0);
    EarlierNotFlat(m.shortDeviation, days, 3.0, j);
    ShortZDefinedIff(f, m, Prices(StepHistory(m.shortDeviation, days, 3.0)), j);
  }

  lemma JumpSeries(f: Maths, m: Model, days: nat, series: seq<Option<real>>)
    requires Lawful(f) && Usable(m) && days >= 2 * m.shortDeviation + m.adaptiveWindow
    requires series == SignalSeries(f, m, ShortZ, Prices(StepHistory(m.shortDeviation, days, 3.0)))
    ensures |series| == days + 1 && forall j :: days - m.adaptiveWindow <= j < days ==> series[j].Some?
    ensures Rises(series[days], series[days - (m.shortDeviation - 1)])
  {
    forall j | days - m.adaptiveWindow <= j < days ensures series[j].Some? { EarlierDefined(f, m, days, j); }
    LaterJumpIsSmaller(f, m, days);
  }

  lemma JumpPercentile(f: Maths, m: Model, days: nat)
    requires Lawful(f) && Usable(m) && days >= 2 * m.shortDeviation + m.adaptiveWindow
    ensures var r := PercentileAt(f, m, ShortZ, Prices(StepHistory(m.shortDeviation, days, 3.0)), days);
            r.Some? && r.value > 0.0
  {
    var series := SignalSeries(f, m, ShortZ, Prices(StepHistory(m.shortDeviation, days, 3.0)));
    JumpSeries(f, m, days, series);
    SomeRank(series, days, m.adaptiveWindow, m.adaptiveMinimum, days - (m.shortDeviation - 1));
  }

  /** At the flat price the signal does not exist. */
  lemma FlatPercentile(f: Maths, m: Model)
    requires Lawful(f) && Usable(m)
    ensures PercentileAt(f, m, ShortZ, Prices(StepHistory(m.shortDeviation, DaysFor(m), 2.0)), DaysFor(m)) == None
  {
    var n, days := m.shortDeviation, DaysFor(m);
    StepPrices(n, days, 2.0);
    PositivePrices(n, days, 2.0);
    LastFlatIff(n, days, 2.0);
    SeriesDefinedIff(f, m, Prices(StepHistory(n, days, 2.0)), days);
  }

  lemma TopPrice(m: Model, last: real)
    requires Usable(m) && last >= 2.0
    ensures PricePercentileAt(m, Prices(StepHistory(m.shortDeviation, DaysFor(m), last)), DaysFor(m)) == Some(0.0)
  {
    var days := DaysFor(m);
    var prior := Prices(StepHistory(m.shortDeviation, days, last))[..days];
    var history := prior[days - m.percentileWindow..];
    StepPrices(m.shortDeviation, days, last);
    CountsAll(history, last);
    ShareEnds(m.percentileWindow);
  }

  // ---- the score ----

  /** Equal weight on the short deviation and on the price percentile. */
  const TWO_SIGNALS: Weights := Weights(
    map[Deviation := 1.0, Range := 1.0],
    map[(Deviation, Percentile(ShortZ)) := 1.0, (Range, PricePercentile) := 1.0])

  lemma {:induction false} TailIgnored(items: seq<Weighted>, k: nat)
    requires k <= |items| && forall j :: k <= j < |items| ==> !Counts(items[j])
    ensures UsableWeight(items) == UsableWeight(items[..k]) && WeightedSum(items) == WeightedSum(items[..k])
    decreases |items|
  {
    if k < |items| {
      TailIgnored(items[..|items| - 1], k);
      assert items[..|items| - 1][..k] == items[..k];
    } else {
      assert items[..k] == items;
    }
  }

  lemma TwoComponents(r: Readings)
    ensures WeightedAverage(ComponentItems(TWO_SIGNALS, Deviation, r)) == r.percentiles.shortZ
    ensures WeightedAverage(ComponentItems(TWO_SIGNALS, Range, r)) == r.pricePercentile
  {
    var deviation, range := ComponentItems(TWO_SIGNALS, Deviation, r), ComponentItems(TWO_SIGNALS, Range, r);
    assert IndicatorsOf(Deviation)[0] == Percentile(ShortZ) && IndicatorsOf(Range)[0] == PricePercentile;
    if Counts(deviation[0]) { OnlyAverage(deviation, 0); } else { NothingCounts(deviation); }
    if Counts(range[0]) { OnlyAverage(range, 0); } else { NothingCounts(range); }
  }

  lemma TwoSignalsTotal(r: Readings)
    requires r.pricePercentile == Some(0.0)
    requires r.percentiles.shortZ.Some? ==> 0.0 < r.percentiles.shortZ.value <= 100.0
    ensures r.percentiles.shortZ.None? ==> TotalScore(TWO_SIGNALS, r) == Some(0.0)
    ensures r.percentiles.shortZ.Some? ==>
              TotalScore(TWO_SIGNALS, r).Some? && TotalScore(TWO_SIGNALS, r).value > 0.0
  {
    var items := TotalItems(TWO_SIGNALS, r);
    TwoComponents(r);
    assert COMPONENTS[2] == Range && COMPONENTS[3] == Deviation;
    TailIgnored(items, 4);
    OneCounts(items[..3], 2);
    assert items[..4][..3] == items[..3];
    if r.percentiles.shortZ.Some? {
      assert UsableWeight(items) == 2.0 && WeightedSum(items) == r.percentiles.shortZ.value;
    } else {
      assert UsableWeight(items) == 1.0 && WeightedSum(items) == 0.0;
    }
  }

  /** Under every model there is a history on which raising today's price from 2 to 3 raises the score from 0:
      before today the short window was flat at 2, so at 2 the short deviation drops out of the average. */
  lemma FlatWindowRises(f: Maths, m: Model)
    requires Lawful(f) && Usable(m)
    ensures var n, days := m.shortDeviation, DaysFor(m);
            var dated, raised := StepHistory(n, days, 2.0), StepHistory(n, days, 3.0);
            && Ordered(dated) && LastDayRaised(dated, raised, days)
            && ScoreAt(f, m, TWO_SIGNALS, dated, days) == Some(0.0)
            && ScoreAt(f, m, TWO_SIGNALS, raised, days).Some?
            && ScoreAt(f, m, TWO_SIGNALS, raised, days).value > 0.0
  {
    var n, days := m.shortDeviation, DaysFor(m);
    var dated, raised := StepHistory(n, days, 2.0), StepHistory(n, days, 3.0);
    StepDays(n, days);
    FlatPercentile(f, m);
    JumpPercentile(f, m, days);
    TopPrice(m, 2.0);
    TopPrice(m, 3.0);
    ReadingsInRange(f, m, raised, days);
    ReadingIs(f, m, raised, days, ShortZ);
    assert InRange(Reading(ReadingsAt(f, m, raised, days), Percentile(ShortZ)));
    TwoSignalsTotal(ReadingsAt(f, m, dated, days));
    TwoSignalsTotal(ReadingsAt(f, m, raised, days));
  }

  lemma StepDays(n: nat, days: nat)
    requires n >= 2
    ensures var dated, raised := StepHistory(n, days, 2.0), StepHistory(n, days, 3.0);
            Ordered(dated) && LastDayRaised(dated, raised, days)
  {
    var dated, raised := StepHistory(n, days, 2.0), StepHistory(n, days, 3.0);
    forall j | 0 <= j <= days
      ensures dated[j].day == raised[j].day == j + 1 && dated[j].price > 0.0 && dated[j].price <= raised[j].price
      ensures j < days ==> dated[j] == raised[j]
    {
      var d: nat := days - j;
      assert dated[j] == Dated(j + 1, PriceBack(n, d, 2.0)) && raised[j] == Dated(j + 1, PriceBack(n, d, 3.0));
    }
  }
}

/** The buy-opportunity score: weights, curve, and its two implementations against one specification. */
module Score {
  import opened Maths
  import opened PowerLaw
  import opened Signals
  import opened Sums

  // ---- weighted averages of what is available ----

  datatype Weighted = Weighted(value: Option<real>, weight: real)

  predicate Counts(w: Weighted) { w.value.Some? && w.weight > 0.0 }

  function UsableWeight(items: seq<Weighted>): (total: real)
    ensures total >= 0.0
  {
    if items == [] then 0.0
    else
      var n := |items| - 1;
      if Counts(items[n]) then UsableWeight(items[..n]) + items[n].weight else UsableWeight(items[..n])
  }

  function WeightedSum(items: seq<Weighted>): real
  {
    if items == [] then 0.0
    else
      var n := |items| - 1;
      if Counts(items[n]) then WeightedSum(items[..n]) + Times(items[n].value.value, items[n].weight)
      else WeightedSum(items[..n])
  }

  /** Weighted mean of the values that exist and carry weight. */
  function WeightedAverage(items: seq<Weighted>): Option<real>
  {
    if UsableWeight(items) <= 0.0 then None else Some(WeightedSum(items) / UsableWeight(items))
  }

  // ---- the power-law curve ----

  function Clamp(value: real): real { Max(0.0, Min(100.0, value)) }

  /** A curve through points with rising `x`. */
  ghost predicate IsCurve(curve: seq<(real, real)>)
  {
    curve != [] && forall i, j :: 0 <= i < j < |curve| ==> curve[i].0 < curve[j].0
  }

  function Interpolated(value: real, a: (real, real), b: (real, real)): real
    requires a.0 < b.0
  {
    Clamp(a.1 + Times(b.1 - a.1, (value - a.0) / (b.0 - a.0)))
  }

  /** The first segment from `k` on that holds the value. */
  function Segment(value: real, curve: seq<(real, real)>, k: nat): real
    requires IsCurve(curve) && k + 1 < |curve| && curve[k].0 <= value < curve[|curve| - 1].0
    decreases |curve| - k
  {
    if value <= curve[k + 1].0 then Interpolated(value, curve[k], curve[k + 1]) else Segment(value, curve, k + 1)
  }

  /** Linear interpolation through the curve, constant outside it. */
  function Piecewise(value: real, curve: seq<(real, real)>): real
    requires IsCurve(curve)
  {
    if value <= curve[0].0 then Clamp(curve[0].1)
    else if value >= curve[|curve| - 1].0 then Clamp(curve[|curve| - 1].1)
    else Segment(value, curve, 0)
  }

  const POWER_LAW_CURVE: seq<(real, real)> := [
    (0.40, 100.0), (0.60, 90.0), (0.80, 75.0), (1.00, 55.0), (1.30, 35.0), (1.70, 15.0), (2.20, 0.0)]

  function PowerLawScore(price: real, fair: Option<real>): Option<real>
  {
    if fair.Some? && fair.value > 0.0 then Some(Piecewise(Ratio(price, fair.value), POWER_LAW_CURVE)) else None
  }

  // ---- components ----

  datatype Indicator = Percentile(signal: Signal) | PricePercentile | PowerLaw

  datatype Component = LongTerm | Drawdown | Range | Deviation | Momentum | Cycle

  const COMPONENTS: seq<Component> := [LongTerm, Drawdown, Range, Deviation, Momentum, Cycle]

  function IndicatorsOf(c: Component): seq<Indicator>
  {
    match c
    case LongTerm => [Percentile(TrendBase), Percentile(TrendLong), Percentile(TrendCycle), PowerLaw]
    case Drawdown => [Percentile(DrawdownLocal), Percentile(DrawdownRegime)]
    case Range => [PricePercentile, Percentile(TrendMid)]
    case Deviation => [Percentile(ShortZ), Percentile(TrendShort)]
    case Momentum => [Percentile(MomentumShort), Percentile(MomentumLong), Percentile(RelativeStrength)]
    case Cycle => [Percentile(TrendCycle), Percentile(PiCycle), Percentile(TwoYearUpper), PowerLaw]
  }

  /** Configured weights; an absent entry counts for nothing. */
  datatype Weights = Weights(component: map<Component, real>, indicator: map<(Component, Indicator), real>)

  function ComponentWeight(w: Weights, c: Component): real { if c in w.component then w.component[c] else 0.0 }

  function IndicatorWeight(w: Weights, c: Component, k: Indicator): real
  {
    if (c, k) in w.indicator then w.indicator[(c, k)] else 0.0
  }

  /** One day's indicator scores. */
  datatype Readings = Readings(percentiles: Row, pricePercentile: Option<real>, powerLaw: Option<real>)

  function Reading(r: Readings, k: Indicator): Option<real>
  {
    match k
    case Percentile(s) => Cell(r.percentiles, s)
    case PricePercentile => r.pricePercentile
    case PowerLaw => r.powerLaw
  }

  function ComponentItems(w: Weights, c: Component, r: Readings): seq<Weighted>
  {
    var ks := IndicatorsOf(c);
    seq(|ks|, i requires 0 <= i < |ks| => Weighted(Reading(r, ks[i]), IndicatorWeight(w, c, ks[i])))
  }

  function TotalItems(w: Weights, r: Readings): seq<Weighted>
  {
    seq(|COMPONENTS|, i requires 0 <= i < |COMPONENTS| =>
      Weighted(WeightedAverage(ComponentItems(w, COMPONENTS[i], r)), ComponentWeight(w, COMPONENTS[i])))
  }

  function TotalScore(w: Weights, r: Readings): Option<real>
  {
    var total := WeightedAverage(TotalItems(w, r));
    if total.None? then None else Some(Clamp(total.value))
  }

  // ---- specification ----

  function Prices(dated: seq<Dated>): seq<real>
  {
    seq(|dated|, i requires 0 <= i < |dated| => dated[i].price)
  }

  function PercentileAt(f: Maths, m: Model, s: Signal, xs: seq<real>, i: nat): Option<real>
    requires Usable(m)
  {
    CheapnessPercentile(SignalSeries(f, m, s, xs), i, m.adaptiveWindow, m.adaptiveMinimum)
  }

  /** Percentile of the current price among the earlier ones, turned so that low prices score high. */
  function PricePercentileAt(m: Model, xs: seq<real>, i: nat): Option<real>
    requires Usable(m) && i < |xs|
  {
    Turned(RollingPercentileCurrent(xs[i], xs[..i], m.percentileWindow, m.percentileMinimum))
  }

  function Turned(percentile: Option<real>): Option<real>
  {
    if percentile.Some? then Some(100.0 - percentile.value) else None
  }

  /** One value per signal. */
  function RowOf(value: Signal -> Option<real>): (r: Row)
    ensures forall s: Signal :: Cell(r, s) == value(s)
  {
    Row(value(TrendBase), value(TrendLong), value(TrendCycle), value(TrendMid), value(TrendShort),
        value(DrawdownLocal), value(DrawdownRegime), value(MomentumShort), value(MomentumLong),
        value(RelativeStrength), value(ShortZ), value(PiCycle), value(TwoYearUpper))
  }

  /** Two rows with equal cells are equal. */
  lemma SameRow(a: Row, b: Row)
    requires forall s: Signal :: Cell(a, s) == Cell(b, s)
    ensures a == b
  {
    assert Cell(a, TrendBase) == Cell(b, TrendBase) && Cell(a, TrendLong) == Cell(b, TrendLong);
    assert Cell(a, TrendCycle) == Cell(b, TrendCycle) && Cell(a, TrendMid) == Cell(b, TrendMid);
    assert Cell(a, TrendShort) == Cell(b, TrendShort) && Cell(a, DrawdownLocal) == Cell(b, DrawdownLocal);
    assert Cell(a, DrawdownRegime) == Cell(b, DrawdownRegime) && Cell(a, MomentumShort) == Cell(b, MomentumShort);
    assert Cell(a, MomentumLong) == Cell(b, MomentumLong) && Cell(a, RelativeStrength) == Cell(b, RelativeStrength);
    assert Cell(a, ShortZ) == Cell(b, ShortZ) && Cell(a, PiCycle) == Cell(b, PiCycle);
    assert Cell(a, TwoYearUpper) == Cell(b, TwoYearUpper);
  }

  function PercentilesAt(f: Maths, m: Model, xs: seq<real>, i: nat): (r: Row)
    requires Usable(m)
    ensures forall s: Signal :: Cell(r, s) == PercentileAt(f, m, s, xs, i)
  {
    RowOf((s: Signal) => PercentileAt(f, m, s, xs, i))
  }

  function ReadingsAt(f: Maths, m: Model, dated: seq<Dated>, i: nat): Readings
    requires Usable(m) && i < |dated|
  {
    var xs := Prices(dated);
    Readings(PercentilesAt(f, m, xs, i), PricePercentileAt(m, xs, i),
             PowerLawScore(xs[i], FairAt(f, dated, i, m.powerLawMinimum)))
  }

  /** The score of day `i`, from definitions alone. */
  function ScoreAt(f: Maths, m: Model, w: Weights, dated: seq<Dated>, i: nat): Option<real>
    requires Usable(m) && i < |dated|
  {
    if i + 1 < m.minimumHistory then None else TotalScore(w, ReadingsAt(f, m, dated, i))
  }

  // ---- implementations ----

  /** The percentiles of day `i` from the filled signal series. */
  function PercentileRow(m: Model, rows: seq<Row>, i: nat): (r: Row)
    requires Usable(m)
    ensures forall s: Signal :: Cell(r, s) == CheapRank(m, rows, s, i)
  {
    RowOf((s: Signal) => CheapRank(m, rows, s, i))
  }

  function CheapRank(m: Model, rows: seq<Row>, s: Signal, i: nat): Option<real>
    requires Usable(m)
  {
    CheapnessPercentile(Column(rows, s), i, m.adaptiveWindow, m.adaptiveMinimum)
  }

  /** Cutting the prior prices to the window before ranking changes nothing. */
  lemma SameWindow(xs: seq<real>, i: nat, window: nat, minimum: nat)
    requires i < |xs| && minimum >= 1
    ensures var start := if i <= window then 0 else i - window;
            RollingPercentileCurrent(xs[i], xs[start..i], window, minimum)
            == RollingPercentileCurrent(xs[i], xs[..i], window, minimum)
  {
    if i > window { assert xs[i - window..i] == xs[..i][i - window..]; }
  }

  /** The percentiles ranked over the filled table are those of the definitions. */
  lemma RowIsRanked(f: Maths, m: Model, xs: seq<real>, rows: seq<Row>, i: nat)
    requires Usable(m) && forall s: Signal :: Column(rows, s) == SignalSeries(f, m, s, xs)
    ensures PercentileRow(m, rows, i) == PercentilesAt(f, m, xs, i)
  {
    SameRow(PercentileRow(m, rows, i), PercentilesAt(f, m, xs, i));
  }

  /** What a day's row, rank and fitted value give are its readings. */
  lemma ReadingsFrom(f: Maths, m: Model, dated: seq<Dated>, rows: seq<Row>, percentile: Option<real>,
                     fair: Option<real>, i: nat)
    requires Usable(m) && i < |dated| && forall s: Signal :: Column(rows, s) == SignalSeries(f, m, s, Prices(dated))
    requires fair == FairAt(f, dated, i, m.powerLawMinimum)
    requires Turned(percentile) == PricePercentileAt(m, Prices(dated), i)
    ensures Readings(PercentileRow(m, rows, i), Turned(percentile), PowerLawScore(dated[i].price, fair)) ==
            ReadingsAt(f, m, dated, i)
  {
    RowIsRanked(f, m, Prices(dated), rows, i);
  }

  /** One day's score from the filled table and the streamed fit. */
  method DayScore(f: Maths, m: Model, w: Weights, dated: seq<Dated>, xs: seq<real>, rows: seq<Row>,
                  fair: Option<real>, i: nat)
    returns (score: Option<real>)
    requires Usable(m) && i < |dated| && i + 1 >= m.minimumHistory && xs == Prices(dated)
    requires forall s: Signal :: Column(rows, s) == SignalSeries(f, m, s, xs)
    requires fair == FairAt(f, dated, i, m.powerLawMinimum)
    ensures score == ScoreAt(f, m, w, dated, i)
  {
    var start := if i <= m.percentileWindow then 0 else i - m.percentileWindow;
    SameWindow(xs, i, m.percentileWindow, m.percentileMinimum);
    var percentile := RollingPercentileCurrent(xs[i], xs[start..i], m.percentileWindow, m.percentileMinimum);
    ReadingsFrom(f, m, dated, rows, percentile, fair, i);
    score := TotalScore(w, Readings(PercentileRow(m, rows, i), Turned(percentile), PowerLawScore(xs[i], fair)));
  }

  /** The score of every day in one pass, with the streaming power-law fit. */
  method MainScoreSeries(f: Maths, m: Model, w: Weights, dated: seq<Dated>) returns (scores: seq<Option<real>>)
    requires Usable(m)
    ensures |scores| == |dated| && forall i :: 0 <= i < |dated| ==> scores[i] == ScoreAt(f, m, w, dated, i)
  {
    var xs := Prices(dated);
    if xs == [] { return []; }
    var rows := SignalTable(f, m, xs);
    var fair := PowerLawFairSeries(f, dated, m.powerLawMinimum);
    scores := seq(|xs|, _ => None);
    for i := 0 to |xs|
      invariant |scores| == |xs|
      invariant forall j :: 0 <= j < i ==> scores[j] == ScoreAt(f, m, w, dated, j)
      invariant forall j :: i <= j < |xs| ==> scores[j] == None
    {
      if i + 1 < m.minimumHistory { continue; }
      var score := DayScore(f, m, w, dated, xs, rows, fair[i], i);
      scores := scores[i := score];
    }
  }

  /** A price history as parsing leaves it: one positive price per day, days rising. */
  ghost predicate Ordered(dated: seq<Dated>)
  {
    && (forall i, j :: 0 <= i < j < |dated| ==> dated[i].day < dated[j].day)
    && forall i :: 0 <= i < |dated| ==> dated[i].price > 0.0
  }

  function NotAfter(today: int): Dated -> bool { (d: Dated) => d.day <= today }

  /** The history up to today, with today's price replaced by or extended with the current one. */
  function CutAt(history: seq<Dated>, today: int, current: real): (dated: seq<Dated>)
    ensures dated != []
  {
    var prior := Filter(history, NotAfter(today));
    if prior != [] && prior[|prior| - 1].day == today
    then prior[..|prior| - 1] + [Dated(today, current)]
    else prior + [Dated(today, current)]
  }

  /** The unrounded score of today alone, with the two-pass power-law fit. */
  method CalculateScore(f: Maths, m: Model, w: Weights, history: seq<Dated>, current: real, today: int)
    returns (score: Option<real>)
    requires Usable(m) && Ordered(history)
    ensures current <= 0.0 ==> score == None
    ensures current > 0.0 ==>
              var dated := CutAt(history, today, current);
              score == ScoreAt(f, m, w, dated, |dated| - 1)
  {
    if current <= 0.0 { return None; }
    var dated := CutAt(history, today, current);
    var xs := Prices(dated);
    if |xs| < m.minimumHistory { return None; }
    var index := |xs| - 1;
    var rows := SignalTable(f, m, xs);
    var percentile := RollingPercentileCurrent(current, xs[..index], m.percentileWindow, m.percentileMinimum);
    var fair := FairValue(f, dated, today, m.powerLawMinimum);
    var readings := Readings(PercentileRow(m, rows, index), Turned(percentile), PowerLawScore(current, fair));
    assert dated[..index + 1] == dated;
    ReadingsFrom(f, m, dated, rows, percentile, fair, index);
    score := TotalScore(w, readings);
  }
}

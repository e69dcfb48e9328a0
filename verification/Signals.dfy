/** The thirteen daily price signals behind the score, and the percentile that turns a signal into 0..100. */
module Signals {
  import opened Maths
  import opened Rolling
  import opened Rsi
  import opened Sums

  /** Model settings after normalization; the volatility floor is a fraction, not percent. */
  datatype Model = Model(
    minimumHistory: nat,
    adaptiveWindow: nat, adaptiveMinimum: nat,
    volatilityWindow: nat, volatilityMinimum: nat, volatilityFloor: real,
    drawdownWindow: nat, drawdownMinimum: nat, regimeMinimum: nat,
    percentileWindow: nat, percentileMinimum: nat,
    shortDeviation: nat, trendShort: nat, piShort: nat, trendBase: nat, piLong: nat,
    trendMid: nat, trendLong: nat, trendCycle: nat,
    rsiPeriod: nat, momentumShort: nat, momentumLong: nat,
    twoYearMultiplier: real, powerLawMinimum: nat)

  /** What the proofs need of the limits that normalization enforces on every setting. */
  predicate Usable(m: Model)
  {
    && 1 <= m.adaptiveMinimum <= m.adaptiveWindow && m.volatilityWindow >= 1 && m.volatilityFloor > 0.0
    && m.drawdownWindow >= 1 && 1 <= m.percentileMinimum <= m.percentileWindow
    && 2 <= m.shortDeviation <= m.adaptiveWindow && m.trendShort >= 1 && m.piShort >= 1 && m.trendBase >= 1
    && m.piLong >= 1 && m.trendMid >= 1 && m.trendLong >= 1 && m.trendCycle >= 1
    && m.rsiPeriod >= 1 && m.momentumShort >= 1 && m.momentumLong >= 1 && m.twoYearMultiplier > 0.0
  }

  datatype Signal =
    | TrendBase | TrendLong | TrendCycle | TrendMid | TrendShort
    | DrawdownLocal | DrawdownRegime
    | MomentumShort | MomentumLong | RelativeStrength
    | ShortZ | PiCycle | TwoYearUpper

  /** Log distance of the price from a base, in units of floored volatility. */
  function NormalizedLogRatio(f: Maths, price: real, base: Option<real>, volatility: Option<real>, floor: real)
    : Option<real>
    requires floor > 0.0
  {
    if base.None? || base.value <= 0.0 || volatility.None? || volatility.value <= 0.0 then None
    else Some(f.ln(Ratio(price, base.value)) / Max(volatility.value, floor))
  }

  function StandardizedReturn(f: Maths, price: real, previous: Option<real>, volatility: Option<real>, days: nat,
                              floor: real): Option<real>
  {
    if previous.None? || previous.value <= 0.0 || volatility.None? || volatility.value <= 0.0 || days == 0 then None
    else
      var sigma := Times(Max(volatility.value, floor), f.sqrt(days as real / 365.0));
      if sigma <= 0.0 then None else Some(f.ln(Ratio(price, previous.value)) / sigma)
  }

  function ZScore(value: real, mean: Option<real>, deviation: Option<real>): Option<real>
  {
    if mean.Some? && deviation.Some?
      && deviation.value > 0.0 then Some((value - mean.value) / deviation.value) else None
  }

  function PiRatio(short: Option<real>, long: Option<real>): Option<real>
  {
    if short.Some? && long.Some? && long.value > 0.0 then Some(short.value / (2.0 * long.value)) else None
  }

  lemma ProductPositive(a: real, b: real)
    requires a > 0.0 && b > 0.0
    ensures Times(a, b) > 0.0
  {
  }

  function UpperRatio(price: real, multiplier: real, base: Option<real>): Option<real>
    requires multiplier > 0.0
  {
    if base.Some? && base.value > 0.0
    then
      ProductPositive(multiplier, base.value);
      Some(Ratio(price, Times(multiplier, base.value)))
    else None
  }

  function Logs(f: Maths, xs: seq<real>): seq<real> { seq(|xs|, i requires 0 <= i < |xs| => f.ln(xs[i])) }

  /** A moving average over a full window. */
  function AverageAt(xs: seq<real>, i: nat, window: nat): Option<real>
    requires i < |xs| && window >= 1
  {
    MeanAt(xs, i, window, window)
  }

  /** Volatility known before day `i`. */
  function VolatilityBefore(f: Maths, m: Model, xs: seq<real>, i: nat): Option<real>
    requires Usable(m) && i < |xs|
  {
    if i > 0 then VolatilityAt(f.ln, f.sqrt, xs, i - 1, m.volatilityWindow, m.volatilityMinimum) else None
  }

  function PriceBefore(xs: seq<real>, i: nat, days: nat): Option<real>
    requires i < |xs|
  {
    if i >= days then Some(xs[i - days]) else None
  }

  /** Everything one day's signals are computed from. */
  datatype Inputs = Inputs(price: real, lnPrice: real, volatility: Option<real>,
                           short: Option<real>, piShort: Option<real>, base: Option<real>, piLong: Option<real>,
                           mid: Option<real>, long: Option<real>, cycle: Option<real>,
                           high: Option<real>, regimeHigh: Option<real>, rsi: Option<real>,
                           logMean: Option<real>, logStd: Option<real>,
                           monthBefore: Option<real>, quarterBefore: Option<real>)

  /** The inputs of day `i` by definition, each from the window that ends on day `i`. */
  function InputsAt(f: Maths, m: Model, xs: seq<real>, i: nat): Inputs
    requires Usable(m) && i < |xs|
  {
    Inputs(xs[i], f.ln(xs[i]), VolatilityBefore(f, m, xs, i),
           AverageAt(xs, i, m.trendShort), AverageAt(xs, i, m.piShort), AverageAt(xs, i, m.trendBase),
           AverageAt(xs, i, m.piLong), AverageAt(xs, i, m.trendMid), AverageAt(xs, i, m.trendLong),
           AverageAt(xs, i, m.trendCycle),
           MaxAt(xs, i, m.drawdownWindow, m.drawdownMinimum), MaxAt(xs, i, m.adaptiveWindow, m.regimeMinimum),
           RsiAt(xs, i, m.rsiPeriod),
           AverageAt(Logs(f, xs), i, m.shortDeviation),
           StdAt(f.sqrt, Logs(f, xs), i, m.shortDeviation, m.shortDeviation),
           PriceBefore(xs, i, m.momentumShort), PriceBefore(xs, i, m.momentumLong))
  }

  /** A signal from the day's inputs. */
  function SignalFrom(f: Maths, m: Model, s: Signal, d: Inputs): Option<real>
    requires Usable(m)
  {
    match s
    case TrendBase => NormalizedLogRatio(f, d.price, d.base, d.volatility, m.volatilityFloor)
    case TrendLong => NormalizedLogRatio(f, d.price, d.long, d.volatility, m.volatilityFloor)
    case TrendCycle => NormalizedLogRatio(f, d.price, d.cycle, d.volatility, m.volatilityFloor)
    case TrendMid => NormalizedLogRatio(f, d.price, d.mid, d.volatility, m.volatilityFloor)
    case TrendShort => NormalizedLogRatio(f, d.price, d.short, d.volatility, m.volatilityFloor)
    case DrawdownLocal => NormalizedLogRatio(f, d.price, d.high, d.volatility, m.volatilityFloor)
    case DrawdownRegime => NormalizedLogRatio(f, d.price, d.regimeHigh, d.volatility, m.volatilityFloor)
    case MomentumShort =>
      StandardizedReturn(f, d.price, d.monthBefore, d.volatility, m.momentumShort, m.volatilityFloor)
    case MomentumLong =>
      StandardizedReturn(f, d.price, d.quarterBefore, d.volatility, m.momentumLong, m.volatilityFloor)
    case RelativeStrength => d.rsi
    case ShortZ => ZScore(d.lnPrice, d.logMean, d.logStd)
    case PiCycle => PiRatio(d.piShort, d.piLong)
    case TwoYearUpper => UpperRatio(d.price, m.twoYearMultiplier, d.long)
  }

  function SignalAt(f: Maths, m: Model, s: Signal, xs: seq<real>, i: nat): Option<real>
    requires Usable(m) && i < |xs|
  {
    SignalFrom(f, m, s, InputsAt(f, m, xs, i))
  }

  function SignalSeries(f: Maths, m: Model, s: Signal, xs: seq<real>): seq<Option<real>>
    requires Usable(m)
  {
    seq(|xs|, i requires 0 <= i < |xs| => SignalAt(f, m, s, xs, i))
  }

  // ---- the one pass that fills every series ----

  /** One day of all signals. */
  datatype Row = Row(trendBase: Option<real>, trendLong: Option<real>, trendCycle: Option<real>, trendMid: Option<real>,
                     trendShort: Option<real>, drawdownLocal: Option<real>, drawdownRegime: Option<real>,
                     momentumShort: Option<real>, momentumLong: Option<real>, relativeStrength: Option<real>,
                     shortZ: Option<real>, piCycle: Option<real>, twoYearUpper: Option<real>)

  function Cell(r: Row, s: Signal): Option<real>
  {
    match s
    case TrendBase => r.trendBase
    case TrendLong => r.trendLong
    case TrendCycle => r.trendCycle
    case TrendMid => r.trendMid
    case TrendShort => r.trendShort
    case DrawdownLocal => r.drawdownLocal
    case DrawdownRegime => r.drawdownRegime
    case MomentumShort => r.momentumShort
    case MomentumLong => r.momentumLong
    case RelativeStrength => r.relativeStrength
    case ShortZ => r.shortZ
    case PiCycle => r.piCycle
    case TwoYearUpper => r.twoYearUpper
  }

  function Column(rows: seq<Row>, s: Signal): seq<Option<real>>
  {
    seq(|rows|, i requires 0 <= i < |rows| => Cell(rows[i], s))
  }

  /** The rolling series the signals are read from. */
  datatype Bases = Bases(short: seq<Option<real>>, piShort: seq<Option<real>>, base: seq<Option<real>>,
                         piLong: seq<Option<real>>, mid: seq<Option<real>>, long: seq<Option<real>>,
                         cycle: seq<Option<real>>, volatility: seq<Option<real>>, high: seq<Option<real>>,
                         regimeHigh: seq<Option<real>>, rsi: seq<Option<real>>, logs: seq<real>,
                         logMean: seq<Option<real>>, logStd: seq<Option<real>>)

  predicate SameLength(b: Bases, n: nat)
  {
    && |b.short| == |b.piShort| == |b.base| == |b.piLong| == |b.mid| == |b.long| == |b.cycle| == n
    && |b.volatility| == |b.high| == |b.regimeHigh| == |b.rsi| == |b.logs| == |b.logMean| == |b.logStd| == n
  }

  /** The inputs of day `i`, read from the rolling series. */
  function InputsFrom(m: Model, xs: seq<real>, b: Bases, i: nat): Inputs
    requires i < |xs| && SameLength(b, |xs|)
  {
    Inputs(xs[i], b.logs[i], if i > 0 then b.volatility[i - 1] else None,
           b.short[i], b.piShort[i], b.base[i], b.piLong[i], b.mid[i], b.long[i], b.cycle[i],
           b.high[i], b.regimeHigh[i], b.rsi[i], b.logMean[i], b.logStd[i],
           if i >= m.momentumShort then Some(xs[i - m.momentumShort]) else None,
           if i >= m.momentumLong then Some(xs[i - m.momentumLong]) else None)
  }

  method RollingAverages(xs: seq<real>, window: nat) returns (out: seq<Option<real>>)
    requires window >= 1
    ensures |out| == |xs| && forall i :: 0 <= i < |xs| ==> out[i] == AverageAt(xs, i, window)
  {
    out := RollingMeanSeries(xs, window, window);
  }

  method RollingBases(f: Maths, m: Model, xs: seq<real>) returns (b: Bases)
    requires Usable(m)
    ensures SameLength(b, |xs|)
    ensures forall i :: 0 <= i < |xs| ==> InputsFrom(m, xs, b, i) == InputsAt(f, m, xs, i)
  {
    var short := RollingAverages(xs, m.trendShort);
    var piShort := RollingAverages(xs, m.piShort);
    var base := RollingAverages(xs, m.trendBase);
    var piLong := RollingAverages(xs, m.piLong);
    var mid := RollingAverages(xs, m.trendMid);
    var long := RollingAverages(xs, m.trendLong);
    var cycle := RollingAverages(xs, m.trendCycle);
    var volatility := RollingVolatilitySeries(f.ln, f.sqrt, xs, m.volatilityWindow, m.volatilityMinimum);
    var high, _ := RollingMaxSeries(xs, m.drawdownWindow, m.drawdownMinimum);
    var regimeHigh, _ := RollingMaxSeries(xs, m.adaptiveWindow, m.regimeMinimum);
    var rsi := RsiSeries(xs, m.rsiPeriod);
    var logs := Logs(f, xs);
    var logMean := RollingAverages(logs, m.shortDeviation);
    var logStd := RollingStdSeries(f.sqrt, logs, m.shortDeviation, m.shortDeviation);
    b := Bases(short, piShort, base, piLong, mid, long, cycle, volatility, high, regimeHigh, rsi, logs, logMean,
      logStd);
  }

  /** All signals of a day. */
  function RowFrom(f: Maths, m: Model, d: Inputs): Row
    requires Usable(m)
  {
    Row(SignalFrom(f, m, TrendBase, d), SignalFrom(f, m, TrendLong, d), SignalFrom(f, m, TrendCycle, d),
        SignalFrom(f, m, TrendMid, d), SignalFrom(f, m, TrendShort, d), SignalFrom(f, m, DrawdownLocal, d),
        SignalFrom(f, m, DrawdownRegime, d), SignalFrom(f, m, MomentumShort, d), SignalFrom(f, m, MomentumLong, d),
        SignalFrom(f, m, RelativeStrength, d), SignalFrom(f, m, ShortZ, d), SignalFrom(f, m, PiCycle, d),
        SignalFrom(f, m, TwoYearUpper, d))
  }

  lemma RowCell(f: Maths, m: Model, d: Inputs, s: Signal)
    requires Usable(m)
    ensures Cell(RowFrom(f, m, d), s) == SignalFrom(f, m, s, d)
  {
  }

  lemma TableIsSeries(f: Maths, m: Model, s: Signal, xs: seq<real>, b: Bases, rows: seq<Row>)
    requires Usable(m) && SameLength(b, |xs|) && |rows| == |xs|
    requires forall i :: 0 <= i < |xs| ==> InputsFrom(m, xs, b, i) == InputsAt(f, m, xs, i)
    requires forall i :: 0 <= i < |xs| ==> rows[i] == RowFrom(f, m, InputsFrom(m, xs, b, i))
    ensures Column(rows, s) == SignalSeries(f, m, s, xs)
  {
    forall i | 0 <= i < |xs| ensures Cell(rows[i], s) == SignalAt(f, m, s, xs, i) {
      RowCell(f, m, InputsFrom(m, xs, b, i), s);
    }
  }

  method FillRows(f: Maths, m: Model, xs: seq<real>, b: Bases) returns (rows: seq<Row>)
    requires Usable(m) && SameLength(b, |xs|)
    ensures |rows| == |xs| && forall i :: 0 <= i < |xs| ==> rows[i] == RowFrom(f, m, InputsFrom(m, xs, b, i))
  {
    rows := [];
    for i := 0 to |xs|
      invariant |rows| == i && forall j :: 0 <= j < i ==> rows[j] == RowFrom(f, m, InputsFrom(m, xs, b, j))
    {
      rows := rows + [RowFrom(f, m, InputsFrom(m, xs, b, i))];
    }
  }

  /** Every signal of every day, in one causal pass over the rolling series. */
  method SignalTable(f: Maths, m: Model, xs: seq<real>) returns (rows: seq<Row>)
    requires Usable(m)
    ensures |rows| == |xs| && forall s: Signal :: Column(rows, s) == SignalSeries(f, m, s, xs)
  {
    var b := RollingBases(f, m, xs);
    rows := FillRows(f, m, xs, b);
    forall s: Signal ensures Column(rows, s) == SignalSeries(f, m, s, xs) { TableIsSeries(f, m, s, xs, b, rows); }
  }

  // ---- percentiles ----

  function Known(series: seq<Option<real>>): (r: seq<real>)
    ensures |r| <= |series|
  {
    if series == [] then []
    else
      var n := |series| - 1;
      if series[n].Some? then Known(series[..n]) + [series[n].value] else Known(series[..n])
  }

  function CountAtLeast(xs: seq<real>, bound: real): (n: nat)
    ensures n <= |xs|
  {
    if xs == [] then 0 else CountAtLeast(xs[..|xs| - 1], bound) + if xs[|xs| - 1] >= bound then 1 else 0
  }

  function CountAtMost(xs: seq<real>, bound: real): (n: nat)
    ensures n <= |xs|
  {
    if xs == [] then 0 else CountAtMost(xs[..|xs| - 1], bound) + if xs[|xs| - 1] <= bound then 1 else 0
  }

  function Share(part: nat, whole: nat): real
    requires 0 < whole
  {
    100.0 * part as real / whole as real
  }

  /** How cheap day `i` is: the share of earlier known values in the window that are at least as high. */
  function CheapnessPercentile(series: seq<Option<real>>, i: nat, window: nat, minimum: nat): Option<real>
    requires minimum >= 1
  {
    if i >= |series| || series[i].None? then None
    else
      var start := if i <= window then 0 else i - window;
      var history := Known(series[start..i]);
      if |history| < minimum then None
      else Some(Share(CountAtLeast(history, series[i].value), |history|))
  }

  /** Share of the trailing prior prices that are at most `current`. */
  function RollingPercentileCurrent(current: real, prior: seq<real>, window: nat, minimum: nat): Option<real>
    requires minimum >= 1
  {
    var history := if |prior| > window then prior[|prior| - window..] else prior;
    if |history| < minimum then None else Some(Share(CountAtMost(history, current), |history|))
  }
}

/** Wilder's relative strength index: the incremental series against its recurrence, its meaning and its order. */
module Rsi {
  import opened Maths
  import opened Rolling
  import opened Sums

  /** Daily rises and falls; entry `c` is the change from day `c` to day `c + 1`. */
  function Gains(xs: seq<real>): seq<real>
  {
    seq(if xs == [] then 0 else |xs| - 1, c requires 0 <= c < |xs| - 1 => Max(xs[c + 1] - xs[c], 0.0))
  }

  function Losses(xs: seq<real>): seq<real>
  {
    seq(if xs == [] then 0 else |xs| - 1, c requires 0 <= c < |xs| - 1 => Max(xs[c] - xs[c + 1], 0.0))
  }

  /** Wilder's average after change `c`: the plain mean of the first `period` changes, smoothed from there on. */
  function Smoothed(changes: seq<real>, period: nat, c: nat): real
    requires 1 <= period <= c + 1 <= |changes|
  {
    if c + 1 == period then Mean(changes, 0, period) else Blend(Smoothed(changes, period, c - 1), period, changes[c])
  }

  function Blend(average: real, period: nat, change: real): real
    requires period >= 1
  {
    (average * (period - 1) as real + change) / period as real
  }

  function Strength(gain: real, loss: real): real
    requires gain >= 0.0 && loss >= 0.0
  {
    if loss == 0.0 then
      if gain > 0.0 then 100.0 else 50.0
    else
      100.0 - 100.0 / (1.0 + gain / loss)
  }

  /** The index at day `i`. */
  function RsiAt(xs: seq<real>, i: nat, period: nat): Option<real>
    requires i < |xs| && period >= 1
  {
    if i < period then None
    else
      SmoothedNonNegative(Gains(xs), period, i - 1);
      SmoothedNonNegative(Losses(xs), period, i - 1);
      Some(Strength(Smoothed(Gains(xs), period, i - 1), Smoothed(Losses(xs), period, i - 1)))
  }

  lemma MeanNonNegative(xs: seq<real>, a: nat, b: nat)
    requires a < b <= |xs| && forall k :: a <= k < b ==> xs[k] >= 0.0
    ensures Mean(xs, a, b) >= 0.0
  {
    RangeSumNonNegative(xs, a, b);
  }

  lemma {:induction false} RangeSumNonNegative(xs: seq<real>, a: nat, b: nat)
    requires a <= b <= |xs| && forall k :: a <= k < b ==> xs[k] >= 0.0
    ensures RangeSum(xs, a, b) >= 0.0
  {
    if a < b { RangeSumNonNegative(xs, a, b - 1); }
  }

  lemma {:induction false} SmoothedNonNegative(changes: seq<real>, period: nat, c: nat)
    requires 1 <= period <= c + 1 <= |changes| && forall k :: 0 <= k < |changes| ==> changes[k] >= 0.0
    ensures Smoothed(changes, period, c) >= 0.0
  {
    if c + 1 == period {
      MeanNonNegative(changes, 0, period);
    } else {
      SmoothedNonNegative(changes, period, c - 1);
      assert Smoothed(changes, period, c - 1) * (period - 1) as real >= 0.0;
    }
  }

  method RsiSeries(xs: seq<real>, period: nat) returns (out: seq<Option<real>>)
    requires period >= 1
    ensures |out| == |xs| && forall i :: 0 <= i < |xs| ==> out[i] == RsiAt(xs, i, period)
  {
    out := seq(|xs|, _ => None);
    if |xs| <= period { return; }
    var gains := Gains(xs);
    var losses := Losses(xs);
    var gain := FirstMean(gains, period);
    var loss := FirstMean(losses, period);
    SmoothedNonNegative(gains, period, period - 1);
    SmoothedNonNegative(losses, period, period - 1);
    out := out[period := Some(Strength(gain, loss))];
    for c := period to |gains|
      invariant |out| == |xs|
      invariant gain == Smoothed(gains, period, c - 1) && loss == Smoothed(losses, period, c - 1)
      invariant forall i :: 0 <= i <= c ==> out[i] == RsiAt(xs, i, period)
    {
      gain := Blend(gain, period, gains[c]);
      loss := Blend(loss, period, losses[c]);
      SmoothedNonNegative(gains, period, c);
      SmoothedNonNegative(losses, period, c);
      out := out[c + 1 := Some(Strength(gain, loss))];
    }
  }

  /** Mean of the first `n` entries, by a running sum. */
  method FirstMean(xs: seq<real>, n: nat) returns (mean: real)
    requires 1 <= n <= |xs|
    ensures mean == Mean(xs, 0, n)
  {
    var total := 0.0;
    for i := 0 to n
      invariant total == RangeSum(xs, 0, i)
    {
      total := total + xs[i];
    }
    mean := total / n as real;
  }

  // ---- meaning and order ----

  /** The index is the share of the gains in all movement, and one half when nothing moved. */
  lemma StrengthIsShare(gain: real, loss: real)
    requires gain >= 0.0 && loss >= 0.0
    ensures gain + loss > 0.0 ==> Strength(gain, loss) == 100.0 * (gain / (gain + loss))
    ensures gain + loss == 0.0 ==> Strength(gain, loss) == 50.0
    ensures 0.0 <= Strength(gain, loss) <= 100.0
  {
    if loss > 0.0 {
      var t := gain + loss;
      AddFractions(loss, gain, loss);
      assert loss / loss == 1.0 && 1.0 + gain / loss == t / loss;
      assert 1.0 / (t / loss) == loss / t;
      AddFractions(gain, loss, t);
      assert t / t == 1.0;
      assert 0.0 <= loss / t <= 1.0 by { UnitFraction(loss, t); }
      assert 100.0 / (t / loss) == 100.0 * (1.0 / (t / loss));
    } else if gain > 0.0 {
      assert gain / (gain + loss) == 1.0;
    }
  }

  /** More gain and less loss never lower the index. */
  lemma StrengthMonotone(gain: real, loss: real, gain': real, loss': real)
    requires 0.0 <= gain <= gain' && 0.0 <= loss' <= loss
    ensures Strength(gain, loss) <= Strength(gain', loss')
  {
    StrengthIsShare(gain, loss);
    StrengthIsShare(gain', loss');
    if loss' > 0.0 {
      var t, t' := gain + loss, gain' + loss';
      assert gain * loss' <= gain' * loss by { Products(gain, gain', loss', loss); }
      assert gain * t' <= gain' * t;
      CrossDivide(gain, t, gain', t');
    } else if gain' > 0.0 {
      assert Strength(gain', loss') == 100.0;
    } else if loss > 0.0 {
      assert gain / (gain + loss) == 0.0;
    }
  }

  lemma Products(a: real, b: real, c: real, d: real)
    requires 0.0 <= a <= b && 0.0 <= c <= d
    ensures a * c <= b * d
  {
    assert a * c <= b * c;
    assert b * c <= b * d;
  }

  /** Fractions compare as their cross products. */
  lemma CrossDivide(a: real, b: real, c: real, d: real)
    requires b > 0.0 && d > 0.0
    ensures a / b <= c / d <==> a * d <= c * b
    ensures a / b < c / d <==> a * d < c * b
  {
    var x, y := a / b, c / d;
    assert a == x * b && c == y * d;
    assert a * d == x * (b * d) && c * b == y * (b * d);
    assert b * d > 0.0;
    if x < y { assert x * (b * d) < y * (b * d); }
    if y < x { assert y * (b * d) < x * (b * d); }
  }

  lemma RsiBounded(xs: seq<real>, i: nat, period: nat)
    requires i < |xs| && period >= 1
    ensures RsiAt(xs, i, period).Some? ==> 0.0 <= RsiAt(xs, i, period).value <= 100.0
  {
    if i >= period {
      SmoothedNonNegative(Gains(xs), period, i - 1);
      SmoothedNonNegative(Losses(xs), period, i - 1);
      StrengthIsShare(Smoothed(Gains(xs), period, i - 1), Smoothed(Losses(xs), period, i - 1));
    }
  }
}

/** The power-law fit of price against days since the genesis block: the running-sum series against the
    two-pass least squares, and the pull of the last price on its own fitted value. */
module PowerLaw {
  import opened Maths
  import opened Rolling
  import opened Sums

  /** A price on a day, days counted in the proleptic Gregorian calendar from 1 January of year 1. */
  datatype Dated = Dated(day: int, price: real)

  /** 3 January 2009. */
  const GENESIS_DAY := 733410

  /** Days up to genesis and prices that are not positive take no part in the regression. */
  predicate Fits(d: Dated) { d.day - GENESIS_DAY > 0 && d.price > 0.0 }

  function LnAge(f: Maths, day: int): real { f.ln((day - GENESIS_DAY) as real) }

  function Xs(f: Maths, dated: seq<Dated>): seq<real>
  {
    if dated == [] then []
    else
      var n := |dated| - 1;
      if Fits(dated[n]) then Xs(f, dated[..n]) + [LnAge(f, dated[n].day)] else Xs(f, dated[..n])
  }

  function Ys(f: Maths, dated: seq<Dated>): (ys: seq<real>)
    ensures |ys| == |Xs(f, dated)|
  {
    if dated == [] then []
    else
      var n := |dated| - 1;
      if Fits(dated[n]) then Ys(f, dated[..n]) + [f.ln(dated[n].price)] else Ys(f, dated[..n])
  }

  // ---- two-pass least squares ----

  function Total(us: seq<real>): real { if us == [] then 0.0 else Total(us[..|us| - 1]) + us[|us| - 1] }

  /** Sum of the products of the deviations of `us` from `a` and of `vs` from `b`. */
  function Deviations(us: seq<real>, vs: seq<real>, a: real, b: real): real
    requires |us| == |vs|
  {
    if us == [] then 0.0
    else
      var n := |us| - 1;
      Deviations(us[..n], vs[..n], a, b) + Times(us[n] - a, vs[n] - b)
  }

  datatype Line = Line(slope: real, intercept: real)

  function At(l: Line, x: real): real { l.intercept + Times(l.slope, x) }

  /** The line through the means `mx` and `my` with the given sums of squares and products. */
  function LineOf(mx: real, my: real, xx: real, xy: real): Line
    requires xx > 0.0
  {
    Line(xy / xx, my - Times(xy / xx, mx))
  }

  /** The least-squares line by its definition, over deviations from the means. */
  function Fit(xs: seq<real>, ys: seq<real>, minimum: nat): Option<Line>
    requires |xs| == |ys|
  {
    if |xs| < Later(2, minimum) then None
    else
      var mx, my := Total(xs) / |xs| as real, Total(ys) / |xs| as real;
      var denominator := Deviations(xs, xs, mx, mx);
      if denominator <= 0.0 then None
      else Some(LineOf(mx, my, denominator, Deviations(xs, ys, mx, my)))
  }

  /** The fair value on day `asOf` from all points of the series. */
  function FairValue(f: Maths, dated: seq<Dated>, asOf: int, minimum: nat): Option<real>
  {
    var fit := Fit(Xs(f, dated), Ys(f, dated), minimum);
    if fit.None? || asOf - GENESIS_DAY <= 0 then None
    else Some(f.exp(At(fit.value, LnAge(f, asOf))))
  }

  // ---- the running-sum form ----

  function Dot(us: seq<real>, vs: seq<real>): real
    requires |us| == |vs|
  {
    if us == [] then 0.0
    else
      var n := |us| - 1;
      Dot(us[..n], vs[..n]) + Times(us[n], vs[n])
  }

  /** Products of deviations from the means, as the one-pass loop computes them from running sums. */
  function Running(q: real, s: real, r: real, n: real): real
    requires n > 0.0
  {
    q - Times(s, r) / n
  }

  /** The same, multiplied out around any centres. */
  function ExpandedProducts(q: real, s: real, r: real, n: real, a: real, b: real): real
  {
    q - b * s - a * r + n * (a * b)
  }

  lemma ProductsStep(q: real, s: real, r: real, n: real, a: real, b: real, u: real, v: real)
    ensures ExpandedProducts(q + Times(u, v), s + u, r + v, n + 1.0, a, b) ==
            ExpandedProducts(q, s, r, n, a, b) + Times(u - a, v - b)
  {
    assert (u - a) * (v - b) == u * v - b * u - a * v + a * b;
    assert b * (s + u) == b * s + b * u;
    assert a * (r + v) == a * r + a * v;
    assert (n + 1.0) * (a * b) == n * (a * b) + a * b;
  }

  lemma {:induction false} ProductsExpand(us: seq<real>, vs: seq<real>, a: real, b: real)
    requires |us| == |vs|
    ensures Deviations(us, vs, a, b) == ExpandedProducts(Dot(us, vs), Total(us), Total(vs), |us| as real, a, b)
  {
    if us != [] {
      var n := |us| - 1;
      ProductsExpand(us[..n], vs[..n], a, b);
      ProductsStep(Dot(us[..n], vs[..n]), Total(us[..n]), Total(vs[..n]), n as real, a, b, us[n], vs[n]);
    } else {
      assert vs == [];
    }
  }

  lemma CentreAlgebra(q: real, s: real, r: real, n: real)
    requires n > 0.0
    ensures ExpandedProducts(q, s, r, n, s / n, r / n) == Running(q, s, r, n)
  {
    var a, b := s / n, r / n;
    assert s == a * n && r == b * n;
    assert b * s == n * (a * b) && a * r == n * (a * b);
    assert s * r == (n * (a * b)) * n;
  }

  /** The one-pass formula is the two-pass sum. */
  lemma RunningIsCentred(us: seq<real>, vs: seq<real>)
    requires |us| == |vs| > 0
    ensures var n := |us| as real;
            Running(Dot(us, vs), Total(us), Total(vs), n) == Deviations(us, vs, Total(us) / n, Total(vs) / n)
  {
    var n := |us| as real;
    ProductsExpand(us, vs, Total(us) / n, Total(vs) / n);
    CentreAlgebra(Dot(us, vs), Total(us), Total(vs), n);
  }

  /** The value of the series at index `i`: the two-pass fit of everything up to `i`, read off on day `i`. */
  function FairAt(f: Maths, dated: seq<Dated>, i: nat, minimum: nat): Option<real>
    requires i < |dated|
  {
    if Fits(dated[i]) then FairValue(f, dated[..i + 1], dated[i].day, minimum) else None
  }

  /** The running sums of the points seen so far. */
  ghost predicate RunningSums(n: nat, sx: real, sy: real, sxx: real, sxy: real, xs: seq<real>, ys: seq<real>)
  {
    n == |xs| == |ys| && sx == Total(xs) && sy == Total(ys) && sxx == Dot(xs, xs) && sxy == Dot(xs, ys)
  }

  lemma RunningStep(n: nat, sx: real, sy: real, sxx: real, sxy: real, xs: seq<real>, ys: seq<real>, x: real, y: real)
    requires RunningSums(n, sx, sy, sxx, sxy, xs, ys)
    ensures RunningSums(n + 1, sx + x, sy + y, sxx + Times(x, x), sxy + Times(x, y), xs + [x], ys + [y])
  {
    assert (xs + [x])[..|xs|] == xs && (ys + [y])[..|ys|] == ys;
  }

  lemma PointsStep(f: Maths, dated: seq<Dated>, i: nat)
    requires i < |dated|
    ensures Fits(dated[i]) ==> Xs(f, dated[..i + 1]) == Xs(f, dated[..i]) + [LnAge(f, dated[i].day)]
    ensures Fits(dated[i]) ==> Ys(f, dated[..i + 1]) == Ys(f, dated[..i]) + [f.ln(dated[i].price)]
    ensures !Fits(dated[i]) ==> Xs(f, dated[..i + 1]) == Xs(f, dated[..i]) && Ys(f, dated[..i + 1]) == Ys(f, dated[..i])
  {
    assert dated[..i + 1][..i] == dated[..i];
  }

  /** The fitted value from running sums, where the two-pass fit exists. */
  method RunningFit(f: Maths, n: nat, sx: real, sy: real, sxx: real, sxy: real, x: real, minimum: nat,
                    ghost xs: seq<real>, ghost ys: seq<real>) returns (fair: Option<real>)
    requires RunningSums(n, sx, sy, sxx, sxy, xs, ys)
    ensures fair == if Fit(xs, ys, minimum).None? then None else Some(f.exp(At(Fit(xs, ys, minimum).value, x)))
  {
    if n < Later(2, minimum) { return None; }
    RunningIsCentred(xs, xs);
    RunningIsCentred(xs, ys);
    var denominator := Running(sxx, sx, sx, n as real);
    if denominator <= 0.0 { return None; }
    var slope := Running(sxy, sx, sy, n as real) / denominator;
    var intercept := sy / n as real - Times(slope, sx / n as real);
    fair := Some(f.exp(intercept + Times(slope, x)));
  }

  /** One pass over the series with five running sums. */
  method PowerLawFairSeries(f: Maths, dated: seq<Dated>, minimum: nat) returns (out: seq<Option<real>>)
    ensures |out| == |dated| && forall i :: 0 <= i < |dated| ==> out[i] == FairAt(f, dated, i, minimum)
  {
    out := seq(|dated|, _ => None);
    var n, sx, sy, sxx, sxy := 0, 0.0, 0.0, 0.0, 0.0;
    assert dated[..0] == [];
    for i := 0 to |dated|
      invariant |out| == |dated|
      invariant RunningSums(n, sx, sy, sxx, sxy, Xs(f, dated[..i]), Ys(f, dated[..i]))
      invariant forall j :: 0 <= j < i ==> out[j] == FairAt(f, dated, j, minimum)
      invariant forall j :: i <= j < |dated| ==> out[j] == None
    {
      PointsStep(f, dated, i);
      if !Fits(dated[i]) { continue; }
      var x, y := LnAge(f, dated[i].day), f.ln(dated[i].price);
      RunningStep(n, sx, sy, sxx, sxy, Xs(f, dated[..i]), Ys(f, dated[..i]), x, y);
      n, sx, sy, sxx, sxy := n + 1, sx + x, sy + y, sxx + Times(x, x), sxy + Times(x, y);
      var fair := RunningFit(f, n, sx, sy, sxx, sxy, x, minimum, Xs(f, dated[..i + 1]), Ys(f, dated[..i + 1]));
      out := out[i := fair];
    }
  }

  // ---- the pull of the last point on its own fitted value ----

  lemma {:induction false} SquaresNonNegative(us: seq<real>, m: real)
    ensures Deviations(us, us, m, m) >= 0.0
  {
    if us != [] {
      SquaresNonNegative(us[..|us| - 1], m);
      SquareNonNegative(us[|us| - 1] - m);
    }
  }

  /** Cauchy-Schwarz for the distances of `us` from any centre. */
  lemma DistanceBound(us: seq<real>, m: real)
    requires us != []
    ensures var n := |us| as real;
            Times(Total(us) - n * m, Total(us) - n * m) <= Times(n, Deviations(us, us, m, m))
  {
    var n := |us| as real;
    RunningIsCentred(us, us);
    SquaresNonNegative(us, Total(us) / n);
    ProductsExpand(us, us, m, m);
    BoundAlgebra(n, Total(us), Dot(us, us), m);
  }

  lemma BoundAlgebra(n: real, s: real, q: real, m: real)
    requires n > 0.0 && Running(q, s, s, n) >= 0.0
    ensures Times(s - n * m, s - n * m) <= Times(n, ExpandedProducts(q, s, s, n, m, m))
  {
    var e := s * s / n;
    var w, z := m * s, m * m;
    assert q >= e && e * n == s * s;
    assert n * q >= n * e;
    assert n * (q - w - w + n * z) == n * q - 2.0 * (n * w) + n * (n * z);
    var k := n * m;
    assert (s - k) * (s - k) == s * s - 2.0 * (k * s) + k * k;
    assert k * s == n * w;
    assert k * k == n * (n * z);
  }

  /** The squared distance of the last point from the mean, and all squared distances. */
  ghost function LastDistance(xs: seq<real>, x: real): real { x - Total(xs + [x]) / (|xs| + 1) as real }

  ghost function Spread(xs: seq<real>): real
    requires xs != []
  {
    Deviations(xs, xs, Total(xs) / |xs| as real, Total(xs) / |xs| as real)
  }

  /** No point pulls the line at its own place by more than it moves itself. */
  lemma LeverageAtMostOne(xs: seq<real>, x: real)
    requires xs != []
    ensures var n, e := (|xs| + 1) as real, LastDistance(xs, x);
            Times(n, Times(e, e)) <= Times(n - 1.0, Spread(xs + [x]))
  {
    var all, n := xs + [x], (|xs| + 1) as real;
    assert all[..|xs|] == xs;
    var m := Total(all) / n;
    DistanceBound(xs, m);
    LeverageAlgebra(n, Total(xs), x, Deviations(xs, xs, m, m));
  }

  lemma LeverageAlgebra(n: real, s: real, x: real, rest: real)
    requires n > 1.0
    requires var m := (s + x) / n; Times(s - (n - 1.0) * m, s - (n - 1.0) * m) <= Times(n - 1.0, rest)
    ensures var e := x - (s + x) / n; Times(n, Times(e, e)) <= Times(n - 1.0, rest + Times(e, e))
  {
    var m := (s + x) / n;
    var e := x - m;
    assert n * m == s + x;
    assert (n - 1.0) * m == n * m - m;
    assert s - (n - 1.0) * m == -e;
    assert (-e) * (-e) == e * e;
    var z := e * e;
    assert (n - 1.0) * (rest + z) == (n - 1.0) * rest + n * z - z;
  }

  /** The fitted line at its last point, with the point raised by `delta`. */
  lemma RaisedFit(xs: seq<real>, ys: seq<real>, x: real, y: real, delta: real, minimum: nat)
    requires |xs| == |ys| > 0
    ensures var low, high := Fit(xs + [x], ys + [y], minimum), Fit(xs + [x], ys + [y + delta], minimum);
            && low.Some? == high.Some?
            && (low.Some? ==>
                  var n, e, d := (|xs| + 1) as real, LastDistance(xs, x), Spread(xs + [x]);
                  && d > 0.0
                  && At(high.value, x) == At(low.value, x) + Times(delta, 1.0 / n + Times(e, e) / d))
  {
    var all, n := xs + [x], (|xs| + 1) as real;
    var low, high := ys + [y], ys + [y + delta];
    assert all[..|xs|] == xs && low[..|ys|] == ys && high[..|ys|] == ys;
    RunningIsCentred(all, low);
    RunningIsCentred(all, high);
    assert Times(x, y + delta) == Times(x, y) + Times(x, delta);
    if Fit(all, low, minimum).Some? {
      FitAlgebra(n, Total(all), Total(low), Dot(all, low), x, delta, Spread(all));
    }
  }

  lemma FitAlgebra(n: real, sx: real, sy: real, sxy: real, x: real, delta: real, d: real)
    requires n > 0.0 && d > 0.0
    ensures var e := x - sx / n;
            At(LineOf(sx / n, (sy + delta) / n, d, Running(sxy + Times(x, delta), sx, sy + delta, n)), x)
            == At(LineOf(sx / n, sy / n, d, Running(sxy, sx, sy, n)), x) + Times(delta, 1.0 / n + Times(e, e) / d)
  {
    var mx := sx / n;
    var e := x - mx;
    var a, b := Running(sxy, sx, sy, n), Running(sxy + Times(x, delta), sx, sy + delta, n);
    RunningRaised(n, sx, sy, sxy, x, delta);
    LineRise(a, Times(e, delta), d, mx, x, sy / n, delta / n);
    assert (sy + delta) / n == sy / n + delta / n by { AddFractions(sy, delta, n); }
    Pull(e, delta, d, n);
  }

  lemma RunningRaised(n: real, sx: real, sy: real, sxy: real, x: real, delta: real)
    requires n > 0.0
    ensures Running(sxy + Times(x, delta), sx, sy + delta, n) == Running(sxy, sx, sy, n) + Times(x - sx / n, delta)
  {
    var m := sx / n;
    assert sx * (sy + delta) == sx * sy + sx * delta;
    AddFractions(sx * sy, sx * delta, n);
    assert sx == m * n;
    assert sx * delta == (m * delta) * n;
    assert sx * delta / n == m * delta;
    assert (x - m) * delta == x * delta - m * delta;
  }

  /** How the value at `x` moves when the products grow by `w` and the mean by `h`. */
  lemma LineRise(a: real, w: real, d: real, mx: real, x: real, my: real, h: real)
    requires d > 0.0
    ensures At(LineOf(mx, my + h, d, a + w), x) == At(LineOf(mx, my, d, a), x) + h + Times(w / d, x - mx)
  {
    var s, t := a / d, w / d;
    AddFractions(a, w, d);
    assert (s + t) * mx == s * mx + t * mx;
    assert (s + t) * x == s * x + t * x;
    assert t * (x - mx) == t * x - t * mx;
  }

  lemma Pull(e: real, delta: real, d: real, n: real)
    requires d > 0.0 && n > 0.0
    ensures delta / n + Times(Times(e, delta) / d, e) == Times(delta, 1.0 / n + Times(e, e) / d)
  {
    var u, v := 1.0 / n, e * e / d;
    assert delta / n == delta * u by { assert u * n == 1.0; assert (delta * u) * n == delta; }
    var w := e * delta / d;
    assert w * d == e * delta;
    assert v * d == e * e;
    assert (w * e) * d == (delta * v) * d by {
      assert (w * e) * d == (w * d) * e;
      assert (delta * v) * d == delta * (v * d);
      assert (e * delta) * e == delta * (e * e);
    }
    assert w * e == delta * v;
    assert delta * (u + v) == delta * u + delta * v;
  }

  /** Raising the last price never lowers its distance above the fitted line. */
  lemma ResidualRises(xs: seq<real>, ys: seq<real>, x: real, y: real, y': real, minimum: nat)
    requires |xs| == |ys| && y <= y'
    ensures var low, high := Fit(xs + [x], ys + [y], minimum), Fit(xs + [x], ys + [y'], minimum);
            && low.Some? == high.Some?
            && (low.Some? ==> y - At(low.value, x) <= y' - At(high.value, x))
  {
    if xs == [] { return; }
    var delta := y' - y;
    assert y + delta == y';
    RaisedFit(xs, ys, x, y, delta, minimum);
    if Fit(xs + [x], ys + [y], minimum).Some? {
      LeverageAtMostOne(xs, x);
      LeverageFraction((|xs| + 1) as real, LastDistance(xs, x), Spread(xs + [x]), delta);
    }
  }

  lemma LeverageFraction(n: real, e: real, d: real, delta: real)
    requires n > 0.0 && d > 0.0 && delta >= 0.0 && Times(n, Times(e, e)) <= Times(n - 1.0, d)
    ensures Times(delta, 1.0 / n + Times(e, e) / d) <= delta
  {
    var u, z := 1.0 / n, e * e;
    var v := z / d;
    assert u * n == 1.0 && v * d == z;
    assert n * z <= (n - 1.0) * d;
    assert n * v <= n - 1.0 by {
      var gap := n - 1.0 - n * v;
      assert gap * d == (n - 1.0) * d - n * (v * d);
      assert gap * d >= 0.0;
    }
    assert n * (u + v) == n * u + n * v;
    assert u + v <= 1.0;
    assert delta * (u + v) <= delta;
  }
}

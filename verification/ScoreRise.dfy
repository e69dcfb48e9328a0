/** How far the code is from "the score never rises with today's price": when the short deviation exists at one of
    two prices only, some weights make one score strictly higher than the other exactly when some other indicator
    lies on the far side of it. */
module ScoreRise {
  import opened Maths
  import opened PiCondition
  import opened PowerLaw
  import opened Rsi
  import opened Score
  import opened ScoreLaws
  import opened ScoreMonotone
  import opened SignalOrder
  import opened Signals
  import opened Sums

  const SHORT: Indicator := Percentile(ShortZ)

  /** Both exist, and the second is higher. */
  predicate Climbs(low: Option<real>, high: Option<real>) { low.Some? && high.Some? && low.value < high.value }

  // ---- one more low value never lifts an average, and one high value less neither ----

  function WeightOf(item: Weighted): real { if Counts(item) then item.weight else 0.0 }

  /** An item falls, or appears with a value of at most `v`. */
  predicate Joins(a: Weighted, b: Weighted, v: real)
  {
    a.weight == b.weight &&
    (a.weight > 0.0 ==> Rises(b.value, a.value) || (a.value.None? && b.value.Some? && b.value.value <= v))
  }

  /** An item falls, or vanishes from a value of at least `v`. */
  predicate Leaves(a: Weighted, b: Weighted, v: real)
  {
    a.weight == b.weight &&
    (a.weight > 0.0 ==> Rises(b.value, a.value) || (b.value.None? && a.value.Some? && a.value.value >= v))
  }

  predicate AtLeast(item: Weighted, v: real) { Counts(item) ==> item.value.value >= v }
  predicate AtMost(item: Weighted, v: real) { Counts(item) ==> item.value.value <= v }

  lemma {:induction false} SumsJoin(as_: seq<Weighted>, bs: seq<Weighted>, v: real)
    requires |as_| == |bs| && forall i :: 0 <= i < |as_| ==> Joins(as_[i], bs[i], v) && AtLeast(as_[i], v)
    ensures UsableWeight(as_) <= UsableWeight(bs) && Times(v, UsableWeight(as_)) <= WeightedSum(as_)
    ensures WeightedSum(bs) <= WeightedSum(as_) + Times(v, UsableWeight(bs) - UsableWeight(as_))
  {
    if as_ != [] {
      var n := |as_| - 1;
      SumsJoin(as_[..n], bs[..n], v);
      assert Joins(as_[n], bs[n], v) && AtLeast(as_[n], v);
      JoinStep(as_[n], bs[n], v, UsableWeight(as_[..n]), UsableWeight(bs[..n]));
    }
  }

  function Term(item: Weighted): real { if Counts(item) then Times(item.value.value, item.weight) else 0.0 }

  lemma JoinStep(a: Weighted, b: Weighted, v: real, u: real, w: real)
    requires Joins(a, b, v) && AtLeast(a, v)
    ensures WeightOf(a) <= WeightOf(b) && Times(v, u + WeightOf(a)) <= Times(v, u) + Term(a)
    ensures Term(b) - Term(a) + Times(v, w - u) <= Times(v, (w + WeightOf(b)) - (u + WeightOf(a)))
  {
    if a.weight > 0.0 {
      if a.value.Some? { TermOrder(v, a.value.value, a.weight); }
      if b.value.Some? { TermOrder(b.value.value, if a.value.Some? then a.value.value else v, a.weight); }
    }
    assert Times(v, u + WeightOf(a)) == Times(v, u) + Times(v, WeightOf(a));
    assert Times(v, (w + WeightOf(b)) - (u + WeightOf(a))) == Times(v, w - u) + Times(v, WeightOf(b) - WeightOf(a));
  }

  lemma {:induction false} SumsLeave(as_: seq<Weighted>, bs: seq<Weighted>, v: real)
    requires |as_| == |bs| && forall i :: 0 <= i < |as_| ==> Leaves(as_[i], bs[i], v) && AtMost(bs[i], v)
    ensures UsableWeight(bs) <= UsableWeight(as_) && WeightedSum(bs) <= Times(v, UsableWeight(bs))
    ensures WeightedSum(bs) + Times(v, UsableWeight(as_) - UsableWeight(bs)) <= WeightedSum(as_)
  {
    if as_ != [] {
      var n := |as_| - 1;
      SumsLeave(as_[..n], bs[..n], v);
      assert Leaves(as_[n], bs[n], v) && AtMost(bs[n], v);
      LeaveStep(as_[n], bs[n], v, UsableWeight(as_[..n]), UsableWeight(bs[..n]));
    }
  }

  lemma LeaveStep(a: Weighted, b: Weighted, v: real, u: real, w: real)
    requires Leaves(a, b, v) && AtMost(b, v)
    ensures WeightOf(b) <= WeightOf(a) && Times(v, w) + Term(b) <= Times(v, w + WeightOf(b))
    ensures Times(v, (u + WeightOf(a)) - (w + WeightOf(b))) + Term(b) <= Times(v, u - w) + Term(a)
  {
    if a.weight > 0.0 {
      if b.value.Some? { TermOrder(b.value.value, v, a.weight); }
      if a.value.Some? { TermOrder(if b.value.Some? then b.value.value else v, a.value.value, a.weight); }
    }
    assert Times(v, w + WeightOf(b)) == Times(v, w) + Times(v, WeightOf(b));
    assert Times(v, (u + WeightOf(a)) - (w + WeightOf(b))) == Times(v, u - w) + Times(v, WeightOf(a) - WeightOf(b));
  }

  lemma MeanBounds(t: real, w: real, v: real)
    requires w > 0.0
    ensures t <= Times(v, w) ==> t / w <= v
    ensures Times(v, w) <= t ==> v <= t / w
  {
    var mean := t / w;
    assert t == mean * w;
    if v < mean { StrictProducts(0.0, mean - v, 0.0, w); }
    if mean < v { StrictProducts(0.0, v - mean, 0.0, w); }
    assert (mean - v) * w == mean * w - v * w;
  }

  /** The mean of `s` over `u` and of `t` over `w`, when what joins is at most `v` and `v` at most the first mean. */
  lemma MeanJoins(s: real, u: real, t: real, w: real, v: real)
    requires 0.0 < u <= w && Times(v, u) <= s && t <= s + Times(v, w - u)
    ensures v <= s / u && t / w <= s / u
  {
    var mean := s / u;
    assert s == Times(mean, u);
    MeanBounds(s, u, v);
    TermOrder(v, mean, w - u);
    assert Times(mean, u) + Times(mean, w - u) == Times(mean, w);
    MeanBounds(t, w, mean);
  }

  /** And when what leaves is at least `v` and `v` at least the second mean. */
  lemma MeanLeaves(s: real, u: real, t: real, w: real, v: real)
    requires 0.0 < w <= u && t <= Times(v, w) && t + Times(v, u - w) <= s
    ensures t / w <= v && t / w <= s / u
  {
    var mean := t / w;
    assert t == Times(mean, w);
    MeanBounds(t, w, v);
    TermOrder(mean, v, u - w);
    assert Times(mean, w) + Times(mean, u - w) == Times(mean, u);
    MeanBounds(s, u, mean);
  }

  lemma AverageJoins(as_: seq<Weighted>, bs: seq<Weighted>, v: real, weight: real)
    requires |as_| == |bs| && forall i :: 0 <= i < |as_| ==> Joins(as_[i], bs[i], v) && AtLeast(as_[i], v)
    ensures var a, b := Weighted(WeightedAverage(as_), weight), Weighted(WeightedAverage(bs), weight);
            Joins(a, b, v) && AtLeast(a, v)
  {
    SumsJoin(as_, bs, v);
    var s, u, t, w := WeightedSum(as_), UsableWeight(as_), WeightedSum(bs), UsableWeight(bs);
    if u > 0.0 {
      MeanJoins(s, u, t, w, v);
    } else if w > 0.0 {
      NothingUsable(as_);
      assert w - u == w;
      MeanBounds(t, w, v);
    }
  }

  lemma AverageLeaves(as_: seq<Weighted>, bs: seq<Weighted>, v: real, weight: real)
    requires |as_| == |bs| && forall i :: 0 <= i < |as_| ==> Leaves(as_[i], bs[i], v) && AtMost(bs[i], v)
    ensures var a, b := Weighted(WeightedAverage(as_), weight), Weighted(WeightedAverage(bs), weight);
            Leaves(a, b, v) && AtMost(b, v)
  {
    SumsLeave(as_, bs, v);
    var s, u, t, w := WeightedSum(as_), UsableWeight(as_), WeightedSum(bs), UsableWeight(bs);
    if w > 0.0 {
      MeanLeaves(s, u, t, w, v);
    } else if u > 0.0 {
      NothingUsable(bs);
      assert u - w == u;
      MeanBounds(s, u, v);
    }
  }

  lemma {:induction false} NothingUsable(items: seq<Weighted>)
    requires UsableWeight(items) <= 0.0
    ensures WeightedSum(items) == 0.0
  {
    if items != [] { NothingUsable(items[..|items| - 1]); }
  }

  // ---- the readings of a day, with the short deviation at one of two prices only ----

  /** All other indicators fall with the price. */
  ghost predicate OthersFall(r: Readings, r': Readings)
  {
    forall k: Indicator :: k != SHORT ==> Rises(Reading(r', k), Reading(r, k))
  }

  /** Another indicator lies below the value with which the short deviation appears, or above the one from which
      it vanishes. */
  ghost predicate FarSide(r: Readings, r': Readings, k: Indicator)
  {
    var z, z' := Reading(r, SHORT), Reading(r', SHORT);
    k != SHORT && Reading(r, k).Some? && Reading(r', k).Some? &&
    if z.None? then z'.Some? && Reading(r, k).value < z'.value
    else z'.None? && z.value < Reading(r', k).value
  }

  lemma ComponentJoins(w: Weights, r: Readings, r': Readings, v: real, c: Component)
    requires OthersFall(r, r') && Reading(r, SHORT) == None && Reading(r', SHORT) == Some(v)
    requires forall k: Indicator :: !FarSide(r, r', k)
    ensures var a := Weighted(WeightedAverage(ComponentItems(w, c, r)), ComponentWeight(w, c));
            var b := Weighted(WeightedAverage(ComponentItems(w, c, r')), ComponentWeight(w, c));
            Joins(a, b, v) && AtLeast(a, v)
  {
    var items, items' := ComponentItems(w, c, r), ComponentItems(w, c, r');
    forall j | 0 <= j < |items| ensures Joins(items[j], items'[j], v) && AtLeast(items[j], v) {
      var k := IndicatorsOf(c)[j];
      assert !FarSide(r, r', k);
    }
    AverageJoins(items, items', v, ComponentWeight(w, c));
  }

  lemma TotalJoins(w: Weights, r: Readings, r': Readings, v: real)
    requires OthersFall(r, r') && Reading(r, SHORT) == None && Reading(r', SHORT) == Some(v)
    requires forall k: Indicator :: !FarSide(r, r', k)
    ensures !Climbs(TotalScore(w, r), TotalScore(w, r'))
  {
    var items, items' := TotalItems(w, r), TotalItems(w, r');
    forall i | 0 <= i < |items| ensures Joins(items[i], items'[i], v) && AtLeast(items[i], v) {
      ComponentJoins(w, r, r', v, COMPONENTS[i]);
    }
    AverageJoins(items, items', v, 1.0);
    if WeightedAverage(items).Some? { ClampOrder(WeightedAverage(items').value, WeightedAverage(items).value); }
  }

  lemma ComponentLeaves(w: Weights, r: Readings, r': Readings, v: real, c: Component)
    requires OthersFall(r, r') && Reading(r, SHORT) == Some(v) && Reading(r', SHORT) == None
    requires forall k: Indicator :: !FarSide(r, r', k)
    ensures var a := Weighted(WeightedAverage(ComponentItems(w, c, r)), ComponentWeight(w, c));
            var b := Weighted(WeightedAverage(ComponentItems(w, c, r')), ComponentWeight(w, c));
            Leaves(a, b, v) && AtMost(b, v)
  {
    var items, items' := ComponentItems(w, c, r), ComponentItems(w, c, r');
    forall j | 0 <= j < |items| ensures Leaves(items[j], items'[j], v) && AtMost(items'[j], v) {
      var k := IndicatorsOf(c)[j];
      assert !FarSide(r, r', k);
    }
    AverageLeaves(items, items', v, ComponentWeight(w, c));
  }

  lemma TotalLeaves(w: Weights, r: Readings, r': Readings, v: real)
    requires OthersFall(r, r') && Reading(r, SHORT) == Some(v) && Reading(r', SHORT) == None
    requires forall k: Indicator :: !FarSide(r, r', k)
    ensures !Climbs(TotalScore(w, r), TotalScore(w, r'))
  {
    var items, items' := TotalItems(w, r), TotalItems(w, r');
    forall i | 0 <= i < |items| ensures Leaves(items[i], items'[i], v) && AtMost(items'[i], v) {
      ComponentLeaves(w, r, r', v, COMPONENTS[i]);
    }
    AverageLeaves(items, items', v, 1.0);
    if WeightedAverage(items').Some? { ClampOrder(WeightedAverage(items').value, WeightedAverage(items).value); }
  }

  // ---- weights under which the score climbs ----

  /** The mean of two items, of those that count. */
  function Mixed(a: Weighted, b: Weighted): Option<real>
  {
    if WeightOf(a) + WeightOf(b) <= 0.0 then None else Some((Term(a) + Term(b)) / (WeightOf(a) + WeightOf(b)))
  }

  lemma OneMayCount(items: seq<Weighted>, i: nat)
    requires i < |items| && forall l :: 0 <= l < |items| && l != i ==> !Counts(items[l])
    ensures UsableWeight(items) == WeightOf(items[i]) && WeightedSum(items) == Term(items[i])
  {
    if Counts(items[i]) { OneCounts(items, i); } else { NothingCounts(items); }
  }

  lemma {:induction false} TwoMayCount(items: seq<Weighted>, i: nat, j: nat)
    requires i < |items| && j < |items| && i != j
    requires forall l :: 0 <= l < |items| && l != i && l != j ==> !Counts(items[l])
    ensures WeightedSum(items) == Term(items[i]) + Term(items[j])
    ensures UsableWeight(items) == WeightOf(items[i]) + WeightOf(items[j])
  {
    var n := |items| - 1;
    if i == n {
      OneMayCount(items[..n], j);
    } else if j == n {
      OneMayCount(items[..n], i);
    } else {
      TwoMayCount(items[..n], i, j);
    }
  }

  /** Weight one on an indicator, and weight `x` on the short deviation. */
  function PairWeights(k: Indicator, x: real): Weights
  {
    if Home(k) == Deviation then
      Weights(map[Deviation := 1.0], map[(Deviation, k) := 1.0, (Deviation, SHORT) := x])
    else
      Weights(map[Home(k) := 1.0, Deviation := x], map[(Home(k), k) := 1.0, (Deviation, SHORT) := 1.0])
  }

  /** In one component: the mean is taken there. */
  lemma PairWithin(k: Indicator, x: real, r: Readings)
    requires k != SHORT && Home(k) == Deviation
    ensures WeightedAverage(TotalItems(PairWeights(k, x), r)) ==
            Mixed(Weighted(Reading(r, k), 1.0), Weighted(Reading(r, SHORT), x))
  {
    var w := PairWeights(k, x);
    assert IndicatorsOf(Deviation)[0] == SHORT && IndicatorsOf(Deviation)[1] == k;
    TwoMayCount(ComponentItems(w, Deviation, r), 1, 0);
    OnlyOrNone(TotalItems(w, r), Place(Deviation));
  }

  lemma PairHome(k: Indicator, x: real, r: Readings)
    requires k != SHORT && Home(k) != Deviation
    ensures WeightedAverage(ComponentItems(PairWeights(k, x), Home(k), r)) == Reading(r, k)
  {
    var j :| 0 <= j < |IndicatorsOf(Home(k))| && IndicatorsOf(Home(k))[j] == k;
    OnlyOrNone(ComponentItems(PairWeights(k, x), Home(k), r), j);
  }

  lemma PairShort(k: Indicator, x: real, r: Readings)
    requires k != SHORT && Home(k) != Deviation
    ensures WeightedAverage(ComponentItems(PairWeights(k, x), Deviation, r)) == Reading(r, SHORT)
  {
    assert IndicatorsOf(Deviation)[0] == SHORT;
    OnlyOrNone(ComponentItems(PairWeights(k, x), Deviation, r), 0);
  }

  lemma TwoComponents(w: Weights, r: Readings, c: Component, a: Weighted, z: Weighted)
    requires c != Deviation && forall d: Component :: d != c && d != Deviation ==> ComponentWeight(w, d) <= 0.0
    requires a == Weighted(WeightedAverage(ComponentItems(w, c, r)), ComponentWeight(w, c))
    requires z == Weighted(WeightedAverage(ComponentItems(w, Deviation, r)), ComponentWeight(w, Deviation))
    ensures WeightedAverage(TotalItems(w, r)) == Mixed(a, z)
  {
    TwoMayCount(TotalItems(w, r), Place(c), Place(Deviation));
  }

  /** In two components: the mean is taken over them. */
  lemma PairAcross(k: Indicator, x: real, r: Readings)
    requires k != SHORT && Home(k) != Deviation
    ensures WeightedAverage(TotalItems(PairWeights(k, x), r)) ==
            Mixed(Weighted(Reading(r, k), 1.0), Weighted(Reading(r, SHORT), x))
  {
    PairHome(k, x, r);
    PairShort(k, x, r);
    TwoComponents(PairWeights(k, x), r, Home(k), Weighted(Reading(r, k), 1.0), Weighted(Reading(r, SHORT), x));
  }

  lemma PairTotal(k: Indicator, x: real, r: Readings)
    requires k != SHORT && AllInRange(r)
    ensures TotalScore(PairWeights(k, x), r) == Mixed(Weighted(Reading(r, k), 1.0), Weighted(Reading(r, SHORT), x))
  {
    TotalInRange(PairWeights(k, x), r);
    if Home(k) == Deviation { PairWithin(k, x, r); } else { PairAcross(k, x, r); }
  }

  /** With enough weight on a higher value that appears, the mean climbs; */
  lemma AppearingClimbs(a: real, a': real, v: real) returns (x: real)
    requires a' <= a < v
    ensures Climbs(Mixed(Weighted(Some(a), 1.0), Weighted(None, x)),
                   Mixed(Weighted(Some(a'), 1.0), Weighted(Some(v), x)))
  {
    var q := (a - a') / (v - a);
    assert q * (v - a) == a - a';
    x := q + 1.0;
    assert x * (v - a) == a - a' + (v - a);
    CrossDivide(a, 1.0, a' + v * x, 1.0 + x);
    assert a / 1.0 == a;
  }

  /** and with enough weight on a lower one that vanishes. */
  lemma VanishingClimbs(a: real, a': real, v: real) returns (x: real)
    requires a' <= a && v < a'
    ensures Climbs(Mixed(Weighted(Some(a), 1.0), Weighted(Some(v), x)),
                   Mixed(Weighted(Some(a'), 1.0), Weighted(None, x)))
  {
    var q := (a - a') / (a' - v);
    assert q * (a' - v) == a - a';
    x := q + 1.0;
    assert x * (a' - v) == a - a' + (a' - v);
    CrossDivide(a + v * x, 1.0 + x, a', 1.0);
    assert a' / 1.0 == a';
  }

  lemma FarSideClimbs(r: Readings, r': Readings, k: Indicator) returns (w: Weights)
    requires AllInRange(r) && AllInRange(r') && OthersFall(r, r') && FarSide(r, r', k)
    ensures Climbs(TotalScore(w, r), TotalScore(w, r'))
  {
    var a, a', z, z' := Reading(r, k).value, Reading(r', k).value, Reading(r, SHORT), Reading(r', SHORT);
    assert Rises(Reading(r', k), Reading(r, k));
    var x: real;
    if z.None? { x := AppearingClimbs(a, a', z'.value); } else { x := VanishingClimbs(a, a', z.value); }
    w := PairWeights(k, x);
    PairTotal(k, x, r);
    PairTotal(k, x, r');
  }

  // ---- one history and two prices ----

  /** Under some weights the higher price has the strictly higher score. */
  ghost predicate ClimbsUnderSome(f: Maths, m: Model, dated: seq<Dated>, raised: seq<Dated>, i: nat)
    requires Usable(m) && i < |dated| && i < |raised|
  {
    exists w: Weights :: Climbs(ScoreAt(f, m, w, dated, i), ScoreAt(f, m, w, raised, i))
  }

  lemma RanksDiffer(f: Maths, m: Model, xs: seq<real>, ys: seq<real>, i: nat)
    requires Lawful(f) && Usable(m) && LastRaised(xs, ys, i) && !ShortSteady(m, xs, ys, i)
    ensures HasRank(m, xs, i) != HasRank(m, ys, i)
  {
    SteadyMeansAlike(f, m, xs, ys, i);
  }

  lemma BothPositive(dated: seq<Dated>, raised: seq<Dated>, i: nat)
    requires LastDayRaised(dated, raised, i)
    ensures forall k :: 0 <= k <= i ==> Prices(dated)[k] > 0.0 && Prices(raised)[k] > 0.0
  {
  }

  /** When it is not steady, the short deviation has a percentile at one price only. */
  lemma UnsteadyDiffers(f: Maths, m: Model, dated: seq<Dated>, raised: seq<Dated>, i: nat)
    requires Lawful(f) && Usable(m) && LastDayRaised(dated, raised, i)
    requires !ShortSteady(m, Prices(dated), Prices(raised), i)
    ensures Reading(ReadingsAt(f, m, dated, i), SHORT).Some? != Reading(ReadingsAt(f, m, raised, i), SHORT).Some?
  {
    PricesRaised(dated, raised, i);
    RanksDiffer(f, m, Prices(dated), Prices(raised), i);
    BothPositive(dated, raised, i);
    ShortDefinedIff(f, m, dated, i);
    ShortDefinedIff(f, m, raised, i);
  }

  lemma ShortDefinedIff(f: Maths, m: Model, dated: seq<Dated>, i: nat)
    requires Lawful(f) && Usable(m) && i < |dated| && forall k :: 0 <= k <= i ==> Prices(dated)[k] > 0.0
    ensures Reading(ReadingsAt(f, m, dated, i), SHORT).Some? <==> HasRank(m, Prices(dated), i)
  {
    ReadingIs(f, m, dated, i, ShortZ);
    ShortPercentileDefinedIff(f, m, Prices(dated), i);
  }

  lemma TotalStays(w: Weights, r: Readings, r': Readings)
    requires OthersFall(r, r') && Reading(r, SHORT).Some? != Reading(r', SHORT).Some?
    requires forall k: Indicator :: !FarSide(r, r', k)
    ensures !Climbs(TotalScore(w, r), TotalScore(w, r'))
  {
    if Reading(r, SHORT).None? {
      TotalJoins(w, r, r', Reading(r', SHORT).value);
    } else {
      TotalLeaves(w, r, r', Reading(r, SHORT).value);
    }
  }

  lemma OthersFallAt(f: Maths, m: Model, dated: seq<Dated>, raised: seq<Dated>, i: nat)
    requires Lawful(f) && Usable(m) && m.piShort <= m.piLong && LastDayRaised(dated, raised, i)
    ensures OthersFall(ReadingsAt(f, m, dated, i), ReadingsAt(f, m, raised, i))
  {
    forall k: Indicator | k != SHORT
      ensures Rises(Reading(ReadingsAt(f, m, raised, i), k), Reading(ReadingsAt(f, m, dated, i), k))
    {
      ReadingsFall(f, m, dated, raised, i, k);
    }
  }

  lemma SteadyStays(f: Maths, m: Model, w: Weights, dated: seq<Dated>, raised: seq<Dated>, i: nat)
    requires Lawful(f) && Usable(m) && m.piShort <= m.piLong && LastDayRaised(dated, raised, i)
    requires i + 1 >= m.minimumHistory && ShortSteady(m, Prices(dated), Prices(raised), i)
    ensures !Climbs(TotalScore(w, ReadingsAt(f, m, dated, i)), TotalScore(w, ReadingsAt(f, m, raised, i)))
  {
    ScoreFalls(f, m, w, dated, raised, i);
  }

  lemma UnsteadyStays(f: Maths, m: Model, w: Weights, dated: seq<Dated>, raised: seq<Dated>, i: nat)
    requires Lawful(f) && Usable(m) && m.piShort <= m.piLong && LastDayRaised(dated, raised, i)
    requires !ShortSteady(m, Prices(dated), Prices(raised), i)
    requires forall k: Indicator :: !FarSide(ReadingsAt(f, m, dated, i), ReadingsAt(f, m, raised, i), k)
    ensures !Climbs(TotalScore(w, ReadingsAt(f, m, dated, i)), TotalScore(w, ReadingsAt(f, m, raised, i)))
  {
    UnsteadyDiffers(f, m, dated, raised, i);
    OthersFallAt(f, m, dated, raised, i);
    TotalStays(w, ReadingsAt(f, m, dated, i), ReadingsAt(f, m, raised, i));
  }

  lemma NoFarSide(f: Maths, m: Model, w: Weights, dated: seq<Dated>, raised: seq<Dated>, i: nat)
    requires Lawful(f) && Usable(m) && m.piShort <= m.piLong && LastDayRaised(dated, raised, i)
    requires forall k: Indicator :: !FarSide(ReadingsAt(f, m, dated, i), ReadingsAt(f, m, raised, i), k)
    ensures !Climbs(ScoreAt(f, m, w, dated, i), ScoreAt(f, m, w, raised, i))
  {
    if i + 1 >= m.minimumHistory {
      if ShortSteady(m, Prices(dated), Prices(raised), i) {
        SteadyStays(f, m, w, dated, raised, i);
      } else {
        UnsteadyStays(f, m, w, dated, raised, i);
      }
    }
  }

  lemma SomeFarSide(f: Maths, m: Model, dated: seq<Dated>, raised: seq<Dated>, i: nat, k: Indicator)
    requires Lawful(f) && Usable(m) && m.piShort <= m.piLong && LastDayRaised(dated, raised, i)
    requires i + 1 >= m.minimumHistory && FarSide(ReadingsAt(f, m, dated, i), ReadingsAt(f, m, raised, i), k)
    ensures ClimbsUnderSome(f, m, dated, raised, i)
  {
    ReadingsInRange(f, m, dated, i);
    ReadingsInRange(f, m, raised, i);
    OthersFallAt(f, m, dated, raised, i);
    var w := FarSideClimbs(ReadingsAt(f, m, dated, i), ReadingsAt(f, m, raised, i), k);
    assert Climbs(ScoreAt(f, m, w, dated, i), ScoreAt(f, m, w, raised, i));
  }

  /** With nested pi averages, raising today's price lifts a defined score to a higher one under some weights
      exactly when the short deviation appears above another indicator, or vanishes below one. */
  lemma ClimbsIff(f: Maths, m: Model, dated: seq<Dated>, raised: seq<Dated>, i: nat)
    requires Lawful(f) && Usable(m) && m.piShort <= m.piLong && LastDayRaised(dated, raised, i)
    ensures ClimbsUnderSome(f, m, dated, raised, i) <==>
            i + 1 >= m.minimumHistory
            && exists k: Indicator :: FarSide(ReadingsAt(f, m, dated, i), ReadingsAt(f, m, raised, i), k)
  {
    if i + 1 >= m.minimumHistory {
      if k: Indicator :| FarSide(ReadingsAt(f, m, dated, i), ReadingsAt(f, m, raised, i), k) {
        SomeFarSide(f, m, dated, raised, i, k);
      } else {
        forall w: Weights ensures !Climbs(ScoreAt(f, m, w, dated, i), ScoreAt(f, m, w, raised, i)) {
          NoFarSide(f, m, w, dated, raised, i);
        }
      }
    }
  }
}

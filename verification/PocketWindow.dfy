/** Pocket's search for the one contiguous group of pending purchases that a withdrawal pays out. */
module PocketWindow {
  import opened Sums
  import opened Sorting
  import opened Pending

  /** Two satoshis, in BTC. */
  const TOLERANCE: real := 0.00000002

  /** Total of the first `k` purchases. */
  function Prefix(ps: seq<Purchase>, k: nat): real
    requires k <= |ps|
  {
    if k == 0 then 0.0 else Prefix(ps, k - 1) + ps[k - 1].gross
  }

  datatype Window = Window(start: nat, end: nat)

  predicate IsWindow(ps: seq<Purchase>, w: Window) { w.start < w.end <= |ps| }

  function Total(ps: seq<Purchase>, w: Window): real
    requires IsWindow(ps, w)
  {
    Prefix(ps, w.end) - Prefix(ps, w.start)
  }

  function Abs(x: real): real { if x < 0.0 then -x else x }

  /** How far a group may be off: two satoshis, the explicit fee on top, or a thousandth of the group. */
  function Allowed(total: real, slack: real): real
  {
    Max(TOLERANCE, Max(slack + TOLERANCE, total * 0.001))
  }

  function Deviation(ps: seq<Purchase>, gross: real, w: Window): real
    requires IsWindow(ps, w)
  {
    Abs(Total(ps, w) - gross)
  }

  predicate Admissible(ps: seq<Purchase>, gross: real, slack: real, w: Window)
  {
    IsWindow(ps, w) && Deviation(ps, gross, w) <= Allowed(Total(ps, w), slack)
  }

  /** The group a withdrawal unambiguously stands for: admissible, and every other admissible group of
      the whole list is off by more than two satoshis more. */
  ghost predicate Unambiguous(ps: seq<Purchase>, gross: real, slack: real, w: Window)
  {
    && Admissible(ps, gross, slack, w)
    && forall v: Window :: v != w && Admissible(ps, gross, slack, v) ==>
         Deviation(ps, gross, v) > Deviation(ps, gross, w) + TOLERANCE
  }

  ghost predicate NonNegative(ps: seq<Purchase>) { forall p <- ps :: p.gross >= 0.0 }
  ghost predicate NoDust(ps: seq<Purchase>) { forall p <- ps :: p.gross > TOLERANCE }

  // ---- prefix sums ----

  lemma {:induction false} PrefixGrows(ps: seq<Purchase>, i: nat, j: nat)
    requires i < j <= |ps| && NonNegative(ps)
    ensures Prefix(ps, j) >= Prefix(ps, i)
    ensures NoDust(ps) ==> Prefix(ps, j) > Prefix(ps, i) + TOLERANCE
  {
    assert ps[j - 1] in ps;
    if i < j - 1 { PrefixGrows(ps, i, j - 1); }
  }

  method PrefixSums(ps: seq<Purchase>) returns (prefix: seq<real>)
    ensures |prefix| == |ps| + 1
    ensures forall k :: 0 <= k <= |ps| ==> prefix[k] == Prefix(ps, k)
  {
    prefix := [0.0];
    for i := 0 to |ps|
      invariant |prefix| == i + 1
      invariant forall k :: 0 <= k <= i ==> prefix[k] == Prefix(ps, k)
    {
      prefix := prefix + [prefix[i] + ps[i].gross];
    }
  }

  /** `bisect_left(xs, x, lo)`. */
  method BisectLeft(xs: seq<real>, x: real, lo: nat) returns (pos: nat)
    requires lo <= |xs| && forall i, j :: 0 <= i < j < |xs| ==> xs[i] <= xs[j]
    ensures lo <= pos <= |xs|
    ensures forall i :: lo <= i < pos ==> xs[i] < x
    ensures forall i :: pos <= i < |xs| ==> xs[i] >= x
  {
    pos := lo;
    var high := |xs|;
    while pos < high
      invariant lo <= pos <= high <= |xs|
      invariant forall i :: lo <= i < pos ==> xs[i] < x
      invariant forall i :: high <= i < |xs| ==> xs[i] >= x
    {
      var mid := (pos + high) / 2;
      if xs[mid] < x { pos := mid + 1; } else { high := mid; }
    }
  }

  // ---- three ends per start are enough ----

  /** `pos` is the first end at which the group from `start` is not below the target. */
  ghost predicate IsBisect(ps: seq<Purchase>, gross: real, start: nat, pos: nat)
  {
    && start < |ps| && start + 1 <= pos <= |ps| + 1
    && (forall e :: start + 1 <= e < pos ==> Prefix(ps, e) < Prefix(ps, start) + gross)
    && (forall e :: pos <= e <= |ps| ==> Prefix(ps, e) >= Prefix(ps, start) + gross)
  }

  /** The first end from `from` on whose prefix sum reaches the target, or one past the list. */
  ghost function FirstEnd(ps: seq<Purchase>, target: real, from: nat): (pos: nat)
    requires from <= |ps| + 1
    ensures from <= pos <= |ps| + 1
    ensures forall e :: from <= e < pos ==> Prefix(ps, e) < target
    ensures pos <= |ps| ==> Prefix(ps, pos) >= target
    decreases |ps| + 1 - from
  {
    if from == |ps| + 1 || Prefix(ps, from) >= target then from else FirstEnd(ps, target, from + 1)
  }

  ghost function BisectOf(ps: seq<Purchase>, gross: real, start: nat): nat
    requires start < |ps|
  {
    FirstEnd(ps, Prefix(ps, start) + gross, start + 1)
  }

  lemma BisectFits(ps: seq<Purchase>, gross: real, start: nat)
    requires start < |ps| && NonNegative(ps)
    ensures IsBisect(ps, gross, start, BisectOf(ps, gross, start))
  {
    var pos := BisectOf(ps, gross, start);
    forall e | pos <= e <= |ps| ensures Prefix(ps, e) >= Prefix(ps, start) + gross {
      if pos < e { PrefixGrows(ps, pos, e); }
    }
  }

  lemma BisectUnique(ps: seq<Purchase>, gross: real, start: nat, pos: nat)
    requires IsBisect(ps, gross, start, pos)
    ensures pos == BisectOf(ps, gross, start)
  {
    var q := BisectOf(ps, gross, start);
    var near := Prefix(ps, if q < pos then q else if pos < q then pos else 0);
  }

  ghost predicate Examined(pos: nat, end: nat) { pos - 1 <= end <= pos + 1 }

  lemma AllowedGrows(a: real, b: real, slack: real)
    requires a <= b
    ensures Allowed(a, slack) <= Allowed(b, slack)
  {
  }

  lemma AllowedAbove(near: real, far: real, gross: real, slack: real)
    requires gross <= near <= far && far - gross <= Allowed(far, slack)
    ensures near - gross <= Allowed(near, slack)
  {
  }

  /** An end that is not looked at is no better than one that is; without dust it is worse by more than
      two satoshis. */
  lemma Dominated(ps: seq<Purchase>, gross: real, slack: real, start: nat, pos: nat, end: nat)
    returns (better: nat)
    requires NonNegative(ps)
    requires IsBisect(ps, gross, start, pos) && Admissible(ps, gross, slack, Window(start, end)) && !Examined(pos, end)
    ensures Examined(pos, better) && Admissible(ps, gross, slack, Window(start, better))
    ensures Deviation(ps, gross, Window(start, better)) <= Deviation(ps, gross, Window(start, end))
    ensures NoDust(ps) ==>
              Deviation(ps, gross, Window(start, better)) + TOLERANCE < Deviation(ps, gross, Window(start, end))
  {
    if end < pos - 1 {
      better := pos - 1;
      PrefixGrows(ps, end, better);
      AllowedGrows(Total(ps, Window(start, end)), Total(ps, Window(start, better)), slack);
    } else {
      better := pos;
      PrefixGrows(ps, better, end);
      AllowedAbove(Total(ps, Window(start, better)), Total(ps, Window(start, end)), gross, slack);
    }
  }

  // ---- the search ----

  datatype Candidate = Candidate(delta: real, window: Window, total: real)

  predicate CandidateLe(a: Candidate, b: Candidate)
  {
    a.delta < b.delta ||
    (a.delta == b.delta &&
     (a.window.start < b.window.start || (a.window.start == b.window.start && a.window.end <= b.window.end)))
  }

  lemma CandidateOrder()
    ensures Preorder(CandidateLe)
  {
  }

  function CandidateOf(ps: seq<Purchase>, gross: real, w: Window): Candidate
    requires IsWindow(ps, w)
  {
    Candidate(Deviation(ps, gross, w), w, Total(ps, w))
  }

  /** An admissible group that the search looks at. */
  ghost predicate Looked(ps: seq<Purchase>, gross: real, slack: real, w: Window)
  {
    Admissible(ps, gross, slack, w) && Examined(BisectOf(ps, gross, w.start), w.end)
  }

  /** The candidates are exactly the groups looked at from the first `starts` purchases. */
  ghost predicate Covers(ps: seq<Purchase>, gross: real, slack: real, cs: seq<Candidate>, starts: nat)
  {
    && (forall c <- cs :: Looked(ps, gross, slack, c.window) && c == CandidateOf(ps, gross, c.window))
    && (forall w: Window :: w.start < starts && Looked(ps, gross, slack, w) ==> CandidateOf(ps, gross, w) in cs)
  }

  /** The admissible ones among the three ends around `pos`. They are distinct, so no window repeats. */
  method ExamineStart(ps: seq<Purchase>, prefix: seq<real>, gross: real, slack: real, start: nat, pos: nat)
    returns (cs: seq<Candidate>)
    requires start < |ps| && pos == BisectOf(ps, gross, start)
    requires |prefix| == |ps| + 1 && forall k :: 0 <= k <= |ps| ==> prefix[k] == Prefix(ps, k)
    ensures forall c <- cs :: Looked(ps, gross, slack, c.window) && c == CandidateOf(ps, gross, c.window)
    ensures forall e: nat :: Looked(ps, gross, slack, Window(start, e)) ==>
              CandidateOf(ps, gross, Window(start, e)) in cs
  {
    cs := [];
    for end := pos - 1 to pos + 2
      invariant forall c <- cs :: Looked(ps, gross, slack, c.window) && c == CandidateOf(ps, gross, c.window)
      invariant forall e: nat :: e < end && Looked(ps, gross, slack, Window(start, e)) ==>
                  CandidateOf(ps, gross, Window(start, e)) in cs
    {
      if start < end <= |ps| {
        var total := prefix[end] - prefix[start];
        var delta := Abs(total - gross);
        if delta <= Allowed(total, slack) { cs := cs + [Candidate(delta, Window(start, end), total)]; }
      }
    }
  }

  method Candidates(ps: seq<Purchase>, gross: real, slack: real) returns (cs: seq<Candidate>)
    requires NonNegative(ps)
    ensures Covers(ps, gross, slack, cs, |ps|)
  {
    cs := [];
    var prefix := PrefixSums(ps);
    forall i, j | 0 <= i < j < |prefix| ensures prefix[i] <= prefix[j] { PrefixGrows(ps, i, j); }
    for start := 0 to |ps|
      invariant Covers(ps, gross, slack, cs, start)
    {
      var pos := BisectLeft(prefix, prefix[start] + gross, start + 1);
      assert IsBisect(ps, gross, start, pos);
      BisectUnique(ps, gross, start, pos);
      var more := ExamineStart(ps, prefix, gross, slack, start, pos);
      CoversMore(ps, gross, slack, cs, more, start);
      cs := cs + more;
    }
  }

  lemma CoversMore(ps: seq<Purchase>, gross: real, slack: real, cs: seq<Candidate>, more: seq<Candidate>, start: nat)
    requires start < |ps| && Covers(ps, gross, slack, cs, start)
    requires forall c <- more :: Looked(ps, gross, slack, c.window) && c == CandidateOf(ps, gross, c.window)
    requires forall e: nat :: Looked(ps, gross, slack, Window(start, e)) ==>
               CandidateOf(ps, gross, Window(start, e)) in more
    ensures Covers(ps, gross, slack, cs + more, start + 1)
  {
    forall w: Window | w.start < start + 1 && Looked(ps, gross, slack, w)
      ensures CandidateOf(ps, gross, w) in cs + more
    {
      if w.start == start { assert w == Window(start, w.end); }
    }
  }

  /** What the search returns: the best group it looked at, if no other one it looked at is within two
      satoshis of it. */
  ghost predicate Chosen(ps: seq<Purchase>, gross: real, slack: real, w: Window)
  {
    && gross > 0.0
    && Looked(ps, gross, slack, w)
    && forall v: Window :: v != w && Looked(ps, gross, slack, v) ==>
         Deviation(ps, gross, v) > Deviation(ps, gross, w) + TOLERANCE
  }

  method MatchingWindow(ps: seq<Purchase>, gross: real, slack: real) returns (r: Option<Window>)
    requires NonNegative(ps)
    ensures forall w: Window :: r == Some(w) <==> Chosen(ps, gross, slack, w)
  {
    if gross <= 0.0 || ps == [] { return None; }
    var cs := Candidates(ps, gross, slack);
    if cs == [] { return None; }
    var best := BestCandidate(cs);
    var close := set c | c in cs && Abs(c.delta - best.delta) <= TOLERANCE :: c.window;
    assert best.window in close;
    if |close| != 1 {
      OtherElement(close, best.window);
      var w :| w in close - {best.window};
      RivalBlocks(ps, gross, slack, cs, best, close, w);
      return None;
    }
    OnlyElement(close, best.window);
    NoRival(ps, gross, slack, cs, best, close);
    r := Some(best.window);
  }

  /** The first candidate in (deviation, start, end) order. */
  method BestCandidate(cs: seq<Candidate>) returns (best: Candidate)
    requires cs != []
    ensures best in cs && forall c <- cs :: CandidateLe(best, c) && c.delta >= best.delta
  {
    var sorted := Sort(cs, CandidateLe);
    CandidateOrder();
    SortSorts(cs, CandidateLe);
    SortPermutes(cs, CandidateLe);
    SameElements(sorted, cs);
    best := sorted[0];
    forall c | c in cs ensures CandidateLe(best, c) {
      var k :| 0 <= k < |sorted| && sorted[k] == c;
      if k > 0 { assert CandidateLe(sorted[0], sorted[k]); }
    }
  }

  lemma OtherElement<T>(s: set<T>, x: T)
    requires x in s && |s| != 1
    ensures s - {x} != {}
  {
    assert |s - {x}| == |s| - 1;
  }

  lemma OnlyElement<T>(s: set<T>, x: T)
    requires x in s && |s| == 1
    ensures s == {x}
  {
    assert |s - {x}| == 0;
    assert s == {x} + (s - {x});
  }

  lemma NoRival(ps: seq<Purchase>, gross: real, slack: real, cs: seq<Candidate>, best: Candidate, close: set<Window>)
    requires gross > 0.0 && Covers(ps, gross, slack, cs, |ps|) && best in cs && forall c <- cs :: c.delta >= best.delta
    requires close == (set c | c in cs && Abs(c.delta - best.delta) <= TOLERANCE :: c.window) && close == {best.window}
    ensures forall w: Window :: Chosen(ps, gross, slack, w) <==> w == best.window
  {
    forall v: Window | v != best.window && Looked(ps, gross, slack, v)
      ensures Deviation(ps, gross, v) > Deviation(ps, gross, best.window) + TOLERANCE
    {
      assert CandidateOf(ps, gross, v) in cs;
      assert v !in close;
    }
  }

  /** With a second candidate within two satoshis of the best, nothing is chosen. */
  lemma RivalBlocks(ps: seq<Purchase>, gross: real, slack: real, cs: seq<Candidate>, best: Candidate,
                    close: set<Window>, w: Window)
    requires Covers(ps, gross, slack, cs, |ps|) && best in cs && forall c <- cs :: c.delta >= best.delta
    requires close == (set c | c in cs && Abs(c.delta - best.delta) <= TOLERANCE :: c.window)
    requires w in close && w != best.window
    ensures forall v: Window :: !Chosen(ps, gross, slack, v)
  {
    var rival :| rival in cs && Abs(rival.delta - best.delta) <= TOLERANCE && rival.window == w;
    forall v: Window ensures !Chosen(ps, gross, slack, v) {
      if Looked(ps, gross, slack, v) {
        assert CandidateOf(ps, gross, v) in cs;
        var other := if v == best.window then w else best.window;
        assert Looked(ps, gross, slack, other);
        assert Deviation(ps, gross, other) <= Deviation(ps, gross, v) + TOLERANCE;
      }
    }
  }

  // ---- what the search decides about all groups ----

  /** Every admissible group is looked at, or matched by one that is. */
  lemma Represented(ps: seq<Purchase>, gross: real, slack: real, v: Window) returns (u: Window)
    requires NonNegative(ps) && Admissible(ps, gross, slack, v)
    ensures Looked(ps, gross, slack, u) && Deviation(ps, gross, u) <= Deviation(ps, gross, v)
    ensures u == v || (NoDust(ps) ==> Deviation(ps, gross, u) + TOLERANCE < Deviation(ps, gross, v))
  {
    var pos := BisectOf(ps, gross, v.start);
    BisectFits(ps, gross, v.start);
    if Examined(pos, v.end) {
      u := v;
    } else {
      assert v == Window(v.start, v.end);
      var end := Dominated(ps, gross, slack, v.start, pos, v.end);
      u := Window(v.start, end);
    }
  }

  /** The chosen group attains the smallest deviation of all admissible contiguous groups. */
  lemma ChosenIsOptimal(ps: seq<Purchase>, gross: real, slack: real, w: Window, v: Window)
    requires NonNegative(ps) && Chosen(ps, gross, slack, w) && Admissible(ps, gross, slack, v)
    ensures Deviation(ps, gross, w) <= Deviation(ps, gross, v)
  {
    var u := Represented(ps, gross, slack, v);
  }

  /** The search is complete: an unambiguous group is found although only three ends per start are
      looked at. */
  lemma UnambiguousIsChosen(ps: seq<Purchase>, gross: real, slack: real, w: Window)
    requires NonNegative(ps) && gross > 0.0 && Unambiguous(ps, gross, slack, w)
    ensures Chosen(ps, gross, slack, w)
  {
    var u := Represented(ps, gross, slack, w);
  }

  lemma SameBisect(ps: seq<Purchase>, gross: real, start: nat)
    requires start + 1 < |ps| && gross > 0.0 && Prefix(ps, start + 1) == Prefix(ps, start)
    ensures BisectOf(ps, gross, start) == BisectOf(ps, gross, start + 1)
  {
  }

  /** A group without BTC fits as well without its first purchase. */
  lemma ShorterFits(ps: seq<Purchase>, gross: real, slack: real, w: Window)
    requires NonNegative(ps) && gross > 0.0 && Looked(ps, gross, slack, w) && Total(ps, w) <= 0.0
    requires w.start + 1 < w.end
    ensures var v := Window(w.start + 1, w.end);
            Looked(ps, gross, slack, v) && Deviation(ps, gross, v) == Deviation(ps, gross, w)
  {
    var v := Window(w.start + 1, w.end);
    PrefixGrows(ps, w.start, w.start + 1);
    PrefixGrows(ps, w.start + 1, w.end);
    SameBisect(ps, gross, w.start);
    assert Total(ps, v) == Total(ps, w);
  }

  /** A chosen group without BTC is a single purchase. */
  lemma EmptyGroupIsSingle(ps: seq<Purchase>, gross: real, slack: real, w: Window)
    requires NonNegative(ps) && Chosen(ps, gross, slack, w) && Total(ps, w) <= 0.0
    ensures w.end == w.start + 1
  {
    if w.start + 1 < w.end { ShorterFits(ps, gross, slack, w); }
  }

  /** With every pending purchase above two satoshis, the search answers exactly the question over all
      contiguous groups: it returns a group if and only if that group is unambiguous. */
  lemma ChosenIffUnambiguous(ps: seq<Purchase>, gross: real, slack: real, w: Window)
    requires NoDust(ps) && gross > 0.0
    ensures Chosen(ps, gross, slack, w) <==> Unambiguous(ps, gross, slack, w)
  {
    assert NonNegative(ps);
    if Chosen(ps, gross, slack, w) {
      forall v: Window | v != w && Admissible(ps, gross, slack, v)
        ensures Deviation(ps, gross, v) > Deviation(ps, gross, w) + TOLERANCE
      {
        var u := Represented(ps, gross, slack, v);
      }
    }
    if Unambiguous(ps, gross, slack, w) { UnambiguousIsChosen(ps, gross, slack, w); }
  }

  /** One BTC, dust of `g`, five BTC, and a withdrawal of one BTC and twice the dust. */
  function DustList(g: real): seq<Purchase> { [Purchase(1, 1.0), Purchase(2, g), Purchase(3, 5.0)] }

  /** Any dust of up to two satoshis can hide a rival: the search settles on the first two purchases although
      the first one alone fits within two satoshis as well. */
  lemma DustHidesRival(g: real)
    requires 0.0 < g <= TOLERANCE
    ensures NonNegative(DustList(g))
    ensures Chosen(DustList(g), 1.0 + 2.0 * g, 0.0, Window(0, 2))
    ensures !Unambiguous(DustList(g), 1.0 + 2.0 * g, 0.0, Window(0, 2))
  {
    var ps, gross := DustList(g), 1.0 + 2.0 * g;
    assert Prefix(ps, 0) == 0.0;
    assert Prefix(ps, 1) == 1.0;
    assert Prefix(ps, 2) == 1.0 + g;
    assert Prefix(ps, 3) == 6.0 + g;
    DustSearch(ps, g, gross);
    assert Admissible(ps, gross, 0.0, Window(0, 1));
  }

  lemma DustSearch(ps: seq<Purchase>, g: real, gross: real)
    requires |ps| == 3 && 0.0 < g <= TOLERANCE && gross == 1.0 + 2.0 * g
    requires Prefix(ps, 0) == 0.0 && Prefix(ps, 1) == 1.0 && Prefix(ps, 2) == 1.0 + g && Prefix(ps, 3) == 6.0 + g
    ensures Chosen(ps, gross, 0.0, Window(0, 2))
  {
    BisectUnique(ps, gross, 0, 3);
    BisectUnique(ps, gross, 1, 3);
    BisectUnique(ps, gross, 2, 3);
    forall v: Window | v != Window(0, 2) ensures !Looked(ps, gross, 0.0, v) {
      if IsWindow(ps, v) && v != Window(0, 1) { OtherTotals(ps, g, v); }
    }
  }

  lemma OtherTotals(ps: seq<Purchase>, g: real, v: Window)
    requires |ps| == 3 && 0.0 < g <= TOLERANCE && IsWindow(ps, v) && v != Window(0, 2) && v != Window(0, 1)
    requires Prefix(ps, 0) == 0.0 && Prefix(ps, 1) == 1.0 && Prefix(ps, 2) == 1.0 + g && Prefix(ps, 3) == 6.0 + g
    ensures Total(ps, v) < 0.5 || Total(ps, v) > 4.0
  {
    assert v == Window(0, 3) || v == Window(1, 2) || v == Window(1, 3) || v == Window(2, 3);
  }

  /** For all lists of purchases of at least `g`, the search returns a group if and only if it is unambiguous. */
  ghost predicate SearchIsExact(g: real)
  {
    forall ps: seq<Purchase>, gross: real, slack: real, w: Window ::
      (forall p <- ps :: p.gross >= g) && gross > 0.0 ==>
        (Chosen(ps, gross, slack, w) <==> Unambiguous(ps, gross, slack, w))
  }

  /** Two satoshis is the threshold: the search is exact on purchases of at least `g` exactly when `g` is above. */
  lemma ExactAboveTwoSatoshis(g: real)
    ensures SearchIsExact(g) <==> g > TOLERANCE
  {
    if g > TOLERANCE {
      forall ps: seq<Purchase>, gross: real, slack: real, w: Window
        | (forall p <- ps :: p.gross >= g) && gross > 0.0
        ensures Chosen(ps, gross, slack, w) <==> Unambiguous(ps, gross, slack, w)
      {
        ChosenIffUnambiguous(ps, gross, slack, w);
      }
    } else {
      var dust := if g > 0.0 then g else TOLERANCE;
      DustHidesRival(dust);
      assert forall p <- DustList(dust) :: p.gross >= g;
    }
  }
}

/** First in, first out, stated without the algorithm: what is left of the k-th lot of a depot is a
    formula over the amounts acquired and matched so far. */
module FifoDiscipline {
  import opened Sums
  import opened Ledger
  import opened Fifo
  import opened FifoLaws

  /** BTC acquired by the first `k` lots. */
  function Acquired(q: seq<Lot>, k: nat): real
    requires k <= |q|
  {
    if k == 0 then 0.0 else Acquired(q, k - 1) + q[k - 1].original
  }

  /** The queue after `used` BTC have been taken from its front. */
  ghost predicate Drained(q: seq<Lot>, used: real)
  {
    q == [] ||
    (q[0].remaining == Max(0.0, q[0].original - used) && Drained(q[1..], Max(0.0, used - q[0].original)))
  }

  lemma DrainedFront(l: Lot, tail: seq<Lot>, used: real)
    ensures Drained([l] + tail, used) <==>
            l.remaining == Max(0.0, l.original - used) && Drained(tail, Max(0.0, used - l.original))
  {
    assert ([l] + tail)[1..] == tail;
  }

  lemma AcquiredFront(l: Lot, tail: seq<Lot>, k: nat)
    requires k <= |tail|
    ensures Acquired([l] + tail, k + 1) == l.original + Acquired(tail, k)
  {
    if k > 0 { AcquiredFront(l, tail, k - 1); }
  }

  lemma {:induction false} AcquiredNonNegative(q: seq<Lot>, k: nat)
    requires k <= |q| && SoundLots(q)
    ensures Acquired(q, k) >= 0.0
  {
    if k > 0 { AcquiredNonNegative(q, k - 1); }
  }

  /** What is due from behind a front lot, with the front lot counted in. */
  lemma LeftBehind(original: real, acquired: real, front: real, used: real)
    requires 0.0 < original <= acquired && 0.0 <= used && 0.0 < front
    ensures Max(0.0, Min(original, acquired - Max(0.0, used - front))) ==
            Max(0.0, Min(original, front + acquired - used))
  {
  }

  lemma OriginalWithin(q: seq<Lot>, k: nat)
    requires k < |q| && SoundLots(q)
    ensures 0.0 < q[k].original <= Acquired(q, k + 1)
  {
    AcquiredNonNegative(q, k);
    assert q[k] in q;
  }

  lemma {:induction false} DrainedAt(q: seq<Lot>, used: real, k: nat)
    requires k < |q| && Drained(q, used) && used >= 0.0 && SoundLots(q)
    ensures q[k].remaining == Max(0.0, Min(q[k].original, Acquired(q, k + 1) - used))
  {
    var l, tail := q[0], q[1..];
    assert q == [l] + tail;
    AcquiredFront(l, tail, k);
    if k > 0 {
      DrainedAt(tail, Max(0.0, used - l.original), k - 1);
      OriginalWithin(tail, k - 1);
      LeftBehind(q[k].original, Acquired(tail, k), l.original, used);
    }
  }

  lemma TargetSkip(original: real, rest: real, used: real, due: real)
    requires 0.0 < original <= used <= original + rest && 0.0 <= due
    ensures Max(0.0, Min(used + due, original + rest) - original) == Min(Max(0.0, used - original) + due, rest)
    ensures Max(0.0, original - Min(used + due, original + rest)) == 0.0
  {
  }

  lemma TargetTake(original: real, rest: real, used: real, due: real, part: real)
    requires 0.0 <= used < original && 0.0 <= due && 0.0 <= rest
    requires part == Min(original - used, due)
    ensures Max(0.0, Min(used + due, original + rest) - original) == Min(Max(0.0, used - original) + (due - part), rest)
    ensures original - used - part == Max(0.0, original - Min(used + due, original + rest))
  {
  }

  /** One disposal takes as much as it can, and it takes it from the front. */
  ghost predicate DrawsFully(d: Drain, due: real, used: real, total: real)
  {
    Drained(d.lots, Min(used + due, total)) && d.rest == due - (Min(used + due, total) - used)
  }

  /** A drained queue, seen as its front lot and the rest. */
  lemma SplitFront(q: seq<Lot>, used: real)
    requires q != [] && Drained(q, used) && SoundLots(q) && 0.0 <= used <= Acquired(q, |q|)
    ensures var l, tail, behind := q[0], q[1..], Max(0.0, used - q[0].original);
            && q == [l] + tail && SoundLots(tail) && 0.0 < l.original
            && Acquired(q, |q|) == l.original + Acquired(tail, |tail|) && 0.0 <= Acquired(tail, |tail|)
            && l.remaining == Max(0.0, l.original - used)
            && Drained(tail, behind) && 0.0 <= behind <= Acquired(tail, |tail|)
  {
    assert q == [q[0]] + q[1..];
    DrainedFront(q[0], q[1..], used);
    AcquiredFront(q[0], q[1..], |q| - 1);
    AcquiredNonNegative(q[1..], |q| - 1);
  }

  /** The queue's front lot is spent: what happens behind it happens to the whole queue. */
  lemma FullySkip(q: seq<Lot>, total: real, l: Lot, tail: seq<Lot>, it: Item, due: real, used: real, rest: real)
    requires q == [l] + tail && total == l.original + rest && Skips(l, it)
    requires 0.0 < l.original <= used <= total && 0.0 < due && l.remaining == 0.0
    requires DrawsFully(Draw(tail, it, due), due, Max(0.0, used - l.original), rest)
    ensures DrawsFully(Draw(q, it, due), due, used, total)
  {
    DrawSkip(l, tail, it, due);
    TargetSkip(l.original, rest, used, due);
    DrainedFront(l, Draw(tail, it, due).lots, Min(used + due, total));
  }

  lemma FullyTake(q: seq<Lot>, total: real, l: Lot, tail: seq<Lot>, it: Item, due: real, used: real, rest: real,
                  part: real)
    requires q == [l] + tail && total == l.original + rest && !Skips(l, it)
    requires 0.0 <= used < l.original && 0.0 < due && 0.0 <= rest
    requires part == Min(l.remaining, due) && l.remaining == l.original - used
    requires DrawsFully(Draw(tail, it, due - part), due - part, Max(0.0, used - l.original), rest)
    ensures DrawsFully(Draw(q, it, due), due, used, total)
  {
    DrawTake(l, tail, it, due, part);
    TargetTake(l.original, rest, used, due, part);
    DrainedFront(l.(remaining := l.remaining - part), Draw(tail, it, due - part).lots, Min(used + due, total));
  }

  lemma NothingToDraw(q: seq<Lot>, it: Item, due: real, used: real)
    requires Drained(q, used) && 0.0 <= used <= Acquired(q, |q|) && 0.0 <= due && (q == [] || due == 0.0)
    ensures DrawsFully(Draw(q, it, due), due, used, Acquired(q, |q|))
  {
  }

  lemma {:induction false} DrawDrains(q: seq<Lot>, it: Item, due: real, used: real)
    requires Drained(q, used) && SoundLots(q) && 0.0 <= used <= Acquired(q, |q|) && 0.0 <= due
    requires forall l <- q :: l.depot == it.depot
    ensures DrawsFully(Draw(q, it, due), due, used, Acquired(q, |q|))
    decreases |q|
  {
    if q == [] || due == 0.0 {
      NothingToDraw(q, it, due, used);
    } else {
      var l, tail, behind := q[0], q[1..], Max(0.0, used - q[0].original);
      SplitFront(q, used);
      if Skips(l, it) {
        DrawDrains(tail, it, due, behind);
        FullySkip(q, Acquired(q, |q|), l, tail, it, due, used, Acquired(tail, |tail|));
      } else {
        var part := Min(l.remaining, due);
        DrawDrains(tail, it, due - part, behind);
        FullyTake(q, Acquired(q, |q|), l, tail, it, due, used, Acquired(tail, |tail|), part);
      }
    }
  }

  lemma {:induction false} DrainedPush(q: seq<Lot>, l: Lot, used: real)
    requires Drained(q, used) && SoundLots(q) && 0.0 <= used <= Acquired(q, |q|)
    requires l.remaining == l.original && 0.0 < l.original
    ensures Drained(q + [l], used)
    decreases |q|
  {
    if q == [] {
      DrainedFront(l, [], used);
      assert [l] + [] == [l] && [] + [l] == [l];
    } else {
      var h, tail := q[0], q[1..];
      assert q == [h] + tail && q + [l] == [h] + (tail + [l]);
      AcquiredFront(h, tail, |tail|);
      AcquiredNonNegative(tail, |tail|);
      DrainedPush(tail, l, Max(0.0, used - h.original));
      DrainedFront(h, tail + [l], used);
    }
  }

  // ---- the ledger-level reference: no lots, two running totals per depot ----

  /** BTC acquired and BTC matched in one depot after a list of rows. */
  datatype Totals = Totals(acquired: real, matched: real)

  function TotalsStep(t: Totals, it: Item, d: string): Totals
  {
    if it.depot != d || it.amount <= 0.0 then t
    else if Acquires(it.kind) then t.(acquired := t.acquired + it.amount)
    else if Disposes(it.kind) then t.(matched := Min(t.matched + it.amount, t.acquired))
    else t
  }

  function DepotTotals(items: seq<Item>, d: string): Totals
  {
    if items == [] then Totals(0.0, 0.0)
    else TotalsStep(DepotTotals(items[..|items| - 1], d), items[|items| - 1], d)
  }

  function Queue(items: seq<Item>, d: string): seq<Lot> { ByDepot(Run(items).lots, d) }

  lemma QueuePush(lots: seq<Lot>, l: Lot, d: string)
    ensures ByDepot(lots + [l], d) == ByDepot(lots, d) + if l.depot == d then [l] else []
  {
    assert LotDepot(l) == l.depot;
    FilterPush(lots, l, Has(LotDepot, d));
  }

  lemma QueueSound(lots: seq<Lot>, d: string)
    requires SoundLots(lots)
    ensures SoundLots(ByDepot(lots, d)) && forall l <- ByDepot(lots, d) :: l.depot == d
  {
    forall l | l in ByDepot(lots, d) ensures l in lots && l.depot == d {
      assert Has(LotDepot, d)(l) && LotDepot(l) == l.depot;
    }
  }

  lemma AcquiredPush(q: seq<Lot>, l: Lot, k: nat)
    requires k <= |q|
    ensures Acquired(q + [l], k) == Acquired(q, k)
  {
    if k > 0 { AcquiredPush(q, l, k - 1); }
  }

  lemma {:induction false} AcquiredSame(a: seq<Lot>, b: seq<Lot>, k: nat)
    requires SameLots(a, b) && k <= |a|
    ensures Acquired(a, k) == Acquired(b, k)
  {
    if k > 0 {
      AcquiredSame(a, b, k - 1);
      assert a[k - 1].(remaining := 0.0).original == b[k - 1].(remaining := 0.0).original;
    }
  }

  ghost predicate Follows(q: seq<Lot>, t: Totals)
  {
    && SoundLots(q)
    && 0.0 <= t.matched <= t.acquired
    && t.acquired == Acquired(q, |q|)
    && Drained(q, t.matched)
  }

  lemma FollowsPush(q: seq<Lot>, l: Lot, t: Totals)
    requires Follows(q, t) && l.remaining == l.original && 0.0 < l.original
    ensures Follows(q + [l], t.(acquired := t.acquired + l.original))
  {
    DrainedPush(q, l, t.matched);
    AcquiredPush(q, l, |q|);
  }

  lemma FollowsDraw(q: seq<Lot>, it: Item, t: Totals)
    requires Follows(q, t) && it.amount > 0.0
    requires forall l <- q :: l.depot == it.depot
    ensures Follows(Draw(q, it, it.amount).lots, t.(matched := Min(t.matched + it.amount, t.acquired)))
  {
    DrawDrains(q, it, it.amount, t.matched);
    DrawSameLots(q, it, it.amount);
    DrawSound(q, it, it.amount);
    AcquiredSame(q, Draw(q, it, it.amount).lots, |q|);
  }

  lemma QueueFollowsStep(s: State, it: Item, d: string, t: Totals)
    requires SoundLots(s.lots) && Follows(ByDepot(s.lots, d), t)
    ensures Follows(ByDepot(Step(s, it).lots, d), TotalsStep(t, it, d))
  {
    var q := ByDepot(s.lots, d);
    if it.amount > 0.0 && Acquires(it.kind) {
      QueuePush(s.lots, NewLot(it), d);
      if it.depot == d {
        FollowsPush(q, NewLot(it), t);
      } else {
        assert q + [] == q;
      }
    } else if it.amount > 0.0 && Disposes(it.kind) {
      if it.depot == d {
        QueueSound(s.lots, d);
        DrawOwnDepot(s.lots, it, it.amount);
        FollowsDraw(q, it, t);
      } else {
        DrawOtherDepot(s.lots, it, it.amount, d);
      }
    }
  }

  lemma {:induction false} QueueFollows(items: seq<Item>, d: string)
    ensures Follows(Queue(items, d), DepotTotals(items, d))
  {
    if items != [] {
      var n := |items| - 1;
      QueueFollows(items[..n], d);
      RunSound(items[..n]);
      QueueFollowsStep(Run(items[..n]), items[n], d, DepotTotals(items[..n], d));
    }
  }

  /** The closed form of FIFO, for every run, depot and lot. */
  lemma FifoClosedForm(items: seq<Item>, d: string, k: nat)
    requires k < |Queue(items, d)|
    ensures var q, t := Queue(items, d), DepotTotals(items, d);
            q[k].remaining == Max(0.0, Min(q[k].original, Acquired(q, k + 1) - t.matched))
  {
    QueueFollows(items, d);
    DrainedAt(Queue(items, d), DepotTotals(items, d).matched, k);
  }

  /** No lot has been touched while an earlier one of its depot still holds BTC. */
  lemma FifoOrder(items: seq<Item>, d: string, i: nat, j: nat)
    requires i < j < |Queue(items, d)|
    requires Queue(items, d)[j].remaining < Queue(items, d)[j].original
    ensures Queue(items, d)[i].remaining == 0.0
  {
    var q := Queue(items, d);
    FifoClosedForm(items, d, i);
    FifoClosedForm(items, d, j);
    QueueFollows(items, d);
    AcquiredGrows(q, i + 1, j);
  }

  lemma {:induction false} AcquiredGrows(q: seq<Lot>, i: nat, j: nat)
    requires i <= j <= |q| && SoundLots(q)
    ensures Acquired(q, i) <= Acquired(q, j)
  {
    if i < j { AcquiredGrows(q, i, j - 1); }
  }

  lemma RestFormula(amount: real, matched: real, acquired: real)
    requires 0.0 < amount && matched <= acquired
    ensures amount - (Min(matched + amount, acquired) - matched) == Max(0.0, amount - (acquired - matched))
  {
  }

  lemma DrawRest(q: seq<Lot>, it: Item, t: Totals)
    requires Follows(q, t) && it.amount > 0.0
    requires forall l <- q :: l.depot == it.depot
    ensures Draw(q, it, it.amount).rest == Max(0.0, it.amount - (t.acquired - t.matched))
  {
    DrawDrains(q, it, it.amount, t.matched);
    RestFormula(it.amount, t.matched, t.acquired);
  }

  /** How much a disposal leaves uncovered is decided by the two totals alone. */
  lemma UncoveredRest(items: seq<Item>, it: Item)
    requires it.amount > 0.0
    ensures var t := DepotTotals(items, it.depot);
            Draw(Run(items).lots, it, it.amount).rest == Max(0.0, it.amount - (t.acquired - t.matched))
  {
    RunSound(items);
    QueueSound(Run(items).lots, it.depot);
    QueueFollows(items, it.depot);
    DrawRest(Queue(items, it.depot), it, DepotTotals(items, it.depot));
    DrawOwnDepot(Run(items).lots, it, it.amount);
  }

  /** Lots in front of a cursor that has passed only empty lots never matter again. */
  lemma {:induction false} ResumeAtCursor(front: seq<Lot>, back: seq<Lot>, it: Item, due: real)
    requires forall l <- front :: l.remaining <= 0.0
    ensures var d, r := Draw(front + back, it, due), Draw(back, it, due);
            d.lots == front + r.lots && d.moves == r.moves && d.rest == r.rest
  {
    if front == [] {
      assert front + back == back;
      assert front + Draw(back, it, due).lots == Draw(back, it, due).lots;
    } else if due <= 0.0 {
    } else {
      var l := front[0];
      assert front + back == [l] + (front[1..] + back);
      DrawSkip(l, front[1..] + back, it, due);
      ResumeAtCursor(front[1..], back, it, due);
      assert front == [l] + front[1..];
    }
  }
}

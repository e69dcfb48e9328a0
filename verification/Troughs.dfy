/** What FIFO holds, in terms of running balances alone: in every depot, how far the balance stands above its
    lowest value. */
module Troughs {
  import opened Sums
  import opened Sorting
  import opened Ledger
  import opened Fifo
  import opened FifoLaws
  import opened FifoDiscipline
  import opened FifoViews
  import opened Goals

  // ---- one depot: what FIFO holds is how far the balance stands above its lowest point ----

  function DepotBalance(items: seq<Item>, d: string): real { Sum(items, ItemDeltaIn(Some(d))) }

  /** The lowest running balance of a depot, at most the zero it starts from. */
  function Trough(items: seq<Item>, d: string): real
  {
    if items == [] then 0.0 else Min(Trough(items[..|items| - 1], d), DepotBalance(items, d))
  }

  /** How far the balance of a depot stands above its lowest value. */
  function RiseIn(items: seq<Item>, d: string): real { DepotBalance(items, d) - Trough(items, d) }

  /** BTC not yet matched in a depot = balance less trough. */
  lemma {:induction false} UnmatchedIsRise(items: seq<Item>, d: string)
    ensures var t := DepotTotals(items, d); t.acquired - t.matched == RiseIn(items, d)
    ensures DepotBalance(items, d) >= Trough(items, d)
  {
    if items != [] {
      UnmatchedIsRise(items[..|items| - 1], d);
      QueueFollows(items[..|items| - 1], d);
    }
  }

  lemma {:induction false} DrainedSum(q: seq<Lot>, used: real)
    requires Drained(q, used) && SoundLots(q) && 0.0 <= used <= Acquired(q, |q|)
    ensures Sum(q, Remaining) == Acquired(q, |q|) - used
    decreases |q|
  {
    if q != [] {
      SplitFront(q, used);
      DrainedSum(q[1..], Max(0.0, used - q[0].original));
      SumConcat([q[0]], q[1..], Remaining);
      SumOne(q[0], Remaining);
    }
  }

  /** What FIFO holds in a depot at the end of a run is decided by running balances alone. */
  lemma DepotOpenIsRise(items: seq<Item>, d: string)
    ensures Sum(ByDepot(Run(items).lots, d), Remaining) == RiseIn(items, d)
  {
    QueueFollows(items, d);
    DrainedSum(Queue(items, d), DepotTotals(items, d).matched);
    UnmatchedIsRise(items, d);
  }

  /** A disposal is covered exactly when it does not exceed the rise. */
  lemma CoveredIff(items: seq<Item>, it: Item)
    requires it.amount > 0.0
    ensures Draw(Run(items).lots, it, it.amount).rest <= 0.0 <==> it.amount <= RiseIn(items, it.depot)
  {
    UncoveredRest(items, it);
    UnmatchedIsRise(items, it.depot);
  }

  // ---- the lots of a depot ----

  predicate Buys(x: Item) { x.amount > 0.0 && Acquires(x.kind) }

  /** The lots that a list of rows acquires, as they were new. */
  function NewLots(items: seq<Item>): seq<Lot>
  {
    if items == [] then []
    else
      var rest, it := NewLots(items[..|items| - 1]), items[|items| - 1];
      if Buys(it) then rest + [NewLot(it)] else rest
  }

  lemma {:induction false} LotsAreNew(items: seq<Item>)
    ensures SameLots(Run(items).lots, NewLots(items))
  {
    if items != [] {
      var s, it := Run(items[..|items| - 1]), items[|items| - 1];
      LotsAreNew(items[..|items| - 1]);
      if it.amount > 0.0 && Disposes(it.kind) { DrawSameLots(s.lots, it, it.amount); }
    }
  }

  lemma {:induction false} NewLotsOfBuys(items: seq<Item>)
    ensures NewLots(Filter(items, Buys)) == NewLots(items)
  {
    if items != [] {
      var n := |items| - 1;
      NewLotsOfBuys(items[..n]);
      if Buys(items[n]) {
        var kept := Filter(items[..n], Buys);
        assert (kept + [items[n]])[..|kept|] == kept;
      }
    }
  }

  /** The queue is fixed by its lots and by what has been taken from it. */
  lemma {:induction false} DrainedAlike(a: seq<Lot>, b: seq<Lot>, used: real)
    requires SameLots(a, b) && Drained(a, used) && Drained(b, used)
    ensures a == b
    decreases |a|
  {
    if a != [] {
      assert a[0].(remaining := 0.0) == b[0].(remaining := 0.0);
      forall k | 0 <= k < |a| - 1 ensures a[1..][k].(remaining := 0.0) == b[1..][k].(remaining := 0.0) {
        assert a[k + 1].(remaining := 0.0) == b[k + 1].(remaining := 0.0);
      }
      assert a[0].original == a[0].(remaining := 0.0).original;
      assert b[0].original == b[0].(remaining := 0.0).original;
      DrainedAlike(a[1..], b[1..], Max(0.0, used - a[0].original));
      assert a[0] == a[0].(remaining := 0.0).(remaining := a[0].remaining);
      assert b[0] == b[0].(remaining := 0.0).(remaining := b[0].remaining);
      assert a == [a[0]] + a[1..] && b == [b[0]] + b[1..];
    }
  }

  lemma QueueOfBuys(items: seq<Item>, d: string)
    ensures SameLots(Queue(items, d), NewLots(Filter(ItemsOf(items, d), Buys)))
  {
    DepotIndependence(items, d);
    LotsAreNew(ItemsOf(items, d));
    NewLotsOfBuys(ItemsOf(items, d));
  }

  lemma FollowAlike(p: seq<Lot>, t: Totals, q: seq<Lot>, u: Totals)
    requires Follows(p, t) && Follows(q, u) && SameLots(p, q)
    requires t.acquired - t.matched == u.acquired - u.matched
    ensures p == q
  {
    AcquiredSame(p, q, |p|);
    DrainedAlike(p, q, t.matched);
  }

  lemma SameRiseSameQueue(xs: seq<Item>, ys: seq<Item>, d: string)
    requires SameLots(Queue(xs, d), Queue(ys, d)) && RiseIn(xs, d) == RiseIn(ys, d)
    ensures Queue(xs, d) == Queue(ys, d)
  {
    QueueFollows(xs, d);
    QueueFollows(ys, d);
    UnmatchedIsRise(xs, d);
    UnmatchedIsRise(ys, d);
    FollowAlike(Queue(xs, d), DepotTotals(xs, d), Queue(ys, d), DepotTotals(ys, d));
  }

  /** After rows that acquire the same lots, a depot holds the same in every lot exactly when it holds the same
      in all, which running balances decide. */
  lemma SameQueueIff(xs: seq<Item>, ys: seq<Item>, d: string)
    requires Filter(ItemsOf(xs, d), Buys) == Filter(ItemsOf(ys, d), Buys)
    ensures Queue(xs, d) == Queue(ys, d) <==> RiseIn(xs, d) == RiseIn(ys, d)
  {
    if RiseIn(xs, d) == RiseIn(ys, d) {
      QueueOfBuys(xs, d);
      QueueOfBuys(ys, d);
      SameLotsTogether(Queue(xs, d), Queue(ys, d), NewLots(Filter(ItemsOf(xs, d), Buys)));
      SameRiseSameQueue(xs, ys, d);
    }
    DepotOpenIsRise(xs, d);
    DepotOpenIsRise(ys, d);
  }

  lemma SameLotsTogether(a: seq<Lot>, b: seq<Lot>, c: seq<Lot>)
    requires SameLots(a, c) && SameLots(b, c)
    ensures SameLots(a, b)
  {
    forall k | 0 <= k < |a| ensures a[k].(remaining := 0.0) == b[k].(remaining := 0.0) {
      assert a[k].(remaining := 0.0) == c[k].(remaining := 0.0) == b[k].(remaining := 0.0);
    }
  }

  // ---- all depots ----

  /** Sum over depots of final balance less trough. */
  function Rise(depots: seq<string>, items: seq<Item>): real
  {
    if depots == [] then 0.0
    else
      var d := depots[|depots| - 1];
      Rise(depots[..|depots| - 1], items) + RiseIn(items, d)
  }

  lemma {:induction false} OpenOverDepots(depots: seq<string>, items: seq<Item>)
    ensures SumOver(depots, Run(items).lots, LotDepot, Remaining) == Rise(depots, items)
  {
    if depots != [] {
      OpenOverDepots(depots[..|depots| - 1], items);
      DepotOpenIsRise(items, depots[|depots| - 1]);
    }
  }

  /** FIFO's total is the sum over depots of final balance less trough. */
  lemma TotalIsRise(depots: seq<string>, items: seq<Item>)
    requires Distinct(depots) && forall x <- items :: x.depot in depots
    ensures Sum(Run(items).lots, Remaining) == Rise(depots, items)
  {
    forall l | l in Run(items).lots ensures LotDepot(l) in depots {
      LotFrom(items, l);
      assert LotDepot(l) == l.depot;
    }
    SumOverAllKeys(depots, Run(items).lots, LotDepot, Remaining);
    OpenOverDepots(depots, items);
  }

  // ---- over ledger rows ----

  /** Balance and trough of a depot over ledger rows; extra fees of network-fee rows do not count. */
  function RowBalance(rows: seq<Entry>, d: string): real { Sum(rows, DeltaIn(Some(d))) }

  function RowTrough(rows: seq<Entry>, d: string): real
  {
    if rows == [] then 0.0 else Min(RowTrough(rows[..|rows| - 1], d), RowBalance(rows, d))
  }

  lemma TroughPush(xs: seq<Item>, x: Item, d: string)
    ensures DepotBalance(xs + [x], d) == DepotBalance(xs, d) + ItemDeltaIn(Some(d))(x)
    ensures Trough(xs + [x], d) == Min(Trough(xs, d), DepotBalance(xs + [x], d))
  {
    assert (xs + [x])[..|xs|] == xs;
    SumPush(xs, x, ItemDeltaIn(Some(d)));
  }

  /** Only the end of a row can be a new low: its fee comes after its main amount. */
  lemma TroughRow(xs: seq<Item>, e: Entry, d: string)
    requires e.amount >= 0.0
    ensures DepotBalance(xs + ExpandOne(e), d) == DepotBalance(xs, d) + DeltaIn(Some(d))(e)
    ensures DepotBalance(xs, d) >= Trough(xs, d) ==>
              Trough(xs + ExpandOne(e), d) == Min(Trough(xs, d), DepotBalance(xs + ExpandOne(e), d))
  {
    TroughPush(xs, MainItem(e), d);
    ExpandOneDelta(e, Some(d));
    SumConcat(xs, ExpandOne(e), ItemDeltaIn(Some(d)));
    if AddsFee(e) {
      TroughPush(xs + [MainItem(e)], FeeItem(e), d);
      assert xs + [MainItem(e)] + [FeeItem(e)] == xs + ExpandOne(e);
    }
  }

  lemma {:induction false} TroughOfRows(rows: seq<Entry>, d: string)
    requires forall e <- rows :: e.amount >= 0.0
    ensures DepotBalance(Expand(rows), d) == RowBalance(rows, d) && Trough(Expand(rows), d) == RowTrough(rows, d)
  {
    if rows != [] {
      var n := |rows| - 1;
      TroughOfRows(rows[..n], d);
      UnmatchedIsRise(Expand(rows[..n]), d);
      TroughRow(Expand(rows[..n]), rows[n], d);
    }
  }

  /** Other depots' rows do not matter. */
  lemma {:induction false} TroughOwn(items: seq<Item>, d: string)
    ensures DepotBalance(ItemsOf(items, d), d) == DepotBalance(items, d)
    ensures Trough(ItemsOf(items, d), d) == Trough(items, d)
  {
    if items != [] {
      var n := |items| - 1;
      TroughOwn(items[..n], d);
      UnmatchedIsRise(items[..n], d);
      ItemsOfPush(items[..n], items[n], d);
      assert items == items[..n] + [items[n]];
      TroughPush(items[..n], items[n], d);
      TroughPush(ItemsOf(items[..n], d), items[n], d);
      assert ItemsOf(items[..n], d) + [] == ItemsOf(items[..n], d);
    }
  }

  // ---- sorted rows: only the balance at the end of an instant can be a new low ----

  function Until(t: int): Item -> bool { (x: Item) => TimeKey(x.at) <= t }

  /** The balance of a depot when an instant is over, in whatever order the rows stand. */
  function BalanceAt(items: seq<Item>, t: int, d: string): real { DepotBalance(Filter(items, Until(t)), d) }

  /** The balance is at least `v` when the instant of a row is over. */
  predicate EndsAbove(items: seq<Item>, x: Item, d: string, v: real) { v <= BalanceAt(items, TimeKey(x.at), d) }

  /** The least balance at the end of an instant, or the zero it starts from. */
  ghost predicate LowestEnd(items: seq<Item>, d: string, v: real)
  {
    && v <= 0.0
    && (forall x {:trigger EndsAbove(items, x, d, v)} :: x in items ==> EndsAbove(items, x, d, v))
    && (v == 0.0 || exists x <- items :: v == BalanceAt(items, TimeKey(x.at), d))
  }

  lemma LowestEndPermutes(xs: seq<Item>, ys: seq<Item>, d: string, v: real)
    requires multiset(xs) == multiset(ys) && LowestEnd(xs, d, v)
    ensures LowestEnd(ys, d, v)
  {
    SameElements(xs, ys);
    forall t: int ensures BalanceAt(xs, t, d) == BalanceAt(ys, t, d) {
      FilterPermutes(xs, ys, Until(t));
      SumPermutes(Filter(xs, Until(t)), Filter(ys, Until(t)), ItemDeltaIn(Some(d)));
    }
    forall x | x in ys ensures EndsAbove(ys, x, d, v) { assert EndsAbove(xs, x, d, v); }
  }

  /** The rows up to an instant are a prefix of sorted rows. */
  lemma {:induction false} InstantPrefix(items: seq<Item>, k: nat) returns (end: nat)
    requires Sorted(items, ItemLe) && k < |items|
    ensures k < end <= |items| && Filter(items, Until(TimeKey(items[k].at))) == items[..end]
    ensures forall i :: k <= i < end ==> TimeKey(items[i].at) == TimeKey(items[k].at)
    decreases |items| - k
  {
    var t := TimeKey(items[k].at);
    end := k + 1;
    while end < |items| && TimeKey(items[end].at) == t
      invariant k < end <= |items| && forall i :: k <= i < end ==> TimeKey(items[i].at) == t
    {
      end := end + 1;
    }
    forall i | 0 <= i < end ensures Until(t)(items[i]) {
      if i < k { assert ItemLe(items[i], items[k]); }
    }
    forall i | end <= i < |items| ensures !Until(t)(items[i]) {
      assert ItemLe(items[k], items[end]) && (end < i ==> ItemLe(items[end], items[i]));
    }
    KeepPrefix(items, end, Until(t));
  }

  lemma BalanceNext(items: seq<Item>, k: nat, d: string)
    requires k < |items|
    ensures DepotBalance(items[..k + 1], d) == DepotBalance(items[..k], d) + ItemDeltaIn(Some(d))(items[k])
  {
    assert items[..k + 1] == items[..k] + [items[k]];
    SumPush(items[..k], items[k], ItemDeltaIn(Some(d)));
  }

  /** Disposals alone do not raise a balance. */
  lemma {:induction false} OnlyFalls(items: seq<Item>, d: string, k: nat, end: nat)
    requires k <= end <= |items| && forall i :: k <= i < end ==> Outgoing(items[i].kind)
    ensures DepotBalance(items[..end], d) <= DepotBalance(items[..k], d)
  {
    if k < end {
      OnlyFalls(items, d, k, end - 1);
      BalanceNext(items, end - 1, d);
    }
  }

  /** Behind a disposal the balance falls to the end of the instant. */
  lemma FallingAbove(items: seq<Item>, d: string, k: nat, v: real)
    requires Sorted(items, ItemLe) && k < |items| && Outgoing(items[k].kind) && EndsAbove(items, items[k], d, v)
    ensures v <= DepotBalance(items[..k + 1], d)
  {
    var end := InstantPrefix(items, k);
    forall i | k + 1 <= i < end ensures Outgoing(items[i].kind) { assert ItemLe(items[k], items[i]); }
    OnlyFalls(items, d, k + 1, end);
  }

  /** Within an instant the balance rises first and falls then: no prefix lies below the ends of instants. */
  lemma {:induction false} PrefixAbove(items: seq<Item>, d: string, k: nat, v: real)
    requires Sorted(items, ItemLe) && LowestEnd(items, d, v) && k <= |items|
    ensures v <= DepotBalance(items[..k], d)
  {
    if k > 0 {
      if Outgoing(items[k - 1].kind) {
        assert items[k - 1] in items && EndsAbove(items, items[k - 1], d, v);
        FallingAbove(items, d, k - 1, v);
      } else {
        PrefixAbove(items, d, k - 1, v);
        BalanceNext(items, k - 1, d);
      }
    }
  }

  lemma {:induction false} TroughBelow(items: seq<Item>, d: string, k: nat)
    requires k <= |items|
    ensures Trough(items, d) <= DepotBalance(items[..k], d)
    decreases |items|
  {
    if k == |items| {
      assert items[..k] == items;
    } else {
      TroughBelow(items[..|items| - 1], d, k);
      assert items[..|items| - 1][..k] == items[..k];
    }
  }

  lemma {:induction false} TroughAttained(items: seq<Item>, d: string) returns (k: nat)
    ensures k <= |items| && Trough(items, d) == DepotBalance(items[..k], d)
  {
    if items == [] {
      k := 0;
    } else {
      k := TroughAttained(items[..|items| - 1], d);
      assert items[..|items| - 1][..k] == items[..k];
      if DepotBalance(items, d) < Trough(items[..|items| - 1], d) {
        k := |items|;
        assert items[..k] == items;
      }
    }
  }

  /** The trough of sorted rows is the lowest end of an instant. */
  lemma SortedTrough(items: seq<Item>, d: string, v: real)
    requires Sorted(items, ItemLe) && LowestEnd(items, d, v)
    ensures Trough(items, d) == v
  {
    var k := TroughAttained(items, d);
    PrefixAbove(items, d, k, v);
    TroughBelow(items, d, 0);
    if v != 0.0 {
      var x :| x in items && v == BalanceAt(items, TimeKey(x.at), d);
      var i :| 0 <= i < |items| && items[i] == x;
      var end := InstantPrefix(items, i);
      TroughBelow(items, d, end);
    }
  }

  // ---- the same over ledger rows ----

  predicate EndsInstant(rows: seq<Entry>, k: nat)
    requires k < |rows|
  {
    k + 1 == |rows| || TimeKey(rows[k].at) < TimeKey(rows[k + 1].at)
  }

  /** The lowest balance of a depot at the end of an instant, over the first `k` of the sorted rows. */
  function EndTrough(rows: seq<Entry>, d: string, k: nat): real
    requires k <= |rows|
  {
    if k == 0 then 0.0
    else
      var before := EndTrough(rows, d, k - 1);
      if EndsInstant(rows, k - 1) then Min(before, RowBalance(rows[..k], d)) else before
  }

  function RowsUpTo(t: int): Entry -> bool { (e: Entry) => TimeKey(e.at) <= t }

  lemma OneUntil(e: Entry, t: int)
    ensures Filter(ExpandOne(e), Until(t)) == if RowsUpTo(t)(e) then ExpandOne(e) else []
  {
    if RowsUpTo(t)(e) { KeepAll(ExpandOne(e), Until(t)); } else { KeepNone(ExpandOne(e), Until(t)); }
  }

  lemma {:induction false} ExpandUntil(rows: seq<Entry>, t: int)
    ensures Filter(Expand(rows), Until(t)) == Expand(Filter(rows, RowsUpTo(t)))
  {
    if rows != [] {
      var front, e := rows[..|rows| - 1], rows[|rows| - 1];
      assert rows == front + [e];
      ExpandUntil(front, t);
      ExpandPush(front, e);
      FilterConcat(Expand(front), ExpandOne(e), Until(t));
      OneUntil(e, t);
      FilterPush(front, e, RowsUpTo(t));
      ExpandPush(Filter(front, RowsUpTo(t)), e);
    }
  }

  lemma UpToEnd(rows: seq<Entry>, k: nat)
    requires Sorted(rows, EntryLe) && k < |rows| && EndsInstant(rows, k)
    ensures Filter(rows, RowsUpTo(TimeKey(rows[k].at))) == rows[..k + 1]
  {
    var t := TimeKey(rows[k].at);
    forall i | 0 <= i <= k ensures RowsUpTo(t)(rows[i]) {
      if i < k { assert EntryLe(rows[i], rows[k]); }
    }
    forall i | k < i < |rows| ensures !RowsUpTo(t)(rows[i]) {
      if k + 1 < i { assert EntryLe(rows[k + 1], rows[i]); }
    }
    KeepPrefix(rows, k + 1, RowsUpTo(t));
  }

  /** At the end of an instant of sorted rows, the balance over rows is the balance over items. */
  lemma EndBalance(rows: seq<Entry>, d: string, k: nat)
    requires Sorted(rows, EntryLe) && (forall e <- rows :: e.amount >= 0.0) && k < |rows| && EndsInstant(rows, k)
    ensures BalanceAt(Expand(rows), TimeKey(rows[k].at), d) == RowBalance(rows[..k + 1], d)
  {
    UpToEnd(rows, k);
    ExpandUntil(rows, TimeKey(rows[k].at));
    TroughOfRows(rows[..k + 1], d);
  }

  /** Every row has a last row of its instant. */
  lemma {:induction false} InstantEnd(rows: seq<Entry>, k: nat) returns (j: nat)
    requires Sorted(rows, EntryLe) && k < |rows|
    ensures k <= j < |rows| && EndsInstant(rows, j) && TimeKey(rows[j].at) == TimeKey(rows[k].at)
    decreases |rows| - k
  {
    if EndsInstant(rows, k) {
      j := k;
    } else {
      assert EntryLe(rows[k], rows[k + 1]);
      j := InstantEnd(rows, k + 1);
    }
  }

  lemma {:induction false} EndTroughIs(rows: seq<Entry>, d: string, k: nat)
    requires k <= |rows|
    ensures EndTrough(rows, d, k) <= 0.0
    ensures forall j :: 0 <= j < k && EndsInstant(rows, j) ==> EndTrough(rows, d, k) <= RowBalance(rows[..j + 1], d)
    ensures EndTrough(rows, d, k) == 0.0 ||
            exists j :: 0 <= j < k && EndsInstant(rows, j) && EndTrough(rows, d, k) == RowBalance(rows[..j + 1], d)
  {
    if k > 0 { EndTroughIs(rows, d, k - 1); }
  }

  lemma EndTroughLowest(rows: seq<Entry>, d: string)
    requires Sorted(rows, EntryLe) && forall e <- rows :: e.amount >= 0.0
    ensures LowestEnd(Expand(rows), d, EndTrough(rows, d, |rows|))
  {
    var v := EndTrough(rows, d, |rows|);
    EndTroughIs(rows, d, |rows|);
    forall x | x in Expand(rows) ensures EndsAbove(Expand(rows), x, d, v) {
      var k := ComesFrom(rows, x);
      var j := InstantEnd(rows, k);
      EndBalance(rows, d, j);
    }
    if v != 0.0 {
      var j :| 0 <= j < |rows| && EndsInstant(rows, j) && v == RowBalance(rows[..j + 1], d);
      EndBalance(rows, d, j);
      MainInExpansion(rows, j);
    }
  }

  lemma {:induction false} MainInExpansion(rows: seq<Entry>, k: nat)
    requires k < |rows|
    ensures MainItem(rows[k]) in Expand(rows)
  {
    if k < |rows| - 1 { MainInExpansion(rows[..|rows| - 1], k); }
  }

  lemma RunPermutes(rows: seq<Entry>, entries: seq<Entry>)
    requires multiset(rows) == multiset(entries)
    ensures multiset(RunItems(entries, None)) == multiset(Expand(rows))
  {
    ExpandPermutes(rows, entries);
    SortPermutes(Expand(entries), ItemLe);
    KeepAll(Sort(Expand(entries), ItemLe), Scoped(None));
  }

  /** The full computation sees the lowest end of an instant, on any ledger. */
  lemma SortedRowsTrough(rows: seq<Entry>, entries: seq<Entry>, d: string)
    requires Sorted(rows, EntryLe) && multiset(rows) == multiset(entries) && forall e <- rows :: e.amount >= 0.0
    ensures Trough(RunItems(entries, None), d) == EndTrough(rows, d, |rows|)
    ensures DepotBalance(RunItems(entries, None), d) == RowBalance(rows, d)
  {
    var items, v := RunItems(entries, None), EndTrough(rows, d, |rows|);
    RunPermutes(rows, entries);
    EndTroughLowest(rows, d);
    LowestEndPermutes(Expand(rows), items, d, v);
    RunItemsSorted(entries, None);
    SortedTrough(items, d, v);
    SumPermutes(Expand(rows), items, ItemDeltaIn(Some(d)));
    TroughOfRows(rows, d);
  }
}

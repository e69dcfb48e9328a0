/** What sorting the expanded rows of a ledger does, compared with expanding its sorted rows in place: the exact
    condition, row by row, under which a depot's lots and slices stay the same. */
module DailyOrder {
  import opened Sums
  import opened Sorting
  import opened Ledger
  import opened Fifo
  import opened FifoViews
  import opened Goals
  import opened Troughs
  import opened Displacement

  function UpTo(cut: int): Entry -> bool { (e: Entry) => e.at.Some? && e.at.value <= cut }

  /** The rows up to an instant are a prefix of the sorted rows. */
  lemma PrefixIsFilter(ordered: seq<Entry>, pos: nat, cut: int)
    requires Sorted(ordered, HistoryLe) && pos <= |ordered|
    requires forall k :: 0 <= k < pos ==> UpTo(cut)(ordered[k])
    requires pos < |ordered| ==> !UpTo(cut)(ordered[pos])
    ensures Filter(ordered, UpTo(cut)) == ordered[..pos]
  {
    LaterRows(ordered, pos, cut);
    KeepPrefix(ordered, pos, UpTo(cut));
  }

  lemma LaterRows(ordered: seq<Entry>, pos: nat, cut: int)
    requires Sorted(ordered, HistoryLe) && pos <= |ordered|
    requires pos < |ordered| ==> !UpTo(cut)(ordered[pos])
    ensures forall k :: pos <= k < |ordered| ==> !UpTo(cut)(ordered[k])
  {
    forall k | pos <= k < |ordered| ensures !UpTo(cut)(ordered[k]) {
      if pos < k { assert HistoryLe(ordered[pos], ordered[k]); }
    }
  }

  // ---- from rows to items and back ----

  lemma ItemsOfOne(e: Entry, d: string)
    ensures ItemsOf(ExpandOne(e), d) == if e.depot == d then ExpandOne(e) else []
  {
    forall x | x in ExpandOne(e) ensures Has(ItemDepot, d)(x) == (e.depot == d) { assert ItemDepot(x) == e.depot; }
    if e.depot == d {
      FilterAll(ExpandOne(e), Has(ItemDepot, d));
    } else {
      FilterNone(ExpandOne(e), Has(ItemDepot, d));
    }
  }

  lemma {:induction false} InExpansion(rows: seq<Entry>, p: nat, x: Item)
    requires p < |rows| && x in ExpandOne(rows[p])
    ensures x in Expand(rows)
  {
    var n := |rows| - 1;
    if p < n { InExpansion(rows[..n], p, x); }
  }

  lemma SortedParts<T(!new)>(a: seq<T>, b: seq<T>, rel: (T, T) -> bool)
    requires Sorted(a + b, rel)
    ensures Sorted(a, rel) && forall x <- a, y <- b :: rel(x, y)
  {
    forall i, j | 0 <= i < j < |a| ensures rel(a[i], a[j]) { assert (a + b)[i] == a[i] && (a + b)[j] == a[j]; }
    forall x, y | x in a && y in b ensures rel(x, y) {
      var i, j :| 0 <= i < |a| && a[i] == x && 0 <= j < |b| && b[j] == y;
      assert (a + b)[i] == x && (a + b)[|a| + j] == y;
    }
  }

  lemma KeptItem(rows: seq<Entry>, p: nat, keep: Item -> bool, x: Item)
    requires p < |rows| && x in ExpandOne(rows[p]) && keep(x)
    ensures x in Filter(Expand(rows), keep)
  {
    InExpansion(rows, p, x);
    FilterKeeps(Expand(rows), x, keep);
  }

  lemma ExpansionSplit(rows: seq<Entry>, q: nat, keep: Item -> bool)
    requires q <= |rows|
    ensures Filter(Expand(rows), keep) == Filter(Expand(rows[..q]), keep) + Filter(Expand(rows[q..]), keep)
  {
    assert rows == rows[..q] + rows[q..];
    ExpandConcat(rows[..q], rows[q..]);
    FilterConcat(Expand(rows[..q]), Expand(rows[q..]), keep);
  }

  lemma ItemsInOrder(rows: seq<Entry>, keep: Item -> bool, rel: (Item, Item) -> bool,
                     p: nat, q: nat, x: Item, y: Item)
    requires p < q < |rows| && x in ExpandOne(rows[p]) && y in ExpandOne(rows[q]) && keep(x) && keep(y)
    requires Sorted(Filter(Expand(rows), keep), rel)
    ensures rel(x, y)
  {
    ExpansionSplit(rows, q, keep);
    KeptItem(rows[..q], p, keep, x);
    KeptItem(rows[q..], 0, keep, y);
    SortedParts(Filter(Expand(rows[..q]), keep), Filter(Expand(rows[q..]), keep), rel);
  }

  /** A relation between all items of two rows. */
  ghost predicate Related(a: Entry, b: Entry, rel: (Item, Item) -> bool)
  {
    forall x <- ExpandOne(a), y <- ExpandOne(b) :: rel(x, y)
  }

  lemma SortedConcat<T(!new)>(a: seq<T>, b: seq<T>, rel: (T, T) -> bool)
    requires Sorted(a, rel) && Sorted(b, rel) && forall x <- a, y <- b :: rel(x, y)
    ensures Sorted(a + b, rel)
  {
    forall i, j | 0 <= i < j < |a + b| ensures rel((a + b)[i], (a + b)[j]) {
      if i < |a| <= j { assert a[i] in a && b[j - |a|] in b; }
    }
  }

  /** A relation within the rows of a depot, */
  ghost predicate WithinRows(rows: seq<Entry>, d: string, rel: (Item, Item) -> bool)
  {
    forall e <- rows :: e.depot == d && AddsFee(e) ==> rel(MainItem(e), FeeItem(e))
  }

  /** and between earlier and later ones. */
  ghost predicate BetweenRows(rows: seq<Entry>, d: string, rel: (Item, Item) -> bool)
  {
    forall p, q {:trigger Related(rows[p], rows[q], rel)} ::
      0 <= p < q < |rows| && rows[p].depot == d && rows[q].depot == d ==> Related(rows[p], rows[q], rel)
  }

  lemma OneInOrder(e: Entry, d: string, rel: (Item, Item) -> bool)
    requires WithinRows([e], d, rel)
    ensures Sorted(ItemsOf(ExpandOne(e), d), rel)
  {
    assert e in [e];
    ItemsOfOne(e, d);
  }

  lemma LastInOrder(front: seq<Entry>, e: Entry, d: string, rel: (Item, Item) -> bool, x: Item, y: Item)
    requires BetweenRows(front + [e], d, rel) && x in ItemsOf(Expand(front), d) && y in ItemsOf(ExpandOne(e), d)
    ensures rel(x, y)
  {
    assert Has(ItemDepot, d)(x) && ItemDepot(x) == x.depot;
    ItemsOfOne(e, d);
    var k := ComesFrom(front, x);
    assert (front + [e])[k] == front[k] && (front + [e])[|front|] == e;
    assert Related(front[k], e, rel);
  }

  lemma BetweenFront(front: seq<Entry>, e: Entry, d: string, rel: (Item, Item) -> bool)
    requires BetweenRows(front + [e], d, rel)
    ensures BetweenRows(front, d, rel)
  {
    forall p, q | 0 <= p < q < |front| && front[p].depot == d && front[q].depot == d
      ensures Related(front[p], front[q], rel)
    {
      assert (front + [e])[p] == front[p] && (front + [e])[q] == front[q];
    }
  }

  /** Then it holds between earlier and later items. */
  lemma {:induction false} RowsInOrder(rows: seq<Entry>, d: string, rel: (Item, Item) -> bool)
    requires WithinRows(rows, d, rel) && BetweenRows(rows, d, rel)
    ensures Sorted(ItemsOf(Expand(rows), d), rel)
  {
    if rows != [] {
      var front, e := rows[..|rows| - 1], rows[|rows| - 1];
      assert rows == front + [e];
      BetweenFront(front, e, d, rel);
      RowsInOrder(front, d, rel);
      OneInOrder(e, d, rel);
      FilterConcat(Expand(front), ExpandOne(e), Has(ItemDepot, d));
      forall x, y | x in ItemsOf(Expand(front), d) && y in ItemsOf(ExpandOne(e), d) ensures rel(x, y) {
        LastInOrder(front, e, d, rel, x, y);
      }
      SortedConcat(ItemsOf(Expand(front), d), ItemsOf(ExpandOne(e), d), rel);
    }
  }

  lemma OfDepot(e: Entry, x: Item)
    requires x in ExpandOne(e)
    ensures Has(ItemDepot, e.depot)(x)
  {
    assert ItemDepot(x) == e.depot;
  }

  /** And back. */
  lemma OrderOfRows(rows: seq<Entry>, p: nat, q: nat, rel: (Item, Item) -> bool)
    requires p < q < |rows| && rows[p].depot == rows[q].depot && Sorted(ItemsOf(Expand(rows), rows[p].depot), rel)
    ensures Related(rows[p], rows[q], rel)
  {
    forall x, y | x in ExpandOne(rows[p]) && y in ExpandOne(rows[q]) ensures rel(x, y) {
      OfDepot(rows[p], x);
      OfDepot(rows[q], y);
      ItemsInOrder(rows, Has(ItemDepot, rows[p].depot), rel, p, q, x, y);
    }
  }

  /** The sorted rows of a depot are, up to order, its expanded rows. */
  lemma SortedItems(rows: seq<Entry>, entries: seq<Entry>, d: string)
    requires multiset(rows) == multiset(entries)
    ensures multiset(ItemsOf(Expand(rows), d)) == multiset(ItemsOf(RunItems(entries, None), d))
    ensures |ItemsOf(Expand(rows), d)| == |ItemsOf(RunItems(entries, None), d)|
    ensures Sorted(ItemsOf(RunItems(entries, None), d), ItemLe)
  {
    var all := Sort(Expand(entries), ItemLe);
    ExpandPermutes(rows, entries);
    SortPermutes(Expand(entries), ItemLe);
    KeepAll(all, Scoped(None));
    FilterPermutes(Expand(rows), all, Has(ItemDepot, d));
    SameElements(ItemsOf(Expand(rows), d), ItemsOf(all, d));
    RunItemsSorted(entries, None);
    FilterSorted(RunItems(entries, None), Has(ItemDepot, d), ItemLe);
  }

  // ---- BTC fees that change places ----

  predicate KeysDiffer(x: Item, y: Item) { ItemKey(x) != ItemKey(y) }

  /** No two items of a depot tie in the sort key. */
  ghost predicate NoTies(rows: seq<Entry>) { forall d: string :: NoRepeats(ItemsOf(Expand(rows), d)) }

  /** The BTC fee of a row does not exceed what its depot holds where the row stands. */
  ghost predicate CoveredAt(rows: seq<Entry>, p: nat)
    requires p < |rows|
  {
    FeeItem(rows[p]).amount <= RiseIn(Expand(rows[..p]) + [MainItem(rows[p])], rows[p].depot)
  }

  /** The BTC fee of a row stays in front of a later row of its depot, or passes it without a trace: a row of no
      BTC always, an acquisition if it was covered before, another disposal never. */
  ghost predicate FeeMayPass(rows: seq<Entry>, p: nat, q: nat)
    requires p < q < |rows|
  {
    var a, b := rows[p], rows[q];
    AddsFee(a) && a.depot == b.depot ==>
      && (ItemLe(FeeItem(a), MainItem(b)) || Inert(MainItem(b)) || (Acquires(b.kind) && CoveredAt(rows, p)))
      && (AddsFee(b) ==> ItemLe(FeeItem(a), FeeItem(b)))
  }

  /** No BTC fee leaves a trace when the expanded rows are sorted. */
  ghost predicate FeesHarmless(rows: seq<Entry>) { forall p, q :: 0 <= p < q < |rows| ==> FeeMayPass(rows, p, q) }

  lemma AcquiredRise(before: seq<Item>, m: Item)
    requires m.amount >= 0.0 && Acquires(m.kind)
    ensures RiseIn(before + [m], m.depot) == DepotBalance(before, m.depot) + m.amount - Trough(before, m.depot)
  {
    UnmatchedIsRise(before, m.depot);
    TroughPush(before, m, m.depot);
  }

  lemma AcquiredBalance(rows: seq<Entry>, p: nat)
    requires p < |rows| && AddsFee(rows[p]) && Acquires(rows[p].kind)
    ensures var d := rows[p].depot;
            RowBalance(rows[..p + 1], d) == RowBalance(rows[..p], d) + rows[p].amount - FeeItem(rows[p]).amount
  {
    assert rows[..p + 1] == rows[..p] + [rows[p]];
    SumPush(rows[..p], rows[p], DeltaIn(Some(rows[p].depot)));
  }

  /** For an acquisition, on ledger rows alone: its fee takes the balance to no new low. */
  lemma CoveredOnRows(rows: seq<Entry>, p: nat)
    requires p < |rows| && AddsFee(rows[p]) && Acquires(rows[p].kind) && forall e <- rows :: e.amount >= 0.0
    ensures CoveredAt(rows, p) <==> RowTrough(rows[..p], rows[p].depot) <= RowBalance(rows[..p + 1], rows[p].depot)
  {
    TroughOfRows(rows[..p], rows[p].depot);
    AcquiredRise(Expand(rows[..p]), MainItem(rows[p]));
    AcquiredBalance(rows, p);
  }

  // ---- one depot: expand in place, or sort the expansion ----

  lemma FeeBehindMain(e: Entry)
    ensures ItemLe(MainItem(e), FeeItem(e))
  {
    StringPrefix(e.id, "::btc_fee");
  }

  /** A later row sorts behind, except that a fee may sort behind its items. */
  lemma RowsSellBehind(a: Entry, b: Entry)
    requires EntryLe(a, b)
    ensures Related(a, b, SellsBehind)
  {
    FeeBehindMain(b);
    KeyTransitive(EntryKey(a), EntryKey(b), ItemKey(FeeItem(b)));
  }

  lemma ExpansionSells(rows: seq<Entry>, d: string)
    requires Sorted(rows, EntryLe)
    ensures Sorted(ItemsOf(Expand(rows), d), SellsBehind)
  {
    forall e | e in rows ensures SellsBehind(MainItem(e), FeeItem(e)) { FeeBehindMain(e); }
    forall p, q | 0 <= p < q < |rows| ensures Related(rows[p], rows[q], SellsBehind) {
      RowsSellBehind(rows[p], rows[q]);
    }
    RowsInOrder(rows, d, SellsBehind);
  }

  /** The items of a depot up to a row with a fee end with the fee. */
  lemma FeeLast(rows: seq<Entry>, p: nat)
    requires p < |rows| && AddsFee(rows[p])
    ensures var d, e := rows[p].depot, rows[p];
            ItemsOf(Expand(rows[..p + 1]), d) == ItemsOf(Expand(rows[..p]) + [MainItem(e)], d) + [FeeItem(e)]
  {
    var e := rows[p];
    assert rows[..p + 1] == rows[..p] + [e];
    ExpandPush(rows[..p], e);
    Append(Expand(rows[..p]), [MainItem(e)], FeeItem(e));
    assert [MainItem(e)] + [FeeItem(e)] == ExpandOne(e);
    ItemsOfPush(Expand(rows[..p]) + [MainItem(e)], FeeItem(e), e.depot);
  }

  lemma Standing<T>(before: seq<T>, x: T, rest: seq<T>, all: seq<T>)
    requires all == before + [x] + rest
    ensures |before| < |all| && all[|before|] == x && all[..|before|] == before
  {
  }

  /** Where the fee of row `p` stands among the items of its depot. */
  lemma FeePlace(rows: seq<Entry>, p: nat) returns (i: nat)
    requires p < |rows| && AddsFee(rows[p])
    ensures var d, items := rows[p].depot, ItemsOf(Expand(rows), rows[p].depot);
            && i < |items| && items[i] == FeeItem(rows[p])
            && items[..i] == ItemsOf(Expand(rows[..p]) + [MainItem(rows[p])], d)
  {
    var d := rows[p].depot;
    var before := ItemsOf(Expand(rows[..p]) + [MainItem(rows[p])], d);
    FeeLast(rows, p);
    ExpansionSplit(rows, p + 1, Has(ItemDepot, d));
    Standing(before, FeeItem(rows[p]), ItemsOf(Expand(rows[p + 1..]), d), ItemsOf(Expand(rows), d));
    i := |before|;
  }

  /** A fee is never short exactly when it is covered where its row stands. */
  lemma CoverIff(rows: seq<Entry>, p: nat)
    requires p < |rows| && AddsFee(rows[p]) && NoRepeats(ItemsOf(Expand(rows), rows[p].depot))
    ensures NeverShort(Run(ItemsOf(Expand(rows), rows[p].depot)).moves, FeeItem(rows[p])) <==> CoveredAt(rows, p)
  {
    var d := rows[p].depot;
    var i := FeePlace(rows, p);
    var before := Expand(rows[..p]) + [MainItem(rows[p])];
    ShortIff(ItemsOf(Expand(rows), d), i);
    CoveredIff(ItemsOf(before, d), FeeItem(rows[p]));
    TroughOwn(before, d);
  }

  lemma PairPassesIff(rows: seq<Entry>, p: nat, q: nat, moves: seq<Move>)
    requires p < q < |rows| && rows[p].depot == rows[q].depot && EntryLe(rows[p], rows[q])
    requires AddsFee(rows[p]) ==> (NeverShort(moves, FeeItem(rows[p])) <==> CoveredAt(rows, p))
    ensures Related(rows[p], rows[q], Passes(moves)) <==> FeeMayPass(rows, p, q)
  {
    var a, b := rows[p], rows[q];
    FeeBehindMain(b);
    KeyTransitive(EntryKey(a), EntryKey(b), ItemKey(FeeItem(b)));
    assert MainItem(a) in ExpandOne(a) && MainItem(b) in ExpandOne(b);
    if AddsFee(a) { assert FeeItem(a) in ExpandOne(a); }
    if AddsFee(b) { assert FeeItem(b) in ExpandOne(b); }
    if Related(a, b, Passes(moves)) && AddsFee(a) {
      assert Passes(moves)(FeeItem(a), MainItem(b));
      if AddsFee(b) { assert Passes(moves)(FeeItem(a), FeeItem(b)); }
    }
  }

  /** The pairs of one depot. */
  ghost predicate HarmlessIn(rows: seq<Entry>, d: string)
  {
    forall p, q {:trigger FeeMayPass(rows, p, q)} ::
      0 <= p < q < |rows| && rows[p].depot == d && rows[q].depot == d ==> FeeMayPass(rows, p, q)
  }

  lemma PassesIff(rows: seq<Entry>, p: nat, q: nat, moves: seq<Move>)
    requires Sorted(rows, EntryLe) && p < q < |rows| && rows[p].depot == rows[q].depot
    requires NoRepeats(ItemsOf(Expand(rows), rows[p].depot))
    requires moves == Run(ItemsOf(Expand(rows), rows[p].depot)).moves
    ensures Related(rows[p], rows[q], Passes(moves)) <==> FeeMayPass(rows, p, q)
  {
    if AddsFee(rows[p]) { CoverIff(rows, p); }
    PairPassesIff(rows, p, q, moves);
  }

  lemma DepotPassesIff(rows: seq<Entry>, d: string, moves: seq<Move>)
    requires Sorted(rows, EntryLe) && NoRepeats(ItemsOf(Expand(rows), d))
    requires moves == Run(ItemsOf(Expand(rows), d)).moves
    ensures BetweenRows(rows, d, Passes(moves)) <==> HarmlessIn(rows, d)
  {
    if BetweenRows(rows, d, Passes(moves)) {
      forall p, q | 0 <= p < q < |rows| && rows[p].depot == d && rows[q].depot == d ensures FeeMayPass(rows, p, q) {
        PassesIff(rows, p, q, moves);
      }
    }
    if HarmlessIn(rows, d) {
      forall p, q | 0 <= p < q < |rows| && rows[p].depot == d && rows[q].depot == d
        ensures Related(rows[p], rows[q], Passes(moves))
      {
        PassesIff(rows, p, q, moves);
      }
    }
  }

  lemma BetweenItems(rows: seq<Entry>, d: string, rel: (Item, Item) -> bool)
    requires Sorted(ItemsOf(Expand(rows), d), rel)
    ensures BetweenRows(rows, d, rel)
  {
    forall p, q | 0 <= p < q < |rows| && rows[p].depot == d && rows[q].depot == d
      ensures Related(rows[p], rows[q], rel)
    {
      OrderOfRows(rows, p, q, rel);
    }
  }

  lemma ExpansionPassesIff(rows: seq<Entry>, d: string)
    requires Sorted(rows, EntryLe) && NoRepeats(ItemsOf(Expand(rows), d))
    ensures var items := ItemsOf(Expand(rows), d);
            Sorted(items, Passes(Run(items).moves)) <==> HarmlessIn(rows, d)
  {
    var items := ItemsOf(Expand(rows), d);
    var rel := Passes(Run(items).moves);
    DepotPassesIff(rows, d, Run(items).moves);
    forall e | e in rows ensures rel(MainItem(e), FeeItem(e)) { FeeBehindMain(e); }
    if BetweenRows(rows, d, rel) { RowsInOrder(rows, d, rel); }
    if Sorted(items, rel) { BetweenItems(rows, d, rel); }
  }

  /** A depot has the same lots and slices whether sorted rows are expanded in place or the expansion is sorted,
      exactly when no BTC fee of the depot leaves a trace. */
  lemma SameRunIff(rows: seq<Entry>, entries: seq<Entry>, d: string)
    requires Sorted(rows, EntryLe) && multiset(rows) == multiset(entries) && NoRepeats(ItemsOf(Expand(rows), d))
    ensures Run(ItemsOf(Expand(rows), d)) == Run(ItemsOf(RunItems(entries, None), d)) <==> HarmlessIn(rows, d)
  {
    SortedItems(rows, entries, d);
    ExpansionSells(rows, d);
    ExpansionPassesIff(rows, d);
    forall x | x in ItemsOf(Expand(rows), d) ensures x.depot == d {
      assert Has(ItemDepot, d)(x) && ItemDepot(x) == x.depot;
    }
    SortKeepsRunIff(ItemsOf(Expand(rows), d), ItemsOf(RunItems(entries, None), d), d);
  }

  // ---- all depots ----

  /** The same lots and slices in every depot. */
  ghost predicate SameBooks(xs: seq<Item>, ys: seq<Item>)
  {
    forall d: string :: Restrict(Run(xs), d) == Restrict(Run(ys), d)
  }

  lemma SameBooksIff(rows: seq<Entry>, entries: seq<Entry>)
    requires Sorted(rows, EntryLe) && multiset(rows) == multiset(entries) && NoTies(rows)
    ensures SameBooks(Expand(rows), RunItems(entries, None)) <==> FeesHarmless(rows)
  {
    forall d: string
      ensures Restrict(Run(Expand(rows)), d) == Restrict(Run(RunItems(entries, None)), d) <==> HarmlessIn(rows, d)
    {
      assert NoRepeats(ItemsOf(Expand(rows), d));
      SameRunIff(rows, entries, d);
      DepotIndependence(Expand(rows), d);
      DepotIndependence(RunItems(entries, None), d);
    }
    if SameBooks(Expand(rows), RunItems(entries, None)) {
      forall p, q | 0 <= p < q < |rows| ensures FeeMayPass(rows, p, q) {
        if rows[p].depot == rows[q].depot { assert HarmlessIn(rows, rows[p].depot); }
      }
    }
  }

  /** The same lots in every depot. */
  ghost predicate SameStock(xs: seq<Item>, ys: seq<Item>)
  {
    forall d: string :: ByDepot(Run(xs).lots, d) == ByDepot(Run(ys).lots, d)
  }

  /** Books that agree depot by depot have every figure in common: over lots, */
  lemma SameOverLots(xs: seq<Item>, ys: seq<Item>, f: Lot -> real)
    requires SameStock(xs, ys)
    ensures Sum(Run(xs).lots, f) == Sum(Run(ys).lots, f)
  {
    forall d: string ensures Filter(Run(xs).lots, Has(LotDepot, d)) == Filter(Run(ys).lots, Has(LotDepot, d)) {
      assert ByDepot(Run(xs).lots, d) == ByDepot(Run(ys).lots, d);
    }
    ShuffleSum(Run(xs).lots, Run(ys).lots, LotDepot, f);
  }

  lemma BooksHaveStock(xs: seq<Item>, ys: seq<Item>)
    requires SameBooks(xs, ys)
    ensures SameStock(xs, ys)
  {
    forall d: string ensures ByDepot(Run(xs).lots, d) == ByDepot(Run(ys).lots, d) {
      assert Restrict(Run(xs), d) == Restrict(Run(ys), d);
    }
  }

  /** and over slices. */
  lemma SameOverMoves(xs: seq<Item>, ys: seq<Item>, g: Move -> real)
    requires SameBooks(xs, ys)
    ensures Sum(Run(xs).moves, g) == Sum(Run(ys).moves, g)
  {
    forall d: string ensures Filter(Run(xs).moves, Has(MoveDepot, d)) == Filter(Run(ys).moves, Has(MoveDepot, d)) {
      assert Restrict(Run(xs), d) == Restrict(Run(ys), d);
    }
    ShuffleSum(Run(xs).moves, Run(ys).moves, MoveDepot, g);
  }
}

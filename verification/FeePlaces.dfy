/** When the one pass and the full computation agree: exact conditions for totals, for lots, for slices and for
    all figures of a day, and ledgers on which they show different totals. */
module FeePlaces {
  import opened Sums
  import opened Sorting
  import opened Ledger
  import opened Fifo
  import opened FifoRecords
  import opened FifoViews
  import opened DailyFifo
  import opened DailyOrder
  import opened DailySnapshots
  import opened Displacement
  import opened Purchases
  import opened Goals
  import opened Troughs

  // ---- totals ----

  lemma ScratchTotal(entries: seq<Entry>, day: int, d: string)
    ensures Sum(Run(Scratch(entries, day, Some(d))).lots, Remaining) == RiseIn(Scratch(entries, day, None), d)
  {
    ScopedResult(RowsUntil(entries, day), d);
    DepotOpenIsRise(Scratch(entries, day, None), d);
  }

  /** For every ledger: a depot's total of the snapshot is that of the full computation exactly when its balance
      stands equally high above its trough in both orders of the rows. */
  lemma TotalsAgreeIff(days: int, entries: seq<Entry>, day: int, s: Snapshot, d: string)
    requires ShowsRun(days, InPlace(entries, day), day, s)
    ensures Get(s.stock.depotTotal, d) == Sum(Run(Scratch(entries, day, Some(d))).lots, Remaining) <==>
              RiseIn(InPlace(entries, day), d) == RiseIn(Scratch(entries, day, None), d)
  {
    assert ShowsDepot(days, ByDepot(Run(InPlace(entries, day)).lots, d), day, s, d);
    DepotOpenIsRise(InPlace(entries, day), d);
    ScratchTotal(entries, day, d);
  }

  /** On ledger rows alone: exactly when the lowest running balance of the depot stands at the end of an instant. */
  lemma TotalsOnRowsIff(days: int, entries: seq<Entry>, day: int, s: Snapshot, d: string)
    requires ShowsRun(days, InPlace(entries, day), day, s)
    requires forall e <- OrderedUntil(entries, day) :: CleanRow(e) && e.amount >= 0.0
    ensures var rows := OrderedUntil(entries, day);
            Get(s.stock.depotTotal, d) == Sum(Run(Scratch(entries, day, Some(d))).lots, Remaining) <==>
            RowTrough(rows, d) == EndTrough(rows, d, |rows|)
  {
    var rows := OrderedUntil(entries, day);
    TotalsAgreeIff(days, entries, day, s, d);
    DayRows(entries, day);
    AllBooked(rows);
    TroughOfRows(rows, d);
    SortedRowsTrough(rows, RowsUntil(entries, day), d);
  }

  // ---- lots ----

  /** The lots of a depot agree, one by one, exactly when its totals do. */
  lemma LotsAgreeIff(entries: seq<Entry>, day: int, d: string)
    ensures ByDepot(Run(InPlace(entries, day)).lots, d) == ByDepot(Run(Scratch(entries, day, None)).lots, d) <==>
              RiseIn(InPlace(entries, day), d) == RiseIn(Scratch(entries, day, None), d)
  {
    DayBuys(entries, day, d);
    SameQueueIff(InPlace(entries, day), Scratch(entries, day, None), d);
  }

  // ---- lots and slices ----

  /** A BTC fee on a row that is not booked leaves slices in the full computation that the one pass lacks. */
  lemma UnbookedFeeShows(entries: seq<Entry>, day: int, p: nat)
    requires NoTies(OrderedUntil(entries, day)) && p < |OrderedUntil(entries, day)|
    requires !CleanRow(OrderedUntil(entries, day)[p])
    ensures !SameBooks(InPlace(entries, day), Scratch(entries, day, None))
  {
    var rows, e := OrderedUntil(entries, day), OrderedUntil(entries, day)[p];
    DayRows(entries, day);
    SortedItems(rows, RowsUntil(entries, day), e.depot);
    var items := ItemsOf(Scratch(entries, day, None), e.depot);
    var i := FeePlace(rows, p);
    SameElements(ItemsOf(Expand(rows), e.depot), items);
    assert FeeItem(e) in items;
    var j :| 0 <= j < |items| && items[j] == FeeItem(e);
    var k := HasMove(items, j);
    DepotIndependence(Scratch(entries, day, None), e.depot);
    DepotIndependence(InPlace(entries, day), e.depot);
    if SameBooks(InPlace(entries, day), Scratch(entries, day, None)) {
      assert Restrict(Run(InPlace(entries, day)), e.depot) == Restrict(Run(Scratch(entries, day, None)), e.depot);
      var booked := ItemsOf(InPlace(entries, day), e.depot);
      assert Run(booked).moves[k] in Run(booked).moves;
      MoveFrom(booked, Run(booked).moves[k]);
      UnbookedFeeMissing(rows, p);
    }
  }

  lemma BookedSubset(e: Entry, x: Item)
    requires x in ExpandOne(BookedRow(e))
    ensures x in ExpandOne(e) && (!CleanRow(e) ==> x == MainItem(e))
  {
  }

  lemma ItemsApart(rows: seq<Entry>, i: nat, j: nat, x: Item, y: Item)
    requires i < |rows| && j < |rows| && i != j && x in ExpandOne(rows[i]) && y in ExpandOne(rows[j])
    requires rows[i].depot == rows[j].depot && NoRepeats(ItemsOf(Expand(rows), rows[i].depot))
    ensures ItemKey(x) != ItemKey(y)
  {
    assert Sorted(ItemsOf(Expand(rows), rows[i].depot), KeysDiffer);
    if i < j {
      OrderOfRows(rows, i, j, KeysDiffer);
      assert KeysDiffer(x, y);
    } else {
      OrderOfRows(rows, j, i, KeysDiffer);
      assert KeysDiffer(y, x);
    }
  }

  lemma UnbookedFeeMissing(rows: seq<Entry>, p: nat)
    requires NoTies(rows) && p < |rows| && !CleanRow(rows[p])
    ensures FeeItem(rows[p]) !in ItemsOf(Expand(BookedRows(rows)), rows[p].depot)
  {
    var x, d := FeeItem(rows[p]), rows[p].depot;
    assert NoRepeats(ItemsOf(Expand(rows), d));
    if x in ItemsOf(Expand(BookedRows(rows)), d) {
      var k := ComesFrom(BookedRows(rows), x);
      BookedSubset(rows[k], x);
      StringPrefix(rows[p].id, "::btc_fee");
      if k != p { ItemsApart(rows, k, p, x, x); }
    }
  }

  /** As long as no two items of a depot tie in the sort key: both computations have the same lots and slices in
      every depot exactly when every BTC fee stands on a booked row and passes other rows without a trace. */
  lemma BooksAgreeIff(entries: seq<Entry>, day: int)
    requires NoTies(OrderedUntil(entries, day))
    ensures SameBooks(InPlace(entries, day), Scratch(entries, day, None)) <==> Undisturbed(OrderedUntil(entries, day))
  {
    var rows := OrderedUntil(entries, day);
    if Undisturbed(rows) { BooksAgree(entries, day); }
    if SameBooks(InPlace(entries, day), Scratch(entries, day, None)) {
      forall e | e in rows ensures CleanRow(e) {
        var p :| 0 <= p < |rows| && rows[p] == e;
        if !CleanRow(e) { UnbookedFeeShows(entries, day, p); }
      }
      AllBooked(rows);
      DayRows(entries, day);
      SameBooksIff(rows, RowsUntil(entries, day));
    }
  }

  // ---- all figures ----

  lemma AgreesShowsTotals(days: int, entries: seq<Entry>, day: int, s: Snapshot, d: string)
    requires ShowsRun(days, InPlace(entries, day), day, s) && Agrees(days, entries, day, s)
    ensures RiseIn(InPlace(entries, day), d) == RiseIn(Scratch(entries, day, None), d)
  {
    assert ShowsDepot(days, Run(Scratch(entries, day, Some(d))).lots, day, s, d);
    TotalsAgreeIff(days, entries, day, s, d);
  }

  lemma AgreesShowsGains(days: int, entries: seq<Entry>, day: int, s: Snapshot, c: string)
    requires ShowsRun(days, InPlace(entries, day), day, s) && Agrees(days, entries, day, s) && c != ""
    ensures SameGains(PlainPolicy(days), InPlace(entries, day), Scratch(entries, day, None), c)
  {
    assert CurrencyOf(s, c) == OnePassSummary(PlainPolicy(days), InPlace(entries, day), c);
    assert CurrencyOf(s, c) == OnePassSummary(PlainPolicy(days), Scratch(entries, day, None), c);
  }

  /** Every figure of a day agrees exactly when every depot's total does and every currency's realized gains do:
      holdings, basis, holding classes and fees follow. */
  lemma AgreesIff(days: int, entries: seq<Entry>, day: int, s: Snapshot)
    requires ShowsRun(days, InPlace(entries, day), day, s)
    ensures var xs, ys := InPlace(entries, day), Scratch(entries, day, None);
            Agrees(days, entries, day, s) <==>
            && (forall d: string :: RiseIn(xs, d) == RiseIn(ys, d))
            && (forall c: string :: c != "" ==> SameGains(PlainPolicy(days), xs, ys, c))
  {
    var xs, ys := InPlace(entries, day), Scratch(entries, day, None);
    if Agrees(days, entries, day, s) {
      forall d: string ensures RiseIn(xs, d) == RiseIn(ys, d) { AgreesShowsTotals(days, entries, day, s, d); }
      forall c: string | c != "" ensures SameGains(PlainPolicy(days), xs, ys, c) {
        AgreesShowsGains(days, entries, day, s, c);
      }
    }
    if (forall d: string :: RiseIn(xs, d) == RiseIn(ys, d)) &&
       (forall c: string :: c != "" ==> SameGains(PlainPolicy(days), xs, ys, c)) {
      forall d: string ensures ByDepot(Run(xs).lots, d) == ByDepot(Run(ys).lots, d) { LotsAgreeIff(entries, day, d); }
      FeesAgree(entries, day);
      ShownAlike(days, xs, ys, day, s);
      ScratchShown(days, entries, day, s);
    }
  }

  // ---- ledgers on which the rows differ, and the totals with them ----

  lemma Expansion(a: Entry, b: Entry)
    ensures Expand([a, b]) == ExpandOne(a) + ExpandOne(b)
  {
    assert [a, b][..1] == [a] && [a][..0] == [];
    assert Expand([a]) == ExpandOne(a);
  }

  lemma SortTriple<T>(a: T, b: T, c: T, le: (T, T) -> bool)
    requires le(a, b)
    ensures le(b, c) ==> Sort([a, b, c], le) == [a, b, c]
    ensures !le(b, c) && le(a, c) ==> Sort([a, b, c], le) == [a, c, b]
  {
    assert [a, b, c][..2] == [a, b];
    SortedPair(a, b, le);
    if !le(b, c) && le(a, c) {
      assert [a, b][..1] == [a];
      assert Insert([a], c, le) == [a] + [c];
      assert Insert([a, b], c, le) == [a, c] + [b];
    }
  }

  lemma TotalOfTwo(a: Item, b: Item)
    requires a.depot == b.depot
    ensures var x, y := ItemDelta(a), ItemDelta(a) + ItemDelta(b);
            && DepotBalance([a, b], a.depot) == y && Trough([a, b], a.depot) == Min(Min(0.0, x), y)
            && Sum(Run([a, b]).lots, Remaining) == y - Min(Min(0.0, x), y)
  {
    var d := a.depot;
    assert [] + [a] == [a] && [a] + [b] == [a, b];
    TroughPush([], a, d);
    TroughPush([a], b, d);
    TotalIsRise([d], [a, b]);
    assert Rise([d][..0], [a, b]) == 0.0;
  }

  /** What FIFO holds after three rows of one depot. */
  lemma TotalOfThree(a: Item, b: Item, c: Item)
    requires a.depot == b.depot == c.depot
    ensures var x, y, z := ItemDelta(a), ItemDelta(a) + ItemDelta(b), ItemDelta(a) + ItemDelta(b) + ItemDelta(c);
            Sum(Run([a, b, c]).lots, Remaining) == z - Min(Min(Min(0.0, x), y), z)
  {
    var d := a.depot;
    assert [a, b] + [c] == [a, b, c];
    TotalOfTwo(a, b);
    TroughPush([a, b], c, d);
    TotalIsRise([d], [a, b, c]);
    assert Rise([d][..0], [a, b, c]) == 0.0;
  }

  lemma BookedPair(a: Entry, b: Entry)
    ensures Expand(BookedRows([a, b])) == ExpandOne(BookedRow(a)) + ExpandOne(BookedRow(b))
  {
    assert BookedRows([a, b]) == [BookedRow(a), BookedRow(b)];
    Expansion(BookedRow(a), BookedRow(b));
  }

  lemma RunPairItems(a: Entry, b: Entry)
    ensures RunItems([a, b], None) == Sort(ExpandOne(a) + ExpandOne(b), ItemLe)
  {
    Expansion(a, b);
    KeepAll(Sort(ExpandOne(a) + ExpandOne(b), ItemLe), Scoped(None));
  }

  lemma ShownTotal(days: int, items: seq<Item>, day: int, s: Snapshot)
    requires ShowsRun(days, items, day, s)
    ensures CurrencyOf(s, "EUR").total == Sum(Run(items).lots, Remaining)
  {
    assert CurrencyOf(s, "EUR") == OnePassSummary(PlainPolicy(days), items, "EUR");
  }

  /** A fee booked at once, and sorted behind the second row. */
  lemma FeeBooked(a: Entry, b: Entry)
    requires AddsFee(a) && CleanRow(a) && !AddsFee(b)
    ensures Expand(BookedRows([a, b])) == [MainItem(a), FeeItem(a), MainItem(b)]
  {
    BookedPair(a, b);
  }

  lemma FeeSorted(a: Entry, b: Entry)
    requires AddsFee(a) && !AddsFee(b) && Acquires(a.kind) && Acquires(b.kind) && a.at == b.at && EntryLe(a, b)
    ensures RunItems([a, b], None) == [MainItem(a), MainItem(b), FeeItem(a)]
  {
    RunPairItems(a, b);
    assert ExpandOne(a) + ExpandOne(b) == [MainItem(a), FeeItem(a), MainItem(b)];
    SortTriple(MainItem(a), FeeItem(a), MainItem(b), ItemLe);
  }

  /** Two purchases at one instant; the first pays a BTC fee that it alone does not cover. */
  const EARLY := Entry("a", Purchase, Some(0), "main", 1.0, "EUR", 10.0, 0.0, 2.0, true)
  const LATER := Entry("b", Purchase, Some(0), "main", 5.0, "EUR", 10.0, 0.0, 0.0, false)

  lemma OrderTotals()
    ensures Sum(Run([MainItem(EARLY), FeeItem(EARLY), MainItem(LATER)]).lots, Remaining) == 5.0
    ensures Sum(Run([MainItem(EARLY), MainItem(LATER), FeeItem(EARLY)]).lots, Remaining) == 4.0
  {
    TotalOfThree(MainItem(EARLY), FeeItem(EARLY), MainItem(LATER));
    TotalOfThree(MainItem(EARLY), MainItem(LATER), FeeItem(EARLY));
  }

  /** The one pass takes the fee before the second purchase, the full computation after both: five BTC and one
      oversold against four. */
  lemma FeeOrderDiffers(days: int, s: Snapshot)
    requires ShowsRun(days, InPlace([EARLY, LATER], 0), 0, s)
    ensures CurrencyOf(s, "EUR").total == 5.0
    ensures Sum(Run(Scratch([EARLY, LATER], 0, None)).lots, Remaining) == 4.0
  {
    DayOfTwo(EARLY, LATER, 0);
    FeeBooked(EARLY, LATER);
    FeeSorted(EARLY, LATER);
    ShownTotal(days, InPlace([EARLY, LATER], 0), 0, s);
    OrderTotals();
  }

  /** A purchase, and a row of no BTC with a BTC fee. */
  const BOUGHT := Entry("a", Purchase, Some(0), "main", 1.0, "EUR", 10.0, 0.0, 0.0, false)
  const EMPTY_ROW := Entry("b", Purchase, Some(1), "main", 0.0, "EUR", 10.0, 0.0, 1.0, true)

  lemma UnbookedItems(a: Entry, b: Entry)
    requires !AddsFee(a) && AddsFee(b) && !CleanRow(b)
    ensures Expand(BookedRows([a, b])) == [MainItem(a), MainItem(b)]
  {
    BookedPair(a, b);
  }

  lemma UnbookedSorted(a: Entry, b: Entry)
    requires !AddsFee(a) && AddsFee(b) && Acquires(b.kind) && EntryLe(a, b)
    ensures RunItems([a, b], None) == [MainItem(a), MainItem(b), FeeItem(b)]
  {
    RunPairItems(a, b);
    assert ExpandOne(a) + ExpandOne(b) == [MainItem(a), MainItem(b), FeeItem(b)];
    SortTriple(MainItem(a), MainItem(b), FeeItem(b), ItemLe);
  }

  lemma UnbookedTotals()
    ensures Sum(Run([MainItem(BOUGHT), MainItem(EMPTY_ROW)]).lots, Remaining) == 1.0
    ensures Sum(Run([MainItem(BOUGHT), MainItem(EMPTY_ROW), FeeItem(EMPTY_ROW)]).lots, Remaining) == 0.0
  {
    TotalOfTwo(MainItem(BOUGHT), MainItem(EMPTY_ROW));
    TotalOfThree(MainItem(BOUGHT), MainItem(EMPTY_ROW), FeeItem(EMPTY_ROW));
  }

  /** The one pass skips the row with its fee; the full computation takes the fee. */
  lemma UnbookedFeeDiffers(days: int, s: Snapshot)
    requires ShowsRun(days, InPlace([BOUGHT, EMPTY_ROW], 0), 0, s)
    ensures CurrencyOf(s, "EUR").total == 1.0
    ensures Sum(Run(Scratch([BOUGHT, EMPTY_ROW], 0, None)).lots, Remaining) == 0.0
  {
    DayOfTwo(BOUGHT, EMPTY_ROW, 0);
    UnbookedItems(BOUGHT, EMPTY_ROW);
    UnbookedSorted(BOUGHT, EMPTY_ROW);
    ShownTotal(days, InPlace([BOUGHT, EMPTY_ROW], 0), 0, s);
    UnbookedTotals();
  }

  /** Both witnesses, run: the snapshots of their day. */
  method ParticularSnapshots(longTermDays: int) returns (order: Snapshot, unbooked: Snapshot)
    ensures CurrencyOf(order, "EUR").total == 5.0 && CurrencyOf(unbooked, "EUR").total == 1.0
  {
    var snapshots := DailySnapshots.DailySnapshots([EARLY, LATER], [0], longTermDays);
    order := snapshots[0];
    FeeOrderDiffers(Threshold(PlainPolicy(longTermDays)), order);
    snapshots := DailySnapshots.DailySnapshots([BOUGHT, EMPTY_ROW], [0], longTermDays);
    unbooked := snapshots[0];
    UnbookedFeeDiffers(Threshold(PlainPolicy(longTermDays)), unbooked);
  }
}

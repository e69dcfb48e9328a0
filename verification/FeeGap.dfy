/** Where the gains of the daily snapshots and of the full computation part: network fees that name a currency but
    no price. */
module FeeGap {
  import opened Sums
  import opened Sorting
  import opened Ledger
  import opened Fifo
  import opened FifoLaws
  import opened FifoViews
  import opened FifoEngine
  import opened DailyState
  import opened DailyFifo
  import opened DailyOrder
  import opened DailySnapshots
  import opened Displacement

  /** A network fee that takes BTC and names a currency has a price. */
  predicate PricedFee(e: Entry) { e.kind.NetworkFee? && e.amount > 0.0 && e.currency != "" ==> e.price > 0.0 }

  lemma PricedItem(e: Entry, x: Item)
    requires PricedFee(e) && x in ExpandOne(e) && x.amount > 0.0
    ensures FeePriced(x)
  {
  }

  lemma PricedItems(entries: seq<Entry>, scope: Option<string>)
    requires forall e <- entries :: PricedFee(e)
    ensures forall m <- Run(RunItems(entries, scope)).moves :: FeePriced(m.item)
  {
    forall m | m in Run(RunItems(entries, scope)).moves ensures FeePriced(m.item) {
      MoveFrom(RunItems(entries, scope), m);
      var e := RowOf(entries, scope, m.item);
      PricedItem(e, m.item);
    }
  }

  /** The one pass books on the rows of a day what FIFO from scratch does. */
  ghost predicate BooksAlike(days: int, entries: seq<Entry>, day: int, c: string)
  {
    OnePassSummary(PlainPolicy(days), Scratch(entries, day, None), c) ==
    SummaryIn(PlainPolicy(days), Scratch(entries, day, None), c)
  }

  lemma PricedBookAlike(days: int, entries: seq<Entry>, day: int, c: string)
    requires forall e <- RowsUntil(entries, day) :: PricedFee(e)
    ensures BooksAlike(days, entries, day, c)
  {
    PricedItems(RowsUntil(entries, day), None);
    NoGap(PlainPolicy(days), Run(Scratch(entries, day, None)).moves, c);
  }

  /** With every network fee priced, each currency's figures of each day are those of FIFO from scratch. */
  lemma PricedFeesAgree(days: int, entries: seq<Entry>, day: int, s: Snapshot, c: string)
    requires Agrees(days, entries, day, s) && c != "" && forall e <- entries :: PricedFee(e)
    ensures CurrencyOf(s, c) == SummaryIn(PlainPolicy(days), Scratch(entries, day, None), c)
  {
    assert forall e <- RowsUntil(entries, day) :: e in entries;
    PricedBookAlike(days, entries, day, c);
  }

  // ---- every unpriced fee makes them differ ----

  /** The fee's BTC, bought in its currency at a price of one. */
  function Bought(e: Entry): Entry
  {
    Entry(e.id + "-bought", Purchase, e.at, e.depot, e.amount, e.currency, 1.0, 0.0, 0.0, false)
  }

  /** The fee spends the purchase before it, on a day that includes both. */
  predicate SpentOn(e: Entry, day: int) { !PricedFee(e) && UpTo(EndOfDay(day))(e) }

  lemma RunPair(a: Item, b: Item)
    requires a.amount > 0.0 && Acquires(a.kind) && b.amount > 0.0 && Disposes(b.kind)
    requires a.depot == b.depot && a.amount == b.amount
    ensures Run([a, b]).moves == [Move(b, Some(NewLot(a)), b.amount)]
  {
    var l := NewLot(a);
    RunTwo(a, b);
    assert Step(EMPTY, a) == State([l], []) by { assert [] + [l] == [l]; }
    WholeLot(l, b);
  }

  lemma WholeLot(l: Lot, it: Item)
    requires l.depot == it.depot && l.remaining == it.amount > 0.0
    ensures Block(Draw([l], it, it.amount), it) == [Move(it, Some(l), it.amount)]
  {
    DrawTake(l, [], it, it.amount, it.amount);
    assert [l] + [] == [l];
    assert Draw([], it, 0.0).moves == [];
  }

  function FeeSlice(e: Entry): Move
    requires e.amount > 0.0
  {
    Move(MainItem(e), Some(NewLot(MainItem(Bought(e)))), e.amount)
  }

  lemma FeeLedgerItems(e: Entry, day: int)
    requires SpentOn(e, day)
    ensures OrderedUntil([Bought(e), e], day) == [Bought(e), e]
    ensures Scratch([Bought(e), e], day, None) == [MainItem(Bought(e)), MainItem(e)]
  {
    DayOfTwo(Bought(e), e, day);
    PlainPair(Bought(e), e);
  }

  lemma FeeLedgerMoves(e: Entry, day: int)
    requires SpentOn(e, day)
    ensures Run(Scratch([Bought(e), e], day, None)).moves == [FeeSlice(e)]
  {
    FeeLedgerItems(e, day);
    RunPair(MainItem(Bought(e)), MainItem(e));
  }

  lemma FeeSliceFigures(e: Entry)
    requires !PricedFee(e)
    ensures GainIn(e.currency)(FeeSlice(e)) == -e.amount && FeeBasisIn(e.currency)(FeeSlice(e)) == e.amount
  {
    var l := NewLot(MainItem(Bought(e)));
    assert l.unitBasis == 1.0 by { assert (e.amount * 1.0 + 0.0) / e.amount == 1.0; }
    assert Times(e.amount, l.unitBasis) == e.amount;
    assert Proceeds(FeeSlice(e)) == Some(0.0);
  }

  lemma FeeLedgerGains(days: int, e: Entry, day: int)
    requires SpentOn(e, day)
    ensures var items := Scratch([Bought(e), e], day, None);
            && SummaryIn(PlainPolicy(days), items, e.currency).realized == -e.amount
            && OnePassSummary(PlainPolicy(days), items, e.currency).realized == 0.0
  {
    FeeLedgerMoves(e, day);
    FeeSliceFigures(e);
    SumOne(FeeSlice(e), GainIn(e.currency));
    SumOne(FeeSlice(e), FeeBasisIn(e.currency));
  }

  /** For every unpriced fee, a ledger of undisturbed rows: from scratch the fee realizes the loss of its basis, and
      the snapshot shows a realized gain of zero. */
  lemma UnpricedFeeDiffers(days: int, e: Entry, day: int, s: Snapshot)
    requires SpentOn(e, day) && Agrees(days, [Bought(e), e], day, s)
    ensures SummaryIn(PlainPolicy(days), Scratch([Bought(e), e], day, None), e.currency).realized == -e.amount
    ensures CurrencyOf(s, e.currency).realized == 0.0
  {
    FeeLedgerGains(days, e, day);
  }

  lemma NothingMoves(rows: seq<Entry>)
    requires forall e <- rows :: !AddsFee(e)
    ensures FeesHarmless(rows) && forall e <- rows :: CleanRow(e)
  {
    forall p, q | 0 <= p < q < |rows| ensures FeeMayPass(rows, p, q) { assert rows[p] in rows; }
  }

  lemma PairDiffers(a: Item, b: Item, d: string)
    requires ItemKey(a) != ItemKey(b)
    ensures NoRepeats(ItemsOf([a, b], d))
  {
    FilterSorted([a, b], Has(ItemDepot, d), KeysDiffer);
    var items := ItemsOf([a, b], d);
    forall i, j | 0 <= i < j < |items| ensures ItemKey(items[i]) != ItemKey(items[j]) {
      assert KeysDiffer(items[i], items[j]);
    }
  }

  lemma WitnessUndisturbed(e: Entry, day: int)
    requires SpentOn(e, day)
    ensures Undisturbed(OrderedUntil([Bought(e), e], day))
  {
    FeeLedgerItems(e, day);
    PlainExpansion(Bought(e), e);
    NothingMoves([Bought(e), e]);
    forall d: string ensures NoRepeats(ItemsOf(Expand([Bought(e), e]), d)) {
      PairDiffers(MainItem(Bought(e)), MainItem(e), d);
    }
  }

  /** Any such ledger, run: the snapshot of its day. */
  method UnpricedFeeSnapshot(e: Entry, day: int, longTermDays: int) returns (s: Snapshot)
    requires SpentOn(e, day)
    ensures Agrees(Threshold(PlainPolicy(longTermDays)), [Bought(e), e], day, s)
    ensures CurrencyOf(s, e.currency).realized == 0.0
  {
    var snapshots := DailySnapshots.DailySnapshots([Bought(e), e], [day], longTermDays);
    s := snapshots[day];
    WitnessUndisturbed(e, day);
    UnpricedFeeDiffers(Threshold(PlainPolicy(longTermDays)), e, day, s);
  }

  /** All network fees but the row are priced. */
  ghost predicate OthersPriced(entries: seq<Entry>, e: Entry) { forall x <- entries :: x == e || PricedFee(x) }

  /** However the row is combined with priced ones, all figures of all days agree. */
  ghost predicate AlikeWith(days: int, e: Entry)
  {
    forall entries: seq<Entry>, day: int, c: string ::
      OthersPriced(entries, e) && c != "" ==> BooksAlike(days, entries, day, c)
  }

  lemma SomeDay(e: Entry)
    requires !PricedFee(e) && e.at.Some?
    ensures SpentOn(e, e.at.value / DAY) && OthersPriced([Bought(e), e], e)
  {
    assert e.at.value / DAY * DAY <= e.at.value < e.at.value / DAY * DAY + DAY;
  }

  lemma UnpricedShows(days: int, e: Entry)
    requires !PricedFee(e) && e.at.Some?
    ensures !AlikeWith(days, e)
  {
    SomeDay(e);
    FeeLedgerGains(days, e, e.at.value / DAY);
    assert !BooksAlike(days, [Bought(e), e], e.at.value / DAY, e.currency);
  }

  /** A row leaves the figures of every ledger of otherwise priced fees alike exactly when its own fee is priced, or
      the row is on no day. */
  lemma FiguresAlikeIff(days: int, e: Entry)
    ensures AlikeWith(days, e) <==> PricedFee(e) || e.at.None?
  {
    if PricedFee(e) || e.at.None? {
      forall entries: seq<Entry>, day: int, c: string | OthersPriced(entries, e) && c != ""
        ensures BooksAlike(days, entries, day, c)
      {
        assert forall x <- RowsUntil(entries, day) :: x in entries && UpTo(EndOfDay(day))(x);
        PricedBookAlike(days, entries, day, c);
      }
    } else {
      UnpricedShows(days, e);
    }
  }
}

/** Acquisitions never change places: however BTC fees are booked and sorted, each depot acquires the same lots in
    the same order. */
module Purchases {
  import opened Sums
  import opened Sorting
  import opened Ledger
  import opened Fifo
  import opened FifoViews
  import opened Troughs
  import opened DailyFifo
  import opened DailyOrder
  import opened DailySnapshots

  function BuysOf(items: seq<Item>, d: string): seq<Item> { Filter(ItemsOf(items, d), Buys) }

  lemma PushBuy(items: seq<Item>, x: Item, d: string)
    requires x.depot == d && Buys(x)
    ensures BuysOf(items + [x], d) == BuysOf(items, d) + [x]
  {
    ItemsOfPush(items, x, d);
    FilterPush(ItemsOf(items, d), x, Buys);
  }

  lemma PushOther(items: seq<Item>, x: Item, d: string)
    requires x.depot != d || !Buys(x)
    ensures BuysOf(items + [x], d) == BuysOf(items, d)
  {
    ItemsOfPush(items, x, d);
    if x.depot == d {
      FilterPush(ItemsOf(items, d), x, Buys);
      assert BuysOf(items, d) + [] == BuysOf(items, d);
    } else {
      assert ItemsOf(items, d) + [] == ItemsOf(items, d);
    }
  }

  /** A BTC fee acquires nothing. */
  lemma RowBuys(items: seq<Item>, e: Entry, d: string)
    ensures BuysOf(items + ExpandOne(e), d) == BuysOf(items + [MainItem(e)], d)
  {
    if AddsFee(e) {
      PushOther(items + [MainItem(e)], FeeItem(e), d);
      assert items + ExpandOne(e) == items + [MainItem(e)] + [FeeItem(e)];
    } else {
      assert ExpandOne(e) == [MainItem(e)];
    }
  }

  lemma PushSame(xs: seq<Item>, ys: seq<Item>, x: Item, d: string)
    requires BuysOf(xs, d) == BuysOf(ys, d)
    ensures BuysOf(xs + [x], d) == BuysOf(ys + [x], d)
  {
    if x.depot == d && Buys(x) {
      PushBuy(xs, x, d);
      PushBuy(ys, x, d);
    } else {
      PushOther(xs, x, d);
      PushOther(ys, x, d);
    }
  }

  lemma {:induction false} BookedBuys(rows: seq<Entry>, d: string)
    ensures BuysOf(Expand(BookedRows(rows)), d) == BuysOf(Expand(rows), d)
  {
    if rows != [] {
      var front, e := rows[..|rows| - 1], rows[|rows| - 1];
      assert rows == front + [e];
      BookedBuys(front, d);
      BookedRowsPush(front, e);
      ExpandPush(front, e);
      RowBuys(Expand(BookedRows(front)), BookedRow(e), d);
      RowBuys(Expand(front), e, d);
      PushSame(Expand(BookedRows(front)), Expand(front), MainItem(e), d);
    }
  }

  // ---- the rows behind them ----

  function BuyRows(d: string): Entry -> bool { (e: Entry) => e.depot == d && Buys(MainItem(e)) }

  function Mains(rows: seq<Entry>): seq<Item>
  {
    if rows == [] then [] else Mains(rows[..|rows| - 1]) + [MainItem(rows[|rows| - 1])]
  }

  lemma {:induction false} BuysAreMains(rows: seq<Entry>, d: string)
    ensures BuysOf(Expand(rows), d) == Mains(Filter(rows, BuyRows(d)))
  {
    if rows != [] {
      var front, e := rows[..|rows| - 1], rows[|rows| - 1];
      assert rows == front + [e];
      BuysAreMains(front, d);
      ExpandPush(front, e);
      RowBuys(Expand(front), e, d);
      if BuyRows(d)(e) {
        PushBuy(Expand(front), MainItem(e), d);
        var kept := Filter(front, BuyRows(d));
        assert (kept + [e])[..|kept|] == kept;
      } else {
        PushOther(Expand(front), MainItem(e), d);
      }
    }
  }

  lemma MainsPush(rows: seq<Entry>, e: Entry)
    ensures Mains(rows + [e]) == Mains(rows) + [MainItem(e)]
  {
    assert (rows + [e])[..|rows|] == rows;
  }

  lemma InsertPush<T>(xs: seq<T>, y: T, x: T, le: (T, T) -> bool)
    ensures Insert(xs + [y], x, le) == if le(y, x) then xs + [y] + [x] else Insert(xs, x, le) + [y]
  {
    assert (xs + [y])[..|xs|] == xs;
  }

  /** The sort key of a row is that of its item. */
  lemma {:induction false} InsertMains(rows: seq<Entry>, e: Entry)
    ensures Insert(Mains(rows), MainItem(e), ItemLe) == Mains(Insert(rows, e, EntryLe))
  {
    if rows == [] {
      MainsPush([], e);
      assert [] + [e] == [e] && [] + [MainItem(e)] == [MainItem(e)];
    } else {
      var front, last := rows[..|rows| - 1], rows[|rows| - 1];
      assert rows == front + [last] && ItemLe(MainItem(last), MainItem(e)) == EntryLe(last, e);
      InsertMains(front, e);
      InsertPush(Mains(front), MainItem(last), MainItem(e), ItemLe);
      MainsPush(rows, e);
      MainsPush(Insert(front, e, EntryLe), last);
    }
  }

  lemma SortPush<T>(xs: seq<T>, x: T, le: (T, T) -> bool)
    ensures Sort(xs + [x], le) == Insert(Sort(xs, le), x, le)
  {
    assert (xs + [x])[..|xs|] == xs;
  }

  lemma {:induction false} SortMains(rows: seq<Entry>)
    ensures Sort(Mains(rows), ItemLe) == Mains(Sort(rows, EntryLe))
  {
    if rows != [] {
      var front, last := rows[..|rows| - 1], rows[|rows| - 1];
      SortMains(front);
      SortPush(Mains(front), MainItem(last), ItemLe);
      InsertMains(Sort(front, EntryLe), last);
    }
  }

  // ---- the rows of a day ----

  lemma ScratchBuys(entries: seq<Entry>, day: int, d: string)
    ensures BuysOf(Scratch(entries, day, None), d) == Sort(BuysOf(Expand(RowsUntil(entries, day)), d), ItemLe)
  {
    var items := Expand(RowsUntil(entries, day));
    ItemOrder();
    KeepAll(Sort(items, ItemLe), Scoped(None));
    FilterSort(items, ItemLe, Has(ItemDepot, d));
    FilterSort(ItemsOf(items, d), ItemLe, Buys);
  }

  /** The rows of a day, taken from the sorted ledger or sorted by themselves. */
  lemma OrderedIs(entries: seq<Entry>, day: int)
    ensures OrderedUntil(entries, day) == Sort(RowsUntil(entries, day), EntryLe)
  {
    HistoryOrder();
    FilterSort(entries, HistoryLe, UpTo(EndOfDay(day)));
    SortAlike(RowsUntil(entries, day), HistoryLe, EntryLe);
  }

  /** On every ledger, both computations acquire the same rows in the same order. */
  lemma DayBuys(entries: seq<Entry>, day: int, d: string)
    ensures BuysOf(InPlace(entries, day), d) == BuysOf(Scratch(entries, day, None), d)
  {
    var until := RowsUntil(entries, day);
    OrderedIs(entries, day);
    BookedBuys(Sort(until, EntryLe), d);
    BuysAreMains(Sort(until, EntryLe), d);
    EntryOrder();
    FilterSort(until, EntryLe, BuyRows(d));
    SortMains(Filter(until, BuyRows(d)));
    BuysAreMains(until, d);
    ScratchBuys(entries, day, d);
  }
}

/** Ledger rows, the order they are processed in, and the synthetic BTC-fee disposals.
    An instant counts microseconds; a row whose timestamp does not parse has none. */
module Ledger {
  import opened Sums
  import opened Sorting

  const DAY: int := 86_400_000_000
  /** The last representable instant, used as the sort key of unparseable rows. */
  const MAX_INSTANT: int := 253_402_300_799_999_999

  type Instant = t: int | t <= MAX_INSTANT witness 0

  datatype Kind = Purchase | Income | Stack | Sale | Expense | NetworkFee | Other

  /** A ledger row. The empty currency stands for "no currency". */
  datatype Entry = Entry(id: string, kind: Kind, at: Option<Instant>, depot: string, amount: real,
                         currency: string, price: real, fee: real, feeBtc: real, feeAffectsStack: bool)

  /** A row as the FIFO run sees it; `isFee` marks a BTC fee, `source` the row it came from. */
  datatype Item = Item(id: string, kind: Kind, at: Option<Instant>, depot: string, amount: real,
                       currency: string, price: real, fee: real, isFee: bool, source: string)

  predicate Outgoing(k: Kind) { k.Sale? || k.Expense? || k.NetworkFee? }
  predicate Acquires(k: Kind) { k.Purchase? || k.Income? || k.Stack? }
  predicate Disposes(k: Kind) { k.Sale? || k.Expense? }

  // ---- sort keys ----

  predicate StringLe(a: string, b: string)
  {
    a == "" || (b != "" && (a[0] < b[0] || (a[0] == b[0] && StringLe(a[1..], b[1..]))))
  }

  datatype Key = Key(time: int, out: bool, id: string)

  predicate KeyLe(a: Key, b: Key)
  {
    a.time < b.time ||
    (a.time == b.time && ((!a.out && b.out) || (a.out == b.out && StringLe(a.id, b.id))))
  }

  function TimeKey(at: Option<Instant>): int { match at case Some(t) => t case None => MAX_INSTANT }
  function ItemKey(x: Item): Key { Key(TimeKey(x.at), Outgoing(x.kind), x.id) }
  function EntryKey(e: Entry): Key { Key(TimeKey(e.at), Outgoing(e.kind), e.id) }
  /** The daily snapshots put unparseable rows after everything else instead. */
  function HistoryKey(e: Entry): Key
  {
    Key(if e.at.Some? then e.at.value else MAX_INSTANT + 1, Outgoing(e.kind), e.id)
  }

  predicate ItemLe(a: Item, b: Item) { KeyLe(ItemKey(a), ItemKey(b)) }
  predicate EntryLe(a: Entry, b: Entry) { KeyLe(EntryKey(a), EntryKey(b)) }
  predicate HistoryLe(a: Entry, b: Entry) { KeyLe(HistoryKey(a), HistoryKey(b)) }

  lemma {:induction false} StringTotal(a: string, b: string)
    ensures StringLe(a, b) || StringLe(b, a)
    ensures StringLe(a, b) && StringLe(b, a) ==> a == b
  {
    if a != "" && b != "" {
      StringTotal(a[1..], b[1..]);
      assert a == [a[0]] + a[1..] && b == [b[0]] + b[1..];
    }
  }

  lemma {:induction false} StringTransitive(a: string, b: string, c: string)
    requires StringLe(a, b) && StringLe(b, c)
    ensures StringLe(a, c)
  {
    if a != "" && a[0] == b[0] == c[0] { StringTransitive(a[1..], b[1..], c[1..]); }
  }

  lemma {:induction false} StringPrefix(a: string, b: string)
    requires b != ""
    ensures StringLe(a, a + b) && !StringLe(a + b, a)
  {
    if a != "" {
      assert (a + b)[1..] == a[1..] + b;
      StringPrefix(a[1..], b);
    }
  }

  lemma KeyTotal(a: Key, b: Key)
    ensures KeyLe(a, b) || KeyLe(b, a)
    ensures KeyLe(a, b) && KeyLe(b, a) ==> a == b
  {
    StringTotal(a.id, b.id);
  }

  lemma KeyTransitive(a: Key, b: Key, c: Key)
    requires KeyLe(a, b) && KeyLe(b, c)
    ensures KeyLe(a, c)
  {
    if StringLe(a.id, b.id) && StringLe(b.id, c.id) { StringTransitive(a.id, b.id, c.id); }
  }

  lemma ItemOrder()
    ensures Preorder(ItemLe)
  {
    forall a: Item, b: Item ensures ItemLe(a, b) || ItemLe(b, a) { KeyTotal(ItemKey(a), ItemKey(b)); }
    forall a: Item, b: Item, c: Item | ItemLe(a, b) && ItemLe(b, c) ensures ItemLe(a, c) {
      KeyTransitive(ItemKey(a), ItemKey(b), ItemKey(c));
    }
  }

  lemma HistoryOrder()
    ensures Preorder(HistoryLe)
  {
    forall a: Entry, b: Entry ensures HistoryLe(a, b) || HistoryLe(b, a) { KeyTotal(HistoryKey(a), HistoryKey(b)); }
    forall a: Entry, b: Entry, c: Entry | HistoryLe(a, b) && HistoryLe(b, c) ensures HistoryLe(a, c) {
      KeyTransitive(HistoryKey(a), HistoryKey(b), HistoryKey(c));
    }
  }

  lemma EntryOrder()
    ensures Preorder(EntryLe)
  {
    forall a: Entry, b: Entry ensures EntryLe(a, b) || EntryLe(b, a) { KeyTotal(EntryKey(a), EntryKey(b)); }
    forall a: Entry, b: Entry, c: Entry | EntryLe(a, b) && EntryLe(b, c) ensures EntryLe(a, c) {
      KeyTransitive(EntryKey(a), EntryKey(b), EntryKey(c));
    }
  }

  // ---- synthetic BTC-fee disposals ----

  predicate PaysBtcFee(e: Entry) { e.feeBtc > 0.0 && e.feeAffectsStack }

  /** The row is expanded by a BTC-fee disposal. */
  predicate AddsFee(e: Entry) { PaysBtcFee(e) && !e.kind.NetworkFee? }

  function FeeItem(e: Entry): Item
  {
    var priced := e.currency != "" && e.price > 0.0;
    Item(e.id + "::btc_fee", Expense, e.at, e.depot, e.feeBtc,
         if priced then e.currency else "", if priced then e.price else 0.0, 0.0, true, e.id)
  }

  function MainItem(e: Entry): Item
  {
    if e.kind.NetworkFee?
    then Item(e.id, Expense, e.at, e.depot, e.amount, e.currency, e.price, 0.0, true, e.id)
    else Item(e.id, e.kind, e.at, e.depot, e.amount, e.currency, e.price, e.fee, false, "")
  }

  /** What one row contributes to the FIFO run: itself, then its stack-affecting BTC fee. */
  function ExpandOne(e: Entry): seq<Item>
  {
    if AddsFee(e) then [MainItem(e), FeeItem(e)] else [MainItem(e)]
  }

  function Expand(entries: seq<Entry>): seq<Item>
  {
    if entries == [] then []
    else Expand(entries[..|entries| - 1]) + ExpandOne(entries[|entries| - 1])
  }

  lemma ExpandPush(rows: seq<Entry>, e: Entry)
    ensures Expand(rows + [e]) == Expand(rows) + ExpandOne(e)
  {
    assert (rows + [e])[..|rows|] == rows;
  }

  /** The expansion is built by appending, one input row at a time. */
  method ExpandEntries(entries: seq<Entry>) returns (expanded: seq<Item>)
    ensures expanded == Expand(entries)
  {
    expanded := [];
    for i := 0 to |entries|
      invariant expanded == Expand(entries[..i])
    {
      var e := entries[i];
      assert entries[..i + 1][..i] == entries[..i];
      ghost var before := expanded;
      expanded := expanded + [MainItem(e)];
      if AddsFee(e) {
        expanded := expanded + [FeeItem(e)];
        assert expanded == before + [MainItem(e), FeeItem(e)];
      }
    }
    assert entries[..|entries|] == entries;
  }

  /** The rows of one depot, or all rows. */
  predicate InScope(scope: Option<string>, depot: string) { scope.None? || scope.value == depot }
  function Scoped(scope: Option<string>): Item -> bool { (x: Item) => InScope(scope, x.depot) }

  /** The item list of one FIFO run: expand, sort, then keep the scope. */
  function RunItems(entries: seq<Entry>, scope: Option<string>): seq<Item>
  {
    Filter(Sort(Expand(entries), ItemLe), Scoped(scope))
  }

  lemma RunItemsSorted(entries: seq<Entry>, scope: Option<string>)
    ensures Sorted(RunItems(entries, scope), ItemLe)
  {
    ItemOrder();
    SortSorts(Expand(entries), ItemLe);
    FilterSorted(Sort(Expand(entries), ItemLe), Scoped(scope), ItemLe);
  }

  /** Every item of an expansion comes from a row, and shows its instant and depot. */
  lemma {:induction false} ComesFrom(rows: seq<Entry>, x: Item) returns (k: nat)
    requires x in Expand(rows)
    ensures k < |rows| && x in ExpandOne(rows[k]) && rows[k].at == x.at && rows[k].depot == x.depot
  {
    var n := |rows| - 1;
    if x in ExpandOne(rows[n]) { k := n; } else { k := ComesFrom(rows[..n], x); }
  }

  /** Every item of a run belongs to a row of the ledger. */
  lemma RowOf(entries: seq<Entry>, scope: Option<string>, x: Item) returns (e: Entry)
    requires x in RunItems(entries, scope)
    ensures e in entries && x in ExpandOne(e) && e.at == x.at && e.depot == x.depot
  {
    SortPermutes(Expand(entries), ItemLe);
    SameElements(Sort(Expand(entries), ItemLe), Expand(entries));
    var k := ComesFrom(entries, x);
    e := entries[k];
  }

  lemma PlainExpansion(a: Entry, b: Entry)
    requires !AddsFee(a) && !AddsFee(b)
    ensures Expand([a, b]) == [MainItem(a), MainItem(b)]
  {
    assert [a, b][..1] == [a] && [a][..0] == [];
    assert Expand([a]) == ExpandOne(a);
    assert Expand([a, b]) == ExpandOne(a) + ExpandOne(b);
  }

  lemma PlainPair(a: Entry, b: Entry)
    requires EntryLe(a, b) && !AddsFee(a) && !AddsFee(b)
    ensures RunItems([a, b], None) == [MainItem(a), MainItem(b)]
  {
    PlainExpansion(a, b);
    SortedPair(MainItem(a), MainItem(b), ItemLe);
    KeepAll([MainItem(a), MainItem(b)], Scoped(None));
  }
}

/** The day loop of the daily snapshots and its main theorem: every snapshot shows the figures of FIFO over the
    rows as the pass books them, and those of FIFO from scratch where both have the same lots and slices. */
module DailySnapshots {
  import opened Sums
  import opened Sorting
  import opened Ledger
  import opened Fifo
  import opened FifoLaws
  import opened FifoViews
  import opened FifoRecords
  import opened FifoEngine
  import opened DailyState
  import opened DailyFifo
  import opened DailyOrder
  import opened Goals

  datatype Snapshot = Snapshot(stock: Stock, gains: Gains, unknownHolding: real, purchaseFees: map<string, real>,
                               incomeFees: map<string, real>, saleFees: map<string, real>)

  function EndOfDay(day: int): int { (day + 1) * DAY - 1 }

  function SnapshotOf(f: Daily): Snapshot
  {
    var rest := f.stock.total - f.stock.long - f.stock.short;
    Snapshot(f.stock, f.gains, if rest > 0.0 then rest else 0.0, f.purchaseFees, f.incomeFees, f.saleFees)
  }

  /** `_snapshot_currency_summary`: one currency's figures, zero where the snapshot has none. */
  function CurrencyOf(s: Snapshot, c: string): CurrencySummary
  {
    CurrencySummary(s.stock.total, Get(s.stock.known, c), Get(s.stock.invested, c), Get(s.gains.all, c),
                    Get(s.gains.long, c), Get(s.gains.short, c), Get(s.purchaseFees, c), Get(s.incomeFees, c),
                    Get(s.saleFees, c))
  }

  // ---- the reference: FIFO from scratch on the rows of the day and before ----

  ghost function RowsUntil(entries: seq<Entry>, day: int): seq<Entry> { Filter(entries, UpTo(EndOfDay(day))) }

  ghost function Scratch(entries: seq<Entry>, day: int, scope: Option<string>): seq<Item>
  {
    RunItems(RowsUntil(entries, day), scope)
  }

  /** The from-scratch figures of one currency, with the gains as the one pass books them: BTC fees that name
      the currency but no price count for nothing instead of losing their basis. */
  ghost function OnePassSummary(p: Policy, items: seq<Item>, c: string): CurrencySummary
  {
    var s, moves := SummaryIn(p, items, c), Run(items).moves;
    s.(realized := s.realized + Sum(moves, FeeBasisIn(c)),
       realizedLong := s.realizedLong + Sum(moves, ClassFeeBasisIn(p, LongTerm, c)),
       realizedShort := s.realizedShort + Sum(moves, ClassFeeBasisIn(p, ShortTerm, c)))
  }

  /** The rows up to the end of a day as the one pass books them: in ledger order, each BTC fee behind its row. */
  ghost function InPlace(entries: seq<Entry>, day: int): seq<Item> { Expand(BookedRows(OrderedUntil(entries, day))) }

  ghost function OrderedUntil(entries: seq<Entry>, day: int): seq<Entry>
  {
    Filter(Sort(entries, HistoryLe), UpTo(EndOfDay(day)))
  }

  /** All figures but the depots' are those of a run over the items. */
  ghost predicate ShowsTotals(days: int, items: seq<Item>, day: int, s: Snapshot)
  {
    var p, lots := PlainPolicy(days), Run(items).lots;
    && s.stock.long == Sum(lots, OpenClass(p, EndOfDay(day), LongTerm))
    && s.stock.short == Sum(lots, OpenClass(p, EndOfDay(day), ShortTerm))
    && s.unknownHolding == Sum(lots, OpenClass(p, EndOfDay(day), Unknown)) == 0.0
    && (forall c: string :: c != "" ==> CurrencyOf(s, c) == OnePassSummary(p, items, c))
  }

  /** The figures of a depot are those of its lots. */
  ghost predicate ShowsDepot(days: int, lots: seq<Lot>, day: int, s: Snapshot, d: string)
  {
    var p := PlainPolicy(days);
    && Get(s.stock.depotTotal, d) == Sum(lots, Remaining)
    && Get(s.stock.depotLong, d) == Sum(lots, OpenClass(p, EndOfDay(day), LongTerm))
    && Get(s.stock.depotShort, d) == Sum(lots, OpenClass(p, EndOfDay(day), ShortTerm))
  }

  ghost predicate ShowsRun(days: int, items: seq<Item>, day: int, s: Snapshot)
  {
    ShowsTotals(days, items, day, s) && forall d: string :: ShowsDepot(days, ByDepot(Run(items).lots, d), day, s, d)
  }

  /** Every figure is that of FIFO from scratch, each depot's that of the scoped computation. */
  ghost predicate Agrees(days: int, entries: seq<Entry>, day: int, s: Snapshot)
  {
    && ShowsTotals(days, Scratch(entries, day, None), day, s)
    && forall d: string :: ShowsDepot(days, Run(Scratch(entries, day, Some(d))).lots, day, s, d)
  }

  // ---- from the running variables to the reference ----

  function InDepot(d: string, f: Lot -> real): Lot -> real { (l: Lot) => if l.depot == d then f(l) else 0.0 }

  /** The halves before and after the maturity position are the two holding classes. */
  lemma HalvesAreClasses(days: int, maturities: seq<(int, nat)>, position: nat, lots: seq<Lot>, now: int)
    requires days >= 1 && Scheduled(days, maturities, position, lots, now)
    ensures forall l <- lots[..position] :: HoldingDetails(PlainPolicy(days), l.at, Some(now)).period == LongTerm
    ensures forall l <- lots[position..] :: HoldingDetails(PlainPolicy(days), l.at, Some(now)).period == ShortTerm
  {
    forall k | 0 <= k < |lots|
      ensures HoldingDetails(PlainPolicy(days), lots[k].at,
              Some(now)).period == if k < position then LongTerm else ShortTerm
    {
      assert lots[k].at.value <= now && maturities[k].0 == lots[k].at.value + days * DAY;
    }
  }

  /** A sum over one class is the sum over its half. */
  lemma ClassSum(a: seq<Lot>, b: seq<Lot>, f: Lot -> real, g: Lot -> real)
    requires forall l <- a :: g(l) == f(l)
    requires forall l <- b :: g(l) == 0.0
    ensures Sum(a + b, g) == Sum(a, f) && Sum(b + a, g) == Sum(a, f)
  {
    SumConcat(a, b, g);
    SumConcat(b, a, g);
    SumSame(a, g, f);
    SumZero(b, g);
  }

  lemma OpenTotals(days: int, f: Daily, lots: seq<Lot>, now: int)
    requires days >= 1 && Scheduled(days, f.maturities, f.position, lots, now) && HalvesOf(f.stock, lots, f.position)
    ensures f.stock.long == Sum(lots, OpenClass(PlainPolicy(days), now, LongTerm))
    ensures f.stock.short == Sum(lots, OpenClass(PlainPolicy(days), now, ShortTerm))
    ensures Sum(lots, OpenClass(PlainPolicy(days), now, Unknown)) == 0.0
    ensures f.stock.total == f.stock.long + f.stock.short
  {
    var p, a, b := PlainPolicy(days), lots[..f.position], lots[f.position..];
    assert lots == a + b;
    HalvesAreClasses(days, f.maturities, f.position, lots, now);
    ClassSum(a, b, Remaining, OpenClass(p, now, LongTerm));
    ClassSum(b, a, Remaining, OpenClass(p, now, ShortTerm));
    SumZero(lots, OpenClass(p, now, Unknown));
    SumConcat(a, b, Remaining);
  }

  lemma OpenDepotTotals(days: int, f: Daily, lots: seq<Lot>, now: int, d: string)
    requires days >= 1 && Scheduled(days, f.maturities, f.position, lots, now) && HalvesOf(f.stock, lots, f.position)
    ensures Get(f.stock.depotTotal, d) == Sum(ByDepot(lots, d), Remaining)
    ensures Get(f.stock.depotLong, d) == Sum(ByDepot(lots, d), OpenClass(PlainPolicy(days), now, LongTerm))
    ensures Get(f.stock.depotShort, d) == Sum(ByDepot(lots, d), OpenClass(PlainPolicy(days), now, ShortTerm))
  {
    var p, a, b := PlainPolicy(days), lots[..f.position], lots[f.position..];
    var long, short := OpenClass(p, now, LongTerm), OpenClass(p, now, ShortTerm);
    assert lots == a + b;
    HalvesAreClasses(days, f.maturities, f.position, lots, now);
    forall l: Lot ensures Has(LotDepot, d)(l) == (l.depot == d) { assert LotDepot(l) == l.depot; }
    SumFilter(lots, Has(LotDepot, d), Remaining, RemainingOf(d));
    SumFilter(lots, Has(LotDepot, d), long, InDepot(d, long));
    SumFilter(lots, Has(LotDepot, d), short, InDepot(d, short));
    ClassSum(a, b, RemainingOf(d), InDepot(d, long));
    ClassSum(b, a, RemainingOf(d), InDepot(d, short));
  }

  lemma CurrencyAgrees(days: int, f: Daily, items: seq<Item>, now: int, c: string)
    requires Tracks(days, f, items, now) && c != ""
    ensures CurrencyOf(SnapshotOf(f), c) == OnePassSummary(PlainPolicy(days), items, c)
  {
    assert Get(f.stock.known, c) == Sum(Run(items).lots, RemainingIn(c));
    assert Get(f.stock.invested, c) == Sum(Run(items).lots, InvestedIn(c));
    BookedGap(PlainPolicy(days), Run(items).moves, c);
  }

  /** The same currency fees, by kind of row. */
  ghost predicate SameFees(xs: seq<Item>, ys: seq<Item>)
  {
    forall c: string ::
      && Sum(xs, FeeIn(Purchase, c)) == Sum(ys, FeeIn(Purchase, c))
      && Sum(xs, FeeIn(Income, c)) == Sum(ys, FeeIn(Income, c))
      && Sum(xs, FeeIn(Sale, c)) == Sum(ys, FeeIn(Sale, c))
  }

  /** The same gains of a currency as the one pass books them. */
  ghost predicate SameGains(p: Policy, xs: seq<Item>, ys: seq<Item>, c: string)
  {
    var a, b := OnePassSummary(p, xs, c), OnePassSummary(p, ys, c);
    a.realized == b.realized && a.realizedLong == b.realizedLong && a.realizedShort == b.realizedShort
  }

  /** The figures of a currency depend on the lots and slices of each depot and on the rows' fees alone. */
  lemma SameSummary(p: Policy, xs: seq<Item>, ys: seq<Item>, c: string)
    requires SameBooks(xs, ys) && SameFees(xs, ys)
    ensures SummaryIn(p, xs, c) == SummaryIn(p, ys, c)
  {
    BooksHaveStock(xs, ys);
    SameOverLots(xs, ys, Remaining);
    SameOverLots(xs, ys, RemainingIn(c));
    SameOverLots(xs, ys, InvestedIn(c));
    SameOverMoves(xs, ys, GainIn(c));
    SameOverMoves(xs, ys, ClassGainIn(p, LongTerm, c));
    SameOverMoves(xs, ys, ClassGainIn(p, ShortTerm, c));
  }

  lemma BooksHaveGains(p: Policy, xs: seq<Item>, ys: seq<Item>, c: string)
    requires SameBooks(xs, ys)
    ensures SameGains(p, xs, ys, c)
  {
    SameOverMoves(xs, ys, GainIn(c));
    SameOverMoves(xs, ys, ClassGainIn(p, LongTerm, c));
    SameOverMoves(xs, ys, ClassGainIn(p, ShortTerm, c));
    SameOverMoves(xs, ys, FeeBasisIn(c));
    SameOverMoves(xs, ys, ClassFeeBasisIn(p, LongTerm, c));
    SameOverMoves(xs, ys, ClassFeeBasisIn(p, ShortTerm, c));
  }

  lemma TotalsShown(days: int, f: Daily, items: seq<Item>, day: int)
    requires days >= 1 && Tracks(days, f, items, EndOfDay(day))
    ensures ShowsTotals(days, items, day, SnapshotOf(f))
  {
    OpenTotals(days, f, Run(items).lots, EndOfDay(day));
    forall c: string | c != "" ensures CurrencyOf(SnapshotOf(f), c) == OnePassSummary(PlainPolicy(days), items, c) {
      CurrencyAgrees(days, f, items, EndOfDay(day), c);
    }
  }

  /** The variables at the end of a day give the figures of a run over what was booked. */
  lemma DayShows(days: int, f: Daily, items: seq<Item>, day: int)
    requires days >= 1 && Tracks(days, f, items, EndOfDay(day))
    ensures ShowsRun(days, items, day, SnapshotOf(f))
  {
    TotalsShown(days, f, items, day);
    forall d: string ensures ShowsDepot(days, ByDepot(Run(items).lots, d), day, SnapshotOf(f), d) {
      OpenDepotTotals(days, f, Run(items).lots, EndOfDay(day), d);
    }
  }

  lemma SameOnePass(p: Policy, xs: seq<Item>, ys: seq<Item>, c: string)
    requires SameStock(xs, ys) && SameFees(xs, ys) && SameGains(p, xs, ys, c)
    ensures OnePassSummary(p, xs, c) == OnePassSummary(p, ys, c)
  {
    SameOverLots(xs, ys, Remaining);
    SameOverLots(xs, ys, RemainingIn(c));
    SameOverLots(xs, ys, InvestedIn(c));
  }

  /** What a snapshot shows of one list of rows, it shows of another with the same lots, fees and gains. */
  lemma ShownAlike(days: int, xs: seq<Item>, ys: seq<Item>, day: int, s: Snapshot)
    requires ShowsRun(days, xs, day, s) && SameStock(xs, ys) && SameFees(xs, ys)
    requires forall c: string :: c != "" ==> SameGains(PlainPolicy(days), xs, ys, c)
    ensures ShowsRun(days, ys, day, s)
  {
    var p := PlainPolicy(days);
    SameOverLots(xs, ys, OpenClass(p, EndOfDay(day), LongTerm));
    SameOverLots(xs, ys, OpenClass(p, EndOfDay(day), ShortTerm));
    SameOverLots(xs, ys, OpenClass(p, EndOfDay(day), Unknown));
    forall c: string | c != "" ensures CurrencyOf(s, c) == OnePassSummary(p, ys, c) { SameOnePass(p, xs, ys, c); }
    forall d: string ensures ShowsDepot(days, ByDepot(Run(ys).lots, d), day, s, d) {
      assert ByDepot(Run(xs).lots, d) == ByDepot(Run(ys).lots, d);
    }
  }

  lemma ScratchShown(days: int, entries: seq<Entry>, day: int, s: Snapshot)
    requires ShowsRun(days, Scratch(entries, day, None), day, s)
    ensures Agrees(days, entries, day, s)
  {
    forall d: string ensures ShowsDepot(days, Run(Scratch(entries, day, Some(d))).lots, day, s, d) {
      ScopedResult(RowsUntil(entries, day), d);
    }
  }

  lemma AllBooked(rows: seq<Entry>)
    requires forall e <- rows :: CleanRow(e)
    ensures BookedRows(rows) == rows
  {
  }

  /** Rows up to a day, in ledger order. */
  lemma DayRows(entries: seq<Entry>, day: int)
    ensures var rows := OrderedUntil(entries, day);
            && Sorted(rows, HistoryLe) && Sorted(rows, EntryLe) && (forall e <- rows :: e.at.Some?)
            && multiset(rows) == multiset(RowsUntil(entries, day))
            && (forall e :: e in rows <==> e in RowsUntil(entries, day))
  {
    var ordered, cut := Sort(entries, HistoryLe), UpTo(EndOfDay(day));
    SortedRows(entries);
    SortPermutes(entries, HistoryLe);
    FilterSorted(ordered, cut, HistoryLe);
    FilterPermutes(ordered, entries, cut);
    SameElements(Filter(ordered, cut), RowsUntil(entries, day));
    ParseableOrder(Filter(ordered, cut));
  }

  /** Parseable rows stand in the same order for both computations. */
  lemma ParseableOrder(rows: seq<Entry>)
    requires Sorted(rows, HistoryLe) && forall e <- rows :: e.at.Some?
    ensures Sorted(rows, EntryLe)
  {
    forall i, j | 0 <= i < j < |rows| ensures EntryLe(rows[i], rows[j]) {
      assert rows[i] in rows && rows[j] in rows && HistoryLe(rows[i], rows[j]);
    }
  }

  lemma {:induction false} BookedFees(rows: seq<Entry>, k: Kind, c: string)
    requires !k.Expense?
    ensures Sum(Expand(BookedRows(rows)), FeeIn(k, c)) == Sum(Expand(rows), FeeIn(k, c))
  {
    if rows != [] {
      var front, e := rows[..|rows| - 1], rows[|rows| - 1];
      assert rows == front + [e];
      BookedFees(front, k, c);
      BookedRowsPush(front, e);
      ExpandPush(front, e);
      RowFees(Expand(BookedRows(front)), BookedRow(e), k, c);
      RowFees(Expand(front), e, k, c);
    }
  }

  /** A BTC fee carries no currency fee. */
  lemma RowFees(items: seq<Item>, e: Entry, k: Kind, c: string)
    requires !k.Expense?
    ensures Sum(items + ExpandOne(e), FeeIn(k, c)) == Sum(items, FeeIn(k, c)) + FeeIn(k, c)(MainItem(e))
  {
    SumPush(items, MainItem(e), FeeIn(k, c));
    if AddsFee(e) {
      assert items + ExpandOne(e) == items + [MainItem(e)] + [FeeItem(e)];
      SumPush(items + [MainItem(e)], FeeItem(e), FeeIn(k, c));
    }
  }

  /** Currency fees agree on every ledger. */
  lemma FeesAgree(entries: seq<Entry>, day: int)
    ensures SameFees(InPlace(entries, day), Scratch(entries, day, None))
  {
    var rows, until := OrderedUntil(entries, day), RowsUntil(entries, day);
    DayRows(entries, day);
    ExpandPermutes(rows, until);
    SortPermutes(Expand(until), ItemLe);
    KeepAll(Sort(Expand(until), ItemLe), Scoped(None));
    forall k: Kind, c: string | !k.Expense?
      ensures Sum(InPlace(entries, day), FeeIn(k, c)) == Sum(Scratch(entries, day, None), FeeIn(k, c))
    {
      BookedFees(rows, k, c);
      SumPermutes(Expand(rows), Scratch(entries, day, None), FeeIn(k, c));
    }
  }

  /** Of the sorted rows, no two items of a depot tie, every BTC fee stands on a booked row, and none leaves a
      trace when it changes places. */
  ghost predicate Undisturbed(rows: seq<Entry>)
  {
    NoTies(rows) && FeesHarmless(rows) && forall e <- rows :: CleanRow(e)
  }

  /** Then both computations have the same lots and slices. */
  lemma BooksAgree(entries: seq<Entry>, day: int)
    requires Undisturbed(OrderedUntil(entries, day))
    ensures SameBooks(InPlace(entries, day), Scratch(entries, day, None))
  {
    DayRows(entries, day);
    AllBooked(OrderedUntil(entries, day));
    SameBooksIff(OrderedUntil(entries, day), RowsUntil(entries, day));
  }

  /** One pass, same figures: the variables at the end of a day agree with FIFO from scratch. */
  lemma DayAgrees(days: int, entries: seq<Entry>, day: int, s: Snapshot)
    requires ShowsRun(days, InPlace(entries, day), day, s) && Undisturbed(OrderedUntil(entries, day))
    ensures Agrees(days, entries, day, s)
  {
    var xs, ys := InPlace(entries, day), Scratch(entries, day, None);
    BooksAgree(entries, day);
    BooksHaveStock(xs, ys);
    FeesAgree(entries, day);
    forall c: string ensures SameGains(PlainPolicy(days), xs, ys, c) { BooksHaveGains(PlainPolicy(days), xs, ys, c); }
    ShownAlike(days, xs, ys, day, s);
    ScratchShown(days, entries, day, s);
  }

  /** A day of two rows. */
  lemma DayOfTwo(a: Entry, b: Entry, day: int)
    requires HistoryLe(a, b) && UpTo(EndOfDay(day))(a) && UpTo(EndOfDay(day))(b)
    ensures OrderedUntil([a, b], day) == [a, b] && RowsUntil([a, b], day) == [a, b]
  {
    SortedPair(a, b, HistoryLe);
    KeepAll([a, b], UpTo(EndOfDay(day)));
  }

  // ---- the loop ----

  predicate IntLe(a: int, b: int) { a <= b }

  lemma StartTracks(days: int, now: int)
    ensures Tracks(days, START, [], now)
  {
  }

  /** Exactly the rows in front of `position` lie up to `now`. */
  ghost predicate Placed(ordered: seq<Entry>, position: nat, now: int)
  {
    && position <= |ordered|
    && (forall k :: 0 <= k < position ==> UpTo(now)(ordered[k]))
    && (forall k :: position <= k < |ordered| && ordered[k].at.Some? ==> now <= ordered[k].at.value)
  }

  lemma PlacedNext(ordered: seq<Entry>, position: nat, now: int)
    requires Placed(ordered, position, now) && Sorted(ordered, HistoryLe)
    requires position < |ordered| && ordered[position].at.Some?
    ensures now <= ordered[position].at.value && Placed(ordered, position + 1, ordered[position].at.value)
    ensures ordered[..position + 1] == ordered[..position] + [ordered[position]]
  {
    LaterThan(ordered, position);
  }

  method Mature(days: int, f: Daily, cutoff: int, ghost items: seq<Item>, ghost now: int) returns (r: Daily)
    requires days >= 1 && Tracks(days, f, items, now) && now <= cutoff
    ensures Tracks(days, r, items, cutoff)
  {
    r := MatureUntil(days, f, cutoff, Run(items), now);
  }

  /** Mature to the row's instant, then book it. */
  method StepRow(days: int, f: Daily, e: Entry, at: Instant, ghost rows: seq<Entry>, ghost now: int) returns (r: Daily)
    requires days >= 1 && Tracks(days, f, Expand(BookedRows(rows)), now) && e.at == Some(at) && now <= at
    ensures Tracks(days, r, Expand(BookedRows(rows + [e])), at)
  {
    BookedRowsPush(rows, e);
    r := Mature(days, f, at, Expand(BookedRows(rows)), now);
    r := ProcessRow(days, r, e, at, Expand(BookedRows(rows)));
  }

  lemma LaterThan(ordered: seq<Entry>, position: nat)
    requires Sorted(ordered, HistoryLe) && position < |ordered| && ordered[position].at.Some?
    ensures forall k :: position < k < |ordered| && ordered[k].at.Some? ==>
              ordered[position].at.value <= ordered[k].at.value
  {
    forall k | position < k < |ordered| && ordered[k].at.Some?
      ensures ordered[position].at.value <= ordered[k].at.value
    {
      assert HistoryLe(ordered[position], ordered[k]);
    }
  }

  ghost predicate Reached(days: int, f: Daily, ordered: seq<Entry>, position: nat, now: int)
  {
    Placed(ordered, position, now) && Tracks(days, f, Expand(BookedRows(ordered[..position])), now)
  }

  method NextRow(days: int, f: Daily, ordered: seq<Entry>, position: nat, ghost now: int) returns (r: Daily)
    requires days >= 1 && Reached(days, f, ordered, position, now) && Sorted(ordered, HistoryLe)
    requires position < |ordered| && ordered[position].at.Some?
    ensures now <= ordered[position].at.value && Reached(days, r, ordered, position + 1, ordered[position].at.value)
  {
    PlacedNext(ordered, position, now);
    r := StepRow(days, f, ordered[position], ordered[position].at.value, ordered[..position], now);
  }

  predicate Late(e: Entry, cutoff: int) { e.at.None? || e.at.value > cutoff }

  lemma LateIs(e: Entry, cutoff: int)
    ensures Late(e, cutoff) <==> !UpTo(cutoff)(e)
  {
  }

  /** The rows up to the end of a day. */
  method StepRows(days: int, f: Daily, ordered: seq<Entry>, start: nat, cutoff: int, ghost now: int)
    returns (r: Daily, position: nat, ghost time: int)
    requires days >= 1 && Reached(days, f, ordered, start, now) && now <= cutoff && Sorted(ordered, HistoryLe)
    ensures Reached(days, r, ordered, position, time) && time <= cutoff
    ensures position < |ordered| ==> Late(ordered[position], cutoff)
  {
    r, position, time := f, start, now;
    while position < |ordered| && !Late(ordered[position], cutoff)
      invariant Reached(days, r, ordered, position, time) && time <= cutoff
      decreases |ordered| - position
    {
      var e := ordered[position];
      r := NextRow(days, r, ordered, position, time);
      time := e.at.value;
      position := position + 1;
    }
  }

  /** One day: the rows up to its end, then the maturities up to its end. */
  method StepDay(days: int, f: Daily, ordered: seq<Entry>, start: nat, cutoff: int, ghost now: int)
    returns (r: Daily, position: nat)
    requires days >= 1 && Reached(days, f, ordered, start, now) && now <= cutoff && Sorted(ordered, HistoryLe)
    ensures Reached(days, r, ordered, position, cutoff)
    ensures position < |ordered| ==> !UpTo(cutoff)(ordered[position])
  {
    ghost var time;
    r, position, time := StepRows(days, f, ordered, start, cutoff, now);
    r := Mature(days, r, cutoff, Expand(BookedRows(ordered[..position])), time);
    if position < |ordered| {
      LateIs(ordered[position], cutoff);
      AfterCutoff(ordered, position, cutoff);
    }
  }

  lemma AfterCutoff(ordered: seq<Entry>, position: nat, cutoff: int)
    requires Sorted(ordered, HistoryLe) && position < |ordered| && !UpTo(cutoff)(ordered[position])
    ensures forall k :: position <= k < |ordered| && ordered[k].at.Some? ==> cutoff <= ordered[k].at.value
  {
    forall k | position <= k < |ordered| && ordered[k].at.Some? ensures cutoff <= ordered[k].at.value {
      if position < k { assert HistoryLe(ordered[position], ordered[k]); }
    }
  }

  /** An instant before every row and every day's end. */
  ghost function Before(ordered: seq<Entry>, dayList: seq<int>): (t: int)
    ensures forall e <- ordered :: e.at.Some? ==> t <= e.at.value
    ensures forall d <- dayList :: t <= EndOfDay(d)
  {
    if ordered != [] then
      var n := |ordered| - 1;
      var t := Before(ordered[..n], dayList);
      if ordered[n].at.Some? && ordered[n].at.value < t then ordered[n].at.value else t
    else if dayList != [] then
      var n := |dayList| - 1;
      var t := Before([], dayList[..n]);
      if EndOfDay(dayList[n]) < t then EndOfDay(dayList[n]) else t
    else 0
  }

  lemma DaysOrder(dayList: seq<int>)
    ensures Sorted(Sort(dayList, IntLe), IntLe)
    ensures forall d: int :: d in Sort(dayList, IntLe) <==> d in dayList
  {
    SortSorts(dayList, IntLe);
    SortPermutes(dayList, IntLe);
    SameElements(Sort(dayList, IntLe), dayList);
  }

  /** Daily snapshots in one chronological pass, for every ledger: each day shows the figures of FIFO over the
      rows as the pass books them. Where no BTC fee stands on an unbooked row or leaves a trace when the full
      computation sorts it behind other rows, these are the figures of FIFO from scratch. */
  method DailySnapshots(entries: seq<Entry>, dayList: seq<int>, longTermDays: int)
    returns (snapshots: map<int, Snapshot>)
    ensures forall day: int :: day in snapshots <==> day in dayList
    ensures forall day: int :: day in snapshots ==>
              ShowsRun(Threshold(PlainPolicy(longTermDays)), InPlace(entries, day), day, snapshots[day])
    ensures forall day: int :: day in snapshots && Undisturbed(OrderedUntil(entries, day)) ==>
              Agrees(Threshold(PlainPolicy(longTermDays)), entries, day, snapshots[day])
  {
    var days := Threshold(PlainPolicy(longTermDays));
    var ordered, sortedDays := Sort(entries, HistoryLe), Sort(dayList, IntLe);
    SortedRows(entries);
    DaysOrder(dayList);
    snapshots := map[];
    var f := START;
    var position: nat := 0;
    ghost var now := Before(ordered, sortedDays);
    StartTracks(days, now);
    assert Expand(BookedRows(ordered[..0])) == [];
    assert Reached(days, f, ordered, position, now);
    for i := 0 to |sortedDays|
      invariant Reached(days, f, ordered, position, now)
      invariant forall j :: i <= j < |sortedDays| ==> now <= EndOfDay(sortedDays[j])
      invariant forall day: int :: day in snapshots <==> day in sortedDays[..i]
      invariant forall day: int :: day in snapshots ==>
                  ShowsRun(days, InPlace(entries, day), day, snapshots[day])
    {
      var snapshot;
      f, position, snapshot := TakeSnapshot(days, f, entries, ordered, position, sortedDays[i], now);
      now := EndOfDay(sortedDays[i]);
      snapshots := snapshots[sortedDays[i] := snapshot];
      Advance(sortedDays, i);
    }
    assert sortedDays[..|sortedDays|] == sortedDays;
    forall day: int | day in snapshots && Undisturbed(OrderedUntil(entries, day))
      ensures Agrees(days, entries, day, snapshots[day])
    {
      DayAgrees(days, entries, day, snapshots[day]);
    }
  }

  lemma Advance(days: seq<int>, i: nat)
    requires i < |days| && Sorted(days, IntLe)
    ensures days[..i + 1] == days[..i] + [days[i]]
    ensures forall j :: i < j < |days| ==> days[i] <= days[j]
  {
    forall j | i < j < |days| ensures days[i] <= days[j] { assert IntLe(days[i], days[j]); }
  }

  lemma SortedRows(entries: seq<Entry>)
    ensures Sorted(Sort(entries, HistoryLe), HistoryLe)
    ensures forall e :: e in Sort(entries, HistoryLe) <==> e in entries
  {
    HistoryOrder();
    SortSorts(entries, HistoryLe);
    SortPermutes(entries, HistoryLe);
    SameElements(Sort(entries, HistoryLe), entries);
  }

  method TakeSnapshot(days: int, f: Daily, entries: seq<Entry>, ordered: seq<Entry>, start: nat, day: int,
                      ghost now: int)
    returns (r: Daily, position: nat, snapshot: Snapshot)
    requires days >= 1 && ordered == Sort(entries, HistoryLe)
    requires Reached(days, f, ordered, start, now) && now <= EndOfDay(day)
    ensures Reached(days, r, ordered, position, EndOfDay(day))
    ensures ShowsRun(days, InPlace(entries, day), day, snapshot)
  {
    SortedRows(entries);
    r, position := StepDay(days, f, ordered, start, EndOfDay(day), now);
    PrefixIsFilter(ordered, position, EndOfDay(day));
    DayShows(days, r, InPlace(entries, day), day);
    snapshot := SnapshotOf(r);
  }
}

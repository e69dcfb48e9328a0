/** The daily snapshots: one chronological pass over the ledger that consumes lots, matures them and keeps running
    totals, each row carrying the variables from one FIFO run to the next. */
module DailyFifo {
  import opened Sums
  import opened Sorting
  import opened Ledger
  import opened Fifo
  import opened FifoLaws
  import opened FifoDiscipline
  import opened FifoRecords
  import opened FifoEngine
  import opened DailyState

  datatype Daily = Daily(cells: seq<Cell>, queues: map<string, seq<nat>>, cursors: map<string, nat>,
                         maturities: seq<(int, nat)>, position: nat, stock: Stock, gains: Gains,
                         purchaseFees: map<string, real>, incomeFees: map<string, real>, saleFees: map<string, real>)

  const START := Daily([], map[], map[], [], 0, NO_STOCK, Gains(map[], map[], map[]), map[], map[], map[])

  function PositionsIn(queues: map<string, seq<nat>>, d: string): seq<nat> { if d in queues then queues[d] else [] }

  // ---- what the variables mean ----

  predicate NotLater(a: Lot, b: Lot) { a.at.Some? && b.at.Some? ==> a.at.value <= b.at.value }

  /** The maturity list runs parallel to the lots, in time order, split at `position` by `now`. */
  ghost predicate Scheduled(days: int, maturities: seq<(int, nat)>, position: nat, lots: seq<Lot>, now: int)
  {
    && |maturities| == |lots| && position <= |lots|
    && (forall k :: 0 <= k < |lots| ==> lots[k].at.Some? && lots[k].at.value <= now)
    && (forall k :: 0 <= k < |lots| ==> maturities[k] == (lots[k].at.value + days * DAY, k))
    && Sorted(lots, NotLater)
    && (forall k :: 0 <= k < position ==> maturities[k].0 <= now)
    && (forall k :: position <= k < |lots| ==> now < maturities[k].0)
  }

  ghost predicate Shelved(queues: map<string, seq<nat>>, cursors: map<string, nat>, lots: seq<Lot>)
  {
    forall d: string ::
      PositionsIn(queues, d) == Positions(lots, d) && CursorAt(ByDepot(lots, d), d, CursorIn(cursors, d))
  }

  /** Lots as every run has them: a named currency means a known cost, and nothing is overdrawn. */
  ghost predicate Plausible(lots: seq<Lot>)
  {
    forall k :: 0 <= k < |lots| ==> (lots[k].currency != "" ==> lots[k].known) && lots[k].remaining >= 0.0
  }

  /** A fee map holds, for every named currency, the fees of one kind of row. */
  ghost predicate FeesIn(m: map<string, real>, items: seq<Item>, k: Kind)
  {
    forall c: string :: c != "" ==> Get(m, c) == Sum(items, FeeIn(k, c))
  }

  ghost predicate FeeTotals(items: seq<Item>, f: Daily)
  {
    FeesIn(f.purchaseFees, items, Purchase) && FeesIn(f.incomeFees, items, Income) && FeesIn(f.saleFees, items, Sale)
  }

  function PlainPolicy(days: int): Policy { Policy(days, None) }

  /** The lot and gain variables in the run state `s`, matured up to `now`. */
  ghost predicate Core(days: int, f: Daily, s: State, now: int)
  {
    && Shows(f.cells, s.lots, f.position)
    && Scheduled(days, f.maturities, f.position, s.lots, now)
    && Shelved(f.queues, f.cursors, s.lots)
    && StockOf(f.stock, s.lots, f.position)
    && GainsOf(PlainPolicy(days), f.gains, s.moves)
    && Plausible(s.lots)
  }

  /** All variables after the items `items`, matured up to `now`. */
  ghost predicate Tracks(days: int, f: Daily, items: seq<Item>, now: int)
  {
    Core(days, f, Run(items), now) && FeeTotals(items, f)
  }

  // ---- consuming lots ----

  /** How far a disposal has come: which lots are changed, and that the queue loop is on its way. */
  ghost predicate Consuming(goal: Drain, lots0: seq<Lot>, lots: seq<Lot>, it: Item, queue: seq<nat>, c: nat,
                            due: real, done: seq<Move>)
  {
    && SameLots(lots0, lots)
    && Positions(lots, it.depot) == queue
    && (forall e: string :: e != it.depot ==> ByDepot(lots, e) == ByDepot(lots0, e))
    && Progress(goal, it, ByDepot(lots, it.depot), c, due, done)
  }

  lemma ConsumingStart(lots: seq<Lot>, it: Item, c: nat)
    requires CursorAt(ByDepot(lots, it.depot), it.depot, c)
    ensures Consuming(Draw(ByDepot(lots, it.depot), it, it.amount), lots, lots, it, Positions(lots, it.depot), c,
            it.amount, [])
  {
    ProgressStart(ByDepot(lots, it.depot), it, c);
  }

  lemma ConsumingSkip(goal: Drain, lots0: seq<Lot>, lots: seq<Lot>, it: Item, queue: seq<nat>, c: nat, due: real,
                      done: seq<Move>)
    requires Consuming(goal, lots0, lots, it, queue, c, due, done) && c < |queue| && due > 0.0
    requires queue[c] < |lots| && lots[queue[c]].remaining <= 0.0
    ensures Consuming(goal, lots0, lots, it, queue, c + 1, due, done)
  {
    PositionsPoint(lots, it.depot);
    ProgressSkip(goal, it, ByDepot(lots, it.depot), c, due, done);
  }

  lemma ConsumingTake(goal: Drain, lots0: seq<Lot>, lots: seq<Lot>, it: Item, queue: seq<nat>, c: nat, due: real,
                      done: seq<Move>, used: real, l': Lot, c': nat, due': real, m: Move)
    requires Consuming(goal, lots0, lots, it, queue, c, due, done) && c < |queue| && due > 0.0
    requires queue[c] < |lots| && lots[queue[c]].remaining > 0.0
    requires used == Min(lots[queue[c]].remaining, due) && due' == due - used
    requires l' == lots[queue[c]].(remaining := lots[queue[c]].remaining - used)
    requires m == Move(it, Some(lots[queue[c]]), used) && c' == if l'.remaining <= 0.0 then c + 1 else c
    ensures Consuming(goal, lots0, lots[queue[c] := l'], it, queue, c', due', done + [m])
  {
    var d, k := it.depot, queue[c];
    PositionsPoint(lots, d);
    QueueOwn(lots, d);
    PositionsUpdate(lots, k, l', d);
    ByDepotUpdateOwn(lots, c, l', d);
    forall e: string | e != d ensures ByDepot(lots[k := l'], e) == ByDepot(lots0, e) {
      ByDepotUpdateOther(lots, k, l', e);
    }
    ProgressTake(goal, it, ByDepot(lots, d), c, due, done, used, l', c', m);
    StillSame(lots0, lots, k, l');
  }

  lemma StillSame(lots0: seq<Lot>, lots: seq<Lot>, k: nat, l: Lot)
    requires SameLots(lots0, lots) && k < |lots| && l.(remaining := 0.0) == lots[k].(remaining := 0.0)
    ensures SameLots(lots0, lots[k := l])
  {
  }

  lemma ConsumingEnd(goal: Drain, lots0: seq<Lot>, lots: seq<Lot>, it: Item, queue: seq<nat>, c: nat, due: real,
                     done: seq<Move>)
    requires goal == Draw(ByDepot(lots0, it.depot), it, it.amount)
    requires Consuming(goal, lots0, lots, it, queue, c, due, done) && (c >= |queue| || due <= 0.0)
    ensures Draw(lots0, it, it.amount) == Drain(lots, done, due)
    ensures CursorAt(ByDepot(lots, it.depot), it.depot, c)
  {
    var d, all := it.depot, Draw(lots0, it, it.amount);
    PositionsPoint(lots, d);
    ProgressEnd(goal, it, ByDepot(lots, d), c, due, done);
    DrawOwnDepot(lots0, it, it.amount);
    DrawSameLots(lots0, it, it.amount);
    forall e: string ensures ByDepot(all.lots, e) == ByDepot(lots, e) {
      if e != d { DrawOtherDepot(lots0, it, it.amount, e); }
    }
    SameBoth(lots0, all.lots, lots);
    QueuesDetermine(all.lots, lots);
  }

  lemma SameBoth(a: seq<Lot>, b: seq<Lot>, c: seq<Lot>)
    requires SameLots(a, b) && SameLots(a, c)
    ensures SameLots(b, c)
  {
  }

  // ---- one slice ----

  /** With the schedule split at `now`, the flag of a lot is its holding period at `now`. */
  lemma FlagIsPeriod(days: int, maturities: seq<(int, nat)>, position: nat, lots: seq<Lot>, now: int, k: nat, it: Item,
                     used: real)
    requires days >= 1 && Scheduled(days, maturities, position, lots, now) && k < |lots| && it.at == Some(now)
    ensures MoveHolding(PlainPolicy(days), Move(it, Some(lots[k]), used)).period ==
            if k < position then LongTerm else ShortTerm
  {
    assert lots[k].at.value <= now;
    assert maturities[k].0 == lots[k].at.value + days * DAY;
  }

  lemma SameTimes(a: seq<Lot>, b: seq<Lot>)
    requires SameLots(a, b)
    ensures forall k :: 0 <= k < |a| ==> a[k].at == b[k].at && a[k].depot == b[k].depot
    ensures forall k :: 0 <= k < |a| ==> a[k].currency == b[k].currency && a[k].known == b[k].known
  {
    forall k | 0 <= k < |a|
      ensures a[k].at == b[k].at && a[k].depot == b[k].depot && a[k].currency == b[k].currency
              && a[k].known == b[k].known
    {
      assert a[k].(remaining := 0.0) == b[k].(remaining := 0.0);
      assert a[k].at == a[k].(remaining := 0.0).at && b[k].at == b[k].(remaining := 0.0).at;
    }
  }

  /** Take `used` BTC out of lot `k`: the cell, the totals and the gains follow. */
  method TakeLot(days: int, cells: seq<Cell>, stock: Stock, gains: Gains, k: nat, used: real, terms: Terms,
                 amount: real,
                 ghost it: Item, ghost lots: seq<Lot>, ghost position: nat, ghost maturities: seq<(int, nat)>,
                 ghost now: int, ghost moves: seq<Move>)
    returns (cells': seq<Cell>, stock': Stock, gains': Gains)
    requires days >= 1 && k < |lots| && Shows(cells, lots, position) && StockOf(stock, lots, position)
    requires Scheduled(days, maturities, position, lots, now) && Plausible(lots)
    requires GainsOf(PlainPolicy(days), gains, moves)
    requires terms == TermsOf(it) && amount == it.amount && it.at == Some(now)
    ensures var l' := lots[k].(remaining := lots[k].remaining - used);
            Shows(cells', lots[k := l'], position) && StockOf(stock', lots[k := l'], position)
    ensures GainsOf(PlainPolicy(days), gains', moves + [Move(it, Some(lots[k]), used)])
  {
    var cell := cells[k];
    cells' := cells[k := cell.(remaining := cell.remaining - used)];
    stock' := TakeStock(stock, cell, used, lots, position, k);
    FlagIsPeriod(days, maturities, position, lots, now, k, it, used);
    gains' := BookGain(PlainPolicy(days), gains, terms, cell, used, it, lots[k], amount, moves);
  }

  // ---- one disposal ----

  /** The variables of the loop over a depot's lots. */
  datatype Work = Work(cells: seq<Cell>, stock: Stock, gains: Gains, cursor: nat, due: real)

  /** They show the lots and slices of a disposal under way. */
  ghost predicate Underway(days: int, f: Daily, w: Work, s: State, lots: seq<Lot>, done: seq<Move>, now: int)
  {
    && Scheduled(days, f.maturities, f.position, lots, now)
    && Shows(w.cells, lots, f.position) && StockOf(w.stock, lots, f.position) && Plausible(lots)
    && GainsOf(PlainPolicy(days), w.gains, s.moves + done)
  }

  /** And the disposal has come as far as the cursor. */
  ghost predicate Consumption(days: int, f: Daily, w: Work, s: State, it: Item, now: int, queue: seq<nat>,
                              lots: seq<Lot>, done: seq<Move>)
  {
    && Underway(days, f, w, s, lots, done, now)
    && Consuming(Draw(ByDepot(s.lots, it.depot), it, it.amount), s.lots, lots, it, queue, w.cursor, w.due, done)
  }

  lemma SpentLots(days: int, maturities: seq<(int, nat)>, position: nat, lots: seq<Lot>, now: int, k: nat, l: Lot)
    requires Scheduled(days, maturities, position, lots, now) && Plausible(lots) && k < |lots|
    requires l == lots[k].(remaining := l.remaining) && 0.0 <= l.remaining
    ensures Scheduled(days, maturities, position, lots[k := l], now) && Plausible(lots[k := l])
  {
    assert l.at == lots[k].at && l.currency == lots[k].currency && l.known == lots[k].known;
    var spent := lots[k := l];
    forall i, j | 0 <= i < j < |spent| ensures NotLater(spent[i], spent[j]) {
      assert NotLater(lots[i], lots[j]);
    }
  }

  /** The lot at the cursor still holds BTC: take what is owed or what there is. */
  method TakeFromCell(days: int, f: Daily, w: Work, k: nat, terms: Terms, amount: real,
                      ghost it: Item, ghost s: State, ghost now: int, ghost lots: seq<Lot>, ghost done: seq<Move>,
                      ghost l': Lot, ghost m: Move)
    returns (w': Work)
    requires days >= 1 && Underway(days, f, w, s, lots, done, now) && k < |lots|
    requires terms == TermsOf(it) && amount == it.amount && it.at == Some(now)
    requires m == Move(it, Some(lots[k]), Min(lots[k].remaining, w.due))
    requires l' == lots[k].(remaining := lots[k].remaining - m.used)
    ensures Underway(days, f, w', s, lots[k := l'], done + [m], now)
    ensures w'.due == w.due - m.used && w'.cursor == if l'.remaining <= 0.0 then w.cursor + 1 else w.cursor
  {
    assert w.cells[k].remaining == lots[k].remaining;
    var used := Min(w.cells[k].remaining, w.due);
    var cursor := if w.cells[k].remaining - used <= 0.0 then w.cursor + 1 else w.cursor;
    var cells, stock, gains := TakeLot(days, w.cells, w.stock, w.gains, k, used, terms, amount,
                                       it, lots, f.position, f.maturities, now, s.moves + done);
    SpentLots(days, f.maturities, f.position, lots, now, k, l');
    Append(s.moves, done, m);
    w' := Work(cells, stock, gains, cursor, w.due - used);
  }

  lemma ConsumptionSkip(days: int, f: Daily, w: Work, s: State, it: Item, now: int, queue: seq<nat>, lots: seq<Lot>,
                        done: seq<Move>)
    requires Consumption(days, f, w, s, it, now, queue, lots, done) && w.cursor < |queue| && w.due > 0.0
    requires queue[w.cursor] < |lots| && lots[queue[w.cursor]].remaining <= 0.0
    ensures Consumption(days, f, w.(cursor := w.cursor + 1), s, it, now, queue, lots, done)
  {
    ConsumingSkip(Draw(ByDepot(s.lots, it.depot), it, it.amount), s.lots, lots, it, queue, w.cursor, w.due, done);
  }

  /** One turn of the loop where the lot holds BTC. */
  method TakeHere(days: int, f: Daily, w: Work, queue: seq<nat>, terms: Terms, amount: real,
                  ghost it: Item, ghost s: State, ghost now: int, ghost lots: seq<Lot>, ghost done: seq<Move>)
    returns (w': Work, ghost lots': seq<Lot>, ghost done': seq<Move>)
    requires days >= 1 && Consumption(days, f, w, s, it, now, queue, lots, done)
    requires w.cursor < |queue| && w.due > 0.0 && queue[w.cursor] < |lots| && lots[queue[w.cursor]].remaining > 0.0
    requires terms == TermsOf(it) && amount == it.amount && it.at == Some(now)
    ensures Consumption(days, f, w', s, it, now, queue, lots', done')
    ensures w'.cursor == w.cursor + 1 || (w'.cursor == w.cursor && w'.due <= 0.0)
  {
    var k := queue[w.cursor];
    ghost var m := Move(it, Some(lots[k]), Min(lots[k].remaining, w.due));
    ghost var l' := lots[k].(remaining := lots[k].remaining - m.used);
    w' := TakeFromCell(days, f, w, k, terms, amount, it, s, now, lots, done, l', m);
    ConsumingTake(Draw(ByDepot(s.lots, it.depot), it, it.amount), s.lots, lots, it, queue, w.cursor, w.due, done,
                  m.used, l', w'.cursor, w'.due, m);
    lots', done' := lots[k := l'], done + [m];
  }

  lemma AtCursor(days: int, f: Daily, w: Work, s: State, it: Item, now: int, queue: seq<nat>, lots: seq<Lot>,
                 done: seq<Move>)
    requires Consumption(days, f, w, s, it, now, queue, lots, done) && w.cursor < |queue|
    ensures queue[w.cursor] < |lots| == |w.cells|
    ensures w.cells[queue[w.cursor]].remaining == lots[queue[w.cursor]].remaining
  {
    PositionsBelow(lots, it.depot);
  }

  /** One turn of the loop: skip an empty lot, or take from one that holds BTC. */
  method TakeNext(days: int, f: Daily, w: Work, queue: seq<nat>, terms: Terms, amount: real,
                  ghost it: Item, ghost s: State, ghost now: int, ghost lots: seq<Lot>, ghost done: seq<Move>)
    returns (w': Work, ghost lots': seq<Lot>, ghost done': seq<Move>)
    requires days >= 1 && Consumption(days, f, w, s, it, now, queue, lots, done)
    requires w.cursor < |queue| && w.due > 0.0
    requires terms == TermsOf(it) && amount == it.amount && it.at == Some(now)
    ensures Consumption(days, f, w', s, it, now, queue, lots', done')
    ensures w'.cursor == w.cursor + 1 || (w'.cursor == w.cursor && w'.due <= 0.0)
  {
    AtCursor(days, f, w, s, it, now, queue, lots, done);
    if w.cells[queue[w.cursor]].remaining <= 0.0 {
      ConsumptionSkip(days, f, w, s, it, now, queue, lots, done);
      w', lots', done' := w.(cursor := w.cursor + 1), lots, done;
    } else {
      w', lots', done' := TakeHere(days, f, w, queue, terms, amount, it, s, now, lots, done);
    }
  }

  /** The variables with a disposal's results filed. */
  function Consumed(f: Daily, depot: string, queue: seq<nat>, w: Work): Daily
  {
    f.(cells := w.cells, stock := w.stock, gains := w.gains, cursors := f.cursors[depot := w.cursor],
       queues := f.queues[depot := queue])
  }

  lemma ConsumptionStart(days: int, f: Daily, s: State, it: Item, now: int)
    requires Core(days, f, s, now)
    ensures Consumption(days, f, Work(f.cells, f.stock, f.gains, CursorIn(f.cursors, it.depot), it.amount), s, it, now,
                        PositionsIn(f.queues, it.depot), s.lots, [])
  {
    assert PositionsIn(f.queues, it.depot) == Positions(s.lots, it.depot);
    ConsumingStart(s.lots, it, CursorIn(f.cursors, it.depot));
    assert s.moves + [] == s.moves;
  }

  /** Consume lots of one depot in FIFO order, booking the result under the given terms. */
  method ConsumeLots(days: int, f: Daily, depot: string, amount: real, terms: Terms,
                     ghost it: Item, ghost s: State, ghost now: int)
    returns (r: Daily)
    requires days >= 1 && Core(days, f, s, now)
    requires it.depot == depot && it.amount == amount > 0.0 && Disposes(it.kind) && it.at == Some(now)
    requires terms == TermsOf(it)
    ensures Core(days, r, Step(s, it), now)
    ensures r.purchaseFees == f.purchaseFees && r.incomeFees == f.incomeFees && r.saleFees == f.saleFees
  {
    var queue := PositionsIn(f.queues, depot);
    var w := Work(f.cells, f.stock, f.gains, CursorIn(f.cursors, depot), amount);
    ghost var lots, done: seq<Move> := s.lots, [];
    ConsumptionStart(days, f, s, it, now);
    while w.cursor < |queue| && w.due > 0.0
      invariant Consumption(days, f, w, s, it, now, queue, lots, done)
      decreases |queue| - w.cursor, w.due > 0.0
    {
      w, lots, done := TakeNext(days, f, w, queue, terms, amount, it, s, now, lots, done);
    }
    ConsumptionEnd(days, f, w, s, it, now, queue, lots, done);
    r := Consumed(f, depot, queue, w);
  }

  lemma RestBooksNothing(days: int, gains: Gains, moves: seq<Move>, lots: seq<Lot>, it: Item, due: real,
                         done: seq<Move>)
    requires GainsOf(PlainPolicy(days), gains, moves + done)
    ensures GainsOf(PlainPolicy(days), gains, moves + Block(Drain(lots, done, due), it))
  {
    if due > 0.0 {
      ShortMoveBooksNothing(PlainPolicy(days), gains, moves + done, it, due);
      Append(moves, done, Move(it, None, due));
    } else {
      assert done + [] == done;
    }
  }

  lemma ConsumptionEnd(days: int, f: Daily, w: Work, s: State, it: Item, now: int, queue: seq<nat>, lots: seq<Lot>,
                       done: seq<Move>)
    requires Core(days, f, s, now) && it.amount > 0.0 && Disposes(it.kind)
    requires queue == PositionsIn(f.queues, it.depot) && Consumption(days, f, w, s, it, now, queue, lots, done)
    requires w.cursor >= |queue| || w.due <= 0.0
    ensures Core(days, Consumed(f, it.depot, queue, w), Step(s, it), now)
  {
    ConsumingEnd(Draw(ByDepot(s.lots, it.depot), it, it.amount), s.lots, lots, it, queue, w.cursor, w.due, done);
    StillShelved(f.queues, f.cursors, s.lots, it, lots, w.cursor);
    EndCore(days, f, Consumed(f, it.depot, queue, w), w, s, it, now, lots, done);
  }

  lemma EndCore(days: int, f: Daily, r: Daily, w: Work, s: State, it: Item, now: int, lots: seq<Lot>, done: seq<Move>)
    requires Underway(days, f, w, s, lots, done, now) && it.amount > 0.0 && Disposes(it.kind)
    requires Draw(s.lots, it, it.amount) == Drain(lots, done, w.due) && Shelved(r.queues, r.cursors, lots)
    requires r.cells == w.cells && r.stock == w.stock && r.gains == w.gains
    requires r.maturities == f.maturities && r.position == f.position
    ensures Core(days, r, Step(s, it), now)
  {
    RestBooksNothing(days, w.gains, s.moves, lots, it, w.due, done);
  }

  /** A disposal moves nothing in another depot. */
  lemma OtherShelf(a: seq<Lot>, it: Item, d: string)
    requires d != it.depot
    ensures var b := Draw(a, it, it.amount).lots; Positions(b, d) == Positions(a, d) && ByDepot(b, d) == ByDepot(a, d)
  {
    DrawSameLots(a, it, it.amount);
    SamePositions(a, Draw(a, it, it.amount).lots, d);
    DrawOtherDepot(a, it, it.amount, d);
  }

  lemma StillShelved(queues: map<string, seq<nat>>, cursors: map<string, nat>, a: seq<Lot>, it: Item, b: seq<Lot>,
                     c: nat)
    requires Shelved(queues, cursors, a) && b == Draw(a, it, it.amount).lots
    requires CursorAt(ByDepot(b, it.depot), it.depot, c)
    ensures Shelved(queues[it.depot := PositionsIn(queues, it.depot)], cursors[it.depot := c], b)
  {
    var queues', cursors' := queues[it.depot := PositionsIn(queues, it.depot)], cursors[it.depot := c];
    DrawSameLots(a, it, it.amount);
    SamePositions(a, b, it.depot);
    forall d: string
      ensures PositionsIn(queues', d) == Positions(b, d) && CursorAt(ByDepot(b, d), d, CursorIn(cursors', d))
    {
      assert PositionsIn(queues, d) == Positions(a, d) && CursorAt(ByDepot(a, d), d, CursorIn(cursors, d));
      if d != it.depot { OtherShelf(a, it, d); }
    }
  }

  lemma {:induction false} SamePositions(a: seq<Lot>, b: seq<Lot>, d: string)
    requires SameLots(a, b)
    ensures Positions(a, d) == Positions(b, d)
  {
    if a != [] {
      SameTimes(a, b);
      SamePositions(a[..|a| - 1], b[..|b| - 1], d);
    }
  }

  // ---- maturities ----

  /** The cells and totals show the lots, those before `position` as long-term. */
  ghost predicate Stocked(cells: seq<Cell>, stock: Stock, lots: seq<Lot>, position: nat)
  {
    position <= |lots| && Shows(cells, lots, position) && StockOf(stock, lots, position) && Plausible(lots)
  }

  /** The next lot of the maturity list becomes long-term. */
  method MatureNext(cells: seq<Cell>, stock: Stock, k: nat, ghost lots: seq<Lot>)
    returns (cells': seq<Cell>, stock': Stock)
    requires k < |lots| && Stocked(cells, stock, lots, k)
    ensures Stocked(cells', stock', lots, k + 1)
  {
    stock' := MatureStock(stock, cells[k], lots, k);
    cells' := cells[k := cells[k].(long := true)];
  }

  /** How many lots are due by `cutoff`, from `position` on. */
  ghost predicate Due(maturities: seq<(int, nat)>, cutoff: int, position: nat, end: nat)
  {
    && position <= end <= |maturities|
    && (forall k :: position <= k < end ==> maturities[k].0 <= cutoff)
    && (end < |maturities| ==> maturities[end].0 > cutoff)
  }

  /** The lots due by `cutoff` become long-term, in maturity order. */
  method MatureDue(maturities: seq<(int, nat)>, cutoff: int, cells0: seq<Cell>, position0: nat, stock0: Stock,
                   ghost lots: seq<Lot>)
    returns (cells: seq<Cell>, position: nat, stock: Stock)
    requires |maturities| == |lots| && forall k :: 0 <= k < |lots| ==> maturities[k].1 == k
    requires Stocked(cells0, stock0, lots, position0)
    ensures Stocked(cells, stock, lots, position) && Due(maturities, cutoff, position0, position)
  {
    cells, position, stock := cells0, position0, stock0;
    while position < |maturities| && maturities[position].0 <= cutoff
      invariant position0 <= position <= |maturities| && Stocked(cells, stock, lots, position)
      invariant forall k :: position0 <= k < position ==> maturities[k].0 <= cutoff
    {
      cells, stock := MatureNext(cells, stock, maturities[position].1, lots);
      position := position + 1;
    }
  }

  /** Lots whose holding period ends by `cutoff` become long-term. */
  method MatureUntil(days: int, f: Daily, cutoff: int, ghost s: State, ghost now: int) returns (r: Daily)
    requires days >= 1 && Core(days, f, s, now) && (now <= cutoff || s.lots == [])
    ensures Core(days, r, s, cutoff)
    ensures r.purchaseFees == f.purchaseFees && r.incomeFees == f.incomeFees && r.saleFees == f.saleFees
  {
    var cells, position, stock := MatureDue(f.maturities, cutoff, f.cells, f.position, f.stock, s.lots);
    Rescheduled(days, f.maturities, f.position, position, s.lots, now, cutoff);
    r := f.(cells := cells, position := position, stock := stock);
  }

  lemma Rescheduled(days: int, maturities: seq<(int, nat)>, before: nat, position: nat, lots: seq<Lot>, now: int,
                    cutoff: int)
    requires Scheduled(days, maturities, before, lots, now) && (now <= cutoff || lots == []) && position <= |lots|
    requires forall k :: before <= k < position ==> maturities[k].0 <= cutoff
    requires position < |lots| ==> maturities[position].0 > cutoff
    ensures Scheduled(days, maturities, position, lots, cutoff)
  {
    forall k | position <= k < |lots| ensures cutoff < maturities[k].0 {
      if position < k { assert NotLater(lots[position], lots[k]); }
    }
  }

  // ---- one ledger row ----

  /** A BTC fee stands only on a row that is booked at all. */
  predicate CleanRow(e: Entry) { AddsFee(e) ==> e.amount > 0.0 && !e.kind.Other? }

  /** The row as it is booked: a row that is not booked does not lose its BTC fee either. */
  function BookedRow(e: Entry): Entry { if CleanRow(e) then e else e.(feeBtc := 0.0) }

  function BookedRows(rows: seq<Entry>): seq<Entry>
  {
    seq(|rows|, i requires 0 <= i < |rows| => BookedRow(rows[i]))
  }

  function WithFee(m: map<string, real>, it: Item, k: Kind): map<string, real>
  {
    if it.kind == k && it.amount > 0.0 && it.currency != "" then Add(m, it.currency, it.fee) else m
  }

  lemma FeesInPush(m: map<string, real>, items: seq<Item>, it: Item, k: Kind)
    requires FeesIn(m, items, k)
    ensures FeesIn(WithFee(m, it, k), items + [it], k)
  {
    forall c: string | c != "" ensures Get(WithFee(m, it, k), c) == Sum(items + [it], FeeIn(k, c)) {
      assert Get(m, c) == Sum(items, FeeIn(k, c));
      SumPush(items, it, FeeIn(k, c));
    }
  }

  lemma FeeTotalsSame(items: seq<Item>, it: Item, f: Daily, r: Daily)
    requires FeeTotals(items, f) && (it.amount <= 0.0 || it.kind.Expense? || it.kind.Stack? || it.kind.Other?)
    requires r.purchaseFees == f.purchaseFees && r.incomeFees == f.incomeFees && r.saleFees == f.saleFees
    ensures FeeTotals(items + [it], r)
  {
    FeesInPush(f.purchaseFees, items, it, Purchase);
    FeesInPush(f.incomeFees, items, it, Income);
    FeesInPush(f.saleFees, items, it, Sale);
  }

  method BookFee(f: Daily, e: Entry, ghost items: seq<Item>) returns (r: Daily)
    requires FeeTotals(items, f) && e.amount > 0.0 && !e.kind.NetworkFee?
    ensures FeeTotals(items + [MainItem(e)], r)
    ensures r.(purchaseFees := f.purchaseFees, incomeFees := f.incomeFees, saleFees := f.saleFees) == f
  {
    ghost var it := MainItem(e);
    FeesInPush(f.purchaseFees, items, it, Purchase);
    FeesInPush(f.incomeFees, items, it, Income);
    FeesInPush(f.saleFees, items, it, Sale);
    r := f;
    if e.currency != "" {
      match e.kind {
        case Purchase => r := f.(purchaseFees := Add(f.purchaseFees, e.currency, e.fee));
        case Income => r := f.(incomeFees := Add(f.incomeFees, e.currency, e.fee));
        case Sale => r := f.(saleFees := Add(f.saleFees, e.currency, e.fee));
        case _ =>
      }
    }
  }

  /** A lot's unit basis times its amount is what the row paid, fee included. */
  lemma LotBasis(e: Entry)
    requires e.amount > 0.0 && Acquires(e.kind)
    ensures var l := NewLot(MainItem(e));
            l.currency != "" ==> l.remaining * l.unitBasis == e.amount * e.price + e.fee
  {
    var paid := e.amount * e.price + e.fee;
    assert e.amount * (paid / e.amount) == paid;
  }

  /** An acquisition appends a lot to its depot's queue and to the maturity list. */
  method AddAcquisition(days: int, f: Daily, e: Entry, at: Instant, ghost s: State) returns (r: Daily)
    requires days >= 1 && Core(days, f, s, at) && e.at == Some(at) && e.amount > 0.0 && Acquires(e.kind)
    ensures Core(days, r, Step(s, MainItem(e)), at)
    ensures r.purchaseFees == f.purchaseFees && r.incomeFees == f.incomeFees && r.saleFees == f.saleFees
  {
    LotBasis(e);
    r := AddLotAt(days, f, NewLot(MainItem(e)), e.amount * e.price + e.fee, at, s);
  }

  method AddLotAt(days: int, f: Daily, lot: Lot, totalBasis: real, at: Instant, ghost s: State) returns (r: Daily)
    requires days >= 1 && Core(days, f, s, at) && lot.at == Some(at) && lot.remaining >= 0.0
    requires lot.currency != "" ==> lot.known && lot.remaining * lot.unitBasis == totalBasis
    ensures Core(days, r, State(s.lots + [lot], s.moves), at)
    ensures r.purchaseFees == f.purchaseFees && r.incomeFees == f.incomeFees && r.saleFees == f.saleFees
  {
    var stock := AddLot(f.stock, lot, totalBasis, s.lots, f.position);
    AddedCore(days, f, s, lot, at, stock);
    r := WithLot(days, f, lot, at, stock);
  }

  /** The variables with one more lot. */
  function WithLot(days: int, f: Daily, lot: Lot, at: Instant, stock: Stock): Daily
  {
    var k: nat := |f.cells|;
    f.(cells := f.cells + [CellOf(lot, false)], stock := stock,
       queues := f.queues[lot.depot := PositionsIn(f.queues, lot.depot) + [k]],
       maturities := f.maturities + [(at + days * DAY, k)])
  }

  lemma AddedCore(days: int, f: Daily, s: State, lot: Lot, at: Instant, stock: Stock)
    requires days >= 1 && Core(days, f, s, at) && lot.at == Some(at) && lot.remaining >= 0.0
    requires (lot.currency != "" ==> lot.known) && StockOf(stock, s.lots + [lot], f.position)
    ensures Core(days, WithLot(days, f, lot, at, stock), State(s.lots + [lot], s.moves), at)
  {
    AddedShown(f.cells, s.lots, f.position, lot);
    AddedPlausible(s.lots, lot);
    AddedShelves(f.queues, f.cursors, s.lots, lot);
    AddedSchedule(days, f.maturities, f.position, s.lots, lot, at);
  }

  lemma AddedShown(cells: seq<Cell>, lots: seq<Lot>, position: nat, l: Lot)
    requires Shows(cells, lots, position)
    ensures |cells| == |lots| && Shows(cells + [CellOf(l, false)], lots + [l], position)
  {
  }

  lemma AddedPlausible(lots: seq<Lot>, l: Lot)
    requires Plausible(lots) && (l.currency != "" ==> l.known) && l.remaining >= 0.0
    ensures Plausible(lots + [l])
  {
  }

  lemma AddedShelf(lots: seq<Lot>, l: Lot, d: string, c: nat)
    requires CursorAt(ByDepot(lots, d), d, c)
    ensures CursorAt(ByDepot(lots + [l], d), d, c)
    ensures Positions(lots + [l], d) == Positions(lots, d) + if l.depot == d then [|lots|] else []
  {
    PositionsPush(lots, l, d);
    QueuePush(lots, l, d);
  }

  lemma AddedShelves(queues: map<string, seq<nat>>, cursors: map<string, nat>, lots: seq<Lot>, l: Lot)
    requires Shelved(queues, cursors, lots)
    ensures Shelved(queues[l.depot := PositionsIn(queues, l.depot) + [|lots|]], cursors, lots + [l])
  {
    var queues' := queues[l.depot := PositionsIn(queues, l.depot) + [|lots|]];
    forall d: string
      ensures PositionsIn(queues', d) == Positions(lots + [l], d)
      ensures CursorAt(ByDepot(lots + [l], d), d, CursorIn(cursors, d))
    {
      assert PositionsIn(queues, d) == Positions(lots, d);
      assert CursorAt(ByDepot(lots, d), d, CursorIn(cursors, d));
      AddedShelf(lots, l, d, CursorIn(cursors, d));
    }
  }

  lemma AddedSchedule(days: int, maturities: seq<(int, nat)>, position: nat, lots: seq<Lot>, l: Lot, now: int)
    requires days >= 1 && Scheduled(days, maturities, position, lots, now) && l.at == Some(now)
    ensures Scheduled(days, maturities + [(now + days * DAY, |lots|)], position, lots + [l], now)
  {
    forall i, j | 0 <= i < j < |lots + [l]| ensures NotLater((lots + [l])[i], (lots + [l])[j]) {
      if j < |lots| { assert NotLater(lots[i], lots[j]); }
    }
  }

  lemma BookedRowsPush(rows: seq<Entry>, e: Entry)
    ensures Expand(BookedRows(rows + [e])) == Expand(BookedRows(rows)) + ExpandOne(BookedRow(e))
  {
    assert BookedRows(rows + [e])[..|rows|] == BookedRows(rows);
  }

  /** A row that is not booked leaves everything as it is. */
  lemma SkipRow(days: int, f: Daily, items: seq<Item>, now: int, it: Item)
    requires Tracks(days, f, items, now)
    requires it.amount <= 0.0 || (!Acquires(it.kind) && !Disposes(it.kind))
    requires it.amount <= 0.0 || it.kind.Other?
    ensures Tracks(days, f, items + [it], now)
  {
    RunPush(items, it);
    FeeTotalsSame(items, it, f, f);
  }

  /** Book a disposal that carries no currency fee of its own. */
  method ConsumePlain(days: int, f: Daily, depot: string, amount: real, terms: Terms, at: Instant,
                      ghost it: Item, ghost items: seq<Item>)
    returns (r: Daily)
    requires days >= 1 && Tracks(days, f, items, at) && it.at == Some(at)
    requires it.depot == depot && it.amount == amount > 0.0 && it.kind.Expense?
    requires terms == TermsOf(it)
    ensures Tracks(days, r, items + [it], at)
  {
    RunPush(items, it);
    r := ConsumeLots(days, f, depot, amount, terms, it, Run(items), at);
    FeeTotalsSame(items, it, f, r);
  }

  /** A stack-affecting BTC fee of a booked row is one more disposal, without proceeds. */
  method ConsumeTransactionFee(days: int, f: Daily, e: Entry, at: Instant, ghost items: seq<Item>) returns (r: Daily)
    requires days >= 1 && Tracks(days, f, items, at) && e.at == Some(at)
    ensures Tracks(days, r, items + if PaysBtcFee(e) then [FeeItem(e)] else [], at)
  {
    if e.feeBtc <= 0.0 || !e.feeAffectsStack {
      assert items + [] == items;
      return f;
    }
    var terms := if e.currency != "" && e.price > 0.0 then Terms(e.currency, e.price, 0.0, true) else NoSale;
    r := ConsumePlain(days, f, e.depot, e.feeBtc, terms, at, FeeItem(e), items);
  }

  lemma TwoItems(items: seq<Item>, a: Item, b: Item)
    ensures items + [a] + [b] == items + [a, b] && items + [a] + [] == items + [a]
  {
  }

  /** A row that adds BTC: the lot, the currency fee, then the BTC fee out of what is there. */
  method ProcessAcquisition(days: int, f: Daily, e: Entry, at: Instant, ghost items: seq<Item>) returns (r: Daily)
    requires days >= 1 && Tracks(days, f, items, at) && e.at == Some(at) && e.amount > 0.0 && Acquires(e.kind)
    ensures Tracks(days, r, items + [MainItem(e)] + if PaysBtcFee(e) then [FeeItem(e)] else [], at)
  {
    RunPush(items, MainItem(e));
    r := AddAcquisition(days, f, e, at, Run(items));
    r := BookFee(r, e, items);
    r := ConsumeTransactionFee(days, r, e, at, items + [MainItem(e)]);
  }

  method ProcessExpense(days: int, f: Daily, e: Entry, at: Instant, ghost items: seq<Item>) returns (r: Daily)
    requires days >= 1 && Tracks(days, f, items, at) && e.at == Some(at) && e.amount > 0.0 && e.kind.Expense?
    ensures Tracks(days, r, items + [MainItem(e)] + if PaysBtcFee(e) then [FeeItem(e)] else [], at)
  {
    var terms := if e.currency != "" && e.price > 0.0 then Terms(e.currency, e.price, e.fee, false) else NoSale;
    r := ConsumePlain(days, f, e.depot, e.amount, terms, at, MainItem(e), items);
    r := ConsumeTransactionFee(days, r, e, at, items + [MainItem(e)]);
  }

  method ProcessSale(days: int, f: Daily, e: Entry, at: Instant, ghost items: seq<Item>) returns (r: Daily)
    requires days >= 1 && Tracks(days, f, items, at) && e.at == Some(at) && e.amount > 0.0 && e.kind.Sale?
    ensures Tracks(days, r, items + [MainItem(e)] + if PaysBtcFee(e) then [FeeItem(e)] else [], at)
  {
    ghost var it := MainItem(e);
    RunPush(items, it);
    r := BookFee(f, e, items);
    r := ConsumeLots(days, r, e.depot, e.amount, Terms(e.currency, e.price, e.fee, false), it, Run(items), at);
    r := ConsumeTransactionFee(days, r, e, at, items + [it]);
  }

  /** What one row adds to the items of the one pass. */
  lemma BookedItems(items: seq<Item>, e: Entry)
    ensures items + ExpandOne(BookedRow(e)) ==
            if e.amount > 0.0 && !e.kind.Other? && !e.kind.NetworkFee?
            then items + [MainItem(e)] + if PaysBtcFee(e) then [FeeItem(e)] else []
            else items + [MainItem(e)]
  {
    TwoItems(items, MainItem(e), FeeItem(e));
  }

  /** One ledger row after everything before it. */
  method ProcessRow(days: int, f: Daily, e: Entry, at: Instant, ghost items: seq<Item>) returns (r: Daily)
    requires days >= 1 && Tracks(days, f, items, at) && e.at == Some(at)
    ensures Tracks(days, r, items + ExpandOne(BookedRow(e)), at)
  {
    ghost var it := MainItem(e);
    BookedItems(items, e);
    if e.amount <= 0.0 {
      SkipRow(days, f, items, at, it);
      return f;
    }
    match e.kind {
      case Purchase | Income | Stack =>
        r := ProcessAcquisition(days, f, e, at, items);
      case NetworkFee =>
        var terms := if e.currency != "" && e.price > 0.0 then Terms(e.currency, e.price, 0.0, true) else NoSale;
        r := ConsumePlain(days, f, e.depot, e.amount, terms, at, it, items);
      case Expense =>
        r := ProcessExpense(days, f, e, at, items);
      case Sale =>
        r := ProcessSale(days, f, e, at, items);
      case Other =>
        SkipRow(days, f, items, at, it);
        r := f;
    }
  }
}

/** The stateful FIFO run: per-depot lot lists consumed in place behind a moving cursor, with every
    accumulator kept up to date, proved to be the function `Fifo.Run`. */
module FifoEngine {
  import opened Sums
  import opened Sorting
  import opened Ledger
  import opened Fifo
  import opened FifoLaws
  import opened FifoDiscipline
  import opened FifoViews
  import opened FifoRecords

  // ---- the consumption loop on one queue; also used by the daily snapshots ----

  /** All lots are of one depot, and those in front of the cursor are empty. */
  ghost predicate CursorAt(q: seq<Lot>, d: string, c: nat)
  {
    && c <= |q|
    && (forall k :: 0 <= k < c ==> q[k].remaining <= 0.0)
    && (forall k :: 0 <= k < |q| ==> q[k].depot == d)
  }

  /** What is still to do yields the goal: `done` slices are taken, `due` BTC still owed. */
  ghost predicate Reaches(goal: Drain, front: seq<Lot>, done: seq<Move>, todo: Drain)
  {
    goal.lots == front + todo.lots && goal.moves == done + todo.moves && goal.rest == todo.rest
  }

  /** Where a half-done disposal stands, with the cursor at `c`. */
  ghost predicate Progress(goal: Drain, it: Item, q: seq<Lot>, c: nat, due: real, done: seq<Move>)
  {
    CursorAt(q, it.depot, c) && Reaches(goal, q[..c], done, Draw(q[c..], it, due))
  }

  lemma ProgressStart(q: seq<Lot>, it: Item, c: nat)
    requires CursorAt(q, it.depot, c)
    ensures Progress(Draw(q, it, it.amount), it, q, c, it.amount, [])
  {
    ResumeAtCursor(q[..c], q[c..], it, it.amount);
    assert q == q[..c] + q[c..];
  }

  lemma ProgressSkip(goal: Drain, it: Item, q: seq<Lot>, c: nat, due: real, done: seq<Move>)
    requires Progress(goal, it, q, c, due, done) && c < |q| && q[c].remaining <= 0.0 && due > 0.0
    ensures Progress(goal, it, q, c + 1, due, done)
  {
    assert q[c..] == [q[c]] + q[c + 1..];
    DrawSkip(q[c], q[c + 1..], it, due);
    assert q[..c + 1] == q[..c] + [q[c]];
  }

  lemma Regroup<T>(a: seq<T>, x: T, b: seq<T>)
    ensures a + ([x] + b) == (a + [x]) + b
  {
  }

  lemma SplitUpdate<T>(q: seq<T>, c: nat, x: T)
    requires c < |q|
    ensures q[c := x][..c] == q[..c] && q[c := x][..c + 1] == q[..c] + [x]
    ensures q[c := x][c + 1..] == q[c + 1..] && q[c := x][c..] == [x] + q[c + 1..] && q[c..] == [q[c]] + q[c + 1..]
  {
  }

  lemma CursorTake(q: seq<Lot>, d: string, c: nat, l': Lot, c': nat)
    requires CursorAt(q, d, c) && c < |q| && l'.depot == d
    requires c' == if l'.remaining <= 0.0 then c + 1 else c
    ensures CursorAt(q[c := l'], d, c')
  {
  }

  /** The slice empties the lot: the cursor moves on. */
  lemma ReachesEmpty(goal: Drain, it: Item, front: seq<Lot>, l: Lot, tail: seq<Lot>, due: real, done: seq<Move>,
                     used: real, l': Lot, m: Move)
    requires Reaches(goal, front, done, Draw([l] + tail, it, due)) && !Skips(l, it)
    requires due > 0.0 && used == l.remaining <= due
    requires l' == l.(remaining := l.remaining - used) && m == Move(it, Some(l), used)
    ensures Reaches(goal, front + [l'], done + [m], Draw(tail, it, due - used))
  {
    DrawTake(l, tail, it, due, used);
    Regroup(done, m, Draw(tail, it, due - used).moves);
    Regroup(front, l', Draw(tail, it, due - used).lots);
  }

  /** The lot covers the rest of the disposal: nothing is owed any more. */
  lemma ReachesDone(goal: Drain, it: Item, front: seq<Lot>, l: Lot, tail: seq<Lot>, due: real, done: seq<Move>,
                    used: real, l': Lot, m: Move)
    requires Reaches(goal, front, done, Draw([l] + tail, it, due)) && !Skips(l, it)
    requires due > 0.0 && used == due < l.remaining
    requires l' == l.(remaining := l.remaining - used) && m == Move(it, Some(l), used)
    ensures Reaches(goal, front, done + [m], Draw([l'] + tail, it, due - used))
  {
    DrawTake(l, tail, it, due, used);
    Regroup(done, m, []);
    assert [m] + [] == [m];
  }

  lemma ProgressTake(goal: Drain, it: Item, q: seq<Lot>, c: nat, due: real, done: seq<Move>, used: real,
                     l': Lot, c': nat, m: Move)
    requires Progress(goal, it, q, c, due, done) && c < |q| && q[c].remaining > 0.0 && due > 0.0
    requires used == Min(q[c].remaining, due)
    requires l' == q[c].(remaining := q[c].remaining - used) && m == Move(it, Some(q[c]), used)
    requires c' == if l'.remaining <= 0.0 then c + 1 else c
    ensures Progress(goal, it, q[c := l'], c', due - used, done + [m])
  {
    CursorTake(q, it.depot, c, l', c');
    SplitUpdate(q, c, l');
    if q[c].remaining <= due {
      ReachesEmpty(goal, it, q[..c], q[c], q[c + 1..], due, done, used, l', m);
    } else {
      ReachesDone(goal, it, q[..c], q[c], q[c + 1..], due, done, used, l', m);
    }
  }

  lemma ProgressEnd(goal: Drain, it: Item, q: seq<Lot>, c: nat, due: real, done: seq<Move>)
    requires Progress(goal, it, q, c, due, done) && (c == |q| || due <= 0.0)
    ensures goal == Drain(q, done, due)
  {
    assert q == q[..c] + q[c..];
    assert done + [] == done;
    if c == |q| { assert q[c..] == []; }
  }

  // ---- posting one slice ----

  /** A map that sums `f(c)` per currency stays correct when the new slice is added where it counts. */
  lemma PostPush<T>(before: map<string, real>, after: map<string, real>, xs: seq<T>, x: T, f: string -> (T -> real))
    requires forall c: string :: Get(before, c) == Sum(xs, f(c))
    requires forall c: string :: Get(after, c) == Get(before, c) + f(c)(x)
    ensures forall c: string :: Get(after, c) == Sum(xs + [x], f(c))
  {
    forall c: string ensures Get(after, c) == Sum(xs + [x], f(c)) {
      assert Get(before, c) == Sum(xs, f(c));
      SumPush(xs, x, f(c));
    }
  }

  function Posted(m: map<string, real>, c: string, g: Option<real>): map<string, real>
  {
    if g.Some? then Add(m, c, g.value) else m
  }

  lemma GainPush(before: map<string, real>, moves: seq<Move>, m: Move)
    requires forall c: string :: Get(before, c) == Sum(moves, GainIn(c))
    ensures forall c: string :: Get(Posted(before, m.item.currency, Gain(m)), c) == Sum(moves + [m], GainIn(c))
  {
    PostPush(before, Posted(before, m.item.currency, Gain(m)), moves, m, GainIn);
  }

  function ClassGainsIn(p: Policy, k: Class): string -> (Move -> real) { (c: string) => ClassGainIn(p, k, c) }

  function GainIfClass(p: Policy, k: Class, m: Move): Option<real>
  {
    if MoveHolding(p, m).period == k then Gain(m) else None
  }

  lemma ClassGainPush(before: map<string, real>, moves: seq<Move>, m: Move, p: Policy, k: Class)
    requires forall c: string :: Get(before, c) == Sum(moves, ClassGainIn(p, k, c))
    ensures forall c: string ::
              Get(Posted(before, m.item.currency, GainIfClass(p, k, m)), c) == Sum(moves + [m], ClassGainIn(p, k, c))
  {
    var f := ClassGainsIn(p, k);
    forall c: string ensures Get(before, c) == Sum(moves, f(c)) { assert f(c) == ClassGainIn(p, k, c); }
    PostPush(before, Posted(before, m.item.currency, GainIfClass(p, k, m)), moves, m, f);
    forall c: string
      ensures Get(Posted(before, m.item.currency, GainIfClass(p, k, m)), c) == Sum(moves + [m], ClassGainIn(p, k, c))
    {
      assert f(c) == ClassGainIn(p, k, c);
    }
  }

  // ---- posting one row ----

  function QueueIn(lots: map<string, seq<Lot>>, d: string): seq<Lot> { if d in lots then lots[d] else [] }
  function CursorIn(cursors: map<string, nat>, d: string): nat { if d in cursors then cursors[d] else 0 }

  /** The per-depot lists are the depots' shares of `flat`, and everything before a cursor is empty. */
  ghost predicate QueuesOf(lots: map<string, seq<Lot>>, cursors: map<string, nat>, flat: seq<Lot>)
  {
    forall d: string :: QueueIn(lots, d) == ByDepot(flat, d) && CursorAt(QueueIn(lots, d), d, CursorIn(cursors, d))
  }

  lemma QueuesAcquire(lots: map<string, seq<Lot>>, cursors: map<string, nat>, flat: seq<Lot>, l: Lot)
    requires QueuesOf(lots, cursors, flat) && l.depot in lots
    ensures QueuesOf(lots[l.depot := lots[l.depot] + [l]], cursors, flat + [l])
  {
    var lots' := lots[l.depot := lots[l.depot] + [l]];
    forall d: string
      ensures QueueIn(lots', d) == ByDepot(flat + [l], d) && CursorAt(QueueIn(lots', d), d, CursorIn(cursors, d))
    {
      assert QueueIn(lots, d) == ByDepot(flat, d) && CursorAt(QueueIn(lots, d), d, CursorIn(cursors, d));
      QueuePush(flat, l, d);
    }
  }

  lemma QueuesDispose(lots: map<string, seq<Lot>>, cursors: map<string, nat>, flat: seq<Lot>, it: Item, c: nat)
    requires QueuesOf(lots, cursors, flat) && it.depot in lots
    requires CursorAt(Draw(lots[it.depot], it, it.amount).lots, it.depot, c)
    ensures QueuesOf(lots[it.depot := Draw(lots[it.depot], it, it.amount).lots], cursors[it.depot := c],
                     Draw(flat, it, it.amount).lots)
  {
    var lots', cursors' := lots[it.depot := Draw(lots[it.depot], it, it.amount).lots], cursors[it.depot := c];
    forall d: string
      ensures QueueIn(lots', d) == ByDepot(Draw(flat, it, it.amount).lots, d)
      ensures CursorAt(QueueIn(lots', d), d, CursorIn(cursors', d))
    {
      assert QueueIn(lots, d) == ByDepot(flat, d) && CursorAt(QueueIn(lots, d), d, CursorIn(cursors, d));
      if d == it.depot { DrawOwnDepot(flat, it, it.amount); } else { DrawOtherDepot(flat, it, it.amount, d); }
    }
  }

  /** Fee totals per currency, by kind of row; rows without a currency only show up among sales. */
  ghost predicate FeesOf(items: seq<Item>, purchase: map<string, real>, income: map<string, real>, sale: map<string,
                         real>)
  {
    && (forall c: string :: c != "" ==> Get(purchase, c) == Sum(items, FeeIn(Purchase, c)))
    && (forall c: string :: c != "" ==> Get(income, c) == Sum(items, FeeIn(Income, c)))
    && (forall c: string :: Get(sale, c) == Sum(items, FeeIn(Sale, c)))
  }

  function FeePosted(m: map<string, real>, it: Item, k: Kind): map<string, real>
  {
    if it.amount > 0.0 && it.kind == k && (k.Sale? || it.currency != "") then Add(m, it.currency, it.fee) else m
  }

  lemma FeesPush(items: seq<Item>, it: Item, purchase: map<string, real>, income: map<string, real>, sale: map<string,
                 real>)
    requires FeesOf(items, purchase, income, sale)
    ensures FeesOf(items + [it], FeePosted(purchase, it, Purchase), FeePosted(income, it, Income), FeePosted(sale,
            it, Sale))
  {
    forall k: Kind, c: string ensures Sum(items + [it], FeeIn(k, c)) == Sum(items, FeeIn(k, c)) + FeeIn(k, c)(it) {
      SumPush(items, it, FeeIn(k, c));
    }
  }

  ghost predicate ReportedOf(p: Policy, items: seq<Item>, sales: map<string, Summary>, expenses: map<string, Summary>,
                             fees: map<string, Summary>)
  {
    && sales == Summaries(p, items, SaleRow)
    && expenses == Summaries(p, items, ExpenseRow)
    && fees == Summaries(p, items, FeeRow)
  }

  lemma NoSummary(p: Policy, items: seq<Item>, it: Item, sales: map<string, Summary>, expenses: map<string, Summary>,
                  fees: map<string, Summary>)
    requires it.amount <= 0.0 || !Disposes(it.kind)
    requires ReportedOf(p, items, sales, expenses, fees)
    ensures ReportedOf(p, items + [it], sales, expenses, fees)
  {
    SummariesPush(p, items, it, SaleRow);
    SummariesPush(p, items, it, ExpenseRow);
    SummariesPush(p, items, it, FeeRow);
  }

  function Filed(m: map<string, Summary>, it: Item, k: Disposition, t: Tally): map<string, Summary>
  {
    if DispositionOf(it) == k then m[SummaryKey(it) := SummaryOf(it, t)] else m
  }

  lemma NewSummary(p: Policy, items: seq<Item>, it: Item, sales: map<string, Summary>, expenses: map<string, Summary>,
                   fees: map<string, Summary>, t: Tally)
    requires it.amount > 0.0 && Disposes(it.kind)
    requires ReportedOf(p, items, sales, expenses, fees)
    requires t == TallyOf(p, Block(Draw(Run(items).lots, it, it.amount), it))
    ensures ReportedOf(p, items + [it], Filed(sales, it, SaleRow, t), Filed(expenses, it, ExpenseRow, t),
                       Filed(fees, it, FeeRow, t))
  {
    SummariesPush(p, items, it, SaleRow);
    SummariesPush(p, items, it, ExpenseRow);
    SummariesPush(p, items, it, FeeRow);
  }

  // ---- the engine's variables ----

  datatype Report = Report(openLots: seq<Lot>, total: real, known: real, unknown: real, long: real, short: real,
                           unknownHolding: real, blocked: real)

  datatype Accounts = Accounts(matches: seq<Match>, realized: map<string, real>, realizedLong: map<string, real>,
                               realizedShort: map<string, real>, unresolved: real, oversold: real)

  const NO_ACCOUNTS := Accounts([], map[], map[], map[], 0.0, 0.0)

  /** Every accumulator of a run is the sum over the slices it stands for. */
  ghost predicate Balanced(p: Policy, moves: seq<Move>, a: Accounts)
  {
    && a.matches == Matches(p, moves)
    && (forall c: string :: Get(a.realized, c) == Sum(moves, GainIn(c)))
    && (forall c: string :: Get(a.realizedLong, c) == Sum(moves, ClassGainIn(p, LongTerm, c)))
    && (forall c: string :: Get(a.realizedShort, c) == Sum(moves, ClassGainIn(p, ShortTerm, c)))
    && a.unresolved == Sum(moves, UnresolvedUsed)
    && a.oversold == Sum(moves, Oversold)
  }

  /** One more slice: its match, and its share of the running totals. */
  method Record(p: Policy, a: Accounts, m: Move, ghost moves: seq<Move>) returns (r: Accounts)
    requires Balanced(p, moves, a)
    ensures Balanced(p, moves + [m], r)
  {
    var c, h := m.item.currency, MoveHolding(p, m).period;
    r := a.(matches := a.matches + [MatchOf(p, m)]);
    if Gain(m).None? {
      r := r.(unresolved := r.unresolved + m.used);
      if m.lot.None? { r := r.(oversold := r.oversold + m.used); }
    } else {
      r := r.(realized := Add(r.realized, c, Gain(m).value));
      if h.LongTerm? {
        r := r.(realizedLong := Add(r.realizedLong, c, Gain(m).value));
      } else if h.ShortTerm? {
        r := r.(realizedShort := Add(r.realizedShort, c, Gain(m).value));
      }
    }
    assert r.realized == Posted(a.realized, c, Gain(m));
    assert r.realizedLong == Posted(a.realizedLong, c, GainIfClass(p, LongTerm, m));
    assert r.realizedShort == Posted(a.realizedShort, c, GainIfClass(p, ShortTerm, m));
    GainPush(a.realized, moves, m);
    ClassGainPush(a.realizedLong, moves, m, p, LongTerm);
    ClassGainPush(a.realizedShort, moves, m, p, ShortTerm);
    SumPush(moves, m, UnresolvedUsed);
    SumPush(moves, m, Oversold);
    MatchesPush(p, moves, m);
  }

  datatype Books = Books(lots: map<string, seq<Lot>>, cursors: map<string, nat>,
                         depots: seq<string>,     // the keys of `lots` in insertion order
                         accounts: Accounts,
                         purchaseFees: map<string, real>, incomeFees: map<string, real>, saleFees: map<string, real>,
                         sales: map<string, Summary>, expenses: map<string, Summary>,
                         transactionFees: map<string, Summary>)

  const NO_BOOKS := Books(map[], map[], [], NO_ACCOUNTS, map[], map[], map[], map[], map[], map[])

  ghost predicate Listed(b: Books)
  {
    Distinct(b.depots) && forall d: string :: d in b.depots <==> d in b.lots
  }

  /** The variables after the rows `items`: exactly what the functional run says. */
  ghost predicate Valid(p: Policy, items: seq<Item>, b: Books)
  {
    && QueuesOf(b.lots, b.cursors, Run(items).lots)
    && Listed(b)
    && Balanced(p, Run(items).moves, b.accounts)
    && FeesOf(items, b.purchaseFees, b.incomeFees, b.saleFees)
    && ReportedOf(p, items, b.sales, b.expenses, b.transactionFees)
  }

  lemma StartValid(p: Policy)
    ensures Valid(p, [], NO_BOOKS)
  {
    assert Matches(p, []) == [];
  }

  // ---- the steps ----

  /** One slice enters the run's accounts and the disposal's summary. */
  method TakeSlice(p: Policy, a: Accounts, t: Tally, m: Move, ghost moves: seq<Move>, ghost block: seq<Move>)
    returns (r: Accounts, tally: Tally)
    requires Balanced(p, moves + block, a) && t == TallyOf(p, block)
    ensures Balanced(p, moves + (block + [m]), r) && tally == TallyOf(p, block + [m])
  {
    tally := Count(p, t, m);
    r := Record(p, a, m, moves + block);
    CountCorrect(p, block, m);
    assert moves + block + [m] == moves + (block + [m]);
  }

  /** One slice from the lot at the cursor; the cursor moves on when the lot is empty. */
  method TakeAtCursor(it: Item, q: seq<Lot>, cursor: nat, due: real, ghost goal: Drain, ghost block: seq<Move>)
    returns (q': seq<Lot>, cursor': nat, due': real, m: Move)
    requires cursor < |q| && due > 0.0 && q[cursor].remaining > 0.0 && Progress(goal, it, q, cursor, due, block)
    ensures Progress(goal, it, q', cursor', due', block + [m])
    ensures |q'| == |q| && (cursor' == cursor + 1 || (cursor' == cursor && due' <= 0.0))
  {
    var lot := q[cursor];
    var used := Min(lot.remaining, due);
    var left := lot.remaining - used;
    cursor' := if left <= 0.0 then cursor + 1 else cursor;
    m := Move(it, Some(lot), used);
    ProgressTake(goal, it, q, cursor, due, block, used, lot.(remaining := left), cursor', m);
    q', due' := q[cursor := lot.(remaining := left)], due - used;
  }

  /** Draw one disposal from its depot's queue, starting at the depot's cursor. */
  method Consume(p: Policy, it: Item, queue: seq<Lot>, start: nat, a: Accounts, ghost moves: seq<Move>)
    returns (q: seq<Lot>, cursor: nat, r: Accounts, tally: Tally)
    requires CursorAt(queue, it.depot, start)
    requires Balanced(p, moves, a)
    ensures var d := Draw(queue, it, it.amount);
            q == d.lots && Balanced(p, moves + Block(d, it), r) && tally == TallyOf(p, Block(d, it))
    ensures CursorAt(q, it.depot, cursor)
  {
    q, cursor, r, tally := queue, start, a, ZERO_TALLY;
    var due := it.amount;
    ghost var block: seq<Move> := [];
    ghost var goal := Draw(queue, it, it.amount);
    ProgressStart(queue, it, cursor);
    assert moves + block == moves;
    while cursor < |q| && due > 0.0
      invariant Progress(goal, it, q, cursor, due, block)
      invariant tally == TallyOf(p, block)
      invariant Balanced(p, moves + block, r)
      decreases |q| - cursor, due > 0.0
    {
      if q[cursor].remaining <= 0.0 {
        ProgressSkip(goal, it, q, cursor, due, block);
        cursor := cursor + 1;
        continue;
      }
      var m;
      q, cursor, due, m := TakeAtCursor(it, q, cursor, due, goal, block);
      r, tally := TakeSlice(p, r, tally, m, moves, block);
      block := block + [m];
    }
    ProgressEnd(goal, it, q, cursor, due, block);
    if due > 0.0 {
      var m := Move(it, None, due);
      r, tally := TakeSlice(p, r, tally, m, moves, block);
      block := block + [m];
    }
  }

  lemma AcquireValid(p: Policy, b: Books, it: Item, items: seq<Item>)
    requires Valid(p, items, b) && it.depot in b.lots && it.amount > 0.0 && Acquires(it.kind)
    ensures Valid(p, items + [it],
                  b.(lots := b.lots[it.depot := b.lots[it.depot] + [NewLot(it)]],
                     purchaseFees := FeePosted(b.purchaseFees, it, Purchase),
                     incomeFees := FeePosted(b.incomeFees, it, Income)))
  {
    RunPush(items, it);
    QueuesAcquire(b.lots, b.cursors, Run(items).lots, NewLot(it));
    FeesPush(items, it, b.purchaseFees, b.incomeFees, b.saleFees);
    NoSummary(p, items, it, b.sales, b.expenses, b.transactionFees);
  }

  method Acquire(p: Policy, b: Books, it: Item, ghost items: seq<Item>) returns (r: Books)
    requires Valid(p, items, b) && it.depot in b.lots && it.amount > 0.0 && Acquires(it.kind)
    ensures Valid(p, items + [it], r)
  {
    AcquireValid(p, b, it, items);
    var l := NewLot(it);
    var purchaseFees, incomeFees := b.purchaseFees, b.incomeFees;
    if l.currency != "" {
      if it.kind.Income? {
        incomeFees := Add(incomeFees, l.currency, it.fee);
      } else {
        purchaseFees := Add(purchaseFees, l.currency, it.fee);
      }
    }
    assert purchaseFees == FeePosted(b.purchaseFees, it, Purchase);
    assert incomeFees == FeePosted(b.incomeFees, it, Income);
    r := b.(lots := b.lots[it.depot := b.lots[it.depot] + [l]], purchaseFees := purchaseFees, incomeFees := incomeFees);
  }

  /** The variables with a disposal's results filed. */
  function Disposed(b: Books, it: Item, q: seq<Lot>, cursor: nat, a: Accounts, t: Tally): Books
  {
    b.(lots := b.lots[it.depot := q], cursors := b.cursors[it.depot := cursor], accounts := a,
       saleFees := FeePosted(b.saleFees, it, Sale), sales := Filed(b.sales, it, SaleRow, t),
       expenses := Filed(b.expenses, it, ExpenseRow, t), transactionFees := Filed(b.transactionFees, it, FeeRow, t))
  }

  lemma DisposeValid(p: Policy, b: Books, it: Item, items: seq<Item>, q: seq<Lot>, cursor: nat, a: Accounts,
                     t: Tally)
    requires Valid(p, items, b) && it.depot in b.lots && it.amount > 0.0 && Disposes(it.kind)
    requires q == Draw(b.lots[it.depot], it, it.amount).lots && CursorAt(q, it.depot, cursor)
    requires Balanced(p, Run(items).moves + Block(Draw(Run(items).lots, it, it.amount), it), a)
    requires t == TallyOf(p, Block(Draw(Run(items).lots, it, it.amount), it))
    ensures Valid(p, items + [it], Disposed(b, it, q, cursor, a, t))
  {
    RunPush(items, it);
    DisposedQueues(p, b, it, items, cursor);
    DisposedFees(b, it, items);
    NewSummary(p, items, it, b.sales, b.expenses, b.transactionFees, t);
  }

  lemma DisposedFees(b: Books, it: Item, items: seq<Item>)
    requires FeesOf(items, b.purchaseFees, b.incomeFees, b.saleFees) && Disposes(it.kind)
    ensures FeesOf(items + [it], b.purchaseFees, b.incomeFees, FeePosted(b.saleFees, it, Sale))
  {
    FeesPush(items, it, b.purchaseFees, b.incomeFees, b.saleFees);
  }

  lemma DisposedQueues(p: Policy, b: Books, it: Item, items: seq<Item>, cursor: nat)
    requires QueuesOf(b.lots, b.cursors, Run(items).lots) && it.depot in b.lots && it.amount > 0.0 && Disposes(it.kind)
    requires CursorAt(Draw(b.lots[it.depot], it, it.amount).lots, it.depot, cursor)
    ensures QueuesOf(b.lots[it.depot := Draw(b.lots[it.depot], it, it.amount).lots], b.cursors[it.depot := cursor],
                     Run(items + [it]).lots)
  {
    RunPush(items, it);
    QueuesDispose(b.lots, b.cursors, Run(items).lots, it, cursor);
  }

  lemma OwnQueue(p: Policy, b: Books, it: Item, items: seq<Item>)
    requires Valid(p, items, b) && it.depot in b.lots
    ensures CursorAt(b.lots[it.depot], it.depot, CursorIn(b.cursors, it.depot))
    ensures Block(Draw(b.lots[it.depot], it, it.amount), it) == Block(Draw(Run(items).lots, it, it.amount), it)
  {
    assert QueueIn(b.lots, it.depot) == ByDepot(Run(items).lots, it.depot);
    assert CursorAt(QueueIn(b.lots, it.depot), it.depot, CursorIn(b.cursors, it.depot));
    DrawOwnDepot(Run(items).lots, it, it.amount);
  }

  method Dispose(p: Policy, b: Books, it: Item, ghost items: seq<Item>) returns (r: Books)
    requires Valid(p, items, b) && it.depot in b.lots && it.amount > 0.0 && Disposes(it.kind)
    ensures Valid(p, items + [it], r)
  {
    OwnQueue(p, b, it, items);
    var q, cursor, a, tally :=
      Consume(p, it, b.lots[it.depot], CursorIn(b.cursors, it.depot), b.accounts, Run(items).moves);
    DisposeValid(p, b, it, items, q, cursor, a, tally);
    r := Disposed(b, it, q, cursor, a, tally);
  }

  lemma SkipValid(p: Policy, b: Books, it: Item, items: seq<Item>)
    requires Valid(p, items, b) && (it.amount <= 0.0 || (!Acquires(it.kind) && !Disposes(it.kind)))
    ensures Valid(p, items + [it], b)
  {
    RunPush(items, it);
    FeesPush(items, it, b.purchaseFees, b.incomeFees, b.saleFees);
    NoSummary(p, items, it, b.sales, b.expenses, b.transactionFees);
  }

  /** One sorted row. Rows without a positive amount and rows of other kinds change no figure. */
  method Process(p: Policy, b: Books, it: Item, ghost items: seq<Item>) returns (r: Books)
    requires Valid(p, items, b)
    ensures Valid(p, items + [it], r)
  {
    if it.amount <= 0.0 {
      SkipValid(p, b, it, items);
      return b;
    }
    r := if it.depot in b.lots then b else b.(lots := b.lots[it.depot := []], depots := b.depots + [it.depot]);
    assert Valid(p, items, r) by { Registered(p, items, b, r, it.depot); }
    if Acquires(it.kind) {
      r := Acquire(p, r, it, items);
    } else if Disposes(it.kind) {
      r := Dispose(p, r, it, items);
    } else {
      SkipValid(p, r, it, items);
    }
  }

  /** `setdefault(depot, [])` changes no queue. */
  lemma Registered(p: Policy, items: seq<Item>, b: Books, r: Books, d: string)
    requires Valid(p, items, b)
    requires r == if d in b.lots then b else b.(lots := b.lots[d := []], depots := b.depots + [d])
    ensures Valid(p, items, r)
  {
    forall e: string ensures QueueIn(r.lots, e) == QueueIn(b.lots, e) {}
  }

  // ---- the result ----

  function IsOpen(l: Lot): bool { l.remaining > 0.0 }

  /** The open lots, depot by depot. */
  function OpenIn(depots: seq<string>, lots: map<string, seq<Lot>>): seq<Lot>
  {
    if depots == [] then []
    else OpenIn(depots[..|depots| - 1], lots) + Filter(QueueIn(lots, depots[|depots| - 1]), IsOpen)
  }

  lemma OpenPart(q: seq<Lot>, f: Lot -> real)
    requires forall l: Lot :: l.remaining <= 0.0 ==> f(l) == 0.0
    ensures Sum(Filter(q, IsOpen), f) == Sum(q, f)
  {
    SumFilter(q, IsOpen, f, f);
  }

  lemma {:induction false} OpenOver(depots: seq<string>, b: Books, flat: seq<Lot>, f: Lot -> real)
    requires QueuesOf(b.lots, b.cursors, flat)
    requires forall l: Lot :: l.remaining <= 0.0 ==> f(l) == 0.0
    ensures Sum(OpenIn(depots, b.lots), f) == SumOver(depots, flat, LotDepot, f)
  {
    if depots != [] {
      var n := |depots| - 1;
      OpenOver(depots[..n], b, flat, f);
      var q := QueueIn(b.lots, depots[n]);
      assert q == ByDepot(flat, depots[n]);
      OpenPart(q, f);
      SumConcat(OpenIn(depots[..n], b.lots), Filter(q, IsOpen), f);
    }
  }

  /** A figure summed over the open lots of all depots is the same figure over the whole run. */
  lemma OpenSum(p: Policy, items: seq<Item>, b: Books, f: Lot -> real)
    requires Valid(p, items, b)
    requires forall l: Lot :: l.remaining == 0.0 ==> f(l) == 0.0
    ensures Sum(OpenIn(b.depots, b.lots), f) == Sum(Run(items).lots, f)
  {
    var flat := Run(items).lots;
    RunSound(items);
    forall l | l in flat ensures LotDepot(l) in b.depots {
      assert LotDepot(l) == l.depot;
      FilterKeeps(flat, l, Has(LotDepot, l.depot));
      assert QueueIn(b.lots, l.depot) == ByDepot(flat, l.depot);
    }
    var g := Nonnegative(f);
    OpenOver(b.depots, b, flat, g);
    SumOverAllKeys(b.depots, flat, LotDepot, g);
    SumSame(flat, f, g);
    OpenNonNegative(b.depots, b.lots);
    SumSame(OpenIn(b.depots, b.lots), f, g);
  }

  function Nonnegative(f: Lot -> real): Lot -> real { (l: Lot) => if l.remaining <= 0.0 then 0.0 else f(l) }

  lemma {:induction false} OpenNonNegative(depots: seq<string>, lots: map<string, seq<Lot>>)
    ensures forall l <- OpenIn(depots, lots) :: l.remaining > 0.0
  {
    if depots != [] { OpenNonNegative(depots[..|depots| - 1], lots); }
  }

  /** The totals the result reports are the sums over every lot of the run. */
  ghost predicate IsReport(p: Policy, items: seq<Item>, asOf: int, r: Report)
  {
    var lots := Run(items).lots;
    && r.total == Sum(lots, Remaining)
    && r.known == Sum(lots, KnownRemaining)
    && r.unknown == r.total - r.known
    && r.long == Sum(lots, OpenClass(p, asOf, LongTerm))
    && r.short == Sum(lots, OpenClass(p, asOf, ShortTerm))
    && r.unknownHolding == Sum(lots, OpenClass(p, asOf, Unknown))
    && r.blocked == Sum(lots, BlockedOpen(p, asOf))
  }

  lemma ClassesCover(p: Policy, lots: seq<Lot>, asOf: int)
    ensures Sum(lots, Remaining) == Sum(lots, OpenClass(p, asOf, LongTerm)) + Sum(lots, OpenClass(p, asOf, ShortTerm))
                                    + Sum(lots, OpenClass(p, asOf, Unknown))
  {
    var known := (l: Lot) => OpenClass(p, asOf, LongTerm)(l) + OpenClass(p, asOf, ShortTerm)(l);
    SumSplit(lots, known, OpenClass(p, asOf, LongTerm), OpenClass(p, asOf, ShortTerm));
    SumSplit(lots, Remaining, known, OpenClass(p, asOf, Unknown));
  }

  method OpenOf(q: seq<Lot>) returns (open: seq<Lot>)
    ensures open == Filter(q, IsOpen)
  {
    open := [];
    for j := 0 to |q|
      invariant open == Filter(q[..j], IsOpen)
    {
      assert q[..j + 1] == q[..j] + [q[j]];
      FilterPush(q[..j], q[j], IsOpen);
      if q[j].remaining > 0.0 { open := open + [q[j]]; }
    }
    assert q[..|q|] == q;
  }

  method CollectOpen(b: Books) returns (open: seq<Lot>)
    ensures open == OpenIn(b.depots, b.lots)
  {
    open := [];
    for i := 0 to |b.depots|
      invariant open == OpenIn(b.depots[..i], b.lots)
    {
      assert b.depots[..i + 1][..i] == b.depots[..i];
      var more := OpenOf(QueueIn(b.lots, b.depots[i]));
      open := open + more;
    }
    assert b.depots[..|b.depots|] == b.depots;
  }

  method Summarise(p: Policy, b: Books, asOf: int, ghost items: seq<Item>) returns (r: Report)
    requires Valid(p, items, b)
    ensures r.openLots == OpenIn(b.depots, b.lots) && IsReport(p, items, asOf, r)
  {
    var open := CollectOpen(b);
    var total, known := Sum(open, Remaining), Sum(open, KnownRemaining);
    var long, short := Sum(open, OpenClass(p, asOf, LongTerm)), Sum(open, OpenClass(p, asOf, ShortTerm));
    r := Report(open, total, known, total - known, long, short, total - long - short, Sum(open, BlockedOpen(p, asOf)));
    OpenSum(p, items, b, Remaining);
    OpenSum(p, items, b, KnownRemaining);
    OpenSum(p, items, b, OpenClass(p, asOf, LongTerm));
    OpenSum(p, items, b, OpenClass(p, asOf, ShortTerm));
    OpenSum(p, items, b, BlockedOpen(p, asOf));
    ClassesCover(p, Run(items).lots, asOf);
  }

  lemma OneMore<T>(xs: seq<T>, i: nat)
    requires i < |xs|
    ensures xs[..i + 1] == xs[..i] + [xs[i]]
  {
  }

  method ProcessNext(p: Policy, b: Books, items: seq<Item>, i: nat) returns (r: Books)
    requires i < |items| && Valid(p, items[..i], b)
    ensures Valid(p, items[..i + 1], r)
  {
    OneMore(items, i);
    r := Process(p, b, items[i], items[..i]);
  }

  /** The run over the sorted rows, from empty books. */
  method RunRows(p: Policy, items: seq<Item>) returns (b: Books)
    ensures Valid(p, items, b)
  {
    b := NO_BOOKS;
    StartValid(p);
    for i := 0 to |items|
      invariant Valid(p, items[..i], b)
    {
      b := ProcessNext(p, b, items, i);
    }
    assert items[..|items|] == items;
  }

  /** The whole computation: expand, sort, filter, run row by row, report. */
  method FifoResult(entries: seq<Entry>, scope: Option<string>, p: Policy, asOf: int) returns (b: Books, r: Report)
    ensures Valid(p, RunItems(entries, scope), b)
    ensures IsReport(p, RunItems(entries, scope), asOf, r)
  {
    var expanded := ExpandEntries(entries);
    var items := Filter(Sort(expanded, ItemLe), Scoped(scope));
    b := RunRows(p, items);
    r := Summarise(p, b, asOf, items);
  }

  datatype CurrencySummary = CurrencySummary(total: real, known: real, invested: real, realized: real,
                                             realizedLong: real, realizedShort: real, purchaseFees: real,
                                             incomeFees: real, saleFees: real)

  /** One currency's figures as sums over the functional run. */
  ghost function SummaryIn(p: Policy, items: seq<Item>, c: string): CurrencySummary
  {
    var s := Run(items);
    CurrencySummary(Sum(s.lots, Remaining), Sum(s.lots, RemainingIn(c)), Sum(s.lots, InvestedIn(c)),
                    Sum(s.moves, GainIn(c)), Sum(s.moves, ClassGainIn(p, LongTerm, c)),
                    Sum(s.moves, ClassGainIn(p, ShortTerm, c)), Sum(items, FeeIn(Purchase, c)),
                    Sum(items, FeeIn(Income, c)), Sum(items, FeeIn(Sale, c)))
  }

  method SummariseCurrency(entries: seq<Entry>, c: string, scope: Option<string>, p: Policy, asOf: int)
    returns (r: CurrencySummary)
    requires c != ""
    ensures r == SummaryIn(p, RunItems(entries, scope), c)
  {
    var b, report := FifoResult(entries, scope, p, asOf);
    ghost var items := RunItems(entries, scope);
    var open := CollectOpen(b);
    OpenSum(p, items, b, RemainingIn(c));
    OpenSum(p, items, b, InvestedIn(c));
    r := CurrencySummary(report.total, Sum(open, RemainingIn(c)), Sum(open, InvestedIn(c)),
                         Get(b.accounts.realized, c), Get(b.accounts.realizedLong, c), Get(b.accounts.realizedShort, c),
                         Get(b.purchaseFees, c), Get(b.incomeFees, c), Get(b.saleFees, c));
  }
}

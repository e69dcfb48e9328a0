/** The running variables of the daily snapshots and the steps that update them. A lot lives once in
    `cells`; the depot queues and the maturity list refer to it by position, so a change made through
    one is seen through the other. */
module DailyState {
  import opened Sums
  import opened Ledger
  import opened Fifo
  import opened FifoLaws
  import opened FifoDiscipline
  import opened FifoRecords
  import opened FifoEngine

  datatype Cell = Cell(remaining: real, depot: string, currency: string, unitBasis: real, known: bool, long: bool)

  function CellOf(l: Lot, long: bool): Cell { Cell(l.remaining, l.depot, l.currency, l.unitBasis, l.known, long) }

  /** The cells show the lots, those before `pos` as long-term. */
  ghost predicate Shows(cells: seq<Cell>, lots: seq<Lot>, pos: nat)
  {
    |cells| == |lots| && pos <= |lots| && forall k :: 0 <= k < |lots| ==> cells[k] == CellOf(lots[k], k < pos)
  }

  // ---- positions of one depot's lots ----

  function Positions(lots: seq<Lot>, d: string): seq<nat>
  {
    if lots == [] then []
    else
      var n := |lots| - 1;
      Positions(lots[..n], d) + if lots[n].depot == d then [n] else []
  }

  lemma PositionsPush(lots: seq<Lot>, l: Lot, d: string)
    ensures Positions(lots + [l], d) == Positions(lots, d) + if l.depot == d then [|lots|] else []
  {
    assert (lots + [l])[..|lots|] == lots;
  }

  lemma {:induction false} PositionsPoint(lots: seq<Lot>, d: string)
    ensures |Positions(lots, d)| == |ByDepot(lots, d)|
    ensures forall j :: 0 <= j < |Positions(lots, d)| ==>
              Positions(lots, d)[j] < |lots| && lots[Positions(lots, d)[j]] == ByDepot(lots, d)[j]
  {
    if lots != [] {
      var n := |lots| - 1;
      PositionsPoint(lots[..n], d);
      assert lots == lots[..n] + [lots[n]];
      QueuePush(lots[..n], lots[n], d);
    }
  }

  lemma {:induction false} PositionsUpdate(lots: seq<Lot>, k: nat, l: Lot, d: string)
    requires k < |lots| && l.depot == lots[k].depot
    ensures Positions(lots[k := l], d) == Positions(lots, d)
  {
    var n := |lots| - 1;
    if k < n {
      PositionsUpdate(lots[..n], k, l, d);
      assert lots[k := l][..n] == lots[..n][k := l];
    } else {
      assert lots[k := l][..n] == lots[..n];
    }
  }

  lemma ByDepotUpdateOther(lots: seq<Lot>, k: nat, l: Lot, e: string)
    requires k < |lots| && l.depot == lots[k].depot && l.depot != e
    ensures ByDepot(lots[k := l], e) == ByDepot(lots, e)
  {
    assert lots == lots[..k] + [lots[k]] + lots[k + 1..];
    assert lots[k := l] == lots[..k] + [l] + lots[k + 1..];
    FilterAround(lots[..k], lots[k], lots[k + 1..], Has(LotDepot, e));
    FilterAround(lots[..k], l, lots[k + 1..], Has(LotDepot, e));
    assert LotDepot(l) == l.depot && LotDepot(lots[k]) == lots[k].depot;
  }

  /** The j-th lot of a depot has j lots of the depot in front of it. */
  lemma {:induction false} PositionsRank(lots: seq<Lot>, d: string, j: nat)
    requires j < |Positions(lots, d)|
    ensures Positions(lots, d)[j] < |lots| && j == |Positions(lots[..Positions(lots, d)[j]], d)|
  {
    var n := |lots| - 1;
    var k := Positions(lots, d)[j];
    PositionsBelow(lots[..n], d);
    if j < |Positions(lots[..n], d)| {
      PositionsRank(lots[..n], d, j);
      assert lots[..n][..k] == lots[..k];
    }
  }

  lemma Replace<T>(a: seq<T>, x: T, y: T, b: seq<T>)
    ensures (a + [x] + b)[|a| := y] == a + [y] + b
  {
  }

  lemma ByDepotUpdateOwn(lots: seq<Lot>, j: nat, l: Lot, d: string)
    requires j < |Positions(lots, d)| && l.depot == d
    ensures Positions(lots, d)[j] < |lots| && j < |ByDepot(lots, d)|
    ensures ByDepot(lots[Positions(lots, d)[j] := l], d) == ByDepot(lots, d)[j := l]
  {
    PositionsPoint(lots, d);
    PositionsRank(lots, d, j);
    var k := Positions(lots, d)[j];
    var pre, x, post := lots[..k], lots[k], lots[k + 1..];
    PositionsPoint(pre, d);
    QueueOwn(lots, d);
    assert lots == pre + [x] + post;
    assert lots[k := l] == pre + [l] + post;
    FilterAround(pre, x, post, Has(LotDepot, d));
    FilterAround(pre, l, post, Has(LotDepot, d));
    assert LotDepot(l) == l.depot && LotDepot(x) == x.depot;
    Replace(ByDepot(pre, d), x, l, ByDepot(post, d));
  }

  lemma QueueOwn(lots: seq<Lot>, d: string)
    ensures forall j :: 0 <= j < |ByDepot(lots, d)| ==> ByDepot(lots, d)[j].depot == d
  {
    forall j | 0 <= j < |ByDepot(lots, d)| ensures ByDepot(lots, d)[j].depot == d {
      var l := ByDepot(lots, d)[j];
      assert l in ByDepot(lots, d);
      assert Has(LotDepot, d)(l) && LotDepot(l) == l.depot;
    }
  }

  lemma {:induction false} PositionsBelow(lots: seq<Lot>, d: string)
    ensures forall j :: 0 <= j < |Positions(lots, d)| ==> Positions(lots, d)[j] < |lots|
  {
    if lots != [] { PositionsBelow(lots[..|lots| - 1], d); }
  }

  /** Same depots position by position and the same queues: the same list. */
  lemma {:induction false} QueuesDetermine(a: seq<Lot>, b: seq<Lot>)
    requires SameLots(a, b)
    requires forall d: string :: ByDepot(a, d) == ByDepot(b, d)
    ensures a == b
    decreases |a|
  {
    if a != [] {
      var n := |a| - 1;
      var x, y := a[n], b[n];
      assert x.(remaining := 0.0).depot == y.(remaining := 0.0).depot;
      assert a == a[..n] + [x] && b == b[..n] + [y];
      forall d: string ensures ByDepot(a[..n], d) == ByDepot(b[..n], d) && (d == x.depot ==> x == y) {
        assert ByDepot(a, d) == ByDepot(b, d);
        QueuePush(a[..n], x, d);
        QueuePush(b[..n], y, d);
        if d == x.depot { LastCancels(ByDepot(a[..n], d), x, ByDepot(b[..n], d), y); }
      }
      assert ByDepot(a[..n], x.depot) == ByDepot(b[..n], x.depot);
      assert x == y;
      QueuesDetermine(a[..n], b[..n]);
    }
  }

  lemma LastCancels<T>(a: seq<T>, x: T, b: seq<T>, y: T)
    requires a + [x] == b + [y]
    ensures a == b && x == y
  {
    assert (a + [x])[|a + [x]| - 1] == x && (b + [y])[|b + [y]| - 1] == y;
    assert a == (a + [x])[..|a|] && b == (b + [y])[..|b|];
  }

  // ---- running totals of open BTC and basis ----

  datatype Stock = Stock(total: real, long: real, short: real, depotTotal: map<string, real>,
                         depotLong: map<string, real>, depotShort: map<string, real>,
                         known: map<string, real>, invested: map<string, real>)

  const NO_STOCK := Stock(0.0, 0.0, 0.0, map[], map[], map[], map[], map[])

  /** A map that holds, for every key, one sum over a list of lots. */
  ghost predicate Holds(m: map<string, real>, lots: seq<Lot>, f: string -> (Lot -> real))
  {
    forall c: string :: Get(m, c) == Sum(lots, f(c))
  }

  ghost predicate StockOf(st: Stock, lots: seq<Lot>, pos: nat)
    requires pos <= |lots|
  {
    HalvesOf(st, lots, pos) && BasisOf(st, lots)
  }

  ghost predicate BasisOf(st: Stock, lots: seq<Lot>)
  {
    Holds(st.known, lots, RemainingIn) && Holds(st.invested, lots, InvestedIn)
  }

  ghost predicate HalvesOf(st: Stock, lots: seq<Lot>, pos: nat)
    requires pos <= |lots|
  {
    && st.total == Sum(lots, Remaining)
    && st.long == Sum(lots[..pos], Remaining)
    && st.short == Sum(lots[pos..], Remaining)
    && Holds(st.depotTotal, lots, RemainingOf)
    && Holds(st.depotLong, lots[..pos], RemainingOf)
    && Holds(st.depotShort, lots[pos..], RemainingOf)
  }

  lemma HoldsPush(m: map<string, real>, r: map<string, real>, lots: seq<Lot>, l: Lot, f: string -> (Lot -> real))
    requires Holds(m, lots, f)
    requires forall c: string :: Get(r, c) == Get(m, c) + f(c)(l)
    ensures Holds(r, lots + [l], f)
  {
    forall c: string ensures Get(r, c) == Sum(lots + [l], f(c)) {
      assert Get(m, c) == Sum(lots, f(c));
      SumPush(lots, l, f(c));
    }
  }

  lemma HoldsUpdate(m: map<string, real>, r: map<string, real>, lots: seq<Lot>, k: nat, l: Lot,
                    f: string -> (Lot -> real))
    requires k < |lots| && Holds(m, lots, f)
    requires forall c: string :: Get(r, c) == Get(m, c) - f(c)(lots[k]) + f(c)(l)
    ensures Holds(r, lots[k := l], f)
  {
    forall c: string ensures Get(r, c) == Sum(lots[k := l], f(c)) {
      assert Get(m, c) == Sum(lots, f(c));
      SumUpdate(lots, k, l, f(c));
    }
  }

  /** A new lot starts in the short-term half. */
  method AddLot(st: Stock, l: Lot, totalBasis: real, ghost lots: seq<Lot>, ghost pos: nat) returns (r: Stock)
    requires pos <= |lots| && StockOf(st, lots, pos)
    requires l.currency != "" ==> l.remaining * l.unitBasis == totalBasis
    ensures StockOf(r, lots + [l], pos)
  {
    r := st.(total := st.total + l.remaining, short := st.short + l.remaining,
             depotTotal := Add(st.depotTotal, l.depot, l.remaining),
             depotShort := Add(st.depotShort, l.depot, l.remaining));
    if l.currency != "" {
      r := r.(known := Add(st.known, l.currency, l.remaining), invested := Add(st.invested, l.currency, totalBasis));
    }
    PushHalves(lots, pos, l);
    GrowTotal(st.total, st.depotTotal, lots, l);
    GrowTotal(st.short, st.depotShort, lots[pos..], l);
    AddKnown(st, r, lots, l, totalBasis);
  }

  /** One total and its per-depot map grow by one lot. */
  lemma GrowTotal(total: real, byDepot: map<string, real>, lots: seq<Lot>, l: Lot)
    requires total == Sum(lots, Remaining) && Holds(byDepot, lots, RemainingOf)
    ensures total + l.remaining == Sum(lots + [l], Remaining)
    ensures Holds(Add(byDepot, l.depot, l.remaining), lots + [l], RemainingOf)
  {
    SumPush(lots, l, Remaining);
    HoldsPush(byDepot, Add(byDepot, l.depot, l.remaining), lots, l, RemainingOf);
  }

  lemma PushHalves<T>(xs: seq<T>, pos: nat, x: T)
    requires pos <= |xs|
    ensures (xs + [x])[..pos] == xs[..pos] && (xs + [x])[pos..] == xs[pos..] + [x]
  {
  }

  lemma AddKnown(st: Stock, r: Stock, lots: seq<Lot>, l: Lot, basis: real)
    requires Holds(st.known, lots, RemainingIn) && Holds(st.invested, lots, InvestedIn)
    requires l.currency != "" ==> r.known == Add(st.known, l.currency, l.remaining)
                                  && r.invested == Add(st.invested, l.currency, basis)
                                  && l.remaining * l.unitBasis == basis
    requires l.currency == "" ==> r.known == st.known && r.invested == st.invested
    ensures Holds(r.known, lots + [l], RemainingIn) && Holds(r.invested, lots + [l], InvestedIn)
  {
    HoldsPush(st.known, r.known, lots, l, RemainingIn);
    HoldsPush(st.invested, r.invested, lots, l, InvestedIn);
  }

  lemma HalfUpdate<T>(xs: seq<T>, pos: nat, k: nat, x: T)
    requires pos <= |xs| && k < |xs|
    ensures k < pos ==> xs[k := x][..pos] == xs[..pos][k := x] && xs[k := x][pos..] == xs[pos..]
    ensures pos <= k ==> xs[k := x][..pos] == xs[..pos] && xs[k := x][pos..] == xs[pos..][k - pos := x]
  {
  }

  lemma Spend(l: Lot, used: real, c: string)
    ensures var l' := l.(remaining := l.remaining - used);
            && RemainingOf(c)(l') == RemainingOf(c)(l) - (if l.depot == c then used else 0.0)
            && RemainingIn(c)(l') == RemainingIn(c)(l) - (if c != "" && l.currency == c then used else 0.0)
            && InvestedIn(c)(l') ==
               InvestedIn(c)(l) - (if c != "" && l.currency == c then Times(used, l.unitBasis) else 0.0)
  {
    assert (l.remaining - used) * l.unitBasis == l.remaining * l.unitBasis - used * l.unitBasis;
  }

  /** A slice leaves a lot: every total that counts the lot falls with it. */
  method TakeStock(st: Stock, cell: Cell, used: real, ghost lots: seq<Lot>, ghost pos: nat, ghost k: nat)
    returns (r: Stock)
    requires pos <= |lots| && k < |lots| && StockOf(st, lots, pos)
    requires cell == CellOf(lots[k], k < pos) && (lots[k].currency != "" ==> lots[k].known)
    ensures StockOf(r, lots[k := lots[k].(remaining := lots[k].remaining - used)], pos)
  {
    r := TakeHalves(st, cell, used, lots, pos, k);
    ghost var l := lots[k].(remaining := lots[k].remaining - used);
    if cell.known && cell.currency != "" {
      TakeKnown(st, lots, k, l, used);
      r := r.(known := Add(r.known, cell.currency, -used),
              invested := Add(r.invested, cell.currency, -Times(used, cell.unitBasis)));
    } else {
      TakeUnknown(st, lots, k, l, used);
    }
  }

  method TakeHalves(st: Stock, cell: Cell, used: real, ghost lots: seq<Lot>, ghost pos: nat, ghost k: nat)
    returns (r: Stock)
    requires pos <= |lots| && k < |lots| && HalvesOf(st, lots, pos) && cell == CellOf(lots[k], k < pos)
    ensures HalvesOf(r, lots[k := lots[k].(remaining := lots[k].remaining - used)], pos)
    ensures r.known == st.known && r.invested == st.invested
  {
    ghost var l := lots[k].(remaining := lots[k].remaining - used);
    HalfUpdate(lots, pos, k, l);
    ShrinkTotal(st.total, st.depotTotal, lots, k, l, used);
    r := st.(total := st.total - used, depotTotal := Add(st.depotTotal, cell.depot, -used));
    if cell.long {
      ShrinkTotal(st.long, st.depotLong, lots[..pos], k, l, used);
      r := r.(long := st.long - used, depotLong := Add(st.depotLong, cell.depot, -used));
    } else {
      ShrinkTotal(st.short, st.depotShort, lots[pos..], k - pos, l, used);
      r := r.(short := st.short - used, depotShort := Add(st.depotShort, cell.depot, -used));
    }
  }

  /** One total and its per-depot map fall by one slice. */
  lemma ShrinkTotal(total: real, byDepot: map<string, real>, lots: seq<Lot>, k: nat, l: Lot, used: real)
    requires k < |lots| && total == Sum(lots, Remaining) && Holds(byDepot, lots, RemainingOf)
    requires l == lots[k].(remaining := lots[k].remaining - used)
    ensures total - used == Sum(lots[k := l], Remaining)
    ensures Holds(Add(byDepot, l.depot, -used), lots[k := l], RemainingOf)
  {
    forall c: string ensures RemainingOf(c)(l) == RemainingOf(c)(lots[k]) - (if l.depot == c then used else 0.0) {
      Spend(lots[k], used, c);
    }
    SumUpdate(lots, k, l, Remaining);
    HoldsUpdate(byDepot, Add(byDepot, l.depot, -used), lots, k, l, RemainingOf);
  }

  lemma TakeKnown(st: Stock, lots: seq<Lot>, k: nat, l: Lot, used: real)
    requires k < |lots| && BasisOf(st, lots) && l == lots[k].(remaining := lots[k].remaining - used) && l.currency != ""
    ensures Holds(Add(st.known, l.currency, -used), lots[k := l], RemainingIn)
    ensures Holds(Add(st.invested, l.currency, -Times(used, l.unitBasis)), lots[k := l], InvestedIn)
  {
    forall c: string
      ensures RemainingIn(c)(l) == RemainingIn(c)(lots[k]) - (if l.currency == c then used else 0.0)
      ensures InvestedIn(c)(l) == InvestedIn(c)(lots[k]) - (if l.currency == c then Times(used, l.unitBasis) else 0.0)
    {
      Spend(lots[k], used, c);
    }
    HoldsUpdate(st.known, Add(st.known, l.currency, -used), lots, k, l, RemainingIn);
    HoldsUpdate(st.invested, Add(st.invested, l.currency, -Times(used, l.unitBasis)), lots, k, l, InvestedIn);
  }

  lemma TakeUnknown(st: Stock, lots: seq<Lot>, k: nat, l: Lot, used: real)
    requires k < |lots| && BasisOf(st, lots) && l == lots[k].(remaining := lots[k].remaining - used) && l.currency == ""
    ensures BasisOf(st, lots[k := l])
  {
    HoldsUpdate(st.known, st.known, lots, k, l, RemainingIn);
    HoldsUpdate(st.invested, st.invested, lots, k, l, InvestedIn);
  }

  /** The lot at the maturity position moves from the short-term to the long-term half. */
  method MatureStock(st: Stock, cell: Cell, ghost lots: seq<Lot>, ghost pos: nat) returns (r: Stock)
    requires pos < |lots| && StockOf(st, lots, pos) && cell == CellOf(lots[pos], false)
    requires lots[pos].remaining >= 0.0
    ensures StockOf(r, lots, pos + 1)
  {
    r := st;
    if cell.remaining > 0.0 {
      r := st.(short := st.short - cell.remaining, long := st.long + cell.remaining,
               depotShort := Add(st.depotShort, cell.depot, -cell.remaining),
               depotLong := Add(st.depotLong, cell.depot, cell.remaining));
    }
    MoveTotals(st, lots, pos, lots[pos]);
    if cell.remaining <= 0.0 { SameTotals(st, r, lots, pos, lots[pos]); }
  }

  /** One total and its per-depot map without the front lot. */
  lemma DropTotal(total: real, byDepot: map<string, real>, l: Lot, lots: seq<Lot>)
    requires total == Sum([l] + lots, Remaining) && Holds(byDepot, [l] + lots, RemainingOf)
    ensures total - l.remaining == Sum(lots, Remaining)
    ensures Holds(Add(byDepot, l.depot, -l.remaining), lots, RemainingOf)
  {
    SumFront(l, lots, Remaining);
    var r := Add(byDepot, l.depot, -l.remaining);
    forall c: string ensures Get(r, c) == Sum(lots, RemainingOf(c)) {
      assert Get(byDepot, c) == Sum([l] + lots, RemainingOf(c));
      SumFront(l, lots, RemainingOf(c));
    }
  }

  lemma MoveTotals(st: Stock, lots: seq<Lot>, pos: nat, l: Lot)
    requires pos < |lots| && HalvesOf(st, lots, pos) && l == lots[pos]
    ensures st.long + l.remaining == Sum(lots[..pos + 1], Remaining)
    ensures st.short - l.remaining == Sum(lots[pos + 1..], Remaining)
    ensures Holds(Add(st.depotLong, l.depot, l.remaining), lots[..pos + 1], RemainingOf)
    ensures Holds(Add(st.depotShort, l.depot, -l.remaining), lots[pos + 1..], RemainingOf)
  {
    assert lots[..pos + 1] == lots[..pos] + [l] && lots[pos..] == [l] + lots[pos + 1..];
    GrowTotal(st.long, st.depotLong, lots[..pos], l);
    DropTotal(st.short, st.depotShort, l, lots[pos + 1..]);
  }

  lemma SameTotals(st: Stock, r: Stock, lots: seq<Lot>, pos: nat, l: Lot)
    requires pos < |lots| && HalvesOf(st, lots, pos) && l == lots[pos] && l.remaining == 0.0 && r == st
    ensures HalvesOf(r, lots, pos + 1)
  {
    MoveTotals(st, lots, pos, l);
    forall c: string
      ensures Get(st.depotLong, c) == Sum(lots[..pos + 1], RemainingOf(c))
      ensures Get(st.depotShort, c) == Sum(lots[pos + 1..], RemainingOf(c))
    {
      assert Get(Add(st.depotLong, l.depot, 0.0), c) == Sum(lots[..pos + 1], RemainingOf(c));
      assert Get(Add(st.depotShort, l.depot, -0.0), c) == Sum(lots[pos + 1..], RemainingOf(c));
    }
  }

  // ---- running totals of realized gain ----

  datatype Gains = Gains(all: map<string, real>, long: map<string, real>, short: map<string, real>)

  /** The sale terms a disposal is booked under; none when it has no fiat value. */
  datatype Terms = NoSale | Terms(currency: string, price: real, fee: real, zeroProceeds: bool)

  function TermsOf(it: Item): Terms
  {
    if it.kind.Sale? then Terms(it.currency, it.price, it.fee, false)
    else if RefPriced(it) then Terms(it.currency, it.price, it.fee, it.isFee)
    else NoSale
  }

  /** A BTC fee that names a currency also has a price. */
  predicate FeePriced(it: Item) { it.isFee && !it.kind.Sale? && it.currency != "" ==> it.price > 0.0 }

  function TermGain(t: Terms, cell: Cell, used: real, amount: real): Option<real>
  {
    if t.Terms? && cell.known && cell.currency != "" && cell.currency == t.currency then
      var proceeds := if t.zeroProceeds then 0.0 else Times(used, t.price) - FeeShare(t.fee, used, amount);
      Some(proceeds - Times(used, cell.unitBasis))
    else None
  }

  /** What the one pass books for a slice. */
  function Booked(m: Move): Option<real>
  {
    if m.lot.None? then None else TermGain(TermsOf(m.item), CellOf(m.lot.value, false), m.used, m.item.amount)
  }

  function BookedOf(m: Move): real { if Booked(m).Some? then Booked(m).value else 0.0 }

  function BookedIn(c: string): Move -> real
  {
    (m: Move) => if m.item.currency == c then BookedOf(m) else 0.0
  }

  function ClassBookedIn(p: Policy, k: Class, c: string): Move -> real
  {
    (m: Move) => if m.item.currency == c && MoveHolding(p, m).period == k then BookedOf(m) else 0.0
  }

  /** The gain totals are the sums of what the pass books. */
  ghost predicate GainsOf(p: Policy, g: Gains, moves: seq<Move>)
  {
    && (forall c: string :: Get(g.all, c) == Sum(moves, BookedIn(c)))
    && (forall c: string :: Get(g.long, c) == Sum(moves, ClassBookedIn(p, LongTerm, c)))
    && (forall c: string :: Get(g.short, c) == Sum(moves, ClassBookedIn(p, ShortTerm, c)))
  }

  lemma BookedPush(before: map<string, real>, moves: seq<Move>, m: Move)
    requires forall c: string :: Get(before, c) == Sum(moves, BookedIn(c))
    ensures forall c: string :: Get(Posted(before, m.item.currency, Booked(m)), c) == Sum(moves + [m], BookedIn(c))
  {
    PostPush(before, Posted(before, m.item.currency, Booked(m)), moves, m, BookedIn);
  }

  function ClassBookedBy(p: Policy, k: Class): string -> (Move -> real) { (c: string) => ClassBookedIn(p, k, c) }

  function BookedIfClass(p: Policy, k: Class, m: Move): Option<real>
  {
    if MoveHolding(p, m).period == k then Booked(m) else None
  }

  lemma ClassBookedPush(before: map<string, real>, moves: seq<Move>, m: Move, p: Policy, k: Class)
    requires forall c: string :: Get(before, c) == Sum(moves, ClassBookedIn(p, k, c))
    ensures forall c: string ::
              Get(Posted(before, m.item.currency, BookedIfClass(p, k, m)), c) ==
              Sum(moves + [m], ClassBookedIn(p, k, c))
  {
    var f := ClassBookedBy(p, k);
    forall c: string ensures Get(before, c) == Sum(moves, f(c)) { assert f(c) == ClassBookedIn(p, k, c); }
    PostPush(before, Posted(before, m.item.currency, BookedIfClass(p, k, m)), moves, m, f);
    forall c: string
      ensures Get(Posted(before, m.item.currency, BookedIfClass(p, k, m)), c) ==
              Sum(moves + [m], ClassBookedIn(p, k, c))
    {
      assert f(c) == ClassBookedIn(p, k, c);
    }
  }

  method BookGain(p: Policy, g: Gains, t: Terms, cell: Cell, used: real, ghost it: Item, ghost l: Lot,
                  amount: real, ghost moves: seq<Move>)
    returns (r: Gains)
    requires GainsOf(p, g, moves)
    requires t == TermsOf(it) && amount == it.amount
    requires MoveHolding(p, Move(it, Some(l), used)).period == if cell.long then LongTerm else ShortTerm
    requires cell == CellOf(l, cell.long)
    ensures GainsOf(p, r, moves + [Move(it, Some(l), used)])
  {
    var gain := TermGain(t, cell, used, amount);
    ghost var m := Move(it, Some(l), used);
    assert gain == Booked(m);
    r := g;
    if gain.Some? {
      r := r.(all := Add(g.all, t.currency, gain.value));
      if cell.long {
        r := r.(long := Add(g.long, t.currency, gain.value));
      } else {
        r := r.(short := Add(g.short, t.currency, gain.value));
      }
      assert t.currency == m.item.currency;
    }
    assert r.all == Posted(g.all, m.item.currency, Booked(m));
    assert r.long == Posted(g.long, m.item.currency, BookedIfClass(p, LongTerm, m));
    assert r.short == Posted(g.short, m.item.currency, BookedIfClass(p, ShortTerm, m));
    BookedPush(g.all, moves, m);
    ClassBookedPush(g.long, moves, m, p, LongTerm);
    ClassBookedPush(g.short, moves, m, p, ShortTerm);
  }

  /** An uncovered rest books nothing. */
  lemma ShortMoveBooksNothing(p: Policy, g: Gains, moves: seq<Move>, it: Item, rest: real)
    requires GainsOf(p, g, moves)
    ensures GainsOf(p, g, moves + [Move(it, None, rest)])
  {
    var m := Move(it, None, rest);
    assert Booked(m) == None;
    BookedPush(g.all, moves, m);
    ClassBookedPush(g.long, moves, m, p, LongTerm);
    ClassBookedPush(g.short, moves, m, p, ShortTerm);
  }

  // ---- where the two computations part: unpriced BTC fees ----

  /** The basis of a slice taken by a BTC fee that names a currency but no price: the full computation books
      it as a loss, the one pass does not. */
  function FeeBasis(m: Move): real { if FeePriced(m.item) then 0.0 else CostOf(m) }

  function FeeBasisIn(c: string): Move -> real
  {
    (m: Move) => if m.item.currency == c then FeeBasis(m) else 0.0
  }

  function ClassFeeBasisIn(p: Policy, k: Class, c: string): Move -> real
  {
    (m: Move) => if m.item.currency == c && MoveHolding(p, m).period == k then FeeBasis(m) else 0.0
  }

  lemma BookedIsGain(m: Move)
    ensures BookedOf(m) == GainOf(m) + FeeBasis(m)
  {
  }

  /** On every run, per currency and holding class: the one pass books the FIFO gain plus that basis. */
  lemma BookedGap(p: Policy, moves: seq<Move>, c: string)
    ensures Sum(moves, BookedIn(c)) == Sum(moves, GainIn(c)) + Sum(moves, FeeBasisIn(c))
    ensures forall k: Class :: Sum(moves, ClassBookedIn(p, k, c)) ==
                               Sum(moves, ClassGainIn(p, k, c)) + Sum(moves, ClassFeeBasisIn(p, k, c))
  {
    forall m: Move ensures BookedOf(m) == GainOf(m) + FeeBasis(m) { BookedIsGain(m); }
    SumSplit(moves, BookedIn(c), GainIn(c), FeeBasisIn(c));
    forall k: Class
      ensures Sum(moves, ClassBookedIn(p, k, c)) ==
              Sum(moves, ClassGainIn(p, k, c)) + Sum(moves, ClassFeeBasisIn(p, k, c))
    {
      SumSplit(moves, ClassBookedIn(p, k, c), ClassGainIn(p, k, c), ClassFeeBasisIn(p, k, c));
    }
  }

  /** With every BTC fee priced there is no gap. */
  lemma NoGap(p: Policy, moves: seq<Move>, c: string)
    requires forall m <- moves :: FeePriced(m.item)
    ensures Sum(moves, FeeBasisIn(c)) == 0.0 && forall k: Class :: Sum(moves, ClassFeeBasisIn(p, k, c)) == 0.0
  {
    SumZero(moves, FeeBasisIn(c));
    forall k: Class ensures Sum(moves, ClassFeeBasisIn(p, k, c)) == 0.0 { SumZero(moves, ClassFeeBasisIn(p, k, c)); }
  }

  /** For one row, both computations book every slice alike exactly when the fee names no currency or has a
      price. */
  lemma FeesBookAlikeIff(it: Item)
    requires it.kind.Expense? && it.isFee
    ensures (forall l: Lot, used: real :: Booked(Move(it, Some(l), used)) == Gain(Move(it, Some(l), used)))
            <==> (it.currency != "" ==> it.price > 0.0)
  {
    if it.currency != "" && it.price <= 0.0 {
      var l := Lot("", None, it.depot, Purchase, 1.0, 1.0, it.currency, 1.0, true);
      assert Booked(Move(it, Some(l), 1.0)) == None;
      assert Gain(Move(it, Some(l), 1.0)).Some?;
    }
  }
}

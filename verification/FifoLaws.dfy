/** Laws of the FIFO run that hold for every ledger: discipline, conservation of BTC and fiat,
    and independence of the depots. */
module FifoLaws {
  import opened Sums
  import opened Ledger
  import opened Fifo

  // ---- one draw ----

  /** `f` falls by `g` of the slice whenever a slice leaves a lot. */
  ghost predicate Linear(f: Lot -> real, g: Move -> real)
  {
    forall l: Lot, it: Item, u: real :: FallsBy(f, g, l, it, u)
  }

  predicate FallsBy(f: Lot -> real, g: Move -> real, l: Lot, it: Item, u: real)
  {
    f(l.(remaining := l.remaining - u)) == f(l) - g(Move(it, Some(l), u))
  }

  ghost predicate SoundLots(lots: seq<Lot>)
  {
    forall l <- lots :: 0.0 <= l.remaining <= l.original && 0.0 < l.original
  }

  /** The same lots, possibly with less remaining in them. */
  ghost predicate SameLots(a: seq<Lot>, b: seq<Lot>)
  {
    |a| == |b| && forall k :: 0 <= k < |a| ==> a[k].(remaining := 0.0) == b[k].(remaining := 0.0)
  }

  ghost predicate SlicesOf(moves: seq<Move>, it: Item)
  {
    forall m <- moves :: m.item == it && m.lot.Some? && m.used > 0.0 && m.lot.value.depot == it.depot
  }

  ghost predicate Skips(l: Lot, it: Item) { l.depot != it.depot || l.remaining <= 0.0 }

  lemma DrawSkip(l: Lot, tail: seq<Lot>, it: Item, due: real)
    requires due > 0.0 && Skips(l, it)
    ensures var d, r := Draw([l] + tail, it, due), Draw(tail, it, due);
            d.lots == [l] + r.lots && d.moves == r.moves && d.rest == r.rest
  {
    assert ([l] + tail)[1..] == tail;
  }

  lemma DrawTake(l: Lot, tail: seq<Lot>, it: Item, due: real, used: real)
    requires due > 0.0 && !Skips(l, it) && used == Min(l.remaining, due)
    ensures var d, r := Draw([l] + tail, it, due), Draw(tail, it, due - used);
            d.lots == [l.(remaining := l.remaining - used)] + r.lots &&
            d.moves == [Move(it, Some(l), used)] + r.moves && d.rest == r.rest
  {
    assert ([l] + tail)[1..] == tail;
  }

  lemma {:induction false} DrawAmounts(lots: seq<Lot>, it: Item, due: real)
    requires due >= 0.0
    ensures 0.0 <= Draw(lots, it, due).rest
    ensures Sum(Draw(lots, it, due).moves, Used) + Draw(lots, it, due).rest == due
  {
    if lots != [] && due > 0.0 {
      var l, tail := lots[0], lots[1..];
      assert lots == [l] + tail;
      if Skips(l, it) {
        DrawSkip(l, tail, it, due);
        DrawAmounts(tail, it, due);
      } else {
        var used := Min(l.remaining, due);
        DrawTake(l, tail, it, due, used);
        DrawAmounts(tail, it, due - used);
        SumConcat([Move(it, Some(l), used)], Draw(tail, it, due - used).moves, Used);
        SumOne(Move(it, Some(l), used), Used);
      }
    }
  }

  lemma {:induction false} DrawSlices(lots: seq<Lot>, it: Item, due: real)
    ensures SlicesOf(Draw(lots, it, due).moves, it)
  {
    if lots != [] && due > 0.0 {
      var l, tail := lots[0], lots[1..];
      assert lots == [l] + tail;
      if Skips(l, it) {
        DrawSkip(l, tail, it, due);
        DrawSlices(tail, it, due);
      } else {
        var used := Min(l.remaining, due);
        DrawTake(l, tail, it, due, used);
        DrawSlices(tail, it, due - used);
      }
    }
  }

  lemma {:induction false} DrawSameLots(lots: seq<Lot>, it: Item, due: real)
    ensures SameLots(lots, Draw(lots, it, due).lots)
  {
    if lots != [] && due > 0.0 {
      var l, tail := lots[0], lots[1..];
      assert lots == [l] + tail;
      if Skips(l, it) {
        DrawSkip(l, tail, it, due);
        DrawSameLots(tail, it, due);
      } else {
        var used := Min(l.remaining, due);
        DrawTake(l, tail, it, due, used);
        DrawSameLots(tail, it, due - used);
      }
    }
  }

  lemma SoundFront(l: Lot, tail: seq<Lot>)
    ensures SoundLots([l] + tail) <==> 0.0 <= l.remaining <= l.original && 0.0 < l.original && SoundLots(tail)
  {
    assert l in [l] + tail && forall k <- tail :: k in [l] + tail;
  }

  lemma {:induction false} DrawSound(lots: seq<Lot>, it: Item, due: real)
    requires SoundLots(lots)
    ensures SoundLots(Draw(lots, it, due).lots)
  {
    if lots != [] && due > 0.0 {
      var l, tail := lots[0], lots[1..];
      assert lots == [l] + tail;
      SoundFront(l, tail);
      if Skips(l, it) {
        DrawSkip(l, tail, it, due);
        DrawSound(tail, it, due);
        SoundFront(l, Draw(tail, it, due).lots);
      } else {
        var used := Min(l.remaining, due);
        DrawTake(l, tail, it, due, used);
        DrawSound(tail, it, due - used);
        SoundFront(l.(remaining := l.remaining - used), Draw(tail, it, due - used).lots);
      }
    }
  }

  lemma DrawFacts(lots: seq<Lot>, it: Item, due: real)
    requires due >= 0.0
    ensures var d := Draw(lots, it, due);
            && SameLots(lots, d.lots)
            && SlicesOf(d.moves, it)
            && 0.0 <= d.rest
            && Sum(d.moves, Used) + d.rest == due
            && (SoundLots(lots) ==> SoundLots(d.lots))
  {
    DrawAmounts(lots, it, due);
    DrawSlices(lots, it, due);
    DrawSameLots(lots, it, due);
    if SoundLots(lots) { DrawSound(lots, it, due); }
  }

  lemma {:induction false} DrawMovesFromLots(lots: seq<Lot>, it: Item, due: real)
    ensures forall m <- Draw(lots, it, due).moves :: m.lot.Some? && m.lot.value in lots
  {
    if lots != [] && due > 0.0 {
      var l := lots[0];
      if l.depot != it.depot || l.remaining <= 0.0 {
        DrawMovesFromLots(lots[1..], it, due);
      } else {
        DrawMovesFromLots(lots[1..], it, due - Min(l.remaining, due));
      }
    }
  }

  /** The sum over the lots has fallen by the sum over the slices. */
  ghost predicate Balances(lots: seq<Lot>, d: Drain, f: Lot -> real, g: Move -> real)
  {
    Sum(d.lots, f) == Sum(lots, f) - Sum(d.moves, g)
  }

  lemma BalancesSkip(l: Lot, tail: seq<Lot>, it: Item, due: real, f: Lot -> real, g: Move -> real)
    requires due > 0.0 && Skips(l, it) && Balances(tail, Draw(tail, it, due), f, g)
    ensures Balances([l] + tail, Draw([l] + tail, it, due), f, g)
  {
    DrawSkip(l, tail, it, due);
    SumFront(l, tail, f);
    SumFront(l, Draw(tail, it, due).lots, f);
  }

  lemma BalancesTake(l: Lot, tail: seq<Lot>, it: Item, due: real, used: real, f: Lot -> real, g: Move -> real)
    requires due > 0.0 && !Skips(l, it) && used == Min(l.remaining, due) && FallsBy(f, g, l, it, used)
    requires Balances(tail, Draw(tail, it, due - used), f, g)
    ensures Balances([l] + tail, Draw([l] + tail, it, due), f, g)
  {
    var r := Draw(tail, it, due - used);
    DrawTake(l, tail, it, due, used);
    SumFront(l, tail, f);
    SumFront(l.(remaining := l.remaining - used), r.lots, f);
    SumFront(Move(it, Some(l), used), r.moves, g);
  }

  lemma {:induction false} DrawLinear(lots: seq<Lot>, it: Item, due: real, f: Lot -> real, g: Move -> real)
    requires Linear(f, g)
    ensures Balances(lots, Draw(lots, it, due), f, g)
  {
    if lots != [] && due > 0.0 {
      var l, tail := lots[0], lots[1..];
      assert lots == [l] + tail;
      if Skips(l, it) {
        DrawLinear(tail, it, due, f, g);
        BalancesSkip(l, tail, it, due, f, g);
      } else {
        var used := Min(l.remaining, due);
        DrawLinear(tail, it, due - used, f, g);
        assert FallsBy(f, g, l, it, used);
        BalancesTake(l, tail, it, due, used, f, g);
      }
    }
  }

  lemma FilterOne<T>(x: T, p: T -> bool)
    ensures Filter([x], p) == if p(x) then [x] else []
  {
    FilterPush([], x, p);
    assert [] + [x] == [x];
  }

  lemma ByDepotFront(l: Lot, tail: seq<Lot>, d: string)
    ensures ByDepot([l] + tail, d) == (if l.depot == d then [l] else []) + ByDepot(tail, d)
  {
    FilterConcat([l], tail, Has(LotDepot, d));
    FilterOne(l, Has(LotDepot, d));
    assert LotDepot(l) == l.depot;
    assert [] + ByDepot(tail, d) == ByDepot(tail, d);
  }

  /** A draw looks at its own depot only: it commutes with the projection to that depot ... */
  lemma {:induction false} DrawOwnDepot(lots: seq<Lot>, it: Item, due: real)
    ensures var d, q := Draw(lots, it, due), Draw(ByDepot(lots, it.depot), it, due);
            ByDepot(d.lots, it.depot) == q.lots && d.moves == q.moves && d.rest == q.rest
  {
    if lots != [] && due > 0.0 {
      var l, tail := lots[0], lots[1..];
      var own := ByDepot(tail, it.depot);
      assert lots == [l] + tail;
      ByDepotFront(l, tail, it.depot);
      if Skips(l, it) {
        DrawSkip(l, tail, it, due);
        DrawOwnDepot(tail, it, due);
        ByDepotFront(l, Draw(tail, it, due).lots, it.depot);
        if l.depot == it.depot {
          DrawSkip(l, own, it, due);
        } else {
          assert [] + own == own;
        }
      } else {
        var used := Min(l.remaining, due);
        DrawTake(l, tail, it, due, used);
        DrawTake(l, own, it, due, used);
        DrawOwnDepot(tail, it, due - used);
        ByDepotFront(l.(remaining := l.remaining - used), Draw(tail, it, due - used).lots, it.depot);
      }
    }
  }

  /** ... and leaves every other depot alone. */
  lemma {:induction false} DrawOtherDepot(lots: seq<Lot>, it: Item, due: real, d: string)
    requires d != it.depot
    ensures ByDepot(Draw(lots, it, due).lots, d) == ByDepot(lots, d)
  {
    if lots != [] && due > 0.0 {
      var l, tail := lots[0], lots[1..];
      assert lots == [l] + tail;
      ByDepotFront(l, tail, d);
      if Skips(l, it) {
        DrawSkip(l, tail, it, due);
        DrawOtherDepot(tail, it, due, d);
        ByDepotFront(l, Draw(tail, it, due).lots, d);
      } else {
        var used := Min(l.remaining, due);
        DrawTake(l, tail, it, due, used);
        DrawOtherDepot(tail, it, due - used, d);
        ByDepotFront(l.(remaining := l.remaining - used), Draw(tail, it, due - used).lots, d);
      }
    }
  }

  // ---- what every run keeps ----

  ghost predicate SoundMoves(moves: seq<Move>)
  {
    forall m <- moves :: m.item.amount > 0.0 && m.used > 0.0 && Disposes(m.item.kind) &&
                         (m.lot.Some? ==> m.lot.value.depot == m.item.depot)
  }

  lemma BlockSound(lots: seq<Lot>, it: Item)
    requires it.amount > 0.0 && Disposes(it.kind)
    ensures SoundMoves(Block(Draw(lots, it, it.amount), it))
    ensures forall m <- Block(Draw(lots, it, it.amount), it) :: m.item == it
  {
    DrawFacts(lots, it, it.amount);
  }

  lemma {:induction false} RunSound(items: seq<Item>)
    ensures SoundLots(Run(items).lots) && SoundMoves(Run(items).moves)
  {
    if items != [] {
      var s, it := Run(items[..|items| - 1]), items[|items| - 1];
      RunSound(items[..|items| - 1]);
      if it.amount > 0.0 && Disposes(it.kind) {
        DrawFacts(s.lots, it, it.amount);
        BlockSound(s.lots, it);
      }
    }
  }

  /** A quantity that a lot keeps for life is, at every moment of every run, what is still open plus
      what has been drawn. */
  lemma {:induction false} Conservation(items: seq<Item>, whole: Lot -> real, open: Lot -> real, drawn: Move -> real)
    requires Linear(open, drawn)
    requires forall l: Lot, r: real :: whole(l.(remaining := r)) == whole(l)
    requires forall l: Lot :: l.remaining == l.original ==> open(l) == whole(l)
    requires forall m: Move :: m.lot.None? ==> drawn(m) == 0.0
    ensures Sum(Run(items).lots, whole) == Sum(Run(items).lots, open) + Sum(Run(items).moves, drawn)
  {
    if items != [] {
      var s, it := Run(items[..|items| - 1]), items[|items| - 1];
      Conservation(items[..|items| - 1], whole, open, drawn);
      if it.amount > 0.0 && Acquires(it.kind) {
        SumPush(s.lots, NewLot(it), whole);
        SumPush(s.lots, NewLot(it), open);
      } else if it.amount > 0.0 && Disposes(it.kind) {
        var d := Draw(s.lots, it, it.amount);
        DrawFacts(s.lots, it, it.amount);
        DrawLinear(s.lots, it, it.amount, open, drawn);
        SameLotsSum(s.lots, d.lots, whole);
        BlockSum(d, it, drawn);
        SumConcat(s.moves, Block(d, it), drawn);
      }
    }
  }

  lemma {:induction false} SameLotsSum(a: seq<Lot>, b: seq<Lot>, whole: Lot -> real)
    requires SameLots(a, b)
    requires forall l: Lot, r: real :: whole(l.(remaining := r)) == whole(l)
    ensures Sum(a, whole) == Sum(b, whole)
  {
    if a != [] {
      var n := |a| - 1;
      SameLotsSum(a[..n], b[..n], whole);
      assert whole(a[n].(remaining := 0.0)) == whole(a[n]);
      assert whole(b[n].(remaining := 0.0)) == whole(b[n]);
    }
  }

  lemma BlockSum(d: Drain, it: Item, f: Move -> real)
    ensures Sum(Block(d, it), f) == Sum(d.moves, f) + if d.rest > 0.0 then f(Move(it, None, d.rest)) else 0.0
  {
    if d.rest > 0.0 {
      SumPush(d.moves, Move(it, None, d.rest), f);
    } else {
      assert Block(d, it) == d.moves;
    }
  }

  function OriginalIn(d: string): Lot -> real { (l: Lot) => if l.depot == d then l.original else 0.0 }
  function RemainingOf(d: string): Lot -> real { (l: Lot) => if l.depot == d then l.remaining else 0.0 }
  function DrawnFrom(d: string): Move -> real
  {
    (m: Move) => if m.lot.Some? && m.lot.value.depot == d then m.used else 0.0
  }

  /** BTC conservation in every depot: acquired = open + matched against lots. */
  lemma BtcConserved(items: seq<Item>, d: string)
    ensures Sum(Run(items).lots, OriginalIn(d)) ==
            Sum(Run(items).lots, RemainingOf(d)) + Sum(Run(items).moves, DrawnFrom(d))
  {
    Conservation(items, OriginalIn(d), RemainingOf(d), DrawnFrom(d));
  }

  /** BTC conservation over all depots. */
  lemma TotalBtcConserved(items: seq<Item>)
    ensures Sum(Run(items).lots, Original) == Sum(Run(items).lots, Remaining) + Sum(Run(items).moves, Drawn)
  {
    Conservation(items, Original, Remaining, Drawn);
  }

  lemma InvestedFalls(c: string, l: Lot, it: Item, u: real)
    ensures FallsBy(InvestedIn(c), UsedBasisIn(c), l, it, u)
  {
    assert (l.remaining - u) * l.unitBasis == l.remaining * l.unitBasis - u * l.unitBasis;
  }

  lemma LinearInvested(c: string)
    ensures Linear(InvestedIn(c), UsedBasisIn(c))
  {
    forall l: Lot, it: Item, u: real ensures FallsBy(InvestedIn(c), UsedBasisIn(c), l, it, u) {
      InvestedFalls(c, l, it, u);
    }
  }

  /** Fiat conservation per currency: acquisition basis incl. fees = open invested basis + basis drawn. */
  lemma BasisConserved(items: seq<Item>, c: string)
    ensures Sum(Run(items).lots, BasisIn(c)) ==
            Sum(Run(items).lots, InvestedIn(c)) + Sum(Run(items).moves, UsedBasisIn(c))
  {
    LinearInvested(c);
    Conservation(items, BasisIn(c), InvestedIn(c), UsedBasisIn(c));
  }

  /** What a priced acquisition costs, fee included. */
  function PaidIn(c: string): Item -> real
  {
    (x: Item) => if c != "" && x.amount > 0.0 && (x.kind.Purchase? || x.kind.Income?) && x.currency == c
                 then x.amount * x.price + x.fee else 0.0
  }

  lemma NewLotBasis(it: Item, c: string)
    requires it.amount > 0.0 && Acquires(it.kind)
    ensures BasisIn(c)(NewLot(it)) == PaidIn(c)(it)
  {
    var paid := it.amount * it.price + it.fee;
    assert it.amount * (paid / it.amount) == paid;
  }

  lemma StepBasis(s: State, it: Item, c: string)
    ensures Sum(Step(s, it).lots, BasisIn(c)) == Sum(s.lots, BasisIn(c)) + PaidIn(c)(it)
  {
    if it.amount > 0.0 && Acquires(it.kind) {
      SumPush(s.lots, NewLot(it), BasisIn(c));
      NewLotBasis(it, c);
    } else if it.amount > 0.0 && Disposes(it.kind) {
      DrawSameLots(s.lots, it, it.amount);
      SameLotsSum(s.lots, Draw(s.lots, it, it.amount).lots, BasisIn(c));
    }
  }

  /** The basis carried by the lots is exactly what the ledger rows paid. */
  lemma {:induction false} BasisIsPaid(items: seq<Item>, c: string)
    ensures Sum(Run(items).lots, BasisIn(c)) == Sum(items, PaidIn(c))
  {
    if items != [] {
      BasisIsPaid(items[..|items| - 1], c);
      StepBasis(Run(items[..|items| - 1]), items[|items| - 1], c);
    }
  }

  // ---- one disposal ----

  lemma BlockUsed(lots: seq<Lot>, it: Item)
    requires it.amount > 0.0
    ensures Sum(Block(Draw(lots, it, it.amount), it), Used) == it.amount
  {
    DrawFacts(lots, it, it.amount);
    BlockSum(Draw(lots, it, it.amount), it, Used);
  }

  ghost predicate Priced(it: Item) { it.kind.Sale? || (!it.isFee && RefPriced(it)) }

  /** Net proceeds per BTC. */
  function UnitProceeds(it: Item): real
    requires it.amount > 0.0
  {
    it.price - it.fee / it.amount
  }

  /** Each slice yields net proceeds at this price. */
  predicate YieldsAt(m: Move, unit: real) { ProceedsOf(m) == Times(unit, m.used) }

  lemma ProceedsPerBtc(m: Move)
    requires m.item.amount > 0.0 && Priced(m.item)
    ensures YieldsAt(m, UnitProceeds(m.item))
  {
    assert m.item.fee * m.used / m.item.amount == m.item.fee / m.item.amount * m.used;
  }

  lemma TimesAdds(u: real, a: real, b: real)
    ensures Times(u, a + b) == Times(u, a) + Times(u, b)
  {
  }

  lemma {:induction false} BlockProceeds(b: seq<Move>, unit: real)
    requires forall m <- b :: YieldsAt(m, unit)
    ensures Sum(b, ProceedsOf) == Times(unit, Sum(b, Used))
  {
    if b != [] {
      BlockProceeds(b[..|b| - 1], unit);
      assert YieldsAt(b[|b| - 1], unit);
      TimesAdds(unit, Sum(b[..|b| - 1], Used), b[|b| - 1].used);
    }
  }

  lemma UnitTimesAmount(it: Item)
    requires it.amount > 0.0
    ensures Times(UnitProceeds(it), it.amount) == it.amount * it.price - it.fee
  {
    assert it.fee / it.amount * it.amount == it.fee;
  }

  lemma PricedProceeds(b: seq<Move>, it: Item)
    requires it.amount > 0.0 && Priced(it) && forall m <- b :: m.item == it
    ensures Sum(b, ProceedsOf) == Times(UnitProceeds(it), Sum(b, Used))
  {
    forall m | m in b ensures YieldsAt(m, UnitProceeds(it)) { ProceedsPerBtc(m); }
    BlockProceeds(b, UnitProceeds(it));
  }

  lemma WholeProceeds(b: seq<Move>, it: Item)
    requires it.amount > 0.0 && Sum(b, Used) == it.amount
    requires forall m <- b :: m.item == it
    ensures Priced(it) ==> Sum(b, ProceedsOf) == it.amount * it.price - it.fee
    ensures it.kind.Expense? && it.isFee ==> Sum(b, ProceedsOf) == 0.0
  {
    if Priced(it) {
      PricedProceeds(b, it);
      UnitTimesAmount(it);
    } else if it.isFee {
      SumZero(b, ProceedsOf);
    }
  }

  /** Net proceeds over all slices of one disposal, the uncovered rest included, are exactly
      amount times price less the fee; a BTC fee yields nothing. */
  lemma DisposalProceeds(lots: seq<Lot>, it: Item)
    requires it.amount > 0.0 && Disposes(it.kind)
    ensures Priced(it) ==> Sum(Block(Draw(lots, it, it.amount), it), ProceedsOf) == it.amount * it.price - it.fee
    ensures it.kind.Expense? && it.isFee ==> Sum(Block(Draw(lots, it, it.amount), it), ProceedsOf) == 0.0
  {
    BlockUsed(lots, it);
    BlockSound(lots, it);
    WholeProceeds(Block(Draw(lots, it, it.amount), it), it);
  }

  /** Any slices split by resolution, by holding period and by cover. */
  lemma UsedSplits(p: Policy, b: seq<Move>)
    ensures Sum(b, ResolvedUsed) + Sum(b, UnresolvedUsed) == Sum(b, Used)
    ensures Sum(b, ClassUsed(p, LongTerm)) + Sum(b, ClassUsed(p, ShortTerm)) + Sum(b, ClassUsed(p, Unknown))
            == Sum(b, Used)
    ensures Sum(b, Drawn) + Sum(b, Oversold) == Sum(b, Used)
  {
    SumSplit(b, Used, ResolvedUsed, UnresolvedUsed);
    SumSplit(b, Used, Drawn, Oversold);
    var known := (m: Move) => ClassUsed(p, LongTerm)(m) + ClassUsed(p, ShortTerm)(m);
    SumSplit(b, known, ClassUsed(p, LongTerm), ClassUsed(p, ShortTerm));
    SumSplit(b, Used, known, ClassUsed(p, Unknown));
  }

  /** Every summary splits its amount without loss: by resolution, and by holding period. */
  lemma DisposalSplit(p: Policy, lots: seq<Lot>, it: Item)
    requires it.amount > 0.0
    ensures var b := Block(Draw(lots, it, it.amount), it);
            && Sum(b, ResolvedUsed) + Sum(b, UnresolvedUsed) == it.amount
            && Sum(b, ClassUsed(p, LongTerm)) + Sum(b, ClassUsed(p, ShortTerm))
               + Sum(b, ClassUsed(p, Unknown)) == it.amount
            && Sum(b, Drawn) + Sum(b, Oversold) == it.amount
  {
    BlockUsed(lots, it);
    UsedSplits(p, Block(Draw(lots, it, it.amount), it));
  }

  /** Realized gain is net proceeds minus basis over the resolved slices, and nothing else. */
  lemma GainIsProceedsLessBasis(moves: seq<Move>, c: string)
    ensures Sum(moves, GainIn(c)) ==
            Sum(Filter(moves, ResolvedIn(c)), ProceedsOf) - Sum(Filter(moves, ResolvedIn(c)), CostOf)
  {
    var rs := Filter(moves, ResolvedIn(c));
    SumFilter(moves, ResolvedIn(c), GainOf, GainIn(c));
    SumSplit(rs, ProceedsOf, GainOf, CostOf);
  }

  function ResolvedIn(c: string): Move -> bool { (m: Move) => m.item.currency == c && IsResolved(m) }
}

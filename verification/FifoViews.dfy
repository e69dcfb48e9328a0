/** What different readings of one ledger have in common: one depot against all depots, one row order
    against another, and a holding policy with a tax cutoff against the same policy without. */
module FifoViews {
  import opened Sums
  import opened Sorting
  import opened Ledger
  import opened Fifo
  import opened FifoLaws
  import opened FifoDiscipline

  // ---- depot independence ----

  function MovesOf(moves: seq<Move>, d: string): seq<Move> { Filter(moves, Has(MoveDepot, d)) }
  function ItemsOf(items: seq<Item>, d: string): seq<Item> { Filter(items, Has(ItemDepot, d)) }
  function Restrict(s: State, d: string): State { State(ByDepot(s.lots, d), MovesOf(s.moves, d)) }

  lemma MovesOfBlock(moves: seq<Move>, block: seq<Move>, it: Item, d: string)
    requires forall m <- block :: m.item == it
    ensures MovesOf(moves + block, d) == MovesOf(moves, d) + if it.depot == d then block else []
  {
    FilterConcat(moves, block, Has(MoveDepot, d));
    forall m | m in block ensures Has(MoveDepot, d)(m) <==> it.depot == d {
      assert MoveDepot(m) == m.item.depot;
    }
    if it.depot == d { FilterAll(block, Has(MoveDepot, d)); } else { FilterNone(block, Has(MoveDepot, d)); }
  }

  lemma RestrictStep(s: State, it: Item, d: string)
    ensures Restrict(Step(s, it), d) == if it.depot == d then Step(Restrict(s, d), it) else Restrict(s, d)
  {
    if it.amount > 0.0 && Acquires(it.kind) {
      QueuePush(s.lots, NewLot(it), d);
      assert ByDepot(s.lots, d) + [] == ByDepot(s.lots, d);
    } else if it.amount > 0.0 && Disposes(it.kind) {
      var draw := Draw(s.lots, it, it.amount);
      BlockSound(s.lots, it);
      MovesOfBlock(s.moves, Block(draw, it), it, d);
      if it.depot == d {
        DrawOwnDepot(s.lots, it, it.amount);
      } else {
        DrawOtherDepot(s.lots, it, it.amount, d);
        assert MovesOf(s.moves, d) + [] == MovesOf(s.moves, d);
      }
    }
  }

  lemma ItemsOfPush(items: seq<Item>, it: Item, d: string)
    ensures ItemsOf(items + [it], d) == ItemsOf(items, d) + if it.depot == d then [it] else []
  {
    assert ItemDepot(it) == it.depot;
    FilterPush(items, it, Has(ItemDepot, d));
  }

  /** The run over one depot's rows is exactly the unscoped run seen from that depot,
      however the rows of other depots are interleaved. */
  lemma {:induction false} DepotIndependence(items: seq<Item>, d: string)
    ensures Run(ItemsOf(items, d)) == Restrict(Run(items), d)
  {
    if items != [] {
      var n := |items| - 1;
      DepotIndependence(items[..n], d);
      RestrictStep(Run(items[..n]), items[n], d);
      assert items == items[..n] + [items[n]];
      ItemsOfPush(items[..n], items[n], d);
      if items[n].depot == d {
        RunPush(ItemsOf(items[..n], d), items[n]);
      } else {
        assert ItemsOf(items[..n], d) + [] == ItemsOf(items[..n], d);
      }
    }
  }

  lemma {:induction false} FilterSame<T>(xs: seq<T>, p: T -> bool, q: T -> bool)
    requires forall x <- xs :: p(x) == q(x)
    ensures Filter(xs, p) == Filter(xs, q)
  {
    if xs != [] { FilterSame(xs[..|xs| - 1], p, q); }
  }

  lemma ScopeIsProjection(entries: seq<Entry>, d: string)
    ensures RunItems(entries, Some(d)) == ItemsOf(RunItems(entries, None), d)
  {
    var all := Sort(Expand(entries), ItemLe);
    FilterAll(all, Scoped(None));
    forall x | x in all ensures Scoped(Some(d))(x) == Has(ItemDepot, d)(x) {
      assert ItemDepot(x) == x.depot;
    }
    FilterSame(all, Scoped(Some(d)), Has(ItemDepot, d));
  }

  /** `fifo_result(entries, d)` has exactly the lots and matches of the unscoped result for depot d. */
  lemma ScopedResult(entries: seq<Entry>, d: string)
    ensures Run(RunItems(entries, Some(d))) == Restrict(Run(RunItems(entries, None)), d)
  {
    ScopeIsProjection(entries, d);
    DepotIndependence(RunItems(entries, None), d);
  }

  // ---- totals over depots ----

  ghost function SumOver<T>(keys: seq<string>, xs: seq<T>, key: T -> string, f: T -> real): real
  {
    if keys == [] then 0.0
    else SumOver(keys[..|keys| - 1], xs, key, f) + Sum(Filter(xs, Has(key, keys[|keys| - 1])), f)
  }

  ghost predicate Distinct<T>(xs: seq<T>) { forall i, j :: 0 <= i < j < |xs| ==> xs[i] != xs[j] }

  function OnKeys<T>(keys: seq<string>, key: T -> string, f: T -> real): T -> real
  {
    (x: T) => if key(x) in keys then f(x) else 0.0
  }
  function OnKey<T>(k: string, key: T -> string, f: T -> real): T -> real
  {
    (x: T) => if key(x) == k then f(x) else 0.0
  }

  lemma {:induction false} SumOverKeys<T>(keys: seq<string>, xs: seq<T>, key: T -> string, f: T -> real)
    requires Distinct(keys)
    ensures SumOver(keys, xs, key, f) == Sum(xs, OnKeys(keys, key, f))
  {
    if keys == [] {
      SumZero(xs, OnKeys(keys, key, f));
    } else {
      var n := |keys| - 1;
      var k := keys[n];
      SumOverKeys(keys[..n], xs, key, f);
      SumFilter(xs, Has(key, k), f, OnKey(k, key, f));
      assert keys == keys[..n] + [k];
      SumSplit(xs, OnKeys(keys, key, f), OnKeys(keys[..n], key, f), OnKey(k, key, f));
    }
  }

  /** Any total of the unscoped run is the sum of the same total over its depots. */
  lemma SumOverAllKeys<T>(keys: seq<string>, xs: seq<T>, key: T -> string, f: T -> real)
    requires Distinct(keys) && forall x <- xs :: key(x) in keys
    ensures SumOver(keys, xs, key, f) == Sum(xs, f)
  {
    SumOverKeys(keys, xs, key, f);
    SumSame(xs, OnKeys(keys, key, f), f);
  }

  // ---- order independence ----

  /** No two list positions share a key. */
  ghost predicate DistinctKeys<T, K>(xs: seq<T>, key: T -> K)
  {
    forall i, j :: 0 <= i < j < |xs| ==> key(xs[i]) != key(xs[j])
  }

  lemma {:induction false} ExpandConcat(a: seq<Entry>, b: seq<Entry>)
    ensures Expand(a + b) == Expand(a) + Expand(b)
  {
    if b == [] {
      assert a + b == a;
    } else {
      var n := |b| - 1;
      assert (a + b)[..|a + b| - 1] == a + b[..n];
      ExpandConcat(a, b[..n]);
    }
  }

  lemma ExpandOnly(e: Entry)
    ensures Expand([e]) == ExpandOne(e)
  {
    assert [e][..0] == [];
  }

  lemma ExpandAround(pre: seq<Entry>, e: Entry, post: seq<Entry>)
    ensures multiset(Expand(pre + [e] + post)) == multiset(Expand(pre + post)) + multiset(ExpandOne(e))
  {
    ExpandConcat(pre + [e], post);
    ExpandConcat(pre, [e]);
    ExpandConcat(pre, post);
    ExpandOnly(e);
  }

  /** A list element, with the list seen as what is before and after it. */
  lemma TakeOut<T>(xs: seq<T>, x: T) returns (j: nat)
    requires x in xs
    ensures j < |xs| && xs == xs[..j] + [x] + xs[j + 1..]
    ensures multiset(xs[..j] + xs[j + 1..]) == multiset(xs) - multiset{x}
  {
    j :| 0 <= j < |xs| && xs[j] == x;
    assert xs == xs[..j] + [x] + xs[j + 1..];
  }

  lemma {:induction false} FilterPermutes<T>(xs: seq<T>, ys: seq<T>, p: T -> bool)
    requires multiset(xs) == multiset(ys)
    ensures multiset(Filter(xs, p)) == multiset(Filter(ys, p))
    decreases |xs|
  {
    SameElements(xs, ys);
    if xs != [] {
      var x := xs[|xs| - 1];
      assert x in ys;
      var j := TakeOut(ys, x);
      var pre, post := ys[..j], ys[j + 1..];
      DropLast(xs);
      FilterPermutes(xs[..|xs| - 1], pre + post, p);
      FilterAround(pre, x, post, p);
      FilterConcat(pre, post, p);
    }
  }

  lemma {:induction false} ExpandPermutes(a: seq<Entry>, b: seq<Entry>)
    requires multiset(a) == multiset(b)
    ensures multiset(Expand(a)) == multiset(Expand(b))
    decreases |a|
  {
    SameElements(a, b);
    if a != [] {
      var e := a[|a| - 1];
      assert e in b;
      var j := TakeOut(b, e);
      var pre, post := b[..j], b[j + 1..];
      DropLast(a);
      ExpandPermutes(a[..|a| - 1], pre + post);
      ExpandAround(pre, e, post);
      assert Expand(a) == Expand(a[..|a| - 1]) + ExpandOne(e);
    }
  }

  lemma TwoOccurrences<T>(xs: seq<T>, i: nat, j: nat)
    requires i < j < |xs| && xs[i] == xs[j]
    ensures multiset(xs)[xs[i]] >= 2
  {
    assert xs == xs[..j] + ([xs[j]] + xs[j + 1..]);
    assert xs[i] in xs[..j];
  }

  lemma OccursAgain<T>(xs: seq<T>, x: T)
    requires multiset(xs)[x] >= 2
    ensures exists a, b :: 0 <= a < b < |xs| && xs[a] == x && xs[b] == x
  {
    assert x in xs;
    var a :| 0 <= a < |xs| && xs[a] == x;
    assert xs == xs[..a] + [x] + xs[a + 1..];
    assert multiset(xs) == multiset(xs[..a]) + multiset{x} + multiset(xs[a + 1..]);
    if x in multiset(xs[..a]) {
      var b :| 0 <= b < a && xs[b] == x;
    } else {
      assert x in xs[a + 1..];
      var b :| a < b < |xs| && xs[b] == x;
    }
  }

  /** Distinct keys survive a permutation. */
  lemma DistinctPermuted<T, K>(xs: seq<T>, ys: seq<T>, key: T -> K)
    requires multiset(xs) == multiset(ys) && DistinctKeys(xs, key)
    ensures DistinctKeys(ys, key)
  {
    SameElements(xs, ys);
    forall i, j | 0 <= i < j < |ys| ensures key(ys[i]) != key(ys[j]) {
      if ys[i] == ys[j] {
        TwoOccurrences(ys, i, j);
        OccursAgain(xs, ys[i]);
      }
      assert ys[i] in xs && ys[j] in xs;
    }
  }

  lemma SortedStrict(items: seq<Item>)
    requires Sorted(items, ItemLe) && DistinctKeys(items, ItemKey)
    ensures Strict(items, ItemLe)
  {
    forall i, j | 0 <= i < j < |items| ensures ItemLe(items[i], items[j]) && !ItemLe(items[j], items[i]) {
      KeyTotal(ItemKey(items[i]), ItemKey(items[j]));
      assert ItemKey(items[i]) != ItemKey(items[j]);
    }
  }

  lemma StrictDistinct(items: seq<Item>)
    requires Strict(items, ItemLe)
    ensures DistinctKeys(items, ItemKey)
  {
    forall i, j | 0 <= i < j < |items| ensures ItemKey(items[i]) != ItemKey(items[j]) {
      assert ItemLe(items[i], items[j]) && !ItemLe(items[j], items[i]);
    }
  }

  /** As long as no two rows tie on instant, direction and id (unique ids are enough), the result does
      not depend on the order the ledger rows are stored in. */
  lemma OrderIndependence(a: seq<Entry>, b: seq<Entry>, scope: Option<string>)
    requires multiset(a) == multiset(b) && DistinctKeys(Expand(a), ItemKey)
    ensures RunItems(a, scope) == RunItems(b, scope)
  {
    var x, y := Sort(Expand(a), ItemLe), Sort(Expand(b), ItemLe);
    ExpandPermutes(a, b);
    SortPermutes(Expand(a), ItemLe);
    SortPermutes(Expand(b), ItemLe);
    ItemOrder();
    SortSorts(Expand(a), ItemLe);
    SortSorts(Expand(b), ItemLe);
    DistinctPermuted(Expand(a), x, ItemKey);
    DistinctPermuted(Expand(a), y, ItemKey);
    SortedStrict(x);
    SortedStrict(y);
    StrictUnique(x, y, ItemLe);
  }

  // ---- chronology ----

  /** A lot shows the sort key of the row that acquired it. */
  function LotKey(l: Lot): Key { Key(TimeKey(l.at), Outgoing(l.kind), l.entryId) }

  /** A lot belongs to a row of the run. */
  lemma {:induction false} LotFrom(items: seq<Item>, l: Lot)
    requires l in Run(items).lots
    ensures exists x <- items :: x.depot == l.depot && x.at == l.at && ItemKey(x) == LotKey(l)
  {
    if items != [] {
      var n := |items| - 1;
      var s, it := Run(items[..n]), items[n];
      if it.amount > 0.0 && Acquires(it.kind) {
        if l == NewLot(it) { assert items[n] in items; } else { LotFrom(items[..n], l); }
      } else if it.amount > 0.0 && Disposes(it.kind) {
        DrawSameLots(s.lots, it, it.amount);
        var k :| 0 <= k < |Run(items).lots| && Run(items).lots[k] == l;
        assert s.lots[k].(remaining := 0.0) == l.(remaining := 0.0);
        LotFrom(items[..n], s.lots[k]);
      } else {
        LotFrom(items[..n], l);
      }
    }
  }

  /** A slice belongs to a row of the run, and so does the lot it is taken from. */
  lemma {:induction false} MoveFrom(items: seq<Item>, m: Move)
    requires m in Run(items).moves
    ensures m.item in items && m.item.amount > 0.0
    ensures m.lot.Some? ==> exists x <- items :: x.depot == m.lot.value.depot && x.at == m.lot.value.at
                                                 && ItemKey(x) == LotKey(m.lot.value)
  {
    var n := |items| - 1;
    var s, it := Run(items[..n]), items[n];
    if m in s.moves {
      MoveFrom(items[..n], m);
    } else {
      BlockSound(s.lots, it);
      DrawMovesFromLots(s.lots, it, it.amount);
      if m.lot.Some? { LotFrom(items[..n], m.lot.value); }
    }
  }

  ghost predicate InOrder(moves: seq<Move>)
  {
    forall m <- moves :: m.lot.Some? ==> TimeKey(m.lot.value.at) <= TimeKey(m.item.at)
  }

  ghost predicate LotsBy(lots: seq<Lot>, t: int) { forall l <- lots :: TimeKey(l.at) <= t }

  lemma {:induction false} Chronology(items: seq<Item>)
    requires Sorted(items, ItemLe)
    ensures InOrder(Run(items).moves)
    ensures items != [] ==> LotsBy(Run(items).lots, TimeKey(items[|items| - 1].at))
  {
    if items != [] {
      var n := |items| - 1;
      var s, it := Run(items[..n]), items[n];
      Chronology(items[..n]);
      assert LotsBy(s.lots, TimeKey(it.at)) by {
        if n > 0 { assert ItemLe(items[n - 1], items[n]); }
      }
      if it.amount > 0.0 && Disposes(it.kind) {
        DrawSameLots(s.lots, it, it.amount);
        DrawMovesFromLots(s.lots, it, it.amount);
        BlockSound(s.lots, it);
        StillBy(s.lots, Draw(s.lots, it, it.amount).lots, TimeKey(it.at));
      }
    }
  }

  lemma StillBy(a: seq<Lot>, b: seq<Lot>, t: int)
    requires SameLots(a, b) && LotsBy(a, t)
    ensures LotsBy(b, t)
  {
    forall l | l in b ensures TimeKey(l.at) <= t {
      var k :| 0 <= k < |b| && b[k] == l;
      assert a[k].(remaining := 0.0).at == b[k].(remaining := 0.0).at;
      assert a[k] in a;
    }
  }

  /** Every match against a lot pairs a disposal with an acquisition not later than it, so with
      parseable timestamps its holding period is never unknown. */
  lemma NoUnknownHolding(entries: seq<Entry>, scope: Option<string>, p: Policy, m: Move)
    requires m in Run(RunItems(entries, scope)).moves && m.lot.Some?
    requires m.lot.value.at.Some? && m.item.at.Some?
    ensures m.lot.value.at.value <= m.item.at.value
    ensures !MoveHolding(p, m).period.Unknown?
  {
    RunItemsSorted(entries, scope);
    Chronology(RunItems(entries, scope));
  }

  /** With every row parseable, the realized gain of a currency splits into long and short without rest. */
  lemma RealizedSplits(entries: seq<Entry>, scope: Option<string>, p: Policy, c: string)
    requires forall e <- entries :: e.at.Some?
    ensures var moves := Run(RunItems(entries, scope)).moves;
            Sum(moves, GainIn(c)) ==
            Sum(moves, ClassGainIn(p, LongTerm, c)) + Sum(moves, ClassGainIn(p, ShortTerm, c))
  {
    var items := RunItems(entries, scope);
    var moves := Run(items).moves;
    forall m | m in moves && m.lot.Some? ensures !MoveHolding(p, m).period.Unknown? {
      MoveFrom(items, m);
      var x :| x in items && x.at == m.lot.value.at;
      var disposal := RowOf(entries, scope, m.item);
      var acquisition := RowOf(entries, scope, x);
      NoUnknownHolding(entries, scope, p, m);
    }
    SumSplit(moves, GainIn(c), ClassGainIn(p, LongTerm, c), ClassGainIn(p, ShortTerm, c));
  }

  // ---- tax cutoff: a two-run property ----

  function BlockedOpen(p: Policy, asOf: int): Lot -> real
  {
    (l: Lot) => if HoldingDetails(p, l.at, Some(asOf)).blocked then l.remaining else 0.0
  }

  function Uncut(p: Policy): Policy { p.(cutoff := None) }

  /** Exactly when a lot is long-term: never if blocked, otherwise from its maturity on. */
  lemma LongTermIff(p: Policy, acquired: Option<Instant>, t: int)
    ensures HoldingDetails(p, acquired, Some(t)).period.LongTerm? <==>
            acquired.Some? && !Blocked(p.cutoff, acquired) && t >= acquired.value + Threshold(p) * DAY
  {
    if acquired.Some? {
      var days := Threshold(p);
      assert days * DAY >= 1 * DAY;
    }
  }

  /** For one reference instant, a cutoff moves open BTC from long to short and does nothing else. */
  lemma CutoffKeepsOpenBtc(p: Policy, lots: seq<Lot>, asOf: int)
    requires SoundLots(lots)
    ensures Sum(lots, OpenClass(p, asOf, LongTerm)) + Sum(lots, OpenClass(p, asOf, ShortTerm)) ==
            Sum(lots, OpenClass(Uncut(p), asOf, LongTerm)) + Sum(lots, OpenClass(Uncut(p), asOf, ShortTerm))
    ensures Sum(lots, OpenClass(p, asOf, LongTerm)) <= Sum(lots, OpenClass(Uncut(p), asOf, LongTerm))
    ensures Sum(lots, BlockedOpen(p, asOf)) <= Sum(lots, OpenClass(p, asOf, ShortTerm))
  {
    var both := (l: Lot) => OpenClass(p, asOf, LongTerm)(l) + OpenClass(p, asOf, ShortTerm)(l);
    var bothUncut := (l: Lot) => OpenClass(Uncut(p), asOf, LongTerm)(l) + OpenClass(Uncut(p), asOf, ShortTerm)(l);
    SumSplit(lots, both, OpenClass(p, asOf, LongTerm), OpenClass(p, asOf, ShortTerm));
    SumSplit(lots, bothUncut, OpenClass(Uncut(p), asOf, LongTerm), OpenClass(Uncut(p), asOf, ShortTerm));
    SumSame(lots, both, bothUncut);
    SumAtMost(lots, OpenClass(p, asOf, LongTerm), OpenClass(Uncut(p), asOf, LongTerm));
    SumAtMost(lots, BlockedOpen(p, asOf), OpenClass(p, asOf, ShortTerm));
  }

  /** The realized gain of a currency splits differently under a cutoff but sums to the same. */
  lemma CutoffKeepsRealized(p: Policy, moves: seq<Move>, c: string)
    ensures Sum(moves, ClassGainIn(p, LongTerm, c)) + Sum(moves, ClassGainIn(p, ShortTerm, c)) ==
            Sum(moves, ClassGainIn(Uncut(p), LongTerm, c)) + Sum(moves, ClassGainIn(Uncut(p), ShortTerm, c))
  {
    var both := (m: Move) => ClassGainIn(p, LongTerm, c)(m) + ClassGainIn(p, ShortTerm, c)(m);
    var bothUncut := (m: Move) => ClassGainIn(Uncut(p), LongTerm, c)(m) + ClassGainIn(Uncut(p), ShortTerm, c)(m);
    SumSplit(moves, both, ClassGainIn(p, LongTerm, c), ClassGainIn(p, ShortTerm, c));
    SumSplit(moves, bothUncut, ClassGainIn(Uncut(p), LongTerm, c), ClassGainIn(Uncut(p), ShortTerm, c));
    SumSame(moves, both, bothUncut);
  }

  /** Once long-term, always long-term; once blocked, never long-term. */
  lemma LongTermIsStable(p: Policy, acquired: Option<Instant>, t: int, later: int)
    requires t <= later
    ensures HoldingDetails(p, acquired, Some(t)).period.LongTerm? ==>
            HoldingDetails(p, acquired, Some(later)).period.LongTerm?
    ensures HoldingDetails(p, acquired, Some(t)).blocked ==>
            HoldingDetails(p, acquired, Some(later)).period.ShortTerm?
  {
  }
}

/** What sorting a list of rows does to the FIFO run over it: nothing, exactly when every disposal that moves
    behind another row moves behind purchases alone and was covered where it stood. */
module Displacement {
  import opened Sums
  import opened Sorting
  import opened Ledger
  import opened Fifo
  import opened FifoLaws
  import opened FifoViews

  predicate Sells(x: Item) { x.amount > 0.0 && Disposes(x.kind) }
  predicate Inert(x: Item) { x.amount <= 0.0 || (!Acquires(x.kind) && !Disposes(x.kind)) }

  /** No slice of the row is left uncovered. */
  ghost predicate NeverShort(moves: seq<Move>, x: Item) { forall m <- moves :: m.item == x ==> m.lot.Some? }

  /** `x` stands in front of `y`; if sorting swaps them, `x` is a disposal ... */
  predicate SellsBehind(x: Item, y: Item) { ItemLe(x, y) || Sells(x) }

  /** ... and it may move behind `y` without a trace. */
  ghost predicate MayPass(moves: seq<Move>, x: Item, y: Item)
  {
    ItemLe(x, y) || Inert(y) || (Acquires(y.kind) && NeverShort(moves, x))
  }

  ghost function Passes(moves: seq<Move>): (Item, Item) -> bool { (x: Item, y: Item) => MayPass(moves, x, y) }

  // ---- the slices of a run, row by row ----

  lemma {:induction false} MovesGrow(items: seq<Item>, k: nat)
    requires k <= |items|
    ensures Run(items[..k]).moves <= Run(items).moves
    decreases |items|
  {
    if k < |items| {
      var n := |items| - 1;
      MovesGrow(items[..n], k);
      assert items[..n][..k] == items[..k];
    } else {
      assert items[..k] == items;
    }
  }

  /** The slices after the first `k` rows belong to later rows. */
  lemma {:induction false} LaterMoves(items: seq<Item>, k: nat, p: nat)
    requires k <= |items| && |Run(items[..k]).moves| <= p < |Run(items).moves|
    ensures exists i :: k <= i < |items| && Run(items).moves[p].item == items[i]
    decreases |items|
  {
    assert items[..|items|] == items;
    if k < |items| {
      var n := |items| - 1;
      var s, it := Run(items[..n]), items[n];
      assert items[..n][..k] == items[..k];
      if p < |s.moves| {
        LaterMoves(items[..n], k, p);
        var i :| k <= i < n && s.moves[p].item == items[..n][i];
        MovesGrow(items, n);
      } else {
        BlockSound(s.lots, it);
        assert Run(items).moves[p] in Block(Draw(s.lots, it, it.amount), it);
      }
    }
  }

  ghost predicate NoRepeats(items: seq<Item>) { DistinctKeys(items, ItemKey) }

  /** The slices of rows before position `k` come first, those of the others after. */
  lemma MoveCut(items: seq<Item>, k: nat, i: nat, p: nat)
    requires NoRepeats(items) && k <= |items| && i < |items|
    requires p < |Run(items).moves| && Run(items).moves[p].item == items[i]
    ensures i < k <==> p < |Run(items[..k]).moves|
  {
    MovesGrow(items, k);
    if p < |Run(items[..k]).moves| {
      assert Run(items[..k]).moves[p] == Run(items).moves[p];
      MoveFrom(items[..k], Run(items).moves[p]);
      var j :| 0 <= j < k && items[..k][j] == items[i];
      assert ItemKey(items[j]) == ItemKey(items[i]);
    } else {
      LaterMoves(items, k, p);
      var j :| k <= j < |items| && items[j] == items[i];
      assert ItemKey(items[j]) == ItemKey(items[i]);
    }
  }

  function BlockAt(items: seq<Item>, i: nat): seq<Move>
    requires i < |items|
  {
    Block(Draw(Run(items[..i]).lots, items[i], items[i].amount), items[i])
  }

  lemma RunNext(items: seq<Item>, i: nat)
    requires i < |items|
    ensures Run(items[..i + 1]) == Step(Run(items[..i]), items[i])
  {
    assert items[..i + 1][..i] == items[..i];
  }

  /** A disposal leaves slices behind. */
  lemma HasMove(items: seq<Item>, i: nat) returns (p: nat)
    requires i < |items| && Sells(items[i])
    ensures p < |Run(items).moves| && Run(items).moves[p].item == items[i]
  {
    var s := Run(items[..i]);
    RunNext(items, i);
    MovesGrow(items, i + 1);
    BlockUsed(s.lots, items[i]);
    BlockSound(s.lots, items[i]);
    p := |s.moves|;
    assert BlockAt(items, i) != [];
    assert Run(items[..i + 1]).moves[p] == BlockAt(items, i)[0];
    assert BlockAt(items, i)[0] in BlockAt(items, i);
  }

  /** A slice of a row lies in the row's own block. */
  lemma MoveInBlock(items: seq<Item>, i: nat, p: nat)
    requires NoRepeats(items) && i < |items|
    requires p < |Run(items).moves| && Run(items).moves[p].item == items[i]
    ensures Sells(items[i]) && Run(items).moves[p] in BlockAt(items, i)
  {
    MoveCut(items, i, i, p);
    MoveCut(items, i + 1, i, p);
    MovesGrow(items, i + 1);
    RunNext(items, i);
    assert Run(items[..i + 1]).moves[p] == Run(items).moves[p];
  }

  /** A row is short exactly when its draw leaves a rest. */
  lemma ShortIff(items: seq<Item>, i: nat)
    requires NoRepeats(items) && i < |items| && Sells(items[i])
    ensures NeverShort(Run(items).moves, items[i]) <==>
              Draw(Run(items[..i]).lots, items[i], items[i].amount).rest <= 0.0
  {
    var s, it := Run(items[..i]), items[i];
    if Draw(s.lots, it, it.amount).rest > 0.0 {
      ShortShows(items, i);
    } else {
      forall m | m in Run(items).moves && m.item == it ensures m.lot.Some? {
        var p :| 0 <= p < |Run(items).moves| && Run(items).moves[p] == m;
        MoveInBlock(items, i, p);
        DrawMovesFromLots(s.lots, it, it.amount);
      }
    }
  }

  lemma ShortShows(items: seq<Item>, i: nat)
    requires i < |items| && Sells(items[i])
    requires Draw(Run(items[..i]).lots, items[i], items[i].amount).rest > 0.0
    ensures !NeverShort(Run(items).moves, items[i])
    ensures var end := |Run(items[..i + 1]).moves|;
            && 0 < end <= |Run(items).moves|
            && Run(items).moves[end - 1].item == items[i] && Run(items).moves[end - 1].lot.None?
  {
    RunNext(items, i);
    MovesGrow(items, i + 1);
    var end := |Run(items[..i + 1]).moves|;
    assert Run(items[..i + 1]).moves[end - 1] == Move(items[i], None, Draw(Run(items[..i]).lots, items[i],
                                                                             items[i].amount).rest);
    assert Run(items).moves[end - 1] in Run(items).moves;
  }

  // ---- sufficient: a covered disposal and a purchase commute ----

  lemma {:induction false} DrawWithMore(lots: seq<Lot>, l: Lot, it: Item, due: real)
    requires Draw(lots, it, due).rest <= 0.0
    ensures var d, r := Draw(lots, it, due), Draw(lots + [l], it, due);
            r.lots == d.lots + [l] && r.moves == d.moves && r.rest == d.rest
  {
    if lots == [] {
      assert lots + [l] == [l];
    } else if due > 0.0 {
      var h, tail := lots[0], lots[1..];
      assert lots == [h] + tail && lots + [l] == [h] + (tail + [l]);
      if Skips(h, it) {
        DrawSkip(h, tail, it, due);
        DrawSkip(h, tail + [l], it, due);
        DrawWithMore(tail, l, it, due);
      } else {
        var used := Min(h.remaining, due);
        DrawTake(h, tail, it, due, used);
        DrawTake(h, tail + [l], it, due, used);
        DrawWithMore(tail, l, it, due - used);
      }
    }
  }

  lemma Commutes(s: State, sale: Item, buy: Item)
    requires Sells(sale) && buy.amount > 0.0 && Acquires(buy.kind)
    requires Draw(s.lots, sale, sale.amount).rest <= 0.0
    ensures Step(Step(s, sale), buy) == Step(Step(s, buy), sale)
  {
    DrawWithMore(s.lots, NewLot(buy), sale, sale.amount);
  }

  /** The row is a disposal that is covered where it stands. */
  ghost predicate CoveredIn(s: seq<Item>, k: nat)
    requires k < |s|
  {
    Sells(s[k]) && Draw(Run(s[..k]).lots, s[k], s[k].amount).rest <= 0.0
  }

  ghost predicate CoveredFrom(s: seq<Item>, start: nat) { forall k :: start <= k < |s| ==> CoveredIn(s, k) }

  lemma CoveredShorter(s: seq<Item>, start: nat)
    requires s != [] && CoveredFrom(s, start)
    ensures CoveredFrom(s[..|s| - 1], start)
  {
    var front := s[..|s| - 1];
    forall k | start <= k < |front| ensures CoveredIn(front, k) {
      assert CoveredIn(s, k) && front[..k] == s[..k];
    }
  }

  /** A row may be put in front of rows that it may pass. */
  lemma {:induction false} PutInFront(a: seq<Item>, x: Item, b: seq<Item>)
    requires Inert(x) || (x.amount > 0.0 && Acquires(x.kind) && CoveredFrom(a + b, |a|))
    ensures Run(a + [x] + b) == Step(Run(a + b), x)
    decreases |b|
  {
    if b == [] {
      assert a + [x] + b == a + [x] && a + b == a;
      RunPush(a, x);
    } else {
      var n := |b| - 1;
      var s := a + b[..n];
      assert a + [x] + b == (a + [x] + b[..n]) + [b[n]] && a + b == s + [b[n]] && (a + b)[..|a + b| - 1] == s;
      if !Inert(x) { CoveredShorter(a + b, |a|); }
      PutInFront(a, x, b[..n]);
      RunPush(a + [x] + b[..n], b[n]);
      RunPush(s, b[n]);
      if !Inert(x) {
        assert CoveredIn(a + b, |s|);
        Commutes(Run(s), b[n], x);
      }
    }
  }

  lemma {:induction false} InsertPlace<T(!new)>(xs: seq<T>, x: T, le: (T, T) -> bool) returns (k: nat)
    ensures k <= |xs| && Insert(xs, x, le) == xs[..k] + [x] + xs[k..]
    ensures forall i :: k <= i < |xs| ==> !le(xs[i], x)
  {
    var n := |xs| - 1;
    if xs == [] {
      k := 0;
    } else if le(xs[n], x) {
      k := |xs|;
    } else {
      k := InsertPlace(xs[..n], x, le);
      assert xs[..n][..k] == xs[..k] && xs[..n][k..] + [xs[n]] == xs[k..];
    }
  }

  /** What a row at the end may pass, seen from the sorted rows before it. */
  lemma LastMayPass(items: seq<Item>, s: seq<Item>, i: nat)
    requires items != [] && Sorted(items, SellsBehind) && Sorted(items, Passes(Run(items).moves))
    requires s == Sort(items[..|items| - 1], ItemLe) && Run(s) == Run(items[..|items| - 1])
    requires i < |s| && !ItemLe(s[i], items[|items| - 1]) && !Inert(items[|items| - 1])
    ensures Acquires(items[|items| - 1].kind)
    ensures CoveredIn(s, i)
  {
    var n := |items| - 1;
    SortPermutes(items[..n], ItemLe);
    SameElements(s, items[..n]);
    assert s[i] in items[..n];
    var j :| 0 <= j < n && items[..n][j] == s[i];
    assert SellsBehind(items[j], items[n]) && Passes(Run(items).moves)(items[j], items[n]);
    MovesGrow(items, n);
    forall m | m in Run(s).moves ensures m in Run(items).moves {}
    if Draw(Run(s[..i]).lots, s[i], s[i].amount).rest > 0.0 { ShortShows(s, i); }
  }

  lemma PrefixPasses(items: seq<Item>)
    requires items != [] && Sorted(items, Passes(Run(items).moves))
    ensures Sorted(items[..|items| - 1], Passes(Run(items[..|items| - 1]).moves))
  {
    var n := |items| - 1;
    MovesGrow(items, n);
    forall m | m in Run(items[..n]).moves ensures m in Run(items).moves {}
    forall i, j | 0 <= i < j < n ensures Passes(Run(items[..n]).moves)(items[i], items[j]) {
      assert Passes(Run(items).moves)(items[i], items[j]);
    }
  }

  /** All rows that the last one is sorted in front of. */
  lemma AllBehindPass(items: seq<Item>, s: seq<Item>, start: nat)
    requires items != [] && Sorted(items, SellsBehind) && Sorted(items, Passes(Run(items).moves))
    requires s == Sort(items[..|items| - 1], ItemLe) && Run(s) == Run(items[..|items| - 1])
    requires start < |s| && forall i :: start <= i < |s| ==> !ItemLe(s[i], items[|items| - 1])
    ensures var x := items[|items| - 1];
            Inert(x) || (x.amount > 0.0 && Acquires(x.kind) && CoveredFrom(s, start))
  {
    var x := items[|items| - 1];
    if !Inert(x) {
      forall i | start <= i < |s| ensures Acquires(x.kind) && CoveredIn(s, i) { LastMayPass(items, s, i); }
      assert CoveredIn(s, start);
    }
  }

  /** The last row, put in its place among the sorted rows before it. */
  lemma InsertKeepsRun(items: seq<Item>, s: seq<Item>)
    requires items != [] && Sorted(items, SellsBehind) && Sorted(items, Passes(Run(items).moves))
    requires s == Sort(items[..|items| - 1], ItemLe) && Run(s) == Run(items[..|items| - 1])
    ensures Run(Insert(s, items[|items| - 1], ItemLe)) == Step(Run(s), items[|items| - 1])
  {
    var x := items[|items| - 1];
    var k := InsertPlace(s, x, ItemLe);
    if k == |s| {
      assert s[..k] + [x] + s[k..] == s + [x];
      RunPush(s, x);
    } else {
      assert s == s[..k] + s[k..];
      AllBehindPass(items, s, k);
      PutInFront(s[..k], x, s[k..]);
    }
  }

  /** Rows that pass each other without a trace may be sorted. */
  lemma {:induction false} SortKeepsRun(items: seq<Item>)
    requires Sorted(items, SellsBehind) && Sorted(items, Passes(Run(items).moves))
    ensures Run(Sort(items, ItemLe)) == Run(items)
  {
    if items != [] {
      PrefixPasses(items);
      SortKeepsRun(items[..|items| - 1]);
      InsertKeepsRun(items, Sort(items[..|items| - 1], ItemLe));
    }
  }

  // ---- necessary ----

  /** Two disposals keep their order. */
  lemma SellersStay(xs: seq<Item>, ys: seq<Item>, i: nat, j: nat, k: nat, l: nat)
    requires NoRepeats(xs) && NoRepeats(ys) && Run(xs).moves == Run(ys).moves
    requires i < j < |xs| && k < |ys| && l < |ys| && xs[i] == ys[k] && xs[j] == ys[l]
    requires Sells(xs[i]) && Sells(xs[j])
    ensures k < l
  {
    var p := HasMove(xs, i);
    var q := HasMove(xs, j);
    MoveCut(xs, j, i, p);
    MoveCut(xs, j, j, q);
    assert ItemKey(xs[i]) != ItemKey(xs[j]);
    MoveCut(ys, k, l, q);
    MoveCut(ys, k, k, p);
  }

  lemma {:induction false} DrawnLotMoves(lots: seq<Lot>, it: Item, due: real, k: nat)
    requires k < |lots| == |Draw(lots, it, due).lots| && Draw(lots, it, due).lots[k] != lots[k]
    ensures exists m <- Draw(lots, it, due).moves :: m.lot == Some(lots[k])
  {
    if due > 0.0 {
      var h, tail := lots[0], lots[1..];
      assert lots == [h] + tail;
      if Skips(h, it) {
        DrawSkip(h, tail, it, due);
        DrawnLotMoves(tail, it, due, k - 1);
      } else {
        var used := Min(h.remaining, due);
        DrawTake(h, tail, it, due, used);
        if k == 0 {
          assert Move(it, Some(h), used) in Draw(lots, it, due).moves;
        } else {
          DrawnLotMoves(tail, it, due - used, k - 1);
          var m :| m in Draw(tail, it, due - used).moves && m.lot == Some(lots[k]);
          assert m in Draw(lots, it, due).moves;
        }
      }
    }
  }

  lemma SameLotKey(a: Lot, b: Lot)
    requires a.(remaining := 0.0) == b.(remaining := 0.0)
    ensures LotKey(a) == LotKey(b) && a.original == b.original && a.depot == b.depot
  {
    assert LotKey(a) == LotKey(a.(remaining := 0.0)) && LotKey(b) == LotKey(b.(remaining := 0.0));
    assert a.original == a.(remaining := 0.0).original && b.original == b.(remaining := 0.0).original;
    assert a.depot == a.(remaining := 0.0).depot && b.depot == b.(remaining := 0.0).depot;
  }

  /** What is missing from a lot was taken by slices. */
  lemma {:induction false} LotMoves(items: seq<Item>, k: nat)
    requires k < |Run(items).lots| && Run(items).lots[k].remaining != Run(items).lots[k].original
    ensures exists m <- Run(items).moves :: m.lot.Some? && LotKey(m.lot.value) == LotKey(Run(items).lots[k])
  {
    var n := |items| - 1;
    var s, it := Run(items[..n]), items[n];
    if Sells(it) {
      var d := Draw(s.lots, it, it.amount);
      DrawSameLots(s.lots, it, it.amount);
      SameLotKey(s.lots[k], d.lots[k]);
      if d.lots[k] != s.lots[k] {
        DrawnLotMoves(s.lots, it, it.amount, k);
        var m :| m in d.moves && m.lot == Some(s.lots[k]);
        assert m in Run(items).moves;
      } else {
        LotMoves(items[..n], k);
      }
    } else {
      LotMoves(items[..n], k);
    }
  }

  /** An acquired lot stays in the list. */
  lemma {:induction false} HasLot(items: seq<Item>, i: nat) returns (k: nat)
    requires i < |items| && items[i].amount > 0.0 && Acquires(items[i].kind)
    ensures k < |Run(items).lots|
    ensures var l := Run(items).lots[k]; LotKey(l) == ItemKey(items[i]) && l.original > 0.0 && l.depot == items[i].depot
  {
    var n := |items| - 1;
    var s, it := Run(items[..n]), items[n];
    if i == n {
      k := |s.lots|;
    } else {
      k := HasLot(items[..n], i);
      if Sells(it) {
        DrawSameLots(s.lots, it, it.amount);
        SameLotKey(s.lots[k], Draw(s.lots, it, it.amount).lots[k]);
      }
    }
  }

  lemma {:induction false} ShortEmpties(lots: seq<Lot>, it: Item, due: real)
    requires Draw(lots, it, due).rest > 0.0
    ensures forall l <- Draw(lots, it, due).lots :: l.depot == it.depot ==> l.remaining <= 0.0
  {
    if lots != [] {
      var h, tail := lots[0], lots[1..];
      assert lots == [h] + tail;
      if due > 0.0 {
        if Skips(h, it) {
          DrawSkip(h, tail, it, due);
          ShortEmpties(tail, it, due);
        } else {
          var used := Min(h.remaining, due);
          DrawTake(h, tail, it, due, used);
          ShortEmpties(tail, it, due - used);
        }
      }
    }
  }

  /** An uncovered disposal has drawn on every lot of its depot acquired before it. */
  lemma ShortDraws(items: seq<Item>, i: nat, j: nat) returns (p: nat)
    requires j < i < |items| && Sells(items[i]) && items[j].depot == items[i].depot
    requires Draw(Run(items[..i]).lots, items[i], items[i].amount).rest > 0.0
    requires items[j].amount > 0.0 && Acquires(items[j].kind)
    ensures p < |Run(items[..i + 1]).moves|
    ensures var m := Run(items[..i + 1]).moves[p]; m.lot.Some? && LotKey(m.lot.value) == ItemKey(items[j])
  {
    var prefix := items[..i + 1];
    RunNext(items, i);
    var k := HasLot(prefix, j);
    ShortEmpties(Run(items[..i]).lots, items[i], items[i].amount);
    assert Run(prefix).lots[k] in Draw(Run(items[..i]).lots, items[i], items[i].amount).lots;
    LotMoves(prefix, k);
    var m :| m in Run(prefix).moves && m.lot.Some? && LotKey(m.lot.value) == LotKey(Run(prefix).lots[k]);
    p :| 0 <= p < |Run(prefix).moves| && Run(prefix).moves[p] == m;
  }

  /** Nothing draws on a lot before it is acquired. */
  lemma DrawsLater(items: seq<Item>, j: nat, p: nat)
    requires NoRepeats(items) && j < |items| && p < |Run(items).moves|
    requires var m := Run(items).moves[p]; m.lot.Some? && LotKey(m.lot.value) == ItemKey(items[j])
    ensures |Run(items[..j]).moves| <= p
  {
    assert forall x <- items[..j] :: ItemKey(x) != ItemKey(items[j]);
    if p < |Run(items[..j]).moves| {
      MovesGrow(items, j);
      assert Run(items[..j]).moves[p] == Run(items).moves[p];
      MoveFrom(items[..j], Run(items[..j]).moves[p]);
    }
  }

  /** Not later than the last slice of an uncovered disposal, one draws on each lot of its depot acquired before. */
  lemma ShortSlices(items: seq<Item>, i: nat, j: nat) returns (p: nat, last: nat)
    requires j < i < |items| && Sells(items[i]) && items[j].depot == items[i].depot
    requires Draw(Run(items[..i]).lots, items[i], items[i].amount).rest > 0.0
    requires items[j].amount > 0.0 && Acquires(items[j].kind)
    ensures p <= last < |Run(items).moves| && Run(items).moves[last].item == items[i]
    ensures Run(items).moves[p].lot.Some? && LotKey(Run(items).moves[p].lot.value) == ItemKey(items[j])
  {
    p := ShortDraws(items, i, j);
    last := |Run(items[..i + 1]).moves| - 1;
    MovesGrow(items, i + 1);
    ShortShows(items, i);
    assert Run(items[..i + 1]).moves[p] == Run(items).moves[p];
  }

  /** A slice of a row comes before every slice drawn on a lot acquired after the row. */
  lemma SliceOrder(items: seq<Item>, i: nat, j: nat, p: nat, last: nat)
    requires NoRepeats(items) && i < j < |items| && p < |Run(items).moves| && last < |Run(items).moves|
    requires Run(items).moves[last].item == items[i]
    requires Run(items).moves[p].lot.Some? && LotKey(Run(items).moves[p].lot.value) == ItemKey(items[j])
    ensures last < p
  {
    DrawsLater(items, j, p);
    MoveCut(items, j, i, last);
  }

  /** A disposal that passes a purchase was covered. */
  lemma PasserCovered(xs: seq<Item>, ys: seq<Item>, i: nat, j: nat, k: nat, l: nat)
    requires NoRepeats(xs) && NoRepeats(ys) && Run(xs).moves == Run(ys).moves
    requires i < j < |xs| && l < k < |ys| && xs[i] == ys[k] && xs[j] == ys[l] && xs[i].depot == xs[j].depot
    requires Sells(xs[i]) && xs[j].amount > 0.0 && Acquires(xs[j].kind)
    ensures NeverShort(Run(xs).moves, xs[i])
  {
    ShortIff(ys, k);
    if Draw(Run(ys[..k]).lots, ys[k], ys[k].amount).rest > 0.0 {
      var p, last := ShortSlices(ys, k, l);
      SliceOrder(xs, i, j, p, last);
    }
  }

  lemma Earlier(ys: seq<Item>, k: nat, l: nat)
    requires Strict(ys, ItemLe) && k < |ys| && l < |ys| && k != l && !ItemLe(ys[k], ys[l])
    ensures l < k
  {
  }

  /** Sorted rows with the same run: each pair that changed places could do so without a trace. */
  lemma SameRunPasses(xs: seq<Item>, ys: seq<Item>, d: string)
    requires multiset(xs) == multiset(ys) && Strict(ys, ItemLe) && NoRepeats(xs)
    requires (forall x <- xs :: x.depot == d) && Sorted(xs, SellsBehind) && Run(xs) == Run(ys)
    ensures Sorted(xs, Passes(Run(xs).moves))
  {
    SameElements(xs, ys);
    StrictDistinct(ys);
    forall i, j | 0 <= i < j < |xs| ensures Passes(Run(xs).moves)(xs[i], xs[j]) {
      if !ItemLe(xs[i], xs[j]) && !Inert(xs[j]) {
        assert SellsBehind(xs[i], xs[j]) && ItemKey(xs[i]) != ItemKey(xs[j]);
        assert xs[i] in ys && xs[j] in ys && xs[i] in xs && xs[j] in xs;
        var k, l :| 0 <= k < |ys| && ys[k] == xs[i] && 0 <= l < |ys| && ys[l] == xs[j];
        Earlier(ys, k, l);
        if Acquires(xs[j].kind) {
          PasserCovered(xs, ys, i, j, k, l);
        } else {
          SellersStay(xs, ys, i, j, k, l);
        }
      }
    }
  }

  /** Sorting a depot's rows keeps the run exactly when every pair it swaps passes without a trace. */
  lemma SortKeepsRunIff(xs: seq<Item>, ys: seq<Item>, d: string)
    requires multiset(xs) == multiset(ys) && Sorted(ys, ItemLe) && NoRepeats(xs)
    requires (forall x <- xs :: x.depot == d) && Sorted(xs, SellsBehind)
    ensures Run(xs) == Run(ys) <==> Sorted(xs, Passes(Run(xs).moves))
  {
    DistinctPermuted(xs, ys, ItemKey);
    SortedStrict(ys);
    if Run(xs) == Run(ys) { SameRunPasses(xs, ys, d); }
    if Sorted(xs, Passes(Run(xs).moves)) {
      var s := Sort(xs, ItemLe);
      SortKeepsRun(xs);
      ItemOrder();
      SortSorts(xs, ItemLe);
      SortPermutes(xs, ItemLe);
      DistinctPermuted(xs, s, ItemKey);
      SortedStrict(s);
      StrictUnique(s, ys, ItemLe);
    }
  }
}

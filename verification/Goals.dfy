/** When a BTC goal was first reached, and how the running balance behind it relates to FIFO. */
module Goals {
  import opened Sums
  import opened Sorting
  import opened Ledger
  import opened Fifo
  import opened FifoLaws
  import opened FifoViews

  /** What one row does to the running balance. */
  function Delta(e: Entry): real
  {
    (if Acquires(e.kind) then e.amount else if Outgoing(e.kind) then -e.amount else 0.0)
    - (if e.feeAffectsStack then Max(e.feeBtc, 0.0) else 0.0)
  }

  function EntryScoped(scope: Option<string>): Entry -> bool { (e: Entry) => InScope(scope, e.depot) }

  /** The rows of the scope in ledger order. */
  function ScopedRows(entries: seq<Entry>, scope: Option<string>): seq<Entry>
  {
    Sort(Filter(entries, EntryScoped(scope)), EntryLe)
  }

  function BalanceAfter(rows: seq<Entry>, k: nat): real
    requires k < |rows|
  {
    Sum(rows[..k + 1], Delta)
  }

  ghost predicate FirstReach(rows: seq<Entry>, target: real, k: nat)
  {
    k < |rows| && BalanceAfter(rows, k) >= target && forall j :: 0 <= j < k ==> BalanceAfter(rows, j) < target
  }

  lemma BalanceStep(rows: seq<Entry>, k: nat)
    requires k < |rows|
    ensures Sum(rows[..k + 1], Delta) == Sum(rows[..k], Delta) + Delta(rows[k])
  {
    assert rows[..k + 1] == rows[..k] + [rows[k]];
    SumPush(rows[..k], rows[k], Delta);
  }

  method NextBalance(before: real, e: Entry) returns (balance: real)
    ensures balance == before + Delta(e)
  {
    balance := before;
    if Acquires(e.kind) {
      balance := balance + e.amount;
    } else if Outgoing(e.kind) {
      balance := balance - e.amount;
    }
    if e.feeAffectsStack { balance := balance - Max(e.feeBtc, 0.0); }
  }

  /** The first row, in ledger order, after which the balance stands at the target or above. */
  method GoalReachedAt(entries: seq<Entry>, target: real, scope: Option<string>) returns (reached: Option<nat>)
    ensures target <= 0.0 ==> reached == None
    ensures target > 0.0 && reached.Some? ==> FirstReach(ScopedRows(entries, scope), target, reached.value)
    ensures target > 0.0 && reached.None? ==>
              forall k :: 0 <= k < |ScopedRows(entries, scope)| ==> BalanceAfter(ScopedRows(entries, scope), k) < target
  {
    if target <= 0.0 { return None; }
    var rows := ScopedRows(entries, scope);
    var balance := 0.0;
    for i := 0 to |rows|
      invariant balance == Sum(rows[..i], Delta)
      invariant forall j :: 0 <= j < i ==> BalanceAfter(rows, j) < target
    {
      balance := NextBalance(balance, rows[i]);
      BalanceStep(rows, i);
      if balance >= target { return Some(i); }
    }
    return None;
  }

  /** Whenever a goal is reached, every lower goal is reached too, and no later. */
  lemma LowerGoalNoLater(rows: seq<Entry>, low: real, high: real, j: nat) returns (i: nat)
    requires low <= high && FirstReach(rows, high, j)
    ensures i <= j && FirstReach(rows, low, i)
  {
    i := 0;
    while BalanceAfter(rows, i) < low
      invariant i <= j && forall k :: 0 <= k < i ==> BalanceAfter(rows, k) < low
      decreases j - i
    {
      i := i + 1;
    }
  }

  // ---- the balance and FIFO ----

  function ItemDelta(x: Item): real
  {
    if x.amount <= 0.0 then 0.0 else if Acquires(x.kind) then x.amount else if Disposes(x.kind) then -x.amount else 0.0
  }

  lemma StepBalance(s: State, it: Item)
    ensures Sum(Step(s, it).lots, Remaining) - Sum(Step(s, it).moves, Oversold) ==
            Sum(s.lots, Remaining) - Sum(s.moves, Oversold) + ItemDelta(it)
  {
    if it.amount > 0.0 && Acquires(it.kind) {
      SumPush(s.lots, NewLot(it), Remaining);
    } else if it.amount > 0.0 && Disposes(it.kind) {
      var d := Draw(s.lots, it, it.amount);
      BlockUsed(s.lots, it);
      DrawLinear(s.lots, it, it.amount, Remaining, Drawn);
      BlockSum(d, it, Drawn);
      SumConcat(s.moves, Block(d, it), Oversold);
      SumSplit(Block(d, it), Used, Drawn, Oversold);
    }
  }

  lemma {:induction false} RunBalance(items: seq<Item>)
    ensures Sum(items, ItemDelta) == Sum(Run(items).lots, Remaining) - Sum(Run(items).moves, Oversold)
  {
    if items != [] {
      RunBalance(items[..|items| - 1]);
      StepBalance(Run(items[..|items| - 1]), items[|items| - 1]);
    }
  }

  lemma {:induction false} SumPermutes<T>(xs: seq<T>, ys: seq<T>, f: T -> real)
    requires multiset(xs) == multiset(ys)
    ensures Sum(xs, f) == Sum(ys, f)
    decreases |xs|
  {
    SameElements(xs, ys);
    if xs != [] {
      var x := xs[|xs| - 1];
      assert x in ys;
      var j := TakeOut(ys, x);
      var pre, post := ys[..j], ys[j + 1..];
      DropLast(xs);
      SumPermutes(xs[..|xs| - 1], pre + post, f);
      SumAround(pre, x, post, f);
    }
  }

  function ItemDeltaIn(scope: Option<string>): Item -> real
  {
    (x: Item) => if InScope(scope, x.depot) then ItemDelta(x) else 0.0
  }

  /** A BTC fee attached to a network-fee row: the balance subtracts it, FIFO has no disposal for it. */
  function ExtraFee(e: Entry): real { if e.kind.NetworkFee? && PaysBtcFee(e) then e.feeBtc else 0.0 }

  function DeltaIn(scope: Option<string>): Entry -> real
  {
    (e: Entry) => if InScope(scope, e.depot) then Delta(e) + ExtraFee(e) else 0.0
  }
  function BareDeltaIn(scope: Option<string>): Entry -> real
  {
    (e: Entry) => if InScope(scope, e.depot) then Delta(e) else 0.0
  }
  function ExtraFeeIn(scope: Option<string>): Entry -> real
  {
    (e: Entry) => if InScope(scope, e.depot) then ExtraFee(e) else 0.0
  }

  lemma ExpandOneDelta(e: Entry, scope: Option<string>)
    requires e.amount >= 0.0
    ensures Sum(ExpandOne(e), ItemDeltaIn(scope)) == DeltaIn(scope)(e)
  {
    SumOne(MainItem(e), ItemDeltaIn(scope));
    if AddsFee(e) {
      SumPush([MainItem(e)], FeeItem(e), ItemDeltaIn(scope));
      assert ExpandOne(e) == [MainItem(e)] + [FeeItem(e)];
    }
  }

  lemma {:induction false} ExpandDelta(rows: seq<Entry>, scope: Option<string>)
    requires forall e <- rows :: e.amount >= 0.0
    ensures Sum(Expand(rows), ItemDeltaIn(scope)) == Sum(rows, DeltaIn(scope))
  {
    if rows != [] {
      var n := |rows| - 1;
      ExpandDelta(rows[..n], scope);
      ExpandOneDelta(rows[n], scope);
      SumConcat(Expand(rows[..n]), ExpandOne(rows[n]), ItemDeltaIn(scope));
    }
  }

  /** The running balance after any rows, in whatever order: FIFO's open total, less what FIFO could
      not cover and less the extra fees of network-fee rows. */
  lemma BalanceLaw(rows: seq<Entry>, scope: Option<string>)
    requires forall e <- rows :: e.amount >= 0.0
    ensures var s := Run(RunItems(rows, scope));
            Sum(rows, BareDeltaIn(scope)) ==
            Sum(s.lots, Remaining) - Sum(s.moves, Oversold) - Sum(rows, ExtraFeeIn(scope))
  {
    var sorted := Sort(Expand(rows), ItemLe);
    RunBalance(RunItems(rows, scope));
    SumFilter(sorted, Scoped(scope), ItemDelta, ItemDeltaIn(scope));
    SortPermutes(Expand(rows), ItemLe);
    SumPermutes(sorted, Expand(rows), ItemDeltaIn(scope));
    ExpandDelta(rows, scope);
    SumSplit(rows, DeltaIn(scope), BareDeltaIn(scope), ExtraFeeIn(scope));
  }

  lemma {:induction false} SumPositive<T>(xs: seq<T>, f: T -> real, x: T)
    requires forall y <- xs :: f(y) >= 0.0
    requires x in xs && f(x) > 0.0
    ensures Sum(xs, f) > 0.0
  {
    var n := |xs| - 1;
    if x == xs[n] { SumNonNegative(xs[..n], f); } else { SumPositive(xs[..n], f, x); }
  }

  /** Fees that are never negative sum to zero exactly when each is zero. */
  lemma ExtraFeesIff(rows: seq<Entry>)
    ensures Sum(rows, ExtraFee) >= 0.0
    ensures Sum(rows, ExtraFee) == 0.0 <==> forall e <- rows :: ExtraFee(e) == 0.0
  {
    SumNonNegative(rows, ExtraFee);
    if forall e <- rows :: ExtraFee(e) == 0.0 {
      SumZero(rows, ExtraFee);
    } else {
      var e :| e in rows && ExtraFee(e) != 0.0;
      SumPositive(rows, ExtraFee, e);
    }
  }

  lemma BalanceInScope(rows: seq<Entry>, scope: Option<string>)
    requires forall e <- rows :: InScope(scope, e.depot)
    ensures Sum(rows, Delta) == Sum(rows, BareDeltaIn(scope)) && Sum(rows, ExtraFee) == Sum(rows, ExtraFeeIn(scope))
  {
    SumSame(rows, Delta, BareDeltaIn(scope));
    SumSame(rows, ExtraFee, ExtraFeeIn(scope));
  }

  lemma OversoldNonNegative(items: seq<Item>)
    ensures Sum(Run(items).moves, Oversold) >= 0.0
  {
    RunSound(items);
    SumNonNegative(Run(items).moves, Oversold);
  }

  /** On rows of the scope, the running balance equals FIFO's total over the same rows exactly when
      nothing was oversold and no network-fee row carries an extra fee. */
  lemma BalanceIsTotalIff(rows: seq<Entry>, scope: Option<string>)
    requires forall e <- rows :: e.amount >= 0.0 && InScope(scope, e.depot)
    ensures var s := Run(RunItems(rows, scope));
            Sum(rows, Delta) == Sum(s.lots, Remaining) <==>
            Sum(s.moves, Oversold) == 0.0 && forall e <- rows :: ExtraFee(e) == 0.0
  {
    BalanceLaw(rows, scope);
    BalanceInScope(rows, scope);
    OversoldNonNegative(RunItems(rows, scope));
    ExtraFeesIff(rows);
  }
}

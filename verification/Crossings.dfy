/** "Reached now" against "ever reached": FIFO's total in terms of running balances alone, and the exact
    condition under which every goal up to today's total has been reached by the balance. */
module Crossings {
  import opened Sums
  import opened Sorting
  import opened Ledger
  import opened Fifo
  import opened FifoViews
  import opened Troughs
  import opened Goals

  // ---- goals ----

  /** The running balance has crossed the target at some row. */
  ghost predicate EverReached(rows: seq<Entry>, target: real) { exists k: nat :: FirstReach(rows, target, k) }

  /** Some running balance stands at the level or above. */
  ghost predicate BalanceReaches(rows: seq<Entry>, level: real)
  {
    exists k: nat :: k < |rows| && BalanceAfter(rows, k) >= level
  }

  lemma EverReachedIs(rows: seq<Entry>, target: real)
    ensures EverReached(rows, target) <==> BalanceReaches(rows, target)
  {
    if BalanceReaches(rows, target) {
      var k: nat :| k < |rows| && BalanceAfter(rows, k) >= target;
      var i := 0;
      while BalanceAfter(rows, i) < target
        invariant i <= k && forall j :: 0 <= j < i ==> BalanceAfter(rows, j) < target
        decreases k - i
      {
        i := i + 1;
      }
      assert FirstReach(rows, target, i);
    }
    if EverReached(rows, target) {
      var k: nat :| FirstReach(rows, target, k);
      assert k < |rows| && BalanceAfter(rows, k) >= target;
    }
  }

  /** Every goal that FIFO's total meets has been reached by the balance. */
  ghost predicate ReachedMeansEverReached(entries: seq<Entry>, scope: Option<string>)
  {
    forall target: real :: 0.0 < target <= Sum(Run(RunItems(entries, scope)).lots, Remaining) ==>
      EverReached(ScopedRows(entries, scope), target)
  }

  /** "Reached now" implies "ever reached" for every goal exactly when some running balance stood at the sum
      over depots of final balance less trough, or that sum is zero. */
  lemma EverReachedIff(depots: seq<string>, entries: seq<Entry>, scope: Option<string>)
    requires Distinct(depots) && forall x <- RunItems(entries, scope) :: x.depot in depots
    ensures var level := Rise(depots, RunItems(entries, scope));
            ReachedMeansEverReached(entries, scope) <==>
            level <= 0.0 || BalanceReaches(ScopedRows(entries, scope), level)
  {
    var rows, level := ScopedRows(entries, scope), Rise(depots, RunItems(entries, scope));
    TotalIsRise(depots, RunItems(entries, scope));
    if level > 0.0 {
      EverReachedIs(rows, level);
      if BalanceReaches(rows, level) {
        var k: nat :| k < |rows| && BalanceAfter(rows, k) >= level;
        forall target: real | 0.0 < target <= level ensures EverReached(rows, target) {
          assert BalanceAfter(rows, k) >= target;
          EverReachedIs(rows, target);
        }
      }
    }
  }

  // ---- the same on ledger rows alone ----

  /** The rows in the order in which the goal walks them. */
  function LedgerRows(entries: seq<Entry>): seq<Entry> { ScopedRows(entries, None) }

  /** How far a depot's balance stands above its lowest value at the end of an instant. */
  function RowRiseIn(rows: seq<Entry>, d: string): real { RowBalance(rows, d) - EndTrough(rows, d, |rows|) }

  function RowRise(depots: seq<string>, rows: seq<Entry>): real
  {
    if depots == [] then 0.0
    else
      var d := depots[|depots| - 1];
      RowRise(depots[..|depots| - 1], rows) + RowRiseIn(rows, d)
  }

  lemma DepotOnRows(entries: seq<Entry>, d: string)
    requires forall e <- entries :: e.amount >= 0.0
    ensures RiseIn(RunItems(entries, None), d) == RowRiseIn(LedgerRows(entries), d)
  {
    var rows := LedgerRows(entries);
    KeepAll(entries, EntryScoped(None));
    SortPermutes(entries, EntryLe);
    SameElements(rows, entries);
    EntryOrder();
    SortSorts(entries, EntryLe);
    SortedRowsTrough(rows, entries, d);
  }

  lemma {:induction false} RiseOnRows(depots: seq<string>, entries: seq<Entry>)
    requires forall e <- entries :: e.amount >= 0.0
    ensures Rise(depots, RunItems(entries, None)) == RowRise(depots, LedgerRows(entries))
  {
    if depots != [] {
      RiseOnRows(depots[..|depots| - 1], entries);
      DepotOnRows(entries, depots[|depots| - 1]);
    }
  }

  lemma ItemDepots(entries: seq<Entry>, depots: seq<string>)
    requires forall e <- entries :: e.depot in depots
    ensures forall x <- RunItems(entries, None) :: x.depot in depots
  {
    SortPermutes(Expand(entries), ItemLe);
    SameElements(Sort(Expand(entries), ItemLe), Expand(entries));
    forall x | x in RunItems(entries, None) ensures x.depot in depots {
      var k := ComesFrom(entries, x);
    }
  }

  /** On ledger rows alone: the final balances less the lowest balances at the end of an instant, summed over the
      depots, are FIFO's total, and a goal can be met now without ever having been reached exactly when no running
      balance stood that high. */
  lemma EverReachedOnRows(depots: seq<string>, entries: seq<Entry>)
    requires Distinct(depots) && forall e <- entries :: e.depot in depots && e.amount >= 0.0
    ensures var rows := LedgerRows(entries);
            var level := RowRise(depots, rows);
            && Sum(Run(RunItems(entries, None)).lots, Remaining) == level
            && (ReachedMeansEverReached(entries, None) <==> level <= 0.0 || BalanceReaches(rows, level))
  {
    ItemDepots(entries, depots);
    RiseOnRows(depots, entries);
    TotalIsRise(depots, RunItems(entries, None));
    EverReachedIff(depots, entries, None);
  }

  lemma DepotRise(entries: seq<Entry>, d: string)
    requires forall e <- entries :: e.amount >= 0.0
    ensures var rows := LedgerRows(entries); Rise([d], RunItems(entries, Some(d))) == RowRiseIn(rows, d)
  {
    ScopeIsProjection(entries, d);
    TroughOwn(RunItems(entries, None), d);
    DepotOnRows(entries, d);
    assert [d][..0] == [];
  }

  lemma DepotItems(entries: seq<Entry>, d: string)
    ensures forall x <- RunItems(entries, Some(d)) :: x.depot in [d]
  {
    forall x | x in RunItems(entries, Some(d)) ensures x.depot in [d] { assert Scoped(Some(d))(x); }
  }

  /** The same for a goal of one depot. */
  lemma EverReachedInDepot(entries: seq<Entry>, d: string)
    requires forall e <- entries :: e.amount >= 0.0
    ensures var level := RowRiseIn(LedgerRows(entries), d);
            && Sum(Run(RunItems(entries, Some(d))).lots, Remaining) == level
            && (ReachedMeansEverReached(entries, Some(d)) <==>
                level <= 0.0 || BalanceReaches(ScopedRows(entries, Some(d)), level))
  {
    DepotItems(entries, d);
    DepotRise(entries, d);
    TotalIsRise([d], RunItems(entries, Some(d)));
    EverReachedIff([d], entries, Some(d));
  }

  // ---- a goal met now that was never reached ----

  /** One BTC sold, then one bought. */
  const SALE := Entry("s", Sale, Some(0), "main", 1.0, "EUR", 10.0, 0.0, 0.0, false)
  const PURCHASE := Entry("p", Purchase, Some(1), "main", 1.0, "EUR", 10.0, 0.0, 0.0, false)

  lemma UncoveredThenBought(a: Item, b: Item)
    requires a.amount > 0.0 && Disposes(a.kind) && b.amount > 0.0 && Acquires(b.kind)
    ensures Run([a, b]).lots == [NewLot(b)]
  {
    RunTwo(a, b);
    assert Step(EMPTY, a).lots == [];
    assert [] + [NewLot(b)] == [NewLot(b)];
  }

  lemma PairBalance(a: Entry, b: Entry)
    ensures BalanceAfter([a, b], 0) == Delta(a) && BalanceAfter([a, b], 1) == Delta(a) + Delta(b)
  {
    assert [a, b][..1] == [a] && [a, b][..2] == [a] + [b];
    SumOne(a, Delta);
    SumPush([a], b, Delta);
  }

  lemma PairRows(a: Entry, b: Entry)
    requires EntryLe(a, b)
    ensures ScopedRows([a, b], None) == [a, b]
  {
    KeepAll([a, b], EntryScoped(None));
    SortedPair(a, b, EntryLe);
  }

  /** The full computation shows a goal of one BTC as reached; the balance of the ledger never reaches it. */
  lemma OversoldGoalIsMissed()
    ensures Sum(Run(RunItems([SALE, PURCHASE], None)).lots, Remaining) == 1.0
    ensures !EverReached(ScopedRows([SALE, PURCHASE], None), 1.0)
    ensures !ReachedMeansEverReached([SALE, PURCHASE], None)
  {
    PlainPair(SALE, PURCHASE);
    UncoveredThenBought(MainItem(SALE), MainItem(PURCHASE));
    SumOne(NewLot(MainItem(PURCHASE)), Remaining);
    PairRows(SALE, PURCHASE);
    PairBalance(SALE, PURCHASE);
  }

  /** The witness, run. */
  method MissedGoal() returns (reached: Option<nat>)
    ensures reached == None
  {
    reached := GoalReachedAt([SALE, PURCHASE], 1.0, None);
    OversoldGoalIsMissed();
  }
}

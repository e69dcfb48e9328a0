# Bitcoin Stack Tracker: a verified model of its arithmetic

A Dafny model of the parts of the Bitcoin Stack Tracker integration that compute rather than move data:
the FIFO ledger, the one-pass daily snapshots, the reconciliation steps of three CSV importers, and the
causal buy-opportunity score. `dafny verify dfyconfig.toml` checks the whole project.

Conventions. BTC, fiat amounts, prices and scores are exact reals; instants are integers counting microseconds.
A list, dictionary or record that a Python function keeps in local variables is a local variable of
type `seq`, `map` or record here, and its loops are loops. Logarithm, exponential and square root are parameters
(`Maths.Maths`); `Maths.Lawful` lists the only laws the proofs use of them (order, logarithm of a quotient, inverse,
square of a root).
Clocks are parameters (`asOf`, `today`), and so is the tax cutoff, which the source keeps in a context variable.

## What is modelled

**FIFO ledger** (`Ledger`, `Fifo`, `FifoLaws`, `FifoDiscipline`, `FifoViews`, `FifoRecords`, `FifoEngine`,
`CutoffRuns`, `Goals`, `Troughs`, `Crossings`).
`Fifo.Run` is the specification: one list of lots in arrival order, one list of slices ("moves") taken from them.
`FifoEngine.FifoResult` is the program: per-depot lists, a cursor per depot, in-place consumption, accumulators and
match records, proved equal to the specification after every row. The laws are then proved of the specification for all
ledgers: conservation of BTC and of fiat basis, a closed form of "first in, first out" that mentions no algorithm,
independence of depots and of storage order, and what a tax cutoff may change.

**Daily snapshots** (`DailyState`, `DailyFifo`, `Displacement`, `DailyOrder`, `DailySnapshots`, `Purchases`, `FeeGap`,
`FeePlaces`). The second FIFO of the repository: one chronological pass with a maturity list and running totals. Lots
live in one list of cells, to which the depot queues and the maturity list point, as the shared dictionaries of the
source do. The main theorem is the contract of `DailySnapshots.DailySnapshots`: for every ledger and on every day each
figure is that of FIFO over the rows as the pass books them, and that of FIFO from scratch wherever no BTC fee leaves a
trace when it changes places. `FeePlaces` gives the exact conditions for totals, lots, slices and all figures of a day,
`FeeGap` the exact condition on BTC fees without a price.

**CSV reconciliation** (`Pending`, `PocketWindow`, `PocketTimeline`, `BitpandaFees`, `GreedyMatching`). From parsed
events on: Pocket's search for the group of purchases a withdrawal pays out and the allocation over a whole timeline,
Bitpanda's distribution of a fee in whole satoshis, and Wavespace's greedy assignment by score.

**Score** (`Rolling`, `Rsi`, `Maths`, `PowerLaw`, `Signals`, `Score`, `ScoreLaws`, `SignalOrder`, `ScoreMonotone`,
`PiCondition`, `ScoreRise`, `FlatWindow`). Every rolling series, the streaming regression and both implementations of
the daily score, each proved against its definition over a window; then no look-ahead, agreement of the two
implementations, bounds, and monotonicity in the current price with its exact condition.

`Sums` and `Sorting` hold what the rest shares.

Where the code does not meet what its comments promise, the code is kept, a counterexample is proved and the exact
condition is stated:

- The comment at `buy_opportunity.py:931-933` says that the score is monotone when only the current price changes. Over
  all weights and histories that needs a short pi average over no more days than the long one
  (`PiCondition.NeverRisesIff`); the settings allow the two to be swapped. For one history and two prices it then holds
  under every weighting exactly unless just one of the two prices makes the short window flat on a day on which the short
  deviation can be ranked (`PiCondition.FallsAlwaysIff`; for the signal alone `SignalOrder.ShortZRisesIff`, for its
  percentile `ScoreMonotone.ShortPercentileFallsIff`). On such a day some weighting makes the higher price score
  strictly higher exactly when another indicator lies on the far side of the short deviation that appears or vanishes
  (`ScoreRise.ClimbsIff`); under every model there is such a day (`FlatWindow.FlatWindowRises`).
- Pocket's search promises one unambiguous group. It keeps that promise on all pending lists whose purchases are at
  least `g` exactly if `g` is above two satoshis (`PocketWindow.ExactAboveTwoSatoshis`); for every `g` up to that there
  is a list on which it picks one of two (`PocketWindow.DustHidesRival`).
- The one pass is described as preserving exact FIFO semantics (`history.py:952-957`). It books a BTC fee right behind
  its row, where the full computation sorts it behind the other rows of its instant, and it skips a fee on a row that is
  not booked; the totals can then differ (`FeePlaces.FeeOrderDiffers`, `FeePlaces.UnbookedFeeDiffers`). On every ledger
  a depot's total agrees exactly when its balance stands equally high above its lowest value in both orders
  (`FeePlaces.TotalsAgreeIff`); on booked rows, exactly when the lowest running balance stands at the end of an instant
  (`FeePlaces.TotalsOnRowsIff`). Equal totals mean equal lots (`FeePlaces.LotsAgreeIff`), and with the realized gains
  they mean that all figures of the day agree (`FeePlaces.AgreesIff`). Lots and slices agree exactly when every displaced
  fee passes rows without BTC, or acquisitions after it was covered where it stands (`FeePlaces.BooksAgreeIff`).
- Where both agree otherwise, the realized gains differ by exactly the basis of BTC fees that name a currency but no
  price (`DailyState.BookedGap`). A row leaves the figures of all ledgers of otherwise priced fees alike exactly when
  its own fee is priced (`FeeGap.FiguresAlikeIff`); for every other one `FeeGap.UnpricedFeeDiffers` gives the ledger.
- A goal that FIFO shows as reached may never have been reached by the running balance (`Crossings.OversoldGoalIsMissed`).
  FIFO's total is the sum over depots of final balance less lowest balance at the end of an instant, and "reached now"
  implies "ever reached" for every goal exactly when some running balance stood that high
  (`Crossings.EverReachedOnRows`).

## Model

| member | source | states |
|---|---|---|
| `Ledger.ExpandEntries` | custom_components/bitcoin_stack_tracker/fifo.py:131-179 | appending row by row yields each row followed by its synthetic BTC-fee disposal, where it has one |
| `Ledger.ItemOrder` | custom_components/bitcoin_stack_tracker/fifo.py:15-33 | the sort key (instant, incoming before outgoing, id; unparseable instants last) is a total preorder |
| `Ledger.RunItemsSorted` | custom_components/bitcoin_stack_tracker/fifo.py:220-224 | the rows a run processes, scoped or not, are sorted by that key |
| `FifoEngine.FifoResult` | custom_components/bitcoin_stack_tracker/fifo.py:182-702 | for every ledger, scope, policy and reference instant: queues, cursors, matches, realized maps, fee maps and summaries are those of the functional run, and the reported totals are sums over all its lots |
| `FifoEngine.Process` | custom_components/bitcoin_stack_tracker/fifo.py:226-631 | one row carries the whole state from "run of the rows so far" to "run of the rows so far and this one"; rows without a positive amount or of another kind change nothing |
| `FifoEngine.Acquire` | custom_components/bitcoin_stack_tracker/fifo.py:234-261 | an acquisition appends one lot and its fee and leaves every other figure |
| `FifoEngine.Dispose` | custom_components/bitcoin_stack_tracker/fifo.py:263-631 | a disposal leaves queues, cursors, accumulators, fees and summary as the functional step does |
| `FifoEngine.Consume` | custom_components/bitcoin_stack_tracker/fifo.py:296-439 | the cursor loop yields exactly the drain of the whole queue, including the insufficient-stack row, and all lots before the new cursor are empty |
| `FifoEngine.Record` | custom_components/bitcoin_stack_tracker/fifo.py:354-400 | one match record keeps every running total equal to the sum over the slices it stands for |
| `FifoEngine.Summarise` | custom_components/bitcoin_stack_tracker/fifo.py:633-702 | totals over open lots only equal totals over all lots of the run; long, short and unknown add up to the total |
| `FifoEngine.SummariseCurrency` | custom_components/bitcoin_stack_tracker/fifo.py:722-757 | a currency summary is nine sums over the functional run |
| `FifoRecords.CountCorrect` | custom_components/bitcoin_stack_tracker/fifo.py:345-366 | counting a slice branch by branch gives the eleven sums of a disposal's summary |
| `FifoDiscipline.FifoClosedForm` | custom_components/bitcoin_stack_tracker/fifo.py:296-404 | what is left of the k-th lot of a depot is a formula over two ledger totals: FIFO without the algorithm |
| `FifoDiscipline.FifoOrder` | custom_components/bitcoin_stack_tracker/fifo.py:296-404 | no lot is touched while an earlier lot of its depot still holds BTC |
| `FifoDiscipline.UncoveredRest` | custom_components/bitcoin_stack_tracker/fifo.py:405-439 | the oversold part of a disposal is what exceeds acquired minus matched, and nothing else |
| `FifoDiscipline.ResumeAtCursor` | custom_components/bitcoin_stack_tracker/fifo.py:202-206 | starting at the cursor equals rescanning from the first lot |
| `FifoLaws.BtcConserved` | custom_components/bitcoin_stack_tracker/fifo.py:296-460 | per depot, on every run: acquired = open + matched |
| `FifoLaws.TotalBtcConserved` | custom_components/bitcoin_stack_tracker/fifo.py:296-460 | the same over all depots |
| `FifoLaws.DisposalSplit` | custom_components/bitcoin_stack_tracker/fifo.py:345-410 | resolved + unresolved = long + short + unknown = matched + oversold = amount, in every summary |
| `FifoLaws.BasisConserved` | custom_components/bitcoin_stack_tracker/fifo.py:241-260 | per currency: acquisition basis with fees = open invested basis + basis of consumed slices |
| `FifoLaws.BasisIsPaid` | custom_components/bitcoin_stack_tracker/fifo.py:234-261 | that basis is what the ledger rows paid |
| `FifoLaws.DisposalProceeds` | custom_components/bitcoin_stack_tracker/fifo.py:308-431 | net proceeds over all slices of a priced disposal, the uncovered one included, sum to amount × price − fee; fee disposals have none |
| `FifoLaws.GainIsProceedsLessBasis` | custom_components/bitcoin_stack_tracker/fifo.py:510-608 | realized gain = proceeds − basis over exactly the resolved slices |
| `FifoViews.DepotIndependence` | custom_components/bitcoin_stack_tracker/fifo.py:226-232 | running one depot's rows gives the unscoped run restricted to it, under any interleaving |
| `FifoViews.ScopedResult` | custom_components/bitcoin_stack_tracker/fifo.py:220-224 | the scoped computation has exactly the lots and slices of the unscoped one for that depot |
| `FifoViews.SumOverAllKeys` | custom_components/bitcoin_stack_tracker/fifo.py:633-702 | every unscoped total is the sum of the same total over the depots |
| `FifoViews.OrderIndependence` | custom_components/bitcoin_stack_tracker/fifo.py:15-33 | with unique sort keys the processed rows do not depend on the order of the stored list |
| `FifoViews.Chronology` | custom_components/bitcoin_stack_tracker/fifo.py:220-232 | every slice pairs a disposal with a lot that is not later in sort order |
| `FifoViews.NoUnknownHolding` | custom_components/bitcoin_stack_tracker/fifo.py:51-73 | a slice between parseable instants never has unknown holding status |
| `FifoViews.RealizedSplits` | custom_components/bitcoin_stack_tracker/fifo.py:510-608 | for every run over a ledger of parseable rows, realized = realized long + realized short, per currency |
| `FifoViews.LongTermIff` | custom_components/bitcoin_stack_tracker/holding_cutoff.py:63-107 | a lot is long-term exactly when it is parseable, not blocked and past its threshold |
| `FifoViews.CutoffKeepsOpenBtc` | custom_components/bitcoin_stack_tracker/holding_cutoff.py:109-138 | two runs, with and without cutoff: long + short is kept, long never grows, blocked lies within short |
| `FifoViews.CutoffKeepsRealized` | custom_components/bitcoin_stack_tracker/holding_cutoff.py:87-107 | the realized gain splits differently but sums to the same |
| `CutoffRuns.BooksCut` | custom_components/bitcoin_stack_tracker/holding_cutoff.py:87-128 | two runs over one ledger, with and without cutoff: the same lots, gains, fees and totals of unresolved and oversold BTC; matches differ only in the holding period of blocked lots; summaries only in how long and short share the same sum |
| `CutoffRuns.ReportCut` | custom_components/bitcoin_stack_tracker/holding_cutoff.py:87-138 | their reports: total, known and unknown are equal; open BTC moves from long to short by exactly the matured BTC of blocked lots |
| `FifoViews.LongTermIsStable` | custom_components/bitcoin_stack_tracker/holding_cutoff.py:87-107 | long-term stays long-term; blocked is never long-term later |
| `Goals.GoalReachedAt` | custom_components/bitcoin_stack_tracker/models.py:92-130 | the returned row is the first crossing; none means the balance stayed below on every row |
| `Goals.LowerGoalNoLater` | custom_components/bitcoin_stack_tracker/models.py:92-130 | a lower goal is reached whenever a higher one is, and no later |
| `Goals.BalanceLaw` | custom_components/bitcoin_stack_tracker/models.py:113-130 | on every row list, hence every prefix, balance = FIFO total − oversold − BTC fees that network-fee rows carry on top |
| `Goals.BalanceIsTotalIff` | custom_components/bitcoin_stack_tracker/models.py:113-130 | balance = FIFO total exactly when nothing is oversold and no network-fee row carries an extra fee |
| `Troughs.UnmatchedIsRise` | custom_components/bitcoin_stack_tracker/fifo.py:296-439 | per depot, acquired less matched = running balance less its lowest value: what FIFO holds, without FIFO |
| `Troughs.SameQueueIff` | custom_components/bitcoin_stack_tracker/fifo.py:296-404 | two row lists that acquire the same lots leave the same in every lot of a depot exactly when they leave the same in all, which running balances decide |
| `Troughs.SortedRowsTrough` | custom_components/bitcoin_stack_tracker/fifo.py:15-33 | in the full computation the lowest balance of a depot is that at the end of an instant, whatever fees the rows of the instant carry |
| `Troughs.TotalIsRise` | custom_components/bitcoin_stack_tracker/fifo.py:633-702 | FIFO's total is the sum of that rise over the depots |
| `Crossings.EverReachedIff` | custom_components/bitcoin_stack_tracker/__init__.py:562-577 | in every scope, "reached now" implies "ever reached" for all goals exactly when some running balance stood at that sum |
| `Crossings.EverReachedOnRows` | custom_components/bitcoin_stack_tracker/models.py:92-130 | the same on the ledger rows alone, without expansion or FIFO, over all depots: the level is the sum of final balance less lowest balance at the end of an instant |
| `Crossings.EverReachedInDepot` | custom_components/bitcoin_stack_tracker/models.py:92-130 | and for a goal of one depot |
| `Crossings.OversoldGoalIsMissed` | custom_components/bitcoin_stack_tracker/__init__.py:571-577 | counterexample: on the ledger "sell one, buy one" the full computation holds one BTC and the running balance never reaches one |
| `DailySnapshots.DailySnapshots` | custom_components/bitcoin_stack_tracker/history.py:946-1256 | for every ledger, each requested day's totals, per-depot totals, per-currency holdings, basis, gains and fees are those of FIFO over the rows as booked; where every BTC fee stands on a booked row and passes later rows without a trace, those of FIFO from scratch, with gains that leave out the basis of unpriced fees |
| `DailySnapshots.DayAgrees` | custom_components/bitcoin_stack_tracker/history.py:1214-1254 | where displaced BTC fees leave no trace, the figures of the rows as booked are those of the full computation, each depot's those of the scoped one |
| `DailySnapshots.StepDay` | custom_components/bitcoin_stack_tracker/history.py:1102-1214 | a day's loop takes exactly the rows up to its end and matures to its end |
| `DailyFifo.ProcessRow` | custom_components/bitcoin_stack_tracker/history.py:1112-1212 | one row, with its BTC fee consumed inline, carries the state from one functional run to the next |
| `DailyFifo.ConsumeLots` | custom_components/bitcoin_stack_tracker/history.py:1021-1080 | one disposal on the shared cells keeps queues, cursors, maturity list, totals and gains equal to the functional step |
| `DailyFifo.ConsumeTransactionFee` | custom_components/bitcoin_stack_tracker/history.py:1082-1096 | the inline fee equals the synthetic fee disposal |
| `DailyFifo.MatureUntil` | custom_components/bitcoin_stack_tracker/history.py:1002-1019 | the maturity position splits the lots exactly into long and short at the cutoff, and all long and short totals follow |
| `DailyFifo.AddAcquisition` | custom_components/bitcoin_stack_tracker/history.py:1123-1155 | a new lot enters cells, queue, maturity list and totals |
| `DailyState.TakeStock` | custom_components/bitcoin_stack_tracker/history.py:1045-1063 | every total that counts a lot falls with it and every other stays |
| `DailyState.BookGain` | custom_components/bitcoin_stack_tracker/history.py:1064-1072 | booking a slice keeps the gain totals, overall and per holding class, equal to the sums of the one-pass gains of all slices booked |
| `DailyState.FeesBookAlikeIff` | custom_components/bitcoin_stack_tracker/history.py:1082-1096 | both computations book a fee disposal alike for all lots exactly when a named currency comes with a price |
| `DailyState.BookedGap` | custom_components/bitcoin_stack_tracker/history.py:1064-1072 | over any slices, the gains of the one pass exceed those of the full computation by exactly the basis of fees that name the currency but no price |
| `FeeGap.PricedFeesAgree` | custom_components/bitcoin_stack_tracker/history.py:1159-1170 | with a price on every network fee that names a currency, all figures of each currency agree |
| `FeeGap.FiguresAlikeIff` | custom_components/bitcoin_stack_tracker/history.py:1159-1170 | a row leaves the one-pass and from-scratch figures of every ledger of otherwise priced network fees alike exactly when its own fee is priced or it has no instant |
| `FeeGap.UnpricedFeeDiffers` | custom_components/bitcoin_stack_tracker/history.py:1159-1170 | counterexample for every unpriced network fee: with its BTC bought in its currency before it, the fee is a loss of its basis from scratch and no loss in the snapshot |
| `Displacement.SortKeepsRunIff` | custom_components/bitcoin_stack_tracker/history.py:959-970 | sorting a depot's rows keeps lots and slices exactly when every disposal that moves behind a row moves behind one of no BTC, or behind an acquisition after being covered where it stood |
| `DailyOrder.SameRunIff` | custom_components/bitcoin_stack_tracker/history.py:1106-1212 | per depot, expanding sorted rows in place and sorting the expanded rows give the same lots and slices exactly when no pair of rows has a BTC fee that leaves a trace |
| `DailyOrder.CoveredOnRows` | custom_components/bitcoin_stack_tracker/history.py:1123-1157 | the fee of an acquisition is covered exactly when it takes the depot's running balance to no new low |
| `FeePlaces.TotalsAgreeIff` | custom_components/bitcoin_stack_tracker/history.py:1214-1254 | on every ledger a depot's total agrees with the full computation exactly when its balance stands equally high above its lowest value in both orders of the rows |
| `FeePlaces.TotalsOnRowsIff` | custom_components/bitcoin_stack_tracker/history.py:1123-1157 | on booked rows, exactly when the lowest running balance of the depot stands at the end of an instant |
| `FeePlaces.LotsAgreeIff` | custom_components/bitcoin_stack_tracker/history.py:1021-1063 | on every ledger a depot's lots agree one by one exactly when its totals do |
| `FeePlaces.BooksAgreeIff` | custom_components/bitcoin_stack_tracker/history.py:952-970 | with unique sort keys, lots and slices agree in every depot exactly when every BTC fee stands on a booked row and passes later rows without a trace |
| `FeePlaces.AgreesIff` | custom_components/bitcoin_stack_tracker/history.py:1214-1254 | on every ledger all figures of a day agree exactly when each depot's total and each currency's realized gains do |
| `Purchases.DayBuys` | custom_components/bitcoin_stack_tracker/history.py:959-970 | on every ledger, ties included, both computations acquire the same rows in the same order |
| `FeePlaces.FeeOrderDiffers` | custom_components/bitcoin_stack_tracker/history.py:1123-1157 | counterexample: two purchases at one instant, a fee on the first: five BTC in the snapshot, four from scratch |
| `FeePlaces.UnbookedFeeDiffers` | custom_components/bitcoin_stack_tracker/history.py:1117-1120 | counterexample: a BTC fee on a row of no BTC is skipped by the one pass and taken by the full computation |
| `DailySnapshots.SameSummary` | custom_components/bitcoin_stack_tracker/history.py:1226-1238 | the figures of a currency depend only on the lots and slices of each depot and on the currency fees |
| `PocketWindow.MatchingWindow` | custom_components/bitcoin_stack_tracker/csv_import.py:1149-1207 | a group is returned if and only if it is the chosen one |
| `PocketWindow.BisectLeft` | custom_components/bitcoin_stack_tracker/csv_import.py:1179-1183 | the first position whose prefix sum reaches the target |
| `PocketWindow.ChosenIsOptimal` | custom_components/bitcoin_stack_tracker/csv_import.py:1149-1207 | three ends per start suffice: the chosen group attains the least deviation of all contiguous groups |
| `PocketWindow.EmptyGroupIsSingle` | custom_components/bitcoin_stack_tracker/csv_import.py:852-866 | a returned group without BTC is a single purchase, so no share is divided by zero |
| `PocketWindow.UnambiguousIsChosen` | custom_components/bitcoin_stack_tracker/csv_import.py:810-866 | the only admissible group within two satoshis of the best is found |
| `PocketWindow.ChosenIffUnambiguous` | custom_components/bitcoin_stack_tracker/csv_import.py:810-866 | with every purchase above two satoshis, chosen means unambiguous among all contiguous groups, both ways |
| `PocketWindow.DustHidesRival` | custom_components/bitcoin_stack_tracker/csv_import.py:1174-1207 | for every purchase size of at most two satoshis, a list and an amount on which a group is returned although a rival is within tolerance |
| `PocketWindow.ExactAboveTwoSatoshis` | custom_components/bitcoin_stack_tracker/csv_import.py:1174-1207 | "returned if and only if unambiguous" holds on all lists with purchases of at least `g` if and only if `g` is above two satoshis |
| `PocketTimeline.Reconcile` | custom_components/bitcoin_stack_tracker/csv_import.py:868-917 | after the timeline, allocations, transports and pending list are those of a log in which each withdrawal pays the group chosen at its moment, or nothing because there is none |
| `PocketTimeline.Withdraw` | custom_components/bitcoin_stack_tracker/csv_import.py:1209-1254 | a matched withdrawal removes exactly its group, also from the middle; an unmatched one leaves everything |
| `PocketTimeline.Distribute` | custom_components/bitcoin_stack_tracker/csv_import.py:901-913 | the last purchase's remainder is its proportional share too; purchases of no BTC get nothing unless they are the whole group |
| `PocketTimeline.PaidOnce` | custom_components/bitcoin_stack_tracker/csv_import.py:868-917 | no purchase is in two groups |
| `PocketTimeline.PaidLater` | custom_components/bitcoin_stack_tracker/csv_import.py:868-917 | a purchase is paid only by a withdrawal after it, and a withdrawal pays once |
| `PocketTimeline.PayoutIsSpent` | custom_components/bitcoin_stack_tracker/csv_import.py:901-913 | allocations of a group sum exactly to the net BTC of its withdrawal |
| `BitpandaFees.AllocateFees` | custom_components/bitcoin_stack_tracker/csv_import.py:1424-1467 | the loop over all events closes batches as the specification does, with the same warnings |
| `BitpandaFees.FeeDistribution` | custom_components/bitcoin_stack_tracker/csv_import.py:1452-1467 | shares sum to the fee, are non-negative whole satoshis, and each differs from the exact share by at most max(1, n − 1) / 2 satoshi |
| `BitpandaFees.DistributeFee` | custom_components/bitcoin_stack_tracker/csv_import.py:1452-1467 | rounding, cap and remainder book exactly those shares |
| `BitpandaFees.OneFeePerPurchase` | custom_components/bitcoin_stack_tracker/csv_import.py:1429-1467 | over a run each purchase receives at most one batch's share and keeps it |
| `GreedyMatching.Assign` | custom_components/bitcoin_stack_tracker/csv_import.py:2561-2573 | the assignment is a matching, and every rejected pair has its event or row taken by a pair that is not later in score order |
| `GreedyMatching.PartnersDiffer` | custom_components/bitcoin_stack_tracker/csv_import.py:2607-2614 | no two events share a row |
| `GreedyMatching.Maximal` | custom_components/bitcoin_stack_tracker/csv_import.py:2638-2650 | no rejected pair has both sides free |
| `GreedyMatching.NoBlockingPair` | custom_components/bitcoin_stack_tracker/csv_import.py:2675-2682 | no candidate scores better than all chosen pairs on its event and row |
| `GreedyMatching.StableUnique` | custom_components/bitcoin_stack_tracker/csv_import.py:2692-2699 | there is only one such assignment |
| `Rolling.RollingMeanSeries` | custom_components/bitcoin_stack_tracker/buy_opportunity.py:321-332 | prefix sums give the mean of each full window |
| `Rolling.RollingStdSeries` | custom_components/bitcoin_stack_tracker/buy_opportunity.py:335-353 | squared prefix sums give the population deviation by its definition |
| `Rolling.VarianceFromSums` | custom_components/bitcoin_stack_tracker/buy_opportunity.py:349-351 | mean of squares minus squared mean is the variance and is never negative: the clamp never bites |
| `Rolling.RollingVolatilitySeries` | custom_components/bitcoin_stack_tracker/buy_opportunity.py:371-393 | annualized deviation of the window's log returns, without the first day's placeholder |
| `Rolling.RollingMaxSeries` | custom_components/bitcoin_stack_tracker/buy_opportunity.py:356-368 | the deque yields each window's maximum and pops each index at most once |
| `Rolling.PushDeque` | custom_components/bitcoin_stack_tracker/buy_opportunity.py:359-364 | indices rise, values fall strictly, and the front is the latest maximum of the window |
| `Rolling.DaysSinceRollingHighSeries` | custom_components/bitcoin_stack_tracker/buy_opportunity.py:500-512 | the distance to the latest occurrence of the window's maximum |
| `Rsi.RsiSeries` | custom_components/bitcoin_stack_tracker/buy_opportunity.py:396-419 | the two running averages follow Wilder's recurrence on every day |
| `Rsi.StrengthMonotone` | custom_components/bitcoin_stack_tracker/buy_opportunity.py:406-410 | more gain and less loss never lower the index, across its special cases without loss or movement |
| `Rsi.RsiBounded` | custom_components/bitcoin_stack_tracker/buy_opportunity.py:396-419 | every defined value lies in 0..100 |
| `PowerLaw.PowerLawFairSeries` | custom_components/bitcoin_stack_tracker/buy_opportunity.py:1455-1473 | on every day, five running sums give the two-pass least-squares fit of everything up to that day |
| `PowerLaw.RunningIsCentred` | custom_components/bitcoin_stack_tracker/buy_opportunity.py:1468-1472 | one-pass sums of squares and products equal the sums over deviations from the means |
| `PowerLaw.LeverageAtMostOne` | custom_components/bitcoin_stack_tracker/buy_opportunity.py:646-657 | no point pulls the line at its own place by more than it moves itself |
| `PowerLaw.ResidualRises` | custom_components/bitcoin_stack_tracker/buy_opportunity.py:636-664 | raising the last price never lowers its distance above the line it takes part in |
| `Signals.SignalTable` | custom_components/bitcoin_stack_tracker/buy_opportunity.py:1518-1538 | each of the thirteen series holds, on every day, the signal by its window definition |
| `Score.MainScoreSeries` | custom_components/bitcoin_stack_tracker/buy_opportunity.py:1476-1577 | every entry is the score by definition, with the two-pass fit in it |
| `Score.CalculateScore` | custom_components/bitcoin_stack_tracker/buy_opportunity.py:817-1034 | the unrounded total for today is the score by definition of the cut history; no price, no score |
| `ScoreLaws.ImplementationsAgree` | custom_components/bitcoin_stack_tracker/buy_opportunity.py:849-860 | the history cut at day i is the prefix up to i, and its score is the series' entry |
| `ScoreLaws.CompareImplementations` | custom_components/bitcoin_stack_tracker/buy_opportunity.py:1476-1577 | running both programs on any ordered history gives the same value on every day |
| `ScoreLaws.SignalCausal` | custom_components/bitcoin_stack_tracker/buy_opportunity.py:930-956 | each signal of day i depends on prices up to day i alone |
| `ScoreLaws.PercentileCausal` | custom_components/bitcoin_stack_tracker/buy_opportunity.py:422-446 | and so does its percentile |
| `ScoreLaws.NoLookAhead` | custom_components/bitcoin_stack_tracker/buy_opportunity.py:1476-1577 | appending later prices never changes an earlier score |
| `ScoreLaws.ScoreInRange` | custom_components/bitcoin_stack_tracker/buy_opportunity.py:1020-1034 | every defined score lies in 0..100 and the final clamp never changes it |
| `ScoreLaws.TotalInRange` | custom_components/bitcoin_stack_tracker/buy_opportunity.py:464-474 | so does every component, whatever the weights |
| `SignalOrder.SignalRises` | custom_components/bitcoin_stack_tracker/buy_opportunity.py:930-956 | raising only the last price lowers no signal and changes the existence of none, given nested averages and not just one of the prices making the short window flat |
| `SignalOrder.ShortZRisesIff` | custom_components/bitcoin_stack_tracker/buy_opportunity.py:948-949 | the self-included z-score rises with its own value if and only if none or both of the two prices make its window flat |
| `SignalOrder.ShortZDefinedIff` | custom_components/bitcoin_stack_tracker/buy_opportunity.py:948-949 | it exists exactly when a full window holds two different prices |
| `SignalOrder.PiRises` | custom_components/bitcoin_stack_tracker/buy_opportunity.py:950-953 | a ratio of nested averages rises with the last price |
| `ScoreMonotone.FairRatioRises` | custom_components/bitcoin_stack_tracker/buy_opportunity.py:981-983 | price over fair value rises with the price, although the price is part of the fit |
| `ScoreMonotone.PiecewiseFalls` | custom_components/bitcoin_stack_tracker/buy_opportunity.py:244-261 | interpolation through a falling curve never rises |
| `ScoreMonotone.PercentileFalls` | custom_components/bitcoin_stack_tracker/buy_opportunity.py:422-446 | a higher current value over the same history is not cheaper |
| `ScoreMonotone.ShortPercentileFallsIff` | custom_components/bitcoin_stack_tracker/buy_opportunity.py:422-446 | the percentile of the short deviation never rises with the price if and only if none or both of the two prices make the short window flat, or too few earlier days have a short deviation to rank against |
| `ScoreMonotone.TotalFalls` | custom_components/bitcoin_stack_tracker/buy_opportunity.py:989-1034 | indicators that do not rise, where they carry weight, give a total that does not rise |
| `ScoreMonotone.ScoreFalls` | custom_components/bitcoin_stack_tracker/buy_opportunity.py:930-1034 | with earlier prices fixed and nested averages, raising only the current price never raises the score and never makes it appear or vanish, unless the weighted short deviation is ranked and just one of the prices makes its window flat |
| `PiCondition.NeverRisesIff` | custom_components/bitcoin_stack_tracker/buy_opportunity.py:930-1034 | that holds for all weights and histories if and only if the short pi average covers no more days than the long one |
| `PiCondition.FallsAlwaysIff` | custom_components/bitcoin_stack_tracker/buy_opportunity.py:930-1034 | with nested averages, one history and two prices: under every weighting the score does not rise, if and only if the day has no score, the short deviation has no rank, or not just one of the prices makes the window flat |
| `PiCondition.ShortDeviationAloneIff` | custom_components/bitcoin_stack_tracker/buy_opportunity.py:464-474 | with all weight on the short deviation the score itself rises or vanishes exactly outside that condition |
| `ScoreRise.ClimbsIff` | custom_components/bitcoin_stack_tracker/buy_opportunity.py:930-1034 | with nested averages, one history and two prices: some weighting has a strictly higher score at the higher price exactly when the short deviation appears above another indicator or vanishes below one |
| `PiCondition.InvertedPiRises` | custom_components/bitcoin_stack_tracker/buy_opportunity.py:950-953 | otherwise, on a flat history, the score climbs from 0 to 100 while the price climbs from half to twice the flat price |
| `FlatWindow.FlatWindowRises` | custom_components/bitcoin_stack_tracker/buy_opportunity.py:948-949 | under every model, a history with a flat short window on which raising the price from 2 to 3 raises the score from 0 |

## Left out

- `Decimal` context rounding and floating-point error; only Bitpanda's rounding to whole satoshis is modelled, and every other quantity is an exact real.
- Timestamp text, time zones and ISO output: instants are given, an unparseable one is `None`; depot ids arrive normalized.
- The average-entry-price view, the "next lot to become long-term" fields, and holding-day counts of `fifo.py`: display figures.
- Overflow of `timedelta` for absurd holding periods.
- Framework and provider code, encryption, caching, export: input and output around the modelled arithmetic.
- CSV text: decoding, headers, locale numbers, dates, memos, notes and labels; the importers start from parsed events.
- The per-row exchange parsers (Coinbase, Kraken, Binance, Peach, Revolut X, Coinfinity): one-branch arithmetic.
- Wavespace candidate scoring: scores are given, the assignment over them is modelled once for all five uses.
- Turning points, market phase, ratings, indicator display and rounding, and the normalization of settings.
- The history parsing of the score: a history is one positive price per day in day order, as parsing leaves it, so the duplicate-day step after the cut is the identity and has no counterpart.
- Shared lot dictionaries of the snapshots: a cell list with positions stands for the references, so aliasing is explicit rather than by reference.
- The thirteen signal lists of the score are kept as one list of daily rows.
- DailySnapshots: the snapshots ignore the tax cutoff, so they are compared with the full computation without one.
- BooksAgreeIff: unique sort keys, as unique row ids give them; rows that tie in instant, direction and id keep the order of the stored list, and only `TotalsAgreeIff`, `LotsAgreeIff` and `AgreesIff` cover them.
- TotalsOnRowsIff: booked rows with amounts without sign; `TotalsAgreeIff` covers all ledgers over the expanded rows.
- Reconcile: amounts without sign, positive net amounts and distinct rows, as both parsers produce them.
- EverReachedOnRows: amounts without sign; for other ledgers `Crossings.EverReachedIff` states the condition over the expanded rows.
- Piecewise: curves with strictly rising points only, as the one the score uses; the sorting of arbitrary curves is not modelled.
- NeverRisesIff: the flat-window days of `PiCondition.FallsAlwaysIff` are excluded; `ScoreRise.ClimbsIff` says on which of them a score can rise.

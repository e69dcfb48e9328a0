/** The tax cutoff as a statement about two whole runs over one ledger, one with and one without it:
    what the cutoff may move from long to short, and that it changes nothing else. */
module CutoffRuns {
  import opened Sums
  import opened Ledger
  import opened Fifo
  import opened FifoLaws
  import opened FifoViews
  import opened FifoRecords
  import opened FifoEngine

  /** The match with a cutoff is the match without, except for the holding period of a blocked lot. */
  ghost predicate MatchCut(p: Policy, m: Match, uncut: Match)
  {
    && m.(holding := uncut.holding) == uncut
    && if Blocked(p.cutoff, uncut.purchaseAt) && !uncut.holding.period.Unknown?
       then m.holding.blocked && m.holding.period.ShortTerm?
       else m.holding == uncut.holding
  }

  /** Two tallies of one disposal differ at most in how long and short share what is classified. */
  ghost predicate SameButSplit(t: Tally, u: Tally)
  {
    && t.(long := u.long, short := u.short, longGain := u.longGain, shortGain := u.shortGain) == u
    && t.long + t.short == u.long + u.short && t.long <= u.long
    && t.longGain + t.shortGain == u.longGain + u.shortGain
  }

  ghost predicate SummaryCut(s: Summary, u: Summary)
  {
    s.(tally := u.tally, mix := u.mix) == u && SameButSplit(s.tally, u.tally)
  }

  ghost predicate SummariesCut(a: map<string, Summary>, b: map<string, Summary>)
  {
    a.Keys == b.Keys && forall k <- a.Keys :: SummaryCut(a[k], b[k])
  }

  lemma SplitTogether<T>(xs: seq<T>, a: T -> real, b: T -> real, c: T -> real, d: T -> real)
    requires forall x <- xs :: a(x) + b(x) == c(x) + d(x)
    ensures Sum(xs, a) + Sum(xs, b) == Sum(xs, c) + Sum(xs, d)
  {
    var both := (x: T) => a(x) + b(x);
    SumSplit(xs, both, a, b);
    SumSplit(xs, both, c, d);
  }

  lemma TallyCut(p: Policy, moves: seq<Move>)
    requires SoundMoves(moves)
    ensures SameButSplit(TallyOf(p, moves), TallyOf(Uncut(p), moves))
  {
    var q := Uncut(p);
    SplitTogether(moves, ClassUsed(p, LongTerm), ClassUsed(p, ShortTerm),
                  ClassUsed(q, LongTerm), ClassUsed(q, ShortTerm));
    SplitTogether(moves, ClassGain(p, LongTerm), ClassGain(p, ShortTerm),
                  ClassGain(q, LongTerm), ClassGain(q, ShortTerm));
    SumAtMost(moves, ClassUsed(p, LongTerm), ClassUsed(q, LongTerm));
    SumSame(moves, ClassUsed(p, Unknown), ClassUsed(q, Unknown));
  }

  lemma SummaryIsCut(it: Item, t: Tally, u: Tally)
    requires SameButSplit(t, u)
    ensures SummaryCut(SummaryOf(it, t), SummaryOf(it, u))
  {
    assert OutcomeOf(t) == OutcomeOf(u);
    var s := SummaryOf(it, t);
    assert s.tally == t && SummaryOf(it, u) == s.(tally := u, mix := MixOf(u));
  }

  lemma BlockCut(p: Policy, lots: seq<Lot>, it: Item) returns (t: Tally, u: Tally)
    requires it.amount > 0.0 && Disposes(it.kind)
    ensures t == TallyOf(p, Block(Draw(lots, it, it.amount), it))
    ensures u == TallyOf(Uncut(p), Block(Draw(lots, it, it.amount), it))
    ensures SameButSplit(t, u)
  {
    var block := Block(Draw(lots, it, it.amount), it);
    BlockSound(lots, it);
    TallyCut(p, block);
    t, u := TallyOf(p, block), TallyOf(Uncut(p), block);
  }

  lemma {:induction false} SummariesAreCut(p: Policy, items: seq<Item>, k: Disposition)
    ensures SummariesCut(Summaries(p, items, k), Summaries(Uncut(p), items, k))
  {
    if items != [] {
      var n := |items| - 1;
      var it := items[n];
      SummariesAreCut(p, items[..n], k);
      if it.amount > 0.0 && Disposes(it.kind) && DispositionOf(it) == k {
        var t, u := BlockCut(p, Run(items[..n]).lots, it);
        SummaryIsCut(it, t, u);
      }
    }
  }

  /** Books: the same lots, matches, gains, fees and summaries, up to the split of what is classified. */
  lemma BooksCut(p: Policy, items: seq<Item>, b: Books, u: Books)
    requires Valid(p, items, b) && Valid(Uncut(p), items, u)
    ensures forall d: string :: QueueIn(b.lots, d) == QueueIn(u.lots, d)
    ensures |b.accounts.matches| == |u.accounts.matches|
    ensures forall k :: 0 <= k < |b.accounts.matches| ==> MatchCut(p, b.accounts.matches[k], u.accounts.matches[k])
    ensures forall c: string :: Get(b.accounts.realized, c) == Get(u.accounts.realized, c)
    ensures forall c: string ::
              Get(b.accounts.realizedLong, c) + Get(b.accounts.realizedShort, c) ==
              Get(u.accounts.realizedLong, c) + Get(u.accounts.realizedShort, c)
    ensures b.accounts.unresolved == u.accounts.unresolved && b.accounts.oversold == u.accounts.oversold
    ensures forall c: string :: c != "" ==>
              Get(b.purchaseFees, c) == Get(u.purchaseFees, c) && Get(b.incomeFees, c) == Get(u.incomeFees, c)
    ensures forall c: string :: Get(b.saleFees, c) == Get(u.saleFees, c)
    ensures SummariesCut(b.sales, u.sales) && SummariesCut(b.expenses, u.expenses)
    ensures SummariesCut(b.transactionFees, u.transactionFees)
  {
    var s := Run(items);
    forall d: string ensures QueueIn(b.lots, d) == QueueIn(u.lots, d) {
      assert QueueIn(b.lots, d) == ByDepot(s.lots, d) == QueueIn(u.lots, d);
    }
    forall c: string
      ensures Get(b.accounts.realizedLong, c) + Get(b.accounts.realizedShort, c) ==
              Get(u.accounts.realizedLong, c) + Get(u.accounts.realizedShort, c)
    {
      CutoffKeepsRealized(p, s.moves, c);
    }
    SummariesAreCut(p, items, SaleRow);
    SummariesAreCut(p, items, ExpenseRow);
    SummariesAreCut(p, items, FeeRow);
  }

  /** Open BTC of a blocked lot that would be long-term without the cutoff. */
  function Withheld(p: Policy, asOf: int): Lot -> real
  {
    (l: Lot) => if Blocked(p.cutoff, l.at) then OpenClass(Uncut(p), asOf, LongTerm)(l) else 0.0
  }

  /** Totals: only open BTC moves, from long to short, and exactly that of matured blocked lots. */
  lemma ReportCut(p: Policy, items: seq<Item>, asOf: int, r: Report, u: Report)
    requires IsReport(p, items, asOf, r) && IsReport(Uncut(p), items, asOf, u)
    ensures r.total == u.total && r.known == u.known && r.unknown == u.unknown
    ensures r.long + r.short == u.long + u.short && r.unknownHolding == u.unknownHolding
    ensures r.long == u.long - Sum(Run(items).lots, Withheld(p, asOf))
    ensures r.long <= u.long && r.blocked <= r.short && u.blocked == 0.0
  {
    var lots := Run(items).lots;
    RunSound(items);
    CutoffKeepsOpenBtc(p, lots, asOf);
    SumSame(lots, OpenClass(p, asOf, Unknown), OpenClass(Uncut(p), asOf, Unknown));
    SumSplit(lots, OpenClass(Uncut(p), asOf, LongTerm), OpenClass(p, asOf, LongTerm), Withheld(p, asOf));
    SumZero(lots, BlockedOpen(Uncut(p), asOf));
  }
}

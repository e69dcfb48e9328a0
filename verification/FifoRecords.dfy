/** The records a FIFO run reports: one match per slice, one summary per disposal. */
module FifoRecords {
  import opened Sums
  import opened Ledger
  import opened Fifo

  datatype Disposition = SaleRow | ExpenseRow | FeeRow

  function DispositionOf(it: Item): Disposition
  {
    if it.kind.Sale? then SaleRow else if it.isFee then FeeRow else ExpenseRow
  }

  /** The id a disposal is reported under: BTC fees point at the row that paid them. */
  function ReportId(it: Item): string
  {
    if it.kind.Sale? then it.id else if it.source != "" then it.source else it.id
  }

  datatype Match = Match(dispositionId: string, disposition: Disposition, at: Option<Instant>,
                         purchaseId: Option<string>, purchaseAt: Option<Instant>, depot: string, amount: real,
                         purchaseCurrency: string, saleCurrency: string, costBasis: Option<real>,
                         netProceeds: Option<real>, gain: Option<real>, status: Status, holding: Holding)

  function SaleCurrency(m: Move): string
  {
    if m.item.kind.Sale? || (RefPriced(m.item) && (m.lot.Some? || !m.item.isFee)) then m.item.currency else ""
  }

  function MatchOf(p: Policy, m: Move): Match
  {
    Match(ReportId(m.item), DispositionOf(m.item), m.item.at,
          if m.lot.Some? then Some(m.lot.value.entryId) else None,
          if m.lot.Some? then m.lot.value.at else None,
          m.item.depot, m.used,
          if m.lot.Some? then m.lot.value.currency else "", SaleCurrency(m),
          Cost(m), Proceeds(m), Gain(m), StatusOf(m), MoveHolding(p, m))
  }

  function Matches(p: Policy, moves: seq<Move>): seq<Match>
  {
    seq(|moves|, i requires 0 <= i < |moves| => MatchOf(p, moves[i]))
  }

  lemma MatchesPush(p: Policy, moves: seq<Move>, m: Move)
    ensures Matches(p, moves + [m]) == Matches(p, moves) + [MatchOf(p, m)]
  {
  }

  /** The amounts a summary accumulates slice by slice. */
  datatype Tally = Tally(resolved: real, unresolved: real, oversold: real, costBasis: real, gain: real,
                         unknownCost: real, long: real, short: real, unknown: real,
                         longGain: real, shortGain: real)

  const ZERO_TALLY := Tally(0.0, 0.0, 0.0, 0.0, 0.0, 0.0, 0.0, 0.0, 0.0, 0.0, 0.0)

  /** An expense reports the basis of every slice with known cost, a sale only of resolved ones. */
  function SummaryCost(m: Move): real
  {
    if m.item.kind.Sale? then CostOf(m)
    else if m.lot.Some? && m.lot.value.known then m.used * m.lot.value.unitBasis
    else 0.0
  }

  function UnknownCost(m: Move): real
  {
    if !m.item.kind.Sale? && m.lot.Some? && !m.lot.value.known then m.used else 0.0
  }

  function TallyOf(p: Policy, b: seq<Move>): Tally
  {
    Tally(Sum(b, ResolvedUsed), Sum(b, UnresolvedUsed), Sum(b, Oversold), Sum(b, SummaryCost), Sum(b, GainOf),
          Sum(b, UnknownCost), Sum(b, ClassUsed(p, LongTerm)), Sum(b, ClassUsed(p, ShortTerm)),
          Sum(b, ClassUsed(p, Unknown)), Sum(b, ClassGain(p, LongTerm)), Sum(b, ClassGain(p, ShortTerm)))
  }

  /** Counting one more slice, branch by branch as the loops do. */
  function Count(p: Policy, t: Tally, m: Move): Tally
  {
    var h := MoveHolding(p, m).period;
    var t1 := match h
      case LongTerm => t.(long := t.long + m.used)
      case ShortTerm => t.(short := t.short + m.used)
      case Unknown => t.(unknown := t.unknown + m.used);
    if m.lot.None? then t1.(oversold := t1.oversold + m.used, unresolved := t1.unresolved + m.used)
    else if Gain(m).None? then
      var t2 := t1.(unresolved := t1.unresolved + m.used);
      if m.item.kind.Sale? then t2
      else if !m.lot.value.known then t2.(unknownCost := t2.unknownCost + m.used)
      else t2.(costBasis := t2.costBasis + m.used * m.lot.value.unitBasis)
    else
      var g := Gain(m).value;
      var t2 := t1.(resolved := t1.resolved + m.used, costBasis := t1.costBasis + Cost(m).value, gain := t1.gain + g);
      match h
      case LongTerm => t2.(longGain := t2.longGain + g)
      case ShortTerm => t2.(shortGain := t2.shortGain + g)
      case Unknown => t2
  }

  /** What a single slice contributes. */
  function Single(p: Policy, m: Move): Tally
  {
    Tally(ResolvedUsed(m), UnresolvedUsed(m), Oversold(m), SummaryCost(m), GainOf(m), UnknownCost(m),
          ClassUsed(p, LongTerm)(m), ClassUsed(p, ShortTerm)(m), ClassUsed(p, Unknown)(m),
          ClassGain(p, LongTerm)(m), ClassGain(p, ShortTerm)(m))
  }

  function Plus(a: Tally, b: Tally): Tally
  {
    Tally(a.resolved + b.resolved, a.unresolved + b.unresolved, a.oversold + b.oversold, a.costBasis + b.costBasis,
          a.gain + b.gain, a.unknownCost + b.unknownCost, a.long + b.long, a.short + b.short, a.unknown + b.unknown,
          a.longGain + b.longGain, a.shortGain + b.shortGain)
  }

  lemma CountIsPlus(p: Policy, t: Tally, m: Move)
    ensures Count(p, t, m) == Plus(t, Single(p, m))
  {
  }

  lemma TallyPush(p: Policy, b: seq<Move>, m: Move)
    ensures TallyOf(p, b + [m]) == Plus(TallyOf(p, b), Single(p, m))
  {
    SumPush(b, m, ResolvedUsed);
    SumPush(b, m, UnresolvedUsed);
    SumPush(b, m, Oversold);
    SumPush(b, m, SummaryCost);
    SumPush(b, m, GainOf);
    SumPush(b, m, UnknownCost);
    SumPush(b, m, ClassUsed(p, LongTerm));
    SumPush(b, m, ClassUsed(p, ShortTerm));
    SumPush(b, m, ClassUsed(p, Unknown));
    SumPush(b, m, ClassGain(p, LongTerm));
    SumPush(b, m, ClassGain(p, ShortTerm));
  }

  /** Counting slice by slice gives the sums. */
  lemma CountCorrect(p: Policy, b: seq<Move>, m: Move)
    ensures TallyOf(p, b + [m]) == Count(p, TallyOf(p, b), m)
  {
    TallyPush(p, b, m);
    CountIsPlus(p, TallyOf(p, b), m);
  }

  datatype Outcome = FullyResolved | PartiallyResolved | Unresolved | InsufficientBtc
  datatype Mix = AllLong | AllShort | AllUnknown | Mixed

  function OutcomeOf(t: Tally): Outcome
  {
    if t.oversold > 0.0 then InsufficientBtc
    else if t.unresolved > 0.0 && t.resolved > 0.0 then PartiallyResolved
    else if t.unresolved > 0.0 then Unresolved
    else FullyResolved
  }

  function MixOf(t: Tally): Mix
  {
    var classes :=
      (if t.long > 0.0 then 1 else 0) + (if t.short > 0.0 then 1 else 0) + (if t.unknown > 0.0 then 1 else 0);
    if classes > 1 then Mixed else if t.long > 0.0 then AllLong else if t.short > 0.0 then AllShort else AllUnknown
  }

  datatype Summary = Summary(entryId: string, disposition: Disposition, at: Option<Instant>, depot: string,
                             amount: real, currency: string, grossProceeds: Option<real>, feeFiat: Option<real>,
                             fee: real, tally: Tally, outcome: Outcome, mix: Mix)

  function SummaryOf(it: Item, t: Tally): Summary
  {
    var gross := if it.kind.Sale? then Some(it.amount * it.price)
                 else if it.isFee then Some(0.0)
                 else if RefPriced(it) then Some(it.amount * it.price) else None;
    Summary(if !it.kind.Sale? && it.isFee then ReportId(it) else it.id,
            DispositionOf(it), it.at, it.depot, it.amount,
            if it.kind.Sale? || RefPriced(it) then it.currency else "",
            gross,
            if !it.kind.Sale? && it.isFee && RefPriced(it) then Some(it.amount * it.price) else None,
            if it.kind.Sale? then it.fee else if it.isFee || !RefPriced(it) then 0.0 else it.fee,
            t, OutcomeOf(t), MixOf(t))
  }

  function SummaryKey(it: Item): string { if DispositionOf(it).FeeRow? then ReportId(it) else it.id }

  /** The summaries of one kind of disposal, later rows replacing earlier ones with the same id. */
  function Summaries(p: Policy, items: seq<Item>, k: Disposition): map<string, Summary>
  {
    if items == [] then map[]
    else
      var n := |items| - 1;
      var before, it := Summaries(p, items[..n], k), items[n];
      if it.amount > 0.0 && Disposes(it.kind) && DispositionOf(it) == k then
        before[SummaryKey(it) := SummaryOf(it, TallyOf(p, Block(Draw(Run(items[..n]).lots, it, it.amount), it)))]
      else before
  }

  lemma SummariesPush(p: Policy, items: seq<Item>, it: Item, k: Disposition)
    ensures Summaries(p, items + [it], k) ==
            if it.amount > 0.0 && Disposes(it.kind) && DispositionOf(it) == k then
              Summaries(p, items, k)
              [SummaryKey(it) := SummaryOf(it, TallyOf(p, Block(Draw(Run(items).lots, it, it.amount), it)))]
            else Summaries(p, items, k)
  {
    assert (items + [it])[..|items|] == items;
  }

  /** `dict.get(key, 0)`. */
  function Get(m: map<string, real>, k: string): real { if k in m then m[k] else 0.0 }
  function Add(m: map<string, real>, k: string, v: real): map<string, real> { m[k := Get(m, k) + v] }
}

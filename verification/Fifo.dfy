/** FIFO accounting as a function: one list of lots in arrival order, drawn from the front
    depot by depot, and the log of every slice taken. All reported figures are read off this state. */
module Fifo {
  import opened Sums
  import opened Ledger

  /** A lot; a `stack` lot has no known cost and no currency. */
  datatype Lot = Lot(entryId: string, at: Option<Instant>, depot: string, kind: Kind, original: real,
                     remaining: real, currency: string, unitBasis: real, known: bool)

  /** One slice of a disposal: taken from a lot (as it stood before), or not covered by any. */
  datatype Move = Move(item: Item, lot: Option<Lot>, used: real)

  datatype Drain = Drain(lots: seq<Lot>, moves: seq<Move>, rest: real)
  datatype State = State(lots: seq<Lot>, moves: seq<Move>)

  const EMPTY := State([], [])

  function NewLot(it: Item): Lot
    requires it.amount > 0.0
  {
    var priced := it.kind.Purchase? || it.kind.Income?;
    Lot(it.id, it.at, it.depot, it.kind, it.amount, it.amount,
        if priced then it.currency else "",
        if priced then (it.amount * it.price + it.fee) / it.amount else 0.0,
        priced)
  }

  /** Take `due` BTC from the front of the depot's lots. */
  function Draw(lots: seq<Lot>, it: Item, due: real): Drain
  {
    if lots == [] || due <= 0.0 then Drain(lots, [], due)
    else
      var l := lots[0];
      if l.depot != it.depot || l.remaining <= 0.0 then
        var d := Draw(lots[1..], it, due);
        Drain([l] + d.lots, d.moves, d.rest)
      else
        var used := Min(l.remaining, due);
        var d := Draw(lots[1..], it, due - used);
        Drain([l.(remaining := l.remaining - used)] + d.lots, [Move(it, Some(l), used)] + d.moves, d.rest)
  }

  /** All slices of one disposal, the uncovered rest last. */
  function Block(d: Drain, it: Item): seq<Move>
  {
    d.moves + if d.rest > 0.0 then [Move(it, None, d.rest)] else []
  }

  function Step(s: State, it: Item): State
  {
    if it.amount <= 0.0 then s
    else if Acquires(it.kind) then s.(lots := s.lots + [NewLot(it)])
    else if Disposes(it.kind) then
      var d := Draw(s.lots, it, it.amount);
      State(d.lots, s.moves + Block(d, it))
    else s
  }

  function Run(items: seq<Item>): State
  {
    if items == [] then EMPTY else Step(Run(items[..|items| - 1]), items[|items| - 1])
  }

  lemma RunPush(items: seq<Item>, it: Item)
    ensures Run(items + [it]) == Step(Run(items), it)
  {
    assert (items + [it])[..|items|] == items;
  }

  lemma RunTwo(a: Item, b: Item)
    ensures Run([a, b]) == Step(Step(EMPTY, a), b)
  {
    assert [a, b][..1] == [a] && [a][..0] == [];
    assert Run([a]) == Step(EMPTY, a);
  }

  // ---- reading a move ----

  predicate RefPriced(it: Item) { it.currency != "" && it.price > 0.0 }

  /** The part of a disposal's fee that falls on one slice. */
  function FeeShare(fee: real, used: real, amount: real): real
  {
    if amount > 0.0 then fee * used / amount else 0.0
  }

  function Proceeds(m: Move): Option<real>
  {
    var it := m.item;
    if it.kind.Sale? || (!it.isFee && RefPriced(it))
    then Some(Times(m.used, it.price) - FeeShare(it.fee, m.used, it.amount))
    else if it.isFee then Some(0.0)
    else None
  }

  function Cost(m: Move): Option<real>
  {
    if m.lot.Some? && m.lot.value.known && m.lot.value.currency != "" && m.lot.value.currency == m.item.currency
    then Some(Times(m.used, m.lot.value.unitBasis)) else None
  }

  function Gain(m: Move): Option<real>
  {
    if Proceeds(m).Some? && Cost(m).Some? then Some(Proceeds(m).value - Cost(m).value) else None
  }

  datatype Status = Resolved | UnknownCostBasis | ConversionRequired | UnknownProceeds | InsufficientStack

  function StatusOf(m: Move): Status
  {
    if m.lot.None? then InsufficientStack
    else if Gain(m).Some? then Resolved
    else if !m.lot.value.known then UnknownCostBasis
    else if m.item.kind.Sale? || m.item.isFee || RefPriced(m.item) then ConversionRequired
    else UnknownProceeds
  }

  // ---- holding period ----

  /** The holding period in days and, when set, the tax cutoff as a UTC day number. */
  datatype Policy = Policy(longTermDays: int, cutoff: Option<int>)

  datatype Class = LongTerm | ShortTerm | Unknown
  datatype Holding = Holding(period: Class, days: Option<int>, longTermAt: Option<int>,
                             daysUntil: Option<int>, blocked: bool)

  function Threshold(p: Policy): int { if p.longTermDays < 1 then 1 else p.longTermDays }

  /** `int(x // 86400)` clamped at zero, on microseconds. */
  function WholeDays(micros: int): int { if micros / DAY < 0 then 0 else micros / DAY }

  function PlainHolding(days: int, acquired: Option<Instant>, reference: Option<int>): Holding
  {
    if acquired.None? || reference.None? || reference.value < acquired.value
    then Holding(Unknown, None, None, None, false)
    else
      var due := acquired.value + days * DAY;
      Holding(if reference.value >= due then LongTerm else ShortTerm,
              Some(WholeDays(reference.value - acquired.value)), Some(due),
              Some(WholeDays(due - reference.value + (DAY - 1_000_000))), false)
  }

  predicate Blocked(cutoff: Option<int>, acquired: Option<Instant>)
  {
    cutoff.Some? && acquired.Some? && acquired.value / DAY >= cutoff.value
  }

  function HoldingDetails(p: Policy, acquired: Option<Instant>, reference: Option<int>): Holding
  {
    var plain := PlainHolding(Threshold(p), acquired, reference);
    if !plain.period.Unknown? && Blocked(p.cutoff, acquired)
    then plain.(period := ShortTerm, longTermAt := None, daysUntil := None, blocked := true)
    else plain
  }

  function MoveHolding(p: Policy, m: Move): Holding
  {
    if m.lot.None? then Holding(Unknown, None, None, None, false)
    else HoldingDetails(p, m.lot.value.at, m.item.at)
  }

  // ---- summands of the reported figures ----

  function Remaining(l: Lot): real { l.remaining }
  function Original(l: Lot): real { l.original }
  function KnownRemaining(l: Lot): real { if l.known then l.remaining else 0.0 }
  function RemainingIn(c: string): Lot -> real
  {
    (l: Lot) => if c != "" && l.currency == c then l.remaining else 0.0
  }
  function InvestedIn(c: string): Lot -> real
  {
    (l: Lot) => if c != "" && l.currency == c then l.remaining * l.unitBasis else 0.0
  }
  function BasisIn(c: string): Lot -> real
  {
    (l: Lot) => if c != "" && l.currency == c then l.original * l.unitBasis else 0.0
  }
  function OpenClass(p: Policy, asOf: int, k: Class): Lot -> real
  {
    (l: Lot) => if HoldingDetails(p, l.at, Some(asOf)).period == k then l.remaining else 0.0
  }

  function Used(m: Move): real { m.used }
  function Drawn(m: Move): real { if m.lot.Some? then m.used else 0.0 }
  function Oversold(m: Move): real { if m.lot.None? then m.used else 0.0 }
  function UsedBasisIn(c: string): Move -> real
  {
    (m: Move) => if m.lot.Some? && c != "" && m.lot.value.currency == c
                 then m.used * m.lot.value.unitBasis else 0.0
  }
  function GainOf(m: Move): real
  {
    if Gain(m).Some? then Gain(m).value else 0.0
  }
  function CostOf(m: Move): real { if Cost(m).Some? then Cost(m).value else 0.0 }
  function ProceedsOf(m: Move): real
  {
    if Proceeds(m).Some? then Proceeds(m).value else 0.0
  }
  predicate IsResolved(m: Move) { Gain(m).Some? }
  function ResolvedUsed(m: Move): real { if IsResolved(m) then m.used else 0.0 }
  function UnresolvedUsed(m: Move): real { if IsResolved(m) then 0.0 else m.used }
  function GainIn(c: string): Move -> real
  {
    (m: Move) => if m.item.currency == c then GainOf(m) else 0.0
  }
  function ClassGainIn(p: Policy, k: Class, c: string): Move -> real
  {
    (m: Move) => if m.item.currency == c && MoveHolding(p, m).period == k then GainOf(m) else 0.0
  }
  function ClassGain(p: Policy, k: Class): Move -> real
  {
    (m: Move) => if MoveHolding(p, m).period == k then GainOf(m) else 0.0
  }
  function ClassUsed(p: Policy, k: Class): Move -> real
  {
    (m: Move) => if MoveHolding(p, m).period == k then m.used else 0.0
  }
  /** Fees in fiat, kept per currency and kind of row. */
  function FeeIn(k: Kind, c: string): Item -> real
  {
    (x: Item) => if x.kind == k && x.amount > 0.0 && x.currency == c then x.fee else 0.0
  }

  // ---- projections ----

  function LotDepot(l: Lot): string { l.depot }
  function MoveDepot(m: Move): string { m.item.depot }
  function ItemDepot(x: Item): string { x.depot }
  function ByDepot(lots: seq<Lot>, d: string): seq<Lot> { Filter(lots, Has(LotDepot, d)) }
}

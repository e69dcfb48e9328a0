/** Purchases of a CSV import that wait for a withdrawal. */
module Pending {

  /** A row number and an amount of BTC. */
  datatype Purchase = Purchase(row: int, gross: real)

  ghost predicate DistinctRows(ps: seq<Purchase>)
  {
    forall i, j :: 0 <= i < j < |ps| ==> ps[i].row != ps[j].row
  }

  function Rows(ps: seq<Purchase>): set<int> { set p | p in ps :: p.row }
}

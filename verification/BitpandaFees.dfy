/** Bitpanda's distribution of a withdrawal fee over the purchases of its batch, in whole satoshis.
    All amounts are in satoshis. */
module BitpandaFees {
  import opened Sums
  import opened Pending

  datatype Event = Bought(buy: Purchase) | Withdrawn(fee: real)

  /** `quantize` to a whole satoshi: round half to even. */
  function RoundHalfEven(x: real): int
  {
    var f := x.Floor;
    var rest := x - f as real;
    if rest < 0.5 then f else if rest > 0.5 then f + 1 else if f % 2 == 0 then f else f + 1
  }

  lemma RoundingError(x: real)
    ensures -0.5 <= RoundHalfEven(x) as real - x <= 0.5
    ensures x >= 0.0 ==> RoundHalfEven(x) >= 0
  {
  }

  function Exact(fee: real, gross: real, total: real): real
    requires total > 0.0
  {
    fee * gross / total
  }

  /** One share: rounded to the satoshi, and capped by what is left of the fee. */
  function Due(fee: real, gross: real, total: real, remaining: real): real
    requires total > 0.0
  {
    Min(RoundHalfEven(Exact(fee, gross, total)) as real, remaining)
  }

  /** The shares of the purchases still to serve, in order, from what is left of the fee. */
  function Shares(fee: real, total: real, buys: seq<Purchase>, remaining: real): seq<real>
    requires total > 0.0
  {
    if buys == [] then []
    else if |buys| == 1 then [remaining]
    else
      var share := Due(fee, buys[0].gross, total, remaining);
      [share] + Shares(fee, total, buys[1..], remaining - share)
  }

  predicate IsWhole(x: real) { x.Floor as real == x }

  /** Half a satoshi for each other purchase of the batch, but at least one half. */
  function Bound(others: nat): real { if others <= 1 then 0.5 else others as real / 2.0 }

  lemma ExactAdds(fee: real, a: real, b: real, total: real)
    requires total > 0.0
    ensures Exact(fee, a + b, total) == Exact(fee, a, total) + Exact(fee, b, total)
    ensures Exact(fee, total, total) == fee && Exact(fee, 0.0, total) == 0.0
    ensures fee >= 0.0 && a >= 0.0 ==> Exact(fee, a, total) >= 0.0
  {
    assert fee * (a + b) == fee * a + fee * b;
    assert fee * total / total == fee;
    if fee >= 0.0 && a >= 0.0 { assert fee * a >= 0.0; }
  }

  function SumOf(xs: seq<real>): real { if xs == [] then 0.0 else xs[0] + SumOf(xs[1..]) }
  function GrossOf(buys: seq<Purchase>): real { if buys == [] then 0.0 else buys[0].gross + GrossOf(buys[1..]) }

  lemma {:induction false} SharesAddUp(fee: real, total: real, buys: seq<Purchase>, remaining: real)
    requires total > 0.0 && buys != []
    ensures SumOf(Shares(fee, total, buys, remaining)) == remaining && |Shares(fee, total, buys, remaining)| == |buys|
  {
    if |buys| == 1 {
      assert Shares(fee, total, buys, remaining)[1..] == [];
    } else {
      var share := Due(fee, buys[0].gross, total, remaining);
      SharesAddUp(fee, total, buys[1..], remaining - share);
      assert Shares(fee, total, buys, remaining)[1..] == Shares(fee, total, buys[1..], remaining - share);
    }
  }

  lemma {:induction false} SharesWhole(fee: real, total: real, buys: seq<Purchase>, remaining: real)
    requires total > 0.0 && IsWhole(remaining) && remaining >= 0.0 && fee >= 0.0
    requires forall b <- buys :: b.gross >= 0.0
    ensures forall s <- Shares(fee, total, buys, remaining) :: IsWhole(s) && s >= 0.0
  {
    if |buys| > 1 {
      var whole := RoundHalfEven(Exact(fee, buys[0].gross, total));
      var share := Min(whole as real, remaining);
      ExactAdds(fee, buys[0].gross, 0.0, total);
      RoundingError(Exact(fee, buys[0].gross, total));
      assert remaining - share ==
             (remaining.Floor - (if whole as real <= remaining then whole else remaining.Floor)) as real;
      SharesWhole(fee, total, buys[1..], remaining - share);
    }
  }

  /** One step: `exact` is due now and `rest` to the others, `rounded` is `exact` to the satoshi. */
  lemma StepNear(exact: real, rest: real, rounded: real, remaining: real, served: nat)
    requires exact >= 0.0 && rest >= 0.0 && remaining >= 0.0 && 0.0 <= rounded && -0.5 <= rounded - exact <= 0.5
    requires -(served as real / 2.0) <= remaining - (exact + rest) <= served as real / 2.0
    ensures var share := Min(rounded, remaining);
            && -Bound(served + 1) <= share - exact <= Bound(served + 1)
            && 0.0 <= remaining - share
            && -((served + 1) as real / 2.0) <= remaining - share - rest <= (served + 1) as real / 2.0
  {
  }

  lemma BoundGrows(a: nat, b: nat)
    requires a <= b
    ensures Bound(a) <= Bound(b)
  {
  }

  /** What is left of the fee never strays from what is due to the rest by more than half a satoshi per
      purchase already served, and neither does any single share. */
  lemma {:induction false} SharesNear(fee: real, total: real, buys: seq<Purchase>, remaining: real, served: nat)
    requires total > 0.0 && fee >= 0.0 && remaining >= 0.0 && forall b <- buys :: b.gross >= 0.0
    requires -(served as real / 2.0) <= remaining - Exact(fee, GrossOf(buys), total) <= served as real / 2.0
    ensures |Shares(fee, total, buys, remaining)| == |buys|
    ensures forall k :: 0 <= k < |buys| ==>
              Near(Shares(fee, total, buys, remaining)[k], Exact(fee, buys[k].gross, total), served + |buys| - 1)
  {
    if |buys| == 1 {
      assert GrossOf(buys[1..]) == 0.0;
    } else if |buys| > 1 {
      var tail, exact := buys[1..], Exact(fee, buys[0].gross, total);
      var rounded := RoundHalfEven(exact) as real;
      var share := Min(rounded, remaining);
      RoundingError(exact);
      GrossNonNegative(tail);
      ExactAdds(fee, buys[0].gross, GrossOf(tail), total);
      ExactAdds(fee, GrossOf(tail), 0.0, total);
      StepNear(exact, Exact(fee, GrossOf(tail), total), rounded, remaining, served);
      BoundGrows(served + 1, served + |buys| - 1);
      SharesNear(fee, total, tail, remaining - share, served + 1);
      NearFront(fee, total, buys, share, Shares(fee, total, tail, remaining - share), served + |buys| - 1);
    }
  }

  ghost predicate Near(share: real, exact: real, others: nat) { -Bound(others) <= share - exact <= Bound(others) }

  lemma NearFront(fee: real, total: real, buys: seq<Purchase>, share: real, more: seq<real>, others: nat)
    requires total > 0.0 && |buys| == |more| + 1 && Near(share, Exact(fee, buys[0].gross, total), others)
    requires forall k :: 0 <= k < |more| ==> Near(more[k], Exact(fee, buys[1..][k].gross, total), others)
    ensures forall k :: 0 <= k < |buys| ==> Near(([share] + more)[k], Exact(fee, buys[k].gross, total), others)
  {
    forall k | 0 <= k < |buys| ensures Near(([share] + more)[k], Exact(fee, buys[k].gross, total), others) {
      if k > 0 { assert buys[k] == buys[1..][k - 1]; }
    }
  }

  lemma {:induction false} GrossNonNegative(buys: seq<Purchase>)
    requires forall b <- buys :: b.gross >= 0.0
    ensures GrossOf(buys) >= 0.0
  {
    if buys != [] { GrossNonNegative(buys[1..]); }
  }

  /** A whole fee below the batch's total is split into non-negative whole satoshis that add up to it, each
      within half a satoshi per other purchase of its exact proportional share. */
  lemma FeeDistribution(fee: real, buys: seq<Purchase>)
    requires buys != [] && 0.0 < fee < GrossOf(buys) && forall b <- buys :: b.gross >= 0.0
    ensures var total, shares := GrossOf(buys), Shares(fee, GrossOf(buys), buys, fee);
            && |shares| == |buys| && SumOf(shares) == fee
            && (IsWhole(fee) ==> forall s <- shares :: IsWhole(s) && s >= 0.0)
            && forall k :: 0 <= k < |buys| ==> Near(shares[k], Exact(fee, buys[k].gross, total), |buys| - 1)
  {
    var total := GrossOf(buys);
    SharesAddUp(fee, total, buys, fee);
    if IsWhole(fee) { SharesWhole(fee, total, buys, fee); }
    ExactAdds(fee, total, 0.0, total);
    SharesNear(fee, total, buys, fee, 0);
  }

  // ---- the event stream ----

  /** A positive share is booked under its row. */
  function BookOne(alloc: map<int, real>, row: int, share: real): map<int, real>
  {
    if share > 0.0 then alloc[row := (if row in alloc then alloc[row] else 0.0) + share] else alloc
  }

  /** What one closed batch adds to the allocations. */
  function Booked(alloc: map<int, real>, buys: seq<Purchase>, shares: seq<real>): map<int, real>
    requires |buys| == |shares|
  {
    if buys == [] then alloc
    else
      var n := |buys| - 1;
      BookOne(Booked(alloc, buys[..n], shares[..n]), buys[n].row, shares[n])
  }

  lemma BookedNext(alloc: map<int, real>, buys: seq<Purchase>, shares: seq<real>, i: nat)
    requires i < |buys| == |shares|
    ensures Booked(alloc, buys[..i + 1], shares[..i + 1]) ==
            BookOne(Booked(alloc, buys[..i], shares[..i]), buys[i].row, shares[i])
  {
    assert buys[..i + 1][..i] == buys[..i] && shares[..i + 1][..i] == shares[..i];
  }

  /** The share that is due next, and the shares behind it. */
  lemma SharesNext(fee: real, total: real, buys: seq<Purchase>, shares: seq<real>, i: nat, remaining: real)
    requires total > 0.0 && i < |buys| == |shares| && shares[i..] == Shares(fee, total, buys[i..], remaining)
    ensures shares[i] == if i < |buys| - 1 then Due(fee, buys[i].gross, total, remaining) else remaining
    ensures i < |buys| - 1 ==> shares[i + 1..] == Shares(fee, total, buys[i + 1..], remaining - shares[i])
  {
    assert shares[i] == shares[i..][0] && shares[i + 1..] == shares[i..][1..] && buys[i + 1..] == buys[i..][1..];
  }

  datatype Books = Books(pending: seq<Purchase>, alloc: map<int, real>, warned: set<int>)

  /** A withdrawal closes the batch, whatever its fee; only a fee below the batch's total is distributed. */
  ghost function Close(s: Books, fee: real): Books
  {
    if s.pending == [] || fee <= 0.0 then s.(pending := [])
    else if GrossOf(s.pending) <= 0.0 || fee >= GrossOf(s.pending) then
      s.(pending := [], warned := s.warned + Rows(s.pending))
    else
      SharesAddUp(fee, GrossOf(s.pending), s.pending, fee);
      s.(pending := [], alloc := Booked(s.alloc, s.pending, Shares(fee, GrossOf(s.pending), s.pending, fee)))
  }

  ghost function RunEvents(events: seq<Event>): Books
  {
    if events == [] then Books([], map[], {})
    else
      var n := |events| - 1;
      var s := RunEvents(events[..n]);
      match events[n]
      case Bought(b) => s.(pending := s.pending + [b])
      case Withdrawn(fee) => Close(s, fee)
  }

  method TotalGross(buys: seq<Purchase>) returns (total: real)
    ensures total == GrossOf(buys)
  {
    total := 0.0;
    for i := 0 to |buys|
      invariant GrossOf(buys) == total + GrossOf(buys[i..])
    {
      assert buys[i..][1..] == buys[i + 1..];
      total := total + buys[i].gross;
    }
  }

  /** The loop over one batch: each share is rounded and capped, the last purchase takes the remainder. */
  method DistributeFee(alloc0: map<int, real>, buys: seq<Purchase>, fee: real, total: real)
    returns (alloc: map<int, real>)
    requires buys != [] && total > 0.0 && |Shares(fee, total, buys, fee)| == |buys|
    ensures alloc == Booked(alloc0, buys, Shares(fee, total, buys, fee))
  {
    alloc := alloc0;
    var remaining := fee;
    ghost var shares := Shares(fee, total, buys, fee);
    for i := 0 to |buys|
      invariant i < |buys| ==> shares[i..] == Shares(fee, total, buys[i..], remaining)
      invariant alloc == Booked(alloc0, buys[..i], shares[..i])
    {
      SharesNext(fee, total, buys, shares, i, remaining);
      BookedNext(alloc0, buys, shares, i);
      var share := remaining;
      if i < |buys| - 1 {
        share := Due(fee, buys[i].gross, total, remaining);
        remaining := remaining - share;
      }
      alloc := BookOne(alloc, buys[i].row, share);
    }
    assert buys[..|buys|] == buys && shares[..|buys|] == shares;
  }

  method AllocateFees(events: seq<Event>) returns (alloc: map<int, real>, warned: set<int>)
    ensures alloc == RunEvents(events).alloc && warned == RunEvents(events).warned
  {
    alloc, warned := map[], {};
    var pending: seq<Purchase> := [];
    for i := 0 to |events|
      invariant RunEvents(events[..i]) == Books(pending, alloc, warned)
    {
      assert events[..i + 1][..i] == events[..i];
      match events[i] {
        case Bought(b) =>
          pending := pending + [b];
        case Withdrawn(fee) =>
          if pending != [] && fee > 0.0 {
            var total := TotalGross(pending);
            if total <= 0.0 || fee >= total {
              warned := warned + Rows(pending);
            } else {
              SharesAddUp(fee, total, pending, fee);
              alloc := DistributeFee(alloc, pending, fee, total);
            }
          }
          pending := [];
      }
    }
    assert events[..|events|] == events;
  }

  // ---- at most one fee per purchase ----

  function BuysOf(events: seq<Event>): seq<Purchase>
  {
    if events == [] then []
    else
      var n := |events| - 1;
      BuysOf(events[..n]) + if events[n].Bought? then [events[n].buy] else []
  }

  /** Every positive share stands under its row, and other rows hold what `alloc` holds. */
  ghost predicate HoldsShares(r: map<int, real>, alloc: map<int, real>, buys: seq<Purchase>, shares: seq<real>)
    requires |buys| == |shares|
  {
    && (forall k :: 0 <= k < |buys| ==> (buys[k].row in r <==> shares[k] > 0.0)
                                        && (shares[k] > 0.0 ==> r[buys[k].row] == shares[k]))
    && (forall row: int :: row !in Rows(buys) ==> (row in r <==> row in alloc) && (row in r ==> r[row] == alloc[row]))
  }

  lemma LastRowFresh(buys: seq<Purchase>)
    requires buys != [] && DistinctRows(buys)
    ensures var n := |buys| - 1;
            Rows(buys) == Rows(buys[..n]) + {buys[n].row} && buys[n].row !in Rows(buys[..n])
  {
    var n := |buys| - 1;
    assert buys == buys[..n] + [buys[n]];
    forall b | b in buys[..n] ensures b.row != buys[n].row {
      var j :| 0 <= j < n && buys[j] == b;
    }
  }

  lemma ShareBooked(r: map<int, real>, alloc: map<int, real>, buys: seq<Purchase>, shares: seq<real>)
    requires |buys| == |shares| > 0 && DistinctRows(buys) && Rows(buys) !! alloc.Keys
    requires HoldsShares(r, alloc, buys[..|buys| - 1], shares[..|buys| - 1])
    ensures var n := |buys| - 1;
            HoldsShares(if shares[n] > 0.0 then r[buys[n].row := shares[n]] else r, alloc, buys, shares)
  {
    LastRowFresh(buys);
  }

  /** Booking on fresh rows holds exactly the shares. */
  lemma {:induction false} BookedIsShare(alloc: map<int, real>, buys: seq<Purchase>, shares: seq<real>)
    requires |buys| == |shares| && DistinctRows(buys) && Rows(buys) !! alloc.Keys
    ensures HoldsShares(Booked(alloc, buys, shares), alloc, buys, shares)
  {
    if buys != [] {
      var n := |buys| - 1;
      LastRowFresh(buys);
      BookedIsShare(alloc, buys[..n], shares[..n]);
      ShareBooked(Booked(alloc, buys[..n], shares[..n]), alloc, buys, shares);
    }
  }

  /** Pending purchases are the latest ones seen and carry no fee yet. */
  lemma {:induction false} PendingFresh(events: seq<Event>)
    requires DistinctRows(BuysOf(events))
    ensures var s := RunEvents(events);
            && |s.pending| <= |BuysOf(events)| && s.pending == BuysOf(events)[|BuysOf(events)| - |s.pending|..]
            && s.alloc.Keys <= Rows(BuysOf(events)[..|BuysOf(events)| - |s.pending|])
    decreases |events|
  {
    if events != [] {
      var n := |events| - 1;
      var seen, s := BuysOf(events[..n]), RunEvents(events[..n]);
      assert DistinctRows(seen) by {
        forall i, j | 0 <= i < j < |seen| ensures seen[i].row != seen[j].row {
          assert BuysOf(events)[i] == seen[i] && BuysOf(events)[j] == seen[j];
        }
      }
      PendingFresh(events[..n]);
      var cut := |seen| - |s.pending|;
      match events[n]
      case Bought(b) =>
        assert (seen + [b])[cut..] == seen[cut..] + [b] && (seen + [b])[..cut] == seen[..cut];
      case Withdrawn(fee) =>
        assert BuysOf(events) == seen;
        assert seen[..|seen|] == seen && seen == seen[..cut] + s.pending;
        assert Rows(seen) == Rows(seen[..cut]) + Rows(s.pending);
        CloseKeys(s, fee);
    }
  }

  lemma {:induction false} BookedKeys(alloc: map<int, real>, buys: seq<Purchase>, shares: seq<real>)
    requires |buys| == |shares|
    ensures Booked(alloc, buys, shares).Keys <= alloc.Keys + Rows(buys)
  {
    if buys != [] {
      var n := |buys| - 1;
      BookedKeys(alloc, buys[..n], shares[..n]);
      assert buys == buys[..n] + [buys[n]];
    }
  }

  lemma CloseKeys(s: Books, fee: real)
    ensures Close(s, fee).alloc.Keys <= s.alloc.Keys + Rows(s.pending)
  {
    if s.pending != [] && fee > 0.0 && GrossOf(s.pending) > 0.0 && fee < GrossOf(s.pending) {
      SharesAddUp(fee, GrossOf(s.pending), s.pending, fee);
      BookedKeys(s.alloc, s.pending, Shares(fee, GrossOf(s.pending), s.pending, fee));
    }
  }

  /** The rows of the front and the back part of a list of distinct rows do not meet. */
  lemma PartsDisjoint(buys: seq<Purchase>, cut: nat)
    requires cut <= |buys| && DistinctRows(buys)
    ensures Rows(buys[..cut]) !! Rows(buys[cut..]) && DistinctRows(buys[cut..])
  {
    forall x, y | x in buys[..cut] && y in buys[cut..] ensures x.row != y.row {
      var i :| 0 <= i < cut && buys[i] == x;
      var j :| cut <= j < |buys| && buys[j] == y;
    }
  }

  lemma PendingUnbooked(events: seq<Event>)
    requires DistinctRows(BuysOf(events))
    ensures DistinctRows(RunEvents(events).pending)
    ensures Rows(RunEvents(events).pending) !! RunEvents(events).alloc.Keys
  {
    PendingFresh(events);
    PartsDisjoint(BuysOf(events), |BuysOf(events)| - |RunEvents(events).pending|);
  }

  /** At most one fee per purchase: when a batch closes with a distributable fee, its purchases had none
      before and get exactly their share; the other purchases keep what they had. */
  lemma OneFeePerPurchase(events: seq<Event>, fee: real)
    requires DistinctRows(BuysOf(events))
    requires RunEvents(events).pending != [] && 0.0 < fee < GrossOf(RunEvents(events).pending)
    ensures var s, r := RunEvents(events), Close(RunEvents(events), fee);
            var shares := Shares(fee, GrossOf(s.pending), s.pending, fee);
            && |shares| == |s.pending| && r.pending == []
            && (forall k :: 0 <= k < |s.pending| ==>
                  && s.pending[k].row !in s.alloc
                  && (s.pending[k].row in r.alloc <==> shares[k] > 0.0)
                  && (shares[k] > 0.0 ==> r.alloc[s.pending[k].row] == shares[k]))
            && (forall row: int :: row !in Rows(s.pending) ==>
                  (row in r.alloc <==> row in s.alloc) && (row in r.alloc ==> r.alloc[row] == s.alloc[row]))
  {
    var s := RunEvents(events);
    PendingUnbooked(events);
    SharesAddUp(fee, GrossOf(s.pending), s.pending, fee);
    BookedIsShare(s.alloc, s.pending, Shares(fee, GrossOf(s.pending), s.pending, fee));
    assert forall k :: 0 <= k < |s.pending| ==> s.pending[k].row in Rows(s.pending);
  }
}

/** Pocket's reconciliation of withdrawals with purchases over a whole timeline. */
module PocketTimeline {
  import opened Sums
  import opened Pending
  import opened PocketWindow

  /** One event of the sorted timeline; `gross` is what the CoinTracking export states, the native export
      states net and fee only. */
  datatype Event = Trade(purchase: Purchase) | Withdrawal(gross: real, net: real, fee: real)

  datatype Transport = Onchain | Lightning

  /** A withdrawal (by timeline position) with the purchases it pays out. */
  datatype Payout = Payout(at: nat, purchases: seq<Purchase>, net: real, fee: real)

  function GrossOf(native: bool, e: Event): real
    requires e.Withdrawal?
  {
    if native then e.net + e.fee else e.gross
  }

  function SlackOf(native: bool, e: Event): real
    requires e.Withdrawal?
  {
    if native then 0.0 else e.fee
  }

  function Trades(timeline: seq<Event>): seq<Purchase>
  {
    if timeline == [] then []
    else
      var n := |timeline| - 1;
      Trades(timeline[..n]) + if timeline[n].Trade? then [timeline[n].purchase] else []
  }

  /** What the parsers guarantee: amounts without sign, positive net amounts, and one row number per purchase. */
  ghost predicate Parsed(timeline: seq<Event>)
  {
    && (forall e <- timeline :: if e.Trade? then e.purchase.gross >= 0.0 else e.net > 0.0 && e.fee >= 0.0)
    && DistinctRows(Trades(timeline))
  }

  function PaidRows(log: seq<Payout>): set<int>
  {
    if log == [] then {} else PaidRows(log[..|log| - 1]) + Rows(log[|log| - 1].purchases)
  }

  function Unpaid(paid: set<int>): Purchase -> bool { (p: Purchase) => p.row !in paid }

  /** The purchases still pending when `log` has been paid out of the trades so far. */
  function PendingOf(trades: seq<Purchase>, log: seq<Payout>): seq<Purchase> { Filter(trades, Unpaid(PaidRows(log))) }

  /** A purchase's share of a payout; a group without BTC is one purchase, which takes all. */
  function ShareOf(net: real, gross: real, total: real): real { if total > 0.0 then net * gross / total else net }

  /** What a group can be paid out by: its BTC, or its only purchase. */
  ghost predicate Divisible(ps: seq<Purchase>)
  {
    ps != [] && (forall p <- ps :: p.gross >= 0.0) && (Prefix(ps, |ps|) > 0.0 || |ps| == 1)
  }

  function TransportOf(g: Payout): Option<Transport>
    requires g.purchases != []
  {
    if g.fee > TOLERANCE || |g.purchases| > 1 then Some(Onchain)
    else if Abs(g.net - g.purchases[0].gross) <= TOLERANCE then Some(Lightning)
    else None
  }

  // ---- what a run means ----

  /** The payout at a withdrawal is the group chosen among what is pending at that moment. */
  ghost predicate PaysChosen(native: bool, timeline: seq<Event>, before: seq<Payout>, g: Payout)
  {
    && g.at < |timeline| && timeline[g.at].Withdrawal?
    && g.net == timeline[g.at].net && g.fee == timeline[g.at].fee
    && var pending := PendingOf(Trades(timeline[..g.at]), before);
       exists w: Window :: Chosen(pending, GrossOf(native, timeline[g.at]), SlackOf(native, timeline[g.at]), w)
                           && g.purchases == pending[w.start..w.end]
  }

  /** A withdrawal without payout had no group to choose. */
  ghost predicate NothingChosen(native: bool, e: Event, pending: seq<Purchase>)
    requires e.Withdrawal?
  {
    forall w: Window :: !Chosen(pending, GrossOf(native, e), SlackOf(native, e), w)
  }

  /** The payouts up to timeline position `k`, each explained by the ones before it, and every other
      withdrawal explained by there being nothing to choose. */
  ghost predicate Explained(native: bool, timeline: seq<Event>, k: nat, log: seq<Payout>)
    requires k <= |timeline|
    decreases k
  {
    if k == 0 then log == []
    else if timeline[k - 1].Trade? then Explained(native, timeline, k - 1, log)
    else if log != [] && log[|log| - 1].at == k - 1 then
      && PaysChosen(native, timeline, log[..|log| - 1], log[|log| - 1])
      && Explained(native, timeline, k - 1, log[..|log| - 1])
    else
      && NothingChosen(native, timeline[k - 1], PendingOf(Trades(timeline[..k - 1]), log))
      && Explained(native, timeline, k - 1, log)
  }

  /** Every payout is recorded: each of its purchases holds its proportional share and transport, those without
      a share nothing, and nothing else is. */
  ghost predicate Recorded(log: seq<Payout>, alloc: map<int, real>, transport: map<int, Transport>)
  {
    && alloc.Keys <= PaidRows(log)
    && forall g <- log :: Allocated(g, alloc, transport)
  }

  ghost predicate Allocated(g: Payout, alloc: map<int, real>, transport: map<int, Transport>)
  {
    && Divisible(g.purchases) && g.net > 0.0
    && forall p <- g.purchases ::
         var share := ShareOf(g.net, p.gross, Prefix(g.purchases, |g.purchases|));
         && Lookup(alloc, p.row) == (if share > 0.0 then Some(share) else None)
         && Lookup(transport, p.row) == (if share > 0.0 then TransportOf(g) else None)
  }

  // ---- paying out one group ----

  lemma SharesAdd(net: real, a: real, b: real, total: real)
    requires total > 0.0
    ensures ShareOf(net, a + b, total) == ShareOf(net, a, total) + ShareOf(net, b, total)
    ensures ShareOf(net, total, total) == net && ShareOf(net, 0.0, total) == 0.0
  {
    assert net * (a + b) == net * a + net * b;
    assert net * total / total == net;
  }

  lemma ShareNonNegative(net: real, gross: real, total: real)
    requires net >= 0.0 && gross >= 0.0
    ensures ShareOf(net, gross, total) >= 0.0
  {
    if total > 0.0 { assert net * gross >= 0.0; }
  }

  lemma {:induction false} PrefixOfWindow(ps: seq<Purchase>, a: nat, b: nat, k: nat)
    requires a <= b <= |ps| && k <= b - a
    ensures Prefix(ps[a..b], k) == Prefix(ps, a + k) - Prefix(ps, a)
  {
    if k > 0 { PrefixOfWindow(ps, a, b, k - 1); }
  }

  /** A chosen group can be paid out. */
  lemma ChosenDivisible(ps: seq<Purchase>, gross: real, slack: real, w: Window)
    requires NonNegative(ps) && Chosen(ps, gross, slack, w)
    ensures Divisible(ps[w.start..w.end])
  {
    PrefixOfWindow(ps, w.start, w.end, w.end - w.start);
    if Total(ps, w) <= 0.0 { EmptyGroupIsSingle(ps, gross, slack, w); }
  }

  function Noted<T>(m: map<int, T>, row: int, value: Option<T>): map<int, T>
  {
    if value.Some? then m[row := value.value] else m
  }

  /** A map after purchases have noted their values under their rows, one by one. */
  function Write<T>(ps: seq<Purchase>, value: Purchase -> Option<T>, m: map<int, T>): map<int, T>
  {
    if ps == [] then m
    else
      var p := ps[|ps| - 1];
      Noted(Write(ps[..|ps| - 1], value, m), p.row, value(p))
  }

  lemma WriteNext<T>(ps: seq<Purchase>, value: Purchase -> Option<T>, m: map<int, T>, i: nat)
    requires i < |ps|
    ensures Write(ps[..i + 1], value, m) == Noted(Write(ps[..i], value, m), ps[i].row, value(ps[i]))
  {
    assert ps[..i + 1][..i] == ps[..i];
  }

  /** A positive share is allocated, */
  function Allocates(net: real, total: real): Purchase -> Option<real>
  {
    (p: Purchase) => var share := ShareOf(net, p.gross, total); if share > 0.0 then Some(share) else None
  }

  /** and with it goes the transport. */
  function Carries(net: real, total: real, kind: Option<Transport>): Purchase -> Option<Transport>
  {
    (p: Purchase) => if ShareOf(net, p.gross, total) > 0.0 then kind else None
  }

  /** The allocations after a whole group. */
  function AllocAfter(g: Payout, alloc: map<int, real>): map<int, real>
  {
    Write(g.purchases, Allocates(g.net, Prefix(g.purchases, |g.purchases|)), alloc)
  }

  function TransportAfter(g: Payout, transport: map<int, Transport>): map<int, Transport>
    requires g.purchases != []
  {
    Write(g.purchases, Carries(g.net, Prefix(g.purchases, |g.purchases|), TransportOf(g)), transport)
  }

  /** Distribute the net amount over the group; the last purchase takes the remainder, which is its
      proportional share as well. */
  method Distribute(g: Payout, alloc0: map<int, real>, transport0: map<int, Transport>)
    returns (alloc: map<int, real>, transport: map<int, Transport>)
    requires Divisible(g.purchases)
    ensures alloc == AllocAfter(g, alloc0)
    ensures transport == TransportAfter(g, transport0)
  {
    alloc, transport := alloc0, transport0;
    var ps := g.purchases;
    var total := Prefix(ps, |ps|);
    var kind := TransportOf(g);
    var remaining := g.net;
    if total > 0.0 { SharesAdd(g.net, 0.0, 0.0, total); }
    for i := 0 to |ps|
      invariant i < |ps| && total > 0.0 ==> remaining == g.net - ShareOf(g.net, Prefix(ps, i), total)
      invariant total <= 0.0 && i == 0 ==> remaining == g.net
      invariant alloc == Write(ps[..i], Allocates(g.net, total), alloc0)
      invariant transport == Write(ps[..i], Carries(g.net, total, kind), transport0)
    {
      var share;
      WriteNext(ps, Allocates(g.net, total), alloc0, i);
      WriteNext(ps, Carries(g.net, total, kind), transport0, i);
      assert Prefix(ps, i + 1) == Prefix(ps, i) + ps[i].gross;
      if total > 0.0 { SharesAdd(g.net, Prefix(ps, i), ps[i].gross, total); }
      if i == |ps| - 1 {
        share := remaining;
      } else {
        share := ShareOf(g.net, ps[i].gross, total);
        remaining := remaining - share;
      }
      if share > 0.0 {
        alloc := alloc[ps[i].row := share];
        if kind.Some? { transport := transport[ps[i].row := kind.value]; }
      }
    }
    assert ps[..|ps|] == ps;
  }

  lemma NewRow(ps: seq<Purchase>, p: Purchase)
    requires DistinctRows(ps + [p])
    ensures p.row !in Rows(ps)
  {
    forall q | q in ps ensures q.row != p.row {
      var i :| 0 <= i < |ps| && ps[i] == q;
      assert (ps + [p])[i].row != (ps + [p])[|ps|].row;
    }
  }

  /** `r` holds the values of the purchases and elsewhere what `m` holds. */
  ghost predicate Written<T>(r: map<int, T>, ps: seq<Purchase>, value: Purchase -> Option<T>, m: map<int, T>)
  {
    && r.Keys <= m.Keys + Rows(ps)
    && (forall p <- ps :: Lookup(r, p.row) == value(p))
    && (forall row: int :: row !in Rows(ps) ==> Lookup(r, row) == Lookup(m, row))
  }

  lemma WriteStep<T>(r: map<int, T>, ps: seq<Purchase>, p: Purchase, value: Purchase -> Option<T>, m: map<int, T>)
    requires Written(r, ps, value, m) && p.row !in Rows(ps) && p.row !in m
    ensures Written(Noted(r, p.row, value(p)), ps + [p], value, m)
  {
    assert Rows(ps + [p]) == Rows(ps) + {p.row};
    assert Lookup(r, p.row) == None;
    forall q | q in ps ensures q.row != p.row { assert q.row in Rows(ps); }
  }

  lemma {:induction false} WriteAt<T>(ps: seq<Purchase>, value: Purchase -> Option<T>, m: map<int, T>)
    requires DistinctRows(ps) && Rows(ps) !! m.Keys
    ensures Written(Write(ps, value, m), ps, value, m)
  {
    if ps != [] {
      var front, p := ps[..|ps| - 1], ps[|ps| - 1];
      assert ps == front + [p] && p.row in Rows(ps);
      WriteAt(front, value, m);
      NewRow(front, p);
      WriteStep(Write(front, value, m), front, p, value, m);
    }
  }

  function Lookup<T>(m: map<int, T>, row: int): Option<T> { if row in m then Some(m[row]) else None }

  // ---- cutting a group out of the pending list ----

  lemma {:induction false} FilterTwice<T>(xs: seq<T>, p: T -> bool, q: T -> bool, both: T -> bool)
    requires forall x <- xs :: both(x) == (p(x) && q(x))
    ensures Filter(Filter(xs, p), q) == Filter(xs, both)
  {
    if xs != [] {
      var n := |xs| - 1;
      FilterTwice(xs[..n], p, q, both);
      if p(xs[n]) { FilterPush(Filter(xs[..n], p), xs[n], q); }
    }
  }

  lemma OutsideWindow(ps: seq<Purchase>, w: Window, i: nat)
    requires IsWindow(ps, w) && DistinctRows(ps) && i < |ps|
    ensures ps[i].row in Rows(ps[w.start..w.end]) <==> w.start <= i < w.end
  {
    var b := ps[w.start..w.end];
    if w.start <= i < w.end {
      assert b[i - w.start] == ps[i];
    } else {
      forall p | p in b ensures p.row != ps[i].row {
        var j :| 0 <= j < |b| && b[j] == p;
        assert ps[w.start + j].row != ps[i].row;
      }
    }
  }

  lemma WindowParts(ps: seq<Purchase>, w: Window)
    requires IsWindow(ps, w) && DistinctRows(ps)
    ensures var out := Unpaid(Rows(ps[w.start..w.end]));
            && Filter(ps[..w.start], out) == ps[..w.start]
            && Filter(ps[w.start..w.end], out) == []
            && Filter(ps[w.end..], out) == ps[w.end..]
  {
    var out := Unpaid(Rows(ps[w.start..w.end]));
    var a, b, c := ps[..w.start], ps[w.start..w.end], ps[w.end..];
    forall i | 0 <= i < |a| ensures out(a[i]) { OutsideWindow(ps, w, i); }
    forall i | 0 <= i < |b| ensures !out(b[i]) { OutsideWindow(ps, w, w.start + i); }
    forall i | 0 <= i < |c| ensures out(c[i]) { OutsideWindow(ps, w, w.end + i); }
    KeepAll(a, out);
    KeepNone(b, out);
    KeepAll(c, out);
  }

  lemma Parts<T>(xs: seq<T>, a: nat, b: nat)
    requires a <= b <= |xs|
    ensures xs[..a] + xs[a..b] + xs[b..] == xs
  {
  }

  /** Taking a window out of a list of distinct rows leaves the rest in order. */
  lemma CutWindow(ps: seq<Purchase>, w: Window)
    requires IsWindow(ps, w) && DistinctRows(ps)
    ensures Filter(ps, Unpaid(Rows(ps[w.start..w.end]))) == ps[..w.start] + ps[w.end..]
  {
    WindowParts(ps, w);
    FilterParts(ps[..w.start], ps[w.start..w.end], ps[w.end..], Unpaid(Rows(ps[w.start..w.end])));
    Parts(ps, w.start, w.end);
  }

  lemma FilterParts<T>(a: seq<T>, b: seq<T>, c: seq<T>, p: T -> bool)
    requires Filter(a, p) == a && Filter(b, p) == [] && Filter(c, p) == c
    ensures Filter(a + b + c, p) == a + c
  {
    FilterConcat(a + b, c, p);
    FilterConcat(a, b, p);
    assert a + [] == a;
  }

  lemma {:induction false} FilterDistinctRows(ps: seq<Purchase>, p: Purchase -> bool)
    requires DistinctRows(ps)
    ensures DistinctRows(Filter(ps, p))
  {
    if ps != [] {
      var n := |ps| - 1;
      FilterDistinctRows(ps[..n], p);
      var rest := Filter(ps[..n], p);
      forall i | 0 <= i < |rest| ensures rest[i].row != ps[n].row {
        assert rest[i] in ps[..n];
        var k :| 0 <= k < n && ps[k] == rest[i];
      }
    }
  }

  lemma PaidPush(log: seq<Payout>, g: Payout)
    ensures PaidRows(log + [g]) == PaidRows(log) + Rows(g.purchases)
  {
    assert (log + [g])[..|log|] == log;
  }

  /** Pending purchases are unpaid. */
  lemma PendingUnpaid(trades: seq<Purchase>, log: seq<Payout>, purchases: seq<Purchase>)
    requires forall p <- purchases :: p in PendingOf(trades, log)
    ensures Rows(purchases) !! PaidRows(log)
  {
    forall p | p in purchases ensures p.row !in PaidRows(log) { assert Unpaid(PaidRows(log))(p); }
  }

  lemma PendingPush(trades: seq<Purchase>, log: seq<Payout>, g: Payout)
    ensures PendingOf(trades, log + [g]) == Filter(PendingOf(trades, log), Unpaid(Rows(g.purchases)))
  {
    PaidPush(log, g);
    FilterTwice(trades, Unpaid(PaidRows(log)), Unpaid(Rows(g.purchases)), Unpaid(PaidRows(log + [g])));
  }

  lemma PayPending(trades: seq<Purchase>, log: seq<Payout>, g: Payout, w: Window)
    requires DistinctRows(PendingOf(trades, log)) && IsWindow(PendingOf(trades, log), w)
    requires g.purchases == PendingOf(trades, log)[w.start..w.end]
    ensures PendingOf(trades, log + [g]) == PendingOf(trades, log)[..w.start] + PendingOf(trades, log)[w.end..]
  {
    CutWindow(PendingOf(trades, log), w);
    PendingPush(trades, log, g);
  }

  lemma PayWindow(trades: seq<Purchase>, log: seq<Payout>, g: Payout, w: Window)
    requires DistinctRows(trades) && IsWindow(PendingOf(trades, log), w)
    requires g.purchases == PendingOf(trades, log)[w.start..w.end]
    ensures PendingOf(trades, log + [g]) == PendingOf(trades, log)[..w.start] + PendingOf(trades, log)[w.end..]
    ensures PaidRows(log + [g]) == PaidRows(log) + Rows(g.purchases) && Rows(g.purchases) !! PaidRows(log)
    ensures DistinctRows(g.purchases)
  {
    FilterDistinctRows(trades, Unpaid(PaidRows(log)));
    PayPending(trades, log, g, w);
    PaidPush(log, g);
    PendingUnpaid(trades, log, g.purchases);
  }

  lemma {:induction false} TradesFrom(timeline: seq<Event>, p: Purchase)
    requires p in Trades(timeline)
    ensures Trade(p) in timeline
  {
    var n := |timeline| - 1;
    if timeline[n] != Trade(p) { TradesFrom(timeline[..n], p); }
  }

  lemma TradesPush(timeline: seq<Event>, k: nat)
    requires k < |timeline|
    ensures Trades(timeline[..k + 1]) ==
            Trades(timeline[..k]) + if timeline[k].Trade? then [timeline[k].purchase] else []
  {
    assert timeline[..k + 1][..k] == timeline[..k];
  }

  lemma {:induction false} TradesPrefix(timeline: seq<Event>, k: nat)
    requires k <= |timeline| && DistinctRows(Trades(timeline))
    ensures Trades(timeline[..k]) <= Trades(timeline)
    ensures DistinctRows(Trades(timeline[..k]))
    decreases |timeline| - k
  {
    if k == |timeline| {
      assert timeline[..k] == timeline;
    } else {
      TradesPush(timeline, k);
      TradesPrefix(timeline, k + 1);
    }
  }

  // ---- the timeline ----

  /** The variables after `k` events. */
  ghost predicate Tracks(native: bool, timeline: seq<Event>, k: nat, log: seq<Payout>, pending: seq<Purchase>,
                         alloc: map<int, real>, transport: map<int, Transport>)
  {
    && k <= |timeline|
    && Explained(native, timeline, k, log)
    && pending == PendingOf(Trades(timeline[..k]), log)
    && Recorded(log, alloc, transport)
    && transport.Keys <= alloc.Keys
  }

  lemma {:induction false} ExplainedBefore(native: bool, timeline: seq<Event>, k: nat, log: seq<Payout>)
    requires k <= |timeline| && Explained(native, timeline, k, log)
    ensures forall g <- log :: g.at < k
    decreases k
  {
    if k > 0 {
      if timeline[k - 1].Withdrawal? && log != [] && log[|log| - 1].at == k - 1 {
        ExplainedBefore(native, timeline, k - 1, log[..|log| - 1]);
        assert log == log[..|log| - 1] + [log[|log| - 1]];
      } else {
        ExplainedBefore(native, timeline, k - 1, log);
      }
    }
  }

  /** A trade joins the end of the pending list. */
  lemma TradeTracks(native: bool, timeline: seq<Event>, k: nat, log: seq<Payout>, pending: seq<Purchase>,
                    alloc: map<int, real>, transport: map<int, Transport>)
    requires k < |timeline| && Tracks(native, timeline, k, log, pending, alloc, transport) && timeline[k].Trade?
    requires Parsed(timeline)
    ensures Tracks(native, timeline, k + 1, log, pending + [timeline[k].purchase], alloc, transport)
  {
    var p := timeline[k].purchase;
    TradesPush(timeline, k);
    TradesPrefix(timeline, k + 1);
    FilterPush(Trades(timeline[..k]), p, Unpaid(PaidRows(log)));
    PaidFromTrades(native, timeline, k, log);
    NewRow(Trades(timeline[..k]), p);
  }

  /** What the last event of an explained run says about the payouts. */
  lemma ExplainedLast(native: bool, timeline: seq<Event>, k: nat, log: seq<Payout>)
    requires 0 < k <= |timeline| && Explained(native, timeline, k, log)
    ensures if timeline[k - 1].Withdrawal? && log != [] && log[|log| - 1].at == k - 1
            then Explained(native, timeline, k - 1, log[..|log| - 1])
                 && PaysChosen(native, timeline, log[..|log| - 1], log[|log| - 1])
            else Explained(native, timeline, k - 1, log)
  {
  }

  lemma TradesGrow(timeline: seq<Event>, k: nat)
    requires k < |timeline|
    ensures Rows(Trades(timeline[..k])) <= Rows(Trades(timeline[..k + 1]))
  {
    TradesPush(timeline, k);
  }

  lemma GroupRows(native: bool, timeline: seq<Event>, before: seq<Payout>, g: Payout)
    requires PaysChosen(native, timeline, before, g)
    ensures Rows(g.purchases) <= Rows(Trades(timeline[..g.at]))
  {
    GroupFromTrades(native, timeline, before, g);
  }

  /** The rows of all trades up to `k` include what is paid. */
  ghost predicate PaysSeen(timeline: seq<Event>, k: nat, log: seq<Payout>)
    requires k <= |timeline|
  {
    PaidRows(log) <= Rows(Trades(timeline[..k]))
  }

  lemma StillSeen(timeline: seq<Event>, k: nat, log: seq<Payout>)
    requires 0 < k <= |timeline| && PaysSeen(timeline, k - 1, log)
    ensures PaysSeen(timeline, k, log)
  {
    TradesGrow(timeline, k - 1);
  }

  /** A group that is paid came from the trades so far. */
  lemma GroupSeen(native: bool, timeline: seq<Event>, k: nat, log: seq<Payout>)
    requires 0 < k <= |timeline| && log != [] && log[|log| - 1].at == k - 1
    requires PaysChosen(native, timeline, log[..|log| - 1], log[|log| - 1])
    requires PaysSeen(timeline, k - 1, log[..|log| - 1])
    ensures PaysSeen(timeline, k, log)
  {
    TradesGrow(timeline, k - 1);
    GroupRows(native, timeline, log[..|log| - 1], log[|log| - 1]);
  }

  /** Only purchases seen so far are paid. */
  lemma {:induction false} PaidFromTrades(native: bool, timeline: seq<Event>, k: nat, log: seq<Payout>)
    requires k <= |timeline| && Explained(native, timeline, k, log)
    ensures PaysSeen(timeline, k, log)
    decreases k
  {
    if k > 0 {
      ExplainedLast(native, timeline, k, log);
      if timeline[k - 1].Withdrawal? && log != [] && log[|log| - 1].at == k - 1 {
        PaidFromTrades(native, timeline, k - 1, log[..|log| - 1]);
        GroupSeen(native, timeline, k, log);
      } else {
        PaidFromTrades(native, timeline, k - 1, log);
        StillSeen(timeline, k, log);
      }
    }
  }

  lemma GroupFromTrades(native: bool, timeline: seq<Event>, before: seq<Payout>, g: Payout)
    requires PaysChosen(native, timeline, before, g)
    ensures forall p <- g.purchases :: p in Trades(timeline[..g.at]) && p.row !in PaidRows(before)
    ensures g.purchases != []
  {
    var pending := PendingOf(Trades(timeline[..g.at]), before);
    forall p | p in g.purchases ensures p in Trades(timeline[..g.at]) && p.row !in PaidRows(before) {
      assert p in pending;
      assert Unpaid(PaidRows(before))(p);
    }
  }

  lemma SkipTracks(native: bool, timeline: seq<Event>, k: nat, log: seq<Payout>, pending: seq<Purchase>,
                   alloc: map<int, real>, transport: map<int, Transport>)
    requires k < |timeline| && Tracks(native, timeline, k, log, pending, alloc, transport) && timeline[k].Withdrawal?
    requires NothingChosen(native, timeline[k], pending)
    ensures Tracks(native, timeline, k + 1, log, pending, alloc, transport)
  {
    TradesPush(timeline, k);
    assert Trades(timeline[..k]) + [] == Trades(timeline[..k]);
    ExplainedBefore(native, timeline, k, log);
    if log != [] { assert log[|log| - 1] in log; }
  }

  lemma AllocatedStill(h: Payout, alloc: map<int, real>, transport: map<int, Transport>,
                       alloc': map<int, real>, transport': map<int, Transport>)
    requires Allocated(h, alloc, transport)
    requires forall p <- h.purchases ::
               Lookup(alloc', p.row) == Lookup(alloc, p.row) && Lookup(transport', p.row) == Lookup(transport, p.row)
    ensures Allocated(h, alloc', transport')
  {
  }

  /** What a new payout records. */
  lemma GroupRecorded(g: Payout, alloc: map<int, real>, transport: map<int, Transport>)
    requires Divisible(g.purchases) && g.net > 0.0 && DistinctRows(g.purchases)
    requires forall row <- Rows(g.purchases) :: row !in alloc && row !in transport
    ensures AllocAfter(g, alloc).Keys <= alloc.Keys + Rows(g.purchases)
    ensures Allocated(g, AllocAfter(g, alloc), TransportAfter(g, transport))
    ensures forall row: int :: row !in Rows(g.purchases) ==>
              && Lookup(AllocAfter(g, alloc), row) == Lookup(alloc, row)
              && Lookup(TransportAfter(g, transport), row) == Lookup(transport, row)
  {
    var n := |g.purchases|;
    assert g.purchases[..n] == g.purchases;
    assert forall p <- g.purchases :: p.row in Rows(g.purchases);
    WriteAt(g.purchases, Allocates(g.net, Prefix(g.purchases, n)), alloc);
    WriteAt(g.purchases, Carries(g.net, Prefix(g.purchases, n), TransportOf(g)), transport);
  }

  /** Where a transport is noted, so is an allocation. */
  lemma TransportAllocated(g: Payout, alloc: map<int, real>, transport: map<int, Transport>, row: int)
    requires Allocated(g, alloc, transport) && row in Rows(g.purchases) && row in transport
    ensures row in alloc
  {
    var p :| p in g.purchases && p.row == row;
  }

  lemma PaidRecorded(log: seq<Payout>, g: Payout, alloc: map<int, real>, transport: map<int, Transport>)
    requires Recorded(log, alloc, transport) && transport.Keys <= alloc.Keys
    requires Divisible(g.purchases) && g.net > 0.0 && DistinctRows(g.purchases)
    requires Rows(g.purchases) !! PaidRows(log)
    ensures Recorded(log + [g], AllocAfter(g, alloc), TransportAfter(g, transport))
    ensures TransportAfter(g, transport).Keys <= AllocAfter(g, alloc).Keys
  {
    var a, t := AllocAfter(g, alloc), TransportAfter(g, transport);
    assert (log + [g])[..|log|] == log;
    GroupRecorded(g, alloc, transport);
    forall h | h in log ensures Allocated(h, a, t) {
      PaidHas(log, h);
      assert forall p <- h.purchases :: p.row in Rows(h.purchases);
      AllocatedStill(h, alloc, transport, a, t);
    }
    forall row | row in t ensures row in a {
      if row in Rows(g.purchases) {
        TransportAllocated(g, a, t, row);
      } else {
        assert Lookup(t, row) == Lookup(transport, row) && Lookup(a, row) == Lookup(alloc, row);
      }
    }
  }

  lemma {:induction false} PaidHas(log: seq<Payout>, h: Payout)
    requires h in log
    ensures Rows(h.purchases) <= PaidRows(log)
  {
    if h != log[|log| - 1] { PaidHas(log[..|log| - 1], h); }
  }

  /** A payout removes exactly its group from the pending list. */
  lemma PayTracks(native: bool, timeline: seq<Event>, k: nat, log: seq<Payout>, pending: seq<Purchase>,
                  alloc: map<int, real>, transport: map<int, Transport>, w: Window, g: Payout)
    requires k < |timeline| && Tracks(native, timeline, k, log, pending, alloc, transport) && timeline[k].Withdrawal?
    requires Parsed(timeline)
    requires Chosen(pending, GrossOf(native, timeline[k]), SlackOf(native, timeline[k]), w)
    requires g == Payout(k, pending[w.start..w.end], timeline[k].net, timeline[k].fee)
    requires Divisible(g.purchases)
    ensures Tracks(native, timeline, k + 1, log + [g], pending[..w.start] + pending[w.end..],
                   AllocAfter(g, alloc), TransportAfter(g, transport))
  {
    assert timeline[k] in timeline;
    TradesPush(timeline, k);
    TradesPrefix(timeline, k);
    assert Trades(timeline[..k]) + [] == Trades(timeline[..k]);
    PayWindow(Trades(timeline[..k]), log, g, w);
    PaidRecorded(log, g, alloc, transport);
    assert (log + [g])[..|log|] == log;
    assert PaysChosen(native, timeline, log, g);
  }

  lemma PendingNonNegative(timeline: seq<Event>, k: nat, log: seq<Payout>)
    requires k <= |timeline| && Parsed(timeline)
    ensures NonNegative(PendingOf(Trades(timeline[..k]), log))
  {
    forall p | p in PendingOf(Trades(timeline[..k]), log) ensures p.gross >= 0.0 {
      TradesFrom(timeline[..k], p);
      assert Trade(p) in timeline;
    }
  }

  /** A withdrawal pays out the group it unambiguously stands for; any other one leaves everything alone. */
  method Withdraw(native: bool, timeline: seq<Event>, k: nat, pending0: seq<Purchase>, alloc0: map<int, real>,
                  transport0: map<int, Transport>, ghost log0: seq<Payout>)
    returns (pending: seq<Purchase>, alloc: map<int, real>, transport: map<int, Transport>, ghost log: seq<Payout>)
    requires k < |timeline| && Parsed(timeline) && timeline[k].Withdrawal?
    requires Tracks(native, timeline, k, log0, pending0, alloc0, transport0)
    ensures Tracks(native, timeline, k + 1, log, pending, alloc, transport)
    ensures forall w: Window :: Chosen(pending0, GrossOf(native, timeline[k]), SlackOf(native, timeline[k]), w) ==>
              pending == pending0[..w.start] + pending0[w.end..]
    ensures NothingChosen(native, timeline[k], pending0) ==>
              pending == pending0 && alloc == alloc0 && transport == transport0
  {
    pending, alloc, transport, log := pending0, alloc0, transport0, log0;
    assert timeline[k] in timeline;
    PendingNonNegative(timeline, k, log0);
    var w := MatchingWindow(pending0, GrossOf(native, timeline[k]), SlackOf(native, timeline[k]));
    if w.None? {
      SkipTracks(native, timeline, k, log0, pending0, alloc0, transport0);
    } else {
      var g := Payout(k, pending0[w.value.start..w.value.end], timeline[k].net, timeline[k].fee);
      ChosenDivisible(pending0, GrossOf(native, timeline[k]), SlackOf(native, timeline[k]), w.value);
      PayTracks(native, timeline, k, log0, pending0, alloc0, transport0, w.value, g);
      alloc, transport := Distribute(g, alloc0, transport0);
      pending := pending0[..w.value.start] + pending0[w.value.end..];
      log := log0 + [g];
    }
  }

  /** Walk the timeline: purchases wait for the withdrawal that pays them out. */
  method Reconcile(native: bool, timeline: seq<Event>)
    returns (alloc: map<int, real>, transport: map<int, Transport>, pending: seq<Purchase>)
    requires Parsed(timeline)
    ensures exists log: seq<Payout> :: Tracks(native, timeline, |timeline|, log, pending, alloc, transport)
  {
    alloc, transport, pending := map[], map[], [];
    ghost var log: seq<Payout> := [];
    for i := 0 to |timeline|
      invariant Tracks(native, timeline, i, log, pending, alloc, transport)
    {
      match timeline[i] {
        case Trade(p) =>
          TradeTracks(native, timeline, i, log, pending, alloc, transport);
          pending := pending + [p];
        case Withdrawal(_, _, _) =>
          pending, alloc, transport, log := Withdraw(native, timeline, i, pending, alloc, transport, log);
      }
    }
  }

  // ---- what follows for a whole timeline ----

  /** A new group meets none of the groups paid before. */
  lemma GroupIsNew(native: bool, timeline: seq<Event>, before: seq<Payout>, g: Payout, i: nat)
    requires PaysChosen(native, timeline, before, g) && i < |before|
    ensures Rows(before[i].purchases) !! Rows(g.purchases)
  {
    GroupFromTrades(native, timeline, before, g);
    assert before[i] in before;
    PaidHas(before, before[i]);
  }

  /** No purchase is paid twice. */
  lemma {:induction false} PaidOnce(native: bool, timeline: seq<Event>, k: nat, log: seq<Payout>, i: nat, j: nat)
    requires k <= |timeline| && Explained(native, timeline, k, log) && i < j < |log|
    ensures Rows(log[i].purchases) !! Rows(log[j].purchases)
    decreases k
  {
    if k > 0 {
      ExplainedLast(native, timeline, k, log);
      if timeline[k - 1].Withdrawal? && log[|log| - 1].at == k - 1 {
        var before := log[..|log| - 1];
        if j < |log| - 1 {
          PaidOnce(native, timeline, k - 1, before, i, j);
        } else {
          GroupIsNew(native, timeline, before, log[j], i);
        }
      } else {
        PaidOnce(native, timeline, k - 1, log, i, j);
      }
    }
  }

  /** Payouts follow the order of the timeline. */
  lemma {:induction false} PayoutsRise(native: bool, timeline: seq<Event>, k: nat, log: seq<Payout>, i: nat, j: nat)
    requires k <= |timeline| && Explained(native, timeline, k, log) && i < j < |log|
    ensures log[i].at < log[j].at
    decreases k
  {
    if k > 0 {
      ExplainedLast(native, timeline, k, log);
      if timeline[k - 1].Withdrawal? && log[|log| - 1].at == k - 1 {
        var before := log[..|log| - 1];
        if j < |log| - 1 {
          PayoutsRise(native, timeline, k - 1, before, i, j);
        } else {
          ExplainedBefore(native, timeline, k - 1, before);
          assert log[i] in before;
        }
      } else {
        PayoutsRise(native, timeline, k - 1, log, i, j);
      }
    }
  }

  /** A purchase is paid only by a withdrawal that comes after it. */
  lemma {:induction false} PaidAfter(native: bool, timeline: seq<Event>, k: nat, log: seq<Payout>, i: nat)
    requires k <= |timeline| && Explained(native, timeline, k, log) && i < |log|
    ensures log[i].at < k && timeline[log[i].at].Withdrawal? && log[i].net == timeline[log[i].at].net
    ensures forall p <- log[i].purchases :: p in Trades(timeline[..log[i].at])
    decreases k
  {
    if k > 0 {
      ExplainedLast(native, timeline, k, log);
      if timeline[k - 1].Withdrawal? && log[|log| - 1].at == k - 1 {
        var before := log[..|log| - 1];
        if i < |log| - 1 {
          PaidAfter(native, timeline, k - 1, before, i);
        } else {
          GroupFromTrades(native, timeline, before, log[i]);
        }
      } else {
        PaidAfter(native, timeline, k - 1, log, i);
      }
    }
  }

  /** A purchase is paid only by a withdrawal that comes after it, and a withdrawal pays at most once. */
  lemma PaidLater(native: bool, timeline: seq<Event>, k: nat, log: seq<Payout>, i: nat)
    requires k <= |timeline| && Explained(native, timeline, k, log) && i < |log|
    ensures log[i].at < k && timeline[log[i].at].Withdrawal? && log[i].net == timeline[log[i].at].net
    ensures forall p <- log[i].purchases :: p in Trades(timeline[..log[i].at])
    ensures forall j :: 0 <= j < |log| && j != i ==> log[j].at != log[i].at
  {
    PaidAfter(native, timeline, k, log, i);
    forall j | 0 <= j < |log| && j != i ensures log[j].at != log[i].at {
      if j < i { PayoutsRise(native, timeline, k, log, j, i); } else { PayoutsRise(native, timeline, k, log, i, j); }
    }
  }

  function AllocationIn(alloc: map<int, real>): Purchase -> real
  {
    (p: Purchase) => if p.row in alloc then alloc[p.row] else 0.0
  }

  /** The allocations of a payout's purchases add up to exactly the net amount of its withdrawal. */
  lemma PayoutIsSpent(log: seq<Payout>, alloc: map<int, real>, transport: map<int, Transport>, g: Payout)
    requires Recorded(log, alloc, transport) && g in log
    ensures Sum(g.purchases, AllocationIn(alloc)) == g.net
  {
    var total := Prefix(g.purchases, |g.purchases|);
    assert Allocated(g, alloc, transport);
    forall p | p in g.purchases ensures AllocationIn(alloc)(p) == Max(ShareOf(g.net, p.gross, total), 0.0) {}
    if total > 0.0 {
      SharesSum(g.purchases, alloc, g.net, total, |g.purchases|);
      assert g.purchases[..|g.purchases|] == g.purchases;
      SharesAdd(g.net, 0.0, 0.0, total);
    } else {
      assert g.purchases == [g.purchases[0]];
      SumOne(g.purchases[0], AllocationIn(alloc));
    }
  }

  lemma {:induction false} SharesSum(ps: seq<Purchase>, alloc: map<int, real>, net: real, total: real, k: nat)
    requires k <= |ps| && total > 0.0 && net >= 0.0 && forall p <- ps :: p.gross >= 0.0
    requires forall p <- ps :: AllocationIn(alloc)(p) == Max(ShareOf(net, p.gross, total), 0.0)
    ensures Sum(ps[..k], AllocationIn(alloc)) == ShareOf(net, Prefix(ps, k), total)
  {
    if k == 0 {
      SharesAdd(net, 0.0, 0.0, total);
    } else {
      SharesSum(ps, alloc, net, total, k - 1);
      assert ps[..k] == ps[..k - 1] + [ps[k - 1]];
      SumPush(ps[..k - 1], ps[k - 1], AllocationIn(alloc));
      SharesAdd(net, Prefix(ps, k - 1), ps[k - 1].gross, total);
      ShareNonNegative(net, ps[k - 1].gross, total);
    }
  }
}

/** Wavespace's assignment of fee, withdrawal, network-fee, deposit and metadata rows to events: candidate
    pairs in score order, each taken if both of its sides are still free. */
module GreedyMatching {
  import opened Sorting

  datatype Pair = Pair(score: real, event: nat, row: nat)

  predicate PairLe(a: Pair, b: Pair)
  {
    a.score < b.score ||
    (a.score == b.score && (a.event < b.event || (a.event == b.event && a.row <= b.row)))
  }

  lemma PairOrder()
    ensures Preorder(PairLe)
  {
  }

  predicate Conflict(a: Pair, b: Pair) { a.event == b.event || a.row == b.row }

  /** No event and no row is used twice. */
  ghost predicate Matching(chosen: set<Pair>)
  {
    forall a, b :: a in chosen && b in chosen && a != b ==> !Conflict(a, b)
  }

  /** Every candidate is chosen or has its event or its row taken by a chosen pair that is not later. */
  ghost predicate Stable(pairs: set<Pair>, chosen: set<Pair>)
  {
    && chosen <= pairs
    && Matching(chosen)
    && forall p :: p in pairs && p !in chosen ==> exists q :: q in chosen && Conflict(p, q) && PairLe(q, p)
  }

  function PairsOf(ps: seq<Pair>): set<Pair> { set p | p in ps }

  function EventsOf(chosen: set<Pair>): set<nat> { set p | p in chosen :: p.event }
  function RowsOf(chosen: set<Pair>): set<nat> { set p | p in chosen :: p.row }

  /** The events' partners are exactly the chosen pairs. */
  ghost predicate Records(partner: map<nat, nat>, chosen: set<Pair>)
  {
    partner.Keys == EventsOf(chosen) && forall p :: p in chosen ==> partner[p.event] == p.row
  }

  lemma TakeFree(pairs: set<Pair>, chosen: set<Pair>, p: Pair)
    requires Stable(pairs, chosen) && p.event !in EventsOf(chosen) && p.row !in RowsOf(chosen)
    ensures Stable(pairs + {p}, chosen + {p})
    ensures EventsOf(chosen + {p}) == EventsOf(chosen) + {p.event} && RowsOf(chosen + {p}) == RowsOf(chosen) + {p.row}
  {
    forall q | q in chosen ensures !Conflict(p, q) {
      assert q.event in EventsOf(chosen) && q.row in RowsOf(chosen);
    }
    forall q | q in pairs + {p} && q !in chosen + {p}
      ensures exists r :: r in chosen + {p} && Conflict(q, r) && PairLe(r, q)
    {
      var r :| r in chosen && Conflict(q, r) && PairLe(r, q);
      assert r in chosen + {p};
    }
  }

  lemma SkipTaken(pairs: set<Pair>, chosen: set<Pair>, p: Pair)
    requires Stable(pairs, chosen) && (p.event in EventsOf(chosen) || p.row in RowsOf(chosen))
    requires forall q :: q in pairs ==> PairLe(q, p)
    ensures Stable(pairs + {p}, chosen)
  {
    var q :| q in chosen && (q.event == p.event || q.row == p.row);
    assert Conflict(p, q) && PairLe(q, p);
  }

  /** The partners returned are those of a stable assignment of all candidates. */
  method Assign(pairs: seq<Pair>) returns (partner: map<nat, nat>)
    ensures exists chosen: set<Pair> :: Stable(PairsOf(pairs), chosen) && Records(partner, chosen)
  {
    var sorted := Sort(pairs, PairLe);
    SortedPairs(pairs);
    partner := map[];
    ghost var chosen: set<Pair> := {};
    var usedEvents: set<nat>, usedRows: set<nat> := {}, {};
    for i := 0 to |sorted|
      invariant Stable(PairsOf(sorted[..i]), chosen) && Records(partner, chosen)
      invariant usedEvents == EventsOf(chosen) && usedRows == RowsOf(chosen)
    {
      var p := sorted[i];
      PrefixPairs(sorted, i);
      if p.event in usedEvents || p.row in usedRows {
        SkipTaken(PairsOf(sorted[..i]), chosen, p);
        continue;
      }
      TakeFree(PairsOf(sorted[..i]), chosen, p);
      RecordsTake(partner, chosen, p);
      partner := partner[p.event := p.row];
      usedEvents, usedRows, chosen := usedEvents + {p.event}, usedRows + {p.row}, chosen + {p};
    }
    assert sorted[..|sorted|] == sorted;
  }

  lemma SortedPairs(pairs: seq<Pair>)
    ensures Sorted(Sort(pairs, PairLe), PairLe) && PairsOf(Sort(pairs, PairLe)) == PairsOf(pairs)
  {
    PairOrder();
    SortSorts(pairs, PairLe);
    SortPermutes(pairs, PairLe);
    SameElements(Sort(pairs, PairLe), pairs);
  }

  lemma PrefixPairs(sorted: seq<Pair>, i: nat)
    requires i < |sorted| && Sorted(sorted, PairLe)
    ensures PairsOf(sorted[..i + 1]) == PairsOf(sorted[..i]) + {sorted[i]}
    ensures forall q :: q in PairsOf(sorted[..i]) ==> PairLe(q, sorted[i])
  {
    assert sorted[..i + 1] == sorted[..i] + [sorted[i]];
    forall q | q in sorted[..i] ensures PairLe(q, sorted[i]) { EarlierInOrder(sorted, i, q); }
  }

  lemma RecordsTake(partner: map<nat, nat>, chosen: set<Pair>, p: Pair)
    requires Records(partner, chosen) && p.event !in EventsOf(chosen)
    requires EventsOf(chosen + {p}) == EventsOf(chosen) + {p.event}
    ensures Records(partner[p.event := p.row], chosen + {p})
  {
    forall q | q in chosen ensures q.event != p.event { assert q.event in EventsOf(chosen); }
  }

  /** The assignment is injective both ways: no two events share a row. */
  lemma PartnersDiffer(pairs: set<Pair>, chosen: set<Pair>, partner: map<nat, nat>, d: nat, e: nat)
    requires Stable(pairs, chosen) && Records(partner, chosen) && d in partner && e in partner && d != e
    ensures partner[d] != partner[e]
  {
    assert d in EventsOf(chosen) && e in EventsOf(chosen);
    var p :| p in chosen && p.event == d;
    var q :| q in chosen && q.event == e;
    assert !Conflict(p, q);
  }

  lemma EarlierInOrder(sorted: seq<Pair>, i: nat, q: Pair)
    requires i < |sorted| && Sorted(sorted, PairLe) && q in sorted[..i]
    ensures PairLe(q, sorted[i])
  {
  }

  /** The assignment is maximal: no candidate has both of its sides free. */
  lemma Maximal(pairs: set<Pair>, chosen: set<Pair>, p: Pair)
    requires Stable(pairs, chosen) && p in pairs && p !in chosen
    ensures exists q :: q in chosen && Conflict(p, q)
  {
  }

  /** No candidate scores strictly better than every chosen pair on its event and on its row. */
  lemma NoBlockingPair(pairs: set<Pair>, chosen: set<Pair>, p: Pair)
    requires Stable(pairs, chosen) && p in pairs
    ensures !(forall q :: q in chosen && Conflict(p, q) ==> p.score < q.score)
  {
    if p in chosen {
      assert Conflict(p, p);
    } else {
      var q :| q in chosen && Conflict(p, q) && PairLe(q, p);
    }
  }

  /** Being stable leaves no choice: there is one such assignment. */
  lemma StableUnique(sorted: seq<Pair>, a: set<Pair>, b: set<Pair>)
    requires Sorted(sorted, PairLe) && Stable(PairsOf(sorted), a) && Stable(PairsOf(sorted), b)
    ensures a == b
  {
    forall k | 0 <= k < |sorted| ensures sorted[k] in a <==> sorted[k] in b { AgreeAt(sorted, a, b, k); }
    forall p ensures p in a <==> p in b {
      if p in PairsOf(sorted) {
        var k :| 0 <= k < |sorted| && sorted[k] == p;
      }
    }
  }

  lemma {:induction false} AgreeAt(sorted: seq<Pair>, a: set<Pair>, b: set<Pair>, k: nat)
    requires Sorted(sorted, PairLe) && Stable(PairsOf(sorted), a) && Stable(PairsOf(sorted), b) && k < |sorted|
    ensures sorted[k] in a <==> sorted[k] in b
    decreases k
  {
    if sorted[k] in a { ChosenInBoth(sorted, a, b, k); }
    if sorted[k] in b { ChosenInBoth(sorted, b, a, k); }
  }

  /** A pair chosen in one stable assignment is chosen in the other: whatever blocks it there is earlier,
      so it is chosen in both, and would clash with it in the first. */
  lemma {:induction false} ChosenInBoth(sorted: seq<Pair>, a: set<Pair>, b: set<Pair>, k: nat)
    requires Sorted(sorted, PairLe) && Stable(PairsOf(sorted), a) && Stable(PairsOf(sorted), b) && k < |sorted|
    requires sorted[k] in a
    ensures sorted[k] in b
    decreases k, 0
  {
    var p := sorted[k];
    if p !in b {
      var q :| q in b && Conflict(p, q) && PairLe(q, p);
      var j :| 0 <= j < |sorted| && sorted[j] == q;
      NotLater(sorted, k, j);
      AgreeAt(sorted, a, b, j);
      assert false;
    }
  }

  lemma NotLater(sorted: seq<Pair>, k: nat, j: nat)
    requires k < |sorted| && j < |sorted| && Sorted(sorted, PairLe)
    requires PairLe(sorted[j], sorted[k]) && sorted[j] != sorted[k]
    ensures j < k
  {
    assert k < j ==> PairLe(sorted[k], sorted[j]);
  }
}

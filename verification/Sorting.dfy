/** The host language's stable `sorted`, as a function, with the facts the ledger uses:
    it is a sorted permutation, and it is the only one when no two keys tie. */
module Sorting {
  import opened Sums

  /** A total preorder, i.e. what a sort key induces. */
  ghost predicate Preorder<T(!new)>(le: (T, T) -> bool)
  {
    && (forall a, b :: le(a, b) || le(b, a))
    && (forall a, b, c :: le(a, b) && le(b, c) ==> le(a, c))
  }

  ghost predicate Sorted<T>(xs: seq<T>, le: (T, T) -> bool)
  {
    forall i, j :: 0 <= i < j < |xs| ==> le(xs[i], xs[j])
  }

  /** Sorted with no ties: every later element is strictly above. */
  ghost predicate Strict<T>(xs: seq<T>, le: (T, T) -> bool)
  {
    forall i, j :: 0 <= i < j < |xs| ==> le(xs[i], xs[j]) && !le(xs[j], xs[i])
  }

  /** Insert after every element that is not above `x`: later rows stay behind equal ones. */
  function Insert<T>(xs: seq<T>, x: T, le: (T, T) -> bool): seq<T>
  {
    if xs == [] then [x]
    else if le(xs[|xs| - 1], x) then xs + [x]
    else Insert(xs[..|xs| - 1], x, le) + [xs[|xs| - 1]]
  }

  function Sort<T>(xs: seq<T>, le: (T, T) -> bool): seq<T>
  {
    if xs == [] then [] else Insert(Sort(xs[..|xs| - 1], le), xs[|xs| - 1], le)
  }

  lemma DropLast<T>(xs: seq<T>)
    requires xs != []
    ensures multiset(xs[..|xs| - 1]) == multiset(xs) - multiset{xs[|xs| - 1]}
  {
    assert xs == xs[..|xs| - 1] + [xs[|xs| - 1]];
  }

  lemma {:induction false} InsertPermutes<T>(xs: seq<T>, x: T, le: (T, T) -> bool)
    ensures multiset(Insert(xs, x, le)) == multiset(xs) + multiset{x}
  {
    if xs != [] && !le(xs[|xs| - 1], x) {
      InsertPermutes(xs[..|xs| - 1], x, le);
      assert xs == xs[..|xs| - 1] + [xs[|xs| - 1]];
    }
  }

  lemma {:induction false} SortPermutes<T>(xs: seq<T>, le: (T, T) -> bool)
    ensures multiset(Sort(xs, le)) == multiset(xs)
  {
    if xs != [] {
      SortPermutes(xs[..|xs| - 1], le);
      InsertPermutes(Sort(xs[..|xs| - 1], le), xs[|xs| - 1], le);
      DropLast(xs);
    }
  }

  lemma {:induction false} InsertSorts<T(!new)>(xs: seq<T>, x: T, le: (T, T) -> bool)
    requires Preorder(le) && Sorted(xs, le)
    ensures Sorted(Insert(xs, x, le), le)
  {
    if xs != [] {
      var n := |xs| - 1;
      if le(xs[n], x) {
        forall i | 0 <= i < n ensures le(xs[i], x) { assert le(xs[i], xs[n]); }
      } else {
        InsertSorts(xs[..n], x, le);
        InsertPermutes(xs[..n], x, le);
        var r := Insert(xs[..n], x, le);
        forall i | 0 <= i < |r| ensures le(r[i], xs[n]) {
          assert r[i] in multiset(r);
          assert r[i] == x || r[i] in xs[..n];
        }
      }
    }
  }

  lemma {:induction false} SortSorts<T(!new)>(xs: seq<T>, le: (T, T) -> bool)
    requires Preorder(le)
    ensures Sorted(Sort(xs, le), le)
  {
    if xs != [] {
      SortSorts(xs[..|xs| - 1], le);
      InsertSorts(Sort(xs[..|xs| - 1], le), xs[|xs| - 1], le);
    }
  }

  lemma SameElements<T>(xs: seq<T>, ys: seq<T>)
    requires multiset(xs) == multiset(ys)
    ensures |xs| == |ys|
    ensures forall x :: x in xs <==> x in ys
  {
    assert |multiset(xs)| == |multiset(ys)|;
    forall x ensures x in xs <==> x in ys {
      assert x in xs <==> x in multiset(xs);
      assert x in ys <==> x in multiset(ys);
    }
  }

  /** The greatest element of a strictly sorted list is its last. */
  lemma LastIsGreatest<T(!new)>(xs: seq<T>, y: T, le: (T, T) -> bool)
    requires Strict(xs, le) && y in xs && y != xs[|xs| - 1]
    ensures le(y, xs[|xs| - 1]) && !le(xs[|xs| - 1], y)
  {
    var i :| 0 <= i < |xs| && xs[i] == y;
    assert i < |xs| - 1;
  }

  lemma SameGreatest<T(!new)>(xs: seq<T>, ys: seq<T>, le: (T, T) -> bool)
    requires Strict(xs, le) && Strict(ys, le) && |xs| == |ys| > 0 && forall x :: x in xs <==> x in ys
    ensures xs[|xs| - 1] == ys[|ys| - 1]
  {
    var x, y := xs[|xs| - 1], ys[|ys| - 1];
    assert y in xs && x in ys;
    if x != y {
      LastIsGreatest(xs, y, le);
      LastIsGreatest(ys, x, le);
    }
  }

  /** A strictly sorted list is determined by its elements. */
  lemma {:induction false} StrictUnique<T(!new)>(xs: seq<T>, ys: seq<T>, le: (T, T) -> bool)
    requires Strict(xs, le) && Strict(ys, le)
    requires multiset(xs) == multiset(ys)
    ensures xs == ys
    decreases |xs|
  {
    SameElements(xs, ys);
    if xs != [] {
      var n := |xs| - 1;
      SameGreatest(xs, ys, le);
      DropLast(xs);
      DropLast(ys);
      StrictUnique(xs[..n], ys[..n], le);
    }
  }

  lemma {:induction false} FilterSorted<T>(xs: seq<T>, p: T -> bool, le: (T, T) -> bool)
    requires Sorted(xs, le)
    ensures Sorted(Filter(xs, p), le)
  {
    if xs != [] {
      var n := |xs| - 1;
      FilterSorted(xs[..n], p, le);
      var rest := Filter(xs[..n], p);
      forall i | 0 <= i < |rest| ensures le(rest[i], xs[n]) {
        assert rest[i] in xs[..n];
      }
    }
  }

  /** Insertion below a kept element that is not above. */
  lemma InsertLast<T(!new)>(xs: seq<T>, x: T, le: (T, T) -> bool)
    requires forall y <- xs :: le(y, x)
    ensures Insert(xs, x, le) == xs + [x]
  {
    if xs != [] { assert xs[|xs| - 1] in xs; }
  }

  /** A stable sort keeps what a filter keeps in the same places. */
  lemma {:induction false} FilterInsert<T(!new)>(xs: seq<T>, x: T, le: (T, T) -> bool, p: T -> bool)
    requires Preorder(le) && Sorted(xs, le)
    ensures Filter(Insert(xs, x, le), p) == if p(x) then Insert(Filter(xs, p), x, le) else Filter(xs, p)
  {
    if xs != [] {
      var n := |xs| - 1;
      if le(xs[n], x) {
        FilterPush(xs, x, p);
        forall y | y in Filter(xs, p) ensures le(y, x) {
          var i :| 0 <= i <= n && xs[i] == y;
          assert i < n ==> le(xs[i], xs[n]);
        }
        InsertLast(Filter(xs, p), x, le);
      } else {
        FilterInsert(xs[..n], x, le, p);
        FilterPush(Insert(xs[..n], x, le), xs[n], p);
        var kept := Filter(xs[..n], p);
        assert (kept + [xs[n]])[..|kept|] == kept;
      }
    }
  }

  lemma {:induction false} FilterSort<T(!new)>(xs: seq<T>, le: (T, T) -> bool, p: T -> bool)
    requires Preorder(le)
    ensures Filter(Sort(xs, le), p) == Sort(Filter(xs, p), le)
  {
    if xs != [] {
      var n := |xs| - 1;
      FilterSort(xs[..n], le, p);
      SortSorts(xs[..n], le);
      FilterInsert(Sort(xs[..n], le), xs[n], le, p);
      var kept := Filter(xs[..n], p);
      assert (kept + [xs[n]])[..|kept|] == kept;
    }
  }

  lemma {:induction false} InsertAlike<T(!new)>(xs: seq<T>, x: T, le: (T, T) -> bool, leq: (T, T) -> bool)
    requires forall y <- xs :: le(y, x) == leq(y, x)
    ensures Insert(xs, x, le) == Insert(xs, x, leq)
  {
    if xs != [] {
      assert xs[|xs| - 1] in xs;
      InsertAlike(xs[..|xs| - 1], x, le, leq);
    }
  }

  /** Two orders that agree on the elements sort them alike. */
  lemma {:induction false} SortAlike<T(!new)>(xs: seq<T>, le: (T, T) -> bool, leq: (T, T) -> bool)
    requires forall x <- xs, y <- xs :: le(x, y) == leq(x, y)
    ensures Sort(xs, le) == Sort(xs, leq)
  {
    if xs != [] {
      var n := |xs| - 1;
      SortAlike(xs[..n], le, leq);
      SortPermutes(xs[..n], le);
      SameElements(Sort(xs[..n], le), xs[..n]);
      InsertAlike(Sort(xs[..n], le), xs[n], le, leq);
    }
  }

  lemma SortedPair<T>(a: T, b: T, le: (T, T) -> bool)
    requires le(a, b)
    ensures Sort([a, b], le) == [a, b]
  {
    assert [a, b][..1] == [a] && [a][..0] == [];
    assert Sort([a], le) == [a];
  }
}

/** Real-valued sums over sequences, and the filtering of a sequence by a key.
    Every running total in the model is compared with one of these sums. */
module Sums {

  datatype Option<+T> = None | Some(value: T)

  function Min(a: real, b: real): real { if a <= b then a else b }
  function Max(a: real, b: real): real { if a <= b then b else a }

  /** A product under a name, so that equal factors are seen to give equal products. */
  function Times(a: real, b: real): real { a * b }

  lemma Append<T>(a: seq<T>, b: seq<T>, x: T)
    ensures a + b + [x] == a + (b + [x])
  {
  }

  function Sum<T>(xs: seq<T>, f: T -> real): real
  {
    if xs == [] then 0.0 else Sum(xs[..|xs| - 1], f) + f(xs[|xs| - 1])
  }

  lemma SumPush<T>(xs: seq<T>, x: T, f: T -> real)
    ensures Sum(xs + [x], f) == Sum(xs, f) + f(x)
  {
    assert (xs + [x])[..|xs|] == xs;
  }

  lemma SumOne<T>(x: T, f: T -> real)
    ensures Sum([x], f) == f(x)
  {
    SumPush([], x, f);
    assert [] + [x] == [x];
  }

  lemma {:induction false} SumConcat<T>(xs: seq<T>, ys: seq<T>, f: T -> real)
    ensures Sum(xs + ys, f) == Sum(xs, f) + Sum(ys, f)
  {
    if ys == [] {
      assert xs + ys == xs;
    } else {
      var n := |ys| - 1;
      assert xs + ys == (xs + ys[..n]) + [ys[n]];
      SumPush(xs + ys[..n], ys[n], f);
      SumConcat(xs, ys[..n], f);
    }
  }

  lemma SumFront<T>(x: T, xs: seq<T>, f: T -> real)
    ensures Sum([x] + xs, f) == f(x) + Sum(xs, f)
  {
    SumConcat([x], xs, f);
    SumOne(x, f);
  }

  lemma SumUpdate<T>(xs: seq<T>, k: nat, x: T, f: T -> real)
    requires k < |xs|
    ensures Sum(xs[k := x], f) == Sum(xs, f) - f(xs[k]) + f(x)
  {
    assert xs == xs[..k] + ([xs[k]] + xs[k + 1..]);
    assert xs[k := x] == xs[..k] + ([x] + xs[k + 1..]);
    SumConcat(xs[..k], [xs[k]] + xs[k + 1..], f);
    SumConcat(xs[..k], [x] + xs[k + 1..], f);
    SumConcat([xs[k]], xs[k + 1..], f);
    SumConcat([x], xs[k + 1..], f);
    SumPush([], x, f);
    SumPush([], xs[k], f);
    assert [] + [x] == [x] && [] + [xs[k]] == [xs[k]];
  }

  lemma {:induction false} SumSame<T>(xs: seq<T>, f: T -> real, g: T -> real)
    requires forall x <- xs :: f(x) == g(x)
    ensures Sum(xs, f) == Sum(xs, g)
  {
    if xs != [] { SumSame(xs[..|xs| - 1], f, g); }
  }

  lemma {:induction false} SumAtMost<T>(xs: seq<T>, f: T -> real, g: T -> real)
    requires forall x <- xs :: f(x) <= g(x)
    ensures Sum(xs, f) <= Sum(xs, g)
  {
    if xs != [] { SumAtMost(xs[..|xs| - 1], f, g); }
  }

  lemma {:induction false} SumSplit<T>(xs: seq<T>, f: T -> real, g: T -> real, h: T -> real)
    requires forall x <- xs :: f(x) == g(x) + h(x)
    ensures Sum(xs, f) == Sum(xs, g) + Sum(xs, h)
  {
    if xs != [] { SumSplit(xs[..|xs| - 1], f, g, h); }
  }

  lemma {:induction false} SumZero<T>(xs: seq<T>, f: T -> real)
    requires forall x <- xs :: f(x) == 0.0
    ensures Sum(xs, f) == 0.0
  {
    if xs != [] { SumZero(xs[..|xs| - 1], f); }
  }

  lemma {:induction false} SumNonNegative<T>(xs: seq<T>, f: T -> real)
    requires forall x <- xs :: f(x) >= 0.0
    ensures Sum(xs, f) >= 0.0
  {
    if xs != [] { SumNonNegative(xs[..|xs| - 1], f); }
  }

  /** The elements that satisfy a test, in order. */
  function Filter<T>(xs: seq<T>, p: T -> bool): (r: seq<T>)
    ensures forall x <- r :: x in xs && p(x)
    ensures |r| <= |xs|
  {
    if xs == [] then []
    else
      var rest := Filter(xs[..|xs| - 1], p);
      if p(xs[|xs| - 1]) then rest + [xs[|xs| - 1]] else rest
  }

  lemma FilterPush<T>(xs: seq<T>, x: T, p: T -> bool)
    ensures Filter(xs + [x], p) == Filter(xs, p) + (if p(x) then [x] else [])
  {
    assert (xs + [x])[..|xs|] == xs;
  }

  lemma {:induction false} FilterConcat<T>(xs: seq<T>, ys: seq<T>, p: T -> bool)
    ensures Filter(xs + ys, p) == Filter(xs, p) + Filter(ys, p)
  {
    if ys == [] {
      assert xs + ys == xs;
    } else {
      var n := |ys| - 1;
      assert xs + ys == (xs + ys[..n]) + [ys[n]];
      FilterPush(xs + ys[..n], ys[n], p);
      FilterConcat(xs, ys[..n], p);
    }
  }

  lemma {:induction false} FilterAll<T>(xs: seq<T>, p: T -> bool)
    requires forall x <- xs :: p(x)
    ensures Filter(xs, p) == xs
  {
    if xs != [] { FilterAll(xs[..|xs| - 1], p); }
  }

  lemma {:induction false} FilterNone<T>(xs: seq<T>, p: T -> bool)
    requires forall x <- xs :: !p(x)
    ensures Filter(xs, p) == []
  {
    if xs != [] { FilterNone(xs[..|xs| - 1], p); }
  }

  lemma {:induction false} KeepAll<T>(xs: seq<T>, p: T -> bool)
    requires forall i :: 0 <= i < |xs| ==> p(xs[i])
    ensures Filter(xs, p) == xs
  {
    if xs != [] {
      var n := |xs| - 1;
      KeepAll(xs[..n], p);
      assert xs[..n] + [xs[n]] == xs;
    }
  }

  lemma {:induction false} KeepNone<T>(xs: seq<T>, p: T -> bool)
    requires forall i :: 0 <= i < |xs| ==> !p(xs[i])
    ensures Filter(xs, p) == []
  {
    if xs != [] { KeepNone(xs[..|xs| - 1], p); }
  }

  /** A test that holds up to position `k` and not after keeps exactly that prefix. */
  lemma {:induction false} KeepPrefix<T>(xs: seq<T>, k: nat, p: T -> bool)
    requires k <= |xs|
    requires forall i :: 0 <= i < k ==> p(xs[i])
    requires forall i :: k <= i < |xs| ==> !p(xs[i])
    ensures Filter(xs, p) == xs[..k]
  {
    if k == |xs| {
      KeepAll(xs, p);
      assert xs[..k] == xs;
    } else {
      KeepPrefix(xs[..|xs| - 1], k, p);
      assert xs[..|xs| - 1][..k] == xs[..k];
    }
  }

  lemma {:induction false} FilterKeeps<T>(xs: seq<T>, x: T, p: T -> bool)
    requires x in xs && p(x)
    ensures x in Filter(xs, p)
  {
    if x != xs[|xs| - 1] { FilterKeeps(xs[..|xs| - 1], x, p); }
  }

  /** Sum over the elements that pass the test = sum with the others counted as zero. */
  lemma {:induction false} SumFilter<T>(xs: seq<T>, p: T -> bool, f: T -> real, g: T -> real)
    requires forall x <- xs :: g(x) == if p(x) then f(x) else 0.0
    ensures Sum(Filter(xs, p), f) == Sum(xs, g)
  {
    if xs != [] {
      var n := |xs| - 1;
      SumFilter(xs[..n], p, f, g);
      SumPush(Filter(xs[..n], p), xs[n], f);
    }
  }

  /** The test "belongs to this key", shared by every per-depot projection. */
  function Has<T>(key: T -> string, k: string): T -> bool { x => key(x) == k }

  /** Position of the last element with key `k`. */
  ghost function LastWithKey<T>(ys: seq<T>, key: T -> string, k: string): (j: nat)
    requires Filter(ys, Has(key, k)) != []
    ensures j < |ys| && key(ys[j]) == k
    ensures forall i :: j < i < |ys| ==> key(ys[i]) != k
  {
    var n := |ys| - 1;
    if key(ys[n]) == k then n else LastWithKey(ys[..n], key, k)
  }

  lemma FilterAround<T>(pre: seq<T>, x: T, post: seq<T>, p: T -> bool)
    ensures Filter(pre + [x] + post, p) == Filter(pre, p) + (if p(x) then [x] else []) + Filter(post, p)
  {
    FilterConcat(pre + [x], post, p);
    FilterPush(pre, x, p);
  }

  lemma SumAround<T>(pre: seq<T>, x: T, post: seq<T>, f: T -> real)
    ensures Sum(pre + [x] + post, f) == Sum(pre + post, f) + f(x)
  {
    SumConcat(pre + [x], post, f);
    SumPush(pre, x, f);
    SumConcat(pre, post, f);
  }

  /** Taking the last element of one interleaving out of the other keeps every projection equal. */
  lemma ShuffleStep<T>(xs: seq<T>, x: T, pre: seq<T>, post: seq<T>, key: T -> string, q: string)
    requires Filter(xs + [x], Has(key, q)) == Filter(pre + [x] + post, Has(key, q))
    requires forall y <- post :: key(y) != key(x)
    ensures Filter(xs, Has(key, q)) == Filter(pre + post, Has(key, q))
  {
    FilterPush(xs, x, Has(key, q));
    FilterAround(pre, x, post, Has(key, q));
    FilterConcat(pre, post, Has(key, q));
    if q == key(x) {
      FilterNone(post, Has(key, q));
      var a, b := Filter(xs, Has(key, q)), Filter(pre, Has(key, q));
      assert a + [x] == b + [x];
      assert a == (a + [x])[..|a|] && b == (b + [x])[..|b|];
    }
  }

  lemma SameLast<T>(xs: seq<T>, x: T, pre: seq<T>, y: T, post: seq<T>, key: T -> string)
    requires Filter(xs + [x], Has(key, key(x))) == Filter(pre + [y] + post, Has(key, key(x)))
    requires key(y) == key(x) && forall z <- post :: key(z) != key(x)
    ensures x == y
  {
    FilterPush(xs, x, Has(key, key(x)));
    FilterAround(pre, y, post, Has(key, key(x)));
    FilterNone(post, Has(key, key(x)));
    var a, b := Filter(xs, Has(key, key(x))), Filter(pre, Has(key, key(x)));
    assert a + [x] == b + [y];
    assert (a + [x])[|a + [x]| - 1] == x && (b + [y])[|b + [y]| - 1] == y;
  }

  /** Two interleavings of the same per-key sequences have the same sums. */
  lemma {:induction false} ShuffleSum<T>(xs: seq<T>, ys: seq<T>, key: T -> string, f: T -> real)
    requires forall k: string :: Filter(xs, Has(key, k)) == Filter(ys, Has(key, k))
    ensures Sum(xs, f) == Sum(ys, f)
    decreases |xs|
  {
    if xs == [] {
      if ys != [] {
        var k := key(ys[0]);
        assert Filter(xs, Has(key, k)) == Filter(ys, Has(key, k));
        FilterKeeps(ys, ys[0], Has(key, k));
        assert false;
      }
    } else {
      var n := |xs| - 1;
      var xs0, x := xs[..n], xs[n];
      assert Filter(xs, Has(key, key(x))) == Filter(ys, Has(key, key(x)));
      FilterKeeps(xs, x, Has(key, key(x)));
      var j := LastWithKey(ys, key, key(x));
      var pre, y, post := ys[..j], ys[j], ys[j + 1..];
      assert xs == xs0 + [x];
      assert ys == pre + [y] + post;
      SameLast(xs0, x, pre, y, post, key);
      forall q: string ensures Filter(xs0, Has(key, q)) == Filter(pre + post, Has(key, q)) {
        assert Filter(xs, Has(key, q)) == Filter(ys, Has(key, q));
        ShuffleStep(xs0, x, pre, post, key, q);
      }
      ShuffleSum(xs0, pre + post, key, f);
      SumPush(xs0, x, f);
      SumAround(pre, x, post, f);
    }
  }
}

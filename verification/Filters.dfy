/** Selecting the elements of a sequence that satisfy a predicate, in order: what the
    append-if loops of the repository compute. */
module Filters {

  function Filter<T>(p: T -> bool, xs: seq<T>): seq<T> {
    if xs == [] then []
    else Filter(p, xs[..|xs| - 1]) + (if p(xs[|xs| - 1]) then [xs[|xs| - 1]] else [])
  }

  /** One more iteration of an append-if loop. */
  lemma FilterStep<T>(p: T -> bool, xs: seq<T>, i: nat)
    requires i < |xs|
    ensures Filter(p, xs[..i + 1]) == Filter(p, xs[..i]) + if p(xs[i]) then [xs[i]] else []
  {
    assert xs[..i + 1][..i] == xs[..i];
  }

  lemma {:induction false} FilterContents<T>(p: T -> bool, xs: seq<T>)
    ensures forall x :: x in Filter(p, xs) <==> x in xs && p(x)
    ensures |Filter(p, xs)| <= |xs|
    ensures |Filter(p, xs)| == |xs| <==> forall x | x in xs :: p(x)
    ensures (forall x | x in xs :: p(x)) ==> Filter(p, xs) == xs
  {
    if xs != [] {
      var front, last := xs[..|xs| - 1], xs[|xs| - 1];
      FilterContents(p, front);
      assert xs == front + [last];
    }
  }

  function Both<T>(p: T -> bool, q: T -> bool): T -> bool {
    x => p(x) && q(x)
  }

  /** Selecting twice is selecting by both predicates. */
  lemma {:induction false} FilterFilter<T>(p: T -> bool, q: T -> bool, xs: seq<T>)
    ensures Filter(p, Filter(q, xs)) == Filter(Both(p, q), xs)
  {
    if xs != [] {
      var front, last := xs[..|xs| - 1], xs[|xs| - 1];
      FilterFilter(p, q, front);
      var f := Filter(q, xs);
      if q(last) {
        assert f[..|f| - 1] == Filter(q, front);
      } else {
        assert f == Filter(q, front);
      }
    }
  }

  lemma {:induction false} FilterCongruence<T>(p: T -> bool, q: T -> bool, xs: seq<T>)
    requires forall x | x in xs :: p(x) == q(x)
    ensures Filter(p, xs) == Filter(q, xs)
  {
    if xs != [] {
      FilterCongruence(p, q, xs[..|xs| - 1]);
    }
  }

  lemma {:induction false} FilterMember<T>(p: T -> bool, xs: seq<T>, x: T)
    requires x in Filter(p, xs)
    ensures x in xs && p(x)
  {
    if xs != [] {
      if x in Filter(p, xs[..|xs| - 1]) { FilterMember(p, xs[..|xs| - 1], x); }
    }
  }

  /** Elements kept apart by `key` stay apart. */
  lemma {:induction false} FilterInjective<T, K>(p: T -> bool, key: T -> K, xs: seq<T>)
    requires forall i, j | 0 <= i < j < |xs| :: key(xs[i]) != key(xs[j])
    ensures forall i, j | 0 <= i < j < |Filter(p, xs)| :: key(Filter(p, xs)[i]) != key(Filter(p, xs)[j])
  {
    if xs != [] {
      var front, last := xs[..|xs| - 1], xs[|xs| - 1];
      FilterInjective(p, key, front);
      var f := Filter(p, front);
      forall i, j | 0 <= i < j < |Filter(p, xs)| ensures key(Filter(p, xs)[i]) != key(Filter(p, xs)[j]) {
        if j == |f| {
          FilterMember(p, front, f[i]);
          var k :| 0 <= k < |front| && front[k] == f[i];
          assert xs[k] == f[i];
        }
      }
    }
  }

  /** Applying a function to every element, in order. */
  function Map<T, U>(f: T -> U, xs: seq<T>): seq<U> {
    if xs == [] then [] else Map(f, xs[..|xs| - 1]) + [f(xs[|xs| - 1])]
  }

  lemma {:induction false} MapContents<T, U>(f: T -> U, xs: seq<T>)
    ensures |Map(f, xs)| == |xs| && forall i | 0 <= i < |xs| :: Map(f, xs)[i] == f(xs[i])
  {
    if xs != [] { MapContents(f, xs[..|xs| - 1]); }
  }

  lemma {:induction false} MapConcat<T, U>(f: T -> U, xs: seq<T>, ys: seq<T>)
    ensures Map(f, xs + ys) == Map(f, xs) + Map(f, ys)
  {
    if ys == [] {
      assert xs + ys == xs;
    } else {
      assert (xs + ys)[..|xs + ys| - 1] == xs + ys[..|ys| - 1];
      MapConcat(f, xs, ys[..|ys| - 1]);
    }
  }

  lemma MapOne<T, U>(f: T -> U, x: T)
    ensures Map(f, [x]) == [f(x)]
  {
    assert [x][..0] == [];
  }

  lemma SplitAt<T>(ys: seq<T>, i: nat)
    requires i < |ys|
    ensures ys == ys[..i] + [ys[i]] + ys[i + 1..]
    ensures multiset(ys) == multiset(ys[..i] + ys[i + 1..]) + multiset{ys[i]}
  {
    assert ys == ys[..i] + [ys[i]] + ys[i + 1..];
    assert multiset(ys) == multiset(ys[..i]) + multiset{ys[i]} + multiset(ys[i + 1..]);
  }

  lemma MapSplitAt<T, U>(f: T -> U, ys: seq<T>, i: nat)
    requires i < |ys|
    ensures multiset(Map(f, ys)) == multiset(Map(f, ys[..i] + ys[i + 1..])) + multiset{f(ys[i])}
  {
    var left, right := ys[..i], ys[i + 1..];
    SplitAt(ys, i);
    MapConcat(f, left, right);
    MapConcat(f, left + [ys[i]], right);
    MapConcat(f, left, [ys[i]]);
    MapOne(f, ys[i]);
    assert Map(f, ys) == Map(f, left) + [f(ys[i])] + Map(f, right);
  }

  lemma Cancel<T>(a: multiset<T>, b: multiset<T>, x: T)
    requires a + multiset{x} == b + multiset{x}
    ensures a == b
  {
    assert a == a + multiset{x} - multiset{x};
  }

  /** Two rearrangements of each other, the first without its last element, and where that element is
      in the second. */
  lemma WithoutLast<T>(xs: seq<T>, ys: seq<T>) returns (i: nat)
    requires multiset(xs) == multiset(ys) && xs != []
    ensures i < |ys| && ys[i] == xs[|xs| - 1]
    ensures multiset(xs[..|xs| - 1]) == multiset(ys[..i] + ys[i + 1..])
  {
    var last := |xs| - 1;
    assert xs[last] in multiset(ys);
    i :| 0 <= i < |ys| && ys[i] == xs[last];
    SplitAt(xs, last);
    SplitAt(ys, i);
    assert xs[..last] + xs[last + 1..] == xs[..last];
    Cancel(multiset(xs[..last]), multiset(ys[..i] + ys[i + 1..]), xs[last]);
  }

  lemma NothingLeft<T>(xs: seq<T>, ys: seq<T>)
    requires multiset(xs) == multiset(ys) && xs == []
    ensures ys == []
  {
    assert |multiset(ys)| == |ys|;
  }

  /** The images of a rearrangement are a rearrangement of the images. */
  lemma {:induction false} MapPermuted<T, U>(f: T -> U, xs: seq<T>, ys: seq<T>)
    requires multiset(xs) == multiset(ys)
    ensures multiset(Map(f, xs)) == multiset(Map(f, ys))
    decreases |xs|
  {
    if xs == [] {
      NothingLeft(xs, ys);
    } else {
      var i := WithoutLast(xs, ys);
      MapPermuted(f, xs[..|xs| - 1], ys[..i] + ys[i + 1..]);
      MapSplitAt(f, ys, i);
    }
  }

  lemma {:induction false} FilterConcat<T>(p: T -> bool, xs: seq<T>, ys: seq<T>)
    ensures Filter(p, xs + ys) == Filter(p, xs) + Filter(p, ys)
  {
    if ys == [] {
      assert xs + ys == xs;
    } else {
      assert (xs + ys)[..|xs + ys| - 1] == xs + ys[..|ys| - 1];
      FilterConcat(p, xs, ys[..|ys| - 1]);
    }
  }

  lemma FilterOne<T>(p: T -> bool, x: T)
    ensures Filter(p, [x]) == if p(x) then [x] else []
  {
    assert [x][..0] == [];
  }

  lemma FilterSplitAt<T>(p: T -> bool, ys: seq<T>, i: nat)
    requires i < |ys|
    ensures multiset(Filter(p, ys)) ==
      multiset(Filter(p, ys[..i] + ys[i + 1..])) + if p(ys[i]) then multiset{ys[i]} else multiset{}
  {
    var left, right := ys[..i], ys[i + 1..];
    SplitAt(ys, i);
    FilterConcat(p, left, right);
    FilterConcat(p, left + [ys[i]], right);
    FilterConcat(p, left, [ys[i]]);
    FilterOne(p, ys[i]);
  }

  /** Selecting from a rearrangement rearranges the selection. */
  lemma {:induction false} FilterPermuted<T>(p: T -> bool, xs: seq<T>, ys: seq<T>)
    requires multiset(xs) == multiset(ys)
    ensures multiset(Filter(p, xs)) == multiset(Filter(p, ys))
    decreases |xs|
  {
    if xs == [] {
      NothingLeft(xs, ys);
    } else {
      var i := WithoutLast(xs, ys);
      FilterPermuted(p, xs[..|xs| - 1], ys[..i] + ys[i + 1..]);
      FilterSplitAt(p, ys, i);
    }
  }
}

/** Selecting from and flattening sequences, with the append laws the loops and tree walks rely on. */
module Sequences {
  function Filter<T>(keep: T -> bool, xs: seq<T>): seq<T> {
    if xs == [] then [] else (if keep(xs[0]) then [xs[0]] else []) + Filter(keep, xs[1..])
  }

  function FlatMap<T, U>(f: T -> seq<U>, xs: seq<T>): seq<U> {
    if xs == [] then [] else f(xs[0]) + FlatMap(f, xs[1..])
  }

  ghost predicate Distinct<T>(xs: seq<T>) {
    forall i, j :: 0 <= i < j < |xs| ==> xs[i] != xs[j]
  }

  lemma {:induction false} FilterAppend<T>(keep: T -> bool, xs: seq<T>, ys: seq<T>)
    ensures Filter(keep, xs + ys) == Filter(keep, xs) + Filter(keep, ys)
  {
    if xs == [] {
      assert xs + ys == ys;
    } else {
      assert (xs + ys)[1..] == xs[1..] + ys;
      FilterAppend(keep, xs[1..], ys);
      Associative(if keep(xs[0]) then [xs[0]] else [], Filter(keep, xs[1..]), Filter(keep, ys));
    }
  }

  lemma FilterStep<T>(keep: T -> bool, xs: seq<T>)
    requires xs != []
    ensures Filter(keep, xs) == (if keep(xs[0]) then [xs[0]] else []) + Filter(keep, xs[1..])
  {
  }

  lemma FilterOne<T>(keep: T -> bool, x: T)
    ensures Filter(keep, [x]) == if keep(x) then [x] else []
  {
    assert Filter(keep, [x]) == (if keep(x) then [x] else []) + Filter(keep, []);
  }

  lemma {:induction false} FilterMembers<T>(keep: T -> bool, xs: seq<T>, x: T)
    ensures x in Filter(keep, xs) <==> x in xs && keep(x)
  {
    if xs != [] {
      FilterMembers(keep, xs[1..], x);
      assert xs == [xs[0]] + xs[1..];
    }
  }

  lemma {:induction false} SameFilter<T(!new)>(p: T -> bool, q: T -> bool, xs: seq<T>)
    requires forall x :: p(x) == q(x)
    ensures Filter(p, xs) == Filter(q, xs)
  {
    if xs != [] {
      SameFilter(p, q, xs[1..]);
    }
  }

  /** Selecting first by a weaker condition makes no difference. */
  lemma {:induction false} FilterNarrows<T(!new)>(p: T -> bool, q: T -> bool, xs: seq<T>)
    requires forall x :: p(x) ==> q(x)
    ensures Filter(p, Filter(q, xs)) == Filter(p, xs)
  {
    if xs != [] {
      FilterNarrows(p, q, xs[1..]);
      FilterAppend(p, if q(xs[0]) then [xs[0]] else [], Filter(q, xs[1..]));
      FilterOne(p, xs[0]);
    }
  }

  lemma {:induction false} FiltersCommute<T>(p: T -> bool, q: T -> bool, xs: seq<T>)
    ensures Filter(p, Filter(q, xs)) == Filter(q, Filter(p, xs))
  {
    if xs != [] {
      var x, rest := xs[0], xs[1..];
      FiltersCommute(p, q, rest);
      FilterAppend(p, if q(x) then [x] else [], Filter(q, rest));
      FilterAppend(q, if p(x) then [x] else [], Filter(p, rest));
      FilterOne(p, x);
      FilterOne(q, x);
    }
  }

  lemma {:induction false} FlatMapAppend<T, U>(f: T -> seq<U>, xs: seq<T>, ys: seq<T>)
    ensures FlatMap(f, xs + ys) == FlatMap(f, xs) + FlatMap(f, ys)
  {
    if xs == [] {
      assert xs + ys == ys;
    } else {
      assert (xs + ys)[1..] == xs[1..] + ys;
      FlatMapAppend(f, xs[1..], ys);
      Associative(f(xs[0]), FlatMap(f, xs[1..]), FlatMap(f, ys));
    }
  }

  lemma FlatMapOne<T, U>(f: T -> seq<U>, x: T)
    ensures FlatMap(f, [x]) == f(x)
  {
    assert FlatMap(f, [x]) == f(x) + FlatMap(f, []);
  }

  lemma NothingFlat<T, U>(f: T -> seq<U>)
    ensures FlatMap(f, []) == []
  {
  }

  /** One more loop iteration extends the flattened prefix by one image. */
  lemma {:induction false} FlatMapStep<T, U>(f: T -> seq<U>, xs: seq<T>, i: nat)
    requires i < |xs|
    ensures FlatMap(f, xs[..i + 1]) == FlatMap(f, xs[..i]) + f(xs[i])
  {
    assert xs[..i + 1] == xs[..i] + [xs[i]];
    FlatMapAppend(f, xs[..i], [xs[i]]);
    FlatMapOne(f, xs[i]);
  }

  lemma {:induction false} FlatMapMembers<T, U>(f: T -> seq<U>, xs: seq<T>, y: U)
    ensures y in FlatMap(f, xs) <==> exists i :: 0 <= i < |xs| && y in f(xs[i])
  {
    if xs != [] {
      FlatMapMembers(f, xs[1..], y);
      if y in FlatMap(f, xs[1..]) {
        var i :| 0 <= i < |xs[1..]| && y in f(xs[1..][i]);
        assert y in f(xs[i + 1]);
      }
      if i :| 0 < i < |xs| && y in f(xs[i]) {
        assert y in f(xs[1..][i - 1]);
      }
    }
  }

  /** Distinct elements are exactly those that occur at most once. */
  lemma {:induction false} DistinctByCount<T>(xs: seq<T>)
    ensures Distinct(xs) <==> forall x :: x in xs ==> multiset(xs)[x] <= 1
  {
    if xs != [] {
      var tail := xs[1..];
      DistinctByCount(tail);
      assert xs == [xs[0]] + tail;
      if Distinct(xs) {
        assert Distinct(tail) by {
          forall i, j | 0 <= i < j < |tail| ensures tail[i] != tail[j] {
            assert xs[i + 1] != xs[j + 1];
          }
        }
        assert xs[0] !in tail;
      }
      if forall x :: x in xs ==> multiset(xs)[x] <= 1 {
        forall x | x in tail ensures multiset(tail)[x] <= 1 {
          assert x in xs;
        }
        assert xs[0] !in tail by {
          assert multiset(xs)[xs[0]] <= 1;
        }
        forall i, j | 0 <= i < j < |xs| ensures xs[i] != xs[j] {
          if i > 0 {
            assert tail[i - 1] != tail[j - 1];
          } else {
            assert tail[j - 1] == xs[j];
          }
        }
      }
    }
  }

  /** Mixing two sequences together stays duplicate-free exactly when both are and they share nothing. */
  lemma DistinctMix<T>(all: seq<T>, a: seq<T>, b: seq<T>)
    requires multiset(all) == multiset(a) + multiset(b)
    requires Distinct(b)
    ensures Distinct(all) <==> Distinct(a) && forall x :: x in b ==> x !in a
  {
    DistinctByCount(all);
    DistinctByCount(a);
    DistinctByCount(b);
    forall x ensures x in all <==> x in a || x in b {
      assert x in multiset(all) <==> x in multiset(a) || x in multiset(b);
    }
    forall x ensures (x in a <==> multiset(a)[x] > 0) && (x in b <==> multiset(b)[x] > 0) {
    }
  }

  function Map<T, U>(f: T -> U, xs: seq<T>): (ys: seq<U>)
    ensures |ys| == |xs|
    ensures forall i :: 0 <= i < |xs| ==> ys[i] == f(xs[i])
  {
    seq(|xs|, i requires 0 <= i < |xs| => f(xs[i]))
  }

  lemma {:induction false} FilterOfMap<T(!new), U>(f: T -> U, p: U -> bool, keep: T -> bool, xs: seq<T>)
    requires forall x :: keep(x) == p(f(x))
    ensures Filter(p, Map(f, xs)) == Map(f, Filter(keep, xs))
  {
    if xs != [] {
      FilterOfMap(f, p, keep, xs[1..]);
      assert Map(f, xs)[1..] == Map(f, xs[1..]);
      assert Filter(keep, xs) == (if keep(xs[0]) then [xs[0]] else []) + Filter(keep, xs[1..]);
    }
  }

  lemma RemoveAt<T>(xs: seq<T>, k: nat)
    requires k < |xs|
    ensures multiset(xs) == multiset{xs[k]} + multiset(xs[..k] + xs[k + 1..])
  {
    assert xs == xs[..k] + ([xs[k]] + xs[k + 1..]);
  }

  lemma MapRemoveAt<T, U>(f: T -> U, xs: seq<T>, k: nat)
    requires k < |xs|
    ensures multiset(Map(f, xs)) == multiset{f(xs[k])} + multiset(Map(f, xs[..k] + xs[k + 1..]))
  {
    RemoveAt(Map(f, xs), k);
    assert Map(f, xs[..k] + xs[k + 1..]) == Map(f, xs)[..k] + Map(f, xs)[k + 1..];
  }

  /** Permuting the arguments permutes the images. */
  lemma {:induction false} MapPermuted<T, U>(f: T -> U, xs: seq<T>, ys: seq<T>)
    requires multiset(xs) == multiset(ys)
    ensures multiset(Map(f, xs)) == multiset(Map(f, ys))
  {
    hide Map;
    if xs == [] {
      assert |multiset(ys)| == 0;
      assert ys == xs;
    } else {
      SameMembers(xs, ys, xs[0]);
      var k :| 0 <= k < |ys| && ys[k] == xs[0];
      var xRest, yRest := xs[..0] + xs[1..], ys[..k] + ys[k + 1..];
      RemoveAt(xs, 0);
      RemoveAt(ys, k);
      SameRest(multiset(xRest), multiset(yRest), xs[0]);
      MapPermuted(f, xRest, yRest);
      MapRemoveAt(f, xs, 0);
      MapRemoveAt(f, ys, k);
    }
  }

  lemma SameRest<T>(a: multiset<T>, b: multiset<T>, x: T)
    requires multiset{x} + a == multiset{x} + b
    ensures a == b
  {
    assert a == (multiset{x} + a) - multiset{x} && b == (multiset{x} + b) - multiset{x};
  }

  lemma Associative<T>(a: seq<T>, b: seq<T>, c: seq<T>)
    ensures (a + b) + c == a + (b + c)
  {
  }

  lemma SameMembers<T>(xs: seq<T>, ys: seq<T>, x: T)
    requires multiset(xs) == multiset(ys)
    ensures x in xs <==> x in ys
  {
    assert x in xs <==> x in multiset(xs);
    assert x in ys <==> x in multiset(ys);
  }
}

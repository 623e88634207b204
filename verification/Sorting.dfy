/** The stable ascending sort behind list.sort and sorted. */
module Sorting {
  import opened Sequences

  /** x goes in front of the first element it does not exceed, so equal elements keep their order. */
  function Insert<T>(leq: (T, T) -> bool, x: T, ys: seq<T>): seq<T> {
    if ys == [] || leq(x, ys[0]) then [x] + ys else [ys[0]] + Insert(leq, x, ys[1..])
  }

  function SortBy<T>(leq: (T, T) -> bool, xs: seq<T>): seq<T> {
    if xs == [] then [] else Insert(leq, xs[0], SortBy(leq, xs[1..]))
  }

  ghost predicate TotalPreorder<T(!new)>(leq: (T, T) -> bool) {
    (forall a, b :: leq(a, b) || leq(b, a)) && (forall a, b, c :: leq(a, b) && leq(b, c) ==> leq(a, c))
  }

  ghost predicate Sorted<T>(leq: (T, T) -> bool, xs: seq<T>) {
    forall i, j :: 0 <= i < j < |xs| ==> leq(xs[i], xs[j])
  }

  lemma {:induction false} InsertPermutes<T>(leq: (T, T) -> bool, x: T, ys: seq<T>)
    ensures multiset(Insert(leq, x, ys)) == multiset{x} + multiset(ys)
  {
    if !(ys == [] || leq(x, ys[0])) {
      InsertPermutes(leq, x, ys[1..]);
      assert ys == [ys[0]] + ys[1..];
    }
  }

  lemma {:induction false} SortPermutes<T>(leq: (T, T) -> bool, xs: seq<T>)
    ensures multiset(SortBy(leq, xs)) == multiset(xs)
    ensures |SortBy(leq, xs)| == |xs|
  {
    if xs != [] {
      SortPermutes(leq, xs[1..]);
      InsertPermutes(leq, xs[0], SortBy(leq, xs[1..]));
      assert xs == [xs[0]] + xs[1..];
    }
    assert |multiset(SortBy(leq, xs))| == |multiset(xs)|;
  }

  lemma {:induction false} InsertSorted<T(!new)>(leq: (T, T) -> bool, x: T, ys: seq<T>)
    requires TotalPreorder(leq) && Sorted(leq, ys)
    ensures Sorted(leq, Insert(leq, x, ys))
  {
    if ys == [] {
    } else if leq(x, ys[0]) {
      forall j | 0 <= j < |ys| ensures leq(x, ys[j]) {
        assert j == 0 || leq(ys[0], ys[j]);
      }
    } else {
      var tail := ys[1..];
      assert Sorted(leq, tail);
      InsertSorted(leq, x, tail);
      InsertPermutes(leq, x, tail);
      var rest := Insert(leq, x, tail);
      forall j | 0 <= j < |rest| ensures leq(ys[0], rest[j]) {
        assert rest[j] in multiset(rest);
        if rest[j] != x {
          assert rest[j] in tail;
          var i :| 0 <= i < |tail| && tail[i] == rest[j];
          assert leq(ys[0], ys[i + 1]);
        }
      }
    }
  }

  lemma {:induction false} SortSorts<T(!new)>(leq: (T, T) -> bool, xs: seq<T>)
    requires TotalPreorder(leq)
    ensures Sorted(leq, SortBy(leq, xs))
  {
    if xs != [] {
      SortSorts(leq, xs[1..]);
      InsertSorted(leq, xs[0], SortBy(leq, xs[1..]));
    }
  }

  /** An inserted element passes everything it exceeds and stops at the first element it does not. */
  lemma {:induction false} InsertPasses<T>(leq: (T, T) -> bool, x: T, below: seq<T>, above: seq<T>)
    requires forall y :: y in below ==> !leq(x, y)
    requires above == [] || leq(x, above[0])
    ensures Insert(leq, x, below + above) == below + [x] + above
  {
    if below == [] {
      assert below + above == above;
    } else {
      assert below[0] in below;
      assert (below + above)[1..] == below[1..] + above;
      InsertPasses(leq, x, below[1..], above);
      assert below == [below[0]] + below[1..];
    }
  }

  // ---------- Stability ----------

  lemma {:induction false} InsertStable<T>(leq: (T, T) -> bool, tie: T -> bool, x: T, ys: seq<T>)
    requires forall y :: y in ys && tie(x) && tie(y) ==> leq(x, y)
    ensures Filter(tie, Insert(leq, x, ys)) == Filter(tie, [x]) + Filter(tie, ys)
  {
    FilterOne(tie, x);
    if ys == [] || leq(x, ys[0]) {
      FilterAppend(tie, [x], ys);
    } else {
      var head, tail := [ys[0]], ys[1..];
      assert ys[0] in ys;
      InsertStable(leq, tie, x, tail);
      FilterAppend(tie, head, Insert(leq, x, tail));
      FilterAppend(tie, head, tail);
      FilterOne(tie, ys[0]);
      assert ys == head + tail;
    }
  }

  /** Sorting is stable: elements that tie with one another keep their order. */
  lemma {:induction false} SortStable<T>(leq: (T, T) -> bool, tie: T -> bool, xs: seq<T>)
    requires forall x, y :: x in xs && y in xs && tie(x) && tie(y) ==> leq(x, y)
    ensures Filter(tie, SortBy(leq, xs)) == Filter(tie, xs)
  {
    if xs != [] {
      var x, tail := xs[0], xs[1..];
      SortStable(leq, tie, tail);
      SortPermutes(leq, tail);
      forall y | y in SortBy(leq, tail) ensures y in tail {
        SameMembers(SortBy(leq, tail), tail, y);
      }
      InsertStable(leq, tie, x, SortBy(leq, tail));
      FilterAppend(tie, [x], tail);
      assert xs == [x] + tail;
    }
  }

  /** Two tied elements stand in this order, at some places, in the list. */
  ghost predicate InOrder<T>(xs: seq<T>, a: T, b: T) {
    exists i, j :: 0 <= i < j < |xs| && xs[i] == a && xs[j] == b
  }

  /** Of two tied elements, one stands before the other after sorting iff it did before. */
  lemma TiesKeepOrder<T>(leq: (T, T) -> bool, tie: T -> bool, xs: seq<T>, a: T, b: T)
    requires forall x, y :: x in xs && y in xs && tie(x) && tie(y) ==> leq(x, y)
    requires tie(a) && tie(b)
    ensures InOrder(SortBy(leq, xs), a, b) <==> InOrder(xs, a, b)
  {
    SortStable(leq, tie, xs);
    FilterKeepsOrder(tie, xs, a, b);
    FilterKeepsOrder(tie, SortBy(leq, xs), a, b);
  }

  lemma {:induction false} FilterKeepsOrder<T>(keep: T -> bool, xs: seq<T>, a: T, b: T)
    requires keep(a) && keep(b)
    ensures InOrder(Filter(keep, xs), a, b) <==> InOrder(xs, a, b)
  {
    if xs != [] {
      var x, tail := xs[0], xs[1..];
      FilterKeepsOrder(keep, tail, a, b);
      FilterMembers(keep, tail, b);
      InOrderStep(x, tail, a, b);
      InOrderStep(x, Filter(keep, tail), a, b);
      assert xs == [x] + tail;
      assert Filter(keep, xs) == if keep(x) then [x] + Filter(keep, tail) else Filter(keep, tail);
    }
  }

  lemma InOrderStep<T>(x: T, xs: seq<T>, a: T, b: T)
    ensures InOrder([x] + xs, a, b) <==> (x == a && b in xs) || InOrder(xs, a, b)
  {
    var all := [x] + xs;
    assert forall k :: 0 <= k < |xs| ==> all[k + 1] == xs[k];
    if i, j :| 0 <= i < j < |all| && all[i] == a && all[j] == b {
      assert xs[j - 1] == b;
      assert i > 0 ==> xs[i - 1] == a;
    }
    if x == a && b in xs {
      var k :| 0 <= k < |xs| && xs[k] == b;
      assert all[0] == a && all[k + 1] == b;
    }
    if i, j :| 0 <= i < j < |xs| && xs[i] == a && xs[j] == b {
      assert all[i + 1] == a && all[j + 1] == b;
    }
  }

  lemma SameTails<T>(xs: seq<T>, ys: seq<T>)
    requires xs != [] && ys != [] && xs[0] == ys[0] && multiset(xs) == multiset(ys)
    ensures multiset(xs[1..]) == multiset(ys[1..])
  {
    assert xs == [xs[0]] + xs[1..] && ys == [ys[0]] + ys[1..];
    SameRest(multiset(xs[1..]), multiset(ys[1..]), xs[0]);
  }

  /** Two sorted permutations of each other are equal when no two different elements tie. */
  lemma {:induction false} SortedUnique<T(!new)>(leq: (T, T) -> bool, xs: seq<T>, ys: seq<T>)
    requires forall a, b :: leq(a, b) && leq(b, a) ==> a == b
    requires forall a :: leq(a, a)
    requires Sorted(leq, xs) && Sorted(leq, ys)
    requires multiset(xs) == multiset(ys)
    ensures xs == ys
  {
    assert |multiset(xs)| == |multiset(ys)|;
    if xs != [] {
      SameMembers(xs, ys, xs[0]);
      SameMembers(xs, ys, ys[0]);
      assert leq(xs[0], ys[0]) && leq(ys[0], xs[0]);
      SameTails(xs, ys);
      SortedUnique(leq, xs[1..], ys[1..]);
    }
  }
}

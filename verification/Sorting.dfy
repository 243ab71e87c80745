/** Python's stable `sorted`, as insertion sort on sequences. */
module Sorting {
  /** `le` is a total preorder. */
  ghost predicate TotalPreorder<T(!new)>(le: (T, T) -> bool) {
    && (forall x, y :: le(x, y) || le(y, x))
    && (forall x, y, z :: le(x, y) && le(y, z) ==> le(x, z))
  }

  predicate Sorted<T>(xs: seq<T>, le: (T, T) -> bool) {
    forall i, j :: 0 <= i < j < |xs| ==> le(xs[i], xs[j])
  }

  /** Inserts x behind every element that is not above it. */
  function Insert<T>(xs: seq<T>, x: T, le: (T, T) -> bool): seq<T> {
    if xs == [] || le(xs[|xs| - 1], x) then xs + [x]
    else Insert(xs[..|xs| - 1], x, le) + [xs[|xs| - 1]]
  }

  function Sort<T>(xs: seq<T>, le: (T, T) -> bool): seq<T> {
    if xs == [] then [] else Insert(Sort(xs[..|xs| - 1], le), xs[|xs| - 1], le)
  }

  lemma {:induction false} InsertKeeps<T>(xs: seq<T>, x: T, le: (T, T) -> bool)
    ensures multiset(Insert(xs, x, le)) == multiset(xs) + multiset{x}
  {
    if xs != [] && !le(xs[|xs| - 1], x) {
      InsertKeeps(xs[..|xs| - 1], x, le);
      assert xs == xs[..|xs| - 1] + [xs[|xs| - 1]];
    }
  }

  lemma {:induction false} InsertSorts<T(!new)>(xs: seq<T>, x: T, le: (T, T) -> bool)
    requires TotalPreorder(le) && Sorted(xs, le)
    ensures Sorted(Insert(xs, x, le), le)
  {
    if xs != [] {
      var last := xs[|xs| - 1];
      if le(last, x) {
        forall i | 0 <= i < |xs| ensures le(xs[i], x) {
          if i < |xs| - 1 {
            assert le(xs[i], last);
          }
        }
      } else {
        var rest := Insert(xs[..|xs| - 1], x, le);
        InsertSorts(xs[..|xs| - 1], x, le);
        InsertKeeps(xs[..|xs| - 1], x, le);
        forall i | 0 <= i < |rest| ensures le(rest[i], last) {
          assert rest[i] in multiset(rest);
          assert rest[i] == x || rest[i] in xs[..|xs| - 1];
        }
      }
    }
  }

  /** Sorting permutes and orders. */
  lemma {:induction false} SortSorts<T(!new)>(xs: seq<T>, le: (T, T) -> bool)
    requires TotalPreorder(le)
    ensures Sorted(Sort(xs, le), le) && multiset(Sort(xs, le)) == multiset(xs)
  {
    if xs == [] {
      return;
    }
    hide Sorted, TotalPreorder;
    var init := xs[..|xs| - 1];
    SortSorts(init, le);
    InsertSorts(Sort(init, le), xs[|xs| - 1], le);
    InsertKeeps(Sort(init, le), xs[|xs| - 1], le);
    assert xs == init + [xs[|xs| - 1]];
  }

  /** The elements that satisfy p, in their order. */
  function Where<T>(xs: seq<T>, p: T -> bool): seq<T> {
    if xs == [] then []
    else Where(xs[..|xs| - 1], p) + if p(xs[|xs| - 1]) then [xs[|xs| - 1]] else []
  }

  lemma {:induction false} InsertIsStable<T>(xs: seq<T>, x: T, le: (T, T) -> bool, p: T -> bool)
    requires forall a, b :: p(a) && p(b) ==> le(a, b)
    ensures Where(Insert(xs, x, le), p) == Where(xs + [x], p)
  {
    assert (xs + [x])[..|xs|] == xs;
    if xs != [] && !le(xs[|xs| - 1], x) {
      var init, last := xs[..|xs| - 1], xs[|xs| - 1];
      InsertIsStable(init, x, le, p);
      assert (init + [x])[..|init|] == init;
      var rest := Insert(init, x, le);
      assert (rest + [last])[..|rest|] == rest;
    }
  }

  /** Elements of which none is above another keep the order in which they arrive. */
  lemma {:induction false} SortIsStable<T>(xs: seq<T>, le: (T, T) -> bool, p: T -> bool)
    requires forall a, b :: p(a) && p(b) ==> le(a, b)
    ensures Where(Sort(xs, le), p) == Where(xs, p)
  {
    if xs != [] {
      var init, last := xs[..|xs| - 1], xs[|xs| - 1];
      SortIsStable(init, le, p);
      InsertIsStable(Sort(init, le), last, le, p);
      var sorted := Sort(init, le);
      assert (sorted + [last])[..|sorted|] == sorted;
    }
  }

  /** Distinct elements are told apart by their keys. */
  ghost predicate DistinctKeys<T>(xs: seq<T>, le: (T, T) -> bool) {
    forall x, y :: x in xs && y in xs && le(x, y) && le(y, x) ==> x == y
  }

  lemma LastIsGreatest<T>(xs: seq<T>, x: T, le: (T, T) -> bool)
    requires Sorted(xs, le) && x in xs && x != xs[|xs| - 1]
    ensures le(x, xs[|xs| - 1])
  {}

  lemma InitMultiset<T>(xs: seq<T>)
    requires xs != []
    ensures multiset(xs[..|xs| - 1]) == multiset(xs) - multiset{xs[|xs| - 1]}
  {
    assert xs == xs[..|xs| - 1] + [xs[|xs| - 1]];
  }

  lemma SameMembers<T>(xs: seq<T>, ys: seq<T>, x: T)
    requires multiset(xs) == multiset(ys) && x in xs
    ensures x in ys
  {
    assert x in multiset(xs);
  }

  lemma SameLast<T>(xs: seq<T>, ys: seq<T>, le: (T, T) -> bool)
    requires Sorted(xs, le) && Sorted(ys, le) && multiset(xs) == multiset(ys) && DistinctKeys(xs, le)
    requires xs != [] && ys != []
    ensures xs[|xs| - 1] == ys[|ys| - 1]
  {
    var a, b := xs[|xs| - 1], ys[|ys| - 1];
    SameMembers(xs, ys, a);
    SameMembers(ys, xs, b);
    if a != b {
      LastIsGreatest(ys, a, le);
      LastIsGreatest(xs, b, le);
    }
  }

  lemma InitSorted<T>(xs: seq<T>, le: (T, T) -> bool)
    requires xs != [] && Sorted(xs, le)
    ensures Sorted(xs[..|xs| - 1], le)
  {}

  lemma InitDistinct<T>(xs: seq<T>, le: (T, T) -> bool)
    requires xs != [] && DistinctKeys(xs, le)
    ensures DistinctKeys(xs[..|xs| - 1], le)
  {}

  lemma {:induction false} SortedUnique<T>(xs: seq<T>, ys: seq<T>, le: (T, T) -> bool)
    requires Sorted(xs, le) && Sorted(ys, le) && multiset(xs) == multiset(ys)
    requires DistinctKeys(xs, le)
    ensures xs == ys
  {
    hide Sorted, DistinctKeys;
    assert |xs| == |multiset(xs)| == |multiset(ys)| == |ys|;
    if xs != [] {
      InitSorted(xs, le);
      InitSorted(ys, le);
      InitDistinct(xs, le);
      SameLast(xs, ys, le);
      InitMultiset(xs);
      InitMultiset(ys);
      var n := |xs| - 1;
      SortedUnique(xs[..n], ys[..n], le);
      assert xs == xs[..n] + [xs[n]] && ys == ys[..n] + [ys[n]];
    }
  }

  /** The order in which the input arrives does not matter when keys are distinct. */
  lemma SortIgnoresOrder<T(!new)>(xs: seq<T>, ys: seq<T>, le: (T, T) -> bool)
    requires TotalPreorder(le) && multiset(xs) == multiset(ys) && DistinctKeys(xs, le)
    ensures Sort(xs, le) == Sort(ys, le)
  {
    SortSorts(xs, le);
    SortSorts(ys, le);
    forall x | x in Sort(xs, le) ensures x in xs {
      assert x in multiset(Sort(xs, le));
    }
    SortedUnique(Sort(xs, le), Sort(ys, le), le);
  }
}

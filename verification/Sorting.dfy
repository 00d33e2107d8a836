/** Stable insertion sort by a comparator, as the source's `sort` with a comparison function. */
module Sorting {

  /** The comparator tells a strict order up to ties. */
  ghost predicate Orders<T(!new)>(lt: (T, T) -> bool) {
    && (forall a, b :: lt(a, b) ==> !lt(b, a))
    && (forall a, b, c :: !lt(a, b) && !lt(b, c) ==> !lt(a, c))
  }

  ghost predicate Sorted<T>(xs: seq<T>, lt: (T, T) -> bool) {
    forall i, j :: 0 <= i < j < |xs| ==> !lt(xs[j], xs[i])
  }

  function Insert<T>(xs: seq<T>, x: T, lt: (T, T) -> bool): (ys: seq<T>)
    ensures multiset(ys) == multiset(xs) + multiset{x}
  {
    if xs == [] || !lt(x, xs[|xs| - 1]) then xs + [x]
    else
      assert xs == xs[..|xs| - 1] + [xs[|xs| - 1]];
      Insert(xs[..|xs| - 1], x, lt) + [xs[|xs| - 1]]
  }

  function Sort<T>(xs: seq<T>, lt: (T, T) -> bool): (ys: seq<T>)
    ensures multiset(ys) == multiset(xs) && |ys| == |xs|
  {
    if xs == [] then []
    else
      assert xs == xs[..|xs| - 1] + [xs[|xs| - 1]];
      var ys := Insert(Sort(xs[..|xs| - 1], lt), xs[|xs| - 1], lt);
      assert |multiset(ys)| == |multiset(xs)|;
      ys
  }

  lemma {:induction false} InsertSorted<T(!new)>(xs: seq<T>, x: T, lt: (T, T) -> bool)
    requires Orders(lt) && Sorted(xs, lt)
    ensures Sorted(Insert(xs, x, lt), lt)
  {
    if xs == [] {
    } else if !lt(x, xs[|xs| - 1]) {
      forall i | 0 <= i < |xs| ensures !lt(x, xs[i]) {
        assert i == |xs| - 1 || !lt(xs[|xs| - 1], xs[i]);
      }
    } else {
      var init, last := xs[..|xs| - 1], xs[|xs| - 1];
      InsertSorted(init, x, lt);
      var ys := Insert(init, x, lt);
      forall i | 0 <= i < |ys| ensures !lt(last, ys[i]) {
        assert ys[i] in multiset(init) + multiset{x};
        if ys[i] != x {
          assert ys[i] in init;
        }
      }
    }
  }

  lemma {:induction false} SortSorted<T(!new)>(xs: seq<T>, lt: (T, T) -> bool)
    requires Orders(lt)
    ensures Sorted(Sort(xs, lt), lt)
  {
    if xs != [] {
      SortSorted(xs[..|xs| - 1], lt);
      InsertSorted(Sort(xs[..|xs| - 1], lt), xs[|xs| - 1], lt);
    }
  }

  lemma SortMembers<T>(xs: seq<T>, lt: (T, T) -> bool)
    ensures forall x :: x in Sort(xs, lt) <==> x in xs
  {
    forall x ensures x in Sort(xs, lt) <==> x in xs {
      assert x in multiset(Sort(xs, lt)) <==> x in multiset(xs);
    }
  }

  /** Sorting repeats nothing that was not repeated. */
  lemma SortDistinct<T>(xs: seq<T>, lt: (T, T) -> bool)
    requires forall i, j :: 0 <= i < j < |xs| ==> xs[i] != xs[j]
    ensures forall i, j :: 0 <= i < j < |Sort(xs, lt)| ==> Sort(xs, lt)[i] != Sort(xs, lt)[j]
  {
    var ys := Sort(xs, lt);
    forall x ensures multiset(ys)[x] <= 1 {
      CountOnce(xs, x);
    }
    forall i, j | 0 <= i < j < |ys| ensures ys[i] != ys[j] {
      if ys[i] == ys[j] {
        CountTwice(ys, i, j);
      }
    }
  }

  lemma {:induction false} CountOnce<T>(xs: seq<T>, x: T)
    requires forall i, j :: 0 <= i < j < |xs| ==> xs[i] != xs[j]
    ensures multiset(xs)[x] <= 1
  {
    if xs != [] {
      var init, last := xs[..|xs| - 1], xs[|xs| - 1];
      assert xs == init + [last];
      CountOnce(init, x);
      assert last !in init;
    }
  }

  lemma CountTwice<T>(xs: seq<T>, i: nat, j: nat)
    requires i < j < |xs| && xs[i] == xs[j]
    ensures multiset(xs)[xs[i]] >= 2
  {
    assert xs == xs[..j] + xs[j..];
    assert xs[i] in xs[..j] && xs[j] in xs[j..];
  }
}

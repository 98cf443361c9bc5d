/** Stable insertion, under any total order given as "comes no later than". */
module Sorting {
  ghost predicate Linear<T(!new)>(before: (T, T) -> bool) {
    && (forall a, b :: before(a, b) || before(b, a))
    && (forall a, b, c :: before(a, b) && before(b, c) ==> before(a, c))
  }

  predicate Ordered<T>(before: (T, T) -> bool, xs: seq<T>) {
    forall i, j :: 0 <= i < j < |xs| ==> before(xs[i], xs[j])
  }

  function Insert<T>(before: (T, T) -> bool, x: T, xs: seq<T>): (out: seq<T>)
    ensures |out| == |xs| + 1
  {
    if xs == [] || before(x, xs[0]) then [x] + xs else [xs[0]] + Insert(before, x, xs[1..])
  }

  function Sort<T>(before: (T, T) -> bool, xs: seq<T>): (out: seq<T>)
    ensures |out| == |xs|
  {
    if xs == [] then [] else Insert(before, xs[0], Sort(before, xs[1..]))
  }

  lemma {:induction false} InsertKeeps<T>(before: (T, T) -> bool, x: T, xs: seq<T>)
    ensures multiset(Insert(before, x, xs)) == multiset(xs) + multiset{x}
  {
    if xs != [] && !before(x, xs[0]) {
      InsertKeeps(before, x, xs[1..]);
      assert xs == [xs[0]] + xs[1..];
    }
  }

  lemma {:induction false} InsertOrders<T(!new)>(before: (T, T) -> bool, x: T, xs: seq<T>)
    requires Linear(before) && Ordered(before, xs)
    ensures Ordered(before, Insert(before, x, xs))
  {
    if xs == [] {
    } else if before(x, xs[0]) {
      forall j | 0 <= j < |xs| ensures before(x, xs[j]) {
        assert j > 0 ==> before(xs[0], xs[j]);
      }
    } else {
      var rest := Insert(before, x, xs[1..]);
      InsertOrders(before, x, xs[1..]);
      InsertKeeps(before, x, xs[1..]);
      forall y | y in rest ensures before(xs[0], y) {
        assert y in multiset(rest);
        if y != x {
          var j :| 0 <= j < |xs| - 1 && xs[1..][j] == y;
          assert xs[j + 1] == y;
        }
      }
    }
  }

  lemma {:induction false} SortSorts<T(!new)>(before: (T, T) -> bool, xs: seq<T>)
    requires Linear(before)
    ensures Ordered(before, Sort(before, xs)) && multiset(Sort(before, xs)) == multiset(xs)
  {
    if xs != [] {
      SortSorts(before, xs[1..]);
      InsertKeeps(before, xs[0], Sort(before, xs[1..]));
      InsertOrders(before, xs[0], Sort(before, xs[1..]));
      assert xs == [xs[0]] + xs[1..];
    }
  }
}

/** Python's sort, which is stable, and what hiding the elements beyond a bound does to a sorted list. */
module Sorting {

  ghost predicate Ordered<T>(xs: seq<T>, key: T -> int) {
    forall i, j :: 0 <= i < j < |xs| ==> key(xs[i]) <= key(xs[j])
  }

  /** Behind everything that is not greater. */
  function Insert<T>(xs: seq<T>, key: T -> int, x: T): seq<T> {
    if xs == [] || key(xs[|xs| - 1]) <= key(x) then xs + [x]
    else Insert(xs[..|xs| - 1], key, x) + [xs[|xs| - 1]]
  }

  function Sort<T>(xs: seq<T>, key: T -> int): seq<T> {
    if xs == [] then [] else Insert(Sort(xs[..|xs| - 1], key), key, xs[|xs| - 1])
  }

  lemma {:induction false} InsertBelow<T>(xs: seq<T>, key: T -> int, x: T, top: int)
    requires key(x) <= top && forall i :: 0 <= i < |xs| ==> key(xs[i]) <= top
    ensures forall i :: 0 <= i < |Insert(xs, key, x)| ==> key(Insert(xs, key, x)[i]) <= top
  {
    if xs != [] && key(xs[|xs| - 1]) > key(x) { InsertBelow(xs[..|xs| - 1], key, x, top); }
  }

  lemma {:induction false} InsertOrdered<T>(xs: seq<T>, key: T -> int, x: T)
    requires Ordered(xs, key)
    ensures Ordered(Insert(xs, key, x), key)
  {
    if xs != [] && key(xs[|xs| - 1]) > key(x) {
      InsertOrdered(xs[..|xs| - 1], key, x);
      InsertBelow(xs[..|xs| - 1], key, x, key(xs[|xs| - 1]));
    }
  }

  lemma {:induction false} InsertAdds<T>(xs: seq<T>, key: T -> int, x: T)
    ensures multiset(Insert(xs, key, x)) == multiset(xs) + multiset{x}
  {
    if xs != [] && key(xs[|xs| - 1]) > key(x) {
      InsertAdds(xs[..|xs| - 1], key, x);
      assert xs == xs[..|xs| - 1] + [xs[|xs| - 1]];
    }
  }

  lemma SortAppend<T>(xs: seq<T>, key: T -> int, x: T)
    ensures Sort(xs + [x], key) == Insert(Sort(xs, key), key, x)
  {
    assert (xs + [x])[..|xs|] == xs;
  }

  // ---------------------------------------------------------------- one key at a time

  /** The elements with one key, in the order given. */
  function Keyed<T>(xs: seq<T>, key: T -> int, k: int): seq<T> {
    if xs == [] then []
    else
      var front, last := Keyed(xs[..|xs| - 1], key, k), xs[|xs| - 1];
      if key(last) == k then front + [last] else front
  }

  lemma KeyedAppend<T>(xs: seq<T>, key: T -> int, k: int, x: T)
    ensures Keyed(xs + [x], key, k) == if key(x) == k then Keyed(xs, key, k) + [x] else Keyed(xs, key, k)
  {
    assert (xs + [x])[..|xs|] == xs;
  }

  lemma {:induction false} KeyedConcat<T>(xs: seq<T>, ys: seq<T>, key: T -> int, k: int)
    ensures Keyed(xs + ys, key, k) == Keyed(xs, key, k) + Keyed(ys, key, k)
  {
    if ys == [] {
      assert xs + ys == xs;
    } else {
      var n := |ys| - 1;
      KeyedConcat(xs, ys[..n], key, k);
      assert (xs + ys)[..|xs| + n] == xs + ys[..n];
    }
  }

  lemma {:induction false} InsertStable<T>(xs: seq<T>, key: T -> int, x: T, k: int)
    ensures Keyed(Insert(xs, key, x), key, k) == Keyed(xs + [x], key, k)
  {
    if xs != [] && key(xs[|xs| - 1]) > key(x) {
      var n := |xs| - 1;
      InsertStable(xs[..n], key, x, k);
      KeyedAppend(Insert(xs[..n], key, x), key, k, xs[n]);
      KeyedAppend(xs, key, k, x);
      KeyedAppend(xs[..n], key, k, x);
    }
  }

  lemma KeptInOrder<T>(xs: seq<T>, sorted: seq<T>, key: T -> int, x: T, k: int)
    requires Keyed(sorted, key, k) == Keyed(xs, key, k)
    ensures Keyed(Insert(sorted, key, x), key, k) == Keyed(xs + [x], key, k)
  {
    InsertStable(sorted, key, x, k);
    KeyedAppend(sorted, key, k, x);
    KeyedAppend(xs, key, k, x);
  }

  /** Sorting keeps elements with equal keys in their order. */
  lemma {:induction false} SortStable<T>(xs: seq<T>, key: T -> int, k: int)
    ensures Keyed(Sort(xs, key), key, k) == Keyed(xs, key, k)
  {
    if xs != [] {
      var n := |xs| - 1;
      SortStable(xs[..n], key, k);
      KeptInOrder(xs[..n], Sort(xs[..n], key), key, xs[n], k);
      assert xs == xs[..n] + [xs[n]];
    }
  }

  lemma {:induction false} SortOrders<T>(xs: seq<T>, key: T -> int)
    ensures Ordered(Sort(xs, key), key)
  {
    if xs != [] {
      SortOrders(xs[..|xs| - 1], key);
      InsertOrdered(Sort(xs[..|xs| - 1], key), key, xs[|xs| - 1]);
    }
  }

  lemma {:induction false} SortKeeps<T>(xs: seq<T>, key: T -> int)
    ensures multiset(Sort(xs, key)) == multiset(xs)
  {
    if xs != [] {
      var n := |xs| - 1;
      SortKeeps(xs[..n], key);
      InsertAdds(Sort(xs[..n], key), key, xs[n]);
      assert xs == xs[..n] + [xs[n]];
    }
  }

  /** It orders the elements and keeps every one of them. */
  lemma SortSorts<T>(xs: seq<T>, key: T -> int)
    ensures Ordered(Sort(xs, key), key) && multiset(Sort(xs, key)) == multiset(xs)
  {
    SortOrders(xs, key);
    SortKeeps(xs, key);
  }

  // ---------------------------------------------------------------- marks that no two elements share

  ghost predicate Apart<T, U>(xs: seq<T>, marks: T -> set<U>) {
    forall i, j :: 0 <= i < j < |xs| ==> marks(xs[i]) !! marks(xs[j])
  }

  lemma ApartFromLast<T, U>(xs: seq<T>, marks: T -> set<U>, last: T)
    requires Apart(xs, marks) && forall x :: x in xs ==> marks(x) !! marks(last)
    ensures Apart(xs + [last], marks)
  {
  }

  lemma ApartInFront<T, U>(xs: seq<T>, marks: T -> set<U>, last: T, x: T)
    requires Apart(xs + [last] + [x], marks)
    ensures Apart(xs + [x], marks) && marks(x) !! marks(last)
    ensures forall y :: y in xs ==> marks(y) !! marks(last)
  {
    var all := xs + [last] + [x];
    forall i, j | 0 <= i < j < |xs| + 1 ensures marks((xs + [x])[i]) !! marks((xs + [x])[j]) {
      assert (xs + [x])[i] == all[i] && (xs + [x])[j] == all[if j == |xs| then j + 1 else j];
    }
    assert all[|xs|] == last && all[|xs| + 1] == x;
    forall y | y in xs ensures marks(y) !! marks(last) {
      var i :| 0 <= i < |xs| && xs[i] == y;
      assert all[i] == y;
    }
  }

  lemma Members<T>(xs: seq<T>, ys: seq<T>, x: T)
    requires multiset(xs) == multiset(ys) && x in xs
    ensures x in ys
  {
    assert x in multiset(xs);
  }

  lemma {:induction false} InsertApart<T, U>(xs: seq<T>, key: T -> int, marks: T -> set<U>, x: T)
    requires Apart(xs + [x], marks)
    ensures Apart(Insert(xs, key, x), marks)
  {
    if xs != [] && key(xs[|xs| - 1]) > key(x) {
      var front, last := xs[..|xs| - 1], xs[|xs| - 1];
      assert xs == front + [last];
      ApartInFront(front, marks, last, x);
      InsertApart(front, key, marks, x);
      forall y | y in Insert(front, key, x) ensures marks(y) !! marks(last) {
        InsertAdds(front, key, x);
        Members(Insert(front, key, x), front + [x], y);
      }
      ApartFromLast(Insert(front, key, x), marks, last);
    }
  }

  /** Nor do any two after sorting. */
  lemma {:induction false} SortApart<T, U>(xs: seq<T>, key: T -> int, marks: T -> set<U>)
    requires Apart(xs, marks)
    ensures Apart(Sort(xs, key), marks)
  {
    if xs != [] {
      var front, last := xs[..|xs| - 1], xs[|xs| - 1];
      SortApart(front, key, marks);
      SortKeeps(front, key);
      forall y | y in Sort(front, key) ensures marks(y) !! marks(last) {
        Members(Sort(front, key), front, y);
        var i :| 0 <= i < |front| && front[i] == y;
        assert xs[i] == y;
      }
      ApartFromLast(Sort(front, key), marks, last);
      InsertApart(Sort(front, key), key, marks, last);
    }
  }

  // ---------------------------------------------------------------- up to a bound

  /** The elements up to a bound, in the order given. */
  function Upto<T>(xs: seq<T>, key: T -> int, bound: int): seq<T> {
    if xs == [] then []
    else
      var front, last := Upto(xs[..|xs| - 1], key, bound), xs[|xs| - 1];
      if key(last) <= bound then front + [last] else front
  }

  lemma UptoAppend<T>(xs: seq<T>, key: T -> int, bound: int, x: T)
    ensures Upto(xs + [x], key, bound) == if key(x) <= bound then Upto(xs, key, bound) + [x] else Upto(xs, key, bound)
  {
    assert (xs + [x])[..|xs|] == xs;
  }

  lemma {:induction false} UptoConcat<T>(xs: seq<T>, ys: seq<T>, key: T -> int, bound: int)
    ensures Upto(xs + ys, key, bound) == Upto(xs, key, bound) + Upto(ys, key, bound)
  {
    if ys == [] {
      assert xs + ys == xs;
    } else {
      var n := |ys| - 1;
      UptoConcat(xs, ys[..n], key, bound);
      assert (xs + ys)[..|xs| + n] == xs + ys[..n];
    }
  }

  lemma {:induction false} UptoAll<T>(xs: seq<T>, key: T -> int, bound: int)
    requires forall i :: 0 <= i < |xs| ==> key(xs[i]) <= bound
    ensures Upto(xs, key, bound) == xs
  {
    if xs != [] {
      UptoAll(xs[..|xs| - 1], key, bound);
      assert xs == xs[..|xs| - 1] + [xs[|xs| - 1]];
    }
  }

  lemma {:induction false} UptoTwice<T>(xs: seq<T>, key: T -> int, bound: int, lower: int)
    requires lower <= bound
    ensures Upto(Upto(xs, key, bound), key, lower) == Upto(xs, key, lower)
  {
    if xs != [] {
      var n := |xs| - 1;
      UptoTwice(xs[..n], key, bound, lower);
      UptoAppend(Upto(xs[..n], key, bound), key, lower, xs[n]);
    }
  }

  /** Of an ordered list it is a prefix: everything before the first element beyond the bound. */
  lemma {:induction false} UptoPrefix<T>(xs: seq<T>, key: T -> int, bound: int)
    requires Ordered(xs, key)
    ensures Upto(xs, key, bound) <= xs
    ensures forall i :: |Upto(xs, key, bound)| <= i < |xs| ==> key(xs[i]) > bound
  {
    if xs != [] {
      var n := |xs| - 1;
      UptoPrefix(xs[..n], key, bound);
      if key(xs[n]) <= bound { UptoAll(xs, key, bound); }
    }
  }

  lemma StartSeen<T>(xs: seq<T>, key: T -> int, bound: int, n: nat)
    requires Ordered(xs, key) && n <= |xs| && forall i :: 0 <= i < n ==> key(xs[i]) <= bound
    ensures n <= |Upto(xs, key, bound)| && xs[..n] == Upto(xs, key, bound)[..n]
  {
    UptoPrefix(xs, key, bound);
  }

  lemma StartOfPrefix<T>(xs: seq<T>, ys: seq<T>, n: nat)
    requires xs <= ys && n <= |xs|
    ensures ys[..n] == xs[..n]
  {
  }

  /** Ordered lists that agree up to a bound begin alike, for as long as one stays within it. */
  lemma SameStart<T>(xs: seq<T>, ys: seq<T>, key: T -> int, bound: int, n: nat)
    requires Ordered(xs, key) && Ordered(ys, key) && Upto(xs, key, bound) == Upto(ys, key, bound)
    requires n <= |xs| && forall i :: 0 <= i < n ==> key(xs[i]) <= bound
    ensures n <= |ys| && xs[..n] == ys[..n]
  {
    StartSeen(xs, key, bound, n);
    UptoPrefix(ys, key, bound);
    StartOfPrefix(Upto(ys, key, bound), ys, n);
  }

  lemma UptoInsertLast<T>(xs: seq<T>, key: T -> int, x: T, bound: int)
    requires Ordered(xs, key) && (xs == [] || key(xs[|xs| - 1]) <= key(x))
    ensures Upto(Insert(xs, key, x), key, bound)
         == if key(x) <= bound then Insert(Upto(xs, key, bound), key, x) else Upto(xs, key, bound)
  {
    UptoAppend(xs, key, bound, x);
    if key(x) <= bound { UptoAll(xs, key, bound); }
  }

  lemma InsertBehind<T>(xs: seq<T>, key: T -> int, last: T, x: T)
    requires key(x) < key(last)
    ensures Insert(xs + [last], key, x) == Insert(xs, key, x) + [last]
  {
    assert (xs + [last])[..|xs|] == xs;
  }

  lemma UptoInsertBehind<T>(xs: seq<T>, inserted: seq<T>, key: T -> int, last: T, x: T, bound: int)
    requires key(x) < key(last)
    requires Upto(inserted, key, bound)
          == if key(x) <= bound then Insert(Upto(xs, key, bound), key, x) else Upto(xs, key, bound)
    ensures Upto(inserted + [last], key, bound)
         == if key(x) <= bound then Insert(Upto(xs + [last], key, bound), key, x) else Upto(xs + [last], key, bound)
  {
    UptoAppend(inserted, key, bound, last);
    UptoAppend(xs, key, bound, last);
    if key(last) <= bound { InsertBehind(Upto(xs, key, bound), key, last, x); }
  }

  /** Inserting commutes with hiding what is beyond the bound. */
  lemma {:induction false} UptoInsert<T>(xs: seq<T>, key: T -> int, x: T, bound: int)
    requires Ordered(xs, key)
    ensures Upto(Insert(xs, key, x), key, bound)
         == if key(x) <= bound then Insert(Upto(xs, key, bound), key, x) else Upto(xs, key, bound)
  {
    if xs == [] || key(xs[|xs| - 1]) <= key(x) {
      UptoInsertLast(xs, key, x, bound);
    } else {
      var n := |xs| - 1;
      UptoInsert(xs[..n], key, x, bound);
      UptoInsertBehind(xs[..n], Insert(xs[..n], key, x), key, xs[n], x, bound);
      assert xs == xs[..n] + [xs[n]];
    }
  }

  /** And so does sorting. */
  lemma {:induction false} UptoSort<T>(xs: seq<T>, key: T -> int, bound: int)
    ensures Upto(Sort(xs, key), key, bound) == Sort(Upto(xs, key, bound), key)
  {
    if xs != [] {
      var n := |xs| - 1;
      UptoSort(xs[..n], key, bound);
      SortOrders(xs[..n], key);
      UptoInsert(Sort(xs[..n], key), key, xs[n], bound);
      SortAppend(Upto(xs[..n], key, bound), key, xs[n]);
    }
  }
}

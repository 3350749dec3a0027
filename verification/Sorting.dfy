/** The sorts the program asks Go's sort package for, as one stable insertion sort,
    and the theorem that a stable sort has exactly one possible result. */
module Sorting {
  import opened Seqs

  ghost predicate StrictWeakOrder<T(!new)>(less: (T, T) -> bool) {
    && (forall x, y :: less(x, y) ==> !less(y, x))
    && (forall x, y, z {:trigger less(x, z), less(x, y), less(y, z)} :: less(x, z) ==> less(x, y) || less(y, z))
  }

  ghost predicate Sorted<T>(less: (T, T) -> bool, s: seq<T>) {
    forall i, j :: 0 <= i < j < |s| ==> !less(s[j], s[i])
  }

  predicate Tied<T>(less: (T, T) -> bool, x: T, y: T) {
    !less(x, y) && !less(y, x)
  }

  function TiedWith<T>(less: (T, T) -> bool, x: T): T -> bool {
    y => Tied(less, x, y)
  }

  /** Elements that tie keep their relative order: each tie class reads the same in both. */
  ghost predicate Stable<T(!new)>(less: (T, T) -> bool, input: seq<T>, output: seq<T>) {
    forall x :: Filter(TiedWith(less, x), output) == Filter(TiedWith(less, x), input)
  }

  /** Where x goes: after every element it does not precede. */
  function Insert<T>(less: (T, T) -> bool, s: seq<T>, x: T): seq<T> {
    if s == [] || !less(x, s[|s| - 1]) then s + [x]
    else Insert(less, s[..|s| - 1], x) + [s[|s| - 1]]
  }

  function StableSort<T>(less: (T, T) -> bool, s: seq<T>): seq<T> {
    if s == [] then [] else Insert(less, StableSort(less, s[..|s| - 1]), s[|s| - 1])
  }

  /** Insertion sort in place, by adjacent swaps. */
  method SortInPlace<T>(a: array<T>, less: (T, T) -> bool)
    modifies a
    ensures a[..] == StableSort(less, old(a[..]))
  {
    ghost var was := a[..];
    var i := 0;
    while i < a.Length
      invariant 0 <= i <= a.Length
      invariant a[..i] == StableSort(less, was[..i])
      invariant a[i..] == was[i..]
    {
      assert a[..i + 1] == a[..i] + [was[i]] && a[i + 1..] == was[i + 1..] by {
        assert a[i] == a[i..][0] && a[i + 1..] == a[i..][1..];
      }
      SinkLast(a, i, less);
      assert was[..i + 1][..i] == was[..i];
      i := i + 1;
    }
    assert a[..i] == a[..] && was[..i] == was;
  }

  /** One round of the insertion sort: element i moves down to its place. */
  method SinkLast<T>(a: array<T>, i: nat, less: (T, T) -> bool)
    requires i < a.Length
    modifies a
    ensures a[..i + 1] == Insert(less, old(a[..i]), old(a[i]))
    ensures a[i + 1..] == old(a[i + 1..])
  {
    hide Insert;
    ghost var done, x := a[..i], a[i];
    var j := i;
    while j > 0 && less(a[j], a[j - 1])
      invariant 0 <= j <= i
      invariant forall k :: 0 <= k < j ==> a[k] == done[k]
      invariant a[j] == x
      invariant forall k :: j < k <= i ==> a[k] == done[k - 1]
      invariant forall k :: j <= k < i ==> less(x, done[k])
      invariant forall k :: i < k < a.Length ==> a[k] == old(a[k])
    {
      a[j], a[j - 1] := a[j - 1], a[j];
      j := j - 1;
    }
    Sunk(less, a[..i + 1], done, x, j);
  }

  lemma Sunk<T>(less: (T, T) -> bool, r: seq<T>, s: seq<T>, x: T, j: nat)
    requires j <= |s| && |r| == |s| + 1 && r[j] == x
    requires j > 0 ==> !less(x, s[j - 1])
    requires forall k :: 0 <= k < j ==> r[k] == s[k]
    requires forall k :: j < k < |r| ==> r[k] == s[k - 1]
    requires forall k :: j <= k < |s| ==> less(x, s[k])
    ensures r == Insert(less, s, x)
  {
    hide Insert;
    var before, after := s[..j], s[j..];
    assert s == before + after;
    InsertAt(less, before, after, x);
    assert r == before + [x] + after;
  }

  /** x lands between what it does not precede and what it does. */
  lemma {:induction false} InsertAt<T>(less: (T, T) -> bool, before: seq<T>, after: seq<T>, x: T)
    requires before != [] ==> !less(x, before[|before| - 1])
    requires forall k :: 0 <= k < |after| ==> less(x, after[k])
    ensures Insert(less, before + after, x) == before + [x] + after
    decreases after
  {
    if after == [] {
      assert before + after == before;
    } else {
      var init, last := after[..|after| - 1], after[|after| - 1];
      assert (before + after)[..|before + after| - 1] == before + init;
      InsertAt(less, before, init, x);
    }
  }

  lemma {:induction false} InsertPermutes<T>(less: (T, T) -> bool, s: seq<T>, x: T)
    ensures multiset(Insert(less, s, x)) == multiset(s) + multiset{x}
  {
    if s != [] && less(x, s[|s| - 1]) {
      assert s == s[..|s| - 1] + [s[|s| - 1]];
      InsertPermutes(less, s[..|s| - 1], x);
    }
  }

  lemma {:induction false} SortPermutes<T>(less: (T, T) -> bool, s: seq<T>)
    ensures multiset(StableSort(less, s)) == multiset(s)
  {
    if s != [] {
      assert s == s[..|s| - 1] + [s[|s| - 1]];
      SortPermutes(less, s[..|s| - 1]);
      InsertPermutes(less, StableSort(less, s[..|s| - 1]), s[|s| - 1]);
    }
  }

  lemma {:induction false} InsertSorts<T(!new)>(less: (T, T) -> bool, s: seq<T>, x: T)
    requires StrictWeakOrder(less) && Sorted(less, s)
    ensures Sorted(less, Insert(less, s, x))
  {
    if s != [] && less(x, s[|s| - 1]) {
      var init, last := s[..|s| - 1], s[|s| - 1];
      InsertSorts(less, init, x);
      InsertPermutes(less, init, x);
      forall y | y in Insert(less, init, x)
        ensures !less(last, y)
      {
        assert y in multiset(Insert(less, init, x));
        if y != x {
          assert y in init;
        }
      }
    } else if s != [] {
      forall i | 0 <= i < |s|
        ensures !less(x, s[i])
      {
        assert i < |s| - 1 ==> !less(s[|s| - 1], s[i]);
      }
    }
  }

  lemma {:induction false} InsertIsStable<T(!new)>(less: (T, T) -> bool, s: seq<T>, x: T, z: T)
    requires StrictWeakOrder(less)
    ensures Filter(TiedWith(less, z), Insert(less, s, x)) == Filter(TiedWith(less, z), s + [x])
  {
    if s != [] && less(x, s[|s| - 1]) {
      var p, init, last := TiedWith(less, z), s[..|s| - 1], s[|s| - 1];
      assert s == init + [last];
      assert !(p(x) && p(last)) by {
        assert less(x, last) ==> less(x, z) || less(z, last);
      }
      InsertIsStable(less, init, x, z);
      FilterSnoc(p, Insert(less, init, x), last);
      FilterSnoc(p, init, x);
      FilterSnoc(p, init, last);
      FilterSnoc(p, s, x);
    }
  }

  /** The sort is what Go's sort.SliceStable promises: ordered, and ties keep their order. */
  lemma {:induction false} StableSortCorrect<T(!new)>(less: (T, T) -> bool, s: seq<T>)
    requires StrictWeakOrder(less)
    ensures Sorted(less, StableSort(less, s))
    ensures Stable(less, s, StableSort(less, s))
  {
    if s != [] {
      var init, x := s[..|s| - 1], s[|s| - 1];
      assert s == init + [x];
      StableSortCorrect(less, init);
      InsertSorts(less, StableSort(less, init), x);
      forall z
        ensures Filter(TiedWith(less, z), StableSort(less, s)) == Filter(TiedWith(less, z), s)
      {
        InsertIsStable(less, StableSort(less, init), x, z);
        FilterAppend(TiedWith(less, z), StableSort(less, init), [x]);
        FilterAppend(TiedWith(less, z), init, [x]);
      }
    }
  }

  /** Every element of a is in b when the tie classes agree. */
  lemma SameElements<T(!new)>(less: (T, T) -> bool, a: seq<T>, b: seq<T>, x: T)
    requires StrictWeakOrder(less) && Stable(less, a, b) && x in a
    ensures x in b
  {
    assert Tied(less, x, x);
    assert x in Filter(TiedWith(less, x), a);
    assert x in Filter(TiedWith(less, x), b);
  }

  lemma ClassStartsWithHead<T(!new)>(less: (T, T) -> bool, s: seq<T>, x: T)
    requires s != [] && Tied(less, x, s[0])
    ensures Filter(TiedWith(less, x), s) == [s[0]] + Filter(TiedWith(less, x), s[1..])
  {
    assert s == [s[0]] + s[1..];
    FilterAppend(TiedWith(less, x), [s[0]], s[1..]);
  }

  lemma SameHeads<T(!new)>(less: (T, T) -> bool, a: seq<T>, b: seq<T>)
    requires StrictWeakOrder(less) && a != [] && b != []
    requires Sorted(less, a) && Sorted(less, b) && Stable(less, a, b)
    ensures a[0] == b[0]
  {
    SameElements(less, a, b, a[0]);
    SameElements(less, b, a, b[0]);
    assert Tied(less, a[0], a[0]) && Tied(less, a[0], b[0]);
    ClassStartsWithHead(less, a, a[0]);
    ClassStartsWithHead(less, b, a[0]);
    assert Filter(TiedWith(less, a[0]), a)[0] == Filter(TiedWith(less, a[0]), b)[0];
  }

  /** Ordered and stable determine the result: any other stable sort returns the same sequence. */
  lemma {:induction false} StableSortUnique<T(!new)>(less: (T, T) -> bool, a: seq<T>, b: seq<T>)
    requires StrictWeakOrder(less)
    requires Sorted(less, a) && Sorted(less, b) && Stable(less, a, b)
    ensures a == b
  {
    if a == [] {
      if b != [] { SameElements(less, b, a, b[0]); }
    } else if b == [] {
      SameElements(less, a, b, a[0]);
    } else {
      SameHeads(less, a, b);
      StableTails(less, a, b);
      StableSortUnique(less, a[1..], b[1..]);
      assert a == [a[0]] + a[1..] && b == [b[0]] + b[1..];
    }
  }

  lemma StableTails<T(!new)>(less: (T, T) -> bool, a: seq<T>, b: seq<T>)
    requires a != [] && b != [] && a[0] == b[0] && Stable(less, a, b)
    ensures Stable(less, a[1..], b[1..])
  {
    forall z
      ensures Filter(TiedWith(less, z), b[1..]) == Filter(TiedWith(less, z), a[1..])
    {
      var p := TiedWith(less, z);
      var head := Filter(p, [a[0]]);
      assert a == [a[0]] + a[1..] && b == [a[0]] + b[1..];
      FilterAppend(p, [a[0]], a[1..]);
      FilterAppend(p, [a[0]], b[1..]);
      assert head + Filter(p, b[1..]) == head + Filter(p, a[1..]);
      assert Filter(p, b[1..]) == (head + Filter(p, b[1..]))[|head|..];
    }
  }

  lemma {:induction false} FilterKeepsSorted<T(!new)>(less: (T, T) -> bool, p: T -> bool, s: seq<T>)
    requires Sorted(less, s)
    ensures Sorted(less, Filter(p, s))
  {
    if s != [] {
      var init, last := s[..|s| - 1], s[|s| - 1];
      FilterKeepsSorted(less, p, init);
      forall i | 0 <= i < |Filter(p, init)|
        ensures !less(last, Filter(p, init)[i])
      {
        assert Filter(p, init)[i] in init;
      }
    }
  }

  /** Sorting commutes with filtering. */
  lemma SortCommutesWithFilter<T(!new)>(less: (T, T) -> bool, p: T -> bool, s: seq<T>)
    requires StrictWeakOrder(less)
    ensures StableSort(less, Filter(p, s)) == Filter(p, StableSort(less, s))
  {
    StableSortCorrect(less, s);
    StableSortCorrect(less, Filter(p, s));
    var a, b := StableSort(less, Filter(p, s)), Filter(p, StableSort(less, s));
    FilterKeepsSorted(less, p, StableSort(less, s));
    forall z
      ensures Filter(TiedWith(less, z), b) == Filter(TiedWith(less, z), a)
    {
      FilterCommutes(TiedWith(less, z), p, StableSort(less, s));
      FilterCommutes(TiedWith(less, z), p, s);
    }
    StableSortUnique(less, a, b);
  }

  /** When only equal elements tie, order alone fixes the result: any two ordered
      permutations of each other are equal. */
  lemma {:induction false} SortedPermutationsAgree<T(!new)>(less: (T, T) -> bool, a: seq<T>, b: seq<T>)
    requires forall x, y :: Tied(less, x, y) ==> x == y
    requires Sorted(less, a) && Sorted(less, b) && multiset(a) == multiset(b)
    ensures a == b
    decreases |a|
  {
    if a == [] {
      assert |multiset(b)| == 0;
    } else {
      var n := |a| - 1;
      assert |b| == |multiset(b)| == |a|;
      LastIsGreatest(less, a, b);
      WithoutLast(a, b);
      SortedPermutationsAgree(less, a[..n], b[..n]);
      assert a == a[..n] + [a[n]] && b == b[..n] + [b[n]];
    }
  }

  lemma WithoutLast<T>(a: seq<T>, b: seq<T>)
    requires a != [] && |a| == |b| && a[|a| - 1] == b[|b| - 1] && multiset(a) == multiset(b)
    ensures multiset(a[..|a| - 1]) == multiset(b[..|b| - 1])
  {
    var n := |a| - 1;
    assert a == a[..n] + [a[n]] && b == b[..n] + [b[n]];
    assert multiset(a[..n]) == multiset(a) - multiset{a[n]};
    assert multiset(b[..n]) == multiset(b) - multiset{b[n]};
  }

  lemma LastIsGreatest<T(!new)>(less: (T, T) -> bool, a: seq<T>, b: seq<T>)
    requires forall x, y :: Tied(less, x, y) ==> x == y
    requires a != [] && |a| == |b|
    requires Sorted(less, a) && Sorted(less, b) && multiset(a) == multiset(b)
    ensures a[|a| - 1] == b[|b| - 1]
  {
    var n := |a| - 1;
    assert a[n] in multiset(b) && b[n] in multiset(a);
    var i :| 0 <= i < |b| && b[i] == a[n];
    var j :| 0 <= j < |a| && a[j] == b[n];
    if i < n && j < n {
      assert Tied(less, a[n], b[n]);
    }
  }

  // ---- Integers ----

  predicate IntLess(a: int, b: int) { a < b }

  function Ascending(xs: seq<int>): seq<int> { StableSort(IntLess, xs) }

  lemma AscendingIsSorted(xs: seq<int>)
    ensures |Ascending(xs)| == |xs| && multiset(Ascending(xs)) == multiset(xs)
    ensures forall i, j :: 0 <= i < j < |xs| ==> Ascending(xs)[i] <= Ascending(xs)[j]
  {
    StableSortCorrect(IntLess, xs);
    SortPermutes(IntLess, xs);
    assert |multiset(Ascending(xs))| == |Ascending(xs)|;
    assert |multiset(xs)| == |xs|;
    hide StableSort;
    forall i, j | 0 <= i < j < |xs|
      ensures Ascending(xs)[i] <= Ascending(xs)[j]
    {
      assert !IntLess(Ascending(xs)[j], Ascending(xs)[i]);
    }
  }

  /** Two listings of the same integers sort alike. */
  lemma AscendingIsOrderFree(a: seq<int>, b: seq<int>)
    requires multiset(a) == multiset(b)
    ensures Ascending(a) == Ascending(b)
  {
    StableSortCorrect(IntLess, a);
    StableSortCorrect(IntLess, b);
    SortPermutes(IntLess, a);
    SortPermutes(IntLess, b);
    hide StableSort;
    SortedPermutationsAgree(IntLess, Ascending(a), Ascending(b));
  }
}

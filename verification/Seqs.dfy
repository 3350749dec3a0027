/** Sequence vocabulary of the model. Every recursion peels the LAST element, so
    that a loop over s[..i] unfolds one step per iteration. */
module Seqs {

  datatype Option<+T> = None | Some(value: T)

  function Filter<T(!new)>(p: T -> bool, s: seq<T>): (r: seq<T>)
    ensures |r| <= |s|
    ensures forall x :: x in r <==> x in s && p(x)
  {
    if s == [] then []
    else
      var init, last := Filter(p, s[..|s| - 1]), s[|s| - 1];
      assert s == s[..|s| - 1] + [last];
      if p(last) then init + [last] else init
  }

  function Map<A, B>(f: A -> B, s: seq<A>): (r: seq<B>)
    ensures |r| == |s|
    ensures forall i :: 0 <= i < |s| ==> r[i] == f(s[i])
  {
    seq(|s|, i requires 0 <= i < |s| => f(s[i]))
  }

  function SumI<T>(f: T -> int, s: seq<T>): int {
    if s == [] then 0 else SumI(f, s[..|s| - 1]) + f(s[|s| - 1])
  }

  function Itself(x: int): int { x }

  function SumR<T>(f: T -> real, s: seq<T>): real {
    if s == [] then 0.0 else SumR(f, s[..|s| - 1]) + f(s[|s| - 1])
  }

  ghost predicate NoDup<T>(s: seq<T>) {
    forall i, j :: 0 <= i < j < |s| ==> s[i] != s[j]
  }

  /** One order in which Go may visit the keys of a map. */
  ghost predicate Enumerates<K(!new)>(order: seq<K>, keys: set<K>) {
    NoDup(order) && forall k :: k in order <==> k in keys
  }

  // ---- Filter ----

  lemma FilterSnoc<T(!new)>(p: T -> bool, s: seq<T>, x: T)
    ensures Filter(p, s + [x]) == if p(x) then Filter(p, s) + [x] else Filter(p, s)
  {
    assert (s + [x])[..|s + [x]| - 1] == s;
  }

  lemma {:induction false} FilterAppend<T(!new)>(p: T -> bool, a: seq<T>, b: seq<T>)
    ensures Filter(p, a + b) == Filter(p, a) + Filter(p, b)
    decreases b
  {
    if b == [] {
      assert a + b == a;
    } else {
      var init, last := b[..|b| - 1], b[|b| - 1];
      assert b == init + [last] && a + b == (a + init) + [last];
      FilterAppend(p, a, init);
      FilterSnoc(p, a + init, last);
      FilterSnoc(p, init, last);
      hide Filter;
    }
  }

  lemma {:induction false} FilterBoth<T(!new)>(p: T -> bool, q: T -> bool, both: T -> bool, s: seq<T>)
    requires forall x :: x in s ==> both(x) == (p(x) && q(x))
    ensures Filter(p, Filter(q, s)) == Filter(both, s)
  {
    if s != [] {
      var init, last := s[..|s| - 1], [s[|s| - 1]];
      assert s == init + last;
      FilterBoth(p, q, both, init);
      FilterSnoc(p, Filter(q, init), last[0]);
    }
  }

  lemma FilterCommutes<T(!new)>(p: T -> bool, q: T -> bool, s: seq<T>)
    ensures Filter(p, Filter(q, s)) == Filter(q, Filter(p, s))
  {
    var both := x => p(x) && q(x);
    FilterBoth(p, q, both, s);
    FilterBoth(q, p, both, s);
  }

  lemma {:induction false} FilterAll<T(!new)>(p: T -> bool, s: seq<T>)
    requires forall x :: x in s ==> p(x)
    ensures Filter(p, s) == s
  {
    if s != [] {
      assert s == s[..|s| - 1] + [s[|s| - 1]];
      FilterAll(p, s[..|s| - 1]);
    }
  }

  lemma {:induction false} FilterNone<T(!new)>(p: T -> bool, s: seq<T>)
    requires forall x :: x in s ==> !p(x)
    ensures Filter(p, s) == []
  {
    if s != [] {
      assert s == s[..|s| - 1] + [s[|s| - 1]];
      FilterNone(p, s[..|s| - 1]);
    }
  }

  lemma MapSnoc<A, B>(f: A -> B, s: seq<A>, x: A)
    ensures Map(f, s + [x]) == Map(f, s) + [f(x)]
  {
  }

  lemma MapStep<A, B>(f: A -> B, s: seq<A>, i: nat)
    requires i < |s|
    ensures Map(f, s[..i + 1]) == Map(f, s[..i]) + [f(s[i])]
  {
    assert s[..i + 1] == s[..i] + [s[i]];
    MapSnoc(f, s[..i], s[i]);
  }

  // ---- Sums ----

  lemma SumISnoc<T>(f: T -> int, s: seq<T>, x: T)
    ensures SumI(f, s + [x]) == SumI(f, s) + f(x)
  {
    assert (s + [x])[..|s|] == s;
  }

  lemma {:induction false} SumIAppend<T>(f: T -> int, a: seq<T>, b: seq<T>)
    ensures SumI(f, a + b) == SumI(f, a) + SumI(f, b)
    decreases b
  {
    if b == [] {
      assert a + b == a;
    } else {
      assert (a + b)[..|a + b| - 1] == a + b[..|b| - 1];
      SumIAppend(f, a, b[..|b| - 1]);
    }
  }

  lemma {:induction false} SumRAppend<T>(f: T -> real, a: seq<T>, b: seq<T>)
    ensures SumR(f, a + b) == SumR(f, a) + SumR(f, b)
    decreases b
  {
    if b == [] {
      assert a + b == a;
    } else {
      assert (a + b)[..|a + b| - 1] == a + b[..|b| - 1];
      SumRAppend(f, a, b[..|b| - 1]);
    }
  }

  lemma {:induction false} SumILe<T>(f: T -> int, g: T -> int, s: seq<T>)
    requires forall x :: x in s ==> f(x) <= g(x)
    ensures SumI(f, s) <= SumI(g, s)
  {
    if s != [] {
      assert s[|s| - 1] in s;
      SumILe(f, g, s[..|s| - 1]);
    }
  }

  lemma {:induction false} SumRLe<T>(f: T -> real, g: T -> real, s: seq<T>)
    requires forall x :: x in s ==> f(x) <= g(x)
    ensures SumR(f, s) <= SumR(g, s)
  {
    if s != [] {
      assert s[|s| - 1] in s;
      SumRLe(f, g, s[..|s| - 1]);
    }
  }

  lemma {:induction false} SumRScale<T>(f: T -> real, g: T -> real, c: real, s: seq<T>)
    requires forall x :: x in s ==> f(x) == c * g(x)
    ensures SumR(f, s) == c * SumR(g, s)
  {
    if s != [] {
      assert s[|s| - 1] in s;
      SumRScale(f, g, c, s[..|s| - 1]);
    }
  }

  lemma {:induction false} SumRAdd<T>(f: T -> real, g: T -> real, h: T -> real, s: seq<T>)
    requires forall x :: x in s ==> h(x) == f(x) + g(x)
    ensures SumR(h, s) == SumR(f, s) + SumR(g, s)
  {
    if s != [] {
      assert s[|s| - 1] in s;
      SumRAdd(f, g, h, s[..|s| - 1]);
    }
  }

  // ---- Permutations ----

  /** The partner in b of the last element of a, and what remains of b without it. */
  lemma LastInPermutation<T>(a: seq<T>, b: seq<T>) returns (k: nat)
    requires a != [] && multiset(a) == multiset(b)
    ensures k < |b| && b[k] == a[|a| - 1]
    ensures b == b[..k] + [b[k]] + b[k + 1..]
    ensures multiset(a[..|a| - 1]) == multiset(b[..k] + b[k + 1..])
  {
    var last := a[|a| - 1];
    assert a == a[..|a| - 1] + [last];
    assert last in multiset(b);
    k :| 0 <= k < |b| && b[k] == last;
    assert b == b[..k] + [b[k]] + b[k + 1..];
    assert multiset(a[..|a| - 1]) == multiset(a) - multiset{last};
    assert multiset(b[..k] + b[k + 1..]) == multiset(b) - multiset{last} by {
      assert multiset(b) == multiset(b[..k] + [b[k]]) + multiset(b[k + 1..]);
    }
  }

  lemma {:induction false} SumIPermutation<T>(f: T -> int, a: seq<T>, b: seq<T>)
    requires multiset(a) == multiset(b)
    ensures SumI(f, a) == SumI(f, b)
    decreases |a|
  {
    if a == [] {
      assert |multiset(b)| == 0;
    } else {
      var k := LastInPermutation(a, b);
      SumIPermutation(f, a[..|a| - 1], b[..k] + b[k + 1..]);
      SumIAppend(f, b[..k], b[k + 1..]);
      SumIAppend(f, b[..k], [b[k]]);
      SumIAppend(f, b[..k] + [b[k]], b[k + 1..]);
    }
  }

  lemma {:induction false} SumRPermutation<T>(f: T -> real, a: seq<T>, b: seq<T>)
    requires multiset(a) == multiset(b)
    ensures SumR(f, a) == SumR(f, b)
    decreases |a|
  {
    if a == [] {
      assert |multiset(b)| == 0;
    } else {
      var k := LastInPermutation(a, b);
      SumRPermutation(f, a[..|a| - 1], b[..k] + b[k + 1..]);
      SumRAppend(f, b[..k], b[k + 1..]);
      SumRAppend(f, b[..k], [b[k]]);
      SumRAppend(f, b[..k] + [b[k]], b[k + 1..]);
    }
  }

  lemma {:induction false} MapPermutation<A, B>(f: A -> B, a: seq<A>, b: seq<A>)
    requires multiset(a) == multiset(b)
    ensures multiset(Map(f, a)) == multiset(Map(f, b))
    decreases |a|
  {
    if a == [] {
      assert |multiset(b)| == 0;
    } else {
      var k := LastInPermutation(a, b);
      var rest := b[..k] + b[k + 1..];
      MapPermutation(f, a[..|a| - 1], rest);
      assert Map(f, a) == Map(f, a[..|a| - 1]) + [f(a[|a| - 1])];
      assert Map(f, rest) == Map(f, b[..k]) + Map(f, b[k + 1..]);
      assert Map(f, b) == Map(f, b[..k]) + [f(b[k])] + Map(f, b[k + 1..]);
    }
  }

  lemma {:induction false} FilterPermutation<T(!new)>(p: T -> bool, a: seq<T>, b: seq<T>)
    requires multiset(a) == multiset(b)
    ensures multiset(Filter(p, a)) == multiset(Filter(p, b))
    decreases |a|
  {
    if a == [] {
      assert |multiset(b)| == 0;
    } else {
      var k := LastInPermutation(a, b);
      var init, last := a[..|a| - 1], a[|a| - 1];
      assert a == init + [last];
      FilterPermutation(p, init, b[..k] + b[k + 1..]);
      FilterSnoc(p, init, last);
      FilterSnoc(p, b[..k], b[k]);
      FilterAppend(p, b[..k], b[k + 1..]);
      FilterAppend(p, b[..k] + [b[k]], b[k + 1..]);
      hide Filter;
    }
  }

  lemma OccursTwice<T>(s: seq<T>, x: T) returns (i: nat, j: nat)
    requires multiset(s)[x] >= 2
    ensures i < j < |s| && s[i] == x && s[j] == x
  {
    assert x in multiset(s);
    i :| 0 <= i < |s| && s[i] == x && x !in s[..i] by {
      FirstOccurrence(s, x);
    }
    assert s == s[..i] + [s[i]] + s[i + 1..];
    assert multiset(s[..i])[x] == 0;
    assert x in multiset(s[i + 1..]);
    var k :| 0 <= k < |s[i + 1..]| && s[i + 1..][k] == x;
    j := i + 1 + k;
  }

  lemma {:induction false} FirstOccurrence<T>(s: seq<T>, x: T)
    requires x in s
    ensures exists i :: 0 <= i < |s| && s[i] == x && x !in s[..i]
  {
    var i :| 0 <= i < |s| && s[i] == x;
    if x in s[..i] {
      FirstOccurrence(s[..i], x);
      var k :| 0 <= k < i && s[..i][k] == x && x !in s[..i][..k];
      assert s[..i][..k] == s[..k];
    }
  }

  lemma NoDupPermutation<T>(a: seq<T>, b: seq<T>)
    requires multiset(a) == multiset(b) && NoDup(a)
    ensures NoDup(b)
  {
    forall i, j | 0 <= i < j < |b|
      ensures b[i] != b[j]
    {
      if b[i] == b[j] {
        assert b == b[..j] + [b[j]] + b[j + 1..];
        assert b[i] in multiset(b[..j]);
        var k, l := OccursTwice(a, b[i]);
        assert false;
      }
    }
  }

  lemma EnumeratesPermutation<K(!new)>(a: seq<K>, b: seq<K>, keys: set<K>)
    requires multiset(a) == multiset(b) && Enumerates(a, keys)
    ensures Enumerates(b, keys)
  {
    NoDupPermutation(a, b);
    forall k
      ensures k in b <==> k in keys
    {
      assert k in b <==> k in multiset(b);
      assert k in a <==> k in multiset(a);
    }
  }

  // ---- Filter, Map and Sum together ----

  /** Filtering after a map is mapping after a filter that asks the same question. */
  lemma {:induction false} FilterOfMap<A(!new), B(!new)>(p: B -> bool, q: A -> bool, f: A -> B, s: seq<A>)
    requires forall x :: x in s ==> p(f(x)) == q(x)
    ensures Filter(p, Map(f, s)) == Map(f, Filter(q, s))
  {
    if s != [] {
      var init, last := s[..|s| - 1], s[|s| - 1];
      assert s == init + [last];
      FilterOfMap(p, q, f, init);
      assert p(f(last)) == q(last);
      MapSnoc(f, init, last);
      MapSnoc(f, Filter(q, init), last);
      FilterSnoc(p, Map(f, init), f(last));
      FilterSnoc(q, init, last);
      hide *;
    }
  }

  lemma {:induction false} SumROfMap<A, B>(f: B -> real, g: A -> B, h: A -> real, s: seq<A>)
    requires forall x :: x in s ==> f(g(x)) == h(x)
    ensures SumR(f, Map(g, s)) == SumR(h, s)
  {
    if s != [] {
      assert s[|s| - 1] in s;
      assert Map(g, s)[..|s| - 1] == Map(g, s[..|s| - 1]);
      SumROfMap(f, g, h, s[..|s| - 1]);
    }
  }

  lemma {:induction false} FilterIsShorter<T(!new)>(p: T -> bool, s: seq<T>, x: T)
    requires x in s && !p(x)
    ensures |Filter(p, s)| < |s|
  {
    var init, last := s[..|s| - 1], s[|s| - 1];
    assert s == init + [last];
    if p(last) {
      FilterIsShorter(p, init, x);
    }
  }

  lemma {:induction false} SumOfFilter<T(!new)>(f: T -> int, p: T -> bool, s: seq<T>)
    requires forall x :: x in s ==> f(x) > 0
    ensures SumI(f, Filter(p, s)) <= SumI(f, s)
    ensures (exists x :: x in s && !p(x)) ==> SumI(f, Filter(p, s)) < SumI(f, s)
  {
    if s != [] {
      var init, last := s[..|s| - 1], s[|s| - 1];
      assert s == init + [last];
      SumOfFilter(f, p, init);
      assert f(last) > 0;
      FilterSnoc(p, init, last);
      assert (Filter(p, init) + [last])[..|Filter(p, init)|] == Filter(p, init);
    }
  }

  lemma {:induction false} SumOfMap<T(!new)>(f: T -> int, g: T -> T, s: seq<T>)
    requires forall x :: x in s ==> f(g(x)) <= f(x)
    ensures SumI(f, Map(g, s)) <= SumI(f, s)
    ensures (exists x :: x in s && f(g(x)) < f(x)) ==> SumI(f, Map(g, s)) < SumI(f, s)
  {
    if s != [] {
      var init, last := s[..|s| - 1], s[|s| - 1];
      assert s == init + [last];
      SumOfMap(f, g, init);
      assert Map(g, s)[..|s| - 1] == Map(g, init);
    }
  }

  lemma {:induction false} SumAtMost<T>(f: T -> int, c: int, s: seq<T>)
    requires forall x :: x in s ==> f(x) <= c
    ensures SumI(f, s) <= c * |s|
  {
    if s != [] {
      assert s[|s| - 1] in s;
      SumAtMost(f, c, s[..|s| - 1]);
    }
  }

  lemma {:induction false} SumIOfMap<A, B>(f: B -> int, g: A -> B, h: A -> int, s: seq<A>)
    requires forall x :: x in s ==> f(g(x)) == h(x)
    ensures SumI(f, Map(g, s)) == SumI(h, s)
  {
    if s != [] {
      assert s[|s| - 1] in s;
      assert Map(g, s)[..|s| - 1] == Map(g, s[..|s| - 1]);
      SumIOfMap(f, g, h, s[..|s| - 1]);
    }
  }

  // ---- Sums over the keys of a map ----

  ghost function SumOver<K>(f: K -> int, keys: set<K>): int {
    if keys == {} then 0
    else
      var k :| k in keys;
      f(k) + SumOver(f, keys - {k})
  }

  /** Which key is taken first does not matter. */
  lemma {:induction false} SumOverTakes<K>(f: K -> int, keys: set<K>, k: K)
    requires k in keys
    ensures SumOver(f, keys) == f(k) + SumOver(f, keys - {k})
    decreases keys
  {
    var first :| first in keys && SumOver(f, keys) == f(first) + SumOver(f, keys - {first});
    if first != k {
      SumOverTakes(f, keys - {first}, k);
      SumOverTakes(f, keys - {k}, first);
      assert keys - {first} - {k} == keys - {k} - {first};
    }
  }

  /** In whatever order the keys come, the running sum ends at the sum over the set. */
  lemma {:induction false} SumOverEnumeration<K(!new)>(f: K -> int, order: seq<K>, keys: set<K>)
    requires Enumerates(order, keys)
    ensures SumI(f, order) == SumOver(f, keys)
  {
    if order == [] {
      assert keys == {};
    } else {
      var init, last := order[..|order| - 1], order[|order| - 1];
      assert order == init + [last];
      SumOverEnumeration(f, init, keys - {last});
      SumOverTakes(f, keys, last);
    }
  }

  ghost function Listing<K(!new)>(keys: set<K>): (order: seq<K>)
    ensures Enumerates(order, keys)
  {
    if keys == {} then []
    else
      var k :| k in keys;
      Listing(keys - {k}) + [k]
  }

  lemma NoDupCounts<T>(s: seq<T>, x: T)
    requires NoDup(s)
    ensures multiset(s)[x] == if x in s then 1 else 0
  {
    if multiset(s)[x] >= 2 {
      var i, j := OccursTwice(s, x);
    }
    assert x in s <==> x in multiset(s);
  }

  lemma EnumerationsPermute<K(!new)>(a: seq<K>, b: seq<K>, keys: set<K>)
    requires Enumerates(a, keys) && Enumerates(b, keys)
    ensures multiset(a) == multiset(b)
  {
    forall x
      ensures multiset(a)[x] == multiset(b)[x]
    {
      NoDupCounts(a, x);
      NoDupCounts(b, x);
    }
  }

  lemma EnumeratesInit<K(!new)>(order: seq<K>, keys: set<K>)
    requires Enumerates(order, keys) && order != []
    ensures var init, last := order[..|order| - 1], order[|order| - 1];
            && order == init + [last] && Enumerates(init, keys - {last})
            && keys - {last} + {last} == keys && (init == [] ==> keys == {last})
  {
    var init, last := order[..|order| - 1], order[|order| - 1];
    assert order == init + [last] && last in order;
    forall i | 0 <= i < |init|
      ensures init[i] != last
    {
      assert order[i] != order[|order| - 1];
    }
    forall k
      ensures k in keys <==> k in init || k == last
    {
      assert k in order <==> k in init || k == last;
    }
  }

  lemma {:induction false} EnumerationSize<K(!new)>(order: seq<K>, keys: set<K>)
    requires Enumerates(order, keys)
    ensures |order| == |keys|
  {
    if order == [] {
      assert keys == {};
    } else {
      var init, last := order[..|order| - 1], order[|order| - 1];
      assert order == init + [last];
      EnumerationSize(init, keys - {last});
    }
  }

  lemma SomeKey(keys: set<int>)
    requires keys != {}
    ensures exists k :: k in keys
  {
    EnumerationSize(Listing(keys), keys);
    var k := Listing(keys)[0];
    assert k in Listing(keys);
  }
}

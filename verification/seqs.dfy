/** Sequence operations shared by the ledgers: `Array.prototype.filter` and a stable sort by key. */
module Seqs {

  /** The elements of `s` that satisfy `p`, in their original order (a left fold, as `filter` visits them). */
  function Filter<T>(s: seq<T>, p: T -> bool): (r: seq<T>)
    ensures |r| <= |s|
  {
    if s == [] then []
    else
      var n := |s| - 1;
      Filter(s[..n], p) + (if p(s[n]) then [s[n]] else [])
  }

  /** `Filter` keeps every occurrence of an element that satisfies `p` and no occurrence of one that does not. */
  lemma {:induction false} FilterCounts<T>(s: seq<T>, p: T -> bool, x: T)
    ensures multiset(Filter(s, p))[x] == if p(x) then multiset(s)[x] else 0
    ensures x in Filter(s, p) <==> x in s && p(x)
    decreases |s|
  {
    if s != [] {
      var n := |s| - 1;
      assert s == s[..n] + [s[n]];
      FilterCounts(s[..n], p, x);
    }
  }

  /** `FilterCounts` for every element at once. */
  lemma {:induction false} FilterMultiset<T>(s: seq<T>, p: T -> bool)
    ensures forall x :: multiset(Filter(s, p))[x] == if p(x) then multiset(s)[x] else 0
  {
    forall x ensures multiset(Filter(s, p))[x] == if p(x) then multiset(s)[x] else 0 {
      FilterCounts(s, p, x);
    }
  }

  /** The predicate that is true exactly where `p` is false. */
  function Not<T>(p: T -> bool): T -> bool {
    x => !p(x)
  }

  /** Filtering distributes over concatenation: what is kept from `a` stays in front of what is kept from `b`. */
  lemma {:induction false} FilterAppend<T>(a: seq<T>, b: seq<T>, p: T -> bool)
    ensures Filter(a + b, p) == Filter(a, p) + Filter(b, p)
    decreases |b|
  {
    if b == [] {
      assert a + b == a;
    } else {
      var n := |b| - 1;
      assert (a + b)[..|a + b| - 1] == a + b[..n];
      FilterAppend(a, b[..n], p);
    }
  }

  /** A filter that rejects nothing returns its input unchanged. */
  lemma {:induction false} FilterKeepsAll<T>(s: seq<T>, p: T -> bool)
    requires forall x :: x in s ==> p(x)
    ensures Filter(s, p) == s
    decreases |s|
  {
    if s != [] {
      var n := |s| - 1;
      assert s == s[..n] + [s[n]];
      FilterKeepsAll(s[..n], p);
    }
  }

  /** Keys strictly increase from left to right, so no element is listed twice. */
  ghost predicate StrictlyIncreasing<T>(s: seq<T>, key: T -> int) {
    forall i, j :: 0 <= i < j < |s| ==> key(s[i]) < key(s[j])
  }

  /** A filter keeps the survivors in their order, so strictly increasing keys stay strictly increasing. */
  lemma {:induction false} FilterKeepsIncreasing<T>(s: seq<T>, p: T -> bool, key: T -> int)
    requires StrictlyIncreasing(s, key)
    ensures StrictlyIncreasing(Filter(s, p), key)
    decreases |s|
  {
    if s != [] {
      var n := |s| - 1;
      var front := Filter(s[..n], p);
      FilterKeepsIncreasing(s[..n], p, key);
      forall x | x in front ensures key(x) < key(s[n]) {
        FilterCounts(s[..n], p, x);
      }
    }
  }

  /** The sum of `f` over `s`, accumulated from the left as `reduce` and `forEach` do. */
  function SumBy<T>(s: seq<T>, f: T -> int): int {
    if s == [] then 0
    else
      var n := |s| - 1;
      SumBy(s[..n], f) + f(s[n])
  }

  /** One more step of the fold: the form a loop over `s[..i]` needs. */
  lemma {:induction false} SumByStep<T>(s: seq<T>, i: nat, f: T -> int)
    requires i < |s|
    ensures SumBy(s[..i + 1], f) == SumBy(s[..i], f) + f(s[i])
  {
    assert s[..i + 1][..i] == s[..i];
  }

  /** Functions that agree on every element have the same sum. */
  lemma {:induction false} SumByPointwise<T>(s: seq<T>, f: T -> int, g: T -> int)
    requires forall x :: x in s ==> f(x) == g(x)
    ensures SumBy(s, f) == SumBy(s, g)
    decreases |s|
  {
    if s != [] {
      var n := |s| - 1;
      assert forall x :: x in s[..n] ==> x in s;
      assert s[n] in s;
      SumByPointwise(s[..n], f, g);
    }
  }

  /** Sums add up over concatenation. */
  lemma {:induction false} SumByAppend<T>(a: seq<T>, b: seq<T>, f: T -> int)
    ensures SumBy(a + b, f) == SumBy(a, f) + SumBy(b, f)
    decreases |b|
  {
    if b == [] {
      assert a + b == a;
    } else {
      var n := |b| - 1;
      assert (a + b)[..|a + b| - 1] == a + b[..n];
      SumByAppend(a, b[..n], f);
    }
  }

  /** A sum of non-negative terms is non-negative. */
  lemma {:induction false} SumByNonNegative<T>(s: seq<T>, f: T -> int)
    requires forall x :: x in s ==> f(x) >= 0
    ensures SumBy(s, f) >= 0
    decreases |s|
  {
    if s != [] {
      var n := |s| - 1;
      assert forall x :: x in s[..n] ==> x in s;
      SumByNonNegative(s[..n], f);
    }
  }

  /** Sums are linear: where `f + g == h` pointwise, the sums agree. */
  lemma {:induction false} SumByAdd<T>(s: seq<T>, f: T -> int, g: T -> int, h: T -> int)
    requires forall x :: x in s ==> f(x) + g(x) == h(x)
    ensures SumBy(s, f) + SumBy(s, g) == SumBy(s, h)
    decreases |s|
  {
    if s != [] {
      var n := |s| - 1;
      assert forall x :: x in s[..n] ==> x in s;
      SumByAdd(s[..n], f, g, h);
    }
  }

  /** Splitting a list by a predicate splits its sum. */
  lemma {:induction false} SumByFilterSplit<T>(s: seq<T>, f: T -> int, p: T -> bool)
    ensures SumBy(s, f) == SumBy(Filter(s, p), f) + SumBy(Filter(s, Not(p)), f)
    decreases |s|
  {
    if s != [] {
      var n := |s| - 1;
      SumByFilterSplit(s[..n], f, p);
      var x := s[n];
      SumByAppend(Filter(s[..n], p), if p(x) then [x] else [], f);
      SumByAppend(Filter(s[..n], Not(p)), if Not(p)(x) then [x] else [], f);
      assert [x][..0] == [];
    }
  }

  /** `f` where `p` holds and zero elsewhere. */
  function Masked<T>(f: T -> int, p: T -> bool): T -> int {
    x => if p(x) then f(x) else 0
  }

  /** Summing what a filter keeps is summing the masked function over everything. */
  lemma {:induction false} SumByFilter<T>(s: seq<T>, f: T -> int, p: T -> bool)
    ensures SumBy(Filter(s, p), f) == SumBy(s, Masked(f, p))
    decreases |s|
  {
    if s != [] {
      var n := |s| - 1;
      SumByFilter(s[..n], f, p);
      SumByAppend(Filter(s[..n], p), if p(s[n]) then [s[n]] else [], f);
      assert [s[n]][..0] == [];
    }
  }

  /** Keys do not decrease from left to right. */
  ghost predicate SortedBy<T>(s: seq<T>, key: T -> int) {
    forall i, j :: 0 <= i < j < |s| ==> key(s[i]) <= key(s[j])
  }

  /** Places `x` in front of the first element whose key is not below its own. */
  function Insert<T>(x: T, s: seq<T>, key: T -> int): (r: seq<T>)
    ensures |r| == |s| + 1
    ensures multiset(r) == multiset(s) + multiset{x}
  {
    if s == [] || key(x) <= key(s[0]) then [x] + s
    else
      assert s == [s[0]] + s[1..];
      [s[0]] + Insert(x, s[1..], key)
  }

  lemma {:induction false} InsertSorted<T>(x: T, s: seq<T>, key: T -> int)
    requires SortedBy(s, key)
    ensures SortedBy(Insert(x, s, key), key)
    decreases |s|
  {
    if s != [] && key(x) > key(s[0]) {
      InsertSorted(x, s[1..], key);
      var t := Insert(x, s[1..], key);
      forall y | y in t ensures key(s[0]) <= key(y) {
        assert y in multiset(t);
        assert y == x || y in s[1..];
      }
    }
  }

  /** Ascending order by `key`; elements with equal keys keep their input order (see `SortStable`). */
  function SortByKey<T>(s: seq<T>, key: T -> int): (r: seq<T>)
    ensures |r| == |s|
    ensures multiset(r) == multiset(s)
    ensures SortedBy(r, key)
  {
    if s == [] then []
    else
      var rest := SortByKey(s[1..], key);
      InsertSorted(s[0], rest, key);
      assert s == [s[0]] + s[1..];
      Insert(s[0], rest, key)
  }

  /** The predicate "has key `v`". */
  function KeyIs<T>(key: T -> int, v: int): T -> bool {
    x => key(x) == v
  }

  lemma {:induction false} InsertKeepsTies<T>(x: T, s: seq<T>, key: T -> int, v: int)
    ensures Filter(Insert(x, s, key), KeyIs(key, v)) == (if key(x) == v then [x] else []) + Filter(s, KeyIs(key, v))
    decreases |s|
  {
    var p := KeyIs(key, v);
    if s == [] || key(x) <= key(s[0]) {
      FilterAppend([x], s, p);
      FilterSingleton(x, p);
    } else {
      InsertKeepsTies(x, s[1..], key, v);
      InsertBehind(x, s, key, v);
    }
  }

  lemma {:induction false} FilterSingleton<T>(x: T, p: T -> bool)
    ensures Filter([x], p) == if p(x) then [x] else []
  {
    assert [x][..0] == [];
  }

  /** `x` goes behind `s[0]`, which cannot share its key, so the tie order is that of the tail. */
  lemma {:induction false} InsertBehind<T>(x: T, s: seq<T>, key: T -> int, v: int)
    requires s != [] && key(x) > key(s[0])
    requires Filter(Insert(x, s[1..], key), KeyIs(key, v))
          == (if key(x) == v then [x] else []) + Filter(s[1..], KeyIs(key, v))
    ensures Filter(Insert(x, s, key), KeyIs(key, v)) == (if key(x) == v then [x] else []) + Filter(s, KeyIs(key, v))
  {
    var p := KeyIs(key, v);
    var mine := if key(x) == v then [x] else [];
    assert Insert(x, s, key) == [s[0]] + Insert(x, s[1..], key);
    assert s == [s[0]] + s[1..];
    assert !p(s[0]) || mine == [];
    FrontKeepsOrder(s[0], Insert(x, s[1..], key), s[1..], mine, p);
  }

  /**
   * An element put in front of two lists that filter alike (up to a prefix `mine`
   * it cannot join) keeps them filtering alike.
   */
  lemma {:induction false} FrontKeepsOrder<T>(y: T, a: seq<T>, b: seq<T>, mine: seq<T>, p: T -> bool)
    requires Filter(a, p) == mine + Filter(b, p)
    requires !p(y) || mine == []
    ensures Filter([y] + a, p) == mine + Filter([y] + b, p)
  {
    FilterAppend([y], a, p);
    FilterAppend([y], b, p);
    FilterSingleton(y, p);
    var head, tail := Filter([y], p), Filter(b, p);
    if mine == [] {
      assert mine + (head + tail) == head + tail;
      assert head + (mine + tail) == head + tail;
    } else {
      assert head == [];
      assert head + (mine + tail) == mine + tail;
      assert mine + (head + tail) == mine + tail;
    }
  }

  /** Stability: for every key value, the elements carrying it appear in the same order before and after sorting. */
  lemma {:induction false} SortStable<T>(s: seq<T>, key: T -> int, v: int)
    ensures Filter(SortByKey(s, key), KeyIs(key, v)) == Filter(s, KeyIs(key, v))
    decreases |s|
  {
    if s != [] {
      var p := KeyIs(key, v);
      var rest := SortByKey(s[1..], key);
      assert SortByKey(s, key) == Insert(s[0], rest, key);
      SortStable(s[1..], key, v);
      InsertKeepsTies(s[0], rest, key, v);
      FilterAppend([s[0]], s[1..], p);
      assert [s[0]][..0] == [];
      assert Filter([s[0]], p) == (if key(s[0]) == v then [s[0]] else []);
      assert s == [s[0]] + s[1..];
    }
  }
}

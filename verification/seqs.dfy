/** Order-preserving sequence operations shared by the stores: the
    `Array.prototype.filter`, `map` and stable `sort` the store code relies on. */
module Seqs {

  /** `xs.filter(p)`: the elements satisfying `p`, in their original order. */
  function Filter<T>(xs: seq<T>, p: T -> bool): (r: seq<T>)
    ensures |r| <= |xs|
    ensures forall i :: 0 <= i < |r| ==> r[i] in xs && p(r[i])
    ensures forall i :: 0 <= i < |xs| && p(xs[i]) ==> xs[i] in r
    decreases |xs|
  {
    if |xs| == 0 then []
    else
      var rest := Filter(xs[1..], p);
      assert xs == [xs[0]] + xs[1..];
      if p(xs[0]) then [xs[0]] + rest else rest
  }

  /** One step of the filter: the head, if it passes, then the filtered tail. */
  lemma FilterCons<T>(xs: seq<T>, p: T -> bool)
    requires |xs| > 0
    ensures Filter(xs, p) == (if p(xs[0]) then [xs[0]] else []) + Filter(xs[1..], p)
  {
  }

  /** Filters by two exclusive predicates together hold what the filter by
      their disjunction holds. */
  lemma {:induction false} FilterUnion<T>(xs: seq<T>, p: T -> bool, q: T -> bool, pq: T -> bool)
    requires forall i :: 0 <= i < |xs| ==> !(p(xs[i]) && q(xs[i])) && pq(xs[i]) == (p(xs[i]) || q(xs[i]))
    ensures multiset(Filter(xs, p)) + multiset(Filter(xs, q)) == multiset(Filter(xs, pq))
    decreases |xs|
  {
    if |xs| > 0 {
      FilterUnion(xs[1..], p, q, pq);
      FilterConsBag(xs, p);
      FilterConsBag(xs, q);
      FilterConsBag(xs, pq);
    }
  }

  /** Four filters whose predicates split the elements two by two, then the
      two halves, hold exactly the elements of the list. */
  lemma Partition4<T>(xs: seq<T>, p1: T -> bool, p2: T -> bool, p3: T -> bool, p4: T -> bool,
                      p12: T -> bool, p34: T -> bool, all: T -> bool)
    requires forall i :: 0 <= i < |xs| ==> !(p1(xs[i]) && p2(xs[i])) && p12(xs[i]) == (p1(xs[i]) || p2(xs[i]))
    requires forall i :: 0 <= i < |xs| ==> !(p3(xs[i]) && p4(xs[i])) && p34(xs[i]) == (p3(xs[i]) || p4(xs[i]))
    requires forall i :: 0 <= i < |xs| ==> !(p12(xs[i]) && p34(xs[i])) && all(xs[i]) == (p12(xs[i]) || p34(xs[i]))
    requires forall i :: 0 <= i < |xs| ==> all(xs[i])
    ensures multiset(Filter(xs, p1)) + multiset(Filter(xs, p2)) + multiset(Filter(xs, p3)) + multiset(Filter(xs, p4))
         == multiset(xs)
  {
    FilterUnion(xs, p1, p2, p12);
    FilterUnion(xs, p3, p4, p34);
    FilterUnion(xs, p12, p34, all);
    FilterKeepsAll(xs, all);
  }

  lemma FilterConsBag<T>(xs: seq<T>, p: T -> bool)
    requires |xs| > 0
    ensures multiset(Filter(xs, p)) == (if p(xs[0]) then multiset{xs[0]} else multiset{}) + multiset(Filter(xs[1..], p))
  {
    FilterCons(xs, p);
  }

  /** When every element passes, filtering changes nothing. */
  lemma {:induction false} FilterKeepsAll<T>(xs: seq<T>, p: T -> bool)
    requires forall i :: 0 <= i < |xs| ==> p(xs[i])
    ensures Filter(xs, p) == xs
    decreases |xs|
  {
    if |xs| > 0 {
      FilterKeepsAll(xs[1..], p);
      assert xs == [xs[0]] + xs[1..];
    }
  }

  /** Filtering keeps the length exactly when every element passes. */
  lemma {:induction false} FilterLength<T>(xs: seq<T>, p: T -> bool)
    ensures |Filter(xs, p)| == |xs| <==> forall i :: 0 <= i < |xs| ==> p(xs[i])
    decreases |xs|
  {
    if |xs| > 0 {
      FilterLength(xs[1..], p);
      if p(xs[0]) {
        assert forall i :: 1 <= i < |xs| ==> xs[i] == xs[1..][i - 1];
      }
    }
  }

  /** Two filters in a row are one filter by the conjunction. */
  lemma {:induction false} FilterFilter<T>(xs: seq<T>, p: T -> bool, q: T -> bool, pq: T -> bool)
    requires forall i :: 0 <= i < |xs| ==> pq(xs[i]) == (p(xs[i]) && q(xs[i]))
    ensures Filter(Filter(xs, p), q) == Filter(xs, pq)
    decreases |xs|
  {
    if |xs| > 0 {
      FilterFilter(xs[1..], p, q, pq);
      var rest := Filter(xs[1..], p);
      if p(xs[0]) {
        var f := [xs[0]] + rest;
        assert f[0] == xs[0] && f[1..] == rest;
      }
    }
  }

  /** A filter applied only when `on` holds, after a filter by `acc`, is one
      filter by `acc` and (when on) `p`. */
  lemma FilterWhen<T>(xs: seq<T>, acc: T -> bool, on: bool, p: T -> bool, next: T -> bool)
    requires forall i :: 0 <= i < |xs| ==> next(xs[i]) == (acc(xs[i]) && (on ==> p(xs[i])))
    ensures (if on then Filter(Filter(xs, acc), p) else Filter(xs, acc)) == Filter(xs, next)
  {
    if on {
      FilterFilter(xs, acc, p, next);
    } else {
      FilterCongruent(xs, acc, next);
    }
  }

  /** Filters by pointwise-equal predicates agree. */
  lemma {:induction false} FilterCongruent<T>(xs: seq<T>, p: T -> bool, q: T -> bool)
    requires forall i :: 0 <= i < |xs| ==> p(xs[i]) == q(xs[i])
    ensures Filter(xs, p) == Filter(xs, q)
    decreases |xs|
  {
    if |xs| > 0 {
      FilterCongruent(xs[1..], p, q);
    }
  }

  /** Filtering distributes over concatenation. */
  lemma {:induction false} FilterAppend<T>(xs: seq<T>, ys: seq<T>, p: T -> bool)
    ensures Filter(xs + ys, p) == Filter(xs, p) + Filter(ys, p)
    decreases |xs|
  {
    if |xs| == 0 {
      assert xs + ys == ys;
    } else {
      assert (xs + ys)[1..] == xs[1..] + ys;
      FilterAppend(xs[1..], ys, p);
    }
  }

  /** `sub` is `xs` with some elements left out, the rest in their order. */
  predicate Subsequence<T(==)>(sub: seq<T>, xs: seq<T>)
    decreases |xs|
  {
    if |sub| == 0 then true
    else if |xs| == 0 then false
    else if sub[0] == xs[0] then Subsequence(sub[1..], xs[1..])
    else Subsequence(sub, xs[1..])
  }

  /** Filtering keeps the surviving elements in their relative order. */
  lemma {:induction false} FilterIsSubsequence<T>(xs: seq<T>, p: T -> bool)
    ensures Subsequence(Filter(xs, p), xs)
    decreases |xs|
  {
    if |xs| > 0 {
      FilterIsSubsequence(xs[1..], p);
      var rest := Filter(xs[1..], p);
      if p(xs[0]) {
        var r := [xs[0]] + rest;
        assert r[0] == xs[0] && r[1..] == rest;
      } else {
        SubsequenceOfTail(rest, xs);
      }
    }
  }

  /** A subsequence of the tail is a subsequence of the whole. */
  lemma {:induction false} SubsequenceOfTail<T>(sub: seq<T>, xs: seq<T>)
    requires |xs| > 0 && Subsequence(sub, xs[1..])
    ensures Subsequence(sub, xs)
    decreases |xs|, |sub|
  {
    if |sub| > 0 && sub[0] == xs[0] {
      SubsequenceDropHead(sub, xs[1..]);
    }
  }

  /** Dropping the first element of a subsequence keeps it a subsequence. */
  lemma {:induction false} SubsequenceDropHead<T>(sub: seq<T>, xs: seq<T>)
    requires |sub| > 0 && Subsequence(sub, xs)
    ensures Subsequence(sub[1..], xs)
    decreases |xs|, |sub|
  {
    assert |xs| > 0;
    if sub[0] == xs[0] {
      if |sub[1..]| > 0 {
        SubsequenceOfTail(sub[1..], xs);
      }
    } else {
      SubsequenceDropHead(sub, xs[1..]);
      if |sub[1..]| > 0 {
        SubsequenceOfTail(sub[1..], xs);
      }
    }
  }

  /** Number of elements satisfying `p`. */
  function Count<T>(xs: seq<T>, p: T -> bool): (n: nat)
    ensures n <= |xs|
    decreases |xs|
  {
    if |xs| == 0 then 0 else (if p(xs[0]) then 1 else 0) + Count(xs[1..], p)
  }

  /** The count is the length of the filtered list. */
  lemma {:induction false} CountIsFilterLength<T>(xs: seq<T>, p: T -> bool)
    ensures Count(xs, p) == |Filter(xs, p)|
    decreases |xs|
  {
    if |xs| > 0 {
      CountIsFilterLength(xs[1..], p);
      FilterCons(xs, p);
    }
  }

  /** Counting `q` among the elements that pass `p` is counting their
      conjunction over the whole list. */
  lemma {:induction false} CountOfFilter<T>(xs: seq<T>, p: T -> bool, q: T -> bool, pq: T -> bool)
    requires forall i :: 0 <= i < |xs| ==> pq(xs[i]) == (p(xs[i]) && q(xs[i]))
    ensures Count(Filter(xs, p), q) == Count(xs, pq)
    decreases |xs|
  {
    if |xs| > 0 {
      CountOfFilter(xs[1..], p, q, pq);
      FilterCons(xs, p);
      if p(xs[0]) {
        assert Filter(xs, p)[1..] == Filter(xs[1..], p);
      }
    }
  }

  /** Counting with a weaker predicate never gives less. */
  lemma {:induction false} CountMonotone<T>(xs: seq<T>, p: T -> bool, q: T -> bool)
    requires forall i :: 0 <= i < |xs| ==> p(xs[i]) ==> q(xs[i])
    ensures Count(xs, p) <= Count(xs, q)
    decreases |xs|
  {
    if |xs| > 0 {
      CountMonotone(xs[1..], p, q);
    }
  }

  /** `xs.reduce((sum, x) => sum + f(x), 0)`. */
  function Sum<T>(xs: seq<T>, f: T -> int): int
    decreases |xs|
  {
    if |xs| == 0 then 0 else f(xs[0]) + Sum(xs[1..], f)
  }

  /** Appending an element adds its value to the sum. */
  lemma {:induction false} SumAppend<T>(xs: seq<T>, x: T, f: T -> int)
    ensures Sum(xs + [x], f) == Sum(xs, f) + f(x)
    decreases |xs|
  {
    if |xs| == 0 {
      assert [x][1..] == [];
    } else {
      SumAppend(xs[1..], x, f);
      assert (xs + [x])[1..] == xs[1..] + [x];
    }
  }

  /** Filtering a list with one more element: it is kept exactly when it
      passes. */
  lemma FilterSnoc<T>(xs: seq<T>, x: T, p: T -> bool)
    ensures Filter(xs + [x], p) == Filter(xs, p) + (if p(x) then [x] else [])
  {
    FilterAppend(xs, [x], p);
    FilterCons([x], p);
    assert [x][1..] == [];
  }

  /** Over non-negative values, the sum over a filter lies between zero and
      the sum over the whole list. */
  lemma {:induction false} SumFilterBound<T>(xs: seq<T>, p: T -> bool, f: T -> int)
    requires forall i :: 0 <= i < |xs| ==> f(xs[i]) >= 0
    ensures 0 <= Sum(Filter(xs, p), f) <= Sum(xs, f)
    decreases |xs|
  {
    if |xs| > 0 {
      SumFilterBound(xs[1..], p, f);
      FilterCons(xs, p);
      if p(xs[0]) {
        assert Filter(xs, p)[1..] == Filter(xs[1..], p);
      }
    }
  }

  /** `xs.map(x => p(x) ? f(x) : x)`: rewrite the elements satisfying `p`,
      leave the others, keep length and positions. */
  function MapWhere<T>(xs: seq<T>, p: T -> bool, f: T -> T): (r: seq<T>)
    ensures |r| == |xs|
    ensures forall i :: 0 <= i < |xs| && p(xs[i]) ==> r[i] == f(xs[i])
    ensures forall i :: 0 <= i < |xs| && !p(xs[i]) ==> r[i] == xs[i]
    decreases |xs|
  {
    if |xs| == 0 then []
    else [if p(xs[0]) then f(xs[0]) else xs[0]] + MapWhere(xs[1..], p, f)
  }

  /** When no element satisfies `p`, mapping changes nothing. */
  lemma MapWhereNoMatch<T>(xs: seq<T>, p: T -> bool, f: T -> T)
    requires forall i :: 0 <= i < |xs| ==> !p(xs[i])
    ensures MapWhere(xs, p, f) == xs
  {
  }

  predicate SortedBy<T>(xs: seq<T>, key: T -> int) {
    forall i, j :: 0 <= i < j < |xs| ==> key(xs[i]) <= key(xs[j])
  }

  /** Insert `x` before the first element whose key is not smaller, so that
      it precedes the elements it ties with. */
  function InsertBy<T>(x: T, xs: seq<T>, key: T -> int): (r: seq<T>)
    requires SortedBy(xs, key)
    ensures SortedBy(r, key)
    ensures multiset(r) == multiset(xs) + multiset{x}
    ensures |r| == |xs| + 1
    ensures r[0] == x || (|xs| > 0 && r[0] == xs[0])
    decreases |xs|
  {
    if |xs| == 0 then [x]
    else if key(x) <= key(xs[0]) then
      assert forall j :: 0 <= j < |xs| ==> key(xs[0]) <= key(xs[j]);
      SortedCons(x, xs, key);
      [x] + xs
    else
      var rest := InsertBy(x, xs[1..], key);
      assert xs == [xs[0]] + xs[1..];
      SortedBelowHead(xs[0], x, xs[1..], rest, key);
      [xs[0]] + rest
  }

  /** An element no larger than any of a sorted list goes in front of it. */
  lemma SortedCons<T>(h: T, xs: seq<T>, key: T -> int)
    requires SortedBy(xs, key)
    requires forall j :: 0 <= j < |xs| ==> key(h) <= key(xs[j])
    ensures SortedBy([h] + xs, key)
  {
    var r := [h] + xs;
    forall i, j | 0 <= i < j < |r|
      ensures key(r[i]) <= key(r[j])
    {
      assert r[j] == xs[j - 1];
      if i > 0 {
        assert r[i] == xs[i - 1];
      }
    }
  }

  /** Putting back the head of a sorted list in front of its tail with an
      element of larger key inserted keeps the list sorted. */
  lemma SortedBelowHead<T>(h: T, x: T, tail: seq<T>, rest: seq<T>, key: T -> int)
    requires SortedBy([h] + tail, key) && SortedBy(rest, key)
    requires key(h) < key(x)
    requires multiset(rest) == multiset(tail) + multiset{x}
    ensures SortedBy([h] + rest, key)
  {
    forall j | 0 <= j < |rest|
      ensures key(h) <= key(rest[j])
    {
      assert rest[j] in multiset(rest);
      if rest[j] != x {
        assert rest[j] in multiset(tail);
        var k :| 0 <= k < |tail| && tail[k] == rest[j];
        assert ([h] + tail)[0] == h && ([h] + tail)[k + 1] == tail[k];
      } else {
        assert key(h) < key(x);
      }
    }
    SortedCons(h, rest, key);
  }

  /** A stable sort by an integer key (`xs.sort((a, b) => key(a) - key(b))`):
      the result is ordered and holds exactly the same elements. */
  function SortBy<T>(xs: seq<T>, key: T -> int): (r: seq<T>)
    ensures SortedBy(r, key)
    ensures multiset(r) == multiset(xs)
    ensures |r| == |xs|
    decreases |xs|
  {
    if |xs| == 0 then []
    else
      assert xs == [xs[0]] + xs[1..];
      InsertBy(xs[0], SortBy(xs[1..], key), key)
  }

  /** A filter keeps each element at most as often as the list holds it. */
  lemma {:induction false} FilterSubBag<T>(xs: seq<T>, p: T -> bool)
    ensures multiset(Filter(xs, p)) <= multiset(xs)
    decreases |xs|
  {
    if |xs| > 0 {
      FilterSubBag(xs[1..], p);
      FilterConsBag(xs, p);
      assert xs == [xs[0]] + xs[1..];
    }
  }

  /** A filter keeps every passing element exactly as often as the list
      holds it, and no failing one. */
  lemma {:induction false} FilterCount<T>(xs: seq<T>, p: T -> bool, e: T)
    ensures multiset(Filter(xs, p))[e] == if p(e) then multiset(xs)[e] else 0
    decreases |xs|
  {
    if |xs| > 0 {
      FilterCount(xs[1..], p, e);
      FilterConsBag(xs, p);
      assert xs == [xs[0]] + xs[1..];
    }
  }

  /** `FilterCount` for every element at once. */
  lemma FilterCounts<T>(xs: seq<T>, p: T -> bool)
    ensures forall e :: multiset(Filter(xs, p))[e] == if p(e) then multiset(xs)[e] else 0
  {
    forall e
      ensures multiset(Filter(xs, p))[e] == if p(e) then multiset(xs)[e] else 0
    {
      FilterCount(xs, p, e);
    }
  }

  /** Sorting what a filter kept: exactly the elements that pass, in key
      order, each as often as in the list. */
  lemma SortFiltered<T>(xs: seq<T>, p: T -> bool, key: T -> int)
    ensures var r := SortBy(Filter(xs, p), key);
      && (forall i :: 0 <= i < |r| ==> r[i] in xs && p(r[i]))
      && (forall i :: 0 <= i < |xs| && p(xs[i]) ==> xs[i] in r)
      && multiset(r) <= multiset(xs)
  {
    var f := Filter(xs, p);
    var r := SortBy(f, key);
    FilterSubBag(xs, p);
    forall i | 0 <= i < |r|
      ensures r[i] in xs && p(r[i])
    {
      assert r[i] in multiset(f);
    }
    forall i | 0 <= i < |xs| && p(xs[i])
      ensures xs[i] in r
    {
      assert xs[i] in multiset(r);
    }
  }
}

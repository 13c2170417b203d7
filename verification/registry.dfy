/** Lists keyed by a string (a user id, an emoji name): the `findIndex`
    lookup, the replace-in-place-or-append upsert and the remove-by-key
    filter that the call, screen-share and emoji registries all use. */
module Registry {
  import opened Common
  import Seqs

  predicate HasKey<T>(xs: seq<T>, key: T -> string, k: string) {
    exists i :: 0 <= i < |xs| && key(xs[i]) == k
  }

  /** At most one entry per key. */
  predicate UniqueKeys<T>(xs: seq<T>, key: T -> string) {
    forall i, j :: 0 <= i < j < |xs| ==> key(xs[i]) != key(xs[j])
  }

  /** `xs.findIndex(e => key(e) === k)`: the first position holding `k`, or -1. */
  function FindIndex<T>(xs: seq<T>, key: T -> string, k: string): (r: int)
    ensures -1 <= r < |xs|
    ensures r == -1 <==> !HasKey(xs, key, k)
    ensures 0 <= r ==> key(xs[r]) == k && forall i :: 0 <= i < r ==> key(xs[i]) != k
    decreases |xs|
  {
    if |xs| == 0 then -1
    else if key(xs[0]) == k then 0
    else
      var j := FindIndex(xs[1..], key, k);
      assert forall i :: 1 <= i < |xs| ==> xs[i] == xs[1..][i - 1];
      if j == -1 then -1 else j + 1
  }

  /** The first position holding `k` is the one `FindIndex` reports. */
  lemma FindIndexIs<T>(xs: seq<T>, key: T -> string, k: string, j: nat)
    requires j < |xs| && key(xs[j]) == k
    requires forall i :: 0 <= i < j ==> key(xs[i]) != k
    ensures FindIndex(xs, key, k) == j
  {
    assert HasKey(xs, key, k);
  }

  /** `xs.find(e => key(e) === k)`. */
  function Lookup<T>(xs: seq<T>, key: T -> string, k: string): (r: Option<T>)
    ensures r.None? <==> !HasKey(xs, key, k)
    ensures r.Some? ==> r.value in xs && key(r.value) == k
  {
    var i := FindIndex(xs, key, k);
    if i >= 0 then Some(xs[i]) else None
  }

  /** Replace the first entry with `x`'s key by `x`, or append `x` when the
      key is new. */
  function Upsert<T>(xs: seq<T>, key: T -> string, x: T): (r: seq<T>)
    ensures HasKey(xs, key, key(x)) ==> |r| == |xs|
    ensures HasKey(xs, key, key(x)) ==>
      var i := FindIndex(xs, key, key(x));
      r[i] == x && forall j :: 0 <= j < |xs| && j != i ==> r[j] == xs[j]
    ensures !HasKey(xs, key, key(x)) ==> |r| == |xs| + 1 && r[..|xs|] == xs && r[|xs|] == x
    ensures Lookup(r, key, key(x)) == Some(x)
    ensures forall i :: 0 <= i < |xs| && key(xs[i]) != key(x) ==> r[i] == xs[i]
    ensures forall k :: k != key(x) ==> Lookup(r, key, k) == Lookup(xs, key, k)
    ensures UniqueKeys(xs, key) ==> UniqueKeys(r, key)
  {
    var i := FindIndex(xs, key, key(x));
    if i >= 0 then
      var r := xs[i := x];
      LookupAfterReplace(xs, key, i, x);
      r
    else
      var r := xs + [x];
      LookupAfterAppend(xs, key, x);
      r
  }

  lemma LookupAfterReplace<T>(xs: seq<T>, key: T -> string, i: nat, x: T)
    requires i < |xs| && key(xs[i]) == key(x)
    requires forall j :: 0 <= j < i ==> key(xs[j]) != key(x)
    ensures Lookup(xs[i := x], key, key(x)) == Some(x)
    ensures forall k :: k != key(x) ==> Lookup(xs[i := x], key, k) == Lookup(xs, key, k)
  {
    var r := xs[i := x];
    FindIndexIs(r, key, key(x), i);
    forall k | k != key(x)
      ensures Lookup(r, key, k) == Lookup(xs, key, k)
    {
      var a := FindIndex(xs, key, k);
      if a == -1 {
        assert !HasKey(r, key, k);
      } else {
        FindIndexIs(r, key, k, a);
      }
    }
  }

  lemma LookupAfterAppend<T>(xs: seq<T>, key: T -> string, x: T)
    requires !HasKey(xs, key, key(x))
    ensures Lookup(xs + [x], key, key(x)) == Some(x)
    ensures forall k :: k != key(x) ==> Lookup(xs + [x], key, k) == Lookup(xs, key, k)
  {
    var r := xs + [x];
    FindIndexIs(r, key, key(x), |xs|);
    forall k | k != key(x)
      ensures Lookup(r, key, k) == Lookup(xs, key, k)
    {
      var a := FindIndex(xs, key, k);
      if a == -1 {
        assert !HasKey(r, key, k);
      } else {
        FindIndexIs(r, key, k, a);
      }
    }
  }

  /** `xs.filter(e => key(e) !== k)`. */
  function RemoveKey<T>(xs: seq<T>, key: T -> string, k: string): (r: seq<T>)
    ensures !HasKey(r, key, k)
    ensures forall i :: 0 <= i < |xs| && key(xs[i]) != k ==> xs[i] in r
    ensures forall i :: 0 <= i < |r| ==> r[i] in xs
    ensures Seqs.Subsequence(r, xs)
    ensures forall i :: 0 <= i < |xs| ==> multiset(r)[xs[i]] == if key(xs[i]) == k then 0 else multiset(xs)[xs[i]]
    ensures !HasKey(xs, key, k) <==> r == xs
    ensures UniqueKeys(xs, key) ==> UniqueKeys(r, key)
  {
    RemoveKeyFacts(xs, key, k);
    Seqs.Filter(xs, e => key(e) != k)
  }

  lemma RemoveKeyFacts<T>(xs: seq<T>, key: T -> string, k: string)
    ensures !HasKey(xs, key, k) <==> Seqs.Filter(xs, e => key(e) != k) == xs
    ensures UniqueKeys(xs, key) ==> UniqueKeys(Seqs.Filter(xs, e => key(e) != k), key)
    ensures Seqs.Subsequence(Seqs.Filter(xs, e => key(e) != k), xs)
    ensures forall e :: multiset(Seqs.Filter(xs, e => key(e) != k))[e] == if key(e) == k then 0 else multiset(xs)[e]
  {
    Seqs.FilterIsSubsequence(xs, e => key(e) != k);
    Seqs.FilterCounts(xs, e => key(e) != k);
    Seqs.FilterLength(xs, e => key(e) != k);
    if !HasKey(xs, key, k) {
      Seqs.FilterKeepsAll(xs, e => key(e) != k);
    }
    if UniqueKeys(xs, key) {
      RemoveKeyUnique(xs, key, k);
    }
  }

  lemma {:induction false} RemoveKeyUnique<T>(xs: seq<T>, key: T -> string, k: string)
    requires UniqueKeys(xs, key)
    ensures UniqueKeys(Seqs.Filter(xs, e => key(e) != k), key)
    decreases |xs|
  {
    if |xs| > 0 {
      assert UniqueKeys(xs[1..], key);
      RemoveKeyUnique(xs[1..], key, k);
      var rest := Seqs.Filter(xs[1..], e => key(e) != k);
      assert forall i :: 0 <= i < |rest| ==> rest[i] in xs[1..];
      assert forall i :: 0 <= i < |rest| ==> key(rest[i]) != key(xs[0]);
    }
  }

  /** Removing a key after an upsert of that key is removing it from the
      original list: an upsert touches no entry of another key. */
  lemma RemoveAfterUpsert<T>(xs: seq<T>, key: T -> string, x: T)
    ensures RemoveKey(Upsert(xs, key, x), key, key(x)) == RemoveKey(xs, key, key(x))
  {
    var i := FindIndex(xs, key, key(x));
    var p := e => key(e) != key(x);
    if i >= 0 {
      assert xs == xs[..i] + [xs[i]] + xs[i + 1..];
      assert xs[i := x] == xs[..i] + [x] + xs[i + 1..];
      Seqs.FilterAppend(xs[..i] + [xs[i]], xs[i + 1..], p);
      Seqs.FilterAppend(xs[..i], [xs[i]], p);
      Seqs.FilterAppend(xs[..i] + [x], xs[i + 1..], p);
      Seqs.FilterAppend(xs[..i], [x], p);
    } else {
      Seqs.FilterAppend(xs, [x], p);
      Seqs.FilterKeepsAll(xs, p);
    }
  }

  /** Removing one key leaves the lookup of every other key as it was. */
  lemma LookupAfterRemove<T>(xs: seq<T>, key: T -> string, k: string, other: string)
    requires other != k
    ensures Lookup(RemoveKey(xs, key, k), key, other) == Lookup(xs, key, other)
  {
    LookupAfterFilter(xs, key, k, other);
  }

  lemma {:induction false} LookupAfterFilter<T>(xs: seq<T>, key: T -> string, k: string, other: string)
    requires other != k
    ensures Lookup(Seqs.Filter(xs, e => key(e) != k), key, other) == Lookup(xs, key, other)
    decreases |xs|
  {
    if |xs| > 0 {
      var p := e => key(e) != k;
      LookupAfterFilter(xs[1..], key, k, other);
      Seqs.FilterCons(xs, p);
      var rest := Seqs.Filter(xs[1..], p);
      if key(xs[0]) == other {
        FindIndexIs(xs, key, other, 0);
        FindIndexIs(Seqs.Filter(xs, p), key, other, 0);
      } else if key(xs[0]) == k {
        assert Seqs.Filter(xs, p) == rest;
      } else {
        assert Seqs.Filter(xs, p) == [xs[0]] + rest;
        assert ([xs[0]] + rest)[1..] == rest;
      }
    }
  }
}

/**
 * A `defaultdict(list)` filled by scanning a sequence once: the items
 * grouped by a string key, the keys in the order each was first seen, each
 * group in input order. Both AI-activity aggregators group their metrics by
 * e-mail this way (src/aggregate.py:236-240, 310-314).
 */
module Grouping {
  import opened Tally

  /** The key of every item, in input order. */
  function KeysIn<T>(xs: seq<T>, key: T -> string): (ks: seq<string>)
    ensures |ks| == |xs| && forall i :: 0 <= i < |xs| ==> ks[i] == key(xs[i])
  {
    seq(|xs|, i requires 0 <= i < |xs| => key(xs[i]))
  }

  /** The items whose key is `k`, in input order. */
  function Members<T>(xs: seq<T>, key: T -> string, k: string): seq<T> {
    if xs == [] then []
    else
      Members(xs[..|xs| - 1], key, k) + if key(xs[|xs| - 1]) == k then [xs[|xs| - 1]] else []
  }

  /** `keys` and `groups` are the dictionary built from `xs`. */
  ghost predicate GroupedBy<T>(xs: seq<T>, key: T -> string, keys: seq<string>, groups: map<string, seq<T>>) {
    && keys == Distinct(KeysIn(xs, key))
    && (forall k :: k in groups <==> k in keys)
    && (forall k :: k in groups ==> groups[k] == Members(xs, key, k))
  }

  lemma MembersAppend<T>(xs: seq<T>, key: T -> string, x: T, k: string)
    ensures Members(xs + [x], key, k) == Members(xs, key, k) + if key(x) == k then [x] else []
    ensures KeysIn(xs + [x], key) == KeysIn(xs, key) + [key(x)]
  {
    assert (xs + [x])[..|xs|] == xs;
  }

  /** No item has a key that was never seen. */
  lemma {:induction false} MembersAbsent<T>(xs: seq<T>, key: T -> string, k: string)
    requires k !in KeysIn(xs, key)
    ensures Members(xs, key, k) == []
  {
    if xs != [] {
      var n := |xs| - 1;
      MembersAppend(xs[..n], key, xs[n], k);
      assert xs[..n] + [xs[n]] == xs;
      assert KeysIn(xs, key)[..n] == KeysIn(xs[..n], key);
      MembersAbsent(xs[..n], key, k);
    }
  }

  /** The group of `x`'s key after appending `x`, and the keys in first-seen order. */
  lemma GroupOfStep<T>(xs: seq<T>, key: T -> string, keys: seq<string>, groups: map<string, seq<T>>, x: T)
    requires GroupedBy(xs, key, keys, groups)
    ensures var k := key(x);
      && Members(xs + [x], key, k) == (if k in groups then groups[k] else []) + [x]
      && Distinct(KeysIn(xs + [x], key)) == if k in groups then keys else keys + [k]
  {
    var k := key(x);
    MembersAppend(xs, key, x, k);
    DistinctAppend(KeysIn(xs, key), k);
    if k !in groups {
      MembersAbsent(xs, key, k);
    }
  }

  /** Appending `x` to the group of its key keeps the dictionary up to date. */
  lemma GroupedStep<T>(xs: seq<T>, key: T -> string, keys: seq<string>, groups: map<string, seq<T>>, x: T)
    requires GroupedBy(xs, key, keys, groups)
    ensures var k := key(x);
      GroupedBy(xs + [x], key,
                if k in groups then keys else keys + [k],
                groups[k := (if k in groups then groups[k] else []) + [x]])
  {
    var k := key(x);
    var keys' := if k in groups then keys else keys + [k];
    var groups' := groups[k := (if k in groups then groups[k] else []) + [x]];
    GroupOfStep(xs, key, keys, groups, x);
    forall j
      ensures j in groups' <==> j in keys'
    {
      assert j in keys' <==> j in keys || j == k;
    }
    forall j | j in groups'
      ensures groups'[j] == Members(xs + [x], key, j)
    {
      if j != k {
        MembersAppend(xs, key, x, j);
      }
    }
    assert GroupedBy(xs + [x], key, keys', groups');
  }

  /** The prefixes a loop over `xs` walks through. */
  lemma PrefixStep<T>(xs: seq<T>, i: nat)
    requires i <= |xs|
    ensures i < |xs| ==> xs[..i + 1] == xs[..i] + [xs[i]]
    ensures i == |xs| ==> xs[..i] == xs
  {
  }

  /** `for x in xs: groups[key(x)].append(x)`. */
  method GroupBy<T>(xs: seq<T>, key: T -> string) returns (keys: seq<string>, groups: map<string, seq<T>>)
    ensures GroupedBy(xs, key, keys, groups)
  {
    keys, groups := [], map[];
    for i := 0 to |xs|
      invariant GroupedBy(xs[..i], key, keys, groups)
    {
      var k := key(xs[i]);
      GroupedStep(xs[..i], key, keys, groups, xs[i]);
      PrefixStep(xs, i);
      keys, groups := if k in groups then keys else keys + [k],
                      groups[k := (if k in groups then groups[k] else []) + [xs[i]]];
    }
    PrefixStep(xs, |xs|);
  }

  /**
   * Grouping loses and duplicates nothing: the group of `k` holds as many
   * items as there are items with key `k`, and only such items.
   */
  lemma {:induction false} MembersPartition<T>(xs: seq<T>, key: T -> string, k: string)
    ensures |Members(xs, key, k)| == Occurrences(KeysIn(xs, key), k)
    ensures forall j :: 0 <= j < |Members(xs, key, k)| ==> key(Members(xs, key, k)[j]) == k
  {
    if xs != [] {
      var n := |xs| - 1;
      MembersAppend(xs[..n], key, xs[n], k);
      assert xs[..n] + [xs[n]] == xs;
      assert KeysIn(xs, key) == KeysIn(xs[..n], key) + [key(xs[n])];
      assert multiset(KeysIn(xs, key)) == multiset(KeysIn(xs[..n], key)) + multiset{key(xs[n])};
      MembersPartition(xs[..n], key, k);
    }
  }

  /** The groups of all keys together hold every item exactly once. */
  function GroupSizes<T>(keys: seq<string>, xs: seq<T>, key: T -> string): nat {
    if keys == [] then 0 else GroupSizes(keys[..|keys| - 1], xs, key) + |Members(xs, key, keys[|keys| - 1])|
  }

  lemma {:induction false} GroupSizesAreCounts<T>(keys: seq<string>, xs: seq<T>, key: T -> string, c: Counter)
    requires Tallies(c, KeysIn(xs, key))
    requires forall k :: k in keys ==> k in c.counts
    ensures GroupSizes(keys, xs, key) == CountSum(keys, c.counts)
  {
    if keys != [] {
      var n := |keys| - 1;
      GroupSizesAreCounts(keys[..n], xs, key, c);
      MembersPartition(xs, key, keys[n]);
    }
  }

  lemma GroupsCoverAll<T>(xs: seq<T>, key: T -> string)
    ensures GroupSizes(Distinct(KeysIn(xs, key)), xs, key) == |xs|
  {
    var obs := KeysIn(xs, key);
    TallyCountSum(obs);
    GroupSizesAreCounts(Distinct(obs), xs, key, Tally.Tally(obs));
  }

  /** The sum of `f` over the items: a counter a per-group loop adds to. */
  function SumOf<T>(xs: seq<T>, f: T -> int): int {
    if xs == [] then 0 else SumOf(xs[..|xs| - 1], f) + f(xs[|xs| - 1])
  }

  /** The number of items satisfying `p`: a counter a per-group loop increments. */
  function CountIf<T>(xs: seq<T>, p: T -> bool): nat {
    if xs == [] then 0 else CountIf(xs[..|xs| - 1], p) + if p(xs[|xs| - 1]) then 1 else 0
  }

  lemma SumOfAppend<T>(xs: seq<T>, f: T -> int, x: T)
    ensures SumOf(xs + [x], f) == SumOf(xs, f) + f(x)
  {
    assert (xs + [x])[..|xs|] == xs;
  }

  lemma CountIfAppend<T>(xs: seq<T>, p: T -> bool, x: T)
    ensures CountIf(xs + [x], p) == CountIf(xs, p) + if p(x) then 1 else 0
  {
    assert (xs + [x])[..|xs|] == xs;
  }

  /** At most every item satisfies `p`. */
  lemma {:induction false} CountIfAtMost<T>(xs: seq<T>, p: T -> bool)
    ensures CountIf(xs, p) <= |xs|
  {
    if xs != [] {
      CountIfAtMost(xs[..|xs| - 1], p);
    }
  }
}

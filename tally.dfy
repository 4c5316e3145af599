/**
 * First-seen ordering and frequency counting, as Python's insertion-ordered
 * `dict` and `collections.Counter` provide them to the aggregators.
 */
module Tally {
  import opened Wrappers

  /** Counted keys are strings: e-mails, team names, models, repositories. */
  type Key = string

  /** No element occurs twice. */
  ghost predicate NoDup(xs: seq<Key>) {
    forall i, j :: 0 <= i < j < |xs| ==> xs[i] != xs[j]
  }

  /** Number of occurrences of `x` in `xs`. */
  function Occurrences(xs: seq<Key>, x: Key): nat {
    multiset(xs)[x]
  }

  /** Index of the first occurrence of `x` in `xs`. */
  function FirstIndex(xs: seq<Key>, x: Key): (i: nat)
    requires x in xs
    ensures i < |xs| && xs[i] == x && x !in xs[..i]
  {
    if xs[0] == x then 0 else 1 + FirstIndex(xs[1..], x)
  }

  /**
   * The distinct elements of `xs`, each kept where it first occurs: the key
   * order of a dict filled by scanning `xs`.
   */
  function Distinct(xs: seq<Key>): (d: seq<Key>)
    ensures forall x :: x in d <==> x in xs
    ensures NoDup(d)
  {
    if xs == [] then []
    else
      var d := Distinct(xs[..|xs| - 1]);
      if xs[|xs| - 1] in d then d else d + [xs[|xs| - 1]]
  }

  /** One more element extends the distinct elements exactly when it is new. */
  lemma DistinctAppend(xs: seq<Key>, x: Key)
    ensures Distinct(xs + [x]) == if x in xs then Distinct(xs) else Distinct(xs) + [x]
  {
    assert (xs + [x])[..|xs|] == xs;
  }

  /** There are never more distinct elements than elements. */
  lemma {:induction false} DistinctAtMost(xs: seq<Key>)
    ensures |Distinct(xs)| <= |xs|
  {
    if xs != [] {
      DistinctAtMost(xs[..|xs| - 1]);
    }
  }

  lemma FirstIndexOfPrefix(xs: seq<Key>, k: nat, x: Key)
    requires k <= |xs| && x in xs[..k]
    ensures FirstIndex(xs, x) == FirstIndex(xs[..k], x)
  {
  }

  /** `Distinct` lists the elements in the order of their first occurrence. */
  lemma {:induction false} DistinctFirstSeen(xs: seq<Key>)
    ensures forall i, j :: 0 <= i < j < |Distinct(xs)| ==>
      FirstIndex(xs, Distinct(xs)[i]) < FirstIndex(xs, Distinct(xs)[j])
  {
    if xs != [] {
      var n := |xs| - 1;
      var init := xs[..n];
      DistinctFirstSeen(init);
      var d0 := Distinct(init);
      var d := Distinct(xs);
      forall y | y in d0
        ensures FirstIndex(xs, y) == FirstIndex(init, y) < n
      {
        FirstIndexOfPrefix(xs, n, y);
      }
      if xs[n] !in d0 {
        assert xs[n] !in init;
        assert FirstIndex(xs, xs[n]) == n;
      }
    }
  }

  /** The set of elements of `xs`. */
  function Elements(xs: seq<Key>): set<Key> {
    set x | x in xs
  }

  /** The number of distinct elements is the size of the element set. */
  lemma {:induction false} DistinctCount(xs: seq<Key>)
    ensures |Distinct(xs)| == |Elements(xs)|
  {
    if xs != [] {
      var n := |xs| - 1;
      DistinctCount(xs[..n]);
      assert xs == xs[..n] + [xs[n]];
      assert (set x | x in xs) == (set x | x in xs[..n]) + {xs[n]};
      if xs[n] in xs[..n] {
        assert Distinct(xs) == Distinct(xs[..n]);
        assert (set x | x in xs) == (set x | x in xs[..n]);
      } else {
        assert Distinct(xs) == Distinct(xs[..n]) + [xs[n]];
        assert |(set x | x in xs[..n]) + {xs[n]}| == |set x | x in xs[..n]| + 1;
      }
    }
  }

  /**
   * A frequency table in the order keys were first counted, as a `Counter`
   * iterates: `keys` is that order, `counts` the count of each key.
   */
  datatype Counter = Counter(keys: seq<Key>, counts: map<Key, nat>)

  /** A counter whose keys are exactly `counts`' keys, each listed once. */
  ghost predicate WellFormed(c: Counter) {
    NoDup(c.keys) && (forall k :: k in c.keys <==> k in c.counts)
  }

  /** `c` is the count of observations `obs`, keys in first-seen order. */
  ghost predicate Tallies(c: Counter, obs: seq<Key>) {
    && c.keys == Distinct(obs)
    && (forall k :: k in c.counts <==> k in obs)
    && (forall k :: k in c.counts ==> c.counts[k] == Occurrences(obs, k))
  }

  function EmptyCounter(): Counter {
    Counter([], map[])
  }

  /** `counter[k] += 1`: a missing key is inserted last with count 1. */
  function Bump(c: Counter, k: Key): Counter {
    if k in c.counts then c.(counts := c.counts[k := c.counts[k] + 1])
    else Counter(c.keys + [k], c.counts[k := 1])
  }

  lemma BumpTallies(c: Counter, obs: seq<Key>, k: Key)
    requires Tallies(c, obs)
    ensures Tallies(Bump(c, k), obs + [k])
  {
    var obs', c' := obs + [k], Bump(c, k);
    assert obs'[..|obs|] == obs;
    assert c'.keys == Distinct(obs');
    assert multiset(obs') == multiset(obs) + multiset{k};
    forall x
      ensures x in c'.counts <==> x in obs'
    {
      assert x in obs' <==> x in obs || x == k;
    }
    forall x | x in c'.counts
      ensures c'.counts[x] == Occurrences(obs', x)
    {
      if x != k {
        assert x in c.counts;
      }
    }
  }

  /** The counter obtained by counting `obs` one by one. */
  function Tally(obs: seq<Key>): Counter {
    if obs == [] then EmptyCounter()
    else Bump(Tally(obs[..|obs| - 1]), obs[|obs| - 1])
  }

  /** Counting one by one yields the first-seen keys and their occurrence counts. */
  lemma {:induction false} TallyCounts(obs: seq<Key>)
    ensures Tallies(Tally(obs), obs)
  {
    if obs != [] {
      var init := obs[..|obs| - 1];
      TallyCounts(init);
      BumpTallies(Tally(init), init, obs[|obs| - 1]);
      assert init + [obs[|obs| - 1]] == obs;
    }
  }

  /** Counting one more observation is one more `Bump`. */
  lemma TallyAppend(obs: seq<Key>, k: Key)
    ensures Tally(obs + [k]) == Bump(Tally(obs), k)
  {
    assert (obs + [k])[..|obs|] == obs;
  }

  /** A count of observations is unique. */
  lemma TalliesUnique(c1: Counter, c2: Counter, obs: seq<Key>)
    requires Tallies(c1, obs) && Tallies(c2, obs)
    ensures c1 == c2
  {
    assert c1.counts == c2.counts;
  }

  lemma TallyIsWellFormed(c: Counter, obs: seq<Key>)
    requires Tallies(c, obs)
    ensures WellFormed(c)
  {
  }

  /** The key `Counter.most_common(1)` reports: the first key of maximal count. */
  ghost predicate IsFirstMax(c: Counter, r: Option<Key>)
    requires WellFormed(c)
  {
    if c.keys == [] then r.None?
    else
      && r.Some?
      && r.value in c.counts
      && (forall k :: k in c.counts ==> c.counts[k] <= c.counts[r.value])
      && (forall i :: 0 <= i < |c.keys| && c.keys[i] != r.value && c.counts[c.keys[i]] == c.counts[r.value] ==>
            exists j :: 0 <= j < i && c.keys[j] == r.value)
  }

  /**
   * `most_common(1)`: `max` over the items in insertion order, which keeps
   * the first item of maximal count; `None` for an empty counter.
   */
  method MostCommon(c: Counter) returns (r: Option<Key>)
    requires WellFormed(c)
    ensures IsFirstMax(c, r)
  {
    if |c.keys| == 0 {
      return None;
    }
    var best := 0;
    for i := 1 to |c.keys|
      invariant 0 <= best < i
      invariant forall j :: 0 <= j < i ==> c.counts[c.keys[j]] <= c.counts[c.keys[best]]
      invariant forall j :: 0 <= j < best ==> c.counts[c.keys[j]] < c.counts[c.keys[best]]
    {
      if c.counts[c.keys[i]] > c.counts[c.keys[best]] {
        best := i;
      }
    }
    r := Some(c.keys[best]);
    forall k | k in c.counts
      ensures c.counts[k] <= c.counts[r.value]
    {
      assert k in c.keys;
    }
  }

  /**
   * The most common observation: every observation occurs at most as often,
   * and among those occurring as often it was seen first; `None` exactly when
   * nothing was observed.
   */
  ghost predicate IsMostCommon(obs: seq<Key>, r: Option<Key>) {
    if obs == [] then r.None?
    else
      && r.Some?
      && r.value in obs
      && (forall x :: x in obs ==> Occurrences(obs, x) <= Occurrences(obs, r.value))
      && (forall x :: x in obs && Occurrences(obs, x) == Occurrences(obs, r.value) ==>
            FirstIndex(obs, r.value) <= FirstIndex(obs, x))
  }

  /** The first maximal key of a tally is the most common observation. */
  lemma FirstMaxIsMostCommon(c: Counter, obs: seq<Key>, r: Option<Key>)
    requires Tallies(c, obs)
    requires IsFirstMax(c, r)
    ensures IsMostCommon(obs, r)
  {
    if obs != [] {
      assert obs[0] in c.keys;
      DistinctFirstSeen(obs);
      var w := r.value;
      forall x | x in obs && Occurrences(obs, x) == Occurrences(obs, w)
        ensures FirstIndex(obs, w) <= FirstIndex(obs, x)
      {
        if x != w {
          var i :| 0 <= i < |c.keys| && c.keys[i] == x;
          var j :| 0 <= j < i && c.keys[j] == w;
        }
      }
    }
  }

  /** At most one value is the most common observation. */
  lemma MostCommonUnique(obs: seq<Key>, r1: Option<Key>, r2: Option<Key>)
    requires IsMostCommon(obs, r1) && IsMostCommon(obs, r2)
    ensures r1 == r2
  {
    if obs != [] {
      var a, b := r1.value, r2.value;
      assert Occurrences(obs, a) == Occurrences(obs, b);
      assert FirstIndex(obs, a) == FirstIndex(obs, b);
    }
  }

  /** Counting `obs` and taking `most_common(1)` yields its most common element. */
  method MostCommonOf(c: Counter, ghost obs: seq<Key>) returns (r: Option<Key>)
    requires Tallies(c, obs)
    ensures IsMostCommon(obs, r)
  {
    r := MostCommon(c);
    FirstMaxIsMostCommon(c, obs, r);
  }

  /** Sum of the counts of `keys`. */
  function CountSum(keys: seq<Key>, counts: map<Key, nat>): nat
    requires forall k :: k in keys ==> k in counts
  {
    if keys == [] then 0
    else CountSum(keys[..|keys| - 1], counts) + counts[keys[|keys| - 1]]
  }

  lemma {:induction false} CountSumUpdate(keys: seq<Key>, counts: map<Key, nat>, k: Key, v: nat)
    requires forall x :: x in keys ==> x in counts
    requires NoDup(keys)
    ensures k !in keys ==> CountSum(keys, counts[k := v]) == CountSum(keys, counts)
    ensures k in keys ==> CountSum(keys, counts[k := v]) == CountSum(keys, counts) - counts[k] + v
  {
    if keys != [] {
      var n := |keys| - 1;
      CountSumUpdate(keys[..n], counts, k, v);
      assert k in keys[..n] ==> keys[n] != k;
      assert k in keys ==> k in keys[..n] || keys[n] == k;
    }
  }

  /** The counts of a tally add up to the number of observations. */
  lemma {:induction false} TallyCountSum(obs: seq<Key>)
    ensures Tallies(Tally(obs), obs) && CountSum(Tally(obs).keys, Tally(obs).counts) == |obs|
  {
    TallyCounts(obs);
    if obs != [] {
      var n := |obs| - 1;
      var prev := Tally(obs[..n]);
      TallyCountSum(obs[..n]);
      var k := obs[n];
      var c := Tally(obs);
      assert c == Bump(prev, k);
      if k in prev.counts {
        CountSumUpdate(prev.keys, prev.counts, k, prev.counts[k] + 1);
        assert c.keys == prev.keys;
      } else {
        CountSumUpdate(prev.keys, prev.counts, k, 1);
        assert c.keys == prev.keys + [k];
        assert c.keys[..|prev.keys|] == prev.keys;
        assert CountSum(c.keys, c.counts) == CountSum(prev.keys, c.counts) + 1;
      }
    }
  }

  /**
   * A sanity check of `IsMostCommon` on one concrete tie: with two
   * observations each of two models, the first seen is the most common.
   */
  lemma TieGoesToFirstSeen()
    ensures IsMostCommon(["gpt-4", "gpt-4", "claude", "claude"], Some("gpt-4"))
  {
    var obs := ["gpt-4", "gpt-4", "claude", "claude"];
    assert obs[0] == "gpt-4";
    assert multiset(obs) == multiset{"gpt-4", "gpt-4", "claude", "claude"};
    assert FirstIndex(obs, "gpt-4") == 0;
    assert forall x :: x in obs ==> x == "gpt-4" || x == "claude";
  }
}

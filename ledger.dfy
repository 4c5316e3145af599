/**
 * Sums of counters grouped by a key. The organisation and team totals are
 * such sums; the grouped-sum lemma says that adding up the per-key sums
 * over every key seen gives the sum of all entries.
 */
module Ledger {
  import opened Tally
  import opened Models

  /** Counters, each filed under a key (an e-mail or a team), in input order. */
  type Entries = seq<(string, UsageCounts)>

  function KeysOf(l: Entries): (ks: seq<string>)
    ensures |ks| == |l| && forall i :: 0 <= i < |l| ==> ks[i] == l[i].0
  {
    seq(|l|, i requires 0 <= i < |l| => l[i].0)
  }

  /** The sum of the counters filed under `k`. */
  function UsageFor(l: Entries, k: string): UsageCounts {
    if l == [] then Zero
    else
      var prev := UsageFor(l[..|l| - 1], k);
      if l[|l| - 1].0 == k then Plus(prev, l[|l| - 1].1) else prev
  }

  /** The sum of all counters. */
  function Total(l: Entries): UsageCounts {
    if l == [] then Zero else Plus(Total(l[..|l| - 1]), l[|l| - 1].1)
  }

  /** The sum, over `keys`, of the counters filed under each key. */
  function SumOverKeys(keys: seq<string>, l: Entries): UsageCounts {
    if keys == [] then Zero
    else Plus(SumOverKeys(keys[..|keys| - 1], l), UsageFor(l, keys[|keys| - 1]))
  }

  /** The sum of the counters of a sequence of user totals. */
  function SumUsers(users: seq<UserTotals>): UsageCounts {
    if users == [] then Zero else Plus(SumUsers(users[..|users| - 1]), users[|users| - 1].usage)
  }

  /** Filing one more entry changes only the sum of its own key. */
  lemma UsageForAppend(l: Entries, key: string, u: UsageCounts, k: string)
    ensures UsageFor(l + [(key, u)], k) == if key == k then Plus(UsageFor(l, k), u) else UsageFor(l, k)
  {
    assert (l + [(key, u)])[..|l|] == l;
  }

  /** Nothing is filed under a key that never occurs. */
  lemma {:induction false} UsageForAbsent(l: Entries, k: string)
    requires k !in KeysOf(l)
    ensures UsageFor(l, k) == Zero
  {
    if l != [] {
      assert KeysOf(l[..|l| - 1]) == KeysOf(l)[..|l| - 1];
      UsageForAbsent(l[..|l| - 1], k);
    }
  }

  /** Filing one more entry under `k` adds it to the sum exactly when `k` is among the keys. */
  lemma {:induction false} SumOverKeysAppend(keys: seq<string>, l: Entries, k: string, u: UsageCounts)
    requires NoDup(keys)
    ensures SumOverKeys(keys, l + [(k, u)]) ==
      if k in keys then Plus(SumOverKeys(keys, l), u) else SumOverKeys(keys, l)
  {
    var l' := l + [(k, u)];
    assert l'[..|l|] == l;
    if keys != [] {
      var n := |keys| - 1;
      SumOverKeysAppend(keys[..n], l, k, u);
      var a, b := SumOverKeys(keys[..n], l), UsageFor(l, keys[n]);
      PlusLaws(a, b, u);
      PlusLaws(a, u, b);
      assert k in keys <==> k in keys[..n] || k == keys[n];
      assert k in keys[..n] ==> k != keys[n];
    }
  }

  /**
   * Grouped-sum invariant: summing the per-key sums over the distinct keys,
   * in first-seen order, gives the sum of every entry.
   */
  lemma {:induction false} GroupedTotal(l: Entries)
    ensures SumOverKeys(Distinct(KeysOf(l)), l) == Total(l)
  {
    if l != [] {
      var n := |l| - 1;
      var init, k, u := l[..n], l[n].0, l[n].1;
      assert l == init + [(k, u)];
      assert KeysOf(l)[..n] == KeysOf(init);
      assert Total(l) == Plus(Total(init), u);
      GroupedTotal(init);
      var d := Distinct(KeysOf(init));
      SumOverKeysAppend(d, init, k, u);
      if k in d {
        assert Distinct(KeysOf(l)) == d;
      } else {
        assert Distinct(KeysOf(l)) == d + [k];
        assert (d + [k])[..|d|] == d;
        assert SumOverKeys(d + [k], l) == Plus(SumOverKeys(d, l), UsageFor(l, k));
        UsageForAbsent(init, k);
        assert UsageFor(l, k) == Plus(Zero, u);
        PlusLaws(u, u, u);
      }
    }
  }

  /** Users whose counters are the per-key sums, in key order, add up to the sum over the keys. */
  lemma {:induction false} SumUsersOverKeys(users: seq<UserTotals>, keys: seq<string>, l: Entries)
    requires |users| == |keys|
    requires forall i :: 0 <= i < |keys| ==> users[i].usage == UsageFor(l, keys[i])
    ensures SumUsers(users) == SumOverKeys(keys, l)
  {
    if keys != [] {
      SumUsersOverKeys(users[..|users| - 1], keys[..|keys| - 1], l);
    }
  }
}

/**
 * `aggregate_ai_commits` (src/aggregate.py:227-298): one record per user and
 * day summing that user's commits, counting the repositories they touched
 * and splitting their changed lines into tab, composer and non-AI shares.
 */
module AiCommits {
  import opened Wrappers
  import opened Tally
  import opened Models
  import opened Dates
  import opened Grouping

  /** `commit.userEmail or "unknown"`. */
  function CommitEmail(c: AiCommitMetric): string {
    OrElse(c.userEmail, Unknown)
  }

  // The per-commit quantities the summary loop adds up.
  function TotalAdded(c: AiCommitMetric): int { c.totalLinesAdded }
  function TotalDeleted(c: AiCommitMetric): int { c.totalLinesDeleted }
  function TabAdded(c: AiCommitMetric): int { c.tabLinesAdded }
  function TabDeleted(c: AiCommitMetric): int { c.tabLinesDeleted }
  function ComposerAdded(c: AiCommitMetric): int { c.composerLinesAdded }
  function ComposerDeleted(c: AiCommitMetric): int { c.composerLinesDeleted }
  function NonAiAdded(c: AiCommitMetric): int { OrZero(c.nonAiLinesAdded) }
  function NonAiDeleted(c: AiCommitMetric): int { OrZero(c.nonAiLinesDeleted) }
  predicate OnPrimaryBranch(c: AiCommitMetric) { c.isPrimaryBranch }

  /** The repositories the commits name, in order; commits without one are skipped. */
  function RepoNames(cs: seq<AiCommitMetric>): seq<string> {
    if cs == [] then []
    else
      var c := cs[|cs| - 1];
      RepoNames(cs[..|cs| - 1]) + if Truthy(c.repoName) then [c.repoName.value] else []
  }

  /** The counters of `t` are the sums and counts over the commits `cs`. */
  ghost predicate CountersAgree(cs: seq<AiCommitMetric>, t: AiCommitTotals) {
    && t.totalCommits == |cs|
    && t.totalLinesAdded == SumOf(cs, TotalAdded)
    && t.totalLinesDeleted == SumOf(cs, TotalDeleted)
    && t.tabLinesAdded == SumOf(cs, TabAdded)
    && t.tabLinesDeleted == SumOf(cs, TabDeleted)
    && t.composerLinesAdded == SumOf(cs, ComposerAdded)
    && t.composerLinesDeleted == SumOf(cs, ComposerDeleted)
    && t.nonAiLinesAdded == SumOf(cs, NonAiAdded)
    && t.nonAiLinesDeleted == SumOf(cs, NonAiDeleted)
    && t.primaryBranchCommits == CountIf(cs, OnPrimaryBranch)
  }

  /**
   * `t` summarises the commits `cs`: its counters agree with them, it counts
   * the distinct repositories and names the most frequent one.
   */
  ghost predicate IsCommitTotals(cs: seq<AiCommitMetric>, t: AiCommitTotals) {
    && CountersAgree(cs, t)
    && t.totalUniqueRepos == |Elements(RepoNames(cs))|
    && IsMostCommon(RepoNames(cs), t.mostActiveRepo)
  }

  /**
   * `part / max(1, whole) * 100`, exact: the source rounds it to two decimal
   * places afterwards.
   */
  function Percentage(part: int, whole: int): real {
    part as real / (if whole < 1 then 1 else whole) as real * 100.0
  }

  /**
   * The drill-down of a record: the user's commits, its repository counter
   * and the tab, composer and non-AI shares of its changed lines.
   */
  function BreakdownOf(mine: seq<AiCommitMetric>, t: AiCommitTotals, repos: Counter): AiCommitBreakdown {
    var changed := t.totalLinesAdded + t.totalLinesDeleted;
    AiCommitBreakdown(
      commits := mine,
      repositories := repos,
      tabPercentage := Percentage(t.tabLinesAdded + t.tabLinesDeleted, changed),
      composerPercentage := Percentage(t.composerLinesAdded + t.composerLinesDeleted, changed),
      nonAiPercentage := Percentage(t.nonAiLinesAdded + t.nonAiLinesDeleted, changed))
  }

  /** The record of `email`, whose commits are `mine`. */
  ghost predicate IsCommitRecord(org: string, dateMs: int, email: string, mine: seq<AiCommitMetric>, rec: AiCommitRecord)
    requires InDatetimeRange(dateMs)
  {
    && rec.identifier == KeyedIdentifier(AiCommitsNs, org, email, dateMs)
    && rec.org == org && rec.userEmail == email && rec.recordDateIso == EpochMsDayToIsoUtc(dateMs)
    && IsCommitTotals(mine, rec.totals)
    && Tallies(rec.breakdown.repositories, RepoNames(mine))
    && rec.breakdown == BreakdownOf(mine, rec.totals, rec.breakdown.repositories)
  }

  /** `recs` holds the records of the first `n` users of `emails`, in that order. */
  ghost predicate CommitRecordsUpTo(org: string, dateMs: int, commits: seq<AiCommitMetric>, emails: seq<string>,
                                    n: nat, recs: seq<AiCommitRecord>)
    requires InDatetimeRange(dateMs)
  {
    && n == |recs| <= |emails|
    && forall i :: 0 <= i < n ==>
         IsCommitRecord(org, dateMs, emails[i], Members(commits, CommitEmail, emails[i]), recs[i])
  }

  lemma CommitRecordsAppend(org: string, dateMs: int, commits: seq<AiCommitMetric>, emails: seq<string>,
                            n: nat, recs: seq<AiCommitRecord>, rec: AiCommitRecord)
    requires InDatetimeRange(dateMs)
    requires CommitRecordsUpTo(org, dateMs, commits, emails, n, recs) && n < |emails|
    requires IsCommitRecord(org, dateMs, emails[n], Members(commits, CommitEmail, emails[n]), rec)
    ensures CommitRecordsUpTo(org, dateMs, commits, emails, n + 1, recs + [rec])
  {
  }

  /** One more commit adds to every sum and count exactly its own contribution. */
  lemma CommitStep(cs: seq<AiCommitMetric>, c: AiCommitMetric)
    ensures RepoNames(cs + [c]) == RepoNames(cs) + if Truthy(c.repoName) then [c.repoName.value] else []
    ensures SumOf(cs + [c], TotalAdded) == SumOf(cs, TotalAdded) + c.totalLinesAdded
    ensures SumOf(cs + [c], TotalDeleted) == SumOf(cs, TotalDeleted) + c.totalLinesDeleted
    ensures SumOf(cs + [c], TabAdded) == SumOf(cs, TabAdded) + c.tabLinesAdded
    ensures SumOf(cs + [c], TabDeleted) == SumOf(cs, TabDeleted) + c.tabLinesDeleted
    ensures SumOf(cs + [c], ComposerAdded) == SumOf(cs, ComposerAdded) + c.composerLinesAdded
    ensures SumOf(cs + [c], ComposerDeleted) == SumOf(cs, ComposerDeleted) + c.composerLinesDeleted
    ensures SumOf(cs + [c], NonAiAdded) == SumOf(cs, NonAiAdded) + OrZero(c.nonAiLinesAdded)
    ensures SumOf(cs + [c], NonAiDeleted) == SumOf(cs, NonAiDeleted) + OrZero(c.nonAiLinesDeleted)
    ensures CountIf(cs + [c], OnPrimaryBranch) == CountIf(cs, OnPrimaryBranch) + if c.isPrimaryBranch then 1 else 0
  {
    assert (cs + [c])[..|cs|] == cs;
  }

  /** The inner loop: the totals and repository counter of one user's commits. */
  method SummarizeCommits(cs: seq<AiCommitMetric>) returns (totals: AiCommitTotals, repos: Counter)
    ensures IsCommitTotals(cs, totals)
    ensures Tallies(repos, RepoNames(cs))
  {
    totals, repos := AiCommitTotals(), EmptyCounter();
    for i := 0 to |cs|
      invariant CountersAgree(cs[..i], totals)
      invariant Tallies(repos, RepoNames(cs[..i]))
      invariant totals.mostActiveRepo == None
    {
      var c := cs[i];
      CommitStep(cs[..i], c);
      totals := totals.(
        totalCommits := totals.totalCommits + 1,
        totalLinesAdded := totals.totalLinesAdded + c.totalLinesAdded,
        totalLinesDeleted := totals.totalLinesDeleted + c.totalLinesDeleted,
        tabLinesAdded := totals.tabLinesAdded + c.tabLinesAdded,
        tabLinesDeleted := totals.tabLinesDeleted + c.tabLinesDeleted,
        composerLinesAdded := totals.composerLinesAdded + c.composerLinesAdded,
        composerLinesDeleted := totals.composerLinesDeleted + c.composerLinesDeleted,
        nonAiLinesAdded := totals.nonAiLinesAdded + OrZero(c.nonAiLinesAdded),
        nonAiLinesDeleted := totals.nonAiLinesDeleted + OrZero(c.nonAiLinesDeleted));
      if c.isPrimaryBranch {
        totals := totals.(primaryBranchCommits := totals.primaryBranchCommits + 1);
      }
      if Truthy(c.repoName) {
        BumpTallies(repos, RepoNames(cs[..i]), c.repoName.value);
        repos := Bump(repos, c.repoName.value);
      } else {
        assert RepoNames(cs[..i] + [c]) == RepoNames(cs[..i]);
      }
      PrefixStep(cs, i);
    }
    PrefixStep(cs, |cs|);
    ghost var names := RepoNames(cs);
    DistinctCount(names);
    totals := totals.(totalUniqueRepos := |repos.keys|);
    if |repos.keys| > 0 {
      var best := MostCommonOf(repos, names);
      totals := totals.(mostActiveRepo := best);
    } else {
      assert names == [];
    }
  }

  /** The body of the outer loop: the record of `email`, whose commits are `mine`. */
  method CommitRecordOf(org: string, dateMs: int, dateIso: string, email: string, mine: seq<AiCommitMetric>)
    returns (rec: AiCommitRecord)
    requires InDatetimeRange(dateMs) && dateIso == EpochMsDayToIsoUtc(dateMs)
    ensures IsCommitRecord(org, dateMs, email, mine, rec)
  {
    var totals, repos := SummarizeCommits(mine);
    var breakdown := BreakdownOf(mine, totals, repos);
    rec := AiCommitRecord(
      identifier := AiCommitsNs + ":" + org + ":" + email + ":" + dateIso[..10],
      org := org,
      userEmail := email,
      recordDateIso := dateIso,
      totals := totals,
      breakdown := breakdown);
  }

  /**
   * `aggregate_ai_commits`: one record per e-mail, in the order each e-mail
   * first appears among the commits.
   */
  method AggregateAiCommits(org: string, dateMs: int, commits: seq<AiCommitMetric>)
    returns (records: seq<AiCommitRecord>)
    requires InDatetimeRange(dateMs)
    ensures var emails := Distinct(KeysIn(commits, CommitEmail));
      CommitRecordsUpTo(org, dateMs, commits, emails, |emails|, records)
  {
    var emails, groups := GroupBy(commits, CommitEmail);
    var dateIso := EpochMsDayToIsoUtc(dateMs);
    records := [];
    for i := 0 to |emails|
      invariant CommitRecordsUpTo(org, dateMs, commits, emails, i, records)
    {
      var email := emails[i];
      assert email in groups;
      var rec := CommitRecordOf(org, dateMs, dateIso, email, groups[email]);
      CommitRecordsAppend(org, dateMs, commits, emails, i, records, rec);
      records := records + [rec];
    }
  }

  /**
   * A fact about the formula only: a share of changed lines between none
   * and all of them lies between 0 and 100. The service's counts are not
   * known to meet the precondition.
   */
  lemma PercentageBounds(part: int, whole: int)
    requires 0 <= part <= whole
    ensures 0.0 <= Percentage(part, whole) <= 100.0
  {
    if whole >= 1 {
      assert part as real / whole as real <= 1.0;
    }
  }

  /**
   * A fact about the formula only: shares of parts that make up the whole
   * add up to 100. The service's counts are not known to meet the
   * precondition.
   */
  lemma PercentagesAddUp(a: int, b: int, c: int, whole: int)
    requires a + b + c == whole && whole >= 1
    ensures Percentage(a, whole) + Percentage(b, whole) + Percentage(c, whole) == 100.0
  {
    var w := whole as real;
    assert a as real / w + b as real / w + c as real / w == (a + b + c) as real / w;
  }

  /** With no changed lines, every share is that of a whole of one line. */
  lemma PercentageOfNothing(part: int, whole: int)
    requires whole <= 0
    ensures Percentage(part, whole) == part as real * 100.0
  {
  }

  /** Every repository is counted once and no user touches more repositories than it has commits. */
  lemma {:induction false} CommitTotalsBounds(cs: seq<AiCommitMetric>, t: AiCommitTotals)
    requires IsCommitTotals(cs, t)
    ensures t.primaryBranchCommits <= t.totalCommits
    ensures t.totalUniqueRepos <= t.totalCommits
  {
    CountIfAtMost(cs, OnPrimaryBranch);
    DistinctCount(RepoNames(cs));
    DistinctAtMost(RepoNames(cs));
    RepoNamesAtMost(cs);
  }

  lemma {:induction false} RepoNamesAtMost(cs: seq<AiCommitMetric>)
    ensures |RepoNames(cs)| <= |cs|
  {
    if cs != [] {
      RepoNamesAtMost(cs[..|cs| - 1]);
    }
  }

  /** The commits listed in a user's record all carry that user's e-mail. */
  lemma RecordHoldsOwnCommits(org: string, dateMs: int, commits: seq<AiCommitMetric>, email: string, rec: AiCommitRecord)
    requires InDatetimeRange(dateMs)
    requires IsCommitRecord(org, dateMs, email, Members(commits, CommitEmail, email), rec)
    ensures forall j :: 0 <= j < |rec.breakdown.commits| ==> CommitEmail(rec.breakdown.commits[j]) == rec.userEmail
    ensures rec.totals.totalCommits == Occurrences(KeysIn(commits, CommitEmail), email)
  {
    MembersPartition(commits, CommitEmail, email);
  }

  /** The number of commits the records count. */
  function CommitsCounted(recs: seq<AiCommitRecord>): nat {
    if recs == [] then 0 else CommitsCounted(recs[..|recs| - 1]) + recs[|recs| - 1].totals.totalCommits
  }

  lemma {:induction false} CommitsCountedAreGroupSizes(commits: seq<AiCommitMetric>, emails: seq<string>, recs: seq<AiCommitRecord>)
    requires |recs| == |emails|
    requires forall i :: 0 <= i < |recs| ==> recs[i].totals.totalCommits == |Members(commits, CommitEmail, emails[i])|
    ensures CommitsCounted(recs) == GroupSizes(emails, commits, CommitEmail)
  {
    if emails != [] {
      var n := |emails| - 1;
      CommitsCountedAreGroupSizes(commits, emails[..n], recs[..n]);
    }
  }

  /** Every commit of the day is counted in exactly one user's record. */
  lemma CommitsConserved(org: string, dateMs: int, commits: seq<AiCommitMetric>, recs: seq<AiCommitRecord>)
    requires InDatetimeRange(dateMs)
    requires var emails := Distinct(KeysIn(commits, CommitEmail));
      CommitRecordsUpTo(org, dateMs, commits, emails, |emails|, recs)
    ensures CommitsCounted(recs) == |commits|
  {
    var emails := Distinct(KeysIn(commits, CommitEmail));
    forall i | 0 <= i < |recs|
      ensures recs[i].totals.totalCommits == |Members(commits, CommitEmail, emails[i])|
    {
      assert IsCommitRecord(org, dateMs, emails[i], Members(commits, CommitEmail, emails[i]), recs[i]);
    }
    CommitsCountedAreGroupSizes(commits, emails, recs);
    GroupsCoverAll(commits, CommitEmail);
  }
}

/**
 * `aggregate_ai_code_changes` (src/aggregate.py:301-383): one record per user
 * and day summing that user's accepted AI edits, split by the source that
 * produced them (`TAB` completions, `COMPOSER` edits, anything else), with
 * the models and file extensions involved.
 */
module AiChanges {
  import opened Wrappers
  import opened Tally
  import opened Models
  import opened Dates
  import opened Grouping

  const Tab := "TAB"
  const Composer := "COMPOSER"

  /** `change.userEmail or "unknown"`. */
  function ChangeEmail(c: AiCodeChangeMetric): string {
    OrElse(c.userEmail, Unknown)
  }

  // The per-change quantities the summary loop adds up.
  function LinesAdded(c: AiCodeChangeMetric): int { c.totalLinesAdded }
  function LinesDeleted(c: AiCodeChangeMetric): int { c.totalLinesDeleted }
  predicate FromTab(c: AiCodeChangeMetric) { c.source == Tab }
  predicate FromComposer(c: AiCodeChangeMetric) { c.source == Composer }
  function TabAdded(c: AiCodeChangeMetric): int { if FromTab(c) then c.totalLinesAdded else 0 }
  function TabDeleted(c: AiCodeChangeMetric): int { if FromTab(c) then c.totalLinesDeleted else 0 }
  function ComposerAdded(c: AiCodeChangeMetric): int { if FromComposer(c) then c.totalLinesAdded else 0 }
  function ComposerDeleted(c: AiCodeChangeMetric): int { if FromComposer(c) then c.totalLinesDeleted else 0 }
  function SourceOf(c: AiCodeChangeMetric): string { c.source }

  /** The models the changes name, in order; changes without one are skipped. */
  function ModelNames(cs: seq<AiCodeChangeMetric>): seq<string> {
    if cs == [] then []
    else
      var c := cs[|cs| - 1];
      ModelNames(cs[..|cs| - 1]) + if Truthy(c.model) then [c.model.value] else []
  }

  /** The extensions of the files of one change, in order; files without one are skipped. */
  function FileExtensions(files: seq<AiCodeChangeFileMetadata>): seq<string> {
    if files == [] then []
    else
      var f := files[|files| - 1];
      FileExtensions(files[..|files| - 1]) + if Truthy(f.fileExtension) then [f.fileExtension.value] else []
  }

  /** The file extensions of all the changes, change by change. */
  function Extensions(cs: seq<AiCodeChangeMetric>): seq<string> {
    if cs == [] then [] else Extensions(cs[..|cs| - 1]) + FileExtensions(cs[|cs| - 1].metadata)
  }

  /** The counters of `t` are the sums and counts over the changes `cs`. */
  ghost predicate CountersAgree(cs: seq<AiCodeChangeMetric>, t: AiCodeChangeTotals) {
    && t.totalChanges == |cs|
    && t.totalLinesAdded == SumOf(cs, LinesAdded)
    && t.totalLinesDeleted == SumOf(cs, LinesDeleted)
    && t.tabChanges == CountIf(cs, FromTab)
    && t.tabLinesAdded == SumOf(cs, TabAdded)
    && t.tabLinesDeleted == SumOf(cs, TabDeleted)
    && t.composerChanges == CountIf(cs, FromComposer)
    && t.composerLinesAdded == SumOf(cs, ComposerAdded)
    && t.composerLinesDeleted == SumOf(cs, ComposerDeleted)
  }

  /**
   * `t` summarises the changes `cs`: its counters agree with them, it counts
   * the distinct file extensions and names the most frequent model.
   */
  ghost predicate IsChangeTotals(cs: seq<AiCodeChangeMetric>, t: AiCodeChangeTotals) {
    && CountersAgree(cs, t)
    && t.uniqueFileExtensions == |Elements(Extensions(cs))|
    && IsMostCommon(ModelNames(cs), t.mostUsedModel)
  }

  /** `amount / max(1, n)`, exact: the source rounds it to two decimal places afterwards. */
  function PerItem(amount: int, n: int): real {
    amount as real / (if n < 1 then 1 else n) as real
  }

  /** The tab to composer ratio, absent when there was no composer change. */
  function TabVsComposer(t: AiCodeChangeTotals): Option<real> {
    if t.composerChanges > 0 then Some(PerItem(t.tabChanges, t.composerChanges)) else None
  }

  /**
   * The drill-down of a record: the user's changes, its three counters and
   * the productivity figures derived from its totals.
   */
  function BreakdownOf(mine: seq<AiCodeChangeMetric>, t: AiCodeChangeTotals,
                       sources: Counter, models: Counter, extensions: Counter): AiCodeChangeBreakdown {
    AiCodeChangeBreakdown(
      changes := mine,
      sourceDistribution := sources,
      modelUsage := models,
      fileExtensions := extensions,
      averageLinesPerChange := PerItem(t.totalLinesAdded + t.totalLinesDeleted, t.totalChanges),
      tabVsComposerRatio := TabVsComposer(t),
      tabEfficiency := PerItem(t.tabLinesAdded + t.tabLinesDeleted, t.tabChanges),
      composerEfficiency := PerItem(t.composerLinesAdded + t.composerLinesDeleted, t.composerChanges))
  }

  /** The record of `email`, whose changes are `mine`. */
  ghost predicate IsChangeRecord(org: string, dateMs: int, email: string, mine: seq<AiCodeChangeMetric>,
                                 rec: AiCodeChangeRecord)
    requires InDatetimeRange(dateMs)
  {
    var b := rec.breakdown;
    && rec.identifier == KeyedIdentifier(AiChangesNs, org, email, dateMs)
    && rec.org == org && rec.userEmail == email && rec.recordDateIso == EpochMsDayToIsoUtc(dateMs)
    && IsChangeTotals(mine, rec.totals)
    && Tallies(b.sourceDistribution, KeysIn(mine, SourceOf))
    && Tallies(b.modelUsage, ModelNames(mine))
    && Tallies(b.fileExtensions, Extensions(mine))
    && b == BreakdownOf(mine, rec.totals, b.sourceDistribution, b.modelUsage, b.fileExtensions)
  }

  /** `recs` holds the records of the first `n` users of `emails`, in that order. */
  ghost predicate ChangeRecordsUpTo(org: string, dateMs: int, changes: seq<AiCodeChangeMetric>, emails: seq<string>,
                                    n: nat, recs: seq<AiCodeChangeRecord>)
    requires InDatetimeRange(dateMs)
  {
    && n == |recs| <= |emails|
    && forall i :: 0 <= i < n ==>
         IsChangeRecord(org, dateMs, emails[i], Members(changes, ChangeEmail, emails[i]), recs[i])
  }

  lemma ChangeRecordsAppend(org: string, dateMs: int, changes: seq<AiCodeChangeMetric>, emails: seq<string>,
                            n: nat, recs: seq<AiCodeChangeRecord>, rec: AiCodeChangeRecord)
    requires InDatetimeRange(dateMs)
    requires ChangeRecordsUpTo(org, dateMs, changes, emails, n, recs) && n < |emails|
    requires IsChangeRecord(org, dateMs, emails[n], Members(changes, ChangeEmail, emails[n]), rec)
    ensures ChangeRecordsUpTo(org, dateMs, changes, emails, n + 1, recs + [rec])
  {
  }

  /** One more change adds to every sum and count exactly its own contribution. */
  lemma ChangeStep(cs: seq<AiCodeChangeMetric>, c: AiCodeChangeMetric)
    ensures SumOf(cs + [c], LinesAdded) == SumOf(cs, LinesAdded) + c.totalLinesAdded
    ensures SumOf(cs + [c], LinesDeleted) == SumOf(cs, LinesDeleted) + c.totalLinesDeleted
    ensures CountIf(cs + [c], FromTab) == CountIf(cs, FromTab) + if FromTab(c) then 1 else 0
    ensures SumOf(cs + [c], TabAdded) == SumOf(cs, TabAdded) + TabAdded(c)
    ensures SumOf(cs + [c], TabDeleted) == SumOf(cs, TabDeleted) + TabDeleted(c)
    ensures CountIf(cs + [c], FromComposer) == CountIf(cs, FromComposer) + if FromComposer(c) then 1 else 0
    ensures SumOf(cs + [c], ComposerAdded) == SumOf(cs, ComposerAdded) + ComposerAdded(c)
    ensures SumOf(cs + [c], ComposerDeleted) == SumOf(cs, ComposerDeleted) + ComposerDeleted(c)
  {
    assert (cs + [c])[..|cs|] == cs;
  }

  /** One more file adds its extension, if it has one, after those already counted. */
  lemma ExtensionStep(seen: seq<string>, files: seq<AiCodeChangeFileMetadata>, i: nat)
    requires i < |files|
    ensures var f := files[i];
      seen + FileExtensions(files[..i + 1]) ==
        (seen + FileExtensions(files[..i])) + if Truthy(f.fileExtension) then [f.fileExtension.value] else []
  {
    assert files[..i + 1][..i] == files[..i];
  }

  /** One more change extends the sources, models and extensions seen by its own. */
  lemma ChangeKeysStep(cs: seq<AiCodeChangeMetric>, c: AiCodeChangeMetric)
    ensures ModelNames(cs + [c]) == ModelNames(cs) + if Truthy(c.model) then [c.model.value] else []
    ensures Extensions(cs + [c]) == Extensions(cs) + FileExtensions(c.metadata)
    ensures KeysIn(cs + [c], SourceOf) == KeysIn(cs, SourceOf) + [c.source]
  {
    assert (cs + [c])[..|cs|] == cs;
  }

  /** Counting the model of one more change, if it names one. */
  lemma ModelsStep(cs: seq<AiCodeChangeMetric>, c: AiCodeChangeMetric, models: Counter)
    requires Tallies(models, ModelNames(cs))
    ensures Tallies(if Truthy(c.model) then Bump(models, c.model.value) else models, ModelNames(cs + [c]))
  {
    ChangeKeysStep(cs, c);
    if Truthy(c.model) {
      BumpTallies(models, ModelNames(cs), c.model.value);
    } else {
      assert ModelNames(cs + [c]) == ModelNames(cs);
    }
  }

  /** The innermost loop: counting the extensions of one change's files. */
  method CountExtensions(files: seq<AiCodeChangeFileMetadata>, extensions0: Counter, ghost seen: seq<string>)
    returns (extensions: Counter)
    requires Tallies(extensions0, seen)
    ensures Tallies(extensions, seen + FileExtensions(files))
  {
    extensions := extensions0;
    ghost var counted := seen;
    assert seen + FileExtensions(files[..0]) == seen;
    for i := 0 to |files|
      invariant counted == seen + FileExtensions(files[..i])
      invariant Tallies(extensions, counted)
    {
      var f := files[i];
      ExtensionStep(seen, files, i);
      if Truthy(f.fileExtension) {
        BumpTallies(extensions, counted, f.fileExtension.value);
        extensions := Bump(extensions, f.fileExtension.value);
        counted := counted + [f.fileExtension.value];
      } else {
        assert counted + [] == counted;
      }
    }
    PrefixStep(files, |files|);
  }

  /** The counters of one user's changes so far. */
  ghost predicate Summarized(cs: seq<AiCodeChangeMetric>, totals: AiCodeChangeTotals,
                             sources: Counter, models: Counter, extensions: Counter)
  {
    && CountersAgree(cs, totals)
    && totals.uniqueFileExtensions == 0 && totals.mostUsedModel == None
    && Tallies(sources, KeysIn(cs, SourceOf))
    && Tallies(models, ModelNames(cs))
    && Tallies(extensions, Extensions(cs))
  }

  /** The counter updates of the inner loop's body, for change `c`, split by its source. */
  method CountChange(ghost done: seq<AiCodeChangeMetric>, c: AiCodeChangeMetric, totals0: AiCodeChangeTotals)
    returns (totals: AiCodeChangeTotals)
    requires CountersAgree(done, totals0)
    ensures CountersAgree(done + [c], totals)
    ensures totals.uniqueFileExtensions == totals0.uniqueFileExtensions
    ensures totals.mostUsedModel == totals0.mostUsedModel
  {
    ChangeStep(done, c);
    totals := totals0.(
      totalChanges := totals0.totalChanges + 1,
      totalLinesAdded := totals0.totalLinesAdded + c.totalLinesAdded,
      totalLinesDeleted := totals0.totalLinesDeleted + c.totalLinesDeleted);
    if c.source == Tab {
      totals := totals.(
        tabChanges := totals.tabChanges + 1,
        tabLinesAdded := totals.tabLinesAdded + c.totalLinesAdded,
        tabLinesDeleted := totals.tabLinesDeleted + c.totalLinesDeleted);
    } else if c.source == Composer {
      totals := totals.(
        composerChanges := totals.composerChanges + 1,
        composerLinesAdded := totals.composerLinesAdded + c.totalLinesAdded,
        composerLinesDeleted := totals.composerLinesDeleted + c.totalLinesDeleted);
    }
  }

  /** The body of the inner loop, for change `c`. */
  method AddChange(ghost done: seq<AiCodeChangeMetric>, c: AiCodeChangeMetric, totals0: AiCodeChangeTotals,
                   sources0: Counter, models0: Counter, extensions0: Counter)
    returns (totals: AiCodeChangeTotals, sources: Counter, models: Counter, extensions: Counter)
    requires Summarized(done, totals0, sources0, models0, extensions0)
    ensures Summarized(done + [c], totals, sources, models, extensions)
  {
    ChangeKeysStep(done, c);
    totals := CountChange(done, c, totals0);
    BumpTallies(sources0, KeysIn(done, SourceOf), c.source);
    sources := Bump(sources0, c.source);
    ModelsStep(done, c, models0);
    models := models0;
    if Truthy(c.model) {
      models := Bump(models0, c.model.value);
    }
    extensions := CountExtensions(c.metadata, extensions0, Extensions(done));
  }

  /** The inner loop: the totals and counters of one user's changes. */
  method SummarizeChanges(cs: seq<AiCodeChangeMetric>)
    returns (totals: AiCodeChangeTotals, sources: Counter, models: Counter, extensions: Counter)
    ensures IsChangeTotals(cs, totals)
    ensures Tallies(sources, KeysIn(cs, SourceOf))
    ensures Tallies(models, ModelNames(cs))
    ensures Tallies(extensions, Extensions(cs))
  {
    totals, sources, models, extensions := AiCodeChangeTotals(), EmptyCounter(), EmptyCounter(), EmptyCounter();
    assert KeysIn([], SourceOf) == [];
    for i := 0 to |cs|
      invariant Summarized(cs[..i], totals, sources, models, extensions)
    {
      totals, sources, models, extensions := AddChange(cs[..i], cs[i], totals, sources, models, extensions);
      PrefixStep(cs, i);
    }
    PrefixStep(cs, |cs|);
    DistinctCount(Extensions(cs));
    totals := totals.(uniqueFileExtensions := |extensions.keys|);
    if |models.keys| > 0 {
      var best := MostCommonOf(models, ModelNames(cs));
      totals := totals.(mostUsedModel := best);
    } else {
      assert ModelNames(cs) == [];
    }
  }

  /** The body of the outer loop: the record of `email`, whose changes are `mine`. */
  method ChangeRecordOf(org: string, dateMs: int, dateIso: string, email: string, mine: seq<AiCodeChangeMetric>)
    returns (rec: AiCodeChangeRecord)
    requires InDatetimeRange(dateMs) && dateIso == EpochMsDayToIsoUtc(dateMs)
    ensures IsChangeRecord(org, dateMs, email, mine, rec)
  {
    var totals, sources, models, extensions := SummarizeChanges(mine);
    rec := AiCodeChangeRecord(
      identifier := AiChangesNs + ":" + org + ":" + email + ":" + dateIso[..10],
      org := org,
      userEmail := email,
      recordDateIso := dateIso,
      totals := totals,
      breakdown := BreakdownOf(mine, totals, sources, models, extensions));
  }

  /**
   * `aggregate_ai_code_changes`: one record per e-mail, in the order each
   * e-mail first appears among the changes.
   */
  method AggregateAiCodeChanges(org: string, dateMs: int, changes: seq<AiCodeChangeMetric>)
    returns (records: seq<AiCodeChangeRecord>)
    requires InDatetimeRange(dateMs)
    ensures var emails := Distinct(KeysIn(changes, ChangeEmail));
      ChangeRecordsUpTo(org, dateMs, changes, emails, |emails|, records)
  {
    var emails, groups := GroupBy(changes, ChangeEmail);
    var dateIso := EpochMsDayToIsoUtc(dateMs);
    records := [];
    for i := 0 to |emails|
      invariant ChangeRecordsUpTo(org, dateMs, changes, emails, i, records)
    {
      var email := emails[i];
      assert email in groups;
      var rec := ChangeRecordOf(org, dateMs, dateIso, email, groups[email]);
      ChangeRecordsAppend(org, dateMs, changes, emails, i, records, rec);
      records := records + [rec];
    }
  }

  /** A change is a tab change, a composer change or neither, never both. */
  lemma {:induction false} SourcesAtMost(cs: seq<AiCodeChangeMetric>)
    ensures CountIf(cs, FromTab) + CountIf(cs, FromComposer) <= |cs|
  {
    if cs != [] {
      SourcesAtMost(cs[..|cs| - 1]);
    }
  }

  /** The tab and composer counts agree with the source distribution. */
  lemma {:induction false} SourceCounts(cs: seq<AiCodeChangeMetric>)
    ensures CountIf(cs, FromTab) == Occurrences(KeysIn(cs, SourceOf), Tab)
    ensures CountIf(cs, FromComposer) == Occurrences(KeysIn(cs, SourceOf), Composer)
  {
    if cs != [] {
      var n := |cs| - 1;
      ChangeStep(cs[..n], cs[n]);
      ChangeKeysStep(cs[..n], cs[n]);
      assert cs[..n] + [cs[n]] == cs;
      assert multiset(KeysIn(cs, SourceOf)) == multiset(KeysIn(cs[..n], SourceOf)) + multiset{cs[n].source};
      SourceCounts(cs[..n]);
    }
  }

  /**
   * The totals of a user's record are consistent with its breakdown: tab and
   * composer changes never exceed all changes, they are the `TAB` and
   * `COMPOSER` entries of the source distribution, and that distribution
   * counts every change once.
   */
  lemma ChangeRecordConsistent(org: string, dateMs: int, email: string, mine: seq<AiCodeChangeMetric>,
                               rec: AiCodeChangeRecord)
    requires InDatetimeRange(dateMs)
    requires IsChangeRecord(org, dateMs, email, mine, rec)
    ensures rec.totals.tabChanges + rec.totals.composerChanges <= rec.totals.totalChanges
    ensures var d := rec.breakdown.sourceDistribution;
      && CountSum(d.keys, d.counts) == rec.totals.totalChanges
      && (Tab in d.counts ==> d.counts[Tab] == rec.totals.tabChanges)
      && (Composer in d.counts ==> d.counts[Composer] == rec.totals.composerChanges)
      && (Tab !in d.counts ==> rec.totals.tabChanges == 0)
      && (Composer !in d.counts ==> rec.totals.composerChanges == 0)
  {
    var obs := KeysIn(mine, SourceOf);
    SourcesAtMost(mine);
    SourceCounts(mine);
    TallyCountSum(obs);
    TallyCounts(obs);
    TalliesUnique(rec.breakdown.sourceDistribution, Tally.Tally(obs), obs);
  }

  /** The ratio is absent exactly when there was no composer change, and otherwise scales back to the tab count. */
  lemma TabVsComposerRatio(t: AiCodeChangeTotals)
    ensures TabVsComposer(t).None? <==> t.composerChanges == 0
    ensures TabVsComposer(t).Some? ==> TabVsComposer(t).value * t.composerChanges as real == t.tabChanges as real
  {
  }

  /** A per-item figure times the number of items, when there are any, gives back the amount. */
  lemma PerItemScales(amount: int, n: int)
    ensures n >= 1 ==> PerItem(amount, n) * n as real == amount as real
    ensures n < 1 ==> PerItem(amount, n) == amount as real
  {
  }

  /** The number of changes the records count. */
  function ChangesCounted(recs: seq<AiCodeChangeRecord>): nat {
    if recs == [] then 0 else ChangesCounted(recs[..|recs| - 1]) + recs[|recs| - 1].totals.totalChanges
  }

  lemma {:induction false} ChangesCountedAreGroupSizes(changes: seq<AiCodeChangeMetric>, emails: seq<string>, recs: seq<AiCodeChangeRecord>)
    requires |recs| == |emails|
    requires forall i :: 0 <= i < |recs| ==> recs[i].totals.totalChanges == |Members(changes, ChangeEmail, emails[i])|
    ensures ChangesCounted(recs) == GroupSizes(emails, changes, ChangeEmail)
  {
    if emails != [] {
      var n := |emails| - 1;
      ChangesCountedAreGroupSizes(changes, emails[..n], recs[..n]);
    }
  }

  /** Every change of the day is counted in exactly one user's record. */
  lemma ChangesConserved(org: string, dateMs: int, changes: seq<AiCodeChangeMetric>, recs: seq<AiCodeChangeRecord>)
    requires InDatetimeRange(dateMs)
    requires var emails := Distinct(KeysIn(changes, ChangeEmail));
      ChangeRecordsUpTo(org, dateMs, changes, emails, |emails|, recs)
    ensures ChangesCounted(recs) == |changes|
  {
    var emails := Distinct(KeysIn(changes, ChangeEmail));
    forall i | 0 <= i < |recs|
      ensures recs[i].totals.totalChanges == |Members(changes, ChangeEmail, emails[i])|
    {
      assert IsChangeRecord(org, dateMs, emails[i], Members(changes, ChangeEmail, emails[i]), recs[i]);
    }
    ChangesCountedAreGroupSizes(changes, emails, recs);
    GroupsCoverAll(changes, ChangeEmail);
  }
}

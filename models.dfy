/**
 * The records read from the usage service and the rollup records built from
 * them, with the defaults their declarations give (src/models.py).
 */
module Models {
  import opened Wrappers
  import opened Tally

  /** Python truthiness of an optional string: present and not empty. */
  predicate Truthy(o: Option<string>) {
    o.Some? && o.value != ""
  }

  /** `o or fallback`. */
  function OrElse(o: Option<string>, fallback: string): string {
    if Truthy(o) then o.value else fallback
  }

  /** `o or 0` for an optional count. */
  function OrZero(o: Option<int>): int {
    if o.Some? then o.value else 0
  }

  /** The bucket of rows that carry no e-mail and of users with no team. */
  const Unknown := "unknown"

  /**
   * The additive counters that user, team and organisation totals share:
   * the daily activity counters, the token counters and the cost in cents.
   * The organisation record names the token counters `total_input_tokens`
   * and so on; users and teams name them `input_tokens`.
   */
  datatype UsageCounts = UsageCounts(
    totalAccepts: int := 0,
    totalRejects: int := 0,
    totalTabsShown: int := 0,
    totalTabsAccepted: int := 0,
    totalLinesAdded: int := 0,
    totalLinesDeleted: int := 0,
    acceptedLinesAdded: int := 0,
    acceptedLinesDeleted: int := 0,
    composerRequests: int := 0,
    chatRequests: int := 0,
    agentRequests: int := 0,
    subscriptionIncludedReqs: int := 0,
    apiKeyReqs: int := 0,
    usageBasedReqs: int := 0,
    bugbotUsages: int := 0,
    inputTokens: int := 0,
    outputTokens: int := 0,
    cacheWriteTokens: int := 0,
    cacheReadTokens: int := 0,
    totalCents: real := 0.0)

  /** Every counter at zero: what a freshly made totals object holds. */
  const Zero: UsageCounts := UsageCounts()

  /** Field-by-field sum: the effect of `a.f += b.f` for every counter `f`. */
  function Plus(a: UsageCounts, b: UsageCounts): UsageCounts {
    UsageCounts(
      a.totalAccepts + b.totalAccepts,
      a.totalRejects + b.totalRejects,
      a.totalTabsShown + b.totalTabsShown,
      a.totalTabsAccepted + b.totalTabsAccepted,
      a.totalLinesAdded + b.totalLinesAdded,
      a.totalLinesDeleted + b.totalLinesDeleted,
      a.acceptedLinesAdded + b.acceptedLinesAdded,
      a.acceptedLinesDeleted + b.acceptedLinesDeleted,
      a.composerRequests + b.composerRequests,
      a.chatRequests + b.chatRequests,
      a.agentRequests + b.agentRequests,
      a.subscriptionIncludedReqs + b.subscriptionIncludedReqs,
      a.apiKeyReqs + b.apiKeyReqs,
      a.usageBasedReqs + b.usageBasedReqs,
      a.bugbotUsages + b.bugbotUsages,
      a.inputTokens + b.inputTokens,
      a.outputTokens + b.outputTokens,
      a.cacheWriteTokens + b.cacheWriteTokens,
      a.cacheReadTokens + b.cacheReadTokens,
      a.totalCents + b.totalCents)
  }

  /** Counters form a commutative monoid under `Plus` with unit `Zero`. */
  lemma PlusLaws(a: UsageCounts, b: UsageCounts, c: UsageCounts)
    ensures Plus(a, Zero) == a && Plus(Zero, a) == a
    ensures Plus(a, b) == Plus(b, a)
    ensures Plus(Plus(a, b), c) == Plus(a, Plus(b, c))
  {
  }

  /** One user's counters for one day (`/teams/daily-usage-data`). */
  datatype DailyUserSummary = DailyUserSummary(
    date: int,
    isActive: bool,
    email: Option<string> := None,
    totalLinesAdded: int := 0,
    totalLinesDeleted: int := 0,
    acceptedLinesAdded: int := 0,
    acceptedLinesDeleted: int := 0,
    totalApplies: int := 0,
    totalAccepts: int := 0,
    totalRejects: int := 0,
    totalTabsShown: int := 0,
    totalTabsAccepted: int := 0,
    composerRequests: int := 0,
    chatRequests: int := 0,
    agentRequests: int := 0,
    cmdkUsages: int := 0,
    subscriptionIncludedReqs: int := 0,
    apiKeyReqs: int := 0,
    usageBasedReqs: int := 0,
    bugbotUsages: int := 0,
    mostUsedModel: Option<string> := None,
    applyMostUsedExtension: Option<string> := None,
    tabMostUsedExtension: Option<string> := None,
    clientVersion: Option<string> := None)

  datatype UsageEventTokenUsage = UsageEventTokenUsage(
    inputTokens: int := 0,
    outputTokens: int := 0,
    cacheWriteTokens: int := 0,
    cacheReadTokens: int := 0,
    totalCents: real := 0.0)

  /** One billed request (`/teams/filtered-usage-events`). */
  datatype UsageEvent = UsageEvent(
    timestamp: string,
    model: Option<string> := None,
    kind: Option<string> := None,
    maxMode: Option<bool> := None,
    requestsCosts: Option<real> := None,
    isTokenBasedCall: Option<bool> := None,
    tokenUsage: Option<UsageEventTokenUsage> := None,
    isFreeBugbot: Option<bool> := None,
    userEmail: Option<string> := None)

  datatype OrgTotals = OrgTotals(
    usage: UsageCounts := Zero,
    totalActiveUsers: int := 0,
    mostUsedModel: Option<string> := None)

  datatype UserTotals = UserTotals(
    email: string,
    isActive: bool,
    usage: UsageCounts := Zero,
    mostUsedModel: Option<string> := None)

  datatype TeamTotals = TeamTotals(
    team: string,
    usage: UsageCounts := Zero,
    mostUsedModel: Option<string> := None,
    totalActiveUsers: int := 0)

  /**
   * The drill-down payload of a record: empty by default, the users' totals
   * for an organisation, the member identifiers for a team.
   */
  datatype Breakdown =
    | NoBreakdown
    | UsersBreakdown(users: seq<UserTotals>)
    | MembersBreakdown(teamMemberIdentifiers: seq<string>)

  datatype OrgRecord = OrgRecord(
    identifier: string,
    org: string,
    recordDateIso: string,
    totals: OrgTotals,
    breakdown: Breakdown := NoBreakdown)

  datatype UserRecord = UserRecord(
    identifier: string,
    org: string,
    recordDateIso: string,
    totals: UserTotals,
    breakdown: Breakdown := NoBreakdown)

  datatype TeamRecord = TeamRecord(
    identifier: string,
    org: string,
    team: string,
    recordDateIso: string,
    totals: TeamTotals,
    breakdown: Breakdown := NoBreakdown)

  /** A freshly made totals object has every counter at zero and no model. */
  lemma FreshTotalsAreEmpty(email: string, isActive: bool, team: string)
    ensures OrgTotals().usage == Zero && OrgTotals().totalActiveUsers == 0
    ensures OrgTotals().usage.totalCents == 0.0 && OrgTotals().mostUsedModel.None?
    ensures UserTotals(email, isActive).usage == Zero && UserTotals(email, isActive).mostUsedModel.None?
    ensures TeamTotals(team).usage == Zero && TeamTotals(team).totalActiveUsers == 0
    ensures TeamTotals(team).mostUsedModel.None?
    ensures forall u :: Plus(Zero, u) == u
  {
  }

  // The AI activity records. Their declarations are not part of this model;
  // the fields are those the aggregators read and write, counters default to 0.

  /** One commit with its lines split by origin. */
  datatype AiCommitMetric = AiCommitMetric(
    commitHash: string := "",
    userEmail: Option<string> := None,
    repoName: Option<string> := None,
    branchName: Option<string> := None,
    isPrimaryBranch: bool := false,
    totalLinesAdded: int := 0,
    totalLinesDeleted: int := 0,
    tabLinesAdded: int := 0,
    tabLinesDeleted: int := 0,
    composerLinesAdded: int := 0,
    composerLinesDeleted: int := 0,
    nonAiLinesAdded: Option<int> := None,
    nonAiLinesDeleted: Option<int> := None,
    commitTs: Option<string> := None)

  datatype AiCommitTotals = AiCommitTotals(
    totalCommits: nat := 0,
    totalLinesAdded: int := 0,
    totalLinesDeleted: int := 0,
    tabLinesAdded: int := 0,
    tabLinesDeleted: int := 0,
    composerLinesAdded: int := 0,
    composerLinesDeleted: int := 0,
    nonAiLinesAdded: int := 0,
    nonAiLinesDeleted: int := 0,
    primaryBranchCommits: nat := 0,
    totalUniqueRepos: nat := 0,
    mostActiveRepo: Option<string> := None)

  /** Percentages are exact, before the source's rounding to two places. */
  datatype AiCommitBreakdown = AiCommitBreakdown(
    commits: seq<AiCommitMetric>,
    repositories: Counter,
    tabPercentage: real,
    composerPercentage: real,
    nonAiPercentage: real)

  datatype AiCommitRecord = AiCommitRecord(
    identifier: string,
    org: string,
    userEmail: string,
    recordDateIso: string,
    totals: AiCommitTotals,
    breakdown: AiCommitBreakdown)

  datatype AiCodeChangeFileMetadata = AiCodeChangeFileMetadata(
    fileName: Option<string> := None,
    fileExtension: Option<string> := None)

  /** One accepted AI edit; `source` is `TAB`, `COMPOSER` or another tag. */
  datatype AiCodeChangeMetric = AiCodeChangeMetric(
    source: string,
    changeId: string := "",
    userEmail: Option<string> := None,
    model: Option<string> := None,
    totalLinesAdded: int := 0,
    totalLinesDeleted: int := 0,
    createdAt: Option<string> := None,
    metadata: seq<AiCodeChangeFileMetadata> := [])

  datatype AiCodeChangeTotals = AiCodeChangeTotals(
    totalChanges: nat := 0,
    totalLinesAdded: int := 0,
    totalLinesDeleted: int := 0,
    tabChanges: nat := 0,
    tabLinesAdded: int := 0,
    tabLinesDeleted: int := 0,
    composerChanges: nat := 0,
    composerLinesAdded: int := 0,
    composerLinesDeleted: int := 0,
    uniqueFileExtensions: nat := 0,
    mostUsedModel: Option<string> := None)

  /** Ratios are exact, before the source's rounding to two places. */
  datatype AiCodeChangeBreakdown = AiCodeChangeBreakdown(
    changes: seq<AiCodeChangeMetric>,
    sourceDistribution: Counter,
    modelUsage: Counter,
    fileExtensions: Counter,
    averageLinesPerChange: real,
    tabVsComposerRatio: Option<real>,
    tabEfficiency: real,
    composerEfficiency: real)

  datatype AiCodeChangeRecord = AiCodeChangeRecord(
    identifier: string,
    org: string,
    userEmail: string,
    recordDateIso: string,
    totals: AiCodeChangeTotals,
    breakdown: AiCodeChangeBreakdown)
}

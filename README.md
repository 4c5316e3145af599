# Cursor usage rollup and Port export, in Dafny

The synchroniser reads a Cursor organisation's usage for each UTC day:
per-user daily summaries, paged usage events, AI commits and AI code
changes. It rolls them up into one record per organisation, per user, per
team and per user's AI activity. Then it upserts the organisation, user and
team records into Port in batches of 300 entities, authenticating with a
cached bearer token.

This project models that core and proves what it promises:

| module | file | models |
|---|---|---|
| `Wrappers` | wrappers.dfy | `Option` and `Result` |
| `Tally` | tally.dfy | first-seen key order of a `dict`; `collections.Counter` and `most_common(1)` |
| `Models` | models.dfy | the records of src/models.py; the additive counters are grouped in `UsageCounts` |
| `Ledger` | ledger.dfy | sums of counters grouped by e-mail or team |
| `Dates` | dates.dfy | `epoch_ms_day_to_iso_utc` (proleptic Gregorian calendar) and the record identifiers |
| `Daily` | daily.dfy | `aggregate_daily` |
| `Teams` | teams.dfy | `aggregate_teams` |
| `Grouping` | grouping.dfy | the `defaultdict(list)` grouping both AI aggregators start with |
| `AiCommits` | ai_commits.dfy | `aggregate_ai_commits` |
| `AiChanges` | ai_changes.dfy | `aggregate_ai_code_changes` |
| `Schedule` | schedule.dfy | `slice_days_utc`, the day window and the event pagination of src/main.py |
| `Exporter` | exporter.dfy | `PortExporter` |

## How the code is modelled

- Each aggregator keeps its source's `for` loops as `method`s with `for` loops;
  `BulkInChunks` and `FetchAllEvents` use `while` loops.
  Each loop is proved against a reference function of the input. For
  example, `Daily.UserOf` gives one user's totals over every row and event
  of the day, and `Teams.PartialTeam` gives one team's totals over its
  members. The invariants are `Daily.Folded`, `Teams.Grouped` and
  `Grouping.GroupedBy`.
- An insertion-ordered dictionary is a key sequence plus a `map`.
- A `Counter` is its key order plus a count map. `most_common(1)` is the
  first key of maximal count in that order, as CPython's `max` over the
  items picks it. `Tally.IsMostCommon` states this independently of the
  counter: every observation occurs at most as often, and ties go to the
  observation seen first.
- `PortExporter` is a class. The HTTP client is replaced by the field
  `posts`, which lists the requests made so far. The cached token is the
  field `token`. The auth endpoint's JSON reply is a parameter.
- Usage and cost counters are unbounded integers. Cents and percentages
  are exact reals.

## Model

| member | source | states |
|---|---|---|
| `Tally.Distinct` | src/aggregate.py:42-48 | the key order of a dict filled by a scan has exactly the scanned keys, each once |
| `Tally.DistinctFirstSeen` | src/aggregate.py:42-48 | the keys are in the order of their first occurrence |
| `Tally.DistinctCount` | src/aggregate.py:89-111 | there are as many distinct keys as elements in the set of keys |
| `Tally.TallyCounts` | src/aggregate.py:66-67 | counting observations one by one gives each key's number of occurrences, keys in first-seen order |
| `Tally.TallyCountSum` | src/aggregate.py:66-67 | a counter's counts add up to the number of observations |
| `Tally.MostCommon` | src/aggregate.py:113-114 | `most_common(1)` is the first key in insertion order whose count is maximal; `None` for an empty counter |
| `Tally.FirstMaxIsMostCommon` | src/aggregate.py:113-114 | the first maximal key of a counter of the observations is their most common value, ties going to the first seen |
| `Tally.MostCommonUnique` | src/aggregate.py:113-114 | at most one value is the most common observation |
| `Tally.MostCommonOf` | src/aggregate.py:200-201 | counting then `most_common(1)` yields the most common observation |
| `Tally.BumpTallies` | src/aggregate.py:66-67 | `Bump`, the model of `counter[k] += 1`, counts one more observation: a new key goes last with count 1, an existing key's count goes up by one |
| `Tally.TallyAppend` | src/aggregate.py:66-67 | counting one more observation is one more `Bump` |
| `Tally.TieGoesToFirstSeen` | src/aggregate.py:113-114 | a sanity check of `IsMostCommon` on one concrete tie: two models seen twice each, the first seen wins |
| `Models.PlusLaws` | src/aggregate.py:88-104 | `Plus`, every counter's `+=` at once, is associative and commutative, and zero is its unit |
| `Models.FreshTotalsAreEmpty` | src/models.py:56-146 | new organisation, user and team totals start with zero counters and no model |
| `Ledger.UsageForAbsent` | src/aggregate.py:44-47 | a key never filed has zero counters |
| `Ledger.GroupedTotal` | src/aggregate.py:88-104 | summing the per-key sums over the distinct keys gives the sum of every entry |
| `Ledger.SumUsersOverKeys` | src/aggregate.py:89-104 | users whose counters are the per-key sums add up to the sum over those keys |
| `Dates.CivilFromDays` | src/aggregate.py:27-28 | a day number maps to a calendar date with a month from 1 to 12 and a day from 1 to 31 |
| `Dates.CivilFromDaysValid` | src/aggregate.py:27-28 | that date is valid: its day is within its month's length, and 29 February occurs only in leap years |
| `Dates.CivilOfEraDayValid` | src/aggregate.py:27-28 | the date of any day of a 400-year era is valid |
| `Dates.YearOfEraBounds` | src/aggregate.py:27-28 | within a 400-year era, the year of the era and the day of the year are in range, and the 366th day only occurs in a leap year |
| `Dates.YearStartRoundTrip` | src/aggregate.py:27-28 | a year of the era and a day within that year's length are recovered from the day of the era |
| `Dates.LeapInEraIff` | src/aggregate.py:27-28 | a year of the era ends with a leap day if and only if its calendar year is a Gregorian leap year |
| `Dates.CivilRoundTrip` | src/aggregate.py:27-28 | converting a day number to a date and back gives the day number |
| `Dates.EraDayRoundTrip` | src/aggregate.py:27-28 | within an era, converting back to a day number undoes the date computation |
| `Dates.DateRoundTrip` | src/aggregate.py:27-28 | converting a valid date to its day number and back gives the date |
| `Dates.DaysFromCivilInjective` | src/aggregate.py:27-28 | distinct valid dates have distinct day numbers |
| `Dates.EpochMsDayToIsoUtc` | src/aggregate.py:27-28 | the result has 20 characters: four digits, a dash, two digits, a dash, two digits, then `T00:00:00Z` |
| `Dates.PadRoundTrip` | src/aggregate.py:27-28 | zero-padded year, month and day digits read back as the numbers written |
| `Dates.IsoDayRoundTrip` | src/aggregate.py:27-28 | the date in the string is the date of the instant's UTC day, and its day number is that day |
| `Dates.IsoDayValid` | src/aggregate.py:27-28 | the date in the string is a valid date |
| `Dates.IsoDayUnique` | src/aggregate.py:27-28 | no other valid date has the instant's day number |
| `Dates.SameIsoDayIff` | src/aggregate.py:27-28 | two instants give the same string if and only if they fall on the same UTC day |
| `Dates.DayKey` | src/aggregate.py:117 | `date_iso[:10]` has ten characters |
| `Dates.DayKeyIff` | src/aggregate.py:117 | two day keys are equal if and only if their instants fall on the same UTC day |
| `Dates.OrgIdentifierShape` | src/aggregate.py:116-117 | `OrgIdentifier`: the organisation identifier is `cursor:<org>:` then the day, and it is equal for two instants if and only if they fall on the same UTC day |
| `Dates.KeyedIdentifierShape` | src/aggregate.py:133 | `KeyedIdentifier`: a user identifier (and the team, AI-commit and AI-change identifiers of src/aggregate.py:202, 285 and 370) is the namespace, the organisation and the key, each followed by `:`, then the day; it is equal for two instants if and only if they fall on the same UTC day |
| `Daily.LastSummaryModelIsLast` | src/aggregate.py:66-67 | a user's model from the summaries is the one named by their last summary row that names one; it is `None` only when no row names one |
| `Daily.FirstEventModelIsFirst` | src/aggregate.py:77-79 | an event only sets the model of a user who has none yet, so it is the first naming event's model |
| `Daily.UnseenUser` | src/aggregate.py:73-76 | a user not seen yet has the totals a fresh `UserTotals(email, is_active=True)` holds: zero counters and no model |
| `Daily.SummaryStep` | src/aggregate.py:42-68 | a summary row changes only its own user: its activity is OR-ed in, its counters added, a model it names replaces the user's |
| `Daily.EventStep` | src/aggregate.py:71-85 | an event changes only its own user: its token usage and cost are added, its model kept only when the user has none |
| `Daily.FoldSummaries` | src/aggregate.py:42-68 | after the summary loop, every user's totals are those of their rows, users in first-seen order, and every row's model is counted |
| `Daily.FoldEvents` | src/aggregate.py:71-85 | the event loop carries that invariant over every event, adding users that only occur in events |
| `Daily.FoldUsers` | src/aggregate.py:39-85 | after both loops, the table holds `UserOf` for exactly the users of the day, in first-seen order, and the counter counts every model observation |
| `Daily.AddSummary` | src/aggregate.py:43-68 | one iteration of the summary loop preserves the invariant |
| `Daily.AddEvent` | src/aggregate.py:72-85 | one iteration of the event loop preserves the invariant |
| `Daily.CountEventModel` | src/aggregate.py:77-78 | an event naming a model counts it once more for the organisation, even when the user already has a model |
| `Daily.FoldEvent` | src/aggregate.py:73-84 | the user's totals after the event are those of their rows and events so far |
| `Daily.OrgTotalsOf` | src/aggregate.py:88-114 | the organisation's counters are the sum over the users, its active count the number of active users, its model the most common observation |
| `Daily.DayOrgTotals` | src/aggregate.py:88-114 | the organisation's counters equal the sum of every summary row and every event, and its active count is the number of distinct active e-mails |
| `Daily.UserRecordsOf` | src/aggregate.py:131-142 | one user record per user, in order, under `cursor:<org>:<email>:<day>`, with the user's totals and date |
| `Daily.AggregateDaily` | src/aggregate.py:31-144 | one user record per distinct e-mail in first-seen order, each with its rows' and events' totals; the organisation record has the day's identifier and date, the users as its breakdown, the sum of every row and event, the number of active users and the most common model |
| `Daily.OrgUsageIsRowTotal` | src/aggregate.py:88-104 | no usage is lost or counted twice: the users' counters add up to those of every row and event |
| `Daily.ActiveCountIsActiveUsers` | src/aggregate.py:105-106 | counting active users one by one counts each active e-mail once |
| `Daily.ActiveEmailsMembers` | src/aggregate.py:105-106 | an e-mail is among the active e-mails if and only if some active user has it |
| `Daily.ActiveCountOfDistinct` | src/aggregate.py:105-106 | with distinct e-mails, the active count is the number of distinct active e-mails |
| `Teams.UnseenTeam` | src/aggregate.py:166-169 | a team no record maps to has zero counters, no active members, no models and no members |
| `Teams.MemberStep` | src/aggregate.py:159-195 | one more user record changes only its own team's totals, active count, models and members |
| `Teams.OpenTeam` | src/aggregate.py:160-169 | `TeamOf`: a record's team is its mapped team, else `unknown`; a team seen for the first time is appended to the team order and starts empty |
| `Teams.FoldMember` | src/aggregate.py:170-195 | adding a record brings its team's totals, model counter and member list up to date |
| `Teams.AddMember` | src/aggregate.py:159-195 | one iteration of the first loop preserves the grouping invariant, including the unmapped e-mails |
| `Teams.GroupByTeam` | src/aggregate.py:159-195 | after the first loop, each team's totals, model counter and member identifiers are those of its records, teams in first-seen order |
| `Teams.TeamRecordOf` | src/aggregate.py:199-218 | a team record has the team's totals, its most common member model, `cursor:<org>:<team>:<day>` and its members' identifiers as its breakdown |
| `Teams.TeamRecordsOf` | src/aggregate.py:199-218 | the second loop makes one team record per team, in first-seen order |
| `Teams.AggregateTeams` | src/aggregate.py:147-224 | one record per team in the order its first member appears, plus the e-mails that have no team |
| `Teams.MembersOfIff` | src/aggregate.py:170-171 | an identifier is listed under a team if and only if a record with that identifier belongs to the team |
| `Teams.UnmappedIff` | src/aggregate.py:160-161 | an e-mail is reported unmapped if and only if it is a record's e-mail missing from the mapping |
| `Teams.ActiveAtMostMembers` | src/aggregate.py:172-173 | a team never has more active members than members |
| `Teams.TeamEntriesTotal` | src/aggregate.py:174-193 | filing each user's counters under their team keeps their sum |
| `Teams.TeamUsageConserved` | src/aggregate.py:147-224 | no usage is lost or counted twice: the team records add up to the user records |
| `Grouping.GroupedStep` | src/aggregate.py:236-240 | appending an item to its key's group keeps the dictionary equal to the grouping of the prefix |
| `Grouping.GroupBy` | src/aggregate.py:310-314 | the groups are the items with each key in input order, the keys in first-seen order |
| `Grouping.MembersPartition` | src/aggregate.py:236-240 | a group holds exactly as many items as have its key, and only such items |
| `Grouping.GroupsCoverAll` | src/aggregate.py:236-240 | together the groups hold every item exactly once |
| `AiCommits.CommitStep` | src/aggregate.py:250-265 | one more commit adds exactly its own lines, primary-branch flag and repository |
| `AiCommits.SummarizeCommits` | src/aggregate.py:247-269 | a user's totals are the sums over their commits, a missing non-AI count reads as 0, and the repository counter counts every named repository |
| `AiCommits.CommitRecordOf` | src/aggregate.py:245-296 | a user's record has their totals, the most active repository, the exact line shares and `cursor-ai-commits:<org>:<email>:<day>` |
| `AiCommits.AggregateAiCommits` | src/aggregate.py:227-298 | one record per e-mail in first-seen order, each built from exactly that user's commits |
| `AiCommits.PercentageBounds` | src/aggregate.py:276-281 | `Percentage`, as a fact about the formula: a share of a whole's lines lies between 0 and 100 |
| `AiCommits.PercentagesAddUp` | src/aggregate.py:276-281 | as a fact about the formula: shares of parts that make up the whole add up to 100 |
| `AiCommits.PercentageOfNothing` | src/aggregate.py:276-281 | with no changed lines the divisor is 1 |
| `AiCommits.CommitTotalsBounds` | src/aggregate.py:261-269 | primary-branch commits and distinct repositories never exceed the commits |
| `AiCommits.RecordHoldsOwnCommits` | src/aggregate.py:236-273 | a record lists only its user's commits, as many as the user has |
| `AiCommits.CommitsConserved` | src/aggregate.py:227-298 | every commit of the day is counted in exactly one record |
| `AiChanges.ChangeStep` | src/aggregate.py:326-342 | one more change adds exactly its own lines to the totals and to its source's counters |
| `AiChanges.CountExtensions` | src/aggregate.py:347-349 | the extension counter counts every file extension that is present |
| `AiChanges.CountChange` | src/aggregate.py:327-342 | a `TAB` change counts as a tab change, a `COMPOSER` change as a composer change, any other only in the totals |
| `AiChanges.SummarizeChanges` | src/aggregate.py:321-353 | a user's totals are the sums over their changes; the source, model and extension counters count their observations |
| `AiChanges.ChangeRecordOf` | src/aggregate.py:319-381 | a user's record has their totals, most used model, exact ratios and `cursor-ai-changes:<org>:<email>:<day>` |
| `AiChanges.AggregateAiCodeChanges` | src/aggregate.py:301-383 | one record per e-mail in first-seen order, each built from exactly that user's changes |
| `AiChanges.SourcesAtMost` | src/aggregate.py:333-342 | no change is both a tab and a composer change |
| `AiChanges.SourceCounts` | src/aggregate.py:333-345 | the tab and composer counts are the `TAB` and `COMPOSER` entries of the source distribution |
| `AiChanges.ChangeRecordConsistent` | src/aggregate.py:351-368 | a record's source distribution counts every change once and agrees with its tab and composer counts |
| `AiChanges.TabVsComposerRatio` | src/aggregate.py:364 | `TabVsComposer`: the ratio is absent if and only if there was no composer change; otherwise it times the composer count gives the tab count |
| `AiChanges.PerItemScales` | src/aggregate.py:362-366 | `PerItem`: a per-change figure times the count gives back the lines; with no change the divisor is 1 |
| `AiChanges.ChangesConserved` | src/aggregate.py:301-383 | every change of the day is counted in exactly one record |
| `Schedule.ReverseInvolutive` | src/main.py:22 | `Reverse`, the model of `[::-1]`, undoes itself |
| `Schedule.ReversePermutes` | src/main.py:22 | `Reverse` keeps every element as often as it occurs |
| `Schedule.SliceBetweenBounds` | src/main.py:14-20 | `SliceDaysUtc` with both bounds: consecutive midnights from the start's day to the end's day inclusive, and none when the end is before the start |
| `Schedule.SliceLastDays` | src/main.py:21-22 | `SliceDaysUtc` otherwise: exactly `days` consecutive midnights, ascending, ending with today's |
| `Schedule.LastDayAt` | src/main.py:21-22 | the i-th midnight starts the day `days - 1 - i` days before today |
| `Schedule.MidnightDay` | src/main.py:20-22 | a midnight lies in the day it starts |
| `Schedule.WindowIsDay` | src/main.py:52-53 | `DayWindow`: a day's window holds exactly the instants of that UTC day |
| `Schedule.WindowsTile` | src/main.py:52-53 | consecutive days' windows meet with no gap and no overlap |
| `Schedule.FetchAllEvents` | src/main.py:60-71 | pages 1, 2, … are requested until the first page that is empty or has no next page, and the events are those of every page requested, in order |
| `Schedule.FetchStopsByEnd` | src/main.py:60-71 | fetching stops at most one page past the service's last page |
| `Exporter.RStripSlash` | src/port_exporter.py:12 | the result is the longest prefix that does not end in `/`, and only slashes were removed |
| `Exporter.RStripIdempotent` | src/port_exporter.py:12 | stripping twice strips nothing more |
| `Exporter.TokenFromSpec` | src/port_exporter.py:30-33 | `TokenFrom`: a token is found if and only if `accessToken` or `access_token` holds a non-empty string, and `accessToken` is preferred |
| `Exporter.BearerCarriesToken` | src/port_exporter.py:37-39 | `BearerHeaders`: the header is `Bearer ` followed by the token, and different tokens give different headers |
| `Exporter.TokenKeys` | src/port_exporter.py:84-87 | `Property`: the organisation payload names its token counters `total_…`, user and team payloads use the bare names, and neither has the other spelling |
| `Exporter.PrefixedTokenNames` | src/port_exporter.py:84-87 | every organisation token key is the users' and teams' key with `total_` in front |
| `Exporter.KindKeys` | src/port_exporter.py:64-152 | `Property`: only user payloads carry an e-mail and an activity flag, only team payloads a team name, and users carry no active-user count |
| `Exporter.SharedKeys` | src/port_exporter.py:64-152 | `Property`: every payload carries the activity counters, cost, date, breakdown and most used model (null when absent) under the same keys |
| `Exporter.ChunksFlatten` | src/port_exporter.py:57-59 | `ChunksOf`: batching loses, duplicates and reorders no entity |
| `Exporter.ChunksBounded` | src/port_exporter.py:57-59 | every batch has 1 to 300 entities, and every batch but the last has exactly 300 |
| `Exporter.ChunkCount` | src/port_exporter.py:57-59 | there is one batch per started run of 300 entities |
| `Exporter.ChunkAt` | src/port_exporter.py:57-59 | batch k is the slice starting at 300·k |
| `Exporter.ExportOrder` | src/port_exporter.py:41-152 | `ExportEntities`: the organisation entity comes first, then one entity per user record, then one per team record, each made by `FormatEntity` from its record's identifier, its kind's blueprint and its payload |
| `Exporter.PortExporter.constructor` | src/port_exporter.py:11-19 | the base URL loses its trailing slashes; no token is cached and no request has been made |
| `Exporter.PortExporter.GetToken` | src/port_exporter.py:21-35 | a cached token is returned without a request; otherwise one auth request is made and a non-empty token is cached and returned, or the call fails with the source's message |
| `Exporter.PortExporter.Headers` | src/port_exporter.py:37-39 | the bearer header of the token, obtained as `GetToken` does |
| `Exporter.PortExporter.BulkUpsert` | src/port_exporter.py:50-55 | dry-run sends nothing; otherwise one upsert request carrying the batch, after the auth request when no token is cached, and the call fails exactly when no token is obtained |
| `Exporter.PortExporter.BulkInChunks` | src/port_exporter.py:57-59 | one upsert request per batch of 300, in order; only the first batch can fail, since the token is cached after it |
| `Exporter.PortExporter.ExportOrgUsersTeams` | src/port_exporter.py:61-154 | the requests carry the organisation, user and team entities in batches |
| `Exporter.PortExporter.Delivered` | src/port_exporter.py:57-59 | the upsert requests carry exactly the entities in order, each request to the bulk URL with the bearer header and at most 300 entities |
| `Exporter.PortExporter.SentUpserts` | src/port_exporter.py:54 | the entities sent by the upsert requests are their batches concatenated |

## Left out

- HTTP is not modelled: `httpx`, the timeout and `raise_for_status`. A failed request would raise, but in the model every request succeeds. The auth endpoint's JSON reply is an input.
- The `tenacity` retries on `_get_token` and `bulk_upsert` are left out. One attempt is modelled. With a fixed reply, a retry repeats the same outcome.
- Exporter.PortExporter.GetToken: a failed call leaves no token and can be called again; the five retries are not counted.
- src/config.py is not part of this model. Neither is src/cursor_adapter.py: the usage service is a sequence of pages.
- Logging is not modelled.
- The module-level `run` wiring is left out, along with argument parsing, loading the team mapping from a JSON or YAML file, and SHA-256 anonymisation. The mapping is an input `map`.
- The second, older copies of the modules that start at src/main.py:110 and src/port_exporter.py:156 are not part of this model.
- Date parsing and the clock are left out. Parsed bounds are given as instants in ms, interpreted in UTC, so offsets other than UTC are not modelled. `now()` is an input instant.
- Dates.EpochMsDayToIsoUtc: instants outside Python's `datetime` range (years 1 to 9999) are excluded by a precondition, where the source raises. Years 1 to 999 are written zero-padded to four digits; whether pendulum's `YYYY` token pads them is not part of this model.
- Schedule.FetchAllEvents: the service holds a finite list of pages, and pages past its end are empty. The source's `while True` (src/main.py:62-71) has no page bound and would never stop against a service that always reports a next page; the finite service is what the model's termination argument relies on.
- AiCommits.CommitRecordOf: percentages are exact reals; the source's `round(..., 2)` is not modelled.
- AiChanges.ChangeRecordOf: the average, ratio and efficiencies are exact reals; the source's `round(..., 2)` is not modelled.
- Cents are exact reals, not IEEE doubles, so floating-point rounding in their sums is not modelled.
- Teams.AddMember: the source inserts fresh `TeamTotals` into the dict and then mutates them. The model computes the team's new totals and stores them once, so the end state is the same, but the aliasing is not modelled.
- A payload is a lookup from key to value (`Exporter.Property`), so JSON key order is not modelled. A breakdown is a typed value, not the `model_dump` dictionary.
- src/aggregate.py:17-23 imports `AiCommitMetric`, `AiCodeChangeMetric`, `AiCommitTotals`, `AiCodeChangeTotals`, `AiCommitRecord`, `AiCodeChangeRecord` and `AiCodeChangeFileMetadata` from src/models.py, which declares none of them, so the module cannot be imported as written. Their shapes in this model are inferred from what the aggregators read and write.
- `_format_entity` has its `{"entity": …}` wrapper dropped: an entity is its blueprint, identifier and properties.

/**
 * `aggregate_daily`: folds one day's usage summaries and usage events into
 * one totals record per user and one for the organisation
 * (src/aggregate.py:31-144).
 */
module Daily {
  import opened Wrappers
  import opened Tally
  import opened Models
  import opened Ledger
  import opened Dates

  /** The user a summary row is filed under: `s.email or "unknown"`. */
  function SummaryKey(s: DailyUserSummary): string {
    OrElse(s.email, Unknown)
  }

  /** The user an event is filed under: `e.userEmail or "unknown"`. */
  function EventKey(e: UsageEvent): string {
    OrElse(e.userEmail, Unknown)
  }

  /** What a summary row adds to its user: its activity counters, no tokens. */
  function SummaryUsage(s: DailyUserSummary): UsageCounts {
    UsageCounts(
      totalAccepts := s.totalAccepts,
      totalRejects := s.totalRejects,
      totalTabsShown := s.totalTabsShown,
      totalTabsAccepted := s.totalTabsAccepted,
      totalLinesAdded := s.totalLinesAdded,
      totalLinesDeleted := s.totalLinesDeleted,
      acceptedLinesAdded := s.acceptedLinesAdded,
      acceptedLinesDeleted := s.acceptedLinesDeleted,
      composerRequests := s.composerRequests,
      chatRequests := s.chatRequests,
      agentRequests := s.agentRequests,
      subscriptionIncludedReqs := s.subscriptionIncludedReqs,
      apiKeyReqs := s.apiKeyReqs,
      usageBasedReqs := s.usageBasedReqs,
      bugbotUsages := s.bugbotUsages)
  }

  /** What a token usage adds to its user: the token counters and the cost. */
  function TokenUsage(t: UsageEventTokenUsage): UsageCounts {
    UsageCounts(
      inputTokens := t.inputTokens,
      outputTokens := t.outputTokens,
      cacheWriteTokens := t.cacheWriteTokens,
      cacheReadTokens := t.cacheReadTokens,
      totalCents := t.totalCents)
  }

  /** What an event adds: its token usage if it carries one, otherwise nothing. */
  function EventUsage(e: UsageEvent): UsageCounts {
    if e.tokenUsage.Some? then TokenUsage(e.tokenUsage.value) else Zero
  }

  function SummaryEntries(rows: seq<DailyUserSummary>): Entries {
    seq(|rows|, i requires 0 <= i < |rows| => (SummaryKey(rows[i]), SummaryUsage(rows[i])))
  }

  function EventEntries(events: seq<UsageEvent>): Entries {
    seq(|events|, i requires 0 <= i < |events| => (EventKey(events[i]), EventUsage(events[i])))
  }

  /** Every row and every event of the day, filed under its user. */
  function DayEntries(rows: seq<DailyUserSummary>, events: seq<UsageEvent>): Entries {
    SummaryEntries(rows) + EventEntries(events)
  }

  /** The users of the day in first-seen order: summaries first, then events. */
  function UserKeys(rows: seq<DailyUserSummary>, events: seq<UsageEvent>): seq<string> {
    Distinct(KeysOf(DayEntries(rows, events)))
  }

  /** Some summary row of user `k` is flagged active. */
  ghost predicate ActiveIn(rows: seq<DailyUserSummary>, k: string) {
    exists i :: 0 <= i < |rows| && SummaryKey(rows[i]) == k && rows[i].isActive
  }

  /** The model of the last row of user `k` that names one. */
  function LastSummaryModel(rows: seq<DailyUserSummary>, k: string): Option<string> {
    if rows == [] then None
    else
      var s := rows[|rows| - 1];
      if SummaryKey(s) == k && Truthy(s.mostUsedModel) then s.mostUsedModel
      else LastSummaryModel(rows[..|rows| - 1], k)
  }

  /** The model of the first event of user `k` that names one. */
  function FirstEventModel(events: seq<UsageEvent>, k: string): Option<string> {
    if events == [] then None
    else
      var e := events[|events| - 1];
      var prev := FirstEventModel(events[..|events| - 1], k);
      if prev.Some? then prev
      else if EventKey(e) == k && Truthy(e.model) then e.model
      else None
  }

  /**
   * `LastSummaryModel` is the model of a row of user `k`, and no later row
   * of that user names a model; it is `None` only when no row of the user does.
   */
  lemma {:induction false} LastSummaryModelIsLast(rows: seq<DailyUserSummary>, k: string)
    ensures var r := LastSummaryModel(rows, k);
      r.Some? ==> (
        && Truthy(r)
        && exists i :: 0 <= i < |rows| && SummaryKey(rows[i]) == k && rows[i].mostUsedModel == r &&
             forall j :: i < j < |rows| && SummaryKey(rows[j]) == k ==> !Truthy(rows[j].mostUsedModel))
    ensures LastSummaryModel(rows, k).None? ==>
      forall i :: 0 <= i < |rows| && SummaryKey(rows[i]) == k ==> !Truthy(rows[i].mostUsedModel)
  {
    if rows != [] {
      var n := |rows| - 1;
      var init := rows[..n];
      LastSummaryModelIsLast(init, k);
      if !(SummaryKey(rows[n]) == k && Truthy(rows[n].mostUsedModel)) {
        var r := LastSummaryModel(init, k);
        if r.Some? {
          var i :| 0 <= i < n && SummaryKey(init[i]) == k && init[i].mostUsedModel == r &&
            forall j :: i < j < n && SummaryKey(init[j]) == k ==> !Truthy(init[j].mostUsedModel);
          assert rows[i] == init[i];
        }
      }
    }
  }

  /**
   * `FirstEventModel` is the model of an event of user `k`, and no earlier
   * event of that user names a model; it is `None` only when none does.
   */
  lemma {:induction false} FirstEventModelIsFirst(events: seq<UsageEvent>, k: string)
    ensures var r := FirstEventModel(events, k);
      r.Some? ==> (
        && Truthy(r)
        && exists i :: 0 <= i < |events| && EventKey(events[i]) == k && events[i].model == r &&
             forall j :: 0 <= j < i && EventKey(events[j]) == k ==> !Truthy(events[j].model))
    ensures FirstEventModel(events, k).None? ==>
      forall i :: 0 <= i < |events| && EventKey(events[i]) == k ==> !Truthy(events[i].model)
  {
    if events != [] {
      var n := |events| - 1;
      var init := events[..n];
      FirstEventModelIsFirst(init, k);
      assert forall j :: 0 <= j < n ==> events[j] == init[j];
      var r := FirstEventModel(init, k);
      if r.Some? {
        var i :| 0 <= i < n && EventKey(init[i]) == k && init[i].model == r &&
          forall j :: 0 <= j < i && EventKey(init[j]) == k ==> !Truthy(init[j].model);
        assert EventKey(events[i]) == k && events[i].model == r;
      } else if EventKey(events[n]) == k && Truthy(events[n].model) {
        assert FirstEventModel(events, k) == events[n].model;
      } else {
        assert FirstEventModel(events, k).None?;
      }
    }
  }

  /** The models named by the summary rows, in order. */
  function SummaryModels(rows: seq<DailyUserSummary>): seq<string> {
    if rows == [] then []
    else
      var s := rows[|rows| - 1];
      SummaryModels(rows[..|rows| - 1]) + if Truthy(s.mostUsedModel) then [s.mostUsedModel.value] else []
  }

  /** The models named by the events, in order. */
  function EventModels(events: seq<UsageEvent>): seq<string> {
    if events == [] then []
    else
      var e := events[|events| - 1];
      EventModels(events[..|events| - 1]) + if Truthy(e.model) then [e.model.value] else []
  }

  /** Every model observation of the day: one per summary row and per event naming a model. */
  function DayModels(rows: seq<DailyUserSummary>, events: seq<UsageEvent>): seq<string> {
    SummaryModels(rows) + EventModels(events)
  }

  /**
   * The totals of user `k`: active if any of its summary rows is, or if it
   * only occurs in events; its counters summed over its rows and events; its
   * model the last one its summaries name, else the first its events name.
   */
  ghost function UserOf(rows: seq<DailyUserSummary>, events: seq<UsageEvent>, k: string): UserTotals {
    UserTotals(
      email := k,
      isActive := if k in KeysOf(SummaryEntries(rows)) then ActiveIn(rows, k) else true,
      usage := UsageFor(DayEntries(rows, events), k),
      mostUsedModel :=
        if LastSummaryModel(rows, k).Some? then LastSummaryModel(rows, k) else FirstEventModel(events, k))
  }

  /** The totals of every user of the day, in first-seen order. */
  ghost function DayUsers(rows: seq<DailyUserSummary>, events: seq<UsageEvent>): seq<UserTotals> {
    var keys := UserKeys(rows, events);
    seq(|keys|, i requires 0 <= i < |keys| => UserOf(rows, events, keys[i]))
  }

  /** The users of the day that are active. */
  ghost function ActiveUsers(rows: seq<DailyUserSummary>, events: seq<UsageEvent>): set<string> {
    set k | k in UserKeys(rows, events) && UserOf(rows, events, k).isActive
  }

  /** Number of active users in a sequence of totals. */
  function CountActive(users: seq<UserTotals>): nat {
    if users == [] then 0
    else CountActive(users[..|users| - 1]) + if users[|users| - 1].isActive then 1 else 0
  }

  lemma SummaryEntriesAppend(rows: seq<DailyUserSummary>, s: DailyUserSummary)
    ensures SummaryEntries(rows + [s]) == SummaryEntries(rows) + [(SummaryKey(s), SummaryUsage(s))]
    ensures KeysOf(SummaryEntries(rows + [s])) == KeysOf(SummaryEntries(rows)) + [SummaryKey(s)]
    ensures (rows + [s])[..|rows|] == rows
  {
    assert KeysOf(SummaryEntries(rows + [s])) == KeysOf(SummaryEntries(rows) + [(SummaryKey(s), SummaryUsage(s))]);
  }

  lemma EventEntriesAppend(rows: seq<DailyUserSummary>, events: seq<UsageEvent>, e: UsageEvent)
    ensures DayEntries(rows, events + [e]) == DayEntries(rows, events) + [(EventKey(e), EventUsage(e))]
    ensures KeysOf(DayEntries(rows, events + [e])) == KeysOf(DayEntries(rows, events)) + [EventKey(e)]
    ensures (events + [e])[..|events|] == events
  {
    assert EventEntries(events + [e]) == EventEntries(events) + [(EventKey(e), EventUsage(e))];
    assert KeysOf(DayEntries(rows, events + [e])) == KeysOf(DayEntries(rows, events) + [(EventKey(e), EventUsage(e))]);
  }

  /** A user not seen yet is what `UserTotals(email=k, is_active=True)` makes. */
  lemma UnseenUser(rows: seq<DailyUserSummary>, events: seq<UsageEvent>, k: string)
    requires k !in KeysOf(DayEntries(rows, events))
    ensures UserOf(rows, events, k) == UserTotals(email := k, isActive := true)
  {
    UsageForAbsent(DayEntries(rows, events), k);
    LastSummaryModelIsLast(rows, k);
    FirstEventModelIsFirst(events, k);
    assert k !in KeysOf(SummaryEntries(rows)) by {
      assert KeysOf(SummaryEntries(rows)) == KeysOf(DayEntries(rows, events))[..|rows|];
    }
    assert forall i :: 0 <= i < |rows| ==> SummaryKey(rows[i]) != k by {
      forall i | 0 <= i < |rows| ensures SummaryKey(rows[i]) != k {
        assert KeysOf(DayEntries(rows, events))[i] == SummaryKey(rows[i]);
      }
    }
    assert forall i :: 0 <= i < |events| ==> EventKey(events[i]) != k by {
      forall i | 0 <= i < |events| ensures EventKey(events[i]) != k {
        assert KeysOf(DayEntries(rows, events))[|rows| + i] == EventKey(events[i]);
      }
    }
  }

  /** One more summary row changes only its own user, as the loop body does. */
  lemma SummaryStep(rows: seq<DailyUserSummary>, s: DailyUserSummary, k: string)
    ensures var u, u' := UserOf(rows, [], k), UserOf(rows + [s], [], k);
      if k != SummaryKey(s) then u' == u
      else
        && u'.email == k
        && u'.isActive == ((k in KeysOf(SummaryEntries(rows)) && u.isActive) || s.isActive)
        && u'.usage == Plus(u.usage, SummaryUsage(s))
        && u'.mostUsedModel == if Truthy(s.mostUsedModel) then s.mostUsedModel else u.mostUsedModel
  {
    SummaryEntriesAppend(rows, s);
    assert DayEntries(rows + [s], []) == DayEntries(rows, []) + [(SummaryKey(s), SummaryUsage(s))];
    assert DayEntries(rows, []) == SummaryEntries(rows);
    UsageForAppend(DayEntries(rows, []), SummaryKey(s), SummaryUsage(s), k);
    var rows' := rows + [s];
    if k == SummaryKey(s) {
      if s.isActive {
        assert rows'[|rows|] == s;
      }
      if ActiveIn(rows, k) {
        var i :| 0 <= i < |rows| && SummaryKey(rows[i]) == k && rows[i].isActive;
        assert rows'[i] == rows[i];
      }
      if ActiveIn(rows', k) && !s.isActive {
        var i :| 0 <= i < |rows'| && SummaryKey(rows'[i]) == k && rows'[i].isActive;
        assert i < |rows| && rows[i] == rows'[i];
        assert KeysOf(SummaryEntries(rows))[i] == k;
      }
    } else {
      if ActiveIn(rows', k) {
        var i :| 0 <= i < |rows'| && SummaryKey(rows'[i]) == k && rows'[i].isActive;
        assert rows[i] == rows'[i];
      }
      if ActiveIn(rows, k) {
        var i :| 0 <= i < |rows| && SummaryKey(rows[i]) == k && rows[i].isActive;
        assert rows'[i] == rows[i];
      }
    }
  }

  /** One more event changes only its own user, as the loop body does. */
  lemma EventStep(rows: seq<DailyUserSummary>, events: seq<UsageEvent>, e: UsageEvent, k: string)
    ensures var u, u' := UserOf(rows, events, k), UserOf(rows, events + [e], k);
      if k != EventKey(e) then u' == u
      else
        && u'.email == k && u'.isActive == u.isActive
        && u'.usage == (if e.tokenUsage.Some? then Plus(u.usage, TokenUsage(e.tokenUsage.value)) else u.usage)
        && u'.mostUsedModel ==
             if Truthy(e.model) && !Truthy(u.mostUsedModel) then e.model else u.mostUsedModel
  {
    var l := DayEntries(rows, events);
    EventEntriesAppend(rows, events, e);
    UsageForAppend(l, EventKey(e), EventUsage(e), k);
    LastSummaryModelIsLast(rows, k);
    FirstEventModelIsFirst(events, k);
    if k == EventKey(e) && e.tokenUsage.None? {
      PlusLaws(UsageFor(l, k), Zero, Zero);
    }
  }

  /**
   * After the rows `rows` and the events `events`: `keys` lists the users in
   * first-seen order, `table` holds the totals `UserOf` describes for each of
   * them and nothing else, and `models` counts every model observation.
   */
  ghost predicate Folded(rows: seq<DailyUserSummary>, events: seq<UsageEvent>,
                         keys: seq<string>, table: map<string, UserTotals>, models: Counter)
  {
    && keys == UserKeys(rows, events)
    && (forall k :: k in table <==> k in keys)
    && (forall k :: k in table ==> table[k] == UserOf(rows, events, k))
    && models == Tally.Tally(DayModels(rows, events))
  }

  /** The two loops of `aggregate_daily`, over the summaries and then the events. */
  method FoldUsers(rows: seq<DailyUserSummary>, events: seq<UsageEvent>)
    returns (keys: seq<string>, table: map<string, UserTotals>, models: Counter)
    ensures Folded(rows, events, keys, table, models)
  {
    keys, table, models := FoldSummaries(rows);
    keys, table, models := FoldEvents(rows, events, keys, table, models);
  }

  /** Before any row or event: no users and an empty model counter. */
  lemma FoldedEmpty()
    ensures Folded([], [], [], map[], EmptyCounter())
  {
    assert DayEntries([], []) == [];
  }

  /** The loop over the summaries. */
  method FoldSummaries(rows: seq<DailyUserSummary>)
    returns (keys: seq<string>, table: map<string, UserTotals>, models: Counter)
    ensures Folded(rows, [], keys, table, models)
  {
    keys, table, models := [], map[], EmptyCounter();
    FoldedEmpty();
    assert rows[..0] == [];
    for i := 0 to |rows|
      invariant Folded(rows[..i], [], keys, table, models)
    {
      keys, table, models := AddSummary(rows[..i], rows[i], keys, table, models);
      assert rows[..i + 1] == rows[..i] + [rows[i]];
    }
    assert rows[..|rows|] == rows;
  }

  /** The loop over the events, after the summaries. */
  method FoldEvents(rows: seq<DailyUserSummary>, events: seq<UsageEvent>,
                    keys0: seq<string>, table0: map<string, UserTotals>, models0: Counter)
    returns (keys: seq<string>, table: map<string, UserTotals>, models: Counter)
    requires Folded(rows, [], keys0, table0, models0)
    ensures Folded(rows, events, keys, table, models)
  {
    keys, table, models := keys0, table0, models0;
    assert events[..0] == [];
    for j := 0 to |events|
      invariant Folded(rows, events[..j], keys, table, models)
    {
      keys, table, models := AddEvent(rows, events[..j], events[j], keys, table, models);
      assert events[..j + 1] == events[..j] + [events[j]];
    }
    assert events[..|events|] == events;
  }

  /** The body of the loop over the summaries, for row `s`. */
  method AddSummary(ghost done: seq<DailyUserSummary>, s: DailyUserSummary,
                    keys0: seq<string>, table0: map<string, UserTotals>, models0: Counter)
    returns (keys: seq<string>, table: map<string, UserTotals>, models: Counter)
    requires Folded(done, [], keys0, table0, models0)
    ensures Folded(done + [s], [], keys, table, models)
  {
    keys, table, models := keys0, table0, models0;
    SummaryEntriesAppend(done, s);
    assert DayEntries(done, []) == SummaryEntries(done);
    assert DayEntries(done + [s], []) == SummaryEntries(done + [s]);
    assert DayModels(done, []) == SummaryModels(done);
    assert DayModels(done + [s], []) == SummaryModels(done + [s]);
    var email := OrElse(s.email, Unknown);
    var ut: UserTotals;
    if email !in table {
      ut := UserTotals(email := email, isActive := s.isActive);
      keys := keys + [email];
      UnseenUser(done, [], email);
    } else {
      ut := table[email];
      ut := ut.(isActive := ut.isActive || s.isActive);
    }
    ut := ut.(usage := Plus(ut.usage, SummaryUsage(s)));
    if Truthy(s.mostUsedModel) {
      ut := ut.(mostUsedModel := s.mostUsedModel);
      models := Bump(models, s.mostUsedModel.value);
      assert SummaryModels(done + [s]) == SummaryModels(done) + [s.mostUsedModel.value];
      TallyAppend(SummaryModels(done), s.mostUsedModel.value);
    } else {
      assert SummaryModels(done + [s]) == SummaryModels(done);
    }
    table := table[email := ut];
    forall k | k in table
      ensures table[k] == UserOf(done + [s], [], k)
    {
      SummaryStep(done, s, k);
    }
  }

  /** The day's model counter after event `e`: its model, when it has one, counted once more. */
  method CountEventModel(ghost rows: seq<DailyUserSummary>, ghost done: seq<UsageEvent>, e: UsageEvent, models0: Counter)
    returns (models: Counter)
    requires models0 == Tally.Tally(DayModels(rows, done))
    ensures models == Tally.Tally(DayModels(rows, done + [e]))
  {
    models := models0;
    assert (done + [e])[..|done|] == done;
    if Truthy(e.model) {
      models := Bump(models, e.model.value);
      assert EventModels(done + [e]) == EventModels(done) + [e.model.value];
      assert DayModels(rows, done + [e]) == DayModels(rows, done) + [e.model.value];
      TallyAppend(DayModels(rows, done), e.model.value);
    } else {
      assert EventModels(done + [e]) == EventModels(done);
      assert DayModels(rows, done + [e]) == DayModels(rows, done);
    }
  }

  /** The totals of the user of event `e` after the event. */
  method FoldEvent(ghost rows: seq<DailyUserSummary>, ghost done: seq<UsageEvent>, e: UsageEvent, ut0: UserTotals)
    returns (ut: UserTotals)
    requires ut0 == UserOf(rows, done, EventKey(e))
    ensures ut == UserOf(rows, done + [e], EventKey(e))
  {
    ut := ut0;
    if Truthy(e.model) {
      ut := ut.(mostUsedModel := if Truthy(ut.mostUsedModel) then ut.mostUsedModel else e.model);
    }
    if e.tokenUsage.Some? {
      var t := e.tokenUsage.value;
      ut := ut.(usage := Plus(ut.usage, TokenUsage(t)));
    }
    EventStep(rows, done, e, EventKey(e));
  }

  /** Event `e` changes the totals of its own user only. */
  lemma TableStep(rows: seq<DailyUserSummary>, done: seq<UsageEvent>, e: UsageEvent,
                  table: map<string, UserTotals>, ut: UserTotals)
    requires forall k :: k in table ==> table[k] == UserOf(rows, done, k)
    requires ut == UserOf(rows, done + [e], EventKey(e))
    ensures forall k :: k in table[EventKey(e) := ut] ==> table[EventKey(e) := ut][k] == UserOf(rows, done + [e], k)
  {
    forall k | k in table && k != EventKey(e)
      ensures table[k] == UserOf(rows, done + [e], k)
    {
      EventStep(rows, done, e, k);
    }
  }

  /** The body of the loop over the events, for event `e`. */
  method AddEvent(ghost rows: seq<DailyUserSummary>, ghost done: seq<UsageEvent>, e: UsageEvent,
                  keys0: seq<string>, table0: map<string, UserTotals>, models0: Counter)
    returns (keys: seq<string>, table: map<string, UserTotals>, models: Counter)
    requires Folded(rows, done, keys0, table0, models0)
    ensures Folded(rows, done + [e], keys, table, models)
  {
    keys, table, models := keys0, table0, models0;
    EventEntriesAppend(rows, done, e);
    var email := OrElse(e.userEmail, Unknown);
    var ut: UserTotals;
    if email !in table {
      ut := UserTotals(email := email, isActive := true);
      keys := keys + [email];
      UnseenUser(rows, done, email);
    } else {
      ut := table[email];
    }
    models := CountEventModel(rows, done, e, models);
    ut := FoldEvent(rows, done, e, ut);
    TableStep(rows, done, e, table, ut);
    table := table[email := ut];
  }

  /** The organisation loop: counters summed over the users, active users counted. */
  method OrgTotalsOf(users: seq<UserTotals>, models: Counter, ghost observations: seq<string>)
    returns (t: OrgTotals)
    requires Tallies(models, observations)
    ensures t.usage == SumUsers(users)
    ensures t.totalActiveUsers == CountActive(users)
    ensures IsMostCommon(observations, t.mostUsedModel)
  {
    t := OrgTotals();
    for i := 0 to |users|
      invariant t.usage == SumUsers(users[..i])
      invariant t.totalActiveUsers == CountActive(users[..i])
      invariant t.mostUsedModel.None?
    {
      var ut := users[i];
      assert users[..i + 1][..i] == users[..i];
      t := t.(usage := Plus(t.usage, ut.usage));
      if ut.isActive {
        t := t.(totalActiveUsers := t.totalActiveUsers + 1);
      }
    }
    assert users[..|users|] == users;
    var best := MostCommonOf(models, observations);
    t := t.(mostUsedModel := best);
  }

  /**
   * `aggregate_daily`: one user record per distinct e-mail in first-seen
   * order, and the organisation record whose counters are the sums over
   * every summary row and every event of the day.
   */
  method AggregateDaily(org: string, dateMs: int, summaries: seq<DailyUserSummary>, events: seq<UsageEvent>)
    returns (orgRecord: OrgRecord, userRecords: seq<UserRecord>)
    requires InDatetimeRange(dateMs)
    ensures var users := DayUsers(summaries, events);
      && |userRecords| == |users|
      && forall i :: 0 <= i < |users| ==> userRecords[i] == UserRecord(
           identifier := KeyedIdentifier(CursorNs, org, users[i].email, dateMs),
           org := org,
           recordDateIso := EpochMsDayToIsoUtc(dateMs),
           totals := users[i])
    ensures orgRecord.identifier == OrgIdentifier(org, dateMs)
    ensures orgRecord.org == org && orgRecord.recordDateIso == EpochMsDayToIsoUtc(dateMs)
    ensures orgRecord.breakdown == UsersBreakdown(DayUsers(summaries, events))
    ensures orgRecord.totals.usage == Total(DayEntries(summaries, events))
    ensures orgRecord.totals.totalActiveUsers == |ActiveUsers(summaries, events)|
    ensures IsMostCommon(DayModels(summaries, events), orgRecord.totals.mostUsedModel)
  {
    var keys, table, models := FoldUsers(summaries, events);
    var users := seq(|keys|, i requires 0 <= i < |keys| => table[keys[i]]);
    assert users == DayUsers(summaries, events);
    var totals := DayOrgTotals(summaries, events, users, models);

    var dateIso := EpochMsDayToIsoUtc(dateMs);
    var orgIdentifier := CursorNs + ":" + org + ":" + dateIso[..10];
    orgRecord := OrgRecord(
      identifier := orgIdentifier,
      org := org,
      recordDateIso := dateIso,
      totals := totals,
      breakdown := UsersBreakdown(users));
    userRecords := UserRecordsOf(org, dateMs, users);
  }

  /**
   * The organisation totals of the day: the counters of every row and event,
   * the number of active users, the most common model.
   */
  method DayOrgTotals(ghost rows: seq<DailyUserSummary>, ghost events: seq<UsageEvent>,
                      users: seq<UserTotals>, models: Counter)
    returns (t: OrgTotals)
    requires users == DayUsers(rows, events)
    requires models == Tally.Tally(DayModels(rows, events))
    ensures t.usage == SumUsers(users) == Total(DayEntries(rows, events))
    ensures t.totalActiveUsers == |ActiveUsers(rows, events)|
    ensures IsMostCommon(DayModels(rows, events), t.mostUsedModel)
  {
    TallyCounts(DayModels(rows, events));
    t := OrgTotalsOf(users, models, DayModels(rows, events));
    OrgUsageIsRowTotal(rows, events, users);
    ActiveCountIsActiveUsers(rows, events, users);
  }

  /** The final loop: one record per user, under `cursor:<org>:<email>:<day>`. */
  method UserRecordsOf(org: string, dateMs: int, users: seq<UserTotals>) returns (records: seq<UserRecord>)
    requires InDatetimeRange(dateMs)
    ensures |records| == |users|
    ensures forall i :: 0 <= i < |users| ==> records[i] == UserRecord(
      identifier := KeyedIdentifier(CursorNs, org, users[i].email, dateMs),
      org := org,
      recordDateIso := EpochMsDayToIsoUtc(dateMs),
      totals := users[i])
  {
    var dateIso := EpochMsDayToIsoUtc(dateMs);
    records := [];
    for i := 0 to |users|
      invariant |records| == i
      invariant forall j :: 0 <= j < i ==> records[j] == UserRecord(
        identifier := KeyedIdentifier(CursorNs, org, users[j].email, dateMs),
        org := org,
        recordDateIso := dateIso,
        totals := users[j])
    {
      var ut := users[i];
      var userId := CursorNs + ":" + org + ":" + ut.email + ":" + dateIso[..10];
      records := records + [UserRecord(
        identifier := userId,
        org := org,
        recordDateIso := dateIso,
        totals := ut)];
    }
  }

  /**
   * Sum invariant: the users' counters add up to the counters of every
   * summary row and every event of the day.
   */
  lemma OrgUsageIsRowTotal(rows: seq<DailyUserSummary>, events: seq<UsageEvent>, users: seq<UserTotals>)
    requires users == DayUsers(rows, events)
    ensures SumUsers(users) == Total(DayEntries(rows, events))
  {
    SumUsersOverKeys(users, UserKeys(rows, events), DayEntries(rows, events));
    GroupedTotal(DayEntries(rows, events));
  }

  /**
   * Counting the active users one by one counts each active e-mail once:
   * the users' e-mails are distinct.
   */
  lemma ActiveCountIsActiveUsers(rows: seq<DailyUserSummary>, events: seq<UsageEvent>, users: seq<UserTotals>)
    requires users == DayUsers(rows, events)
    ensures CountActive(users) == |ActiveUsers(rows, events)|
  {
    var keys := UserKeys(rows, events);
    ActiveCountOfDistinct(users);
    forall k
      ensures k in ActiveUsers(rows, events) <==> k in ActiveEmails(users)
    {
      ActiveEmailsMembers(users, k);
      if k in ActiveUsers(rows, events) {
        var i :| 0 <= i < |keys| && keys[i] == k;
        assert users[i].email == k;
      }
    }
    assert ActiveUsers(rows, events) == ActiveEmails(users);
  }

  /** The e-mails of the active users in a sequence of totals. */
  ghost function ActiveEmails(users: seq<UserTotals>): set<string> {
    if users == [] then {}
    else ActiveEmails(users[..|users| - 1]) + if users[|users| - 1].isActive then {users[|users| - 1].email} else {}
  }

  lemma {:induction false} ActiveEmailsMembers(users: seq<UserTotals>, x: string)
    ensures x in ActiveEmails(users) <==> exists i :: 0 <= i < |users| && users[i].isActive && users[i].email == x
  {
    if users != [] {
      var n := |users| - 1;
      var init := users[..n];
      ActiveEmailsMembers(init, x);
      if x in ActiveEmails(init) {
        var i :| 0 <= i < n && init[i].isActive && init[i].email == x;
        assert users[i] == init[i];
      }
      if exists i :: 0 <= i < |users| && users[i].isActive && users[i].email == x {
        var i :| 0 <= i < |users| && users[i].isActive && users[i].email == x;
        if i < n {
          assert init[i] == users[i];
        }
      }
    }
  }

  lemma {:induction false} ActiveCountOfDistinct(users: seq<UserTotals>)
    requires forall i, j :: 0 <= i < j < |users| ==> users[i].email != users[j].email
    ensures CountActive(users) == |ActiveEmails(users)|
  {
    if users != [] {
      var n := |users| - 1;
      var init := users[..n];
      assert forall i :: 0 <= i < n ==> init[i] == users[i];
      ActiveCountOfDistinct(init);
      ActiveEmailsMembers(init, users[n].email);
      assert users[n].email !in ActiveEmails(init);
      if users[n].isActive {
        assert ActiveEmails(users) == ActiveEmails(init) + {users[n].email};
      } else {
        assert ActiveEmails(users) == ActiveEmails(init);
      }
    }
  }
}

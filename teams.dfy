/**
 * `aggregate_teams`: regroups one day's user records by team through an
 * e-mail to team mapping (src/aggregate.py:147-224). Users without a
 * mapping go to the team "unknown" and are also reported by e-mail.
 */
module Teams {
  import opened Wrappers
  import opened Tally
  import opened Models
  import opened Ledger
  import opened Dates
  import Grouping

  /** `email_to_team.get(email, "unknown")`. */
  function TeamOf(r: UserRecord, emailToTeam: map<string, string>): string {
    if r.totals.email in emailToTeam then emailToTeam[r.totals.email] else Unknown
  }

  /** Each user's counters, filed under its team. */
  function TeamEntries(records: seq<UserRecord>, emailToTeam: map<string, string>): Entries {
    seq(|records|, i requires 0 <= i < |records| => (TeamOf(records[i], emailToTeam), records[i].totals.usage))
  }

  /** The teams in the order their first member appears. */
  function TeamKeys(records: seq<UserRecord>, emailToTeam: map<string, string>): seq<string> {
    Distinct(KeysOf(TeamEntries(records, emailToTeam)))
  }

  /** The identifiers of the members of `team`, in input order. */
  function MembersOf(records: seq<UserRecord>, emailToTeam: map<string, string>, team: string): seq<string> {
    if records == [] then []
    else
      var r := records[|records| - 1];
      MembersOf(records[..|records| - 1], emailToTeam, team) +
        if TeamOf(r, emailToTeam) == team then [r.identifier] else []
  }

  /** The number of active members of `team`. */
  function ActiveMembers(records: seq<UserRecord>, emailToTeam: map<string, string>, team: string): nat {
    if records == [] then 0
    else
      var r := records[|records| - 1];
      ActiveMembers(records[..|records| - 1], emailToTeam, team) +
        if TeamOf(r, emailToTeam) == team && r.totals.isActive then 1 else 0
  }

  /** The models of the members of `team` that have one, in input order. */
  function MemberModels(records: seq<UserRecord>, emailToTeam: map<string, string>, team: string): seq<string> {
    if records == [] then []
    else
      var r := records[|records| - 1];
      MemberModels(records[..|records| - 1], emailToTeam, team) +
        if TeamOf(r, emailToTeam) == team && Truthy(r.totals.mostUsedModel) then [r.totals.mostUsedModel.value] else []
  }

  /** The e-mails without a team mapping, in input order, repeats kept. */
  function Unmapped(records: seq<UserRecord>, emailToTeam: map<string, string>): seq<string> {
    if records == [] then []
    else
      var r := records[|records| - 1];
      Unmapped(records[..|records| - 1], emailToTeam) +
        if r.totals.email !in emailToTeam then [r.totals.email] else []
  }

  /** The totals of `team` before its most used model is chosen. */
  ghost function PartialTeam(records: seq<UserRecord>, emailToTeam: map<string, string>, team: string): TeamTotals {
    TeamTotals(
      team := team,
      usage := UsageFor(TeamEntries(records, emailToTeam), team),
      totalActiveUsers := ActiveMembers(records, emailToTeam, team))
  }

  /**
   * The record of `team`: its identifier `cursor:<org>:<team>:<day>`, the sum
   * of its members' counters, its active members, its most common member
   * model, and its members' identifiers as the breakdown.
   */
  ghost predicate IsTeamRecord(org: string, dateMs: int, records: seq<UserRecord>, emailToTeam: map<string, string>,
                               team: string, tr: TeamRecord)
    requires InDatetimeRange(dateMs)
  {
    && tr.identifier == KeyedIdentifier(CursorNs, org, team, dateMs)
    && tr.org == org && tr.team == team && tr.recordDateIso == EpochMsDayToIsoUtc(dateMs)
    && tr.totals.team == team
    && tr.totals.usage == UsageFor(TeamEntries(records, emailToTeam), team)
    && tr.totals.totalActiveUsers == ActiveMembers(records, emailToTeam, team)
    && IsMostCommon(MemberModels(records, emailToTeam, team), tr.totals.mostUsedModel)
    && tr.breakdown == MembersBreakdown(MembersOf(records, emailToTeam, team))
  }

  /** Each team's running totals are those of its members so far. */
  ghost predicate TotalsAgree(records: seq<UserRecord>, emailToTeam: map<string, string>, totals: map<string, TeamTotals>) {
    forall t :: t in totals ==> totals[t] == PartialTeam(records, emailToTeam, t)
  }

  /** Each team's model counter tallies its members' models so far. */
  ghost predicate CountsAgree(records: seq<UserRecord>, emailToTeam: map<string, string>, counts: map<string, Counter>) {
    forall t :: t in counts ==> counts[t] == Tally.Tally(MemberModels(records, emailToTeam, t))
  }

  /** Each team's member list holds its members so far. */
  ghost predicate MembersAgree(records: seq<UserRecord>, emailToTeam: map<string, string>, members: map<string, seq<string>>) {
    forall t :: t in members ==> members[t] == MembersOf(records, emailToTeam, t)
  }

  /** `trs` holds the records of the first `n` teams of `teams`, in that order. */
  ghost predicate TeamRecordsUpTo(org: string, dateMs: int, records: seq<UserRecord>, emailToTeam: map<string, string>,
                                  teams: seq<string>, n: nat, trs: seq<TeamRecord>)
    requires InDatetimeRange(dateMs)
  {
    && n == |trs| <= |teams|
    && forall i :: 0 <= i < n ==> IsTeamRecord(org, dateMs, records, emailToTeam, teams[i], trs[i])
  }

  lemma TeamRecordsAppend(org: string, dateMs: int, records: seq<UserRecord>, emailToTeam: map<string, string>,
                          teams: seq<string>, n: nat, trs: seq<TeamRecord>, tr: TeamRecord)
    requires InDatetimeRange(dateMs)
    requires TeamRecordsUpTo(org, dateMs, records, emailToTeam, teams, n, trs) && n < |teams|
    requires IsTeamRecord(org, dateMs, records, emailToTeam, teams[n], tr)
    ensures TeamRecordsUpTo(org, dateMs, records, emailToTeam, teams, n + 1, trs + [tr])
  {
  }

  /** The state of the first loop after the records `records`. */
  ghost predicate Grouped(records: seq<UserRecord>, emailToTeam: map<string, string>,
                          keys: seq<string>, totals: map<string, TeamTotals>, counts: map<string, Counter>,
                          members: map<string, seq<string>>, unmapped: seq<string>)
  {
    && keys == TeamKeys(records, emailToTeam)
    && (forall t :: t in totals <==> t in keys)
    && (forall t :: t in counts <==> t in keys)
    && (forall t :: t in members <==> t in keys)
    && TotalsAgree(records, emailToTeam, totals)
    && CountsAgree(records, emailToTeam, counts)
    && MembersAgree(records, emailToTeam, members)
    && unmapped == Unmapped(records, emailToTeam)
  }

  lemma TeamEntriesAppend(records: seq<UserRecord>, emailToTeam: map<string, string>, r: UserRecord)
    ensures TeamEntries(records + [r], emailToTeam) ==
      TeamEntries(records, emailToTeam) + [(TeamOf(r, emailToTeam), r.totals.usage)]
    ensures KeysOf(TeamEntries(records + [r], emailToTeam)) ==
      KeysOf(TeamEntries(records, emailToTeam)) + [TeamOf(r, emailToTeam)]
    ensures (records + [r])[..|records|] == records
  {
    assert KeysOf(TeamEntries(records + [r], emailToTeam)) ==
      KeysOf(TeamEntries(records, emailToTeam) + [(TeamOf(r, emailToTeam), r.totals.usage)]);
  }

  lemma UnmappedAppend(records: seq<UserRecord>, emailToTeam: map<string, string>, r: UserRecord)
    ensures Unmapped(records + [r], emailToTeam) ==
      Unmapped(records, emailToTeam) + if r.totals.email !in emailToTeam then [r.totals.email] else []
  {
    assert (records + [r])[..|records|] == records;
  }

  /** A team no record belongs to has no members, no activity and no models. */
  lemma {:induction false} UnseenTeam(records: seq<UserRecord>, emailToTeam: map<string, string>, team: string)
    requires team !in KeysOf(TeamEntries(records, emailToTeam))
    ensures UsageFor(TeamEntries(records, emailToTeam), team) == Zero
    ensures ActiveMembers(records, emailToTeam, team) == 0
    ensures MemberModels(records, emailToTeam, team) == []
    ensures MembersOf(records, emailToTeam, team) == []
  {
    UsageForAbsent(TeamEntries(records, emailToTeam), team);
    if records != [] {
      var n := |records| - 1;
      TeamEntriesAppend(records[..n], emailToTeam, records[n]);
      assert records[..n] + [records[n]] == records;
      UnseenTeam(records[..n], emailToTeam, team);
    }
  }

  /** One more record changes only what is filed under its own team. */
  lemma MemberStep(done: seq<UserRecord>, r: UserRecord, emailToTeam: map<string, string>, t: string)
    ensures var mine := TeamOf(r, emailToTeam) == t;
      && UsageFor(TeamEntries(done + [r], emailToTeam), t) ==
           (if mine then Plus(UsageFor(TeamEntries(done, emailToTeam), t), r.totals.usage)
            else UsageFor(TeamEntries(done, emailToTeam), t))
      && ActiveMembers(done + [r], emailToTeam, t) ==
           ActiveMembers(done, emailToTeam, t) + (if mine && r.totals.isActive then 1 else 0)
      && MemberModels(done + [r], emailToTeam, t) ==
           MemberModels(done, emailToTeam, t) +
             (if mine && Truthy(r.totals.mostUsedModel) then [r.totals.mostUsedModel.value] else [])
      && MembersOf(done + [r], emailToTeam, t) ==
           MembersOf(done, emailToTeam, t) + (if mine then [r.identifier] else [])
  {
    TeamEntriesAppend(done, emailToTeam, r);
    UsageForAppend(TeamEntries(done, emailToTeam), TeamOf(r, emailToTeam), r.totals.usage, t);
  }

  /** Storing the new totals of the record's own team keeps the others in agreement. */
  lemma TotalsStep(done: seq<UserRecord>, r: UserRecord, emailToTeam: map<string, string>,
                   totals: map<string, TeamTotals>, tt: TeamTotals)
    requires TotalsAgree(done, emailToTeam, totals)
    requires tt == PartialTeam(done + [r], emailToTeam, TeamOf(r, emailToTeam))
    ensures TotalsAgree(done + [r], emailToTeam, totals[TeamOf(r, emailToTeam) := tt])
  {
    forall t | t in totals && t != TeamOf(r, emailToTeam)
      ensures totals[t] == PartialTeam(done + [r], emailToTeam, t)
    {
      MemberStep(done, r, emailToTeam, t);
    }
  }

  /** Storing the new counter of the record's own team keeps the others in agreement. */
  lemma CountsStep(done: seq<UserRecord>, r: UserRecord, emailToTeam: map<string, string>,
                   counts: map<string, Counter>, c: Counter)
    requires CountsAgree(done, emailToTeam, counts)
    requires c == Tally.Tally(MemberModels(done + [r], emailToTeam, TeamOf(r, emailToTeam)))
    ensures CountsAgree(done + [r], emailToTeam, counts[TeamOf(r, emailToTeam) := c])
  {
    forall t | t in counts && t != TeamOf(r, emailToTeam)
      ensures counts[t] == Tally.Tally(MemberModels(done + [r], emailToTeam, t))
    {
      MemberStep(done, r, emailToTeam, t);
      assert MemberModels(done + [r], emailToTeam, t) == MemberModels(done, emailToTeam, t);
    }
  }

  /** Storing the new member list of the record's own team keeps the others in agreement. */
  lemma MembersStep(done: seq<UserRecord>, r: UserRecord, emailToTeam: map<string, string>,
                    members: map<string, seq<string>>, ms: seq<string>)
    requires MembersAgree(done, emailToTeam, members)
    requires ms == MembersOf(done + [r], emailToTeam, TeamOf(r, emailToTeam))
    ensures MembersAgree(done + [r], emailToTeam, members[TeamOf(r, emailToTeam) := ms])
  {
    forall t | t in members && t != TeamOf(r, emailToTeam)
      ensures members[t] == MembersOf(done + [r], emailToTeam, t)
    {
      MemberStep(done, r, emailToTeam, t);
      assert MembersOf(done + [r], emailToTeam, t) == MembersOf(done, emailToTeam, t);
    }
  }

  /**
   * The team of user record `r` and what the first loop holds for it so
   * far: a team seen for the first time is appended to the team order and
   * starts from fresh totals, an empty counter and no members.
   */
  method OpenTeam(ghost done: seq<UserRecord>, r: UserRecord, emailToTeam: map<string, string>,
                  keys0: seq<string>, totals0: map<string, TeamTotals>, counts0: map<string, Counter>,
                  members0: map<string, seq<string>>, ghost unmapped0: seq<string>)
    returns (team: string, keys: seq<string>, tt: TeamTotals, count: Counter, ms: seq<string>)
    requires Grouped(done, emailToTeam, keys0, totals0, counts0, members0, unmapped0)
    ensures team == TeamOf(r, emailToTeam)
    ensures keys == TeamKeys(done + [r], emailToTeam)
    ensures keys == if team in keys0 then keys0 else keys0 + [team]
    ensures tt == PartialTeam(done, emailToTeam, team)
    ensures count == Tally.Tally(MemberModels(done, emailToTeam, team))
    ensures ms == MembersOf(done, emailToTeam, team)
  {
    TeamEntriesAppend(done, emailToTeam, r);
    team := if r.totals.email in emailToTeam then emailToTeam[r.totals.email] else Unknown;
    assert team == TeamOf(r, emailToTeam);
    ghost var ks := KeysOf(TeamEntries(done, emailToTeam));
    DistinctAppend(ks, team);
    if team in totals0 {
      assert team in keys0;
      keys, tt, count, ms := keys0, totals0[team], counts0[team], members0[team];
    } else {
      assert team !in ks;
      UnseenTeam(done, emailToTeam, team);
      keys, tt, count, ms := keys0 + [team], TeamTotals(team := team), EmptyCounter(), [];
    }
  }

  /** Adds user record `r` to the totals, model counter and members of its team. */
  method FoldMember(ghost done: seq<UserRecord>, r: UserRecord, ghost emailToTeam: map<string, string>, ghost team: string,
                    tt0: TeamTotals, count0: Counter, ms0: seq<string>)
    returns (tt: TeamTotals, count: Counter, ms: seq<string>)
    requires team == TeamOf(r, emailToTeam)
    requires tt0 == PartialTeam(done, emailToTeam, team)
    requires count0 == Tally.Tally(MemberModels(done, emailToTeam, team))
    requires ms0 == MembersOf(done, emailToTeam, team)
    ensures tt == PartialTeam(done + [r], emailToTeam, team)
    ensures count == Tally.Tally(MemberModels(done + [r], emailToTeam, team))
    ensures ms == MembersOf(done + [r], emailToTeam, team)
  {
    tt, count := tt0, count0;
    ms := ms0 + [r.identifier];
    if r.totals.isActive {
      tt := tt.(totalActiveUsers := tt.totalActiveUsers + 1);
    }
    tt := tt.(usage := Plus(tt.usage, r.totals.usage));
    MemberStep(done, r, emailToTeam, team);
    if Truthy(r.totals.mostUsedModel) {
      TallyAppend(MemberModels(done, emailToTeam, team), r.totals.mostUsedModel.value);
      count := Bump(count, r.totals.mostUsedModel.value);
    } else {
      assert MemberModels(done + [r], emailToTeam, team) == MemberModels(done, emailToTeam, team);
    }
  }

  /**
   * The body of the first loop, for user record `r`. A team seen for the first
   * time starts from fresh totals, an empty counter and no members.
   */
  method AddMember(ghost done: seq<UserRecord>, r: UserRecord, emailToTeam: map<string, string>,
                   keys0: seq<string>, totals0: map<string, TeamTotals>, counts0: map<string, Counter>,
                   members0: map<string, seq<string>>, unmapped0: seq<string>)
    returns (keys: seq<string>, totals: map<string, TeamTotals>, counts: map<string, Counter>,
             members: map<string, seq<string>>, unmapped: seq<string>)
    requires Grouped(done, emailToTeam, keys0, totals0, counts0, members0, unmapped0)
    ensures Grouped(done + [r], emailToTeam, keys, totals, counts, members, unmapped)
  {
    TeamEntriesAppend(done, emailToTeam, r);
    UnmappedAppend(done, emailToTeam, r);
    unmapped := unmapped0;
    if r.totals.email !in emailToTeam {
      unmapped := unmapped + [r.totals.email];
    }
    var team, tt0, count0, ms0;
    team, keys, tt0, count0, ms0 := OpenTeam(done, r, emailToTeam, keys0, totals0, counts0, members0, unmapped0);
    var tt, count, ms := FoldMember(done, r, emailToTeam, team, tt0, count0, ms0);
    TotalsStep(done, r, emailToTeam, totals0, tt);
    CountsStep(done, r, emailToTeam, counts0, count);
    MembersStep(done, r, emailToTeam, members0, ms);
    totals, counts, members := totals0[team := tt], counts0[team := count], members0[team := ms];
  }

  /**
   * `aggregate_teams`: one record per team in the order its first member
   * appears, and the e-mails that have no team.
   */
  method AggregateTeams(org: string, dateMs: int, userRecords: seq<UserRecord>, emailToTeam: map<string, string>)
    returns (teamRecords: seq<TeamRecord>, unmapped: seq<string>)
    requires InDatetimeRange(dateMs)
    ensures unmapped == Unmapped(userRecords, emailToTeam)
    ensures var teams := TeamKeys(userRecords, emailToTeam);
      TeamRecordsUpTo(org, dateMs, userRecords, emailToTeam, teams, |teams|, teamRecords)
  {
    var keys, totals, counts, members;
    keys, totals, counts, members, unmapped := GroupByTeam(userRecords, emailToTeam);
    teamRecords := TeamRecordsOf(org, dateMs, userRecords, emailToTeam, keys, totals, counts, members);
  }

  /** Before the first record, no team has been seen. */
  lemma GroupedEmpty(emailToTeam: map<string, string>)
    ensures Grouped([], emailToTeam, [], map[], map[], map[], [])
  {
    assert TeamEntries([], emailToTeam) == [];
  }

  /** The first loop: every user's counters added to its team's. */
  method GroupByTeam(userRecords: seq<UserRecord>, emailToTeam: map<string, string>)
    returns (keys: seq<string>, totals: map<string, TeamTotals>, counts: map<string, Counter>,
             members: map<string, seq<string>>, unmapped: seq<string>)
    ensures Grouped(userRecords, emailToTeam, keys, totals, counts, members, unmapped)
  {
    keys, totals, counts, members, unmapped := [], map[], map[], map[], [];
    GroupedEmpty(emailToTeam);
    for i := 0 to |userRecords|
      invariant Grouped(userRecords[..i], emailToTeam, keys, totals, counts, members, unmapped)
    {
      keys, totals, counts, members, unmapped :=
        AddMember(userRecords[..i], userRecords[i], emailToTeam, keys, totals, counts, members, unmapped);
      Grouping.PrefixStep(userRecords, i);
    }
    Grouping.PrefixStep(userRecords, |userRecords|);
  }

  /** The second loop: one record per team, its most used model chosen. */
  method TeamRecordsOf(org: string, dateMs: int, ghost records: seq<UserRecord>, ghost emailToTeam: map<string, string>,
                       keys: seq<string>, totals: map<string, TeamTotals>, counts: map<string, Counter>,
                       members: map<string, seq<string>>)
    returns (teamRecords: seq<TeamRecord>)
    requires InDatetimeRange(dateMs)
    requires Grouped(records, emailToTeam, keys, totals, counts, members, Unmapped(records, emailToTeam))
    ensures TeamRecordsUpTo(org, dateMs, records, emailToTeam, keys, |keys|, teamRecords)
  {
    teamRecords := [];
    for i := 0 to |keys|
      invariant TeamRecordsUpTo(org, dateMs, records, emailToTeam, keys, i, teamRecords)
    {
      var team := keys[i];
      assert team in totals && team in counts && team in members;
      var tr := TeamRecordOf(org, dateMs, records, emailToTeam, team, totals[team], counts[team], members[team]);
      TeamRecordsAppend(org, dateMs, records, emailToTeam, keys, i, teamRecords, tr);
      teamRecords := teamRecords + [tr];
    }
  }

  /** One iteration of the second loop, for `team`. */
  method TeamRecordOf(org: string, dateMs: int, ghost records: seq<UserRecord>, ghost emailToTeam: map<string, string>,
                      team: string, tt0: TeamTotals, count: Counter, members: seq<string>)
    returns (tr: TeamRecord)
    requires InDatetimeRange(dateMs)
    requires tt0 == PartialTeam(records, emailToTeam, team)
    requires count == Tally.Tally(MemberModels(records, emailToTeam, team))
    requires members == MembersOf(records, emailToTeam, team)
    ensures IsTeamRecord(org, dateMs, records, emailToTeam, team, tr)
  {
    var tt := tt0;
    ghost var models := MemberModels(records, emailToTeam, team);
    TallyCounts(models);
    if |count.keys| > 0 {
      var best := MostCommonOf(count, models);
      tt := tt.(mostUsedModel := best);
    } else {
      assert models == [];
    }
    var dateIso := EpochMsDayToIsoUtc(dateMs);
    var identifier := CursorNs + ":" + org + ":" + team + ":" + dateIso[..10];
    tr := TeamRecord(
      identifier := identifier,
      org := org,
      team := team,
      recordDateIso := dateIso,
      totals := tt,
      breakdown := MembersBreakdown(members));
  }

  /** An identifier is listed under `team` exactly when a record with that identifier belongs to `team`. */
  lemma {:induction false} MembersOfIff(records: seq<UserRecord>, emailToTeam: map<string, string>, team: string, x: string)
    ensures x in MembersOf(records, emailToTeam, team) <==>
      exists i :: 0 <= i < |records| && records[i].identifier == x && TeamOf(records[i], emailToTeam) == team
  {
    if records != [] {
      var n := |records| - 1;
      var init := records[..n];
      MembersOfIff(init, emailToTeam, team, x);
      if x in MembersOf(records, emailToTeam, team) {
        if x in MembersOf(init, emailToTeam, team) {
          var i :| 0 <= i < |init| && init[i].identifier == x && TeamOf(init[i], emailToTeam) == team;
          assert records[i] == init[i];
        } else {
          assert records[n].identifier == x && TeamOf(records[n], emailToTeam) == team;
        }
      }
      if exists i :: 0 <= i < |records| && records[i].identifier == x && TeamOf(records[i], emailToTeam) == team {
        var i :| 0 <= i < |records| && records[i].identifier == x && TeamOf(records[i], emailToTeam) == team;
        if i < n {
          assert init[i] == records[i];
        }
      }
    }
  }

  /** The unmapped e-mails are exactly the record e-mails missing from the mapping. */
  lemma {:induction false} UnmappedIff(records: seq<UserRecord>, emailToTeam: map<string, string>, e: string)
    ensures e in Unmapped(records, emailToTeam) <==>
      e !in emailToTeam && exists i :: 0 <= i < |records| && records[i].totals.email == e
  {
    if records != [] {
      var n := |records| - 1;
      var init := records[..n];
      UnmappedIff(init, emailToTeam, e);
      if e in Unmapped(records, emailToTeam) && e in Unmapped(init, emailToTeam) {
        var i :| 0 <= i < |init| && init[i].totals.email == e;
        assert records[i] == init[i];
      }
      if e !in emailToTeam && exists i :: 0 <= i < |records| && records[i].totals.email == e {
        var i :| 0 <= i < |records| && records[i].totals.email == e;
        if i < n {
          assert init[i] == records[i];
        }
      }
    }
  }

  /** A team never has more active members than members. */
  lemma {:induction false} ActiveAtMostMembers(records: seq<UserRecord>, emailToTeam: map<string, string>, team: string)
    ensures ActiveMembers(records, emailToTeam, team) <= |MembersOf(records, emailToTeam, team)|
  {
    if records != [] {
      ActiveAtMostMembers(records[..|records| - 1], emailToTeam, team);
    }
  }

  /** The counters of the users behind `records`. */
  function UserTotalsOf(records: seq<UserRecord>): (users: seq<UserTotals>)
    ensures |users| == |records|
  {
    seq(|records|, i requires 0 <= i < |records| => records[i].totals)
  }

  /** The sum of the counters of a sequence of team records. */
  function SumTeams(trs: seq<TeamRecord>): UsageCounts {
    if trs == [] then Zero else Plus(SumTeams(trs[..|trs| - 1]), trs[|trs| - 1].totals.usage)
  }

  lemma {:induction false} TeamEntriesTotal(records: seq<UserRecord>, emailToTeam: map<string, string>)
    ensures Total(TeamEntries(records, emailToTeam)) == SumUsers(UserTotalsOf(records))
  {
    if records != [] {
      var n := |records| - 1;
      TeamEntriesAppend(records[..n], emailToTeam, records[n]);
      assert records[..n] + [records[n]] == records;
      assert UserTotalsOf(records)[..n] == UserTotalsOf(records[..n]);
      TeamEntriesTotal(records[..n], emailToTeam);
    }
  }

  lemma {:induction false} SumTeamsOverKeys(org: string, dateMs: int, records: seq<UserRecord>,
                                            emailToTeam: map<string, string>, teams: seq<string>, trs: seq<TeamRecord>)
    requires InDatetimeRange(dateMs)
    requires TeamRecordsUpTo(org, dateMs, records, emailToTeam, teams, |teams|, trs)
    ensures SumTeams(trs) == SumOverKeys(teams, TeamEntries(records, emailToTeam))
  {
    if teams != [] {
      var n := |teams| - 1;
      assert IsTeamRecord(org, dateMs, records, emailToTeam, teams[n], trs[n]);
      SumTeamsOverKeys(org, dateMs, records, emailToTeam, teams[..n], trs[..n]);
    }
  }

  /**
   * No usage is lost or counted twice: the team records of a day add up to
   * the sum of its user records.
   */
  lemma TeamUsageConserved(org: string, dateMs: int, records: seq<UserRecord>, emailToTeam: map<string, string>,
                           trs: seq<TeamRecord>)
    requires InDatetimeRange(dateMs)
    requires var teams := TeamKeys(records, emailToTeam);
      TeamRecordsUpTo(org, dateMs, records, emailToTeam, teams, |teams|, trs)
    ensures SumTeams(trs) == SumUsers(UserTotalsOf(records))
  {
    SumTeamsOverKeys(org, dateMs, records, emailToTeam, TeamKeys(records, emailToTeam), trs);
    GroupedTotal(TeamEntries(records, emailToTeam));
    TeamEntriesTotal(records, emailToTeam);
  }
}

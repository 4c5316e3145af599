/**
 * The exporter that upserts the daily usage records into Port
 * (src/port_exporter.py:10-154). The client caches the access token it
 * obtains from the auth endpoint and records every POST it makes; the
 * reply of the auth endpoint is an input, and the upsert endpoint is taken
 * to accept every request.
 */
module Exporter {
  import opened Wrappers
  import Models

  /** A property value as it appears in the JSON payload. */
  datatype Value =
    | Text(s: string)
    | Number(n: int)
    | Amount(r: real)
    | Flag(b: bool)
    | Null
    | Drilldown(breakdown: Models.Breakdown)

  /** The activity counters every record reports. */
  datatype Activity =
    | Accepts | Rejects | TabsShown | TabsAccepted
    | LinesAdded | LinesDeleted | AcceptedLinesAdded | AcceptedLinesDeleted
    | ComposerRequests | ChatRequests | AgentRequests
    | SubscriptionIncludedReqs | ApiKeyReqs | UsageBasedReqs | BugbotUsages

  /** The token counters every record reports. */
  datatype Tokens = InputTokens | OutputTokens | CacheWriteTokens | CacheReadTokens

  /**
   * A property key. A token key carries whether it is spelled with the
   * `total_` prefix, as the organisation's payload spells it.
   */
  datatype Field =
    | RecordDate | Org | Email | IsActive | Team
    | MostUsedModel | TotalActiveUsers | TotalCents | Breakdown
    | Counter(activity: Activity)
    | TokenCounter(tokens: Tokens, prefixed: bool)

  function ActivityName(a: Activity): string {
    match a
    case Accepts => "total_accepts"
    case Rejects => "total_rejects"
    case TabsShown => "total_tabs_shown"
    case TabsAccepted => "total_tabs_accepted"
    case LinesAdded => "total_lines_added"
    case LinesDeleted => "total_lines_deleted"
    case AcceptedLinesAdded => "accepted_lines_added"
    case AcceptedLinesDeleted => "accepted_lines_deleted"
    case ComposerRequests => "composer_requests"
    case ChatRequests => "chat_requests"
    case AgentRequests => "agent_requests"
    case SubscriptionIncludedReqs => "subscription_included_reqs"
    case ApiKeyReqs => "api_key_reqs"
    case UsageBasedReqs => "usage_based_reqs"
    case BugbotUsages => "bugbot_usages"
  }

  function TokensName(t: Tokens): string {
    match t
    case InputTokens => "input_tokens"
    case OutputTokens => "output_tokens"
    case CacheWriteTokens => "cache_write_tokens"
    case CacheReadTokens => "cache_read_tokens"
  }

  /** The JSON spelling of a key. */
  function Name(f: Field): string {
    match f
    case RecordDate => "record_date"
    case Org => "org"
    case Email => "email"
    case IsActive => "is_active"
    case Team => "team"
    case MostUsedModel => "most_used_model"
    case TotalActiveUsers => "total_active_users"
    case TotalCents => "total_cents"
    case Breakdown => "breakdown"
    case Counter(a) => ActivityName(a)
    case TokenCounter(t, prefixed) => if prefixed then "total_" + TokensName(t) else TokensName(t)
  }

  function ActivityCount(u: Models.UsageCounts, a: Activity): int {
    match a
    case Accepts => u.totalAccepts
    case Rejects => u.totalRejects
    case TabsShown => u.totalTabsShown
    case TabsAccepted => u.totalTabsAccepted
    case LinesAdded => u.totalLinesAdded
    case LinesDeleted => u.totalLinesDeleted
    case AcceptedLinesAdded => u.acceptedLinesAdded
    case AcceptedLinesDeleted => u.acceptedLinesDeleted
    case ComposerRequests => u.composerRequests
    case ChatRequests => u.chatRequests
    case AgentRequests => u.agentRequests
    case SubscriptionIncludedReqs => u.subscriptionIncludedReqs
    case ApiKeyReqs => u.apiKeyReqs
    case UsageBasedReqs => u.usageBasedReqs
    case BugbotUsages => u.bugbotUsages
  }

  function TokenCount(u: Models.UsageCounts, t: Tokens): int {
    match t
    case InputTokens => u.inputTokens
    case OutputTokens => u.outputTokens
    case CacheWriteTokens => u.cacheWriteTokens
    case CacheReadTokens => u.cacheReadTokens
  }

  /** The record whose properties a payload carries. */
  datatype Payload =
    | OrgProps(o: Models.OrgRecord)
    | UserProps(u: Models.UserRecord)
    | TeamProps(t: Models.TeamRecord)
  {
    function RecordDateIso(): string {
      match this
      case OrgProps(o) => o.recordDateIso
      case UserProps(u) => u.recordDateIso
      case TeamProps(t) => t.recordDateIso
    }

    function OrgName(): string {
      match this
      case OrgProps(o) => o.org
      case UserProps(u) => u.org
      case TeamProps(t) => t.org
    }

    function Usage(): Models.UsageCounts {
      match this
      case OrgProps(o) => o.totals.usage
      case UserProps(u) => u.totals.usage
      case TeamProps(t) => t.totals.usage
    }

    function Model(): Option<string> {
      match this
      case OrgProps(o) => o.totals.mostUsedModel
      case UserProps(u) => u.totals.mostUsedModel
      case TeamProps(t) => t.totals.mostUsedModel
    }

    function Drill(): Models.Breakdown {
      match this
      case OrgProps(o) => o.breakdown
      case UserProps(u) => u.breakdown
      case TeamProps(t) => t.breakdown
    }
  }

  function ModelValue(m: Option<string>): Value {
    if m.Some? then Text(m.value) else Null
  }

  /**
   * The JSON object of a payload, read key by key: `org_props`, `up` or
   * `tp`. Every record has the date, the organisation, the activity and
   * token counters, the most used model, the cost and the breakdown; the
   * organisation spells its token keys with `total_`, users and teams
   * without; only users have an e-mail and an activity flag, only teams a
   * name, and users have no active-user count.
   */
  function Property(p: Payload, f: Field): Option<Value> {
    match f
    case RecordDate => Some(Text(p.RecordDateIso()))
    case Org => Some(Text(p.OrgName()))
    case Email => if p.UserProps? then Some(Text(p.u.totals.email)) else None
    case IsActive => if p.UserProps? then Some(Flag(p.u.totals.isActive)) else None
    case Team => if p.TeamProps? then Some(Text(p.t.team)) else None
    case MostUsedModel => Some(ModelValue(p.Model()))
    case TotalActiveUsers =>
      if p.OrgProps? then Some(Number(p.o.totals.totalActiveUsers))
      else if p.TeamProps? then Some(Number(p.t.totals.totalActiveUsers))
      else None
    case TotalCents => Some(Amount(p.Usage().totalCents))
    case Breakdown => Some(Drilldown(p.Drill()))
    case Counter(a) => Some(Number(ActivityCount(p.Usage(), a)))
    case TokenCounter(t, prefixed) =>
      if prefixed == p.OrgProps? then Some(Number(TokenCount(p.Usage(), t))) else None
  }

  /** `{"entity": {"blueprint": ..., "identifier": ..., "properties": ...}}`. */
  datatype Entity = Entity(blueprint: string, identifier: string, properties: Payload)

  /** The JSON body of a POST: the client credentials or a batch of entities. */
  datatype Body =
    | Credentials(clientId: string, clientSecret: string)
    | Entities(entities: seq<Entity>)

  datatype Post = Post(url: string, headers: seq<(string, string)>, body: Body)

  const OrgBlueprint := "cursor_usage_record"
  const UserBlueprint := "cursor_user_usage_record"
  const TeamBlueprint := "cursor_team_usage_record"

  /** The number of entities sent per upsert request. */
  const ChunkSize := 300

  /** `s.rstrip("/")`. */
  function RStripSlash(s: string): (r: string)
    ensures |r| <= |s| && r == s[..|r|]
    ensures r == [] || r[|r| - 1] != '/'
    ensures forall i :: |r| <= i < |s| ==> s[i] == '/'
  {
    if s != [] && s[|s| - 1] == '/' then RStripSlash(s[..|s| - 1]) else s
  }

  /** Stripping twice strips nothing more. */
  lemma RStripIdempotent(s: string)
    ensures RStripSlash(RStripSlash(s)) == RStripSlash(s)
  {
  }

  /** `data.get("accessToken") or data.get("access_token")`, kept only when not empty. */
  function TokenFrom(data: map<string, string>): Option<string> {
    if "accessToken" in data && data["accessToken"] != "" then Some(data["accessToken"])
    else if "access_token" in data && data["access_token"] != "" then Some(data["access_token"])
    else None
  }

  /**
   * A token is obtained exactly when one of the two fields holds a
   * non-empty string, and `accessToken` is preferred.
   */
  lemma TokenFromSpec(data: map<string, string>)
    ensures TokenFrom(data).Some? <==>
      (exists k :: k in data && k in ["accessToken", "access_token"] && data[k] != "")
    ensures TokenFrom(data).Some? ==> TokenFrom(data).value != ""
    ensures "accessToken" in data && data["accessToken"] != "" ==> TokenFrom(data) == Some(data["accessToken"])
    ensures TokenFrom(data).Some? ==>
      || ("accessToken" in data && TokenFrom(data).value == data["accessToken"])
      || ("access_token" in data && TokenFrom(data).value == data["access_token"])
  {
    if TokenFrom(data).None? {
      forall k | k in data && k in ["accessToken", "access_token"]
        ensures data[k] == ""
      {
      }
    }
  }

  /** `_headers()` once the token is known. */
  function BearerHeaders(token: string): seq<(string, string)> {
    [("Authorization", "Bearer " + token), ("Content-Type", "application/json")]
  }

  /** The bearer header carries the token and nothing else. */
  lemma BearerCarriesToken(token: string)
    ensures var h := BearerHeaders(token);
      h[0].0 == "Authorization" && h[0].1[..7] == "Bearer " && h[0].1[7..] == token
    ensures forall t1, t2 :: BearerHeaders(t1) == BearerHeaders(t2) ==> t1 == t2
  {
    forall t1, t2 | BearerHeaders(t1) == BearerHeaders(t2)
      ensures t1 == t2
    {
      assert ("Bearer " + t1)[7..] == t1;
      assert ("Bearer " + t2)[7..] == t2;
    }
  }

  /** `_format_entity`. */
  function FormatEntity(blueprint: string, identifier: string, properties: Payload): Entity {
    Entity(blueprint, identifier, properties)
  }

  function OrgEntity(r: Models.OrgRecord): Entity {
    FormatEntity(OrgBlueprint, r.identifier, OrgProps(r))
  }

  function UserEntity(r: Models.UserRecord): Entity {
    FormatEntity(UserBlueprint, r.identifier, UserProps(r))
  }

  function TeamEntity(r: Models.TeamRecord): Entity {
    FormatEntity(TeamBlueprint, r.identifier, TeamProps(r))
  }

  /**
   * The organisation reads its token counters under `total_input_tokens`
   * and the other `total_` keys, users and teams under the bare keys; the
   * other spelling is absent from each payload.
   */
  lemma TokenKeys(p: Payload, t: Tokens)
    ensures Property(p, TokenCounter(t, p.OrgProps?)) == Some(Number(TokenCount(p.Usage(), t)))
    ensures Property(p, TokenCounter(t, !p.OrgProps?)) == None
  {
  }

  /**
   * Every token key of the organisation is the bare key of users and teams
   * with `total_` in front; the input-token keys are one instance.
   */
  lemma PrefixedTokenNames()
    ensures forall t :: Name(TokenCounter(t, true)) == "total_" + Name(TokenCounter(t, false))
    ensures Name(TokenCounter(InputTokens, true)) == "total_input_tokens"
    ensures Name(TokenCounter(InputTokens, false)) == "input_tokens"
  {
  }

  /**
   * The record-specific keys: an e-mail and activity flag only for users,
   * a team name only for teams, an active-user count for the organisation
   * and teams but not for users.
   */
  lemma KindKeys(p: Payload)
    ensures Property(p, Email).Some? <==> p.UserProps?
    ensures Property(p, IsActive).Some? <==> p.UserProps?
    ensures Property(p, Team).Some? <==> p.TeamProps?
    ensures Property(p, TotalActiveUsers).Some? <==> !p.UserProps?
    ensures p.UserProps? ==> Property(p, Email) == Some(Text(p.u.totals.email))
    ensures p.TeamProps? ==> Property(p, Team) == Some(Text(p.t.team))
  {
  }

  /**
   * Every kind of record reports its activity counters, cost, date and
   * breakdown under the same keys.
   */
  lemma SharedKeys(p: Payload, a: Activity)
    ensures Property(p, Counter(a)) == Some(Number(ActivityCount(p.Usage(), a)))
    ensures Property(p, TotalCents) == Some(Amount(p.Usage().totalCents))
    ensures Property(p, RecordDate) == Some(Text(p.RecordDateIso()))
    ensures Property(p, Breakdown) == Some(Drilldown(p.Drill()))
    ensures Property(p, MostUsedModel) == (if p.Model().Some? then Some(Text(p.Model().value)) else Some(Null))
  {
  }

  /** The batches `xs[i:i + n]` for `i` in `range(0, len(xs), n)`. */
  function ChunksOf<T>(xs: seq<T>, n: nat): seq<seq<T>>
    requires n > 0
    decreases |xs|
  {
    if xs == [] then []
    else if |xs| <= n then [xs]
    else [xs[..n]] + ChunksOf(xs[n..], n)
  }

  /** The concatenation of a sequence of batches. */
  function Flatten<T>(css: seq<seq<T>>): seq<T> {
    if css == [] then [] else css[0] + Flatten(css[1..])
  }

  /** Batching loses, duplicates and reorders nothing. */
  lemma {:induction false} ChunksFlatten<T>(xs: seq<T>, n: nat)
    requires n > 0
    ensures Flatten(ChunksOf(xs, n)) == xs
    decreases |xs|
  {
    if xs != [] && |xs| > n {
      ChunksFlatten(xs[n..], n);
      assert ([xs[..n]] + ChunksOf(xs[n..], n))[1..] == ChunksOf(xs[n..], n);
      assert xs[..n] + xs[n..] == xs;
    }
  }

  /** Every batch holds between 1 and `n` items, and all but the last exactly `n`. */
  lemma {:induction false} ChunksBounded<T>(xs: seq<T>, n: nat)
    requires n > 0
    ensures forall c :: c in ChunksOf(xs, n) ==> 0 < |c| <= n
    ensures forall k :: 0 <= k < |ChunksOf(xs, n)| - 1 ==> |ChunksOf(xs, n)[k]| == n
    decreases |xs|
  {
    if xs != [] && |xs| > n {
      ChunksBounded(xs[n..], n);
      var cs := ChunksOf(xs, n);
      forall k | 1 <= k < |cs|
        ensures cs[k] == ChunksOf(xs[n..], n)[k - 1]
      {
      }
    }
  }

  /** There is one batch per started stretch of `n` items. */
  lemma {:induction false} ChunkCount<T>(xs: seq<T>, n: nat, k: nat)
    requires n > 0
    ensures k < |ChunksOf(xs, n)| <==> k * n < |xs|
    decreases k
  {
    if k > 0 {
      assert k * n == (k - 1) * n + n;
      if |xs| > n {
        ChunkCount(xs[n..], n, k - 1);
      } else {
        assert (k - 1) * n >= 0;
      }
    }
  }

  /** Batch `k` is the slice of `xs` that starts at `k * n`. */
  lemma {:induction false} ChunkAt<T>(xs: seq<T>, n: nat, k: nat)
    requires n > 0 && k * n < |xs|
    ensures k < |ChunksOf(xs, n)|
    ensures ChunksOf(xs, n)[k] == xs[k * n .. if k * n + n <= |xs| then k * n + n else |xs|]
    decreases k
  {
    ChunkCount(xs, n, k);
    if k > 0 {
      assert k * n == (k - 1) * n + n;
      ChunkAt(xs[n..], n, k - 1);
      var e := if k * n + n <= |xs| then k * n + n else |xs|;
      assert xs[n..][(k - 1) * n .. e - n] == xs[k * n .. e];
    }
  }

  /** The three kinds of record in export order: the organisation, then its users, then its teams. */
  function ExportEntities(org: Models.OrgRecord, users: seq<Models.UserRecord>, teams: seq<Models.TeamRecord>): seq<Entity> {
    [OrgEntity(org)]
    + seq(|users|, i requires 0 <= i < |users| => UserEntity(users[i]))
    + seq(|teams|, i requires 0 <= i < |teams| => TeamEntity(teams[i]))
  }

  /**
   * The export holds the organisation entity first, then one user entity
   * per user record and one team entity per team record, in their order,
   * each under its record's identifier and its kind's blueprint.
   */
  lemma ExportOrder(org: Models.OrgRecord, users: seq<Models.UserRecord>, teams: seq<Models.TeamRecord>)
    ensures var es := ExportEntities(org, users, teams);
      && |es| == 1 + |users| + |teams|
      && es[0].blueprint == OrgBlueprint && es[0].identifier == org.identifier && es[0].properties == OrgProps(org)
      && (forall i :: 0 <= i < |users| ==>
            es[1 + i].blueprint == UserBlueprint && es[1 + i].identifier == users[i].identifier
            && es[1 + i].properties == UserProps(users[i]))
      && (forall j :: 0 <= j < |teams| ==>
            es[1 + |users| + j].blueprint == TeamBlueprint && es[1 + |users| + j].identifier == teams[j].identifier
            && es[1 + |users| + j].properties == TeamProps(teams[j]))
  {
  }

  /** `Ok(())`, or the message of the exception that ended the operation. */
  type Outcome = Result<(), string>

  const TokenError := "Failed to obtain Port access token"

  /**
   * `PortExporter`. The HTTP client is replaced by `posts`, every request
   * made so far in order; the cached access token is `token`.
   */
  class PortExporter {
    const baseUrl: string
    const authUrl: string
    const bulkUpsertUrl: string
    const clientId: string
    const clientSecret: string
    const dryRun: bool
    var token: Option<string>
    var posts: seq<Post>

    /** Only a non-empty token is ever cached. */
    ghost predicate Valid()
      reads this
    {
      token.Some? ==> token.value != ""
    }

    constructor(baseUrl: string, authUrl: string, bulkUpsertUrl: string, clientId: string, clientSecret: string, dryRun: bool)
      ensures Valid()
      ensures this.baseUrl == RStripSlash(baseUrl) && this.authUrl == authUrl && this.bulkUpsertUrl == bulkUpsertUrl
      ensures this.clientId == clientId && this.clientSecret == clientSecret && this.dryRun == dryRun
      ensures token == None && posts == []
    {
      this.baseUrl := RStripSlash(baseUrl);
      this.authUrl := authUrl;
      this.bulkUpsertUrl := bulkUpsertUrl;
      this.clientId := clientId;
      this.clientSecret := clientSecret;
      this.dryRun := dryRun;
      token := None;
      posts := [];
    }

    /** The request to the auth endpoint. */
    function AuthPost(): Post {
      Post(authUrl, [], Credentials(clientId, clientSecret))
    }

    /** The requests to the auth endpoint made when `cached` is the token held. */
    function AuthPostsFor(cached: Option<string>): seq<Post> {
      if cached.Some? then [] else [AuthPost()]
    }

    /** The upsert request for one batch. */
    function UpsertPost(tok: string, batch: seq<Entity>): Post {
      Post(bulkUpsertUrl, BearerHeaders(tok), Entities(batch))
    }

    /** The upsert requests for a sequence of batches, in order. */
    function UpsertPosts(tok: string, batches: seq<seq<Entity>>): seq<Post> {
      seq(|batches|, j requires 0 <= j < |batches| => UpsertPost(tok, batches[j]))
    }

    /**
     * `_get_token`: the cached token if there is one, without a request;
     * otherwise one request to the auth endpoint, whose reply `authReply`
     * yields the token that is then cached, or the error.
     */
    method GetToken(authReply: map<string, string>) returns (r: Result<string, string>)
      requires Valid()
      modifies this
      ensures Valid()
      ensures old(token).Some? ==> r == Ok(old(token).value) && token == old(token) && posts == old(posts)
      ensures old(token).None? ==>
        && posts == old(posts) + [AuthPost()]
        && token == TokenFrom(authReply)
        && r == (if token.Some? then Ok(token.value) else Err(TokenError))
    {
      if token.Some? {
        return Ok(token.value);
      }
      posts := posts + [AuthPost()];
      var t := TokenFrom(authReply);
      if t.None? {
        return Err(TokenError);
      }
      TokenFromSpec(authReply);
      token := t;
      return Ok(t.value);
    }

    /** `_headers`. */
    method Headers(authReply: map<string, string>) returns (r: Result<seq<(string, string)>, string>)
      requires Valid()
      modifies this
      ensures Valid()
      ensures token == (if old(token).Some? then old(token) else TokenFrom(authReply))
      ensures posts == old(posts) + AuthPostsFor(old(token))
      ensures r == (if token.Some? then Ok(BearerHeaders(token.value)) else Err(TokenError))
    {
      var t := GetToken(authReply);
      if t.Err? {
        return Err(t.error);
      }
      return Ok(BearerHeaders(t.value));
    }

    /**
     * `bulk_upsert`: nothing in dry-run mode; otherwise the headers, then
     * one request carrying the batch.
     */
    method BulkUpsert(batch: seq<Entity>, authReply: map<string, string>) returns (r: Outcome)
      requires Valid()
      modifies this
      ensures Valid()
      ensures dryRun ==> r == Ok(()) && token == old(token) && posts == old(posts)
      ensures !dryRun ==>
        && token == (if old(token).Some? then old(token) else TokenFrom(authReply))
        && posts == old(posts) + AuthPostsFor(old(token)) + (if token.Some? then [UpsertPost(token.value, batch)] else [])
        && (r.Ok? <==> token.Some?)
    {
      if dryRun {
        return Ok(());
      }
      var h := Headers(authReply);
      if h.Err? {
        return Err(h.error);
      }
      posts := posts + [Post(bulkUpsertUrl, h.value, Entities(batch))];
      return Ok(());
    }

    /**
     * `_bulk_in_chunks`: upserts `entities` in batches of 300, in order,
     * stopping at the first failure. A failure can only come from the
     * first batch, since the token is cached from then on.
     */
    method BulkInChunks(entities: seq<Entity>, authReply: map<string, string>) returns (r: Outcome)
      requires Valid()
      modifies this
      ensures Valid()
      ensures dryRun || entities == [] ==> r == Ok(()) && token == old(token) && posts == old(posts)
      ensures !dryRun && entities != [] ==>
        && token == (if old(token).Some? then old(token) else TokenFrom(authReply))
        && posts == old(posts) + AuthPostsFor(old(token))
                    + (if token.Some? then UpsertPosts(token.value, ChunksOf(entities, ChunkSize)) else [])
        && (r.Ok? <==> token.Some?)
    {
      ghost var batches := ChunksOf(entities, ChunkSize);
      ghost var acquired := if token.Some? then token else TokenFrom(authReply);
      var i := 0;
      ghost var k := 0;
      while i < |entities|
        invariant i == k * ChunkSize
        invariant k <= |batches|
        invariant Valid()
        invariant dryRun || k == 0 ==> token == old(token) && posts == old(posts)
        invariant !dryRun && k > 0 ==>
          && token == acquired && token.Some?
          && posts == old(posts) + AuthPostsFor(old(token)) + UpsertPosts(token.value, batches[..k])
        decreases |entities| - i
      {
        ChunkAt(entities, ChunkSize, k);
        var end := if i + ChunkSize <= |entities| then i + ChunkSize else |entities|;
        r := BulkUpsert(entities[i..end], authReply);
        if r.Err? {
          return;
        }
        if !dryRun {
          UpsertPostsStep(token.value, batches, k);
        }
        i, k := i + ChunkSize, k + 1;
      }
      ChunkCount(entities, ChunkSize, k);
      assert batches[..k] == batches;
      r := Ok(());
    }

    lemma UpsertPostsStep(tok: string, batches: seq<seq<Entity>>, k: nat)
      requires k < |batches|
      ensures UpsertPosts(tok, batches[..k + 1]) == UpsertPosts(tok, batches[..k]) + [UpsertPost(tok, batches[k])]
    {
    }

    /**
     * `export_org_users_teams`: the organisation entity, then one entity
     * per user record, then one per team record, upserted in batches.
     */
    method ExportOrgUsersTeams(org: Models.OrgRecord, users: seq<Models.UserRecord>, teams: seq<Models.TeamRecord>,
                               authReply: map<string, string>) returns (r: Outcome)
      requires Valid()
      modifies this
      ensures Valid()
      ensures dryRun ==> r == Ok(()) && token == old(token) && posts == old(posts)
      ensures !dryRun ==>
        && token == (if old(token).Some? then old(token) else TokenFrom(authReply))
        && posts == old(posts) + AuthPostsFor(old(token))
                    + (if token.Some? then UpsertPosts(token.value, ChunksOf(ExportEntities(org, users, teams), ChunkSize)) else [])
        && (r.Ok? <==> token.Some?)
    {
      var entities := [FormatEntity(OrgBlueprint, org.identifier, OrgProps(org))];
      for i := 0 to |users|
        invariant |entities| == 1 + i && entities[0] == OrgEntity(org)
        invariant forall x :: 0 <= x < i ==> entities[1 + x] == UserEntity(users[x])
      {
        entities := entities + [FormatEntity(UserBlueprint, users[i].identifier, UserProps(users[i]))];
      }
      for j := 0 to |teams|
        invariant |entities| == 1 + |users| + j && entities[0] == OrgEntity(org)
        invariant forall x :: 0 <= x < |users| ==> entities[1 + x] == UserEntity(users[x])
        invariant forall x :: 0 <= x < j ==> entities[1 + |users| + x] == TeamEntity(teams[x])
      {
        entities := entities + [FormatEntity(TeamBlueprint, teams[j].identifier, TeamProps(teams[j]))];
      }
      assert entities == ExportEntities(org, users, teams);
      r := BulkInChunks(entities, authReply);
    }

    /**
     * What a run of upserts delivers: whatever token was cached, the
     * entities carried by the requests are `es` exactly, in order, in
     * batches of at most 300.
     */
    lemma Delivered(cached: Option<string>, tok: string, es: seq<Entity>)
      ensures Sent(AuthPostsFor(cached) + UpsertPosts(tok, ChunksOf(es, ChunkSize))) == es
      ensures forall p :: p in UpsertPosts(tok, ChunksOf(es, ChunkSize)) ==>
        p.url == bulkUpsertUrl && p.headers == BearerHeaders(tok) && 0 < |p.body.entities| <= ChunkSize
    {
      var ps := UpsertPosts(tok, ChunksOf(es, ChunkSize));
      SentAppend(AuthPostsFor(cached), ps);
      SentUpserts(tok, ChunksOf(es, ChunkSize));
      ChunksFlatten(es, ChunkSize);
      ChunksBounded(es, ChunkSize);
      forall p | p in ps
        ensures 0 < |p.body.entities| <= ChunkSize
      {
        var j :| 0 <= j < |ps| && ps[j] == p;
        assert ChunksOf(es, ChunkSize)[j] in ChunksOf(es, ChunkSize);
      }
    }

    lemma {:induction false} SentUpserts(tok: string, batches: seq<seq<Entity>>)
      ensures Sent(UpsertPosts(tok, batches)) == Flatten(batches)
    {
      if batches != [] {
        assert UpsertPosts(tok, batches)[1..] == UpsertPosts(tok, batches[1..]);
        SentUpserts(tok, batches[1..]);
      }
    }
  }

  /** The entities carried by a sequence of requests, in order. */
  function Sent(ps: seq<Post>): seq<Entity> {
    if ps == [] then []
    else (if ps[0].body.Entities? then ps[0].body.entities else []) + Sent(ps[1..])
  }

  lemma {:induction false} SentAppend(a: seq<Post>, b: seq<Post>)
    ensures Sent(a + b) == Sent(a) + Sent(b)
  {
    if a != [] {
      assert (a + b)[1..] == a[1..] + b;
      SentAppend(a[1..], b);
    } else {
      assert a + b == b;
    }
  }
}

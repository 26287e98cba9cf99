/** The decisions of the server method `Pitchly.refreshAccessToken`, as pure
    functions: option parsing, identity resolution, the ordered error checks,
    the 10-minute skip window, the token request, the two store writes, and
    `RefreshStep`, the whole call as one step over the user store. The network
    calls are inputs: the token endpoint's and the profile query's outcomes. */
module Refresh {
  import opened Wrappers
  import opened Js
  import opened Accounts

  /** A token that expires further away than this is not refreshed unless forced. */
  const SkipWindowMs: int := 600000

  const DefaultOrigin: string := "https://platform.pitchly.com"

  /** The method invocation: `this.connection` is set for a call from a client,
      and `this.userId` is the caller (null when logged out). */
  datatype Invocation = Invocation(fromClient: bool, userId: Option<string>)

  /** The clock readings of one call: the skip-window test and the cached
      reply (lines 81 and 86, taken as one reading), the expiry estimate after
      the exchange returned (line 130), the token write's `updatedAt`
      (line 132), and the profile write (line 172). */
  datatype Clock = Clock(checkedAt: int, exchangedAt: int, writtenAt: int, syncedAt: int)

  /** The body of the token endpoint's answer. */
  datatype TokenResponse =
    | ExchangeThrew                 // fetch or JSON parsing threw
    | ExchangeRejected              // the body has a truthy `error`
    | ExchangeGranted(accessToken: string, refreshToken: string, expiresIn: int)

  /** The body of the profile query's answer. */
  datatype ProfileResponse =
    | ProfileThrew                  // fetch or JSON parsing threw: `response` stays undefined
    | ProfileWithoutData            // the body has no `data`
    | ProfileWithoutPerson          // `data` is present but `data.viewer.person` is not
    | ProfilePerson(name: Option<string>, email: Option<string>, image: Option<string>)

  /** The errors the method throws. `ProfileTypeError` is the TypeError raised
      by reading `response.data` of an undefined `response`, or `.person` of a
      missing viewer. */
  datatype Failure =
    | LoggedOut
    | UserNotFound
    | RefreshTokenNotFound
    | ServiceNotConfigured
    | RequestFailed
    | ProfileTypeError

  /** `{ refreshed, accessToken, accessTokenExpiresIn }` */
  datatype Reply = Reply(refreshed: bool, accessToken: Option<Secret>, expiresIn: int)

  /** The form fields posted to `{origin}/api/oauth/token`. */
  datatype TokenRequest = TokenRequest(
    url: string,
    grantType: string,
    clientId: string,
    clientSecret: string,
    refreshToken: string,
    scope: Option<string>)

  /** The profile query posted to `{origin}/graphql`, with its bearer token. */
  datatype ProfileQuery = ProfileQuery(url: string, bearer: string)

  /** What one call did: its outcome, the store afterwards, and the requests it sent. */
  datatype Step = Step(
    result: Result<Reply, Failure>,
    users: UserMap,
    tokenRequest: Option<TokenRequest>,
    profileQuery: Option<ProfileQuery>)

  /** `force` defaults to true; only a boolean `data.force` on a plain-object
      `data` overrides it, so the skip window is reachable only through an
      explicit `{ force: false }`. */
  function ParseForce(data: Value): (force: bool)
    ensures !force <==> IsPlainObject(data) && Get(data, "force") == Bool(false)
  {
    var f := Get(data, "force");
    if IsPlainObject(data) && f.Bool? then f.b else true
  }

  /** The user whose token is refreshed: the caller, unless the call comes from
      the server itself and passes a string `data.userId`. */
  function ResolveTarget(inv: Invocation, data: Value): (target: Option<string>)
    ensures inv.fromClient ==> target == inv.userId
    ensures !inv.fromClient && IsPlainObject(data) && Get(data, "userId").Str? ==> target == Some(Get(data, "userId").s)
    ensures target != inv.userId ==> !inv.fromClient && Get(data, "userId").Str?
  {
    var u := Get(data, "userId");
    if !inv.fromClient && IsPlainObject(data) && u.Str? then Some(u.s) else inv.userId
  }

  /** `!userId` is false: a non-null, non-empty id. */
  predicate HasIdentity(target: Option<string>) {
    target.Some? && target.value != ""
  }

  /** What the checks hand on to the rest of the call. */
  datatype Checked = Checked(id: string, rec: PitchlyRecord, config: Config)

  /** The four checks, in the order the method makes them; the first that fails decides the error. */
  function CheckTarget(users: UserMap, config: Option<Config>, target: Option<string>): (r: Result<Checked, Failure>)
    ensures r == Err(LoggedOut) <==> !HasIdentity(target)
    ensures r == Err(UserNotFound) <==> HasIdentity(target) && target.value !in users
    ensures r == Err(RefreshTokenNotFound) <==>
      HasIdentity(target) && target.value in users && !HoldsRefreshToken(users[target.value])
    ensures r == Err(ServiceNotConfigured) <==>
      HasIdentity(target) && target.value in users && HoldsRefreshToken(users[target.value]) && config.None?
    ensures r.Ok? <==>
      HasIdentity(target) && target.value in users && HoldsRefreshToken(users[target.value]) && config.Some?
    ensures r.Ok? ==>
      r.value.id == target.value && r.value.config == config.value &&
      users[r.value.id].services.value.pitchly == Some(r.value.rec) && SecretPresent(r.value.rec.refreshToken)
    ensures r.Err? ==> r.error in {LoggedOut, UserNotFound, RefreshTokenNotFound, ServiceNotConfigured}
  {
    if !HasIdentity(target) then Err(LoggedOut)
    else if target.value !in users then Err(UserNotFound)
    else if !HoldsRefreshToken(users[target.value]) then Err(RefreshTokenNotFound)
    else if config.None? then Err(ServiceNotConfigured)
    else Ok(Checked(target.value, users[target.value].services.value.pitchly.value, config.value))
  }

  /** `accessTokenExpiresAt && accessTokenExpiresAt > now + 600000` */
  predicate FarFromExpiry(rec: PitchlyRecord, now: int) {
    rec.accessTokenExpiresAt.Some? && rec.accessTokenExpiresAt.value != 0 &&
    rec.accessTokenExpiresAt.value > now + SkipWindowMs
  }

  /** The reply without an exchange: the stored token as stored, and the whole
      seconds left before it expires, which are at least 600. */
  function CachedReply(rec: PitchlyRecord, now: int): (r: Reply)
    requires FarFromExpiry(rec, now)
    ensures !r.refreshed && r.accessToken == rec.accessToken
    ensures r.expiresIn * 1000 <= rec.accessTokenExpiresAt.value - now < (r.expiresIn + 1) * 1000
    ensures r.expiresIn >= SkipWindowMs / 1000
  {
    Reply(false, rec.accessToken, (rec.accessTokenExpiresAt.value - now) / 1000)
  }

  /** `Array.prototype.join(" ")` over strings. */
  function JoinSpaced(items: seq<string>): (joined: string)
    ensures |items| == 0 ==> joined == ""
    ensures |items| == 1 ==> joined == items[0]
    ensures |items| > 1 ==> items[0] + " " <= joined
  {
    if |items| == 0 then ""
    else if |items| == 1 then items[0]
    else items[0] + " " + JoinSpaced(items[1..])
  }

  /** How the provider reads a `scope` parameter: the pieces between single
      spaces (section 3.3 of RFC 6749). */
  function SplitSpaces(s: string): (parts: seq<string>)
    ensures |parts| >= 1
  {
    if |s| == 0 then [""]
    else
      var rest := SplitSpaces(s[1..]);
      if s[0] == ' ' then [""] + rest else [[s[0]] + rest[0]] + rest[1..]
  }

  lemma {:induction false} SplitWord(w: string)
    requires ' ' !in w
    ensures SplitSpaces(w) == [w]
  {
    if |w| > 0 {
      assert ' ' !in w[1..];
      SplitWord(w[1..]);
      assert [w[0]] + w[1..] == w;
    }
  }

  lemma {:induction false} SplitAfterWord(w: string, tail: string)
    requires ' ' !in w
    ensures SplitSpaces(w + " " + tail) == [w] + SplitSpaces(tail)
  {
    if |w| == 0 {
      assert w + " " + tail == [' '] + tail;
      assert (w + " " + tail)[1..] == tail;
    } else {
      assert ' ' !in w[1..];
      SplitAfterWord(w[1..], tail);
      assert (w + " " + tail)[1..] == w[1..] + " " + tail;
      assert [w[0]] + w[1..] == w;
    }
  }

  /** A configured scope list whose entries contain no space reaches the
      provider unchanged: splitting the joined parameter gives the list back. */
  lemma {:induction false} ScopeListRoundTrip(items: seq<string>)
    requires |items| > 0
    requires forall i :: 0 <= i < |items| ==> ' ' !in items[i]
    ensures SplitSpaces(JoinSpaced(items)) == items
  {
    if |items| == 1 {
      SplitWord(items[0]);
    } else {
      ScopeListRoundTrip(items[1..]);
      SplitAfterWord(items[0], JoinSpaced(items[1..]));
      assert [items[0]] + items[1..] == items;
    }
  }

  /** The `scope` form field: the configured string, the configured list joined
      by single spaces, or absent. */
  function ScopeParam(s: ScopeSetting): (scope: Option<string>)
    ensures scope.None? <==> s.ScopeUnset?
    ensures s.ScopeString? ==> scope == Some(s.text)
    ensures s.ScopeList? ==> scope == Some(JoinSpaced(s.items))
  {
    match s
    case ScopeString(t) => Some(t)
    case ScopeList(items) => Some(JoinSpaced(items))
    case ScopeUnset => None
  }

  /** `config.origin || 'https://platform.pitchly.com'` */
  function Origin(config: Config): (o: string)
    ensures o != ""
    ensures config.origin.Some? && config.origin.value != "" ==> o == config.origin.value
  {
    if config.origin.Some? && config.origin.value != "" then config.origin.value else DefaultOrigin
  }

  /** The refresh-token grant posted to the token endpoint, with both secrets opened. */
  function TokenRequestFor(c: Checked): (q: TokenRequest)
    requires c.rec.refreshToken.Some?
    ensures q.grantType == "refresh_token" && q.clientId == c.config.clientId
    ensures q.clientSecret == Open(c.config.secret) && q.refreshToken == Open(c.rec.refreshToken.value)
    ensures q.url == Origin(c.config) + "/api/oauth/token"
    ensures q.scope == ScopeParam(c.config.accessTokenScope)
  {
    TokenRequest(
      Origin(c.config) + "/api/oauth/token",
      "refresh_token",
      c.config.clientId,
      Open(c.config.secret),
      Open(c.rec.refreshToken.value),
      ScopeParam(c.config.accessTokenScope))
  }

  /** The `$set` of a successful exchange: both new tokens sealed, the expiry
      estimated from the clock after the exchange, and `updatedAt`. */
  function WithTokens(rec: PitchlyRecord, accessToken: string, refreshToken: string, expiresIn: int,
                      clock: Clock, encrypted: bool): (r: PitchlyRecord)
    ensures SameProfile(rec, r)
    ensures r.accessToken == Some(Seal(accessToken, encrypted)) && r.refreshToken == Some(Seal(refreshToken, encrypted))
    ensures r.accessTokenExpiresAt == Some(clock.exchangedAt + 1000 * expiresIn) && r.updatedAt == Some(clock.writtenAt)
  {
    rec.(accessToken := Some(Seal(accessToken, encrypted)),
         accessTokenExpiresAt := Some(clock.exchangedAt + 1000 * expiresIn),
         refreshToken := Some(Seal(refreshToken, encrypted)),
         updatedAt := Some(clock.writtenAt))
  }

  /** The `$set` of the profile write: name, email, picture and `updatedAt` only. */
  function WithProfile(rec: PitchlyRecord, name: Option<string>, email: Option<string>, image: Option<string>, at: int): (r: PitchlyRecord)
    ensures SameTokens(rec, r) && r.id == rec.id && r.organizationId == rec.organizationId
    ensures r.name == name && r.email == email && r.picture == image && r.updatedAt == Some(at)
  {
    rec.(name := name, email := email, picture := image, updatedAt := Some(at))
  }

  /** The exchange of a call that passed the checks and was not skipped, and
      the profile sync that follows a successful exchange. */
  function ExchangeStep(users: UserMap, c: Checked, clock: Clock, encrypted: bool, exchange: TokenResponse, profile: ProfileResponse): (s: Step)
    requires c.id in users && c.rec.refreshToken.Some?
    ensures s.tokenRequest == Some(TokenRequestFor(c))
    ensures s.profileQuery.Some? <==> exchange.ExchangeGranted?
    ensures !exchange.ExchangeGranted? ==> s.result == Err(RequestFailed) && s.users == users
    ensures s.users.Keys == users.Keys && forall u :: u in users && u != c.id ==> s.users[u] == users[u]
  {
    var request := Some(TokenRequestFor(c));
    match exchange
    case ExchangeThrew => Step(Err(RequestFailed), users, request, None)
    case ExchangeRejected => Step(Err(RequestFailed), users, request, None)
    case ExchangeGranted(access, refresh, expiresIn) =>
      var tokened := WithTokens(c.rec, access, refresh, expiresIn, clock, encrypted);
      var afterTokens := users[c.id := WithPitchly(users[c.id], tokened)];
      var query := Some(ProfileQuery(Origin(c.config) + "/graphql", access));
      var reply := Reply(true, Some(Plain(access)), expiresIn);
      match profile
      case ProfileThrew => Step(Err(ProfileTypeError), afterTokens, request, query)
      case ProfileWithoutPerson => Step(Err(ProfileTypeError), afterTokens, request, query)
      case ProfileWithoutData => Step(Ok(reply), afterTokens, request, query)
      case ProfilePerson(name, email, image) =>
        var synced := WithProfile(tokened, name, email, image, clock.syncedAt);
        Step(Ok(reply), users[c.id := WithPitchly(users[c.id], synced)], request, query)
  }

  /** One call of `Pitchly.refreshAccessToken`. */
  function RefreshStep(
    users: UserMap, config: Option<Config>, inv: Invocation, data: Value,
    clock: Clock, encrypted: bool, exchange: TokenResponse, profile: ProfileResponse): (s: Step)
    ensures s.users.Keys == users.Keys
    ensures s.tokenRequest.None? ==> s.users == users && s.profileQuery.None?
    ensures s.result.Ok? && !s.result.value.refreshed ==> s.tokenRequest.None?
  {
    match CheckTarget(users, config, ResolveTarget(inv, data))
    case Err(f) => Step(Err(f), users, None, None)
    case Ok(c) =>
      if !ParseForce(data) && FarFromExpiry(c.rec, clock.checkedAt) then
        Step(Ok(CachedReply(c.rec, clock.checkedAt)), users, None, None)
      else
        ExchangeStep(users, c, clock, encrypted, exchange, profile)
  }

  /** The profile sync as its comment at line 165 intends it: a failed or
      malformed profile answer is ignored, so the call still succeeds with the
      new tokens stored. */
  function ExchangeStepIntended(users: UserMap, c: Checked, clock: Clock, encrypted: bool, exchange: TokenResponse, profile: ProfileResponse): (s: Step)
    requires c.id in users && c.rec.refreshToken.Some?
    ensures s.users == ExchangeStep(users, c, clock, encrypted, exchange, profile).users
    ensures exchange.ExchangeGranted? ==> s.result == Ok(Reply(true, Some(Plain(exchange.accessToken)), exchange.expiresIn))
    ensures !exchange.ExchangeGranted? ==> s.result == Err(RequestFailed)
  {
    var s := ExchangeStep(users, c, clock, encrypted, exchange, profile);
    if s.result == Err(ProfileTypeError) then s.(result := Ok(Reply(true, Some(Plain(exchange.accessToken)), exchange.expiresIn)))
    else s
  }

  /** The cached reply with the stored token opened, so that it has the same
      form as the token of a refreshed reply. */
  function CachedReplyIntended(rec: PitchlyRecord, now: int): (r: Reply)
    requires FarFromExpiry(rec, now)
    ensures !r.refreshed && r.expiresIn == CachedReply(rec, now).expiresIn
    ensures rec.accessToken.Some? ==> r.accessToken == Some(Plain(Open(rec.accessToken.value)))
    ensures rec.accessToken.None? ==> r.accessToken.None?
  {
    var token := if rec.accessToken.Some? then Some(Plain(Open(rec.accessToken.value))) else None;
    CachedReply(rec, now).(accessToken := token)
  }
}

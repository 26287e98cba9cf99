/** What one call of `Pitchly.refreshAccessToken` promises, stated over
    `Refresh.RefreshStep`: the checks come first and in order, a client cannot
    pick the target, the skip window, and the all-or-nothing token write. */
module RefreshLemmas {
  import opened Wrappers
  import opened Js
  import opened Accounts
  import opened Refresh

  /** The record under `services.pitchly` of a stored user. */
  function PitchlyIn(users: UserMap, id: string): Option<PitchlyRecord>
    requires id in users
  {
    if users[id].services.Some? then users[id].services.value.pitchly else None
  }

  /** Every check runs before anything else: a failing check is the call's
      error, and then nothing is written and no request is sent. Conversely a
      request is only ever sent for a call that passed all four checks. */
  lemma ChecksComeFirst(
    users: UserMap, config: Option<Config>, inv: Invocation, data: Value,
    clock: Clock, encrypted: bool, exchange: TokenResponse, profile: ProfileResponse)
    ensures var s := RefreshStep(users, config, inv, data, clock, encrypted, exchange, profile);
      var checked := CheckTarget(users, config, ResolveTarget(inv, data));
      (checked.Err? ==> s == Step(Err(checked.error), users, None, None)) &&
      (s.tokenRequest.Some? ==> checked.Ok?)
  {
  }

  /** A call from a client refreshes the caller's own token: whatever
      `data.userId` holds, the call does the same as any other call with the
      same `force`. */
  lemma RemoteCallIgnoresUserId(
    users: UserMap, config: Option<Config>, inv: Invocation, data: Value, other: Value,
    clock: Clock, encrypted: bool, exchange: TokenResponse, profile: ProfileResponse)
    requires inv.fromClient
    requires ParseForce(data) == ParseForce(other)
    ensures RefreshStep(users, config, inv, data, clock, encrypted, exchange, profile)
         == RefreshStep(users, config, inv, other, clock, encrypted, exchange, profile)
  {
  }

  /** Only a call from the server itself with a string `data.userId` can refresh
      another user's token. */
  lemma OtherUserOnlyFromServer(
    users: UserMap, config: Option<Config>, inv: Invocation, data: Value,
    clock: Clock, encrypted: bool, exchange: TokenResponse, profile: ProfileResponse)
    requires RefreshStep(users, config, inv, data, clock, encrypted, exchange, profile).result.Ok?
    ensures inv.userId == ResolveTarget(inv, data) || (!inv.fromClient && Get(data, "userId").Str?)
  {
  }

  /** With `force: false` and a token that expires more than 10 minutes from
      now, the call answers from the store: no request, no write, the stored
      token and its remaining whole seconds, at least 600. */
  lemma SkipWindowAnswersFromStore(
    users: UserMap, config: Option<Config>, inv: Invocation, data: Value,
    clock: Clock, encrypted: bool, exchange: TokenResponse, profile: ProfileResponse)
    requires CheckTarget(users, config, ResolveTarget(inv, data)).Ok?
    requires !ParseForce(data)
    requires FarFromExpiry(CheckTarget(users, config, ResolveTarget(inv, data)).value.rec, clock.checkedAt)
    ensures var rec := CheckTarget(users, config, ResolveTarget(inv, data)).value.rec;
      var s := RefreshStep(users, config, inv, data, clock, encrypted, exchange, profile);
      s.users == users && s.tokenRequest.None? && s.profileQuery.None? &&
      s.result.Ok? && !s.result.value.refreshed && s.result.value.accessToken == rec.accessToken &&
      s.result.value.expiresIn >= 600 &&
      s.result.value.expiresIn * 1000 <= rec.accessTokenExpiresAt.value - clock.checkedAt
  {
  }

  /** A forced call, or a call whose token is missing or within 10 minutes of
      expiry, always asks the token endpoint, with the refresh-token grant. */
  lemma ExchangeUnlessSkipped(
    users: UserMap, config: Option<Config>, inv: Invocation, data: Value,
    clock: Clock, encrypted: bool, exchange: TokenResponse, profile: ProfileResponse)
    requires CheckTarget(users, config, ResolveTarget(inv, data)).Ok?
    requires ParseForce(data) || !FarFromExpiry(CheckTarget(users, config, ResolveTarget(inv, data)).value.rec, clock.checkedAt)
    ensures var c := CheckTarget(users, config, ResolveTarget(inv, data)).value;
      var s := RefreshStep(users, config, inv, data, clock, encrypted, exchange, profile);
      s.tokenRequest == Some(TokenRequestFor(c)) &&
      s.tokenRequest.value.grantType == "refresh_token" &&
      s.tokenRequest.value.refreshToken == Open(c.rec.refreshToken.value)
  {
  }

  /** A token request that throws or is answered with an error fails the call
      with `request-failed` and leaves the store exactly as it was. */
  lemma FailedExchangeWritesNothing(
    users: UserMap, config: Option<Config>, inv: Invocation, data: Value,
    clock: Clock, encrypted: bool, exchange: TokenResponse, profile: ProfileResponse)
    requires !exchange.ExchangeGranted?
    ensures var s := RefreshStep(users, config, inv, data, clock, encrypted, exchange, profile);
      s.users == users && s.profileQuery.None? &&
      (s.tokenRequest.Some? ==> s.result == Err(RequestFailed))
  {
  }

  /** A granted exchange writes the four token fields together: both new
      tokens sealed, the expiry `exchangedAt + 1000 * expires_in`, and
      `updatedAt` from its own clock reading. The profile mirror keeps its values unless the profile
      write replaces name, email and picture; no other user changes. */
  lemma GrantedExchangeWritesTokens(
    users: UserMap, config: Option<Config>, inv: Invocation, data: Value,
    clock: Clock, encrypted: bool, access: string, refresh: string, expiresIn: int, profile: ProfileResponse)
    requires CheckTarget(users, config, ResolveTarget(inv, data)).Ok?
    requires ParseForce(data) || !FarFromExpiry(CheckTarget(users, config, ResolveTarget(inv, data)).value.rec, clock.checkedAt)
    ensures var c := CheckTarget(users, config, ResolveTarget(inv, data)).value;
      var s := RefreshStep(users, config, inv, data, clock, encrypted, ExchangeGranted(access, refresh, expiresIn), profile);
      s.users.Keys == users.Keys &&
      (forall u :: u in users && u != c.id ==> s.users[u] == users[u]) &&
      PitchlyIn(s.users, c.id).Some? &&
      var after := PitchlyIn(s.users, c.id).value;
      after.accessToken == Some(Seal(access, encrypted)) &&
      after.refreshToken == Some(Seal(refresh, encrypted)) &&
      after.accessTokenExpiresAt == Some(clock.exchangedAt + 1000 * expiresIn) &&
      after.updatedAt == Some(if profile.ProfilePerson? then clock.syncedAt else clock.writtenAt) &&
      after.id == c.rec.id && after.organizationId == c.rec.organizationId &&
      (if profile.ProfilePerson?
       then after.name == profile.name && after.email == profile.email && after.picture == profile.image
       else after.name == c.rec.name && after.email == c.rec.email && after.picture == c.rec.picture)
  {
  }

  /** A refreshed reply carries the provider's raw access token and its
      `expires_in`, not a value recomputed from the stored expiry; and the
      profile query is sent with that same new token. */
  lemma RefreshedReplyFromProvider(
    users: UserMap, config: Option<Config>, inv: Invocation, data: Value,
    clock: Clock, encrypted: bool, exchange: TokenResponse, profile: ProfileResponse)
    requires RefreshStep(users, config, inv, data, clock, encrypted, exchange, profile).result.Ok?
    requires RefreshStep(users, config, inv, data, clock, encrypted, exchange, profile).result.value.refreshed
    ensures var s := RefreshStep(users, config, inv, data, clock, encrypted, exchange, profile);
      exchange.ExchangeGranted? &&
      s.result.value == Reply(true, Some(Plain(exchange.accessToken)), exchange.expiresIn) &&
      s.profileQuery.Some? && s.profileQuery.value.bearer == exchange.accessToken
  {
  }

  /** The profile write touches name, email, picture and `updatedAt` only: the
      token fields keep what the token write stored. */
  lemma ProfileWriteKeepsTokens(
    users: UserMap, c: Checked, clock: Clock, encrypted: bool, access: string, refresh: string, expiresIn: int,
    name: Option<string>, email: Option<string>, image: Option<string>)
    requires c.id in users && c.rec.refreshToken.Some?
    ensures var tokened := ExchangeStep(users, c, clock, encrypted, ExchangeGranted(access, refresh, expiresIn), ProfileWithoutData);
      var synced := ExchangeStep(users, c, clock, encrypted, ExchangeGranted(access, refresh, expiresIn), ProfilePerson(name, email, image));
      PitchlyIn(tokened.users, c.id).Some? && PitchlyIn(synced.users, c.id).Some? &&
      SameTokens(PitchlyIn(tokened.users, c.id).value, PitchlyIn(synced.users, c.id).value) &&
      synced.result == tokened.result
  {
  }

  /** As written, a profile query that throws does not fail passively: the
      call reports an error although the new tokens are already stored (and
      the refresh token the provider rotated is the only valid one). */
  lemma ProfileFailureAfterTokenWrite(
    users: UserMap, c: Checked, clock: Clock, encrypted: bool, access: string, refresh: string, expiresIn: int)
    requires c.id in users && c.rec.refreshToken.Some?
    ensures var s := ExchangeStep(users, c, clock, encrypted, ExchangeGranted(access, refresh, expiresIn), ProfileThrew);
      s.result == Err(ProfileTypeError) &&
      PitchlyIn(s.users, c.id).Some? &&
      PitchlyIn(s.users, c.id).value.refreshToken == Some(Seal(refresh, encrypted)) &&
      PitchlyIn(s.users, c.id).value.accessToken == Some(Seal(access, encrypted))
  {
  }

  /** A call only ever changes the target user's record, and a call that
      fails before the exchange is granted changes nothing at all. */
  lemma OnlyTargetChanges(
    users: UserMap, config: Option<Config>, inv: Invocation, data: Value,
    clock: Clock, encrypted: bool, exchange: TokenResponse, profile: ProfileResponse)
    ensures var s := RefreshStep(users, config, inv, data, clock, encrypted, exchange, profile);
      s.users.Keys == users.Keys &&
      (forall u :: u in users && Some(u) != ResolveTarget(inv, data) ==> s.users[u] == users[u]) &&
      (s.result.Err? && s.result.error != ProfileTypeError ==> s.users == users)
  {
  }

  /** A refresh token is only found again if it is truthy as stored. With
      encryption off, `sealSecret` stores the provider's token as plain text,
      so an empty rotated token makes the next call fail at the
      `refresh-token-not-found` check; a sealed token, even of the empty
      string, is always found. */
  lemma RotatedTokenFoundIffTruthy(
    users: UserMap, c: Checked, clock: Clock, encrypted: bool, access: string, refresh: string, expiresIn: int,
    profile: ProfileResponse)
    requires c.id in users && c.rec.refreshToken.Some? && c.id != ""
    ensures var s := ExchangeStep(users, c, clock, encrypted, ExchangeGranted(access, refresh, expiresIn), profile);
      var next := CheckTarget(s.users, Some(c.config), Some(c.id));
      (next == Err(RefreshTokenNotFound) <==> !encrypted && refresh == "") &&
      (next.Ok? <==> encrypted || refresh != "")
  {
    var s := ExchangeStep(users, c, clock, encrypted, ExchangeGranted(access, refresh, expiresIn), profile);
    var after := PitchlyIn(s.users, c.id);
    assert after.Some? && after.value.refreshToken == Some(Seal(refresh, encrypted));
  }
}

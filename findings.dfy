/** Two places where `Pitchly.refreshAccessToken` does not do what its own
    comments and replies promise, each beside the behaviour they promise.

    1. The profile sync is meant to fail passively (line 165), but a profile
       query that throws, or an answer without `data.viewer.person`, makes the
       read of `response.data` or `.person` throw, so the call fails after the
       new tokens are stored.
    2. A refreshed reply carries the provider's raw access token (line 181);
       a reply from the skip window carries the stored token as stored
       (line 85), which is the sealed form when encryption is configured. */
module Findings {
  import opened Wrappers
  import opened Js
  import opened Accounts
  import opened Refresh
  import opened RefreshLemmas

  /** As written, the profile answer decides the call's outcome: after the
      same granted exchange, a profile query that throws fails the call
      while an answer without `data` succeeds. */
  lemma ProfileReadDecidesResult(
    users: UserMap, c: Checked, clock: Clock, encrypted: bool, access: string, refresh: string, expiresIn: int)
    requires c.id in users && c.rec.refreshToken.Some?
    ensures ExchangeStep(users, c, clock, encrypted, ExchangeGranted(access, refresh, expiresIn), ProfileThrew).result.Err?
    ensures ExchangeStep(users, c, clock, encrypted, ExchangeGranted(access, refresh, expiresIn), ProfileWithoutData).result.Ok?
  {
  }

  /** The intended exchange differs from the written one exactly when the
      exchange was granted and the profile answer could not be read; the store
      and the requests are the same either way. */
  lemma IntendedDiffersOnlyOnProfileRead(
    users: UserMap, c: Checked, clock: Clock, encrypted: bool, exchange: TokenResponse, profile: ProfileResponse)
    requires c.id in users && c.rec.refreshToken.Some?
    ensures var s := ExchangeStep(users, c, clock, encrypted, exchange, profile);
      var t := ExchangeStepIntended(users, c, clock, encrypted, exchange, profile);
      t.users == s.users && t.tokenRequest == s.tokenRequest && t.profileQuery == s.profileQuery &&
      (t.result != s.result <==> exchange.ExchangeGranted? && (profile.ProfileThrew? || profile.ProfileWithoutPerson?))
  {
  }

  /** With the passive profile sync, the profile answer never changes what
      the call returns. */
  lemma IntendedProfileNeverChangesResult(
    users: UserMap, c: Checked, clock: Clock, encrypted: bool, exchange: TokenResponse,
    profile: ProfileResponse, other: ProfileResponse)
    requires c.id in users && c.rec.refreshToken.Some?
    ensures ExchangeStepIntended(users, c, clock, encrypted, exchange, profile).result
         == ExchangeStepIntended(users, c, clock, encrypted, exchange, other).result
  {
  }

  /** One call with both corrections: the passive profile sync and the
      opened token in the skip window's reply. */
  function RefreshStepIntended(
    users: UserMap, config: Option<Config>, inv: Invocation, data: Value,
    clock: Clock, encrypted: bool, exchange: TokenResponse, profile: ProfileResponse): (s: Step)
    ensures var w := RefreshStep(users, config, inv, data, clock, encrypted, exchange, profile);
      s.users == w.users && s.tokenRequest == w.tokenRequest && s.profileQuery == w.profileQuery
    ensures s.result.Ok? && s.result.value.accessToken.Some? ==> s.result.value.accessToken.value.Plain?
  {
    match CheckTarget(users, config, ResolveTarget(inv, data))
    case Err(f) => Step(Err(f), users, None, None)
    case Ok(c) =>
      if !ParseForce(data) && FarFromExpiry(c.rec, clock.checkedAt) then
        Step(Ok(CachedReplyIntended(c.rec, clock.checkedAt)), users, None, None)
      else
        ExchangeStepIntended(users, c, clock, encrypted, exchange, profile)
  }

  /** The first call of `SkipReplyAfterRefresh`: a call that passed the checks,
      was not skipped, and whose exchange was granted with encryption on. */
  predicate RefreshedThenSkipped(
    users: UserMap, config: Option<Config>, inv: Invocation, first: Value, second: Value,
    clock: Clock, later: Clock, expiresIn: int)
  {
    CheckTarget(users, config, ResolveTarget(inv, first)).Ok? &&
    (ParseForce(first) || !FarFromExpiry(CheckTarget(users, config, ResolveTarget(inv, first)).value.rec, clock.checkedAt)) &&
    ResolveTarget(inv, second) == ResolveTarget(inv, first) && !ParseForce(second) &&
    0 <= later.checkedAt && later.checkedAt + SkipWindowMs < clock.exchangedAt + 1000 * expiresIn
  }

  /** As written, with encryption configured: a refresh answers with the new
      token in the clear, and a call with `force: false` soon after answers
      with the same token sealed. */
  lemma SkipReplyAfterRefreshIsSealed(
    users: UserMap, config: Option<Config>, inv: Invocation, first: Value, second: Value,
    clock: Clock, later: Clock, access: string, refresh: string, expiresIn: int,
    exchange: TokenResponse, profile: ProfileResponse, other: ProfileResponse)
    requires RefreshedThenSkipped(users, config, inv, first, second, clock, later, expiresIn)
    requires profile.ProfileWithoutData? || profile.ProfilePerson?
    ensures var s := RefreshStep(users, config, inv, first, clock, true, ExchangeGranted(access, refresh, expiresIn), profile);
      var t := RefreshStep(s.users, config, inv, second, later, true, exchange, other);
      s.result == Ok(Reply(true, Some(Plain(access)), expiresIn)) &&
      t.result.Ok? && !t.result.value.refreshed &&
      t.result.value.accessToken == Some(Sealed(access)) &&
      t.result.value.accessToken != s.result.value.accessToken
  {
    var c := CheckTarget(users, config, ResolveTarget(inv, first)).value;
    var s := RefreshStep(users, config, inv, first, clock, true, ExchangeGranted(access, refresh, expiresIn), profile);
    GrantedExchangeWritesTokens(users, config, inv, first, clock, true, access, refresh, expiresIn, profile);
    var after := PitchlyIn(s.users, c.id).value;
    assert s.users[c.id].services.value.pitchly == Some(after);
    assert HoldsRefreshToken(s.users[c.id]);
    var c2 := CheckTarget(s.users, config, ResolveTarget(inv, second));
    assert c2.Ok? && c2.value.rec == after;
    assert FarFromExpiry(after, later.checkedAt);
  }

  /** With the opened token in the skip window's reply, the two replies agree
      on the token. */
  lemma IntendedSkipReplyMatchesRefresh(
    users: UserMap, config: Option<Config>, inv: Invocation, first: Value, second: Value,
    clock: Clock, later: Clock, access: string, refresh: string, expiresIn: int,
    exchange: TokenResponse, profile: ProfileResponse, other: ProfileResponse)
    requires RefreshedThenSkipped(users, config, inv, first, second, clock, later, expiresIn)
    ensures var s := RefreshStepIntended(users, config, inv, first, clock, true, ExchangeGranted(access, refresh, expiresIn), profile);
      var t := RefreshStepIntended(s.users, config, inv, second, later, true, exchange, other);
      s.result == Ok(Reply(true, Some(Plain(access)), expiresIn)) &&
      t.result.Ok? && !t.result.value.refreshed &&
      t.result.value.accessToken == s.result.value.accessToken
  {
    var c := CheckTarget(users, config, ResolveTarget(inv, first)).value;
    var s := RefreshStepIntended(users, config, inv, first, clock, true, ExchangeGranted(access, refresh, expiresIn), profile);
    GrantedExchangeWritesTokens(users, config, inv, first, clock, true, access, refresh, expiresIn, profile);
    var after := PitchlyIn(s.users, c.id).value;
    assert s.users[c.id].services.value.pitchly == Some(after);
    assert HoldsRefreshToken(s.users[c.id]);
    var c2 := CheckTarget(s.users, config, ResolveTarget(inv, second));
    assert c2.Ok? && c2.value.rec == after;
    assert FarFromExpiry(after, later.checkedAt);
  }
}

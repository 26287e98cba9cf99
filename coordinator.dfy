/** The server side of the token refresh: `Meteor.users` as an object whose
    method `Refresh` runs `Pitchly.refreshAccessToken` statement by statement
    and updates the store in place. */
module Coordinator {
  import opened Wrappers
  import opened Js
  import opened Accounts
  import opened Refresh

  class UserStore {
    /** `Meteor.users`, keyed by `_id`. */
    var users: UserMap

    constructor (initial: UserMap)
      ensures users == initial
    {
      users := initial;
    }

    /** One call of `Pitchly.refreshAccessToken(data)` under invocation `inv`.
        Besides the result it returns the requests it sent, so that a caller
        can tell whether the token endpoint and the profile query were used. */
    method Refresh(
      config: Option<Config>, inv: Invocation, data: Value,
      clock: Clock, encrypted: bool, exchange: TokenResponse, profile: ProfileResponse)
      returns (result: Result<Reply, Failure>, tokenRequest: Option<TokenRequest>, profileQuery: Option<ProfileQuery>)
      modifies this
      ensures var s := RefreshStep(old(users), config, inv, data, clock, encrypted, exchange, profile);
        result == s.result && users == s.users && tokenRequest == s.tokenRequest && profileQuery == s.profileQuery
    {
      tokenRequest, profileQuery := None, None;
      var force, checked := Authorize(config, inv, data);
      if checked.Err? {
        return Err(checked.error), tokenRequest, profileQuery;
      }
      var rec := checked.value.rec;
      if !force {
        if rec.accessTokenExpiresAt.Some? && rec.accessTokenExpiresAt.value != 0 && rec.accessTokenExpiresAt.value > clock.checkedAt + SkipWindowMs {
          var left := (rec.accessTokenExpiresAt.value - clock.checkedAt) / 1000;
          return Ok(Reply(false, rec.accessToken, left)), tokenRequest, profileQuery;
        }
      }
      result, tokenRequest, profileQuery := Exchange(checked.value, clock, encrypted, exchange, profile);
    }

    /** The start of a call, up to the first network request: `force` and the
        target user from the options, then the four checks in their order. */
    method Authorize(config: Option<Config>, inv: Invocation, data: Value)
      returns (force: bool, checked: Result<Checked, Failure>)
      ensures force == ParseForce(data)
      ensures checked == CheckTarget(users, config, ResolveTarget(inv, data))
    {
      force := true;
      if IsPlainObject(data) {
        var f := Get(data, "force");
        if f.Bool? {
          force := f.b;
        }
      }
      var userId := inv.userId;
      if !inv.fromClient {
        if IsPlainObject(data) {
          var u := Get(data, "userId");
          if u.Str? {
            userId := Some(u.s);
          }
        }
      }
      if userId.None? || userId.value == "" {
        return force, Err(LoggedOut);
      }
      var id := userId.value;
      if id !in users {
        return force, Err(UserNotFound);
      }
      var user := users[id];
      if user.services.None? || user.services.value.pitchly.None? || !SecretPresent(user.services.value.pitchly.value.refreshToken) {
        return force, Err(RefreshTokenNotFound);
      }
      if config.None? {
        return force, Err(ServiceNotConfigured);
      }
      checked := Ok(Checked(id, user.services.value.pitchly.value, config.value));
    }

    /** The form of the refresh-token grant: the origin, the scope parameter
        and both secrets opened. */
    method BuildTokenRequest(c: Checked) returns (request: TokenRequest)
      requires c.rec.refreshToken.Some?
      ensures request == TokenRequestFor(c)
    {
      var conf := c.config;
      var origin := if conf.origin.Some? && conf.origin.value != "" then conf.origin.value else DefaultOrigin;
      var scope: Option<string> := None;
      match conf.accessTokenScope {
        case ScopeString(t) => scope := Some(t);
        case ScopeList(items) => scope := Some(JoinSpaced(items));
        case ScopeUnset =>
      }
      request := TokenRequest(origin + "/api/oauth/token", "refresh_token", conf.clientId,
                              Open(conf.secret), Open(c.rec.refreshToken.value), scope);
    }

    /** The token exchange and the profile sync of a call that passed the
        checks and was not skipped. */
    method Exchange(c: Checked, clock: Clock, encrypted: bool, exchange: TokenResponse, profile: ProfileResponse)
      returns (result: Result<Reply, Failure>, tokenRequest: Option<TokenRequest>, profileQuery: Option<ProfileQuery>)
      requires c.id in users && c.rec.refreshToken.Some?
      modifies this
      ensures var s := ExchangeStep(old(users), c, clock, encrypted, exchange, profile);
        result == s.result && users == s.users && tokenRequest == s.tokenRequest && profileQuery == s.profileQuery
    {
      var id, rec := c.id, c.rec;
      profileQuery := None;
      // exchange the current refresh token for a new token pair
      var request := BuildTokenRequest(c);
      tokenRequest := Some(request);
      var origin := Origin(c.config);
      if !exchange.ExchangeGranted? {
        return Err(RequestFailed), tokenRequest, profileQuery;
      }
      rec := rec.(accessToken := Some(Seal(exchange.accessToken, encrypted)),
                  accessTokenExpiresAt := Some(clock.exchangedAt + 1000 * exchange.expiresIn),
                  refreshToken := Some(Seal(exchange.refreshToken, encrypted)),
                  updatedAt := Some(clock.writtenAt));
      assert rec == WithTokens(c.rec, exchange.accessToken, exchange.refreshToken, exchange.expiresIn, clock, encrypted);
      users := users[id := WithPitchly(users[id], rec)];
      // update the profile mirror with the new access token
      profileQuery := Some(ProfileQuery(origin + "/graphql", exchange.accessToken));
      match profile {
        case ProfileThrew =>
          return Err(ProfileTypeError), tokenRequest, profileQuery;
        case ProfileWithoutPerson =>
          return Err(ProfileTypeError), tokenRequest, profileQuery;
        case ProfileWithoutData =>
        case ProfilePerson(name, email, image) =>
          rec := rec.(name := name, email := email, picture := image, updatedAt := Some(clock.syncedAt));
          users := users[id := WithPitchly(users[id], rec)];
      }
      result := Ok(Reply(true, Some(Plain(exchange.accessToken)), exchange.expiresIn));
    }
  }
}

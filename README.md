# Pitchly accounts: token refresh, modelled in Dafny

This project models the logic of the `accounts-pitchly` Meteor package, which adds
"Pitchly" as an OAuth login service. Two parts are modelled:

- **The server method `Pitchly.refreshAccessToken`.** It parses `force` from a loosely typed
  `data` argument and resolves which user to refresh. It then makes four checks in a fixed order:
  `logged-out`, `user-not-found`, `refresh-token-not-found`, `service-not-configured`.
  With `force: false` it skips the exchange while the stored token expires more than 10 minutes away.
  Otherwise it posts a refresh-token grant to the token endpoint. On success it stores the new sealed
  token pair, then queries the viewer's profile and stores name, email and picture.
  - `Refresh.RefreshStep` is the whole call as one pure step over the user store.
  - `Coordinator.UserStore.Refresh` runs the same call statement by statement and updates the store in place.
  - The lemmas in `RefreshLemmas` state what a call promises.
- **The fields published to clients** (`Fields`). `refreshToken` is never published.
- **The client refresh loop** (`Scheduler.RefreshLoop`). A tick runs every second and calls the method
  with `{ force: false }` once more than six minutes have passed since the last successful call.
  A tick and the callback of its call are separate steps (`Tick` and `Callback`).
  A tick that does not call arms the next tick at once. A tick that calls arms nothing; only the callback arms the next tick.
  So a callback that never runs stops the loop.
  The loop keeps a ghost history of calls, callbacks and timers. `Scheduler.Next` is the order these may come in.
  From it the model proves that at most one call is ever in flight.
- **The argument shuffle of `loginWithPitchly`** (`Login`).

The network, the clock and the sealing primitive are inputs:
- `TokenResponse` and `ProfileResponse` are the possible answers of the two HTTP requests.
- `Clock` holds four clock readings of a server call: the skip test (lines 81 and 86, taken as one reading),
  the expiry estimate (line 130), the token write's `updatedAt` (line 132) and the profile write (line 172).
- The client's `Tick` receives the clock reading at the tick, and `Callback` the one inside the callback.
- `Seal` takes a flag for whether OAuth encryption is configured. With the flag off, it stores the plain text,
  so an empty token is falsy when read back. With the flag on, it gives a sealed value, which is always truthy.
  Sealing is modelled as an injective function that can be opened; no cryptography is modelled.

Where the code and its stated intent disagree, the model follows the code:
- **Profile failures are not swallowed.** The profile sync is meant to fail passively
  (`pitchly_server.js:138`, `165`). In the code, a profile request that throws leaves `response` undefined.
  Reading `response.data` then throws a TypeError, after the new tokens were already stored. The same
  happens when `data` is present but `data.viewer.person` is not. The model returns
  `ProfileTypeError` with the new tokens stored (`RefreshLemmas.ProfileFailureAfterTokenWrite`).
- **The two replies return different token forms.** The skip path returns `accessToken` as stored,
  so it is sealed whenever sealing is enabled. The refresh path returns the raw token from the provider.

Both are listed under "## Findings". `Refresh.RefreshStep` keeps the code's behaviour.
The module `Findings` defines the intended behaviour beside it (`Findings.RefreshStepIntended`) and proves what it promises.

## Model

| member | source | states |
|---|---|---|
| `Fields.Prefixed` | pitchly_server.js:8-9 | every published key is `services.pitchly.` followed by the field at the same position |
| `Fields.PrefixCancels` | pitchly_server.js:8-9 | two fields with the same published key are the same field |
| `Fields.PublishedKeyIffField` | pitchly_server.js:8-9 | a key is published exactly when its field is in the list |
| `Fields.RefreshTokenNeverPublished` | pitchly_server.js:1-4 | `refreshToken` is published neither to its owner nor to other users |
| `Fields.NoTokenForOtherUsers` | pitchly_server.js:4 | `accessToken` and `accessTokenExpiresAt` are not published to other users |
| `Fields.OtherUserFieldsAreSubset` | pitchly_server.js:3-4 | other users see a subset of what the logged-in user sees |
| `Fields.PublishedProjection` | pitchly_server.js:14-24 | with a logged-in user, the projection has exactly the prefixed logged-in fields, each set to 1; with none, nothing is published |
| `Accounts.Seal` | pitchly_server.js:129-131 | a sealed token opens back to the plain token; it is sealed exactly when encryption is configured |
| `Accounts.Open` | pitchly_server.js:99-100 | opening loses nothing: sealing the opened text the same way gives the stored secret back (stated by `Accounts.OpenThenSeal`) |
| `Accounts.OpenThenSeal` | pitchly_server.js:99-100 | sealing the opened text with the secret's own mode gives the stored secret back |
| `Accounts.HoldsRefreshToken` | pitchly_server.js:72 | the third check's condition: `services`, `services.pitchly` and a truthy stored refresh token; its consequence is stated by `RefreshLemmas.RotatedTokenFoundIffTruthy` |
| `Accounts.SealInjective` | pitchly_server.js:129-131 | distinct tokens are never sealed to the same stored value |
| `Refresh.ParseForce` | pitchly_server.js:43-50 | `force` is false exactly when `data` is a plain object whose `force` is `false`; otherwise it is true |
| `Refresh.ResolveTarget` | pitchly_server.js:51-64 | a client call targets the caller; a server call with a string `data.userId` targets that id; the target differs from the caller only in that case |
| `Refresh.HasIdentity` | pitchly_server.js:65 | `!userId` is false: the target is present and non-empty; `CheckTarget` fails with `logged-out` exactly when it does not hold |
| `Refresh.CheckTarget` | pitchly_server.js:65-78 | each of the four errors occurs exactly when every earlier check passed and its own check fails; success hands on the stored record and the configuration |
| `Refresh.FarFromExpiry` | pitchly_server.js:81 | the skip condition: a stored, non-zero expiry more than 600000 ms after the clock reading; `SkipWindowAnswersFromStore` and `ExchangeUnlessSkipped` state both sides of it |
| `Refresh.CachedReply` | pitchly_server.js:79-89 | the skip reply is not refreshed, carries the stored token, and its seconds are the floor of the time left, at least 600 |
| `Refresh.ScopeParam` | pitchly_server.js:102-109 | `scope` is the configured string, the configured list joined by single spaces, or absent |
| `Refresh.JoinSpaced` | pitchly_server.js:108 | a one-entry list joins to its entry, a longer one starts with the first entry and a space; `ScopeListRoundTrip` is its inverse |
| `Refresh.ScopeListRoundTrip` | pitchly_server.js:105-109 | a configured scope list whose entries contain no space is split back by the provider into the same list |
| `Refresh.Origin` | pitchly_server.js:111 | the configured origin when it is non-empty, else the default platform URL |
| `Refresh.TokenRequestFor` | pitchly_server.js:93-118 | the grant is `refresh_token`, with the client id, the opened client secret, the opened refresh token and the scope, posted to `{origin}/api/oauth/token` |
| `Refresh.WithTokens` | pitchly_server.js:127-134 | the token write sets both tokens sealed as configured, the expiry `exchangedAt + 1000 * expires_in` and `updatedAt` from its own reading, and leaves the profile mirror alone |
| `Refresh.WithProfile` | pitchly_server.js:166-174 | the profile write sets name, email, picture and `updatedAt`, and leaves the tokens, `id` and `organizationId` alone |
| `Refresh.ExchangeStep` | pitchly_server.js:93-177 | the grant is always sent; a profile query is sent exactly when the exchange was granted; a failed exchange fails with `request-failed` and writes nothing; only the target's record can change |
| `Refresh.RefreshStep` | pitchly_server.js:42-184 | a call never adds or removes users; a call that sends no token request writes nothing and sends no profile query; a reply that is not refreshed comes without a token request |
| `RefreshLemmas.ChecksComeFirst` | pitchly_server.js:65-78 | a failing check is the call's error, with no write and no request; any request implies every check passed |
| `RefreshLemmas.RemoteCallIgnoresUserId` | pitchly_server.js:54-64 | a client call gives the same result and store whatever `data.userId` holds |
| `RefreshLemmas.OtherUserOnlyFromServer` | pitchly_server.js:54-64 | a successful call for a user other than the caller must come from the server with a string `data.userId` |
| `RefreshLemmas.SkipWindowAnswersFromStore` | pitchly_server.js:79-89 | with `force: false` and more than 10 minutes left: no request, no write, the stored token and at least 600 seconds |
| `RefreshLemmas.ExchangeUnlessSkipped` | pitchly_server.js:79-101 | a forced call, or one near or past expiry, always sends the refresh-token grant with the stored refresh token |
| `RefreshLemmas.FailedExchangeWritesNothing` | pitchly_server.js:120-126 | a thrown or rejected exchange leaves the store unchanged, sends no profile query, and fails with `request-failed` |
| `RefreshLemmas.GrantedExchangeWritesTokens` | pitchly_server.js:127-134 | a granted exchange stores all four token fields together, keeps `id` and `organizationId`, changes name, email and picture only through the profile write, and changes no other user |
| `RefreshLemmas.RefreshedReplyFromProvider` | pitchly_server.js:177-183 | a refreshed reply carries the provider's raw token and its `expires_in`; the profile query uses that new token |
| `RefreshLemmas.ProfileWriteKeepsTokens` | pitchly_server.js:166-174 | the profile write leaves the token fields as the token write stored them and does not change the reply |
| `RefreshLemmas.ProfileFailureAfterTokenWrite` | pitchly_server.js:139-177 | a profile query that throws makes the call fail although the new tokens are already stored |
| `RefreshLemmas.RotatedTokenFoundIffTruthy` | pitchly_server.js:72-74 | after a granted exchange, the next call finds the rotated refresh token exactly when encryption is configured or the token is non-empty; otherwise it fails with `refresh-token-not-found` |
| `RefreshLemmas.OnlyTargetChanges` | pitchly_server.js:127-174 | a call changes only the target user's record; a call that fails for any reason other than the profile read changes nothing |
| `Coordinator.UserStore.Authorize` | pitchly_server.js:43-78 | the step-by-step option parsing and checks compute `ParseForce` and `CheckTarget` |
| `Coordinator.UserStore.BuildTokenRequest` | pitchly_server.js:96-111 | the form built field by field is the refresh-token grant `TokenRequestFor` describes |
| `Coordinator.UserStore.Exchange` | pitchly_server.js:90-183 | the in-place exchange and profile sync leave the store, the requests and the result that `ExchangeStep` describes |
| `Coordinator.UserStore.Refresh` | pitchly_server.js:42-184 | the in-place call leaves the store, the requests and the result that `RefreshStep` describes |
| `Scheduler.Due` | pitchly_client.js:31 | six minutes have passed since the last success: `lastRefreshedAt < now - 360000`; `RefreshLoop.Tick` calls exactly when it holds |
| `Scheduler.Next` | pitchly_client.js:29-41 | the order a run of the loop allows: a tick calls or re-arms, a call is followed by its callback, and only the callback arms after a call |
| `Scheduler.Snoc` | pitchly_client.js:29-41 | appending one event moves the phase, the timer count, the calls in flight and the last success time by exactly that event |
| `Scheduler.InFlightOfPhase` | pitchly_client.js:31-37 | in a run of the loop, one call is unanswered exactly while the loop waits for a callback, and none otherwise |
| `Scheduler.ReplayPrefix` | pitchly_client.js:29-41 | every prefix of a run of the loop is a run of the loop |
| `Scheduler.AtMostOneInFlight` | pitchly_client.js:31-37 | at every point of a run of the loop, at most one call is unanswered |
| `Scheduler.SettledBeforeCallOrTimer` | pitchly_client.js:31-39 | a call is issued, and a timer armed, only when no call is unanswered |
| `Scheduler.OnlyTheCallbackArms` | pitchly_client.js:32-39 | arming a tick before the callback ran, or calling twice without a callback, is not a run of the loop |
| `Scheduler.FirstTickCalls` | pitchly_client.js:27-43 | a new loop's first tick calls at any clock reading past six minutes |
| `Scheduler.RefreshLoop.constructor` | pitchly_client.js:27 | the loop starts with `lastRefreshedAt = 0`, its first tick scheduled and an empty history |
| `Scheduler.RefreshLoop.Tick` | pitchly_client.js:29-41 | runs only when scheduled, so never while a call is pending; calls exactly when `lastRefreshedAt < now - 360000`, with `force: false`; a tick that calls arms nothing and leaves the call pending; one that does not call arms one timer; the loop's invariant is kept |
| `Scheduler.RefreshLoop.Callback` | pitchly_client.js:32-37 | runs only for a pending call; only a call without an error sets `lastRefreshedAt`, to the callback's reading; then it arms the next tick |
| `Findings.ProfileReadDecidesResult` | pitchly_server.js:139-177 | as written, after the same granted exchange, a profile query that throws fails the call while an answer without `data` succeeds |
| `Refresh.ExchangeStepIntended` | pitchly_server.js:138-183 | with the passive profile sync, a granted exchange always succeeds with the provider's token; the store is as the code leaves it |
| `Findings.IntendedDiffersOnlyOnProfileRead` | pitchly_server.js:165-171 | the intended exchange differs from the code exactly when the exchange was granted and the profile answer could not be read; store and requests are the same |
| `Findings.IntendedProfileNeverChangesResult` | pitchly_server.js:138-177 | with the passive profile sync, the profile answer never changes the call's result |
| `Findings.RefreshStepIntended` | pitchly_server.js:42-184 | the corrected call writes and sends exactly what the code does, and every token it returns is plain text |
| `Findings.SkipReplyAfterRefreshIsSealed` | pitchly_server.js:79-89 | as written, with encryption on, a refresh replies with the token in the clear and a later skip-window call replies with the same token sealed |
| `Refresh.CachedReplyIntended` | pitchly_server.js:83-87 | the skip reply with the stored token opened; its seconds are the same as the code's |
| `Findings.IntendedSkipReplyMatchesRefresh` | pitchly_server.js:79-89 | with the opened token, the skip-window reply after a refresh carries the same token as the refresh reply |
| `Login.NormalizeLoginArgs` | pitchly_client.js:1-6 | a function in the options position with a falsy callback becomes the callback, with options null; any other pair is unchanged; afterwards a function never sits in options without a callback |
| `Login.NormalizeIdempotent` | pitchly_client.js:3-6 | normalising the arguments twice is normalising them once |

## Left out

- The HTTP requests are not modelled: `fetch`, `.await()`, `URLSearchParams` encoding, headers, and the GraphQL query text. Each request is an outcome datatype. The request values record only what is sent.
- The `User-Agent` string (`pitchly_server.js:90-91`) only labels requests, so it is left out.
- `OAuth.sealSecret`/`OAuth.openSecret` are modelled only as an injective, openable function, switched by whether encryption is configured. Their cryptography and the user-id argument are not modelled.
- The Meteor registration is framework glue and is left out: `Accounts.addAutopublishFields`, `Meteor.publish`, `Meteor.methods`, `registerClientLoginFunction`, `applyLoginFunction`.
- The publication handler's `Meteor.users.find` cursor and `this.ready()` are not modelled. Only the projection they are built from is modelled.
- `loginWithPitchly` lines 7-8 hand the arguments to `Pitchly.requestCredential`, which is not part of this model. Only the normalised arguments are modelled.
- `Pitchly.getTokenDataFromUrl` only logs its argument.
- `Meteor.setTimeout` and `Date.now` become parameters. A timer is an `ArmTimer` event.
- Concurrent refreshes for the same user are not modelled. Each server call is one atomic step.
- The client loop has one instance, as the module-level `lastRefreshedAt` has. A second call to `refreshAccessToken` from elsewhere is not modelled.
- `package.js` (metadata) and `notice.js` (a console warning) are not part of this model.
- Refresh.CachedReply: lines 81 and 86 read the clock twice; the model uses one reading. So the bound of at least 600 seconds covers only that case. A later second reading could give less.
- Refresh.WithTokens: `expires_in` is taken as an integer. `parseInt` of a string or fraction is not modelled, and neither is a reply that has neither `error` nor tokens.
- Refresh.ScopeParam: array entries are taken to be strings. JavaScript's string conversion of other entries in `join` is not modelled. Any other setting counts as "no scope".
- Js.Value: numbers are integers, so NaN, fractions and `-0` are not modelled. A user document holds only `services.pitchly`; its other services and fields are not modelled.

## Findings

| source | as written | input that shows it | evidently intended | confidence | as-written member | corrected member |
|---|---|---|---|---|---|---|
| pitchly_server.js:163-171 | the profile sync reads `response.data` and `response.data.viewer.person` without a guard, so a profile query that throws, or an answer without `viewer.person`, throws a TypeError after the new tokens were stored | a granted exchange followed by a profile fetch that throws: the call fails, though the store already holds the rotated tokens | the comment "passively fail on error" (line 165): the call succeeds with the new token whatever the profile answer | high, not executed | `Findings.ProfileReadDecidesResult` | `Findings.IntendedProfileNeverChangesResult` |
| pitchly_server.js:85 | the skip reply returns `accessToken` as stored, which is the sealed object when OAuth encryption is configured, while the refresh reply returns the provider's raw token (line 181) | encryption on; a forced call is granted token `t`, then a `{ force: false }` call within the token's lifetime minus 10 minutes replies with `Sealed(t)` instead of `t` | both replies give the caller a usable access token, the stored one opened as on line 100 | medium, not executed | `Findings.SkipReplyAfterRefreshIsSealed` | `Findings.IntendedSkipReplyMatchesRefresh` |

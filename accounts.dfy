/** The part of a user account the package reads and writes: the
    `services.pitchly` sub-record, the provider's service configuration, and
    the sealing of secrets at rest. */
module Accounts {
  import opened Wrappers

  /** A credential as stored: either plain text (sealing disabled, or written
      by an older login) or a sealed object. Sealing is opaque here; the only
      thing the model relies on is that it is injective and can be opened. */
  datatype Secret = Plain(text: string) | Sealed(text: string)

  /** `OAuth.sealSecret`: an object when OAuth encryption is configured, the
      plain text unchanged otherwise. */
  function Seal(plain: string, encrypted: bool): (s: Secret)
    ensures Open(s) == plain
    ensures s.Sealed? == encrypted
  {
    if encrypted then Sealed(plain) else Plain(plain)
  }

  /** `OAuth.openSecret`: plain text passes through, a sealed secret is opened. */
  function Open(s: Secret): string {
    s.text
  }

  /** Opening loses nothing: sealing the opened text the same way gives the
      stored secret back. */
  lemma OpenThenSeal(s: Secret)
    ensures Seal(Open(s), s.Sealed?) == s
  {
  }

  /** Two distinct tokens are never sealed to the same stored value. */
  lemma SealInjective(a: string, b: string, encrypted: bool)
    ensures Seal(a, encrypted) == Seal(b, encrypted) <==> a == b
  {
  }

  /** Truthiness of a stored secret: a sealed object is always truthy, plain
      text only when it is not empty. */
  predicate SecretPresent(s: Option<Secret>) {
    s.Some? && (s.value.Sealed? || s.value.text != "")
  }

  /** `services.pitchly` of a user record. */
  datatype PitchlyRecord = PitchlyRecord(
    id: Option<string>,
    name: Option<string>,
    email: Option<string>,
    picture: Option<string>,
    organizationId: Option<string>,
    accessToken: Option<Secret>,
    accessTokenExpiresAt: Option<int>,
    refreshToken: Option<Secret>,
    updatedAt: Option<int>)

  datatype Services = Services(pitchly: Option<PitchlyRecord>)

  /** A user document; only its `services` sub-document is modelled. */
  datatype User = User(services: Option<Services>)

  /** `Meteor.users`, keyed by `_id`. */
  type UserMap = map<string, User>

  /** `config.accessTokenScope`: a string, an array of strings, or anything else. */
  datatype ScopeSetting = ScopeString(text: string) | ScopeList(items: seq<string>) | ScopeUnset

  /** The `pitchly` row of `ServiceConfiguration.configurations`. */
  datatype Config = Config(clientId: string, secret: Secret, origin: Option<string>, accessTokenScope: ScopeSetting)

  /** `user.services && user.services.pitchly && user.services.pitchly.refreshToken` */
  predicate HoldsRefreshToken(u: User) {
    u.services.Some? && u.services.value.pitchly.Some? && SecretPresent(u.services.value.pitchly.value.refreshToken)
  }

  /** The user document with `services.pitchly` replaced by `rec`. */
  function WithPitchly(u: User, rec: PitchlyRecord): (v: User)
    ensures v.services.Some? && v.services.value.pitchly == Some(rec)
  {
    u.(services := Some(Services(Some(rec))))
  }

  /** The profile mirror of a record: the fields the token write must not touch. */
  predicate SameProfile(a: PitchlyRecord, b: PitchlyRecord) {
    a.id == b.id && a.name == b.name && a.email == b.email && a.picture == b.picture && a.organizationId == b.organizationId
  }

  /** The credential fields of a record: the fields the profile write must not touch. */
  predicate SameTokens(a: PitchlyRecord, b: PitchlyRecord) {
    a.accessToken == b.accessToken && a.accessTokenExpiresAt == b.accessTokenExpiresAt && a.refreshToken == b.refreshToken
  }
}

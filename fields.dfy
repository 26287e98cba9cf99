/** The fields of `services.pitchly` that are published to clients: all
    non-secret fields to the logged-in user about themselves, a public subset
    to everybody else. `refreshToken` is never among them. */
module Fields {
  import opened Wrappers

  const LoggedInUserFields: seq<string> :=
    ["id", "name", "email", "picture", "organizationId", "accessToken", "accessTokenExpiresAt", "updatedAt"]

  const OtherUserFields: seq<string> := ["id", "name", "picture", "organizationId"]

  const FieldPrefix: string := "services.pitchly."

  /** `fields.map((prop) => 'services.pitchly.' + prop)` */
  function Prefixed(fields: seq<string>): (keys: seq<string>)
    ensures |keys| == |fields|
    ensures forall i :: 0 <= i < |fields| ==> keys[i] == FieldPrefix + fields[i]
  {
    if fields == [] then [] else [FieldPrefix + fields[0]] + Prefixed(fields[1..])
  }

  /** Distinct fields give distinct published keys. */
  lemma PrefixCancels(a: string, b: string)
    ensures FieldPrefix + a == FieldPrefix + b ==> a == b
  {
    if FieldPrefix + a == FieldPrefix + b {
      assert (FieldPrefix + a)[|FieldPrefix|..] == a;
      assert (FieldPrefix + b)[|FieldPrefix|..] == b;
    }
  }

  /** A key is published exactly when its field is in the list. */
  lemma PublishedKeyIffField(fields: seq<string>, f: string)
    ensures FieldPrefix + f in Prefixed(fields) <==> f in fields
  {
    var keys := Prefixed(fields);
    if FieldPrefix + f in keys {
      var i :| 0 <= i < |keys| && keys[i] == FieldPrefix + f;
      PrefixCancels(fields[i], f);
    }
    if f in fields {
      var i :| 0 <= i < |fields| && fields[i] == f;
      assert keys[i] == FieldPrefix + f;
    }
  }

  /** The refresh token is published neither to its owner nor to anyone else. */
  lemma RefreshTokenNeverPublished()
    ensures FieldPrefix + "refreshToken" !in Prefixed(LoggedInUserFields)
    ensures FieldPrefix + "refreshToken" !in Prefixed(OtherUserFields)
  {
    assert "refreshToken" !in LoggedInUserFields;
    PublishedKeyIffField(LoggedInUserFields, "refreshToken");
    PublishedKeyIffField(OtherUserFields, "refreshToken");
  }

  /** No credential is published to other users. */
  lemma NoTokenForOtherUsers()
    ensures FieldPrefix + "accessToken" !in Prefixed(OtherUserFields)
    ensures FieldPrefix + "accessTokenExpiresAt" !in Prefixed(OtherUserFields)
  {
    PublishedKeyIffField(OtherUserFields, "accessToken");
    PublishedKeyIffField(OtherUserFields, "accessTokenExpiresAt");
  }

  /** Other users see a subset of what the owner sees. */
  lemma OtherUserFieldsAreSubset()
    ensures forall f :: f in OtherUserFields ==> f in LoggedInUserFields
  {
  }

  /** The publication handler of the current user: when a user is logged in
      (`this.userId` truthy), the projection `{ 'services.pitchly.<field>': 1 }`
      for every logged-in field; otherwise nothing is published. */
  method PublishedProjection(userId: Option<string>) returns (fields: Option<map<string, int>>)
    ensures fields.Some? <==> userId.Some? && userId.value != ""
    ensures fields.Some? ==> forall k :: k in fields.value <==> k in Prefixed(LoggedInUserFields)
    ensures fields.Some? ==> forall k :: k in fields.value ==> fields.value[k] == 1
  {
    if userId.None? || userId.value == "" {
      return None;
    }
    var keys := Prefixed(LoggedInUserFields);
    var m: map<string, int> := map[];
    for i := 0 to |LoggedInUserFields|
      invariant forall k :: k in m <==> k in keys[..i]
      invariant forall k :: k in m ==> m[k] == 1
    {
      m := m[FieldPrefix + LoggedInUserFields[i] := 1];
      assert keys[..i + 1] == keys[..i] + [keys[i]];
    }
    assert keys[..|LoggedInUserFields|] == keys;
    fields := Some(m);
  }
}

/**
 * The SDK's entity classes and their `to_json` / `from_json` pairs.
 *
 * `EncodeX(x)` is the dict that `x.to_json()` hands to `ucjson.dumps`;
 * `DecodeX(j)` is `X.from_json(j)` on the dict `ucjson.loads` produced.
 * The text layer between them (dumps, then loads) is taken to give back
 * the same value, except where the code itself nests JSON text inside a
 * dict (`User` and `UserResponse` embed `profile.to_json()`), which is
 * modelled with `Dumps`.
 */
module Models {
  import opened Wrappers
  import opened Json
  import opened Uuids
  import opened Timestamps

  predicate HasKeys(j: Json, keys: seq<string>) {
    forall k :: k in keys ==> HasKey(j, k)
  }

  // ----- Field codecs -----

  /** `str(u)` as a JSON string; `uuid.UUID` reads it back. */
  function UuidJson(u: Uuid): (v: Json)
    ensures DecodeUuid(v) == Success(u)
  {
    ParseToString(u);
    JString(ToString(u))
  }

  /** `uuid.UUID(v)`: only a string that parses as a UUID is accepted. */
  function DecodeUuid(v: Json): (r: Result<Uuid, DecodeError>)
    ensures r.Success? <==> v.JString? && Parse(v.s).Some?
    ensures r.Failure? ==> r.error == NotUuid(v)
  {
    match v
    case JString(s) =>
      (match Parse(s)
       case Some(u) => Success(u)
       case None => Failure(NotUuid(v)))
    case _ => Failure(NotUuid(v))
  }

  /** `t.isoformat()` as a JSON string; `iso8601.parse_date` reads it back. */
  function IsoJson(t: Timestamp): (v: Json)
    ensures v.JString?
    ensures DecodeIso(v) == Success(t)
  {
    ParseIsoFormat(t);
    JString(IsoFormat(t))
  }

  /** `iso8601.parse_date(v)`: only ISO text is accepted. */
  function DecodeIso(v: Json): (r: Result<Timestamp, DecodeError>)
    ensures r.Success? ==> v.JString? && ParseIso(v.s) == Some(r.value)
  {
    match v
    case JString(s) =>
      (match ParseIso(s)
       case Some(t) => Success(t)
       case None => Failure(NotIsoTimestamp(v)))
    case _ => Failure(NotIsoTimestamp(v))
  }

  /**
   * `datetime.fromtimestamp(v)`: a number of seconds (a bool counts as 0 or
   * 1, as Python's bool is an int); text is refused.
   */
  function DecodeEpoch(v: Json): (r: Result<Timestamp, DecodeError>)
    ensures r.Success? <==> v.JBool? || (v.JNumber? && FromEpoch(v.n).Some?)
    ensures v.JNumber? && FromEpoch(v.n).Some? ==> r == Success(FromEpoch(v.n).value)
    ensures v.JBool? ==> r == Success(FromEpoch(if v.b then 1 else 0).value)
    ensures r.Failure? ==> r.error == NotEpochTimestamp(v)
  {
    var secs :- match v
                case JNumber(n) => Success(n)
                case JBool(b) => Success(if b then 1 else 0)
                case _ => Failure(NotEpochTimestamp(v));
    match FromEpoch(secs)
    case Some(t) => Success(t)
    case None => Failure(NotEpochTimestamp(v))
  }

  function UuidAt(j: Json, key: string): Result<Uuid, DecodeError> {
    var v :- Index(j, key);
    DecodeUuid(v)
  }

  function IsoAt(j: Json, key: string): Result<Timestamp, DecodeError> {
    var v :- Index(j, key);
    DecodeIso(v)
  }

  // ----- UserProfile -----

  datatype UserProfile = UserProfile(email: Json, emailVerified: Json, name: Json, nickname: Json, picture: Json)

  /** The dict `UserProfile.to_json` dumps; also the profile's `__dict__`. */
  function EncodeProfile(p: UserProfile): (r: Json)
    ensures r.JObject? && Keys(r.fields) == ["email", "email_verified", "name", "nickname", "picture"]
  {
    JObject([("email", p.email), ("email_verified", p.emailVerified), ("name", p.name),
             ("nickname", p.nickname), ("picture", p.picture)])
  }

  /** `UserProfile.from_json`: every field is read with `.get`, so an absent key reads as None. */
  function DecodeProfile(j: Json): (r: Result<UserProfile, DecodeError>)
    ensures r.Success? <==> j.JObject?
    ensures j.JObject? && !HasKey(j, "email") ==> r.value.email == JNull
    ensures j.JObject? && !HasKey(j, "email_verified") ==> r.value.emailVerified == JNull
    ensures j.JObject? && !HasKey(j, "name") ==> r.value.name == JNull
    ensures j.JObject? && !HasKey(j, "nickname") ==> r.value.nickname == JNull
    ensures j.JObject? && !HasKey(j, "picture") ==> r.value.picture == JNull
  {
    match j
    case JObject(fields) =>
      Success(UserProfile(LookupOrNull(fields, "email"), LookupOrNull(fields, "email_verified"),
                          LookupOrNull(fields, "name"), LookupOrNull(fields, "nickname"),
                          LookupOrNull(fields, "picture")))
    case _ => Failure(NotAnObject)
  }

  lemma ProfileRoundTrip(p: UserProfile)
    ensures DecodeProfile(EncodeProfile(p)) == Success(p)
  {
    var f := EncodeProfile(p).fields;
    LookupFirst(f, 0);
    LookupFirst(f, 1);
    LookupFirst(f, 2);
    LookupFirst(f, 3);
    LookupFirst(f, 4);
  }

  // ----- User -----

  datatype User = User(id: Uuid, created: Timestamp, updated: Timestamp, deleted: Timestamp,
                       userId: Uuid, requireMfa: Json, profile: UserProfile, profileExt: Json)

  /** The entries of a `User` dict, with `profile` encoded as given. */
  function UserFields(u: User, profile: Json): seq<(string, Json)> {
    [("id", UuidJson(u.id)), ("created", IsoJson(u.created)), ("updated", IsoJson(u.updated)),
     ("deleted", IsoJson(u.deleted)), ("user_id", UuidJson(u.userId)), ("require_mfa", u.requireMfa),
     ("profile", profile), ("profile_ext", u.profileExt)]
  }

  /** The dict `User.to_json` dumps: `profile` is the TEXT of the profile's own `to_json()`. */
  function EncodeUser(u: User): (r: Json)
    ensures r.JObject?
    ensures Keys(r.fields) == ["id", "created", "updated", "deleted", "user_id", "require_mfa", "profile", "profile_ext"]
    ensures Lookup(r.fields, "profile").Some? && Lookup(r.fields, "profile").value.JString?
  {
    UserKeysLookup(UuidJson(u.id), IsoJson(u.created), IsoJson(u.updated), IsoJson(u.deleted),
                   UuidJson(u.userId), u.requireMfa, JString(Dumps(EncodeProfile(u.profile))), u.profileExt);
    UserKeys(UuidJson(u.id), IsoJson(u.created), IsoJson(u.updated), IsoJson(u.deleted),
             UuidJson(u.userId), u.requireMfa, JString(Dumps(EncodeProfile(u.profile))), u.profileExt);
    JObject(UserFields(u, JString(Dumps(EncodeProfile(u.profile)))))
  }

  /** `User.from_json`: every key is required; `profile` must be a dict. */
  function DecodeUser(j: Json): (r: Result<User, DecodeError>)
    ensures r.Success? ==> HasKeys(j, ["id", "created", "updated", "deleted", "user_id", "require_mfa", "profile", "profile_ext"])
  {
    var id :- UuidAt(j, "id");
    var created :- IsoAt(j, "created");
    var updated :- IsoAt(j, "updated");
    var deleted :- IsoAt(j, "deleted");
    var userId :- UuidAt(j, "user_id");
    var requireMfa :- Index(j, "require_mfa");
    var profileJson :- Index(j, "profile");
    var profile :- DecodeProfile(profileJson);
    var profileExt :- Index(j, "profile_ext");
    Success(User(id, created, updated, deleted, userId, requireMfa, profile, profileExt))
  }

  /** `User.from_json(loads(u.to_json()))` always raises: the nested profile is text, not a dict. */
  lemma UserRoundTripFails(u: User)
    ensures DecodeUser(EncodeUser(u)) == Failure(NotAnObject)
  {
    var j := EncodeUser(u);
    UserFieldsDecode(u, j.fields[6].1);
    assert DecodeProfile(j.fields[6].1) == Failure(NotAnObject);
  }

  /** Every field but `profile` of a `User` dict decodes to the user's own value. */
  lemma UserFieldsDecode(u: User, profile: Json)
    ensures var j := JObject(UserFields(u, profile));
      && UuidAt(j, "id") == Success(u.id)
      && IsoAt(j, "created") == Success(u.created)
      && IsoAt(j, "updated") == Success(u.updated)
      && IsoAt(j, "deleted") == Success(u.deleted)
      && UuidAt(j, "user_id") == Success(u.userId)
      && Index(j, "require_mfa") == Success(u.requireMfa)
      && Index(j, "profile") == Success(profile)
      && Index(j, "profile_ext") == Success(u.profileExt)
  {
    UserKeysLookup(UuidJson(u.id), IsoJson(u.created), IsoJson(u.updated), IsoJson(u.deleted),
                   UuidJson(u.userId), u.requireMfa, profile, u.profileExt);
  }

  lemma UserKeysLookup(a: Json, b: Json, c: Json, d: Json, e: Json, f: Json, g: Json, h: Json)
    ensures var fs := [("id", a), ("created", b), ("updated", c), ("deleted", d), ("user_id", e),
                       ("require_mfa", f), ("profile", g), ("profile_ext", h)];
      && Lookup(fs, "id") == Some(a) && Lookup(fs, "created") == Some(b)
      && Lookup(fs, "updated") == Some(c) && Lookup(fs, "deleted") == Some(d)
      && Lookup(fs, "user_id") == Some(e) && Lookup(fs, "require_mfa") == Some(f)
      && Lookup(fs, "profile") == Some(g) && Lookup(fs, "profile_ext") == Some(h)
  {
    var fs := [("id", a), ("created", b), ("updated", c), ("deleted", d), ("user_id", e),
               ("require_mfa", f), ("profile", g), ("profile_ext", h)];
    LookupFirst(fs, 0);
    LookupFirst(fs, 1);
    LookupFirst(fs, 2);
    LookupFirst(fs, 3);
    LookupFirst(fs, 4);
    LookupFirst(fs, 5);
    LookupFirst(fs, 6);
    LookupFirst(fs, 7);
  }

  lemma UserKeys(a: Json, b: Json, c: Json, d: Json, e: Json, f: Json, g: Json, h: Json)
    ensures Keys([("id", a), ("created", b), ("updated", c), ("deleted", d), ("user_id", e),
                  ("require_mfa", f), ("profile", g), ("profile_ext", h)])
         == ["id", "created", "updated", "deleted", "user_id", "require_mfa", "profile", "profile_ext"]
  {
  }

  /** The `User` dict with `profile` nested as a dict, the shape `User.from_json` reads. */
  function EncodeUserObject(u: User): Json {
    JObject(UserFields(u, EncodeProfile(u.profile)))
  }

  lemma UserObjectRoundTrip(u: User)
    ensures DecodeUser(EncodeUserObject(u)) == Success(u)
  {
    UserFieldsDecode(u, EncodeProfile(u.profile));
    ProfileRoundTrip(u.profile);
  }

  // ----- UserResponse -----

  datatype UserResponse = UserResponse(id: Uuid, updatedAt: Timestamp, profile: UserProfile,
                                       requireMfa: Json, profileExt: Json, authns: Json)

  /** The dict `UserResponse.to_json` dumps: ISO text for `updated_at`, profile as nested text. */
  function EncodeUserResponse(r: UserResponse): (j: Json)
    ensures j.JObject?
    ensures Keys(j.fields) == ["id", "updated_at", "profile", "require_mfa", "profile_ext", "authns"]
    ensures Lookup(j.fields, "updated_at") == Some(IsoJson(r.updatedAt))
    ensures Lookup(j.fields, "profile").Some? && Lookup(j.fields, "profile").value.JString?
  {
    UserResponseKeys(UuidJson(r.id), IsoJson(r.updatedAt), JString(Dumps(EncodeProfile(r.profile))),
                     r.requireMfa, r.profileExt, r.authns);
    JObject([("id", UuidJson(r.id)), ("updated_at", IsoJson(r.updatedAt)),
             ("profile", JString(Dumps(EncodeProfile(r.profile)))), ("require_mfa", r.requireMfa),
             ("profile_ext", r.profileExt), ("authns", r.authns)])
  }

  lemma UserResponseKeys(a: Json, b: Json, c: Json, d: Json, e: Json, f: Json)
    ensures var fs := [("id", a), ("updated_at", b), ("profile", c), ("require_mfa", d),
                       ("profile_ext", e), ("authns", f)];
      && Keys(fs) == ["id", "updated_at", "profile", "require_mfa", "profile_ext", "authns"]
      && Lookup(fs, "id") == Some(a) && Lookup(fs, "updated_at") == Some(b) && Lookup(fs, "profile") == Some(c)
      && Lookup(fs, "require_mfa") == Some(d) && Lookup(fs, "profile_ext") == Some(e) && Lookup(fs, "authns") == Some(f)
  {
    var fs := [("id", a), ("updated_at", b), ("profile", c), ("require_mfa", d),
               ("profile_ext", e), ("authns", f)];
    LookupFirst(fs, 0);
    LookupFirst(fs, 1);
    LookupFirst(fs, 2);
    LookupFirst(fs, 3);
    LookupFirst(fs, 4);
    LookupFirst(fs, 5);
  }

  /** `UserResponse.from_json`: `updated_at` must be epoch seconds, `profile` a dict. */
  function DecodeUserResponse(j: Json): (r: Result<UserResponse, DecodeError>)
    ensures r.Success? ==> HasKeys(j, ["id", "updated_at", "profile", "require_mfa", "profile_ext", "authns"])
    ensures r.Success? ==> Index(j, "updated_at").value.JNumber? || Index(j, "updated_at").value.JBool?
  {
    var id :- UuidAt(j, "id");
    var updatedJson :- Index(j, "updated_at");
    var updatedAt :- DecodeEpoch(updatedJson);
    var profileJson :- Index(j, "profile");
    var profile :- DecodeProfile(profileJson);
    var requireMfa :- Index(j, "require_mfa");
    var profileExt :- Index(j, "profile_ext");
    var authns :- Index(j, "authns");
    Success(UserResponse(id, updatedAt, profile, requireMfa, profileExt, authns))
  }

  /** `UserResponse.from_json(loads(r.to_json()))` always raises: ISO text is not epoch seconds. */
  lemma UserResponseRoundTripFails(r: UserResponse)
    ensures DecodeUserResponse(EncodeUserResponse(r)) == Failure(NotEpochTimestamp(IsoJson(r.updatedAt)))
  {
    var f := EncodeUserResponse(r).fields;
    LookupFirst(f, 0);
    LookupFirst(f, 1);
  }

  /** A user record in the shape `UserResponse.from_json` reads: epoch seconds, profile as a dict. */
  function UserResponseWire(r: UserResponse, secs: int): Json {
    JObject([("id", UuidJson(r.id)), ("updated_at", JNumber(secs)), ("profile", EncodeProfile(r.profile)),
             ("require_mfa", r.requireMfa), ("profile_ext", r.profileExt), ("authns", r.authns)])
  }

  /** A record whose epoch seconds denote `r.updatedAt` decodes to exactly `r`. */
  lemma UserResponseFromWire(r: UserResponse, secs: int)
    requires FromEpoch(secs) == Some(r.updatedAt)
    ensures DecodeUserResponse(UserResponseWire(r, secs)) == Success(r)
  {
    UserResponseKeys(UuidJson(r.id), JNumber(secs), EncodeProfile(r.profile), r.requireMfa, r.profileExt, r.authns);
    ProfileRoundTrip(r.profile);
  }

  // ----- UserSelector -----

  /** Names the user an accessor runs against; `id` may be absent when `external_alias` is used. */
  datatype UserSelector = UserSelector(id: Option<Uuid>, externalAlias: Json)

  /** The dict `UserSelector.to_json` dumps: `str(None)` is the text "None". */
  function EncodeSelector(s: UserSelector): (r: Json)
    ensures r.JObject? && Keys(r.fields) == ["id", "external_alias"]
    ensures s.id.Some? ==> Lookup(r.fields, "id").Some? && DecodeUuid(Lookup(r.fields, "id").value) == Success(s.id.value)
    ensures s.id.None? ==> Lookup(r.fields, "id") == Some(JString("None"))
  {
    JObject([("id", if s.id.Some? then UuidJson(s.id.value) else JString("None")),
             ("external_alias", s.externalAlias)])
  }

  /** `UserSelector.from_json`: the id must parse as a UUID. */
  function DecodeSelector(j: Json): (r: Result<UserSelector, DecodeError>)
    ensures r.Success? ==> HasKeys(j, ["id", "external_alias"]) && r.value.id.Some?
  {
    var id :- UuidAt(j, "id");
    var alias :- Index(j, "external_alias");
    Success(UserSelector(Some(id), alias))
  }

  /** A selector survives encode-then-decode exactly when it carries an id. */
  lemma SelectorRoundTripIff(s: UserSelector)
    ensures DecodeSelector(EncodeSelector(s)) == Success(s) <==> s.id.Some?
    ensures s.id.None? ==> DecodeSelector(EncodeSelector(s)) == Failure(NotUuid(JString("None")))
  {
    var f := EncodeSelector(s).fields;
    LookupFirst(f, 0);
    LookupFirst(f, 1);
    if s.id.Some? {
      ParseToString(s.id.value);
    } else {
      NoneIsNoUuid();
    }
  }

  /** The text "None" is not a UUID. */
  lemma NoneIsNoUuid()
    ensures Parse("None") == None
  {
    assert RemoveAll("None", "urn:") == "None" by {
      assert "None"[..4][0] == 'N';
      assert RemoveAll("ne", "urn:") == "ne";
    }
    assert |RemoveHyphens("None")| == 4;
  }

  /** The selector dict with an absent id written as null, as its `__dict__` is sent. */
  function EncodeSelectorNullable(s: UserSelector): (r: Json)
    ensures r.JObject? && Keys(r.fields) == ["id", "external_alias"]
    ensures s.id.None? ==> Lookup(r.fields, "id") == Some(JNull)
  {
    JObject([("id", if s.id.Some? then UuidJson(s.id.value) else JNull),
             ("external_alias", s.externalAlias)])
  }

  /** Reads a selector whose id may be null. */
  function DecodeSelectorNullable(j: Json): (r: Result<UserSelector, DecodeError>)
    ensures r.Success? ==> HasKeys(j, ["id", "external_alias"])
    ensures r.Success? ==> (r.value.id.None? <==> Index(j, "id") == Success(JNull))
  {
    var idJson :- Index(j, "id");
    var id :- if idJson == JNull then Success(None)
              else var u :- DecodeUuid(idJson); Success(Some(u));
    var alias :- Index(j, "external_alias");
    Success(UserSelector(id, alias))
  }

  lemma SelectorNullableRoundTrip(s: UserSelector)
    ensures DecodeSelectorNullable(EncodeSelectorNullable(s)) == Success(s)
  {
    var f := EncodeSelectorNullable(s).fields;
    LookupFirst(f, 0);
    LookupFirst(f, 1);
  }

  // ----- Column -----

  datatype Column = Column(id: Uuid, name: Json, columnType: Json)

  function EncodeColumn(c: Column): (r: Json)
    ensures r.JObject? && Keys(r.fields) == ["id", "name", "type"]
  {
    JObject([("id", UuidJson(c.id)), ("name", c.name), ("type", c.columnType)])
  }

  function DecodeColumn(j: Json): (r: Result<Column, DecodeError>)
    ensures r.Success? ==> HasKeys(j, ["id", "name", "type"])
  {
    var id :- UuidAt(j, "id");
    var name :- Index(j, "name");
    var columnType :- Index(j, "type");
    Success(Column(id, name, columnType))
  }

  lemma ColumnRoundTrip(c: Column)
    ensures DecodeColumn(EncodeColumn(c)) == Success(c)
  {
    var f := EncodeColumn(c).fields;
    LookupFirst(f, 0);
    LookupFirst(f, 1);
    LookupFirst(f, 2);
  }

  // ----- Accessor -----

  datatype Accessor = Accessor(id: Uuid, name: Json, columnIds: seq<Uuid>,
                               accessPolicyId: Uuid, transformationPolicyId: Uuid)

  function UuidArray(ids: seq<Uuid>): Json {
    JArray(seq(|ids|, i requires 0 <= i < |ids| => UuidJson(ids[i])))
  }

  function EncodeAccessor(a: Accessor): (r: Json)
    ensures r.JObject?
    ensures Keys(r.fields) == ["id", "name", "column_ids", "access_policy_id", "transformation_policy_id"]
  {
    AccessorKeys(UuidJson(a.id), a.name, UuidArray(a.columnIds), UuidJson(a.accessPolicyId),
                 UuidJson(a.transformationPolicyId));
    JObject([("id", UuidJson(a.id)), ("name", a.name), ("column_ids", UuidArray(a.columnIds)),
             ("access_policy_id", UuidJson(a.accessPolicyId)),
             ("transformation_policy_id", UuidJson(a.transformationPolicyId))])
  }

  /** `Accessor.from_json`: `column_ids` is read by a comprehension over `j["column_ids"]`. */
  function DecodeAccessor(j: Json): (r: Result<Accessor, DecodeError>)
    ensures r.Success? ==> HasKeys(j, ["id", "name", "column_ids", "access_policy_id", "transformation_policy_id"])
    ensures r.Success? && Index(j, "column_ids").value.JArray? ==>
              var items := Index(j, "column_ids").value.items;
              |r.value.columnIds| == |items|
              && forall i :: 0 <= i < |items| ==> DecodeUuid(items[i]) == Success(r.value.columnIds[i])
  {
    var id :- UuidAt(j, "id");
    var name :- Index(j, "name");
    var idsJson :- Index(j, "column_ids");
    var items :- Iterate(idsJson);
    var columnIds :- DecodeEach(items, DecodeUuid);
    var accessPolicyId :- UuidAt(j, "access_policy_id");
    var transformationPolicyId :- UuidAt(j, "transformation_policy_id");
    Success(Accessor(id, name, columnIds, accessPolicyId, transformationPolicyId))
  }

  lemma AccessorRoundTrip(a: Accessor)
    ensures DecodeAccessor(EncodeAccessor(a)) == Success(a)
  {
    AccessorKeysLookup(UuidJson(a.id), a.name, UuidArray(a.columnIds), UuidJson(a.accessPolicyId),
                       UuidJson(a.transformationPolicyId));
    UuidArrayDecode(a.columnIds);
  }

  /** The comprehension over an encoded id list gives back the ids, in order. */
  lemma UuidArrayDecode(ids: seq<Uuid>)
    ensures DecodeEach(UuidArray(ids).items, DecodeUuid) == Success(ids)
  {
    var items := UuidArray(ids).items;
    assert forall i :: 0 <= i < |items| ==> DecodeUuid(items[i]) == Success(ids[i]);
    var r := DecodeEach(items, DecodeUuid);
    assert r.value == ids;
  }

  lemma AccessorKeys(a: Json, b: Json, c: Json, d: Json, e: Json)
    ensures Keys([("id", a), ("name", b), ("column_ids", c), ("access_policy_id", d), ("transformation_policy_id", e)])
         == ["id", "name", "column_ids", "access_policy_id", "transformation_policy_id"]
  {
  }

  lemma AccessorKeysLookup(a: Json, b: Json, c: Json, d: Json, e: Json)
    ensures var fs := [("id", a), ("name", b), ("column_ids", c), ("access_policy_id", d),
                       ("transformation_policy_id", e)];
      && Lookup(fs, "id") == Some(a) && Lookup(fs, "name") == Some(b)
      && Lookup(fs, "column_ids") == Some(c) && Lookup(fs, "access_policy_id") == Some(d)
      && Lookup(fs, "transformation_policy_id") == Some(e)
  {
    var fs := [("id", a), ("name", b), ("column_ids", c), ("access_policy_id", d),
               ("transformation_policy_id", e)];
    LookupFirst(fs, 0);
    LookupFirst(fs, 1);
    LookupFirst(fs, 2);
    LookupFirst(fs, 3);
    LookupFirst(fs, 4);
  }

  // ----- AccessPolicy -----

  datatype AccessPolicy = AccessPolicy(id: Uuid, name: Json, policyFunction: Json, parameters: Json, version: Json)

  function EncodeAccessPolicy(p: AccessPolicy): (r: Json)
    ensures r.JObject? && Keys(r.fields) == ["id", "name", "function", "parameters", "version"]
  {
    JObject([("id", UuidJson(p.id)), ("name", p.name), ("function", p.policyFunction),
             ("parameters", p.parameters), ("version", p.version)])
  }

  function DecodeAccessPolicy(j: Json): (r: Result<AccessPolicy, DecodeError>)
    ensures r.Success? ==> HasKeys(j, ["id", "name", "function", "parameters", "version"])
    ensures r.Success? ==> r.value.version == Index(j, "version").value
  {
    var id :- UuidAt(j, "id");
    var name :- Index(j, "name");
    var policyFunction :- Index(j, "function");
    var parameters :- Index(j, "parameters");
    var version :- Index(j, "version");
    Success(AccessPolicy(id, name, policyFunction, parameters, version))
  }

  lemma AccessPolicyRoundTrip(p: AccessPolicy)
    ensures DecodeAccessPolicy(EncodeAccessPolicy(p)) == Success(p)
  {
    var f := EncodeAccessPolicy(p).fields;
    LookupFirst(f, 0);
    LookupFirst(f, 1);
    LookupFirst(f, 2);
    LookupFirst(f, 3);
    LookupFirst(f, 4);
  }

  // ----- TransformationPolicy -----

  datatype TransformationPolicy = TransformationPolicy(id: Uuid, name: Json, policyFunction: Json, parameters: Json)

  /** `TransformationPolicy(id)`: name, function and parameters default to the empty string. */
  function DefaultTransformationPolicy(id: Uuid): (p: TransformationPolicy)
    ensures p.id == id
    ensures p.name == p.policyFunction == p.parameters == JString("")
  {
    TransformationPolicy(id, JString(""), JString(""), JString(""))
  }

  function EncodeTransformationPolicy(p: TransformationPolicy): (r: Json)
    ensures r.JObject? && Keys(r.fields) == ["id", "name", "function", "parameters"]
  {
    JObject([("id", UuidJson(p.id)), ("name", p.name), ("function", p.policyFunction), ("parameters", p.parameters)])
  }

  function DecodeTransformationPolicy(j: Json): (r: Result<TransformationPolicy, DecodeError>)
    ensures r.Success? ==> HasKeys(j, ["id", "name", "function", "parameters"])
  {
    var id :- UuidAt(j, "id");
    var name :- Index(j, "name");
    var policyFunction :- Index(j, "function");
    var parameters :- Index(j, "parameters");
    Success(TransformationPolicy(id, name, policyFunction, parameters))
  }

  lemma TransformationPolicyRoundTrip(p: TransformationPolicy)
    ensures DecodeTransformationPolicy(EncodeTransformationPolicy(p)) == Success(p)
  {
    var f := EncodeTransformationPolicy(p).fields;
    LookupFirst(f, 0);
    LookupFirst(f, 1);
    LookupFirst(f, 2);
    LookupFirst(f, 3);
  }

  /** A policy built with only an id is written with empty name, function and parameters, and read back as built. */
  lemma DefaultTransformationPolicyRoundTrip(id: Uuid)
    ensures Index(EncodeTransformationPolicy(DefaultTransformationPolicy(id)), "name") == Success(JString(""))
    ensures Index(EncodeTransformationPolicy(DefaultTransformationPolicy(id)), "function") == Success(JString(""))
    ensures Index(EncodeTransformationPolicy(DefaultTransformationPolicy(id)), "parameters") == Success(JString(""))
    ensures DecodeTransformationPolicy(EncodeTransformationPolicy(DefaultTransformationPolicy(id)))
            == Success(DefaultTransformationPolicy(id))
  {
    var f := EncodeTransformationPolicy(DefaultTransformationPolicy(id)).fields;
    LookupFirst(f, 1);
    LookupFirst(f, 2);
    LookupFirst(f, 3);
    TransformationPolicyRoundTrip(DefaultTransformationPolicy(id));
  }

  // ----- APIErrorResponse -----

  /** The body of a 409 response: an error message and the id of the existing entity, kept raw. */
  datatype ApiErrorResponse = ApiErrorResponse(error: Json, id: Json)

  function EncodeApiErrorResponse(e: ApiErrorResponse): (r: Json)
    ensures r.JObject? && Keys(r.fields) == ["error", "id"]
  {
    JObject([("error", e.error), ("id", e.id)])
  }

  /** `APIErrorResponse.from_json`: `id` is taken as it stands, not parsed as a UUID. */
  function DecodeApiErrorResponse(j: Json): (r: Result<ApiErrorResponse, DecodeError>)
    ensures r.Success? <==> HasKeys(j, ["error", "id"])
    ensures r.Success? ==> r.value.id == Index(j, "id").value && r.value.error == Index(j, "error").value
  {
    var error :- Index(j, "error");
    var id :- Index(j, "id");
    Success(ApiErrorResponse(error, id))
  }

  lemma ApiErrorResponseRoundTrip(e: ApiErrorResponse)
    ensures DecodeApiErrorResponse(EncodeApiErrorResponse(e)) == Success(e)
  {
    var f := EncodeApiErrorResponse(e).fields;
    LookupFirst(f, 0);
    LookupFirst(f, 1);
  }
}

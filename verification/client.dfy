/**
 * The request and response rules of the SDK's `Client`, with the HTTP
 * exchange abstracted: each call takes the response it would receive, and
 * the token check takes the token's `exp` claim, the current time and the
 * token a refresh would fetch as plain inputs.
 */
module UserstoreClient {
  import opened Wrappers
  import opened Json
  import opened Uuids
  import opened Models

  /** The `authn_type` a password user is created with. */
  const AuthnTypePassword: string := "password"

  // ----- Errors and status handling -----

  /** The exception the client raises: a message, a numeric code and a request id. */
  datatype Error = Error(error: Json, code: Json, requestId: Json)

  /**
   * `Error.from_json`: the two values are passed positionally, so `request_id`
   * lands in the `code` slot and the request id keeps its default, None.
   */
  function ErrorFromJson(j: Json): (r: Result<Error, DecodeError>)
    ensures r.Success? <==> HasKey(j, "error") && HasKey(j, "request_id")
    ensures r.Success? ==> r.value.error == Index(j, "error").value
    ensures r.Success? ==> r.value.code == Index(j, "request_id").value && r.value.requestId == JNull
  {
    var error :- Index(j, "error");
    var requestId :- Index(j, "request_id");
    Success(Error(error, requestId, JNull))
  }

  /**
   * An HTTP response: its status code and its body as `ucjson.loads` reads
   * it; None when the text is not JSON (the empty body of a 204, say).
   */
  datatype Response = Response(status: int, body: Option<Json>)

  /** What a request helper raises. */
  datatype RequestFailure =
    | Raised(err: Error)             // a client `Error`, its code overwritten with the HTTP status
    | Malformed(cause: DecodeError)  // any other exception while reading the body

  /** The exception for a failed response: `Error.from_json(j)`, then `e.code = status`. */
  function ErrorFor(status: int, body: Option<Json>): (f: RequestFailure)
    ensures f.Raised? <==> body.Some? && HasKey(body.value, "error") && HasKey(body.value, "request_id")
    ensures f.Raised? ==> f.err.code == JNumber(status) && f.err.requestId == JNull
    ensures f.Raised? ==> f.err.error == Index(body.value, "error").value
  {
    match body
    case None => Malformed(NotJsonText)
    case Some(j) =>
      match ErrorFromJson(j)
      case Failure(cause) => Malformed(cause)
      case Success(e) =>
        var e := e.(code := JNumber(status));
        Raised(e)
  }

  /** The status handling `_get`, `_post` and `_put` share: parse the body, then raise on 400 and above. */
  function ReadBody(r: Response): (result: Result<Json, RequestFailure>)
    ensures result.Success? <==> r.status < 400 && r.body.Some?
    ensures result.Success? ==> result.value == r.body.value
    ensures r.body.None? ==> result == Failure(Malformed(NotJsonText))
    ensures r.status >= 400 && r.body.Some? ==> result == Failure(ErrorFor(r.status, r.body))
  {
    match r.body
    case None => Failure(Malformed(NotJsonText))
    case Some(j) => if r.status >= 400 then Failure(ErrorFor(r.status, r.body)) else Success(j)
  }

  /** The status handling of `_delete`: the body is parsed only on failure; success means status 204. */
  function DeleteOutcome(r: Response): (result: Result<bool, RequestFailure>)
    ensures result.Success? <==> r.status < 400
    ensures result.Success? ==> (result.value <==> r.status == 204)
    ensures result.Failure? ==> result.error == ErrorFor(r.status, r.body)
  {
    if r.status >= 400 then Failure(ErrorFor(r.status, r.body)) else Success(r.status == 204)
  }

  /** Whatever a request helper raises as an `Error` carries the HTTP status as its code, and no request id. */
  lemma RaisedCarriesStatus(r: Response)
    ensures ReadBody(r).Failure? && ReadBody(r).error.Raised? ==>
              r.status >= 400 && ReadBody(r).error.err.code == JNumber(r.status) && ReadBody(r).error.err.requestId == JNull
    ensures DeleteOutcome(r).Failure? && DeleteOutcome(r).error.Raised? ==>
              r.status >= 400 && DeleteOutcome(r).error.err.code == JNumber(r.status) && DeleteOutcome(r).error.err.requestId == JNull
  {
  }

  /** A successful delete never looks at the body: the outcome depends on the status alone. */
  lemma DeleteIgnoresSuccessBody(status: int, a: Option<Json>, b: Option<Json>)
    requires status < 400
    ensures DeleteOutcome(Response(status, a)) == DeleteOutcome(Response(status, b))
  {
  }

  // ----- Request bodies and query parameters -----

  /** No key other than `allowed` is present in `j`. */
  predicate OnlyKeys(j: Json, allowed: set<string>) {
    j.JObject? && KeySet(j.fields) <= allowed
  }

  /** The body `CreateUser` posts: the profile always; `profile_ext` and `external_alias` only when given. */
  method CreateUserBody(profile: UserProfile, profileExt: Json, externalAlias: Option<string>) returns (body: Json)
    ensures body.JObject?
    ensures Lookup(body.fields, "profile") == Some(EncodeProfile(profile))
    ensures HasKey(body, "profile_ext") <==> profileExt != JNull
    ensures profileExt != JNull ==> Lookup(body.fields, "profile_ext") == Some(profileExt)
    ensures HasKey(body, "external_alias") <==> externalAlias.Some?
    ensures externalAlias.Some? ==> Lookup(body.fields, "external_alias") == Some(JString(externalAlias.value))
    ensures OnlyKeys(body, {"profile", "profile_ext", "external_alias"})
  {
    body := JObject([("profile", EncodeProfile(profile))]);
    if profileExt != JNull {
      body := JObject(Put(body.fields, "profile_ext", profileExt));
    }
    if externalAlias.Some? {
      body := JObject(Put(body.fields, "external_alias", JString(externalAlias.value)));
    }
  }

  /** The body `CreateUserWithPassword` posts: fixed `authn_type` and `require_mfa`; `profile_ext` only when not None. */
  method CreateUserWithPasswordBody(username: string, password: string, profile: UserProfile, profileExt: Json)
    returns (body: Json)
    ensures body.JObject?
    ensures Lookup(body.fields, "username") == Some(JString(username))
    ensures Lookup(body.fields, "password") == Some(JString(password))
    ensures Lookup(body.fields, "profile") == Some(EncodeProfile(profile))
    ensures Lookup(body.fields, "authn_type") == Some(JString(AuthnTypePassword))
    ensures Lookup(body.fields, "require_mfa") == Some(JBool(false))
    ensures HasKey(body, "profile_ext") <==> profileExt != JNull
    ensures profileExt != JNull ==> Lookup(body.fields, "profile_ext") == Some(profileExt)
    ensures OnlyKeys(body, {"username", "password", "profile", "authn_type", "require_mfa", "profile_ext"})
  {
    body := JObject([("username", JString(username)), ("password", JString(password)),
                     ("profile", EncodeProfile(profile)), ("authn_type", JString(AuthnTypePassword)),
                     ("require_mfa", JBool(false))]);
    PasswordBodyLookup(JString(username), JString(password), EncodeProfile(profile),
                       JString(AuthnTypePassword), JBool(false));
    if profileExt != JNull {
      body := JObject(Put(body.fields, "profile_ext", profileExt));
    }
  }

  lemma PasswordBodyLookup(a: Json, b: Json, c: Json, d: Json, e: Json)
    ensures var fs := [("username", a), ("password", b), ("profile", c), ("authn_type", d), ("require_mfa", e)];
      && Lookup(fs, "username") == Some(a) && Lookup(fs, "password") == Some(b)
      && Lookup(fs, "profile") == Some(c) && Lookup(fs, "authn_type") == Some(d)
      && Lookup(fs, "require_mfa") == Some(e)
      && KeySet(fs) == {"username", "password", "profile", "authn_type", "require_mfa"}
  {
    var fs := [("username", a), ("password", b), ("profile", c), ("authn_type", d), ("require_mfa", e)];
    LookupFirst(fs, 0);
    LookupFirst(fs, 1);
    LookupFirst(fs, 2);
    LookupFirst(fs, 3);
    LookupFirst(fs, 4);
    assert KeySet(fs[4..]) == {"require_mfa"};
    assert KeySet(fs[3..]) == {"authn_type", "require_mfa"};
    assert KeySet(fs[2..]) == {"profile", "authn_type", "require_mfa"};
    assert KeySet(fs[1..]) == {"password", "profile", "authn_type", "require_mfa"};
  }

  /** The query parameters `ListUsers_AdminOnly` sends. */
  method ListUsersParams(limit: int, startingAfter: Option<Uuid>, email: Option<string>) returns (params: Json)
    ensures params.JObject?
    ensures HasKey(params, "limit") <==> limit > 0
    ensures limit > 0 ==> Lookup(params.fields, "limit") == Some(JNumber(limit))
    ensures HasKey(params, "starting_after") <==> startingAfter.Some?
    ensures startingAfter.Some? ==>
              Lookup(params.fields, "starting_after") == Some(JString("id:" + ToString(startingAfter.value)))
    ensures HasKey(params, "email") <==> email.Some?
    ensures email.Some? ==> Lookup(params.fields, "email") == Some(JString(email.value))
    ensures Lookup(params.fields, "version") == Some(JString("2"))
    ensures OnlyKeys(params, {"limit", "starting_after", "email", "version"})
  {
    params := JObject([]);
    if limit > 0 {
      params := JObject(Put(params.fields, "limit", JNumber(limit)));
    }
    if startingAfter.Some? {
      params := JObject(Put(params.fields, "starting_after", JString("id:" + ToString(startingAfter.value))));
    }
    if email.Some? {
      params := JObject(Put(params.fields, "email", JString(email.value)));
    }
    params := JObject(Put(params.fields, "version", JString("2")));
  }

  // ----- Reading responses -----

  function AsFailure<T>(r: Result<T, DecodeError>): Result<T, RequestFailure> {
    match r
    case Success(v) => Success(v)
    case Failure(e) => Failure(Malformed(e))
  }

  /**
   * The users `ListUsers_AdminOnly` reads from a response body: from
   * `j["data"]` without an email filter, from the top-level list with one.
   */
  function DecodeUserList(j: Json, byEmail: bool): (r: Result<seq<UserResponse>, DecodeError>)
    ensures !byEmail && !HasKey(j, "data") ==> r.Failure?
    ensures byEmail && !(j.JArray? || j.JObject? || j.JString?) ==> r == Failure(NotIterable)
    ensures r.Success? && byEmail ==> |r.value| == |Iterate(j).value|
  {
    var source :- if byEmail then Success(j) else Index(j, "data");
    var items :- Iterate(source);
    DecodeEach(items, DecodeUserResponse)
  }

  /** Every listed user is decoded, in the order and number the response lists them. */
  lemma {:induction false} ListUsersKeepsOrder(j: Json, byEmail: bool, items: seq<Json>)
    requires byEmail ==> j == JArray(items)
    requires !byEmail ==> Index(j, "data") == Success(JArray(items))
    ensures DecodeUserList(j, byEmail).Success? <==> forall i :: 0 <= i < |items| ==> DecodeUserResponse(items[i]).Success?
    ensures DecodeUserList(j, byEmail).Success? ==>
              var users := DecodeUserList(j, byEmail).value;
              |users| == |items| && forall i :: 0 <= i < |items| ==> DecodeUserResponse(items[i]) == Success(users[i])
  {
    var r := DecodeEach(items, DecodeUserResponse);
    assert DecodeUserList(j, byEmail) == r;
  }

  /** A service answer listing users in the wire shape decodes to those users, in order. */
  lemma ListUsersFromWire(users: seq<UserResponse>, secs: seq<int>)
    requires |secs| == |users|
    requires forall i :: 0 <= i < |users| ==> Timestamps.FromEpoch(secs[i]) == Some(users[i].updatedAt)
    ensures var items := seq(|users|, i requires 0 <= i < |users| => UserResponseWire(users[i], secs[i]));
      && DecodeUserList(JArray(items), true) == Success(users)
      && DecodeUserList(JObject([("data", JArray(items))]), false) == Success(users)
  {
    var items := seq(|users|, i requires 0 <= i < |users| => UserResponseWire(users[i], secs[i]));
    forall i | 0 <= i < |users| ensures DecodeUserResponse(items[i]) == Success(users[i]) {
      UserResponseFromWire(users[i], secs[i]);
    }
    DecodeEachAll(items, DecodeUserResponse, users);
    assert Index(JObject([("data", JArray(items))]), "data") == Success(JArray(items));
  }

  // ----- The client -----

  /** What the token check depends on: the cached token's `exp` claim, the time now, and the token a refresh fetches. */
  datatype TokenClock = TokenClock(exp: int, now: real, fetched: Option<string>)

  /** The cached token after `_refresh_access_token_if_needed`. */
  function TokenAfterCheck(token: Option<string>, clock: TokenClock): (r: Option<string>)
    ensures token.None? ==> r.None?
    ensures r != token ==> (clock.exp as real) < clock.now && r == clock.fetched
  {
    if token.None? then token
    else if (clock.exp as real) < clock.now then clock.fetched
    else token
  }

  class Client {
    /** The cached bearer token; None when token acquisition returned no `access_token`. */
    var accessToken: Option<string>

    /** `Client(url, id, secret)`: caches the token the first acquisition returned. */
    constructor (token: Option<string>)
      ensures accessToken == token
    {
      accessToken := token;
    }

    /**
     * `_refresh_access_token_if_needed`: a missing token is left alone; a
     * token whose `exp` lies before now is replaced by a fresh one.
     */
    method RefreshAccessTokenIfNeeded(clock: TokenClock)
      modifies this
      ensures old(accessToken).None? ==> accessToken == old(accessToken)
      ensures old(accessToken).Some? && (clock.exp as real) < clock.now ==> accessToken == clock.fetched
      ensures old(accessToken).Some? && clock.now <= clock.exp as real ==> accessToken == old(accessToken)
      ensures accessToken == TokenAfterCheck(old(accessToken), clock)
    {
      if accessToken.None? {
        return;
      }
      if (clock.exp as real) < clock.now {
        accessToken := clock.fetched;
      }
    }

    /** `_get`: refresh the token, then read the response. */
    method Get(response: Response, clock: TokenClock) returns (r: Result<Json, RequestFailure>)
      modifies this
      ensures accessToken == TokenAfterCheck(old(accessToken), clock)
      ensures r == ReadBody(response)
    {
      RefreshAccessTokenIfNeeded(clock);
      r := ReadBody(response);
    }

    /** `_post`: refresh the token, then read the response. */
    method Post(response: Response, clock: TokenClock) returns (r: Result<Json, RequestFailure>)
      modifies this
      ensures accessToken == TokenAfterCheck(old(accessToken), clock)
      ensures r == ReadBody(response)
    {
      RefreshAccessTokenIfNeeded(clock);
      r := ReadBody(response);
    }

    /** `_put`: refresh the token, then read the response. */
    method Put(response: Response, clock: TokenClock) returns (r: Result<Json, RequestFailure>)
      modifies this
      ensures accessToken == TokenAfterCheck(old(accessToken), clock)
      ensures r == ReadBody(response)
    {
      RefreshAccessTokenIfNeeded(clock);
      r := ReadBody(response);
    }

    /** `_delete`: refresh the token, then classify the response. */
    method Delete(response: Response, clock: TokenClock) returns (r: Result<bool, RequestFailure>)
      modifies this
      ensures accessToken == TokenAfterCheck(old(accessToken), clock)
      ensures r == DeleteOutcome(response)
    {
      RefreshAccessTokenIfNeeded(clock);
      r := DeleteOutcome(response);
    }

    /** `CreateUser`: posts the body and returns `j.get("id")` from the answer, unparsed. */
    method CreateUser(profile: UserProfile, profileExt: Json, externalAlias: Option<string>,
                      response: Response, clock: TokenClock)
      returns (body: Json, r: Result<Json, RequestFailure>)
      modifies this
      ensures body.JObject?
      ensures Lookup(body.fields, "profile") == Some(EncodeProfile(profile))
      ensures HasKey(body, "profile_ext") <==> profileExt != JNull
      ensures profileExt != JNull ==> Lookup(body.fields, "profile_ext") == Some(profileExt)
      ensures HasKey(body, "external_alias") <==> externalAlias.Some?
      ensures externalAlias.Some? ==> Lookup(body.fields, "external_alias") == Some(JString(externalAlias.value))
      ensures OnlyKeys(body, {"profile", "profile_ext", "external_alias"})
      ensures accessToken == TokenAfterCheck(old(accessToken), clock)
      ensures ReadBody(response).Failure? ==> r == Failure(ReadBody(response).error)
      ensures r.Success? <==> ReadBody(response).Success? && ReadBody(response).value.JObject?
      ensures r.Success? ==> r.value == LookupOrNull(ReadBody(response).value.fields, "id")
    {
      body := CreateUserBody(profile, profileExt, externalAlias);
      var j := Post(response, clock);
      if j.Failure? {
        return body, Failure(j.error);
      }
      r := AsFailure(GetOrNone(j.value, "id"));
    }

    /** `CreateUserWithPassword`: posts the body and returns `j.get("id")` from the answer, unparsed. */
    method CreateUserWithPassword(username: string, password: string, profile: UserProfile, profileExt: Json,
                                  response: Response, clock: TokenClock)
      returns (body: Json, r: Result<Json, RequestFailure>)
      modifies this
      ensures body.JObject?
      ensures Lookup(body.fields, "username") == Some(JString(username))
      ensures Lookup(body.fields, "password") == Some(JString(password))
      ensures Lookup(body.fields, "profile") == Some(EncodeProfile(profile))
      ensures Lookup(body.fields, "authn_type") == Some(JString(AuthnTypePassword))
      ensures Lookup(body.fields, "require_mfa") == Some(JBool(false))
      ensures HasKey(body, "profile_ext") <==> profileExt != JNull
      ensures profileExt != JNull ==> Lookup(body.fields, "profile_ext") == Some(profileExt)
      ensures OnlyKeys(body, {"username", "password", "profile", "authn_type", "require_mfa", "profile_ext"})
      ensures accessToken == TokenAfterCheck(old(accessToken), clock)
      ensures ReadBody(response).Failure? ==> r == Failure(ReadBody(response).error)
      ensures r.Success? <==> ReadBody(response).Success? && ReadBody(response).value.JObject?
      ensures r.Success? ==> r.value == LookupOrNull(ReadBody(response).value.fields, "id")
    {
      body := CreateUserWithPasswordBody(username, password, profile, profileExt);
      var j := Post(response, clock);
      if j.Failure? {
        return body, Failure(j.error);
      }
      r := AsFailure(GetOrNone(j.value, "id"));
    }

    /** `ListUsers_AdminOnly`: sends the query parameters and decodes the users listed in the answer. */
    method ListUsersAdminOnly(limit: int, startingAfter: Option<Uuid>, email: Option<string>,
                              response: Response, clock: TokenClock)
      returns (params: Json, r: Result<seq<UserResponse>, RequestFailure>)
      modifies this
      ensures params.JObject?
      ensures HasKey(params, "limit") <==> limit > 0
      ensures limit > 0 ==> Lookup(params.fields, "limit") == Some(JNumber(limit))
      ensures HasKey(params, "starting_after") <==> startingAfter.Some?
      ensures startingAfter.Some? ==>
                Lookup(params.fields, "starting_after") == Some(JString("id:" + ToString(startingAfter.value)))
      ensures HasKey(params, "email") <==> email.Some?
      ensures email.Some? ==> Lookup(params.fields, "email") == Some(JString(email.value))
      ensures Lookup(params.fields, "version") == Some(JString("2"))
      ensures OnlyKeys(params, {"limit", "starting_after", "email", "version"})
      ensures accessToken == TokenAfterCheck(old(accessToken), clock)
      ensures ReadBody(response).Failure? ==> r == Failure(ReadBody(response).error)
      ensures ReadBody(response).Success? ==> r == AsFailure(DecodeUserList(ReadBody(response).value, email.Some?))
    {
      params := ListUsersParams(limit, startingAfter, email);
      var j := Get(response, clock);
      if j.Failure? {
        return params, Failure(j.error);
      }
      r := AsFailure(DecodeUserList(j.value, email.Some?));
    }
  }
}

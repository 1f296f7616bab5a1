# userstore SDK: entity codecs and client request rules

This project models the core of the Python client library for the userstore
data-governance service. It covers two parts:

- **Entity codecs** (`models.py`). Each entity class (`UserProfile`, `User`,
  `UserResponse`, `UserSelector`, `Column`, `Accessor`, `AccessPolicy`,
  `TransformationPolicy`, `APIErrorResponse`) has a `to_json` / `from_json`
  pair. Here that pair is `EncodeX` / `DecodeX` over a JSON datatype.
  `EncodeX` gives the dict that `to_json` serialises. `DecodeX` reads the
  dict that `from_json` receives.
- **Client rules** (`client.py`), with the HTTP exchange abstracted. This
  part covers the status handling shared by `_get`, `_post`, `_put` and
  `_delete`, the odd `Error.from_json`, the request bodies and query
  parameters of `CreateUser`, `CreateUserWithPassword` and
  `ListUsers_AdminOnly`, and the cached-token refresh rule. The client is a
  class whose one mutable field is the cached access token. Each call takes,
  as plain inputs, the response it would receive, the token's `exp` claim,
  the current time, and the token a refresh would fetch.

Files and modules:

- `wrappers.dfy` (`Wrappers`): `Option` and `Result`.
- `json.dfy` (`Json`): JSON values. Objects keep insertion order, like a
  Python dict. The module also gives the dict and iteration operations the
  code relies on: `j[key]`, `j.get(key)`, `d[key] = v`, `for x in j`, a list
  comprehension, and the `json.dumps` text.
- `uuids.dfy` (`Uuids`): `str(uuid)` and `uuid.UUID(text)`.
- `timestamps.dfy` (`Timestamps`): `isoformat()` / `iso8601.parse_date` and
  `datetime.fromtimestamp`.
- `models.dfy` (`Models`): the entities and their codecs.
- `client.dfy` (`UserstoreClient`): `Error`, response handling, request
  builders, and the `Client` class.

Python's `None` is `JNull` where the value is JSON, and `None` of `Option`
elsewhere. Fields that `from_json` copies without conversion (`j["name"]`,
`j["version"]`, …) have type `Json`, because the code checks nothing about
them. A `Column`'s `type` is an example: it is annotated `int` but holds
the strings of constants.py:3-5.

Round trips that do not hold, as the code is written:

- `User.to_json` nests `profile` as JSON *text*. `User.from_json` then calls
  `.get` on that text, which raises.
- `UserResponse.to_json` writes `updated_at` as ISO-8601 text, but
  `from_json` reads it with `fromtimestamp`, which expects a number.
- `UserSelector.to_json` writes an absent id as the text `"None"`, which
  `uuid.UUID` rejects.

The model follows the shapes the code gives its entities:

- `Accessor` has only `id, name, column_ids, access_policy_id,
  transformation_policy_id` (models.py:170-184).
- `Error.from_json` drops the request id (client.py:32-34).
- `User` writes and reads ISO text, while `UserResponse.from_json` reads
  epoch seconds.
- The code defines no Mutator or ValidationPolicy class.

## Model

| member | source | states |
|---|---|---|
| `Uuids.ToString` | ucjson.py:8-11 | `str(u)` is 36 characters: lower-case hex digits with hyphens at positions 8, 13, 18 and 23 |
| `Uuids.Parse` | models.py:167 | `uuid.UUID(s)` succeeds exactly when the text left after removing `urn:`/`uuid:`, braces and hyphens is 32 hex digits of either case, and the UUID holds those digits |
| `Uuids.ParseToString` | ucjson.py:8-11 | parsing the string form of a UUID gives the same UUID back |
| `Uuids.ToStringInjective` | ucjson.py:8-11 | distinct UUIDs have distinct string forms |
| `Uuids.NoneIsNoUuid` | models.py:145 | the text `"None"` (what `str(None)` gives) does not parse as a UUID |
| `Timestamps.ParseIsoFormat` | models.py:72-88 | `parse_date(t.isoformat())` gives `t` back for every valid timestamp |
| `Timestamps.IsoFormat` | models.py:72-74 | `isoformat()` text is 19 characters with `-`, `-`, `T`, `:`, `:` at positions 4, 7, 10, 13 and 16; `Timestamps.ParseIsoFormat` reads it back |
| `Timestamps.ParseIso` | models.py:86-88 | `parse_date` accepts only text of that shape naming a real calendar date and time, and the timestamp it gives is written back by `IsoFormat` as exactly the text read |
| `Timestamps.ParseIsoIff` | models.py:72-88 | text reads as timestamp `t` exactly when it is `t.isoformat()` |
| `Timestamps.FromEpoch` | models.py:128 | `fromtimestamp(secs)` succeeds exactly when `secs` lies in years 1..9999 (-62135596800 to 253402300799), and then gives the timestamp whose day count from 1970, times 86400, plus its time of day, is `secs` |
| `Timestamps.FromEpochSeconds` | models.py:128 | converting the seconds a valid timestamp denotes gives that timestamp back, so each in-range `secs` names exactly one timestamp |
| `Json.Dumps` | ucjson.py:18-19 | `json.dumps` text of a dict is delimited by braces, of a list by brackets, of a string by quotes, and None is `null`; it is nested as text at models.py:77 and models.py:117 |
| `Json.GetOrNone` | models.py:36-40 | `j.get(key)` succeeds exactly on a dict and gives null for an absent key |
| `Json.Index` | models.py:167 | `j[key]` succeeds exactly when `j` is a dict holding `key`; otherwise it fails, with a missing-key error on a dict |
| `Json.Put` | client.py:57-60 | `d[key] = v` makes `key` map to `v`, leaves every other key's value as it was, and adds exactly `key` to the key set |
| `Json.Iterate` | client.py:95-97 | `for x in j` visits a list's items, a dict's keys in order (each as a string) or a string's characters (each a one-character string), and fails on anything else |
| `Json.DecodeEach` | models.py:202 | a comprehension succeeds exactly when every item decodes; its result has the items' length and order; on failure it reports the first failing item's error |
| `Models.UuidJson` | models.py:71 | the JSON string written for a UUID decodes back to that UUID |
| `Models.DecodeUuid` | models.py:85 | `uuid.UUID(v)` accepts only a string that parses as a UUID |
| `Models.IsoJson` | models.py:72-74 | the ISO text written for a timestamp is a string that decodes back to that timestamp |
| `Models.DecodeIso` | models.py:86-88 | `parse_date(v)` accepts only a string in ISO form |
| `Models.DecodeEpoch` | models.py:128 | `fromtimestamp(v)` succeeds exactly on a bool or on a number of seconds within years 1..9999, gives the timestamp those seconds denote (a bool as 0 or 1 seconds), and otherwise fails naming `v` |
| `Models.EncodeProfile` | models.py:22-31 | `UserProfile.to_json` writes exactly `email, email_verified, name, nickname, picture`, in that order; `Models.ProfileRoundTrip` reads it back |
| `Models.DecodeProfile` | models.py:33-41 | `UserProfile.from_json` succeeds on every dict and only on dicts; each absent key reads as null |
| `Models.ProfileRoundTrip` | models.py:22-41 | a profile encoded and decoded is unchanged |
| `Models.EncodeUser` | models.py:68-80 | `User.to_json` writes exactly its eight keys in the source's order, and `profile` among them is a string (the nested `to_json()` text); `Models.UserRoundTripFails` shows this cannot be read back |
| `Models.DecodeUser` | models.py:82-93 | `User.from_json` fails unless all eight keys are present |
| `Models.UserRoundTripFails` | models.py:68-93 | decoding what `User.to_json` writes always fails, because `profile` is JSON text and not a dict |
| `Models.UserObjectRoundTrip` | models.py:68-93 | with `profile` nested as a dict, a `User` round-trips exactly, including its ISO timestamps and both UUIDs |
| `Models.EncodeUserResponse` | models.py:112-122 | `UserResponse.to_json` writes exactly its six keys in order, `updated_at` as ISO text and `profile` as a string; `Models.UserResponseRoundTripFails` shows the reader refuses it |
| `Models.DecodeUserResponse` | models.py:124-133 | `UserResponse.from_json` fails unless all six keys are present and `updated_at` is a number |
| `Models.UserResponseRoundTripFails` | models.py:112-133 | decoding what `UserResponse.to_json` writes always fails at `updated_at`: ISO text is not epoch seconds |
| `Models.UserResponseFromWire` | models.py:124-133 | a record with epoch seconds and `profile` as a dict decodes to exactly the user response it describes |
| `Models.EncodeSelector` | models.py:144-145 | `UserSelector.to_json` writes exactly `id, external_alias`; a present id is written so that it parses back to itself, an absent one as the text `"None"` |
| `Models.DecodeSelector` | models.py:147-149 | `UserSelector.from_json` needs both keys, and what it returns always carries an id |
| `Models.SelectorRoundTripIff` | models.py:144-149 | a selector round-trips if and only if it has an id; without one, decoding fails on the text `"None"` |
| `Models.EncodeSelectorNullable` | models.py:144-145 | the corrected writer keeps the same two keys and writes an absent id as null |
| `Models.DecodeSelectorNullable` | models.py:147-149 | the corrected reader gives an absent id exactly when the stored id is null |
| `Models.SelectorNullableRoundTrip` | models.py:144-149 | with an absent id written as null, every selector round-trips |
| `Models.EncodeColumn` | models.py:162-163 | `Column.to_json` writes exactly `id, name, type`; `Models.ColumnRoundTrip` reads it back |
| `Models.DecodeColumn` | models.py:165-167 | `Column.from_json` fails unless `id`, `name` and `type` are present |
| `Models.ColumnRoundTrip` | models.py:162-167 | a column round-trips in `id` (written as its string form and parsed back), `name` and `type` |
| `Models.EncodeAccessor` | models.py:186-195 | `Accessor.to_json` writes exactly its five keys in order; `Models.AccessorRoundTrip` reads it back |
| `Models.DecodeAccessor` | models.py:197-205 | `Accessor.from_json` needs all five keys; when `column_ids` is a list, the result has one id per element, each the element's parse, in order |
| `Models.UuidArrayDecode` | models.py:191-202 | an encoded id list decodes to the same ids in the same order |
| `Models.AccessorRoundTrip` | models.py:186-205 | an accessor round-trips, `column_ids` element by element |
| `Models.EncodeAccessPolicy` | models.py:225-234 | `AccessPolicy.to_json` writes exactly `id, name, function, parameters, version`; `Models.AccessPolicyRoundTrip` reads it back |
| `Models.DecodeAccessPolicy` | models.py:236-240 | `AccessPolicy.from_json` needs all five keys and takes `version` unchanged |
| `Models.AccessPolicyRoundTrip` | models.py:225-240 | an access policy round-trips in all five fields, `version` included |
| `Models.DefaultTransformationPolicy` | models.py:249-253 | a policy built from an id alone has that id and empty-string `name`, `function` and `parameters` |
| `Models.EncodeTransformationPolicy` | models.py:258-266 | `TransformationPolicy.to_json` writes exactly `id, name, function, parameters`; `Models.TransformationPolicyRoundTrip` reads it back |
| `Models.DecodeTransformationPolicy` | models.py:268-272 | `TransformationPolicy.from_json` needs all four keys |
| `Models.TransformationPolicyRoundTrip` | models.py:258-272 | a transformation policy round-trips in `id, name, function, parameters` |
| `Models.DefaultTransformationPolicyRoundTrip` | models.py:249-253 | a policy built from an id alone is written with empty `name`, `function` and `parameters`, and reads back as built |
| `Models.EncodeApiErrorResponse` | models.py:283-284 | `APIErrorResponse.to_json` writes exactly `error, id`; `Models.ApiErrorResponseRoundTrip` reads it back |
| `Models.DecodeApiErrorResponse` | models.py:286-288 | `APIErrorResponse.from_json` succeeds exactly when `error` and `id` are present, and keeps `id` raw without parsing it as a UUID |
| `Models.ApiErrorResponseRoundTrip` | models.py:283-288 | an API error response round-trips in `error` and `id` |
| `UserstoreClient.ErrorFromJson` | client.py:32-34 | `Error.from_json` needs `error` and `request_id`, puts `request_id` into the `code` slot, and leaves the request id null |
| `UserstoreClient.ErrorFor` | client.py:296-299 | a failure is raised as an `Error` exactly when the body is a dict with both keys; that error's code is the HTTP status, and its request id is null |
| `UserstoreClient.ReadBody` | client.py:291-301 | `_get`/`_post`/`_put` return the parsed body, unchanged, exactly when it parses and the status is below 400; status 400 or above raises |
| `UserstoreClient.DeleteOutcome` | client.py:327-337 | `_delete` succeeds exactly when the status is below 400, returning true iff the status is 204; otherwise it raises what the body gives |
| `UserstoreClient.RaisedCarriesStatus` | client.py:296-299 | every raised `Error` comes from a status of 400 or above, has that status as its code, and has no request id |
| `UserstoreClient.DeleteIgnoresSuccessBody` | client.py:329-337 | a successful delete's outcome does not depend on the body |
| `UserstoreClient.CreateUserBody` | client.py:56-60 | the body always holds `profile`; it holds `profile_ext` and `external_alias` exactly when the caller gave them; it holds no other key |
| `UserstoreClient.CreateUserWithPasswordBody` | client.py:68-76 | the body always holds `authn_type = "password"` and `require_mfa = false`, plus the credentials and profile; it holds `profile_ext` exactly when that is not None |
| `UserstoreClient.ListUsersParams` | client.py:85-92 | `limit` is present iff `limit > 0`; `starting_after` is present iff given, as `"id:"` plus the UUID text; `email` is present iff given; `version` is always `"2"`; there is no other key |
| `UserstoreClient.DecodeUserList` | client.py:94-97 | without an email filter a response lacking `data` fails; with one, a response that is not iterable fails and the users number the listed items; `UserstoreClient.ListUsersKeepsOrder` gives the rest |
| `UserstoreClient.ListUsersKeepsOrder` | client.py:94-97 | users are read from `j["data"]` without an email filter and from the top-level list with one; decoding succeeds iff every item decodes, keeping length and order |
| `UserstoreClient.ListUsersFromWire` | client.py:93-98 | a listing of well-formed user records decodes to exactly those users, in either response shape |
| `UserstoreClient.TokenAfterCheck` | client.py:271-284 | a missing token stays missing, and the token only ever changes to the fetched one, when `exp` lies before now |
| `UserstoreClient.Client.constructor` | client.py:44-49 | the new client caches the token acquisition returned |
| `UserstoreClient.Client.RefreshAccessTokenIfNeeded` | client.py:271-284 | a null token is left alone; a token whose `exp` is before now is replaced by the fetched one; otherwise the token is unchanged |
| `UserstoreClient.Client.Get` | client.py:291-301 | checks the token, then returns what `ReadBody` gives for the response |
| `UserstoreClient.Client.Post` | client.py:303-313 | checks the token, then returns what `ReadBody` gives for the response |
| `UserstoreClient.Client.Put` | client.py:315-325 | checks the token, then returns what `ReadBody` gives for the response |
| `UserstoreClient.Client.Delete` | client.py:327-337 | checks the token, then returns what `DeleteOutcome` gives for the response |
| `UserstoreClient.Client.CreateUser` | client.py:53-63 | posts a body with everything `CreateUserBody` states (keys, values, no other key); checks the token; returns the answer's `id` raw, null when absent; fails with whatever the request raised |
| `UserstoreClient.Client.CreateUserWithPassword` | client.py:65-79 | posts a body with everything `CreateUserWithPasswordBody` states; checks the token; returns the answer's `id` raw, null when absent; fails with whatever the request raised |
| `UserstoreClient.Client.ListUsersAdminOnly` | client.py:82-98 | sends parameters with everything `ListUsersParams` states; checks the token; returns the users decoded from the answer, or what the request raised |

## Findings

| source | as written | input that shows it | evidently intended | confidence | as-written member | corrected member |
|---|---|---|---|---|---|---|
| models.py:77 | `User.to_json` stores `profile` as the JSON text of `profile.to_json()`, so `User.from_json` calls `.get` on a string and raises | any `User` | `profile` nested as a dict, as `CreateUser` sends `profile.__dict__` (client.py:56) | medium; not executed | `Models.UserRoundTripFails` | `Models.UserObjectRoundTrip` |
| models.py:145 | `str(self.id)` writes an absent id as the text `"None"`, which `from_json` rejects | `UserSelector(None, "alias")` | null for an absent id, which is what `ExecuteAccessor` sends through `user.__dict__` (client.py:243) | medium; not executed | `Models.SelectorRoundTripIff` | `Models.SelectorNullableRoundTrip` |

`UserResponse` also fails to round-trip (`Models.UserResponseRoundTripFails`).
It is not listed as a finding because the code does not show which side is
intended. `Models.UserResponseFromWire` proves that the decoder reads the
epoch form correctly.

## Left out

- HTTP transport (`requests.get/post/put/delete`), the request URLs and headers (`_get_headers`), and token acquisition (`_get_access_token`, client.py:253-269) are network I/O. Each call takes its response, and the token a refresh would fetch, as inputs.
- JWT decoding, Basic-auth base64 encoding and URL quoting (client.py:46-47, 255-257, 279) are library calls. The `exp` claim is an integer input. A token without `exp`, or one that does not decode, raises in Python; neither case is modelled.
- The current time is a `real` input, so `exp < time.time()` keeps its fractional comparison.
- Dict values are assumed to have distinct keys, as every dict `json.loads` produces does. `Json.Lookup` takes the first entry of a key while `json.loads` keeps the last; only a value with a repeated key, which no modelled path builds, tells them apart.
- `Json.Dumps`: its contract states only the outer delimiters of the text. No JSON text parser is modelled that would read the text back.
- The text layer between `to_json` and `from_json` (`json.dumps`, then `json.loads`) is assumed to give back the same value. The encoders therefore produce the value that is dumped. `Json.Dumps` writes the text only where the code nests it (`profile`), with Python's default separators and escapes. Floating-point numbers are not modelled: JSON numbers are integers.
- `Uuids.Parse` does not model the leniency of `int(text, 16)`: a `0x` prefix, a sign, surrounding whitespace, underscores, and non-ASCII decimal digits such as Arabic-Indic digits.
- Timestamps have whole seconds and no time zone. Microseconds and `isoformat` offsets are not modelled. Neither is the UTC tzinfo that `iso8601.parse_date` attaches, nor its other accepted forms.
- `Timestamps.FromEpoch`: works in UTC, not in the local zone `fromtimestamp` uses, so its range limits and its result are those of UTC.
- Entity ids other than `UserSelector.id` and `APIErrorResponse.id` are typed as UUIDs. An entity built with id `None` (as `sample.py` does before `CreateColumn`) would also write `"None"` in `to_json`; only the selector case is modelled.
- `Models.ApiErrorResponseRoundTrip`: holds for `id` as the raw JSON value `from_json` yields, the only way the code builds one. An `APIErrorResponse` whose `id` is a `uuid.UUID`, as models.py:276 annotates, would be written as its string by the UUID serializer (ucjson.py:8-11) and read back as that string, not as a UUID; that case is not modelled.
- The one-call CRUD wrappers (client.py:100-249) are not modelled one by one. Each is one modelled request (`Get`, `Post`, `Put` or `Delete`) followed by at most one modelled reader:
  - `GetUser_AdminOnly`, `GetUserByExternalAlias_AdminOnly` and `UpdateUser` decode the whole answer as a `UserResponse` (client.py:103, 108, 116).
  - `CreateColumn`, `UpdateColumn`, `CreateAccessPolicy`, `UpdateAccessPolicy`, `CreateTransformationPolicy`, `CreateAccessor` and `UpdateAccessor` send the entity's dict under one key and decode `j.get` of that key in the answer. `GetColumn` and `GetAccessor` decode `j.get` of one key without sending a body.
  - `ListColumns`, `ListAccessPolicies`, `ListTransformationPolicies` and `ListAccessors` decode every item of the whole answer (client.py:140-141, 163-164, 196-197, 225-226).
  - The `Delete*` wrappers return what `DeleteOutcome` gives; only `DeleteAccessPolicy` sends a body (its `version`).
  - `ExecuteAccessor` returns `j.get("value")` without decoding it (client.py:249).
- `Error`'s defaults (`"unspecified error"`, 500) are not modelled: no modelled path uses them. Neither is any `__repr__`.
- The token refresh is modelled for one caller at a time. Concurrent refreshes on a shared client are not modelled.
- `sample.py` (a script sequencing network calls) and the other constants of `constants.py` are not part of this model.

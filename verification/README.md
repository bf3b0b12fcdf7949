# Request shaping in the Luno users client

This project models `UsersClient`, the users resource client of the Luno .NET
SDK. Each public method of that client turns typed arguments into one HTTP
request and hands it to a connection object. The request has a verb, a path
under `/users`, a flat string-to-string query dictionary and an optional body.
Here each method is a pure function from its arguments to
`Result<Request, ArgError>`. `Success` carries the request the connection
would receive. `Failure` carries the argument exception thrown before any
request exists.

Modules:

- `Wrappers` (wrappers.dfy): `Option` stands for a nullable .NET reference.
  `Result` stands for "request built" or "exception thrown first".
- `Text` (text.dfy): the .NET string operations the client uses. These are
  interpolation of a nullable string (null renders as `""`), `String.Join`,
  `uint.ToString()` and `bool.ToString().ToLowerInvariant()`. `String.Join` and
  `uint.ToString()` each have a partner: `Split` undoes `Join` and conversely,
  and `ParseDecimal` undoes `DecimalString` and conversely.
- `Http` (http.dfy): verbs, the query dictionary as a sequence of key/value
  pairs, `Dictionary.Add` as `Add` (fails on a duplicate key), and the
  `Request` value the connection receives.
- `Users` (users.dfy): the user entity, the update payload, every body the
  client sends, and one builder per overload of every client method.
- `UsersProperties` (users_properties.dfy): lemmas that relate several calls.

The interface gives `autoName` and `limit` default values, but the client
never omits them. `CreateAsync` and `UpdateAsync` always add `auto_name`
(UsersClient.cs:22 and :65). `GetAllAsync` and `GetEventsAsync` always add
`limit` (UsersClient.cs:50 and :166).

The builders prove that every query dictionary has pairwise-distinct keys.
They also prove that no `Dictionary.Add` call can fail. So the only failure
is a null user passed to a by-entity overload or to `UpdateAsync`.

## Model

| member | source | states |
|---|---|---|
| Text.SplitJoin | src/LunoClient/Clients/UsersClient.cs:23 | joining at least one part with a one-character separator that no part contains is undone by splitting at that character, so order and contents are preserved |
| Text.JoinSplit | src/LunoClient/Clients/UsersClient.cs:53 | splitting any text at a character and joining the fields back with that character restores the text, so `Join` reaches every text |
| Text.RenderAll | src/LunoClient/Clients/UsersClient.cs:146 | the names handed to `String.Join` keep their number and order, with every null name rendered as the empty string |
| Text.DecimalString | src/LunoClient/Clients/UsersClient.cs:166 | the digits generated for a number form canonical decimal text: at least one digit, only digits, and no leading zero unless the number is zero |
| Text.UIntToString | src/LunoClient/Clients/UsersClient.cs:50 | `uint.ToString()` yields canonical decimal text (digits only, no leading zero) that denotes exactly the given number |
| Text.ParseDecimalString | src/LunoClient/Clients/UsersClient.cs:166 | parsing the decimal rendering of a natural number gives back that number |
| Text.DecimalStringOfParse | src/LunoClient/Clients/UsersClient.cs:50 | every canonical decimal text is the rendering of the number it denotes, so rendering is one-to-one onto canonical texts |
| Text.BoolQueryValue | src/LunoClient/Clients/UsersClient.cs:22 | `b.ToString().ToLowerInvariant()` is exactly `"true"` for true and `"false"` for false |
| Http.Add | src/LunoClient/Clients/UsersClient.cs:21-23 | `Dictionary.Add` fails with a duplicate-key error iff the key is present; otherwise it binds the key to the value, keeps every other binding, adds exactly that key and keeps keys distinct |
| Users.PageQuery | src/LunoClient/Clients/UsersClient.cs:49-53 | the pagination query always succeeds with distinct keys: `limit` as the decimal text of the limit, `from` and `to` present iff non-null with unchanged values, `expand` present iff non-null and comma-joined, and no other key |
| Users.ToUpdate | src/LunoClient/Clients/UsersClient.cs:67-75 | the update payload holds the user's Email, FirstName, LastName, Name, Profile and Username |
| Users.Create | src/LunoClient/Clients/UsersClient.cs:19-26 | POST `/users` with the (possibly null) user as body; `auto_name` always present as `"true"` or `"false"` matching the flag; `expand` present iff non-null; no other key; never fails |
| Users.GetById | src/LunoClient/Clients/UsersClient.cs:30-36 | GET `/users/{id}` with the id verbatim (null as empty), no body, and only `expand`, present iff non-null |
| Users.GetByUser | src/LunoClient/Clients/UsersClient.cs:38-43 | a null user gives ArgumentNull("user") and no request; otherwise exactly the by-id request for the user's Id |
| Users.GetAll | src/LunoClient/Clients/UsersClient.cs:47-56 | GET `/users`, no body, `limit` always present as the decimal text of the limit (no 0-200 bound enforced), `from`/`to`/`expand` present iff supplied, distinct keys |
| Users.UpdateById | src/LunoClient/Clients/UsersClient.cs:60-81 | a null user gives ArgumentNull("user"); otherwise PUT iff destructive and PATCH iff not, on `/users/{id}` with the id argument, query exactly `auto_name` as a lower-case literal, body the six updatable attributes of the user |
| Users.UpdateByUser | src/LunoClient/Clients/UsersClient.cs:83-88 | a null user gives ArgumentNull("updatedUser"); otherwise exactly the by-id update using the user's own Id |
| Users.DeactivateById | src/LunoClient/Clients/UsersClient.cs:94-97 | DELETE `/users/{id}` with no query and no body |
| Users.DeactivateByUser | src/LunoClient/Clients/UsersClient.cs:99-104 | a null user gives ArgumentNull("user") and no request; otherwise exactly the by-id request for the user's Id |
| Users.ValidatePasswordById | src/LunoClient/Clients/UsersClient.cs:110-113 | POST `/users/{id}/password/validate` with body `{password}` and no query |
| Users.ValidatePasswordByUser | src/LunoClient/Clients/UsersClient.cs:115-120 | a null user gives ArgumentNull("user") and no request; otherwise exactly the by-id request for the user's Id |
| Users.ChangePasswordById | src/LunoClient/Clients/UsersClient.cs:126-130 | POST `/users/{id}/password/change` with body `{password = newPassword, current_password = currentPassword}` and no query |
| Users.ChangePasswordByUser | src/LunoClient/Clients/UsersClient.cs:132-137 | a null user gives ArgumentNull("user") and no request; otherwise exactly the by-id request for the user's Id |
| Users.CreateEventById | src/LunoClient/Clients/UsersClient.cs:143-150 | POST `/users/{id}/events` with the (possibly null) event as body and only `expand`, present iff non-null |
| Users.CreateEventByUser | src/LunoClient/Clients/UsersClient.cs:152-157 | a null user gives ArgumentNull("user") and no request; otherwise exactly the by-id request for the user's Id |
| Users.GetEventsById | src/LunoClient/Clients/UsersClient.cs:163-172 | GET `/users/{id}/events`, no body, `limit` always present as decimal text, `from`/`to`/`expand` present iff supplied, distinct keys |
| Users.GetEventsByUser | src/LunoClient/Clients/UsersClient.cs:174-179 | a null user gives ArgumentNull("user") and no request; otherwise exactly the by-id request for the user's Id with the same paging arguments |
| Users.Login | src/LunoClient/Clients/UsersClient.cs:183-189 | POST `/users/login` with body `{login, password}` and only `expand`, present iff non-null |
| Users.DeleteSessionsById | src/LunoClient/Clients/UsersClient.cs:193-196 | DELETE `/users/{id}/sessions` with no query and no body |
| Users.DeleteSessionsByUser | src/LunoClient/Clients/UsersClient.cs:198-203 | a null user gives ArgumentNull("user") and no request; otherwise exactly the by-id request for the user's Id |
| UsersProperties.GetAllDefaults | src/LunoClient/Interfaces/IUsersClient.cs:37 | with every default argument, GetAll sends GET `/users` with the query exactly `{limit: "100"}` |
| UsersProperties.GetEventsDefaults | src/LunoClient/Interfaces/IUsersClient.cs:89 | with every default argument, GetEvents sends GET `/users/{id}/events` with the query exactly `{limit: "100"}` |
| UsersProperties.CreateDefaults | src/LunoClient/Interfaces/IUsersClient.cs:19 | with every default argument, Create sends the query exactly `{auto_name: "true"}` |
| UsersProperties.UpdateDefaults | src/LunoClient/Interfaces/IUsersClient.cs:47 | with every default argument, Update sends PATCH with the query exactly `{auto_name: "true"}` |
| UsersProperties.UpdateDestructiveSelectsVerbOnly | src/LunoClient/Clients/UsersClient.cs:77-80 | the destructive flag only chooses PUT over PATCH: both calls fail together, or both succeed with identical path, query and body |
| UsersProperties.UpdateCarriesExactlyUpdatableAttributes | src/LunoClient/Clients/UsersClient.cs:67-75 | two users give the same update request iff they agree on Email, FirstName, LastName, Name, Profile and Username; Id and every other attribute are ignored |
| UsersProperties.NullIdIsEmptyId | src/LunoClient/Clients/UsersClient.cs:35 | a null id and an empty id give the same user path and the same request from every one of the eight by-id builders |
| UsersProperties.ExpandRoundTrip | src/LunoClient/Clients/UsersClient.cs:33 | a non-empty `expand` whose names contain no comma can be read back, in order, by splitting the sent value at commas |
| UsersProperties.ExpandEmptyIsAmbiguous | src/LunoClient/Clients/UsersClient.cs:186 | an empty array, `[""]` and `[null]` all send `expand` with the empty value |
| UsersProperties.SlashFreePrefix | src/LunoClient/Clients/UsersClient.cs:96 | if two slash-free ids each followed by an empty or '/'-led suffix give the same text, the ids and the suffixes are equal |
| UsersProperties.UserPathInjective | src/LunoClient/Clients/UsersClient.cs:171 | for slash-free ids, `/users/{id}{suffix}` paths are equal iff the rendered ids and the suffixes are equal |
| UsersProperties.DeactivateTargetsOneUser | src/LunoClient/Clients/UsersClient.cs:94-97 | for slash-free ids, two deactivation requests are equal iff the rendered ids are, and a deactivation never equals a delete-sessions request |
| UsersProperties.DeactivateAliasesDeleteSessions | src/LunoClient/Clients/UsersClient.cs:193-196 | because the id is not escaped, deactivating id `x/sessions` sends the same request as deleting the sessions of `x` |

## Left out

- The connection (`HttpConnection`, `ApiKeyConnection`, the `ApiClient` base) is not part of this model. Transport, authentication headers, URL and query encoding, JSON serialisation and response deserialisation happen there. A builder's result is the request it would receive.
- `async`/`Task` plumbing: the model is synchronous and pure, and each call is independent.
- Response types (`PaginationResponse`, `SuccessResponse`, `LoginResponse`, and `User<T>` as a response) are not modelled, because the client only names them as deserialisation targets. `User<T>` as an argument is described below.
- `CreateUser<T>` and `CreateEvent<TEvent>` bodies, and the caller data `T` on a user, are kept as the JSON value they serialise to (`Json.Null` for null). The client forwards them untouched.
- `User<T>` is represented only by its Id, the six attributes an update copies, its profile, and an opaque map for every other server-assigned attribute.
- Text.ToLowerInvariant: lowers ASCII letters only. The client applies it only to `"True"` and `"False"`, where this is exact.
- Whether null fields in the password and login bodies are serialised is up to the connection's JSON settings. The model keeps them as null values in the body.
- The delete and password calls pass no query dictionary. The model gives them an empty query.
- Interface-only members with no implementation in the client are left out. These are session creation and listing, API-key creation and listing, and the `ValidatePassword`/`ChangePassword` signatures without the `Async` suffix. The interface is used only for default argument values.
- `LunoClient.cs` only wires the sub-clients together, and `CreateSession.cs` and `EventStorage.cs` only carry JSON attributes. None of them has request-shaping behaviour.
- Server-side meaning is left out. This covers the documented 0-200 bound on `limit`, which the client never enforces (`GetAll` accepts every 32-bit unsigned value). It also covers what `expand` and `auto_name` do, and the server's error kinds.

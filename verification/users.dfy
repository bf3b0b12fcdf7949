/** The users resource client: one pure function per public method of
    `UsersClient`, from the method's arguments to the request it hands to the
    connection, or to the argument exception it throws first.

    The client's generic parameters stand for caller-attached data that the
    connection serialises to JSON; the model keeps that data as a `Json`
    value. `CreateUser<T>` and `CreateEvent<TEvent>` payloads are passed to the
    connection untouched, so they too are kept as the `Json` value they
    serialise to (`Null` for a null reference). */
module Users {
  import opened Wrappers
  import opened Text
  import opened Http

  /** A JSON value: the serialised form of caller-attached data. */
  datatype Json =
    | Null
    | Bool(b: bool)
    | Number(n: int)
    | Str(s: string)
    | Array(items: seq<Json>)
    | Object(members: seq<(string, Json)>)

  /** A user as returned by the server: its id, the six attributes an update
      carries, the caller's profile data and every other server-assigned
      attribute (timestamps, flags, ...), which the client never reads. */
  datatype User = User(
    id: NullableString,
    email: NullableString,
    firstName: NullableString,
    lastName: NullableString,
    name: NullableString,
    username: NullableString,
    profile: Json,
    attributes: map<string, string>)

  /** The update payload `UpdateUser<T>`, sent by both PUT (full replacement)
      and PATCH (merge). */
  datatype UpdateUser = UpdateUser(
    email: NullableString,
    firstName: NullableString,
    lastName: NullableString,
    name: NullableString,
    profile: Json,
    username: NullableString)

  /** Every body the users client sends. */
  datatype Payload =
    | NewUser(user: Json)
    | UserUpdate(update: UpdateUser)
    | NewEvent(event: Json)
      /** Sent as the JSON object `{"password": …}`. */
    | PasswordCheck(password: NullableString)
      /** Sent as the JSON object `{"password": …, "current_password": …}`. */
    | PasswordChange(password: NullableString, currentPassword: NullableString)
      /** Sent as the JSON object `{"login": …, "password": …}`. */
    | Credentials(login: NullableString, password: NullableString)

  type UserRequest = Request<Payload>

  /** What a call amounts to: the request handed to the connection, or the
      exception thrown before any request exists. */
  type Shaped = Result<UserRequest, ArgError>

  /** An `expand` argument: a nullable array of nullable names. */
  type Expand = Option<seq<NullableString>>

  // Default argument values declared by the client interface.
  const DefaultAutoName: bool := true
  const DefaultDestructive: bool := false
  const DefaultLimit: uint32 := 100

  // Query keys (`nameof` of the corresponding parameter, or a literal).
  const AutoNameKey: string := "auto_name"
  const ExpandKey: string := "expand"
  const LimitKey: string := "limit"
  const FromKey: string := "from"
  const ToKey: string := "to"

  const UsersPath: string := "/users"
  const LoginPath: string := "/users/login"

  /** The path of one user followed by `suffix`; the id is inserted verbatim,
      without escaping, and a null id contributes nothing. */
  function UserPath(id: NullableString, suffix: string): string
  {
    "/users/" + OrEmpty(id) + suffix
  }

  /** The value sent for `expand`: the names comma-joined in order. */
  function ExpandValue(names: seq<NullableString>): string
  {
    Join(",", RenderAll(names))
  }

  /** The `expand` key is present exactly when `expand` is non-null, and then
      holds the names comma-joined in order. */
  predicate ExpandShaped(q: Query, expand: Expand)
  {
    match expand
    case None => Lookup(q, ExpandKey) == None
    case Some(names) => Lookup(q, ExpandKey) == Some(ExpandValue(names))
  }

  function ExpandKeys(expand: Expand): set<string>
  {
    if expand.Some? then {ExpandKey} else {}
  }

  function OptionalKeys(from: NullableString, to: NullableString, expand: Expand): set<string>
  {
    (if from.Some? then {FromKey} else {}) + (if to.Some? then {ToKey} else {}) + ExpandKeys(expand)
  }

  /** Adds `expand`, the names comma-joined, exactly when the array is non-null. */
  function AddExpand(q: Query, expand: Expand): Result<Query, ArgError>
  {
    match expand
    case None => Success(q)
    case Some(names) => Add(q, ExpandKey, ExpandValue(names))
  }

  /** Adds `key` bound to `value` exactly when `value` is non-null. */
  function AddIfPresent(q: Query, key: string, value: NullableString): Result<Query, ArgError>
  {
    match value
    case None => Success(q)
    case Some(v) => Add(q, key, v)
  }

  /** The pagination query shared by GetAllAsync and GetEventsAsync. */
  function PageQuery(from: NullableString, to: NullableString, limit: uint32, expand: Expand): (r: Result<Query, ArgError>)
    ensures r.Success?
    ensures DistinctKeys(r.value)
    ensures KeySet(r.value) == {"limit"} + OptionalKeys(from, to, expand)
    ensures Lookup(r.value, "limit").Some?
    ensures CanonicalDecimal(Lookup(r.value, "limit").value)
    ensures ParseDecimal(Lookup(r.value, "limit").value) == limit as nat
    ensures Lookup(r.value, "from") == from
    ensures Lookup(r.value, "to") == to
    ensures ExpandShaped(r.value, expand)
  {
    match Add([], LimitKey, UIntToString(limit))
    case Failure(err) => Failure(err)
    case Success(q0) =>
    match AddIfPresent(q0, FromKey, from)
    case Failure(err) => Failure(err)
    case Success(q1) =>
    match AddIfPresent(q1, ToKey, to)
    case Failure(err) => Failure(err)
    case Success(q2) =>
    AddExpand(q2, expand)
  }

  /** The update payload: the six updatable attributes, nothing else. */
  function ToUpdate(user: User): (u: UpdateUser)
    ensures u.email == user.email && u.firstName == user.firstName
    ensures u.lastName == user.lastName && u.name == user.name
    ensures u.profile == user.profile && u.username == user.username
  {
    UpdateUser(user.email, user.firstName, user.lastName, user.name, user.profile, user.username)
  }

  // ---------------------------------------------------------------------------
  // CreateAsync, GetAsync, GetAllAsync
  // ---------------------------------------------------------------------------

  function Create(user: Json, autoName: bool, expand: Expand): (r: Shaped)
    ensures r.Success?
    ensures r.value.verb == Post && r.value.path == "/users"
    ensures r.value.body == Some(NewUser(user))
    ensures Lookup(r.value.query, "auto_name") == Some(if autoName then "true" else "false")
    ensures ExpandShaped(r.value.query, expand)
    ensures KeySet(r.value.query) == {"auto_name"} + ExpandKeys(expand)
    ensures DistinctKeys(r.value.query)
  {
    match Add([], AutoNameKey, BoolQueryValue(autoName))
    case Failure(err) => Failure(err)
    case Success(q0) =>
    match AddExpand(q0, expand)
    case Failure(err) => Failure(err)
    case Success(q1) =>
    Success(Request(Post, UsersPath, q1, Some(NewUser(user))))
  }

  function GetById(id: NullableString, expand: Expand): (r: Shaped)
    ensures r.Success?
    ensures r.value.verb == Get && r.value.path == "/users/" + OrEmpty(id)
    ensures r.value.body == None
    ensures ExpandShaped(r.value.query, expand)
    ensures KeySet(r.value.query) == ExpandKeys(expand)
    ensures DistinctKeys(r.value.query)
  {
    match AddExpand([], expand)
    case Failure(err) => Failure(err)
    case Success(q) =>
    Success(Request(Get, UserPath(id, ""), q, None))
  }

  function GetByUser(user: Option<User>, expand: Expand): (r: Shaped)
    ensures r.Failure? <==> user.None?
    ensures r.Failure? ==> r.error == ArgumentNull("user")
    ensures r.Success? ==> r == GetById(user.value.id, expand)
  {
    if user.None? then Failure(ArgumentNull("user"))
    else GetById(user.value.id, expand)
  }

  function GetAll(from: NullableString, to: NullableString, limit: uint32, expand: Expand): (r: Shaped)
    ensures r.Success?
    ensures r.value.verb == Get && r.value.path == "/users" && r.value.body == None
    ensures DistinctKeys(r.value.query)
    ensures KeySet(r.value.query) == {"limit"} + OptionalKeys(from, to, expand)
    ensures Lookup(r.value.query, "limit").Some?
    ensures CanonicalDecimal(Lookup(r.value.query, "limit").value)
    ensures ParseDecimal(Lookup(r.value.query, "limit").value) == limit as nat
    ensures Lookup(r.value.query, "from") == from && Lookup(r.value.query, "to") == to
    ensures ExpandShaped(r.value.query, expand)
  {
    match PageQuery(from, to, limit, expand)
    case Failure(err) => Failure(err)
    case Success(q) =>
    Success(Request(Get, UsersPath, q, None))
  }

  // ---------------------------------------------------------------------------
  // UpdateAsync
  // ---------------------------------------------------------------------------

  function UpdateById(id: NullableString, user: Option<User>, autoName: bool, destructive: bool): (r: Shaped)
    ensures r.Failure? <==> user.None?
    ensures r.Failure? ==> r.error == ArgumentNull("user")
    ensures r.Success? ==> (r.value.verb == Put <==> destructive)
    ensures r.Success? ==> (r.value.verb == Patch <==> !destructive)
    ensures r.Success? ==> r.value.path == "/users/" + OrEmpty(id)
    ensures r.Success? ==> r.value.query == [("auto_name", if autoName then "true" else "false")]
    ensures r.Success? ==> r.value.body.Some? && r.value.body.value.UserUpdate?
    ensures r.Success? ==> var u := r.value.body.value.update;
      && u.email == user.value.email && u.firstName == user.value.firstName
      && u.lastName == user.value.lastName && u.name == user.value.name
      && u.profile == user.value.profile && u.username == user.value.username
  {
    if user.None? then Failure(ArgumentNull("user"))
    else
      match Add([], AutoNameKey, BoolQueryValue(autoName))
      case Failure(err) => Failure(err)
      case Success(q) =>
      var body := Some(UserUpdate(ToUpdate(user.value)));
      if destructive then Success(Request(Put, UserPath(id, ""), q, body))
      else Success(Request(Patch, UserPath(id, ""), q, body))
  }

  function UpdateByUser(updatedUser: Option<User>, autoName: bool, destructive: bool): (r: Shaped)
    ensures r.Failure? <==> updatedUser.None?
    ensures r.Failure? ==> r.error == ArgumentNull("updatedUser")
    ensures r.Success? ==> r == UpdateById(updatedUser.value.id, updatedUser, autoName, destructive)
  {
    if updatedUser.None? then Failure(ArgumentNull("updatedUser"))
    else UpdateById(updatedUser.value.id, updatedUser, autoName, destructive)
  }

  // ---------------------------------------------------------------------------
  // DeactivateAsync
  // ---------------------------------------------------------------------------

  function DeactivateById(id: NullableString): (r: Shaped)
    ensures r.Success?
    ensures r.value.verb == Delete && r.value.path == "/users/" + OrEmpty(id)
    ensures r.value.query == [] && r.value.body == None
  {
    Success(Request(Delete, UserPath(id, ""), [], None))
  }

  function DeactivateByUser(user: Option<User>): (r: Shaped)
    ensures r.Failure? <==> user.None?
    ensures r.Failure? ==> r.error == ArgumentNull("user")
    ensures r.Success? ==> r == DeactivateById(user.value.id)
  {
    if user.None? then Failure(ArgumentNull("user"))
    else DeactivateById(user.value.id)
  }

  // ---------------------------------------------------------------------------
  // ValidatePasswordAsync, ChangePasswordAsync
  // ---------------------------------------------------------------------------

  function ValidatePasswordById(id: NullableString, password: NullableString): (r: Shaped)
    ensures r.Success?
    ensures r.value.verb == Post && r.value.path == "/users/" + OrEmpty(id) + "/password/validate"
    ensures r.value.query == [] && r.value.body == Some(PasswordCheck(password))
  {
    Success(Request(Post, UserPath(id, "/password/validate"), [], Some(PasswordCheck(password))))
  }

  function ValidatePasswordByUser(user: Option<User>, password: NullableString): (r: Shaped)
    ensures r.Failure? <==> user.None?
    ensures r.Failure? ==> r.error == ArgumentNull("user")
    ensures r.Success? ==> r == ValidatePasswordById(user.value.id, password)
  {
    if user.None? then Failure(ArgumentNull("user"))
    else ValidatePasswordById(user.value.id, password)
  }

  function ChangePasswordById(id: NullableString, newPassword: NullableString, currentPassword: NullableString): (r: Shaped)
    ensures r.Success?
    ensures r.value.verb == Post && r.value.path == "/users/" + OrEmpty(id) + "/password/change"
    ensures r.value.query == []
    ensures r.value.body.Some? && r.value.body.value.PasswordChange?
    ensures r.value.body.value.password == newPassword
    ensures r.value.body.value.currentPassword == currentPassword
  {
    Success(Request(Post, UserPath(id, "/password/change"), [], Some(PasswordChange(newPassword, currentPassword))))
  }

  function ChangePasswordByUser(user: Option<User>, newPassword: NullableString, currentPassword: NullableString): (r: Shaped)
    ensures r.Failure? <==> user.None?
    ensures r.Failure? ==> r.error == ArgumentNull("user")
    ensures r.Success? ==> r == ChangePasswordById(user.value.id, newPassword, currentPassword)
  {
    if user.None? then Failure(ArgumentNull("user"))
    else ChangePasswordById(user.value.id, newPassword, currentPassword)
  }

  // ---------------------------------------------------------------------------
  // CreateEventAsync, GetEventsAsync
  // ---------------------------------------------------------------------------

  function CreateEventById(id: NullableString, event: Json, expand: Expand): (r: Shaped)
    ensures r.Success?
    ensures r.value.verb == Post && r.value.path == "/users/" + OrEmpty(id) + "/events"
    ensures r.value.body == Some(NewEvent(event))
    ensures ExpandShaped(r.value.query, expand)
    ensures KeySet(r.value.query) == ExpandKeys(expand)
    ensures DistinctKeys(r.value.query)
  {
    match AddExpand([], expand)
    case Failure(err) => Failure(err)
    case Success(q) =>
    Success(Request(Post, UserPath(id, "/events"), q, Some(NewEvent(event))))
  }

  function CreateEventByUser(user: Option<User>, event: Json, expand: Expand): (r: Shaped)
    ensures r.Failure? <==> user.None?
    ensures r.Failure? ==> r.error == ArgumentNull("user")
    ensures r.Success? ==> r == CreateEventById(user.value.id, event, expand)
  {
    if user.None? then Failure(ArgumentNull("user"))
    else CreateEventById(user.value.id, event, expand)
  }

  function GetEventsById(id: NullableString, from: NullableString, to: NullableString, limit: uint32, expand: Expand): (r: Shaped)
    ensures r.Success?
    ensures r.value.verb == Get && r.value.path == "/users/" + OrEmpty(id) + "/events"
    ensures r.value.body == None
    ensures DistinctKeys(r.value.query)
    ensures KeySet(r.value.query) == {"limit"} + OptionalKeys(from, to, expand)
    ensures Lookup(r.value.query, "limit").Some?
    ensures CanonicalDecimal(Lookup(r.value.query, "limit").value)
    ensures ParseDecimal(Lookup(r.value.query, "limit").value) == limit as nat
    ensures Lookup(r.value.query, "from") == from && Lookup(r.value.query, "to") == to
    ensures ExpandShaped(r.value.query, expand)
  {
    match PageQuery(from, to, limit, expand)
    case Failure(err) => Failure(err)
    case Success(q) =>
    Success(Request(Get, UserPath(id, "/events"), q, None))
  }

  function GetEventsByUser(user: Option<User>, from: NullableString, to: NullableString, limit: uint32, expand: Expand): (r: Shaped)
    ensures r.Failure? <==> user.None?
    ensures r.Failure? ==> r.error == ArgumentNull("user")
    ensures r.Success? ==> r == GetEventsById(user.value.id, from, to, limit, expand)
  {
    if user.None? then Failure(ArgumentNull("user"))
    else GetEventsById(user.value.id, from, to, limit, expand)
  }

  // ---------------------------------------------------------------------------
  // LoginAsync, DeleteSessionsAsync
  // ---------------------------------------------------------------------------

  function Login(login: NullableString, password: NullableString, expand: Expand): (r: Shaped)
    ensures r.Success?
    ensures r.value.verb == Post && r.value.path == "/users/login"
    ensures r.value.body == Some(Credentials(login, password))
    ensures ExpandShaped(r.value.query, expand)
    ensures KeySet(r.value.query) == ExpandKeys(expand)
    ensures DistinctKeys(r.value.query)
  {
    match AddExpand([], expand)
    case Failure(err) => Failure(err)
    case Success(q) =>
    Success(Request(Post, LoginPath, q, Some(Credentials(login, password))))
  }

  function DeleteSessionsById(id: NullableString): (r: Shaped)
    ensures r.Success?
    ensures r.value.verb == Delete && r.value.path == "/users/" + OrEmpty(id) + "/sessions"
    ensures r.value.query == [] && r.value.body == None
  {
    Success(Request(Delete, UserPath(id, "/sessions"), [], None))
  }

  function DeleteSessionsByUser(user: Option<User>): (r: Shaped)
    ensures r.Failure? <==> user.None?
    ensures r.Failure? ==> r.error == ArgumentNull("user")
    ensures r.Success? ==> r == DeleteSessionsById(user.value.id)
  {
    if user.None? then Failure(ArgumentNull("user"))
    else DeleteSessionsById(user.value.id)
  }
}

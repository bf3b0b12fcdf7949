/** Properties that relate several calls of the users client: the requests
    built with the interface's default arguments, what the `destructive` flag
    changes, which user attributes an update carries, how the `expand` value
    can be read back, and what the unescaped id does to paths. */
module UsersProperties {
  import opened Wrappers
  import opened Text
  import opened Http
  import opened Users

  lemma DecimalOfDefaultLimit()
    ensures UIntToString(DefaultLimit) == "100"
  {
  }

  /** `GetAllAsync()` with every default sends GET /users with exactly `limit=100`. */
  lemma GetAllDefaults()
    ensures GetAll(None, None, DefaultLimit, None)
      == Success(Request(Get, "/users", [("limit", "100")], None))
  {
    DefaultPageQuery();
  }

  lemma DefaultPageQuery()
    ensures PageQuery(None, None, DefaultLimit, None) == Success([("limit", "100")])
  {
    DecimalOfDefaultLimit();
    var empty: Query := [];
    assert KeySet(empty) == {};
    var q := [("limit", "100")];
    assert Add(empty, LimitKey, "100").value == q;
    assert AddIfPresent(q, FromKey, None) == Success(q);
    assert AddIfPresent(q, ToKey, None) == Success(q);
    assert AddExpand(q, None) == Success(q);
  }

  /** `GetEventsAsync(id)` with every other default sends exactly `limit=100`. */
  lemma GetEventsDefaults(id: NullableString)
    ensures GetEventsById(id, None, None, DefaultLimit, None)
      == Success(Request(Get, "/users/" + OrEmpty(id) + "/events", [("limit", "100")], None))
  {
    DefaultPageQuery();
  }

  /** `CreateAsync(user)` with every default sends exactly `auto_name=true`. */
  lemma CreateDefaults(user: Json)
    ensures Create(user, DefaultAutoName, None)
      == Success(Request(Post, "/users", [("auto_name", "true")], Some(NewUser(user))))
  {
    var empty: Query := [];
    assert KeySet(empty) == {};
    var q := [("auto_name", "true")];
    assert Add(empty, AutoNameKey, "true").value == q;
    assert AddExpand(q, None) == Success(q);
  }

  /** The `destructive` flag selects PUT or PATCH and changes nothing else:
      both calls fail together, or both succeed with the same path, query and body. */
  lemma UpdateDestructiveSelectsVerbOnly(id: NullableString, user: Option<User>, autoName: bool)
    ensures var put := UpdateById(id, user, autoName, true);
      var patch := UpdateById(id, user, autoName, false);
      && put.Success? == patch.Success?
      && (put.Failure? ==> put == patch)
      && (put.Success? ==>
        && put.value.verb == Put && patch.value.verb == Patch
        && put.value.(verb := Patch) == patch.value)
  {
  }

  /** `UpdateAsync(id, user)` with every default sends PATCH with exactly `auto_name=true`. */
  lemma UpdateDefaults(id: NullableString, user: User)
    ensures var r := UpdateById(id, Some(user), DefaultAutoName, DefaultDestructive);
      r.Success? && r.value.verb == Patch && r.value.query == [("auto_name", "true")]
  {
  }

  /** Two users agree on Email, FirstName, LastName, Name, Profile and Username. */
  predicate SameUpdatableAttributes(a: User, b: User)
  {
    && a.email == b.email && a.firstName == b.firstName && a.lastName == b.lastName
    && a.name == b.name && a.profile == b.profile && a.username == b.username
  }

  /** The update request carries exactly the six updatable attributes: two
      users give the same request iff they agree on those, whatever their ids
      and other attributes. */
  lemma UpdateCarriesExactlyUpdatableAttributes(
    id: NullableString, a: User, b: User, autoName: bool, destructive: bool)
    ensures UpdateById(id, Some(a), autoName, destructive)
         == UpdateById(id, Some(b), autoName, destructive)
        <==> SameUpdatableAttributes(a, b)
  {
  }

  /** A null id and an empty id shape the same request, for every by-id call. */
  lemma NullIdIsEmptyId(suffix: string, expand: Expand, user: Option<User>, autoName: bool, destructive: bool,
                        password: NullableString, currentPassword: NullableString, event: Json,
                        from: NullableString, to: NullableString, limit: uint32)
    ensures UserPath(None, suffix) == UserPath(Some(""), suffix)
    ensures GetById(None, expand) == GetById(Some(""), expand)
    ensures UpdateById(None, user, autoName, destructive) == UpdateById(Some(""), user, autoName, destructive)
    ensures DeactivateById(None) == DeactivateById(Some(""))
    ensures ValidatePasswordById(None, password) == ValidatePasswordById(Some(""), password)
    ensures ChangePasswordById(None, password, currentPassword) == ChangePasswordById(Some(""), password, currentPassword)
    ensures CreateEventById(None, event, expand) == CreateEventById(Some(""), event, expand)
    ensures GetEventsById(None, from, to, limit, expand) == GetEventsById(Some(""), from, to, limit, expand)
    ensures DeleteSessionsById(None) == DeleteSessionsById(Some(""))
  {
  }

  // ---------------------------------------------------------------------------
  // The expand value
  // ---------------------------------------------------------------------------

  /** The joined `expand` value splits back into the names, in order, when
      there is at least one name and no name contains a comma. */
  lemma ExpandRoundTrip(names: seq<NullableString>)
    requires |names| >= 1
    requires forall i :: 0 <= i < |names| ==> ',' !in OrEmpty(names[i])
    ensures Split(ExpandValue(names), ',') == RenderAll(names)
  {
    SplitJoin(RenderAll(names), ',');
  }

  /** An empty array, an array holding one empty name and an array holding
      one null all give `expand=` with the empty value. */
  lemma ExpandEmptyIsAmbiguous()
    ensures ExpandValue([]) == ""
    ensures ExpandValue([Some("")]) == ""
    ensures ExpandValue([None]) == ""
  {
  }

  // ---------------------------------------------------------------------------
  // The id is interpolated without escaping
  // ---------------------------------------------------------------------------

  predicate SlashFree(id: NullableString)
  {
    '/' !in OrEmpty(id)
  }

  /** A path suffix the client appends after the id: empty or starting with '/'. */
  predicate Suffix(s: string)
  {
    s == [] || s[0] == '/'
  }

  /** The index of the first '/' in `x`, or `|x|` when there is none. */
  function SlashIndex(x: string): (k: nat)
    ensures k <= |x|
  {
    if |x| == 0 || x[0] == '/' then 0 else 1 + SlashIndex(x[1..])
  }

  lemma {:induction false} SlashIndexAfter(a: string, s: string)
    requires '/' !in a && Suffix(s)
    ensures SlashIndex(a + s) == |a|
    decreases |a|
  {
    if |a| == 0 {
      assert a + s == s;
    } else {
      assert (a + s)[1..] == a[1..] + s;
      SlashIndexAfter(a[1..], s);
    }
  }

  lemma SlashFreePrefix(a: string, s: string, b: string, t: string)
    requires '/' !in a && '/' !in b
    requires Suffix(s) && Suffix(t)
    requires a + s == b + t
    ensures a == b && s == t
  {
    SlashIndexAfter(a, s);
    SlashIndexAfter(b, t);
    assert a == (a + s)[..|a|];
    assert b == (b + t)[..|b|];
    assert s == (a + s)[|a|..];
    assert t == (b + t)[|b|..];
  }

  /** For ids without '/', a path under /users names one id and one action. */
  lemma UserPathInjective(a: NullableString, s: string, b: NullableString, t: string)
    requires SlashFree(a) && SlashFree(b)
    requires Suffix(s) && Suffix(t)
    ensures UserPath(a, s) == UserPath(b, t) <==> OrEmpty(a) == OrEmpty(b) && s == t
  {
    if UserPath(a, s) == UserPath(b, t) {
      var x, y := OrEmpty(a) + s, OrEmpty(b) + t;
      assert UserPath(a, s) == "/users/" + x;
      assert UserPath(b, t) == "/users/" + y;
      assert x == UserPath(a, s)[7..];
      assert y == UserPath(b, t)[7..];
      SlashFreePrefix(OrEmpty(a), s, OrEmpty(b), t);
    }
  }

  /** With ids free of '/', deactivating two users sends the same request
      only when their ids render alike, and never the request that deletes
      a user's sessions. */
  lemma DeactivateTargetsOneUser(a: NullableString, b: NullableString)
    requires SlashFree(a) && SlashFree(b)
    ensures DeactivateById(a) == DeactivateById(b) <==> OrEmpty(a) == OrEmpty(b)
    ensures DeactivateById(a) != DeleteSessionsById(b)
  {
    UserPathInjective(a, "", b, "");
    UserPathInjective(a, "", b, "/sessions");
  }

  /** Without escaping, an id containing '/' can turn deactivating one user
      into deleting another user's sessions. */
  lemma DeactivateAliasesDeleteSessions()
    ensures DeactivateById(Some("x/sessions")) == DeleteSessionsById(Some("x"))
  {
    assert "/users/" + "x/sessions" + "" == "/users/" + "x" + "/sessions";
  }
}

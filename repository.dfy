/** The credential lookups of src/repositories/UserRepository.ts over an abstract store of
  * user rows. A store that fails makes every lookup throw; `findOne` answers with the
  * first matching row. */
module Repository {
  import opened Base
  import opened Entities

  /** The t_user table as the lookups see it, or a store whose queries throw. */
  datatype Store = Rows(rows: seq<UserRow>) | Unavailable(reason: string)

  /** Row `i` satisfies `p` and no row before it does. */
  predicate FirstMatch(rows: seq<UserRow>, p: UserRow -> bool, i: int)
  {
    0 <= i < |rows| && p(rows[i]) && forall j :: 0 <= j < i ==> !p(rows[j])
  }

  /** The first row satisfying `p`, or nothing when no row does. */
  function FirstWhere(rows: seq<UserRow>, p: UserRow -> bool): (r: Option<UserRow>)
    ensures r.None? <==> forall i :: 0 <= i < |rows| ==> !p(rows[i])
    ensures r.Some? ==> exists i :: FirstMatch(rows, p, i) && rows[i] == r.value
    ensures forall i :: FirstMatch(rows, p, i) ==> r == Some(rows[i])
  {
    if rows == [] then None
    else if p(rows[0]) then Some(rows[0])
    else
      var r := FirstWhere(rows[1..], p);
      assert forall j :: 1 <= j < |rows| ==> rows[j] == rows[1..][j - 1];
      r
  }

  /** `findOne` with a condition and the relations to load. */
  function FindOne(store: Store, p: UserRow -> bool, relations: set<Relation>): (r: Result<Option<Loaded>>)
    ensures store.Unavailable? <==> r.Err?
    ensures r.Ok? && r.value.Some? ==> r.value.value.relations == relations
    ensures r.Ok? && r.value.Some? ==> r.value.value.row in store.rows && p(r.value.value.row)
    ensures r.Ok? ==> (r.value.None? <==> forall i :: 0 <= i < |store.rows| ==> !p(store.rows[i]))
    ensures store.Rows? ==> forall i :: FirstMatch(store.rows, p, i) ==> r == Ok(Some(Loaded(store.rows[i], relations)))
  {
    match store
    case Unavailable(reason) => Err(reason)
    case Rows(rows) =>
      match FirstWhere(rows, p)
      case None => Ok(None)
      case Some(row) => Ok(Some(Loaded(row, relations)))
  }

  /** The relations `findByUsername` loads: both when `includeInfo`, none otherwise. */
  function UsernameRelations(includeInfo: bool): set<Relation>
  {
    if includeInfo then {UserInfoRelation, UserPermissionsRelation} else {}
  }

  /** The condition `username = :username`. An absent username is bound as NULL, and no
    * column equals NULL. */
  predicate HasUsername(row: UserRow, username: Option<string>)
  {
    username.Some? && row.username == username
  }

  /** Row `i` is the first row with that username. */
  predicate FirstNamed(rows: seq<UserRow>, i: int, username: Option<string>)
  {
    0 <= i < |rows| && HasUsername(rows[i], username) && forall j :: 0 <= j < i ==> !HasUsername(rows[j], username)
  }

  /** `findByUsername(username, includeInfo)`: the first user with that username, with the
    * profile and permission relations exactly when `includeInfo` holds. */
  function FindByUsername(store: Store, username: Option<string>, includeInfo: bool): (r: Result<Option<Loaded>>)
    ensures store.Unavailable? <==> r.Err?
    ensures r.Ok? && r.value.Some? ==>
      && r.value.value.row in store.rows
      && HasUsername(r.value.value.row, username)
      && r.value.value.relations == UsernameRelations(includeInfo)
    ensures r.Ok? ==>
      (r.value.None? <==> forall i :: 0 <= i < |store.rows| ==> !HasUsername(store.rows[i], username))
    ensures store.Rows? ==> forall i :: FirstNamed(store.rows, i, username) ==>
      r == Ok(Some(Loaded(store.rows[i], UsernameRelations(includeInfo))))
    ensures store.Rows? && username.None? ==> r == Ok(None)
  {
    FindOne(store, (u: UserRow) => HasUsername(u, username), UsernameRelations(includeInfo))
  }

  /** The first row with that username exists and comparing `password` with its hash throws. */
  ghost predicate FirstNamedCompareFails(
    store: Store, username: string, password: string, compare: (string, Option<string>) -> Result<bool>)
  {
    store.Rows? && exists i :: 0 <= i < |store.rows| && FirstNamed(store.rows, i, Some(username)) && compare(password, store.rows[i].password).Err?
  }

  /** The first row with that username exists and `password` matches its hash. */
  ghost predicate FirstNamedCompareMatches(
    store: Store, username: string, password: string, compare: (string, Option<string>) -> Result<bool>)
  {
    store.Rows? && exists i :: 0 <= i < |store.rows| && FirstNamed(store.rows, i, Some(username)) && compare(password, store.rows[i].password) == Ok(true)
  }

  /** `findByUsernamePassword`: the first user with that username, with both relations,
    * kept only when `compare(password, user.password)` succeeds. A failing store or a
    * failing comparison throws. */
  function FindByUsernamePassword(
    store: Store, username: string, password: string,
    compare: (string, Option<string>) -> Result<bool>
  ): (r: Result<Option<Loaded>>)
    ensures r.Err? <==> store.Unavailable? || FirstNamedCompareFails(store, username, password, compare)
    ensures r.Ok? && r.value.Some? <==> FirstNamedCompareMatches(store, username, password, compare)
    ensures r.Ok? && r.value.Some? ==>
      && r.value.value.row in store.rows
      && r.value.value.row.username == Some(username)
      && r.value.value.relations == {UserInfoRelation, UserPermissionsRelation}
      && compare(password, r.value.value.row.password) == Ok(true)
    ensures store.Rows? ==> forall i :: FirstNamed(store.rows, i, Some(username)) ==>
      && (compare(password, store.rows[i].password) == Ok(true) ==>
            r == Ok(Some(Loaded(store.rows[i], {UserInfoRelation, UserPermissionsRelation}))))
      && (compare(password, store.rows[i].password) == Ok(false) ==> r == Ok(None))
      && (compare(password, store.rows[i].password).Err? ==> r.Err?)
    ensures store.Rows? && (forall i :: 0 <= i < |store.rows| ==> store.rows[i].username != Some(username))
      ==> r == Ok(None)
  {
    var found := FindByUsername(store, Some(username), true);
    match found
    case Err(e) => Err(e)
    case Ok(None) => Ok(None)
    case Ok(Some(user)) =>
      match compare(password, user.row.password)
      case Err(e) => Err(e)
      case Ok(matches) => if matches then Ok(Some(user)) else Ok(None)
  }

  /** When the user exists and the comparison answers false, there is no user. */
  lemma WrongPasswordGivesNoUser(
    store: Store, username: string, password: string,
    compare: (string, Option<string>) -> Result<bool>)
    requires FindByUsername(store, Some(username), true).Ok?
    requires FindByUsername(store, Some(username), true).value.Some?
    requires compare(password, FindByUsername(store, Some(username), true).value.value.row.password) == Ok(false)
    ensures FindByUsernamePassword(store, username, password, compare) == Ok(None)
  {
  }

  /** `findByUserIdAndToken`: the user whose id and token both equal the given ones, with
    * its profile relation. */
  function FindByUserIdAndToken(store: Store, userId: int, token: string): (r: Result<Option<Loaded>>)
    ensures store.Unavailable? <==> r.Err?
    ensures r.Ok? && r.value.Some? ==>
      && r.value.value.row in store.rows
      && r.value.value.row.id == userId
      && r.value.value.row.token == Some(token)
      && r.value.value.relations == {UserInfoRelation}
    ensures r.Ok? ==> (r.value.None? <==>
      forall i :: 0 <= i < |store.rows| ==> store.rows[i].id != userId || store.rows[i].token != Some(token))
  {
    FindOne(store, (u: UserRow) => u.id == userId && u.token == Some(token), {UserInfoRelation})
  }

  /** `findOne(id, {relations: ['userPermissions']})`, used by the bearer-token strategy. */
  function FindByIdWithPermissions(store: Store, id: int): (r: Result<Option<Loaded>>)
    ensures store.Unavailable? <==> r.Err?
    ensures r.Ok? && r.value.Some? ==>
      && r.value.value.row in store.rows
      && r.value.value.row.id == id
      && r.value.value.relations == {UserPermissionsRelation}
    ensures r.Ok? ==> (r.value.None? <==> forall i :: 0 <= i < |store.rows| ==> store.rows[i].id != id)
  {
    FindOne(store, (u: UserRow) => u.id == id, {UserPermissionsRelation})
  }
}

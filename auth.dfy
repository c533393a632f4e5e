/** The passport strategies of src/auth/index.ts and the `passport_authorize` gate that
  * wraps a handler. Each strategy turns a lookup into a verdict: an error, no user, or a
  * user; the gate forwards the error, answers 401, or attaches the user and calls the
  * handler. */
module Auth {
  import opened Base
  import opened Errors
  import opened Entities
  import opened Repository
  import opened Http

  /** The `(err, user)` pair a strategy hands to `done`. */
  datatype Verdict = Errored(error: string) | NoUser | Authenticated(user: Loaded)

  /** A lookup result read as a verdict: a thrown error, nothing found, or the user. */
  function FromLookup(r: Result<Option<Loaded>>): (v: Verdict)
    ensures v.Errored? <==> r.Err?
    ensures v.Authenticated? <==> r.Ok? && r.value.Some?
    ensures v.Authenticated? ==> v.user == r.value.value
  {
    match r
    case Err(e) => Errored(e)
    case Ok(None) => NoUser
    case Ok(Some(u)) => Authenticated(u)
  }

  /** The `password` strategy (username/password from the body): a failing store or a
    * failing comparison is passed on as an error. */
  function PasswordVerify(
    store: Store, username: string, password: string,
    compare: (string, Option<string>) -> Result<bool>
  ): (v: Verdict)
    ensures v.Errored? <==> store.Unavailable? || FirstNamedCompareFails(store, username, password, compare)
    ensures v.Authenticated? <==> FirstNamedCompareMatches(store, username, password, compare)
    ensures store.Rows? ==> forall i :: FirstNamed(store.rows, i, Some(username)) ==>
      && (compare(password, store.rows[i].password) == Ok(true) ==>
            v == Authenticated(Loaded(store.rows[i], {UserInfoRelation, UserPermissionsRelation})))
      && (compare(password, store.rows[i].password) == Ok(false) ==> v == NoUser)
    ensures v.Authenticated? ==>
      && v.user.row in store.rows
      && v.user.row.username == Some(username)
      && compare(password, v.user.row.password) == Ok(true)
      && v.user.relations == {UserInfoRelation, UserPermissionsRelation}
  {
    FromLookup(FindByUsernamePassword(store, username, password, compare))
  }

  /** The `guest` strategy (userId/token from the body). `Number(userId)` is given as
    * `None` when it is not an integer; no row has such an id. Every exception is turned
    * into "no user". */
  function GuestVerify(store: Store, userId: Option<int>, token: string): (v: Verdict)
    ensures !v.Errored?
    ensures store.Unavailable? ==> v == NoUser
    ensures v == NoUser <==>
      || userId.None? || store.Unavailable?
      || forall i :: 0 <= i < |store.rows| ==> store.rows[i].id != userId.value || store.rows[i].token != Some(token)
    ensures v.Authenticated? ==> v.user.relations == {UserInfoRelation}
    ensures v.Authenticated? ==>
      && userId.Some? && store.Rows?
      && v.user.row in store.rows
      && v.user.row.id == userId.value
      && v.user.row.token == Some(token)
  {
    match userId
    case None => NoUser
    case Some(id) =>
      match FindByUserIdAndToken(store, id, token)
      case Err(_) => NoUser
      case Ok(None) => NoUser
      case Ok(Some(u)) => Authenticated(u)
  }

  /** The decoded bearer-token payload `{id}`. */
  datatype TokenPayload = TokenPayload(id: int)

  /** The `jwt` strategy. `payload` is what the token verification yields (`None` for a
    * missing, forged or expired token, on which passport reports no user). The verify
    * callback has no `try`: when the store throws, `done` is never called, which the
    * model gives as `None`. */
  function JwtVerify(store: Store, payload: Option<TokenPayload>): (v: Option<Verdict>)
    ensures v.None? <==> payload.Some? && store.Unavailable?
    ensures v.Some? ==> !v.value.Errored?
    ensures v == Some(NoUser) <==> payload.None? || (store.Rows? && forall i :: 0 <= i < |store.rows| ==> store.rows[i].id != payload.value.id)
    ensures v.Some? && v.value.Authenticated? ==>
      && v.value.user.row in store.rows
      && v.value.user.row.id == payload.value.id
      && v.value.user.relations == {UserPermissionsRelation}
  {
    match payload
    case None => Some(NoUser)
    case Some(TokenPayload(id)) =>
      match FindByIdWithPermissions(store, id)
      case Err(_) => None
      case Ok(r) => Some(FromLookup(Ok(r)))
  }

  /** The user the bearer strategy resolves carries no profile: only the permission
    * relation is loaded. */
  lemma BearerUserHasNoProfile(store: Store, payload: Option<TokenPayload>)
    requires JwtVerify(store, payload).Some? && JwtVerify(store, payload).value.Authenticated?
    ensures LoadedProfile(JwtVerify(store, payload).value.user) == None
  {
  }

  /** The body `{type: 'unauthorized', message: ..., errors: []}` of a refused request. */
  const Unauthorized := ErrorMessage("unauthorized", "Không đủ quyền thực hiện yêu cầu!", [])

  /** What the gate does with a verdict: pass the error to `next`, answer 401, or call the
    * wrapped handler. */
  datatype Dispatch = Forwarded(error: string) | Responded(reply: Reply) | Invoked

  /** The decision of the gate's passport callback. */
  function Gate(v: Verdict): (d: Dispatch)
    ensures d.Forwarded? <==> v.Errored?
    ensures d.Forwarded? ==> d.error == v.error
    ensures d.Responded? <==> v.NoUser?
    ensures d.Responded? ==> d.reply == Reply(401, ErrorBody(Unauthorized)) && d.reply.body.error.errors == []
    ensures d.Invoked? <==> v.Authenticated?
  {
    match v
    case Errored(e) => Forwarded(e)
    case NoUser => Responded(Reply(401, ErrorBody(Unauthorized)))
    case Authenticated(_) => Invoked
  }

  /** `passport_authorize`: on a resolved user, the entity is hydrated, `req.user` is set to
    * it and the handler is invoked once; otherwise `req.user` is left alone. */
  method Authorize(req: Request, v: Verdict) returns (d: Dispatch)
    modifies req`user
    ensures d == Gate(v)
    ensures v.Authenticated? ==>
      && req.user != null && fresh(req.user)
      && req.user.id == v.user.row.id && req.user.username == v.user.row.username
      && req.user.enable == v.user.row.enable && req.user.password == v.user.row.password
      && req.user.token == v.user.row.token && req.user.createdBy == v.user.row.createdBy
      && req.user.userPermissions == LoadedPermissionRows(v.user)
      && req.user.permissions == PermissionsAfterLoad(LoadedPermissionRows(v.user))
      && (req.user.userInfo == null <==> LoadedProfile(v.user).None?)
      && (req.user.userInfo != null ==> fresh(req.user.userInfo) && req.user.userInfo.Row() == LoadedProfile(v.user).value)
    ensures !v.Authenticated? ==> req.user == old(req.user)
  {
    d := Gate(v);
    if v.Authenticated? {
      var user := new User.Hydrate(v.user);
      req.user := user;
    }
  }
}

/** The business rules of the user handlers in src/controllers/UserController.ts: the
  * search filters and page count of `_find`, the checks and writes of `_signup` and
  * `_registerAsGuest`, the login decision of `_login`, and the in-place updates of
  * `_updateMe` and `_changePasswordMe`. The database sits behind the lookups of the
  * Repository module; whether a transaction commits is a parameter. */
module UserController {
  import opened Base
  import opened Text
  import opened Errors
  import opened Entities
  import opened Repository
  import opened Http
  import opened Auth
  import Constants

  /** A request body: the text fields the client sent. */
  type RequestBody = map<string, string>

  /** `body.k`: the value, or undefined. */
  function Field(b: RequestBody, k: string): Option<string>
  {
    if k in b then Some(b[k]) else None
  }

  /** The AppStandardError of a password and its confirmation that differ. */
  const ConfirmationError := NewAppStandardError(
    "confirmation_password", "Mật khẩu không hợp lệ", [],
    Payload(Some([FieldError("repeatPassword", ["Mật khẩu xác nhận không trùng khớp!"])])))

  /** What a handler wrote to the store when its transaction committed. */
  datatype Written = NothingWritten | Wrote(user: UserRow)

  datatype Outcome = Outcome(reply: Reply, written: Written)

  // ---------------------------------------------------------------- _find

  /** JavaScript truthiness of a query value: a missing value and the empty string are
    * falsy; arrays and objects are truthy. */
  predicate QueryTruthy(v: QueryValue)
  {
    match v
    case Absent => false
    case Single(s) => s != ""
    case Repeated(_) => true
    case Nested => true
  }

  /** A query value inside a template string. */
  function QueryText(v: QueryValue): string
  {
    match v
    case Absent => "undefined"
    case Single(s) => s
    case Repeated(items) => Join(items, ",")
    case Nested => "[object Object]"
  }

  /** The LIKE parameter of one search filter: `%q%` for a truthy value, which matches the
    * columns that contain `q`, and `%`, which matches everything, otherwise. */
  function LikePattern(v: QueryValue): (p: string)
    ensures QueryTruthy(v) ==> |p| >= 2 && p[0] == '%' && p[|p| - 1] == '%' && p[1..|p| - 1] == QueryText(v)
    ensures !QueryTruthy(v) ==> p == "%"
  {
    if QueryTruthy(v) then "%" + QueryText(v) + "%" else "%"
  }

  /** The five LIKE parameters of the search. */
  datatype Filters = Filters(name: string, address: string, username: string, permissions: string, phoneNumber: string)

  function FindFilters(q: map<string, QueryValue>): (f: Filters)
  {
    Filters(
      LikePattern(QueryLookup(q, "name")),
      LikePattern(QueryLookup(q, "address")),
      LikePattern(QueryLookup(q, "username")),
      LikePattern(QueryLookup(q, "permission")),
      LikePattern(QueryLookup(q, "phoneNumber")))
  }

  /** A query that sets none of the five search keys constrains nothing. */
  lemma UnfilteredQueryMatchesAll(q: map<string, QueryValue>)
    requires forall k :: k in q ==> k !in {"name", "address", "username", "permission", "phoneNumber"}
    ensures FindFilters(q) == Filters("%", "%", "%", "%", "%")
  {
  }

  /** `Math.ceil(totalCount / limit)`: the fewest pages of `limit` rows that hold every
    * row. */
  function PageCount(total: nat, limit: nat): (c: nat)
    requires limit > 0
    ensures c * limit >= total
    ensures c > 0 ==> (c - 1) * limit < total
  {
    var c := (total + limit - 1) / limit;
    assert c * limit + (total + limit - 1) % limit == total + limit - 1;
    c
  }

  /** The page count is the only such number. */
  lemma PageCountUnique(total: nat, limit: nat, c: nat)
    requires limit > 0
    requires c * limit >= total && (c > 0 ==> (c - 1) * limit < total)
    ensures c == PageCount(total, limit)
  {
    var p := PageCount(total, limit);
    if c < p {
      MulMonotone(c, p - 1, limit);
    } else if c > p {
      MulMonotone(p, c - 1, limit);
    }
  }

  lemma MulMonotone(a: nat, b: nat, k: nat)
    requires a <= b
    ensures a * k <= b * k
  {
    assert b * k == a * k + (b - a) * k;
  }

  // ---------------------------------------------------------------- _signup

  /** `${MINIO_FILE_HOST}${req.file.filename}` when a file was uploaded. */
  function AvatarUrl(host: string, file: Option<string>): Option<string>
  {
    if file.Some? then Some(host + file.value) else None
  }

  /** The user row a handler's transaction inserts: the given username and password go
    * through the save hook, which also stores `newToken`, the 20-character token drawn for
    * this save; the profile is the new user's UserInfo row. */
  function NewUserRow(
    id: int, username: Option<string>, password: Option<string>, profile: ProfileRow,
    hash: string -> string, newToken: string
  ): UserRow
    requires |newToken| == Constants.TOKEN_LENGTH
  {
    UserRow(id, username, None, HashedPassword(password, hash), Some(newToken),
      None, Some(profile), [])
  }

  function NewProfile(id: int, name: Option<string>, address: Option<string>, phone: Option<string>, avatar: Option<string>): ProfileRow
  {
    ProfileRow(id, name, address, None, phone, avatar, None, None)
  }

  const UserExisted := BadRequest("user_existed", "Tài khoản đã tồn tại!", [])
  const SignupFailed := BadRequest("signup_error", "Lỗi trong quá trình đăng ký!", [])

  /** `_signup`. `newId` is the id the store assigns to the inserted user, `committed`
    * whether the transaction succeeds, `file` the uploaded avatar's object key. */
  function Signup(
    store: Store, body: RequestBody, file: Option<string>, host: string,
    hash: string -> string, newToken: string, newId: int, committed: bool
  ): (o: Outcome)
    requires |newToken| == Constants.TOKEN_LENGTH
    ensures Field(body, "password") != Field(body, "repeatPassword") ==>
      o == Outcome(Reply(400, StandardErrorBody(ConfirmationError)), NothingWritten)
    ensures Field(body, "password") == Field(body, "repeatPassword") && store.Unavailable? ==>
      o == Outcome(NoReply, NothingWritten)
    ensures (Field(body, "password") == Field(body, "repeatPassword") && store.Rows?
             && exists i :: 0 <= i < |store.rows| && HasUsername(store.rows[i], Field(body, "username"))) ==>
      o == Outcome(UserExisted, NothingWritten)
    ensures o.written.Wrote? <==> o.reply == Reply(200, Empty)
    ensures (Field(body, "password") == Field(body, "repeatPassword") && store.Rows?
             && forall i :: 0 <= i < |store.rows| ==> !HasUsername(store.rows[i], Field(body, "username"))) ==>
      && (committed ==> o.reply == Reply(200, Empty) && o.written.Wrote?)
      && (!committed ==> o == Outcome(SignupFailed, NothingWritten))
    ensures o.written.Wrote? ==>
      && committed
      && o.written.user.id == newId
      && Field(body, "password") == Field(body, "repeatPassword")
      && store.Rows? && (forall i :: 0 <= i < |store.rows| ==> !HasUsername(store.rows[i], Field(body, "username")))
      && o.written.user.username == Field(body, "username")
      && o.written.user.password == HashedPassword(Field(body, "password"), hash)
      && o.written.user.token == Some(newToken) && |o.written.user.token.value| == Constants.TOKEN_LENGTH
      && o.written.user.profile == Some(NewProfile(newId, Field(body, "username"), Field(body, "address"),
           Field(body, "phoneNumber"), AvatarUrl(host, file)))
    ensures (o.written.NothingWritten? && o.reply != NoReply && o.reply != UserExisted
             && Field(body, "password") == Field(body, "repeatPassword")) ==> o.reply == SignupFailed && !committed
  {
    if Field(body, "password") != Field(body, "repeatPassword") then
      Outcome(Reply(400, StandardErrorBody(ConfirmationError)), NothingWritten)
    else
      match FindByUsername(store, Field(body, "username"), false)
      case Err(_) => Outcome(NoReply, NothingWritten)
      case Ok(Some(_)) => Outcome(UserExisted, NothingWritten)
      case Ok(None) =>
        if !committed then Outcome(SignupFailed, NothingWritten)
        else
          var profile := NewProfile(newId, Field(body, "username"), Field(body, "address"),
            Field(body, "phoneNumber"), AvatarUrl(host, file));
          Outcome(Reply(200, Empty),
            Wrote(NewUserRow(newId, Field(body, "username"), Field(body, "password"), profile, hash, newToken)))
  }

  /** A non-empty password is stored as its hash, never as given. */
  lemma SignupStoresHash(
    store: Store, body: RequestBody, file: Option<string>, host: string,
    hash: string -> string, newToken: string, newId: int, committed: bool)
    requires |newToken| == Constants.TOKEN_LENGTH
    requires Signup(store, body, file, host, hash, newToken, newId, committed).written.Wrote?
    requires Truthy(Field(body, "password"))
    ensures Signup(store, body, file, host, hash, newToken, newId, committed).written.user.password
         == Some(hash(body["password"]))
  {
  }

  /** Once a signup has written its row, signing up again with the same username is
    * refused. A body without a username matches no row, so nothing refuses it. */
  lemma {:induction false} SecondSignupRefused(
    rows: seq<UserRow>, body: RequestBody, file: Option<string>, host: string,
    hash: string -> string, newToken: string, newId: int, committed: bool,
    body2: RequestBody, file2: Option<string>, newToken2: string, newId2: int, committed2: bool)
    requires |newToken| == Constants.TOKEN_LENGTH && |newToken2| == Constants.TOKEN_LENGTH
    requires Signup(Rows(rows), body, file, host, hash, newToken, newId, committed).written.Wrote?
    requires Field(body2, "username") == Field(body, "username")
    requires Field(body2, "password") == Field(body2, "repeatPassword")
    ensures
      var row := Signup(Rows(rows), body, file, host, hash, newToken, newId, committed).written.user;
      Field(body, "username").Some? ==>
        Signup(Rows(rows + [row]), body2, file2, host, hash, newToken2, newId2, committed2) == Outcome(UserExisted, NothingWritten)
  {
    var row := Signup(Rows(rows), body, file, host, hash, newToken, newId, committed).written.user;
    var after := rows + [row];
    assert after[|rows|] == row && row.username == Field(body2, "username");
  }

  // ---------------------------------------------------------------- _registerAsGuest

  const GuestNameMissing := BadRequest("create_guest_error", InvalidInput, [FieldError("name", ["Phải nhập tên hiển thị!"])])
  const GuestPhoneMissing := BadRequest("create_guest_error", InvalidInput, [FieldError("phoneNumber", ["Phải nhập số điện thoại!"])])
  const GuestFailed := BadRequest("create_guest_error", "Lỗi trong quá trình đăng ký!", [])

  /** `_registerAsGuest`: a user with neither username nor password, and a profile with the
    * given name, phone number, address and avatar. */
  function RegisterAsGuest(
    body: RequestBody, file: Option<string>, host: string,
    hash: string -> string, newToken: string, newId: int, committed: bool
  ): (o: Outcome)
    requires |newToken| == Constants.TOKEN_LENGTH
    ensures !Truthy(Field(body, "name")) ==> o == Outcome(GuestNameMissing, NothingWritten)
    ensures Truthy(Field(body, "name")) && !Truthy(Field(body, "phoneNumber")) ==> o == Outcome(GuestPhoneMissing, NothingWritten)
    ensures o.written.Wrote? <==> Truthy(Field(body, "name")) && Truthy(Field(body, "phoneNumber")) && committed
    ensures o.written.Wrote? ==>
      && o.reply == Reply(200, GuestView(o.written.user))
      && o.written.user.id == newId
      && o.written.user.username == None && o.written.user.password == None
      && o.written.user.token == Some(newToken) && |o.written.user.token.value| == Constants.TOKEN_LENGTH
      && o.written.user.profile == Some(NewProfile(newId, Field(body, "name"), Field(body, "address"),
           Field(body, "phoneNumber"), AvatarUrl(host, file)))
    ensures Truthy(Field(body, "name")) && Truthy(Field(body, "phoneNumber")) && !committed ==>
      o == Outcome(GuestFailed, NothingWritten)
  {
    if !Truthy(Field(body, "name")) then Outcome(GuestNameMissing, NothingWritten)
    else if !Truthy(Field(body, "phoneNumber")) then Outcome(GuestPhoneMissing, NothingWritten)
    else if !committed then Outcome(GuestFailed, NothingWritten)
    else
      var profile := NewProfile(newId, Field(body, "name"), Field(body, "address"),
        Field(body, "phoneNumber"), AvatarUrl(host, file));
      var row := NewUserRow(newId, None, None, profile, hash, newToken);
      Outcome(Reply(200, GuestView(row)), Wrote(row))
  }

  /** A guest registers with the token the save hook stored, and can then pass the guest
    * strategy with it once the row is stored. */
  lemma {:induction false} GuestCanAuthenticate(
    rows: seq<UserRow>, body: RequestBody, file: Option<string>, host: string,
    hash: string -> string, newToken: string, newId: int)
    requires |newToken| == Constants.TOKEN_LENGTH
    requires RegisterAsGuest(body, file, host, hash, newToken, newId, true).written.Wrote?
    requires forall i :: 0 <= i < |rows| ==> rows[i].id != newId
    ensures
      var row := RegisterAsGuest(body, file, host, hash, newToken, newId, true).written.user;
      GuestVerify(Rows(rows + [row]), Some(newId), newToken) == Authenticated(Loaded(row, {UserInfoRelation}))
  {
    var row := RegisterAsGuest(body, file, host, hash, newToken, newId, true).written.user;
    var after := rows + [row];
    var p := (u: UserRow) => u.id == newId && u.token == Some(newToken);
    assert forall i :: 0 <= i < |rows| ==> after[i] == rows[i];
    FirstWhereLast(rows, row, p);
  }

  /** The first match in a sequence extended by one row that alone matches is that row. */
  lemma {:induction false} FirstWhereLast(rows: seq<UserRow>, row: UserRow, p: UserRow -> bool)
    requires forall i :: 0 <= i < |rows| ==> !p(rows[i])
    requires p(row)
    ensures FirstWhere(rows + [row], p) == Some(row)
  {
    var after := rows + [row];
    assert after[|rows|] == row;
    var r := FirstWhere(after, p);
    assert forall i :: 0 <= i < |rows| ==> after[i] == rows[i];
  }

  // ---------------------------------------------------------------- _login

  /** The `expiresIn` option of the signed token: the environment's text when it is set and
    * not empty, otherwise the default number of seconds. */
  datatype Expiry = ExpiresIn(text: string) | ExpiresInSeconds(seconds: nat)

  function LoginExpiry(env: Option<string>): (e: Expiry)
    ensures Truthy(env) ==> e == ExpiresIn(env.value)
    ensures !Truthy(env) ==> e == ExpiresInSeconds(Constants.JWT_DEFAULT_EXPIRY)
  {
    if Truthy(env) then ExpiresIn(env.value) else ExpiresInSeconds(Constants.JWT_DEFAULT_EXPIRY)
  }

  /** Login is allowed for a user that is not disabled and that holds ADMIN or
    * SUPER_ADMIN among the permissions its entity computed after loading. */
  predicate MayLogIn(l: Loaded)
  {
    var permissions := PermissionsAfterLoad(LoadedPermissionRows(l));
    l.row.enable != Some(false) && (Constants.ADMIN in permissions || Constants.SUPER_ADMIN in permissions)
  }

  const LoginRejected := BadRequest("login_error", "Tài khoản đăng nhập hoặc mật khẩu không hợp lệ", [])
  const LoginForbidden := Reply(401, ErrorBody(ErrorMessage("login_error", "Tài khoản không có quyền đăng nhập", [])))

  /** `_login`, given the verdict of the password strategy, the signer and the configured
    * expiry. */
  function Login(v: Verdict, sign: (TokenPayload, Expiry) -> string, expiryEnv: Option<string>): (r: Reply)
    ensures v.Errored? || v.NoUser? ==> r == LoginRejected
    ensures v.Authenticated? && !MayLogIn(v.user) ==> r == LoginForbidden
    ensures r.Reply? && r.status == 200 <==> v.Authenticated? && MayLogIn(v.user)
    ensures r.Reply? && r.status == 200 ==>
      r.body == LoginView(sign(TokenPayload(v.user.row.id), LoginExpiry(expiryEnv)), v.user)
  {
    match v
    case Errored(_) => LoginRejected
    case NoUser => LoginRejected
    case Authenticated(user) =>
      if !MayLogIn(user) then LoginForbidden
      else Reply(200, LoginView(sign(TokenPayload(user.row.id), LoginExpiry(expiryEnv)), user))
  }

  /** The token depends on the user's id alone: two accounts with the same id get the same
    * token whatever else differs. */
  lemma TokenDependsOnIdOnly(
    u1: Loaded, u2: Loaded, sign: (TokenPayload, Expiry) -> string, expiryEnv: Option<string>)
    requires u1.row.id == u2.row.id
    requires MayLogIn(u1) && MayLogIn(u2)
    ensures Login(Authenticated(u1), sign, expiryEnv).body.token == Login(Authenticated(u2), sign, expiryEnv).body.token
  {
  }

  /** A disabled account is refused with 401 even when it holds ADMIN. */
  lemma DisabledAdminForbidden(l: Loaded, sign: (TokenPayload, Expiry) -> string, expiryEnv: Option<string>)
    requires l.row.enable == Some(false)
    requires UserPermissionsRelation in l.relations && exists i :: 0 <= i < |l.row.permissions| && l.row.permissions[i].id == Constants.ADMIN
    ensures Login(Authenticated(l), sign, expiryEnv) == LoginForbidden
  {
  }

  /** An account without any permission row is refused with 401 even when enabled. */
  lemma NoPermissionForbidden(l: Loaded, sign: (TokenPayload, Expiry) -> string, expiryEnv: Option<string>)
    requires l.row.permissions == []
    ensures Login(Authenticated(l), sign, expiryEnv) == LoginForbidden
  {
  }

  // ---------------------------------------------------------------- _updateMe

  /** A field the body carries whose value trims to nothing. */
  predicate BlankField(body: RequestBody, k: string)
  {
    k in body && Trim(body[k]) == ""
  }

  const NotAllowedToUpdate := BadRequest("update_user", InvalidInput, [FieldError("userId", ["Không có quyền cập nhật!"])])
  const BlankPhone := BadRequest("update_user", InvalidInput, [FieldError("phoneNumber", ["Thông tin số điện thoại không được để trống!"])])
  const BlankName := BadRequest("update_user", InvalidInput, [FieldError("name", ["Tên hiển thị không được để trống!"])])
  const UpdateFailed := BadRequest("update_user", "Lỗi trong quá trình cập nhật!", [])

  /** The reply of `_updateMe`: the checks in order (a user, then the phone number, then
    * the name); then the transaction, which fails when the user has no loaded profile. */
  function UpdateReply(hasUser: bool, hasProfile: bool, body: RequestBody, committed: bool): (r: Reply)
    ensures r.Reply? && r.status == 200 <==> hasUser && !BlankField(body, "phoneNumber") && !BlankField(body, "name") && hasProfile && committed
    ensures !hasUser ==> r == NotAllowedToUpdate
    ensures hasUser && BlankField(body, "phoneNumber") ==> r == BlankPhone
    ensures hasUser && !BlankField(body, "phoneNumber") && BlankField(body, "name") ==> r == BlankName
    ensures r.Reply? && r.status != 200 && hasUser && !BlankField(body, "phoneNumber") && !BlankField(body, "name") ==> r == UpdateFailed
  {
    if !hasUser then NotAllowedToUpdate
    else if BlankField(body, "phoneNumber") then BlankPhone
    else if BlankField(body, "name") then BlankName
    else if !hasProfile || !committed then UpdateFailed
    else Reply(200, CurrentUser)
  }

  /** The profile after the update: each of phoneNumber, name and address is replaced when
    * the body carries it, the avatar when a file was sent; nothing else changes. */
  function ProfileUpdate(p: ProfileRow, body: RequestBody, file: Option<string>, host: string): (q: ProfileRow)
    ensures q.phoneNumber == (if "phoneNumber" in body then Some(body["phoneNumber"]) else p.phoneNumber)
    ensures q.name == (if "name" in body then Some(body["name"]) else p.name)
    ensures q.address == (if "address" in body then Some(body["address"]) else p.address)
    ensures q.avatarUrl == (if file.Some? then AvatarUrl(host, file) else p.avatarUrl)
    ensures q.id == p.id && q.expertId == p.expertId && q.city == p.city && q.isDeleted == p.isDeleted
  {
    p.(phoneNumber := if "phoneNumber" in body then Some(body["phoneNumber"]) else p.phoneNumber,
       name := if "name" in body then Some(body["name"]) else p.name,
       address := if "address" in body then Some(body["address"]) else p.address,
       avatarUrl := if file.Some? then AvatarUrl(host, file) else p.avatarUrl)
  }

  /** Applying the same update twice is applying it once. */
  lemma ProfileUpdateIdempotent(p: ProfileRow, body: RequestBody, file: Option<string>, host: string)
    ensures ProfileUpdate(ProfileUpdate(p, body, file, host), body, file, host) == ProfileUpdate(p, body, file, host)
  {
  }

  /** An empty body without a file leaves the profile as it was. */
  lemma EmptyUpdateChangesNothing(p: ProfileRow, host: string)
    ensures ProfileUpdate(p, map[], None, host) == p
  {
  }

  /** The field assignments `_updateMe` makes on the loaded profile. */
  method AssignProfileFields(info: UserInfo, body: RequestBody, file: Option<string>, host: string)
    modifies info
    ensures info.Row() == ProfileUpdate(old(info.Row()), body, file, host)
  {
    if "phoneNumber" in body {
      info.phoneNumber := Some(body["phoneNumber"]);
    }
    if "name" in body {
      info.name := Some(body["name"]);
    }
    if "address" in body {
      info.address := Some(body["address"]);
    }
    if file.Some? {
      info.avatarUrl := AvatarUrl(host, file);
    }
  }

  /** `_updateMe` on `req.user`: once the checks pass, the fields are assigned on the
    * loaded profile in place, before the save, which is why they stay assigned when the
    * save fails. */
  method UpdateMe(user: User?, body: RequestBody, file: Option<string>, host: string, committed: bool) returns (r: Reply)
    modifies if user != null && user.userInfo != null then {user.userInfo} else {}
    ensures r == UpdateReply(user != null, user != null && user.userInfo != null, body, committed)
    ensures user != null && user.userInfo != null ==>
      if !BlankField(body, "phoneNumber") && !BlankField(body, "name") then
        user.userInfo.Row() == ProfileUpdate(old(user.userInfo.Row()), body, file, host)
      else
        user.userInfo.Row() == old(user.userInfo.Row())
  {
    if user == null {
      return NotAllowedToUpdate;
    }
    if BlankField(body, "phoneNumber") {
      return BlankPhone;
    }
    if BlankField(body, "name") {
      return BlankName;
    }
    var info := user.userInfo;
    if info == null {
      assert UpdateReply(true, false, body, committed) == UpdateFailed;
      return UpdateFailed;
    }
    AssignProfileFields(info, body, file, host);
    r := if committed then Reply(200, CurrentUser) else UpdateFailed;
  }

  /** Through the bearer strategy every update fails: the entity it resolves has no
    * profile loaded, so the transaction throws whatever the body holds. */
  lemma BearerUpdateFails(store: Store, payload: Option<TokenPayload>, body: RequestBody, committed: bool)
    requires JwtVerify(store, payload).Some? && JwtVerify(store, payload).value.Authenticated?
    ensures UpdateReply(true, LoadedProfile(JwtVerify(store, payload).value.user).Some?, body, committed).status == 400
  {
    BearerUserHasNoProfile(store, payload);
  }

  // ---------------------------------------------------------------- _changePasswordMe

  const BlankNewPassword := BadRequest("change_password", "Mật khẩu không hợp lệ!", [FieldError("password", ["Mật khẩu không được để trống!"])])
  const OldPasswordRejected := BadRequest("login_error", "Mật khẩu cũ không hợp lệ", [])
  const ChangeFailed := BadRequest("change_password", "Lỗi trong quá trình cập nhật!", [])

  /** The checks pass, in their order: a present new password is not blank, it equals its
    * confirmation, and the password strategy accepted the body's credentials. */
  predicate PasswordChangeAllowed(body: RequestBody, oldCheck: Verdict)
  {
    !BlankField(body, "newPassword")
    && Field(body, "newPassword") == Field(body, "repeatNewPassword")
    && oldCheck.Authenticated?
  }

  /** The reply of `_changePasswordMe`, given the verdict of the password strategy on the
    * body's `username`/`password`. */
  function ChangePasswordReply(body: RequestBody, oldCheck: Verdict, committed: bool): (r: Reply)
    ensures BlankField(body, "newPassword") ==> r == BlankNewPassword
    ensures !BlankField(body, "newPassword") && Field(body, "newPassword") != Field(body, "repeatNewPassword") ==>
      r == Reply(400, StandardErrorBody(ConfirmationError))
    ensures (!BlankField(body, "newPassword") && Field(body, "newPassword") == Field(body, "repeatNewPassword")
             && !oldCheck.Authenticated?) ==> r == OldPasswordRejected
    ensures r.Reply? && r.status == 200 <==> PasswordChangeAllowed(body, oldCheck) && committed
    ensures PasswordChangeAllowed(body, oldCheck) && !committed ==> r == ChangeFailed
  {
    if BlankField(body, "newPassword") then BlankNewPassword
    else if Field(body, "newPassword") != Field(body, "repeatNewPassword") then Reply(400, StandardErrorBody(ConfirmationError))
    else if !oldCheck.Authenticated? then OldPasswordRejected
    else if !committed then ChangeFailed
    else Reply(200, CurrentUser)
  }

  /** `_changePasswordMe` on the bearer user `req.user`: the new password is assigned to it
    * and the save hook hashes it and replaces the token by `newToken`, the 20-character
    * token drawn for this save. The user the old-password check resolved is not touched. */
  method ChangePasswordMe(
    user: User, body: RequestBody, oldCheck: Verdict,
    hash: string -> string, newToken: string, committed: bool
  ) returns (r: Reply)
    requires |newToken| == Constants.TOKEN_LENGTH
    modifies user`password, user`token
    ensures r == ChangePasswordReply(body, oldCheck, committed)
    ensures PasswordChangeAllowed(body, oldCheck) ==>
      && user.password == HashedPassword(Field(body, "newPassword"), hash)
      && user.token == Some(newToken) && |user.token.value| == Constants.TOKEN_LENGTH
    ensures !PasswordChangeAllowed(body, oldCheck) ==>
      user.password == old(user.password) && user.token == old(user.token)
  {
    if "newPassword" in body && Trim(body["newPassword"]) == "" {
      return BlankNewPassword;
    }
    if Field(body, "newPassword") != Field(body, "repeatNewPassword") {
      return Reply(400, StandardErrorBody(ConfirmationError));
    }
    if !oldCheck.Authenticated? {
      return OldPasswordRejected;
    }
    user.password := Field(body, "newPassword");
    user.SetDefaultValues(hash, newToken);
    r := if committed then Reply(200, CurrentUser) else ChangeFailed;
  }

  /** The old-password check and the account changed are independent: credentials of any
    * account that pass the password strategy, whatever its id, allow the change, so by
    * `ChangePasswordMe` the bearer's own password becomes the hashed new one. */
  lemma AnyAccountAuthorisesChange(body: RequestBody, other: Loaded)
    requires !BlankField(body, "newPassword") && Field(body, "newPassword") == Field(body, "repeatNewPassword")
    ensures PasswordChangeAllowed(body, Authenticated(other))
    ensures ChangePasswordReply(body, Authenticated(other), true) == Reply(200, CurrentUser)
  {
  }

  /** A blank new password is refused before its confirmation is compared, so it gets the
    * blank-password error even when the two differ. */
  lemma BlankCheckedBeforeConfirmation(body: RequestBody, oldCheck: Verdict, committed: bool)
    requires "newPassword" in body && Trim(body["newPassword"]) == ""
    requires Field(body, "repeatNewPassword") != Field(body, "newPassword")
    ensures ChangePasswordReply(body, oldCheck, committed) == BlankNewPassword
  {
  }
}

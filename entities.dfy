/** The user entity (src/models/db/User.ts) with its profile (src/models/db/UserInfo.ts)
  * and permissions (src/models/db/UserPermission.ts). Stored rows are values; a loaded
  * entity is an object whose lifecycle hooks assign its own fields. */
module Entities {
  import opened Base
  import Text
  import Constants

  /** A row of t_permission. */
  datatype Permission = Permission(id: int, name: string)

  /** A row of t_user_info; `id` is the id of the owning user. */
  datatype ProfileRow = ProfileRow(
    id: int,
    name: Option<string>,
    address: Option<string>,
    expertId: Option<string>,
    phoneNumber: Option<string>,
    avatarUrl: Option<string>,
    city: Option<string>,
    isDeleted: Option<bool>)

  /** A row of t_user, with the profile row and the permission rows it is joined to. */
  datatype UserRow = UserRow(
    id: int,
    username: Option<string>,
    enable: Option<bool>,
    password: Option<string>,
    token: Option<string>,
    createdBy: Option<int>,
    profile: Option<ProfileRow>,
    permissions: seq<Permission>)

  /** The relations a lookup may ask to load with the user. */
  datatype Relation = UserInfoRelation | UserPermissionsRelation

  /** What a `findOne` hands back: the row and the relations that were loaded with it. */
  datatype Loaded = Loaded(row: UserRow, relations: set<Relation>)

  /** The profile as the loaded entity sees it: absent unless the relation was loaded. */
  function LoadedProfile(l: Loaded): Option<ProfileRow>
  {
    if UserInfoRelation in l.relations then l.row.profile else None
  }

  /** The `userPermissions` property of the loaded entity: absent unless loaded. */
  function LoadedPermissionRows(l: Loaded): Option<seq<Permission>>
  {
    if UserPermissionsRelation in l.relations then Some(l.row.permissions) else None
  }

  /** The ids of the permission rows, in order. */
  function PermissionIds(ps: seq<Permission>): (ids: seq<int>)
    ensures |ids| == |ps|
    ensures forall i :: 0 <= i < |ps| ==> ids[i] == ps[i].id
  {
    if ps == [] then [] else [ps[0].id] + PermissionIds(ps[1..])
  }

  /** The `permissions` projection computed by the @AfterLoad hook. */
  function PermissionsAfterLoad(rel: Option<seq<Permission>>): seq<int>
  {
    match rel
    case None => []
    case Some(ps) => PermissionIds(ps)
  }

  /** The password the save hook leaves: a truthy password is replaced by its hash, an
    * empty or absent one is kept as it is. */
  function HashedPassword(password: Option<string>, hash: string -> string): (r: Option<string>)
    ensures Truthy(password) ==> r == Some(hash(password.value))
    ensures !Truthy(password) ==> r == password
  {
    if Truthy(password) then Some(hash(password.value)) else password
  }

  /** The hook runs on every insert and every update and does not know whether the password
    * was just set: saving twice hashes the stored hash again. */
  lemma RehashOnSecondSave(plaintext: string, hash: string -> string)
    requires plaintext != "" && hash(plaintext) != ""
    ensures HashedPassword(HashedPassword(Some(plaintext), hash), hash) == Some(hash(hash(plaintext)))
  {
  }

  /** A loaded t_user_info entity. */
  class UserInfo {
    var id: int
    var name: Option<string>
    var address: Option<string>
    var expertId: Option<string>
    var phoneNumber: Option<string>
    var avatarUrl: Option<string>
    var city: Option<string>
    var isDeleted: Option<bool>

    /** The current field values. */
    function Row(): ProfileRow
      reads this
    {
      ProfileRow(id, name, address, expertId, phoneNumber, avatarUrl, city, isDeleted)
    }

    constructor FromRow(r: ProfileRow)
      ensures Row() == r
    {
      id, name, address, expertId := r.id, r.name, r.address, r.expertId;
      phoneNumber, avatarUrl, city, isDeleted := r.phoneNumber, r.avatarUrl, r.city, r.isDeleted;
    }
  }

  /** A loaded t_user entity. */
  class User {
    var id: int
    var username: Option<string>
    var enable: Option<bool>
    var password: Option<string>
    var token: Option<string>
    var createdBy: Option<int>
    var userInfo: UserInfo?
    var permissions: seq<int>
    var userPermissions: Option<seq<Permission>>

    /** Hydration of a loaded row: the columns, the relations that were loaded, and then
      * the @AfterLoad hook. */
    constructor Hydrate(l: Loaded)
      ensures id == l.row.id && username == l.row.username && enable == l.row.enable
      ensures password == l.row.password && token == l.row.token && createdBy == l.row.createdBy
      ensures (userInfo == null) == LoadedProfile(l).None?
      ensures userInfo != null ==> fresh(userInfo) && userInfo.Row() == LoadedProfile(l).value
      ensures userPermissions == LoadedPermissionRows(l)
      ensures permissions == PermissionsAfterLoad(userPermissions)
    {
      id, username, enable := l.row.id, l.row.username, l.row.enable;
      password, token, createdBy := l.row.password, l.row.token, l.row.createdBy;
      var profile := LoadedProfile(l);
      if profile.Some? {
        userInfo := new UserInfo.FromRow(profile.value);
      } else {
        userInfo := null;
      }
      userPermissions := LoadedPermissionRows(l);
      permissions := [];
      new;
      AfterLoad();
    }

    /** @AfterLoad: `permissions` becomes the ids of the loaded permission rows, in order,
      * or the empty list when the relation was not loaded. */
    method AfterLoad()
      modifies this`permissions
      ensures userPermissions.None? ==> permissions == []
      ensures userPermissions.Some? ==> |permissions| == |userPermissions.value|
      ensures userPermissions.Some? ==>
        forall i :: 0 <= i < |permissions| ==> permissions[i] == userPermissions.value[i].id
      ensures permissions == PermissionsAfterLoad(userPermissions)
    {
      permissions := PermissionsAfterLoad(userPermissions);
    }

    /** `permissions.indexOf(p) >= 0`: the user holds `p`. */
    function HasPermission(p: int): (r: bool)
      reads this
      ensures r <==> p in permissions
    {
      Text.IndexOf(permissions, p) >= 0
    }

    /** @BeforeInsert and @BeforeUpdate: hash a truthy password, and always replace the
      * token by `newToken`, the 20-character string the generator draws for this save. */
    method SetDefaultValues(hash: string -> string, newToken: string)
      requires |newToken| == Constants.TOKEN_LENGTH
      modifies this`password, this`token
      ensures password == HashedPassword(old(password), hash)
      ensures token == Some(newToken) && |token.value| == Constants.TOKEN_LENGTH
    {
      if Truthy(password) {
        password := Some(hash(password.value));
      }
      token := Some(newToken);
    }
  }
}

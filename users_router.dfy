/**
 * The user-management endpoints of a company administrator: the listing
 * with default permissions filled in, creation with the username and
 * staff-code checks, the update of the fields sent, and deletion. Every
 * endpoint is refused with 403 unless the caller is an administrator, and
 * acts only on users of the caller's company.
 */
module UsersRouter {
  import opened Base
  import opened Calendar
  import opened Tables
  import MasterDatabase

  type User = MasterDatabase.User
  type Permissions = MasterDatabase.Permissions

  /** `DEFAULT_PERMISSIONS`: sixteen flags, of which only the four viewing rights are granted. */
  const DefaultPermissions: Permissions := map[
    "view_dashboard" := true,
    "view_all_stats" := false,
    "view_projects" := true,
    "create_projects" := false,
    "edit_projects" := false,
    "delete_projects" := false,
    "view_costs" := true,
    "create_costs" := false,
    "edit_costs" := false,
    "delete_costs" := false,
    "view_partners" := true,
    "manage_partners" := false,
    "manage_users" := false,
    "manage_settings" := false,
    "export_data" := false,
    "super_admin" := false]

  const GrantedByDefault: set<string> := {"view_dashboard", "view_projects", "view_costs", "view_partners"}

  lemma DefaultPermissionsGranted()
    ensures forall k :: k in DefaultPermissions ==> (DefaultPermissions[k] <==> k in GrantedByDefault)
    ensures GrantedByDefault <= DefaultPermissions.Keys
  {
  }

  // ---------------------------------------------------------------------------
  // `get_users`

  /** The permissions a listed user shows: the defaults in place of NULL or an empty object. */
  function ListedPermissions(p: Option<Permissions>): (r: Permissions)
    ensures p.None? || p.value == map[] ==> r == DefaultPermissions
    ensures p.Some? && p.value != map[] ==> r == p.value
    ensures r != map[]
  {
    assert "super_admin" in DefaultPermissions;
    if p.None? || p.value == map[] then DefaultPermissions else p.value
  }

  function ListedUser(x: Row<User>): Row<User>
  {
    x.(rec := x.rec.(permissions := Some(ListedPermissions(x.rec.permissions))))
  }

  /**
   * `GET /api/users`: the users of the caller's company in table order, each
   * shown with defaults for missing permissions. The defaults are set on the
   * loaded rows only: nothing is committed, so the table is unchanged.
   */
  method GetUsers(master: MasterDatabase.MasterDb, caller: Caller) returns (r: Result<seq<Row<User>>>)
    ensures !IsAdmin(caller) <==> r == Err(Forbidden)
    ensures r.Ok? ==>
      var users := MasterDatabase.UsersOf(master.users, caller.companyId);
      && |r.value| == |users|
      && forall i :: 0 <= i < |users| ==>
           && r.value[i].id == users[i].id
           && r.value[i].rec == users[i].rec.(permissions := r.value[i].rec.permissions)
           && r.value[i].rec.permissions == Some(ListedPermissions(users[i].rec.permissions))
    ensures r.Ok? ==> forall i :: 0 <= i < |r.value| ==>
      && r.value[i].rec.companyId == caller.companyId
      && r.value[i].rec.permissions.Some? && r.value[i].rec.permissions.value != map[]
  {
    if !IsAdmin(caller) {
      return Err(Forbidden);
    }
    var users := MasterDatabase.UsersOf(master.users, caller.companyId);
    var shown: seq<Row<User>> := [];
    var i := 0;
    while i < |users|
      invariant 0 <= i <= |users| && |shown| == i
      invariant forall j :: 0 <= j < i ==> shown[j] == ListedUser(users[j])
    {
      var u := users[i];
      if u.rec.permissions.None? || u.rec.permissions.value == map[] {
        u := u.(rec := u.rec.(permissions := Some(DefaultPermissions)));
      }
      shown := shown + [u];
      i := i + 1;
    }
    forall j | 0 <= j < |users| ensures users[j].rec.companyId == caller.companyId {
      assert users[j] in users;
    }
    r := Ok(shown);
  }

  // ---------------------------------------------------------------------------
  // Staff codes


  /** Some user of the company other than `except` has this staff code. */
  predicate StaffCodeTaken(t: seq<Row<User>>, companyId: int, code: string, except: Option<int>)
  {
    exists i :: 0 <= i < |t| && t[i].rec.companyId == companyId && t[i].rec.staffCode == Some(code)
                && (except.None? || t[i].id != except.value)
  }

  /**
   * No two users of a company share a non-empty staff code. The schema does
   * not declare it; the create and update checks keep it.
   */
  predicate StaffCodesUnique(t: seq<Row<User>>)
  {
    forall a, b :: a in t && b in t && a.id != b.id && a.rec.companyId == b.rec.companyId && Truthy(a.rec.staffCode)
      ==> a.rec.staffCode != b.rec.staffCode
  }

  // ---------------------------------------------------------------------------
  // `create_user`

  /** The body of `POST /api/users` (`UserCreate`). */
  datatype UserCreateBody = UserCreateBody(
    username: Input<string>,
    name: Input<string>,
    password: Input<string>,
    staffCode: Input<Option<string>>,
    permissions: Input<Option<Permissions>>)

  datatype UserCreate = UserCreate(
    username: string, name: string, password: string, staffCode: Option<string>, permissions: Permissions)

  /**
   * `username`, `name` and `password` are required strings; `staff_code` may be
   * null; `permissions` defaults to `DEFAULT_PERMISSIONS` but may not be null.
   */
  function ValidateUserCreate(b: UserCreateBody): (r: Result<UserCreate>)
    ensures r.Ok? <==> b.username.Given? && b.name.Given? && b.password.Given? && b.permissions != Given(None)
    ensures r.Err? ==> r.error == Unprocessable
    ensures r.Ok? ==> r.value.username == b.username.value && r.value.name == b.name.value
                      && r.value.password == b.password.value
    ensures r.Ok? ==> r.value.staffCode == OrDefault(b.staffCode, None)
    ensures r.Ok? && b.permissions.Omitted? ==> r.value.permissions == DefaultPermissions
    ensures r.Ok? && b.permissions.Given? ==> Some(r.value.permissions) == b.permissions.value
  {
    if b.username.Given? && b.name.Given? && b.password.Given? && b.permissions != Given(None)
    then Ok(UserCreate(b.username.value, b.name.value, b.password.value, OrDefault(b.staffCode, None),
                       OrDefault(b.permissions, Some(DefaultPermissions)).value))
    else Err(Unprocessable)
  }

  /** The row `create_user` adds: the caller's company, an active user with the hashed password. */
  function NewUser(c: UserCreate, companyId: int, hash: string -> string, now: Timestamp): (u: User)
    ensures u.companyId == companyId && u.username == c.username && u.name == c.name
    ensures u.passwordHash == hash(c.password) && u.staffCode == c.staffCode
    ensures u.permissions == Some(c.permissions) && u.isActive == Some(true)
    ensures u.role == Some("user") && u.lastLoginAt.None?
  {
    MasterDatabase.User(
      companyId := companyId,
      username := c.username,
      name := c.name,
      passwordHash := hash(c.password),
      staffCode := c.staffCode,
      permissions := Some(c.permissions),
      isActive := Some(true),
      createdAt := now)
  }

  /**
   * `POST /api/users`: 422 for an incomplete body, 403 for a non-admin, 400
   * when the company has the username already or the non-empty staff code
   * already; otherwise one user is added. `hash` is the password hash (bcrypt
   * with its salt).
   */
  method CreateUser(master: MasterDatabase.MasterDb, caller: Caller, body: UserCreateBody,
                    hash: string -> string, now: Timestamp) returns (r: Result<()>)
    requires master.Valid()
    modifies master
    ensures master.Valid()
    ensures r.Err? <==>
      || ValidateUserCreate(body).Err?
      || !IsAdmin(caller)
      || MasterDatabase.UsernameTaken(old(master.users), caller.companyId, ValidateUserCreate(body).value.username)
      || (Truthy(ValidateUserCreate(body).value.staffCode)
          && StaffCodeTaken(old(master.users), caller.companyId, ValidateUserCreate(body).value.staffCode.value, None))
    ensures r.Err? ==> master.users == old(master.users)
    ensures r.Err? && ValidateUserCreate(body).Err? ==> r.error == Unprocessable
    ensures r.Err? && ValidateUserCreate(body).Ok? ==> r.error == if IsAdmin(caller) then BadRequest else Forbidden
    ensures r.Ok? ==> master.users == Insert(old(master.users), NewUser(ValidateUserCreate(body).value, caller.companyId, hash, now))
    ensures StaffCodesUnique(old(master.users)) ==> StaffCodesUnique(master.users)
    ensures master.companies == old(master.companies) && master.superAdmins == old(master.superAdmins)
  {
    var v := ValidateUserCreate(body);
    if v.Err? {
      return Err(v.error);
    }
    if !IsAdmin(caller) {
      return Err(Forbidden);
    }
    var c := v.value;
    if MasterDatabase.UsernameTaken(master.users, caller.companyId, c.username) {
      return Err(BadRequest);
    }
    if Truthy(c.staffCode) && StaffCodeTaken(master.users, caller.companyId, c.staffCode.value, None) {
      return Err(BadRequest);
    }
    var u := NewUser(c, caller.companyId, hash, now);
    InsertKeepsStaffCodes(master.users, u);
    var res := MasterDatabase.InsertUser(master, u);
    assert res.Ok?;
    r := Ok(());
  }

  lemma InsertKeepsStaffCodes(t: seq<Row<User>>, u: User)
    requires Ascending(t)
    requires Truthy(u.staffCode) ==> !StaffCodeTaken(t, u.companyId, u.staffCode.value, None)
    ensures StaffCodesUnique(t) ==> StaffCodesUnique(Insert(t, u))
  {
    if StaffCodesUnique(t) {
      var r := Insert(t, u);
      forall a, b | a in r && b in r && a.id != b.id && a.rec.companyId == b.rec.companyId && Truthy(a.rec.staffCode)
        ensures a.rec.staffCode != b.rec.staffCode
      {
        MasterDatabase.InsertMember(t, u, a);
        MasterDatabase.InsertMember(t, u, b);
        if a in t && b !in t {
          var i :| 0 <= i < |t| && t[i] == a;
        } else if b in t && a !in t {
          var i :| 0 <= i < |t| && t[i] == b;
        }
      }
    }
  }

  // ---------------------------------------------------------------------------
  // `update_user`

  /** The body of `PUT /api/users/{id}` (`UserUpdate`): every field optional, null meaning "leave as is". */
  datatype UserUpdate = UserUpdate(
    name: Option<string>,
    staffCode: Option<string>,
    permissions: Option<Permissions>,
    isActive: Option<bool>,
    password: Option<string>)

  /** The user exists and belongs to the company (`filter(id == ..., company_id == ...)`). */
  predicate InCompany(t: seq<Row<User>>, id: int, companyId: int)
  {
    Get(t, id).Some? && Get(t, id).value.companyId == companyId
  }

  /**
   * `PUT /api/users/{id}`: 403 for a non-admin, 404 for a user outside the
   * caller's company, 400 when a non-empty staff code is used by another user
   * of the company; otherwise each non-null field is assigned (the password
   * as its hash) and nothing else changes. An empty staff code is stored
   * without a check.
   */
  method UpdateUser(master: MasterDatabase.MasterDb, caller: Caller, id: int, body: UserUpdate,
                    hash: string -> string) returns (r: Result<User>)
    requires master.Valid()
    modifies master
    ensures master.Valid()
    ensures r.Err? <==>
      || !IsAdmin(caller)
      || !InCompany(old(master.users), id, caller.companyId)
      || (Truthy(body.staffCode) && StaffCodeTaken(old(master.users), caller.companyId, body.staffCode.value, Some(id)))
    ensures r.Err? ==> master.users == old(master.users)
    ensures r.Err? ==>
      r.error == (if !IsAdmin(caller) then Forbidden
                  else if !InCompany(old(master.users), id, caller.companyId) then NotFound
                  else BadRequest)
    ensures r.Ok? ==>
      var was := Get(old(master.users), id).value;
      && r.value.name == (if body.name.Some? then body.name.value else was.name)
      && r.value.staffCode == (if body.staffCode.Some? then body.staffCode else was.staffCode)
      && r.value.permissions == (if body.permissions.Some? then body.permissions else was.permissions)
      && r.value.isActive == (if body.isActive.Some? then body.isActive else was.isActive)
      && r.value.passwordHash == (if body.password.Some? then hash(body.password.value) else was.passwordHash)
      && r.value.(name := was.name, staffCode := was.staffCode, permissions := was.permissions,
                  isActive := was.isActive, passwordHash := was.passwordHash) == was
    ensures r.Ok? ==> master.users == Replace(old(master.users), id, r.value)
    ensures r.Ok? ==> forall k :: Get(master.users, k) == if k == id then Some(r.value) else Get(old(master.users), k)
    ensures StaffCodesUnique(old(master.users)) ==> StaffCodesUnique(master.users)
    ensures master.companies == old(master.companies) && master.superAdmins == old(master.superAdmins)
  {
    if !IsAdmin(caller) {
      return Err(Forbidden);
    }
    var found := Get(master.users, id);
    if found.None? || found.value.companyId != caller.companyId {
      return Err(NotFound);
    }
    if Truthy(body.staffCode) && StaffCodeTaken(master.users, caller.companyId, body.staffCode.value, Some(id)) {
      return Err(BadRequest);
    }
    var u := AssignUserFields(found.value, body, hash);
    UpdateKeepsStaffCodes(master.users, id, found.value, u);
    forall x | x in master.users && x.id == id ensures x.rec.companyId == u.companyId && x.rec.username == u.username {
      GetUnique(master.users, id, x.rec);
    }
    MasterDatabase.UpdateUserRow(master, id, u);
    r := Ok(u);
  }

  /**
   * The assignments of `update_user`, one per non-null field. (The staff-code
   * check that sits between them in the handler comes first here: a refused
   * update commits none of them.)
   */
  method AssignUserFields(was: User, body: UserUpdate, hash: string -> string) returns (u: User)
    ensures u.name == (if body.name.Some? then body.name.value else was.name)
    ensures u.staffCode == (if body.staffCode.Some? then body.staffCode else was.staffCode)
    ensures u.permissions == (if body.permissions.Some? then body.permissions else was.permissions)
    ensures u.isActive == (if body.isActive.Some? then body.isActive else was.isActive)
    ensures u.passwordHash == (if body.password.Some? then hash(body.password.value) else was.passwordHash)
    ensures u.(name := was.name, staffCode := was.staffCode, permissions := was.permissions,
               isActive := was.isActive, passwordHash := was.passwordHash) == was
  {
    u := was;
    if body.name.Some? {
      u := u.(name := body.name.value);
    }
    if body.staffCode.Some? {
      u := u.(staffCode := body.staffCode);
    }
    if body.permissions.Some? {
      u := u.(permissions := body.permissions);
    }
    if body.isActive.Some? {
      u := u.(isActive := body.isActive);
    }
    if body.password.Some? {
      u := u.(passwordHash := hash(body.password.value));
    }
  }

  /** Replacing a user by one of the same company whose new staff code is free keeps staff codes unique. */
  lemma UpdateKeepsStaffCodes(t: seq<Row<User>>, id: int, was: User, u: User)
    requires Get(t, id) == Some(was)
    requires u.companyId == was.companyId
    requires u.staffCode != was.staffCode && Truthy(u.staffCode) ==> !StaffCodeTaken(t, u.companyId, u.staffCode.value, Some(id))
    ensures StaffCodesUnique(t) ==> StaffCodesUnique(Replace(t, id, u))
  {
    if StaffCodesUnique(t) {
      var r := Replace(t, id, u);
      forall a, b | a in r && b in r && a.id != b.id && a.rec.companyId == b.rec.companyId && Truthy(a.rec.staffCode)
        ensures a.rec.staffCode != b.rec.staffCode
      {
        MasterDatabase.ReplaceMember(t, id, u, a);
        MasterDatabase.ReplaceMember(t, id, u, b);
        if a.id == id {
          var i :| 0 <= i < |t| && t[i] == b;
          if u.staffCode == was.staffCode {
            assert Row(id, was) in t;
          }
        } else if b.id == id {
          var i :| 0 <= i < |t| && t[i] == a;
          if u.staffCode == was.staffCode {
            assert Row(id, was) in t;
          }
        }
      }
    }
  }

  // ---------------------------------------------------------------------------
  // `delete_user`

  /**
   * `DELETE /api/users/{id}`: 403 for a non-admin, 400 for the caller's own
   * id, 404 for a user outside the caller's company; otherwise that user is removed.
   */
  method DeleteUser(master: MasterDatabase.MasterDb, caller: Caller, id: int) returns (r: Result<()>)
    requires master.Valid()
    modifies master
    ensures master.Valid()
    ensures r.Err? <==> !IsAdmin(caller) || id == caller.id || !InCompany(old(master.users), id, caller.companyId)
    ensures r.Err? ==> master.users == old(master.users)
    ensures r.Err? ==>
      r.error == (if !IsAdmin(caller) then Forbidden else if id == caller.id then BadRequest else NotFound)
    ensures r.Ok? ==> master.users == Remove(old(master.users), id)
    ensures r.Ok? ==> forall k :: Get(master.users, k) == if k == id then None else Get(old(master.users), k)
    ensures StaffCodesUnique(old(master.users)) ==> StaffCodesUnique(master.users)
    ensures master.companies == old(master.companies) && master.superAdmins == old(master.superAdmins)
  {
    if !IsAdmin(caller) {
      return Err(Forbidden);
    }
    if id == caller.id {
      return Err(BadRequest);
    }
    var found := Get(master.users, id);
    if found.None? || found.value.companyId != caller.companyId {
      return Err(NotFound);
    }
    MasterDatabase.DeleteUserRow(master, id);
    r := Ok(());
  }
}

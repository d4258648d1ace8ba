/**
 * The permission editing of the user-management page: the default flags of
 * a new user, filled in from the page's permission catalogue, and the
 * toggle rule by which switching `super_admin` on switches every flag on.
 * The same rule serves the flags of an existing user, which are then sent
 * to the update endpoint, and those of the new-user form.
 */
module UserManagementPage {
  import opened Base
  import UsersRouter

  type Permissions = map<string, bool>

  /** `permissionCategories`: each category with its permission keys, in declaration order (the labels are left out). */
  const PermissionCategories: seq<(string, seq<string>)> := [
    ("dashboard", ["view_dashboard", "view_all_stats"]),
    ("projects", ["view_projects", "create_projects", "edit_projects", "delete_projects"]),
    ("costs", ["view_costs", "create_costs", "edit_costs", "delete_costs"]),
    ("partners", ["view_partners", "manage_partners"]),
    ("system", ["manage_users", "manage_settings", "export_data"]),
    ("admin", ["super_admin"])]

  /** The keys `getDefaultPermissions` grants. */
  const GrantedByDefault: seq<string> := ["view_dashboard", "view_projects", "view_costs", "view_partners"]

  const SuperAdmin: string := "super_admin"

  /** The permission keys of the categories, category by category. */
  function KeysOf(cats: seq<(string, seq<string>)>): seq<string>
  {
    if cats == [] then [] else KeysOf(cats[..|cats| - 1]) + cats[|cats| - 1].1
  }

  /**
   * `getDefaultPermissions`: one flag for every key of the catalogue, true
   * exactly for the four listed viewing rights.
   */
  method GetDefaultPermissions() returns (perms: Permissions)
    ensures perms.Keys == set k | k in KeysOf(PermissionCategories)
    ensures forall k :: k in perms ==> (perms[k] <==> k in GrantedByDefault)
  {
    perms := map[];
    var i := 0;
    while i < |PermissionCategories|
      invariant 0 <= i <= |PermissionCategories|
      invariant perms.Keys == set k | k in KeysOf(PermissionCategories[..i])
      invariant forall k :: k in perms ==> (perms[k] <==> k in GrantedByDefault)
    {
      var keys := PermissionCategories[i].1;
      KeysOfStep(PermissionCategories, i, keys);
      perms := AddKeys(perms, keys);
      i := i + 1;
    }
    assert PermissionCategories[..i] == PermissionCategories;
  }

  lemma KeysOfStep(c: seq<(string, seq<string>)>, i: nat, keys: seq<string>)
    requires i < |c| && keys == c[i].1
    ensures KeysOf(c[..i + 1]) == KeysOf(c[..i]) + keys
  {
    assert c[..i + 1][..i] == c[..i];
  }

  /** The inner `forEach`: each key of one category set to whether it is granted by default. */
  method AddKeys(perms: Permissions, keys: seq<string>) returns (r: Permissions)
    requires forall k :: k in perms ==> (perms[k] <==> k in GrantedByDefault)
    ensures r.Keys == perms.Keys + (set k | k in keys)
    ensures forall k :: k in r ==> (r[k] <==> k in GrantedByDefault)
  {
    r := perms;
    var j := 0;
    while j < |keys|
      invariant 0 <= j <= |keys|
      invariant r.Keys == perms.Keys + (set k | k in keys[..j])
      invariant forall k :: k in r ==> (r[k] <==> k in GrantedByDefault)
    {
      assert keys[..j + 1] == keys[..j] + [keys[j]];
      r := r[keys[j] := keys[j] in GrantedByDefault];
      j := j + 1;
    }
    assert keys[..j] == keys;
  }

  /** The keys of `permissionCategories`, category by category. */
  lemma AllKeys()
    ensures KeysOf(PermissionCategories) ==
              ["view_dashboard", "view_all_stats", "view_projects", "create_projects", "edit_projects",
               "delete_projects", "view_costs", "create_costs", "edit_costs", "delete_costs",
               "view_partners", "manage_partners", "manage_users", "manage_settings", "export_data",
               "super_admin"]
  {
    var c := PermissionCategories;
    forall n | 1 <= n <= |c| ensures KeysOf(c[..n]) == KeysOf(c[..n - 1]) + c[n - 1].1 {
      assert c[..n][..n - 1] == c[..n - 1];
    }
    assert c[..|c|] == c;
    assert KeysOf(c[..0]) == [];
    assert KeysOf(c) == c[0].1 + c[1].1 + c[2].1 + c[3].1 + c[4].1 + c[5].1;
  }

  /** The page lists exactly the keys the server's defaults have. */
  lemma SameKeys()
    ensures (set k | k in KeysOf(PermissionCategories)) == UsersRouter.DefaultPermissions.Keys
  {
    AllKeys();
  }

  /** The defaults the page fills in are the server's `DEFAULT_PERMISSIONS`, key for key. */
  lemma DefaultsMatchServer(perms: Permissions)
    requires perms.Keys == set k | k in KeysOf(PermissionCategories)
    requires forall k :: k in perms ==> (perms[k] <==> k in GrantedByDefault)
    ensures perms == UsersRouter.DefaultPermissions
  {
    SameKeys();
    UsersRouter.DefaultPermissionsGranted();
    assert forall k :: k in GrantedByDefault <==> k in UsersRouter.GrantedByDefault;
    forall k | k in perms ensures perms[k] == UsersRouter.DefaultPermissions[k] {
    }
  }

  /** `!!p[k]`: a missing key reads as `undefined`, which is falsy. */
  predicate Granted(p: Permissions, k: string)
  {
    k in p && p[k]
  }

  /**
   * The toggle rule of `togglePermission` and `toggleNewUserPermission`:
   * the key is negated (a missing key becomes true); when that switches
   * `super_admin` on, every key of the copy is then set true.
   */
  function Toggled(p: Permissions, key: string): (q: Permissions)
    ensures q.Keys == p.Keys + {key}
    ensures key != SuperAdmin ==>
              q[key] == !Granted(p, key) && forall k :: k in p && k != key ==> q[k] == p[k]
    ensures key == SuperAdmin && !Granted(p, key) ==> forall k :: k in q ==> q[k]
    ensures key == SuperAdmin && Granted(p, key) ==> q == p[key := false]
  {
    var np := p[key := !Granted(p, key)];
    if key == SuperAdmin && np[key] then map k | k in np.Keys :: true else np
  }

  /** Toggling any key but `super_admin` twice gives the flags back. */
  lemma ToggledTwice(p: Permissions, key: string)
    requires key != SuperAdmin && key in p
    ensures Toggled(Toggled(p, key), key) == p
  {
    var q := Toggled(Toggled(p, key), key);
    assert q.Keys == p.Keys;
    forall k | k in p ensures q[k] == p[k] {
    }
  }

  /** Switching `super_admin` on and then off leaves every other flag granted. */
  lemma SuperAdminOnThenOff(p: Permissions)
    requires !Granted(p, SuperAdmin)
    ensures var q := Toggled(Toggled(p, SuperAdmin), SuperAdmin);
            !q[SuperAdmin] && q.Keys == p.Keys + {SuperAdmin}
            && forall k :: k in q && k != SuperAdmin ==> q[k]
  {
  }

  /** The toggle as the handlers run it: the spread copy, then the `forEach` over its keys. */
  method ApplyToggle(p: Permissions, key: string) returns (q: Permissions)
    ensures q == Toggled(p, key)
  {
    q := p[key := !Granted(p, key)];
    if key == SuperAdmin && q[key] {
      ghost var keys := q.Keys;
      var todo := q.Keys;
      while todo != {}
        invariant todo <= keys && q.Keys == keys
        invariant forall k :: k in keys && k !in todo ==> q[k]
        decreases |todo|
      {
        var k :| k in todo;
        q := q[k := true];
        todo := todo - {k};
      }
      assert q == map k | k in keys :: true;
    }
  }

  /** The update `togglePermission` sends for a user: the toggled flags, from `{}` when the user has none. */
  datatype PermissionUpdate = PermissionUpdate(userId: int, permissions: Permissions)

  method TogglePermission(userId: int, key: string, current: Option<Permissions>) returns (u: PermissionUpdate)
    ensures u.userId == userId
    ensures current.Some? ==> u.permissions == Toggled(current.value, key)
    ensures current.None? ==> u.permissions == Toggled(map[], key)
  {
    var p := ApplyToggle(if current.Some? then current.value else map[], key);
    u := PermissionUpdate(userId, p);
  }

  /** The new-user form. */
  datatype NewUserForm = NewUserForm(username: string, name: string, password: string, staffCode: string,
                                     permissions: Permissions)

  /** `toggleNewUserPermission`: the same rule on the form's flags; the other fields stay. */
  method ToggleNewUserPermission(form: NewUserForm, key: string) returns (next: NewUserForm)
    ensures next == form.(permissions := Toggled(form.permissions, key))
  {
    var p := ApplyToggle(form.permissions, key);
    next := form.(permissions := p);
  }

  /** The form as it opens and after a user is added: empty fields and the default flags. */
  method InitialNewUserForm() returns (form: NewUserForm)
    ensures form.username == "" && form.name == "" && form.password == "" && form.staffCode == ""
    ensures form.permissions == UsersRouter.DefaultPermissions
  {
    var perms := GetDefaultPermissions();
    DefaultsMatchServer(perms);
    form := NewUserForm("", "", "", "", perms);
  }
}

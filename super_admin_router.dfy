/**
 * The super administrator's endpoints on the master database: its
 * authentication and login, the company list with user counts, a company's
 * users, switching a company on and off, changing its plan, deleting it with
 * its users, the system counts, creating a ready-to-use company with its
 * administrator, resetting a password, and the backup list newest first.
 *
 * The bearer token is not decoded here: `claim` is the `super_admin_id` it
 * carries, or `None` when it is missing or does not decode. File sizes, the
 * company database files and the backup files themselves are not modelled;
 * the backup list takes the directory listing as a parameter.
 */
module SuperAdminRouter {
  import opened Base
  import opened Calendar
  import opened Tables
  import opened Seqs
  import opened MasterDatabase
  import Text

  // ---------------------------------------------------------------------------
  // `get_current_super_admin` and `super_login`

  /** The super administrator a request acts as: 401 without a claim or for an unknown id. */
  function CurrentSuperAdmin(t: seq<Row<SuperAdmin>>, claim: Option<int>): (r: Result<Row<SuperAdmin>>)
    ensures r.Ok? <==> claim.Some? && HasId(t, claim.value)
    ensures r.Err? ==> r.error == Unauthorized
    ensures r.Ok? ==> r.value in t && r.value.id == claim.value
  {
    if claim.None? then Err(Unauthorized)
    else match Get(t, claim.value)
      case None => Err(Unauthorized)
      case Some(a) => Ok(Row(claim.value, a))
  }

  function AdminNamed(username: string): Row<SuperAdmin> -> bool
  {
    (x: Row<SuperAdmin>) => x.rec.username == username
  }

  /** `super_login`: the first super administrator of that name whose password checks, else 401. */
  function SuperLogin(t: seq<Row<SuperAdmin>>, username: string, password: string,
                      verify: (string, string) -> bool): (r: Result<Row<SuperAdmin>>)
    ensures r.Ok? ==> r.value in t && r.value.rec.username == username
                      && verify(password, r.value.rec.passwordHash)
    ensures r.Err? ==> r.error == Unauthorized
  {
    match FirstWhere(t, AdminNamed(username))
    case None => Err(Unauthorized)
    case Some(i) => if verify(password, t[i].rec.passwordHash) then Ok(t[i]) else Err(Unauthorized)
  }

  /** With unique names, a login succeeds exactly for the administrator of that name whose password checks. */
  lemma SuperLoginExactly(t: seq<Row<SuperAdmin>>, username: string, password: string,
                          verify: (string, string) -> bool, x: Row<SuperAdmin>)
    requires Ascending(t) && AdminNamesUnique(t)
    requires x in t && x.rec.username == username
    ensures SuperLogin(t, username, password, verify).Ok? <==> verify(password, x.rec.passwordHash)
    ensures SuperLogin(t, username, password, verify).Ok? ==> SuperLogin(t, username, password, verify).value == x
  {
    FirstWhereOnly(t, AdminNamed(username), x);
  }

  /** A login for a name no super administrator has is refused. */
  lemma SuperLoginUnknown(t: seq<Row<SuperAdmin>>, username: string, password: string,
                          verify: (string, string) -> bool)
    requires forall x :: x in t ==> x.rec.username != username
    ensures SuperLogin(t, username, password, verify) == Err(Unauthorized)
  {
    FirstWhereSpec(t, AdminNamed(username));
  }

  // ---------------------------------------------------------------------------
  // `get_all_companies` and `get_company_users`

  /** An entry of the company list; the storage figure read from the file system is not modelled. */
  datatype CompanySummary = CompanySummary(
    id: int, name: string, companyCode: string, planType: Option<string>,
    storageLimitMb: Option<int>, userCount: nat, maxUsers: Option<int>,
    isActive: Option<bool>, createdAt: Timestamp, lastLoginAt: Option<Timestamp>)

  /** `query(User).filter(company_id == id).count()`. */
  function UserCount(users: seq<Row<User>>, companyId: int): nat
  {
    |UsersOf(users, companyId)|
  }

  /** The entry of one company: its columns and its number of users. */
  function SummaryOf(c: Row<Company>, users: seq<Row<User>>): (s: CompanySummary)
    ensures s.id == c.id && s.name == c.rec.name && s.companyCode == c.rec.companyCode
    ensures s.userCount == UserCount(users, c.id)
  {
    CompanySummary(c.id, c.rec.name, c.rec.companyCode, c.rec.planType, c.rec.storageLimitMb,
                   UserCount(users, c.id), c.rec.maxUsers, c.rec.isActive, c.rec.createdAt, c.rec.lastLoginAt)
  }

  /** `get_all_companies`: one entry per company, in table order. */
  method GetAllCompanies(db: MasterDb) returns (r: seq<CompanySummary>)
    ensures |r| == |db.companies|
    ensures forall i :: 0 <= i < |r| ==> r[i] == SummaryOf(db.companies[i], db.users)
  {
    r := [];
    var i := 0;
    while i < |db.companies|
      invariant 0 <= i <= |db.companies| && |r| == i
      invariant forall k :: 0 <= k < i ==> r[k] == SummaryOf(db.companies[k], db.users)
    {
      r := r + [SummaryOf(db.companies[i], db.users)];
      i := i + 1;
    }
  }

  /** Adding a user raises the count of its own company by one and leaves every other count. */
  lemma UserCountStep(users: seq<Row<User>>, u: Row<User>, companyId: int)
    ensures UserCount(users + [u], companyId)
            == UserCount(users, companyId) + (if u.rec.companyId == companyId then 1 else 0)
  {
    assert (users + [u])[..|users + [u]| - 1] == users;
  }

  /** The counts of the companies in `cs` whose id is `key`, summed over `cs`. */
  function KeyCount(cs: seq<Row<Company>>, key: int): nat
  {
    |Filter(cs, (c: Row<Company>) => c.id == key)|
  }

  lemma {:induction false} SumOfCountsStep(cs: seq<Row<Company>>, users: seq<Row<User>>, u: Row<User>)
    ensures SumBy(cs, (c: Row<Company>) => UserCount(users + [u], c.id))
            == SumBy(cs, (c: Row<Company>) => UserCount(users, c.id)) + KeyCount(cs, u.rec.companyId)
  {
    if cs != [] {
      var init, last := cs[..|cs| - 1], cs[|cs| - 1];
      SumOfCountsStep(init, users, u);
      UserCountStep(users, u, last.id);
    }
  }

  /** A key of an ascending table names exactly one of its rows. */
  lemma {:induction false} KeyCountOne(cs: seq<Row<Company>>, key: int)
    requires Ascending(cs)
    ensures KeyCount(cs, key) == if HasId(cs, key) then 1 else 0
  {
    if cs != [] {
      var init, last := cs[..|cs| - 1], cs[|cs| - 1];
      KeyCountOne(init, key);
      assert HasId(cs, key) <==> HasId(init, key) || last.id == key by {
        if HasId(cs, key) && last.id != key {
          var i :| 0 <= i < |cs| && cs[i].id == key;
          assert init[i].id == key;
        }
        if HasId(init, key) {
          var i :| 0 <= i < |init| && init[i].id == key;
          assert cs[i].id == key;
        }
      }
      if HasId(init, key) {
        var i :| 0 <= i < |init| && init[i].id == key;
        assert cs[i] == init[i];
      }
    }
  }

  /**
   * When every user belongs to a listed company, the user counts of the
   * company list add up to the number of users.
   */
  lemma {:induction false} UserCountsCoverUsers(cs: seq<Row<Company>>, users: seq<Row<User>>)
    requires Ascending(cs)
    requires forall u :: u in users ==> HasId(cs, u.rec.companyId)
    ensures SumBy(cs, (c: Row<Company>) => UserCount(users, c.id)) == |users|
  {
    if users == [] {
      assert forall c: Row<Company> :: UserCount([], c.id) == 0;
      SumByZero(cs, (c: Row<Company>) => UserCount([], c.id));
    } else {
      var init, last := users[..|users| - 1], users[|users| - 1];
      assert users == init + [last];
      UserCountsCoverUsers(cs, init);
      SumOfCountsStep(cs, init, last);
      KeyCountOne(cs, last.rec.companyId);
    }
  }

  lemma {:induction false} SumByZero<T>(s: seq<T>, f: T -> int)
    requires forall x :: f(x) == 0
    ensures SumBy(s, f) == 0
  {
    if s != [] {
      SumByZero(s[..|s| - 1], f);
    }
  }

  /** A row of `get_company_users`. */
  datatype UserSummary = UserSummary(
    id: int, username: string, name: string, role: Option<string>,
    isActive: Option<bool>, createdAt: Timestamp, lastLoginAt: Option<Timestamp>)

  function UserSummaryOf(u: Row<User>): UserSummary
  {
    UserSummary(u.id, u.rec.username, u.rec.name, u.rec.role, u.rec.isActive, u.rec.createdAt, u.rec.lastLoginAt)
  }

  /** `get_company_users`: the company's users, in table order. */
  function CompanyUsers(t: seq<Row<User>>, companyId: int): (r: seq<UserSummary>)
    ensures |r| == |UsersOf(t, companyId)|
    ensures forall i :: 0 <= i < |r| ==> r[i] == UserSummaryOf(UsersOf(t, companyId)[i])
  {
    var us := UsersOf(t, companyId);
    seq(|us|, i requires 0 <= i < |us| => UserSummaryOf(us[i]))
  }

  /** The listed rows are users of that company, and every user of that company is listed. */
  lemma CompanyUsersExactly(t: seq<Row<User>>, companyId: int)
    ensures forall s :: s in CompanyUsers(t, companyId) ==>
              exists u :: u in t && u.rec.companyId == companyId && s == UserSummaryOf(u)
    ensures forall u :: u in t && u.rec.companyId == companyId ==> UserSummaryOf(u) in CompanyUsers(t, companyId)
  {
    var us := UsersOf(t, companyId);
    var keep := (x: Row<User>) => x.rec.companyId == companyId;
    FilterSpec(t, keep);
    assert us == Filter(t, keep);
    var r := CompanyUsers(t, companyId);
    forall s | s in r ensures exists u :: u in t && u.rec.companyId == companyId && s == UserSummaryOf(u) {
      var i :| 0 <= i < |r| && r[i] == s;
      assert us[i] in t && keep(us[i]);
    }
    forall u | u in t && u.rec.companyId == companyId ensures UserSummaryOf(u) in r {
      var j :| 0 <= j < |t| && t[j] == u;
      assert keep(t[j]);
      var i :| 0 <= i < |us| && us[i] == u;
      assert r[i] == UserSummaryOf(u);
    }
  }

  // ---------------------------------------------------------------------------
  // `toggle_company_active` and `update_company_plan`

  /** `company.is_active = not company.is_active`: a NULL flag counts as false. */
  function Toggled(c: Company): (t: Company)
    ensures Flag(t.isActive) <==> !Flag(c.isActive)
    ensures t.isActive.Some? && t.(isActive := c.isActive) == c
  {
    c.(isActive := Some(!Flag(c.isActive)))
  }

  /** Toggling a company whose flag is set (not NULL) twice gives it back. */
  lemma ToggledTwice(c: Company)
    requires c.isActive.Some?
    ensures Toggled(Toggled(c)) == c
  {
    assert Toggled(c).isActive == Some(!c.isActive.value);
  }

  /** `toggle_company_active`: 404 for an unknown id; otherwise the flag is negated and its new value returned. */
  method ToggleCompanyActive(db: MasterDb, id: int) returns (r: Result<bool>)
    requires db.Valid()
    modifies db
    ensures db.Valid() && db.users == old(db.users) && db.superAdmins == old(db.superAdmins)
    ensures r.Err? <==> !HasId(old(db.companies), id)
    ensures r.Err? ==> r.error == NotFound && db.companies == old(db.companies)
    ensures r.Ok? ==> db.companies == Replace(old(db.companies), id, Toggled(Get(old(db.companies), id).value))
                      && r.value == !Flag(Get(old(db.companies), id).value.isActive)
  {
    var c := Get(db.companies, id);
    if c.None? {
      return Err(NotFound);
    }
    forall x | x in db.companies && x.id == id ensures x.rec.companyCode == c.value.companyCode && x.rec.name == c.value.name {
      GetUnique(db.companies, id, x.rec);
    }
    UpdateCompanyRow(db, id, Toggled(c.value));
    r := Ok(Flag(Toggled(c.value).isActive));
  }

  /** Two toggles of a company with a non-NULL flag leave the company table as it was. */
  lemma ToggleTwiceRestores(t: seq<Row<Company>>, id: int)
    requires Ascending(t) && Get(t, id).Some? && Get(t, id).value.isActive.Some?
    ensures Get(Replace(t, id, Toggled(Get(t, id).value)), id) == Some(Toggled(Get(t, id).value))
    ensures Replace(Replace(t, id, Toggled(Get(t, id).value)), id, Toggled(Toggled(Get(t, id).value))) == t
  {
    var c := Get(t, id).value;
    GetReplace(t, id, Toggled(c), id);
    ReplaceReplace(t, id, Toggled(c), Toggled(Toggled(c)));
    ToggledTwice(c);
    ReplaceSame(t, id, c);
  }

  /** The company with a new plan type, user limit and storage limit, and nothing else changed. */
  function WithPlan(c: Company, planType: string, maxUsers: int, storageLimitMb: int): (w: Company)
    ensures w.planType == Some(planType) && w.maxUsers == Some(maxUsers) && w.storageLimitMb == Some(storageLimitMb)
    ensures w.(planType := c.planType, maxUsers := c.maxUsers, storageLimitMb := c.storageLimitMb) == c
  {
    c.(planType := Some(planType), maxUsers := Some(maxUsers), storageLimitMb := Some(storageLimitMb))
  }

  /** `update_company_plan`: 404 for an unknown id; otherwise exactly the three plan columns change. */
  method UpdateCompanyPlan(db: MasterDb, id: int, planType: string, maxUsers: int, storageLimitMb: int)
    returns (r: Result<()>)
    requires db.Valid()
    modifies db
    ensures db.Valid() && db.users == old(db.users) && db.superAdmins == old(db.superAdmins)
    ensures r.Err? <==> !HasId(old(db.companies), id)
    ensures r.Err? ==> r.error == NotFound && db.companies == old(db.companies)
    ensures r.Ok? ==> db.companies == Replace(old(db.companies), id,
                                              WithPlan(Get(old(db.companies), id).value, planType, maxUsers, storageLimitMb))
    ensures forall k :: k != id ==> Get(db.companies, k) == Get(old(db.companies), k)
  {
    var c := Get(db.companies, id);
    if c.None? {
      return Err(NotFound);
    }
    forall x | x in db.companies && x.id == id ensures x.rec.companyCode == c.value.companyCode && x.rec.name == c.value.name {
      GetUnique(db.companies, id, x.rec);
    }
    UpdateCompanyRow(db, id, WithPlan(c.value, planType, maxUsers, storageLimitMb));
    r := Ok(());
  }

  // ---------------------------------------------------------------------------
  // `delete_company`

  /** The ids of `rows`. */
  predicate IdAmong(rows: seq<Row<User>>, id: int)
  {
    exists j :: 0 <= j < |rows| && rows[j].id == id
  }

  lemma IdAmongStep(doomed: seq<Row<User>>, i: nat)
    requires i < |doomed|
    ensures forall k :: IdAmong(doomed[..i + 1], k) <==> IdAmong(doomed[..i], k) || k == doomed[i].id
  {
    forall k: int ensures IdAmong(doomed[..i + 1], k) <==> IdAmong(doomed[..i], k) || k == doomed[i].id {
      if IdAmong(doomed[..i + 1], k) && k != doomed[i].id {
        var j :| 0 <= j < i + 1 && doomed[..i + 1][j].id == k;
        assert doomed[..i][j].id == k;
      }
      if IdAmong(doomed[..i], k) {
        var j :| 0 <= j < i && doomed[..i][j].id == k;
        assert doomed[..i + 1][j].id == k;
      }
      if k == doomed[i].id {
        assert doomed[..i + 1][i].id == k;
      }
    }
  }

  lemma DeleteStep(t: seq<Row<User>>, before: seq<Row<User>>, after: seq<Row<User>>, doomed: seq<Row<User>>, i: nat)
    requires i < |doomed|
    requires forall x :: x in before <==> x in t && !IdAmong(doomed[..i], x.id)
    requires forall x :: x in after <==> x in before && x.id != doomed[i].id
    ensures forall x :: x in after <==> x in t && !IdAmong(doomed[..i + 1], x.id)
  {
    IdAmongStep(doomed, i);
  }

  /** The loop that deletes each of `doomed` in turn. */
  method DeleteUsers(db: MasterDb, doomed: seq<Row<User>>)
    requires db.Valid()
    modifies db
    ensures db.Valid() && db.companies == old(db.companies) && db.superAdmins == old(db.superAdmins)
    ensures forall x :: x in db.users <==> x in old(db.users) && !IdAmong(doomed, x.id)
  {
    var i := 0;
    while i < |doomed|
      invariant 0 <= i <= |doomed| && db.Valid()
      invariant db.companies == old(db.companies) && db.superAdmins == old(db.superAdmins)
      invariant forall x :: x in db.users <==> x in old(db.users) && !IdAmong(doomed[..i], x.id)
    {
      ghost var before := db.users;
      DeleteUserRow(db, doomed[i].id);
      RemoveMembers(before, doomed[i].id);
      DeleteStep(old(db.users), before, db.users, doomed, i);
      i := i + 1;
    }
    assert doomed[..|doomed|] == doomed;
  }

  /**
   * `delete_company`: 404 for an unknown id. Otherwise every user of the
   * company is deleted, then the company, in one commit; no other user or
   * company is touched. The company's name is returned for the message.
   */
  method DeleteCompany(db: MasterDb, id: int) returns (r: Result<string>)
    requires db.Valid()
    modifies db
    ensures db.Valid() && db.superAdmins == old(db.superAdmins)
    ensures r.Err? <==> !HasId(old(db.companies), id)
    ensures r.Err? ==> r.error == NotFound && db.companies == old(db.companies) && db.users == old(db.users)
    ensures r.Ok? ==> r.value == Get(old(db.companies), id).value.name
    ensures r.Ok? ==> forall x :: x in db.users <==> x in old(db.users) && x.rec.companyId != id
    ensures r.Ok? ==> forall x :: x in db.companies <==> x in old(db.companies) && x.id != id
  {
    var c := Get(db.companies, id);
    if c.None? {
      return Err(NotFound);
    }
    var doomed := UsersOf(db.users, id);
    var keep := (x: Row<User>) => x.rec.companyId == id;
    FilterSpec(db.users, keep);
    assert doomed == Filter(db.users, keep);
    forall x | x in db.users ensures IdAmong(doomed, x.id) <==> x.rec.companyId == id {
      if x.rec.companyId == id {
        var k :| 0 <= k < |db.users| && db.users[k] == x;
        assert keep(db.users[k]);
        var j :| 0 <= j < |doomed| && doomed[j] == x;
      }
      if IdAmong(doomed, x.id) {
        var j :| 0 <= j < |doomed| && doomed[j].id == x.id;
        assert doomed[j] in db.users && keep(doomed[j]);
        KeyedRow(db.users, x, doomed[j]);
      }
    }
    DeleteUsers(db, doomed);
    DeleteCompanyRow(db, id);
    r := Ok(c.value.name);
  }

  // ---------------------------------------------------------------------------
  // `get_system_stats`

  /** The company and user counts; the storage figures read from the file system are not modelled. */
  datatype SystemStats = SystemStats(total: nat, active: nat, paid: nat, free: nat, users: nat)

  /**
   * `get_system_stats`: `is_active == True`, `plan_type != "free"` and
   * `plan_type == "free"` as SQL compares them, so a NULL plan type is
   * counted as neither paid nor free.
   */
  function Stats(companies: seq<Row<Company>>, users: seq<Row<User>>): (s: SystemStats)
    ensures s.total == |companies| && s.users == |users|
    ensures s.active <= s.total && s.paid <= s.total && s.free <= s.total
  {
    SystemStats(|companies|,
                |Filter(companies, (c: Row<Company>) => Flag(c.rec.isActive))|,
                |Filter(companies, (c: Row<Company>) => c.rec.planType.Some? && c.rec.planType.value != "free")|,
                |Filter(companies, (c: Row<Company>) => c.rec.planType == Some("free"))|,
                |users|)
  }

  /**
   * Paid and free companies together are all companies except those whose
   * plan type is NULL; so they are all companies exactly when no plan type is NULL.
   */
  lemma PaidAndFree(companies: seq<Row<Company>>, users: seq<Row<User>>)
    ensures Stats(companies, users).paid + Stats(companies, users).free
            + |Filter(companies, (c: Row<Company>) => c.rec.planType.None?)| == |companies|
    ensures (Stats(companies, users).paid + Stats(companies, users).free == |companies|)
            <==> forall i :: 0 <= i < |companies| ==> companies[i].rec.planType.Some?
  {
    var isNull := (c: Row<Company>) => c.rec.planType.None?;
    FilterCountSplit(companies, (c: Row<Company>) => c.rec.planType.Some? && c.rec.planType.value != "free",
                     (c: Row<Company>) => c.rec.planType == Some("free"), isNull);
    FilterSpec(companies, isNull);
    if |Filter(companies, isNull)| > 0 {
      assert Filter(companies, isNull)[0] in companies;
    }
  }

  // ---------------------------------------------------------------------------
  // `create_custom_company`

  /** The body of `create_custom_company` (`CreateCompanyRequest`): only `name` is required. */
  datatype CreateCompanyBody = CreateCompanyBody(
    name: Input<string>,
    companyCode: Input<Option<string>>,
    email: Input<Option<string>>,
    adminUsername: Input<Option<string>>,
    adminPassword: Input<Option<string>>,
    planType: Input<string>)

  datatype CreateCompanyRequest = CreateCompanyRequest(
    name: string, companyCode: Option<string>, email: Option<string>,
    adminUsername: Option<string>, adminPassword: Option<string>, planType: string)

  function ValidateCreateCompany(b: CreateCompanyBody): (r: Result<CreateCompanyRequest>)
    ensures r.Ok? <==> b.name.Given?
    ensures r.Err? ==> r.error == Unprocessable
    ensures r.Ok? ==> r.value.name == b.name.value && r.value.planType == OrDefault(b.planType, "free")
    ensures r.Ok? ==> r.value.companyCode == OrDefault(b.companyCode, None) && r.value.email == OrDefault(b.email, None)
    ensures r.Ok? ==> r.value.adminUsername == OrDefault(b.adminUsername, None)
                      && r.value.adminPassword == OrDefault(b.adminPassword, None)
  {
    if b.name.Given? then
      Ok(CreateCompanyRequest(b.name.value, OrDefault(b.companyCode, None), OrDefault(b.email, None),
                              OrDefault(b.adminUsername, None), OrDefault(b.adminPassword, None),
                              OrDefault(b.planType, "free")))
    else Err(Unprocessable)
  }

  /** The limits of a plan. */
  datatype Plan = Plan(maxUsers: int, maxProjects: int, storageLimitMb: int, dataRetentionDays: nat)

  const FreePlan: Plan := Plan(3, 30, 50, 365)
  const PaidPlan: Plan := Plan(10, 100, 500, 730)
  const PremiumPlan: Plan := Plan(999, 999, 10000, 9999)

  /** `plan_settings.get(plan_type, plan_settings["free"])`. */
  function PlanFor(planType: string): (p: Plan)
    ensures planType !in {"free", "paid", "premium"} ==> p == FreePlan
  {
    if planType == "paid" then PaidPlan
    else if planType == "premium" then PremiumPlan
    else FreePlan
  }

  /** `x or d` on an optional string. */
  function OrElse(x: Option<string>, d: string): (r: string)
    ensures Truthy(x) ==> r == x.value
    ensures !Truthy(x) ==> r == d
  {
    if Truthy(x) then x.value else d
  }

  /**
   * The company `create_custom_company` adds: active and verified now, with
   * the plan's limits and expiry, and the plan type stored as requested even
   * when it names no plan. Computing the expiry fails (error 500) only beyond
   * the last representable date.
   */
  function CustomCompany(req: CreateCompanyRequest, code: string, now: Timestamp): (r: Result<Company>)
    requires ValidDate(now.date)
    ensures r.Err? ==> r.error == ServerError
    ensures r.Ok? ==> var c := r.value;
      && c.companyCode == code && c.name == req.name
      && c.email == OrElse(req.email, "admin@" + code + ".local")
      && c.planType == Some(req.planType)
      && c.maxUsers == Some(PlanFor(req.planType).maxUsers)
      && c.maxProjects == Some(PlanFor(req.planType).maxProjects)
      && c.storageLimitMb == Some(PlanFor(req.planType).storageLimitMb)
      && c.dataRetentionDays == Some(PlanFor(req.planType).dataRetentionDays)
      && Flag(c.isActive) && c.verifiedAt == Some(now)
      && c.expiresAt.Some? && TsLt(now, c.expiresAt.value)
  {
    var plan := PlanFor(req.planType);
    match TsAddDays(now, plan.dataRetentionDays)
    case Err(_) => Err(ServerError)
    case Ok(expires) =>
      Ok(Company(companyCode := code, name := req.name, email := OrElse(req.email, "admin@" + code + ".local"),
                 planType := Some(req.planType), maxUsers := Some(plan.maxUsers),
                 maxProjects := Some(plan.maxProjects), storageLimitMb := Some(plan.storageLimitMb),
                 dataRetentionDays := Some(plan.dataRetentionDays), isActive := Some(true),
                 verifiedAt := Some(now), createdAt := now, expiresAt := Some(expires)))
  }

  /** The administrator it adds: "admin" / "admin123" unless given, named after the company unless a username is given. */
  function CustomAdmin(req: CreateCompanyRequest, companyId: int, hash: string -> string, now: Timestamp): (u: User)
    ensures u.companyId == companyId && u.role == Some("admin") && Flag(u.isActive)
    ensures u.username == OrElse(req.adminUsername, "admin")
    ensures u.name == OrElse(req.adminUsername, req.name + " 管理者")
    ensures u.passwordHash == hash(OrElse(req.adminPassword, "admin123"))
  {
    User(companyId := companyId, username := OrElse(req.adminUsername, "admin"),
         name := OrElse(req.adminUsername, req.name + " 管理者"),
         passwordHash := hash(OrElse(req.adminPassword, "admin123")), role := Some("admin"),
         createdAt := now)
  }

  /**
   * Whether a company can be created under a free `code`: its expiry can be
   * computed, no company has its name, and the new company key does not
   * already have the administrator's username.
   */
  predicate CanCreate(companies: seq<Row<Company>>, users: seq<Row<User>>, req: CreateCompanyRequest,
                      code: string, now: Timestamp)
    requires Ascending(companies) && ValidDate(now.date)
  {
    CustomCompany(req, code, now).Ok? && !NameTaken(companies, req.name)
    && !UsernameTaken(users, NextId(companies), OrElse(req.adminUsername, "admin"))
  }

  /**
   * Whether the company under a free `code` is committed and then its
   * administrator refused: the expiry can be computed and the name is free,
   * but the new company key already has the administrator's username.
   */
  predicate AdminClashes(companies: seq<Row<Company>>, users: seq<Row<User>>, req: CreateCompanyRequest,
                         code: string, now: Timestamp)
    requires Ascending(companies) && ValidDate(now.date)
  {
    CustomCompany(req, code, now).Ok? && !NameTaken(companies, req.name)
    && UsernameTaken(users, NextId(companies), OrElse(req.adminUsername, "admin"))
  }

  /** What `create_custom_company` returns. */
  datatype Created = Created(companyId: int, companyCode: string, adminUsername: string, adminPassword: string)

  /**
   * The company code: the requested one, refused with 400 when a company has
   * it; or, when none (or an empty one) is requested, the first free draw.
   */
  method ChooseCode(db: MasterDb, requested: Option<string>, draws: seq<string>) returns (r: Result<string>)
    requires forall i :: 0 <= i < |draws| ==> IsCodeShape(draws[i])
    requires !Truthy(requested) ==> exists i :: 0 <= i < |draws| && !CodeTaken(db.companies, draws[i])
    ensures Truthy(requested) ==>
              (r.Err? <==> CodeTaken(db.companies, requested.value))
              && (r.Err? ==> r.error == BadRequest)
              && (r.Ok? ==> r.value == requested.value)
    ensures !Truthy(requested) ==> r.Ok? && FirstFreeDraw(db.companies, draws, r.value)
    ensures r.Ok? ==> !CodeTaken(db.companies, r.value)
  {
    if !Truthy(requested) {
      var code := GenerateCompanyCode(db, draws);
      assert code.Some?;
      return Ok(code.value);
    }
    if CodeTaken(db.companies, requested.value) {
      return Err(BadRequest);
    }
    r := Ok(requested.value);
  }

  /**
   * `create_custom_company`. Errors: 400 when the requested code is taken
   * and 500 when the expiry cannot be computed or the name is taken (nothing
   * added in all three cases); 500 when the new company key already has
   * the administrator's username (the company stays, no user is added).
   * Otherwise the company and its administrator are added. The company's
   * database is only created empty.
   */
  method CreateCustomCompany(db: MasterDb, req: CreateCompanyRequest, draws: seq<string>,
                             hash: string -> string, now: Timestamp)
    returns (r: Result<Created>)
    requires db.Valid() && ValidDate(now.date)
    requires forall i :: 0 <= i < |draws| ==> IsCodeShape(draws[i])
    requires !Truthy(req.companyCode) ==> exists i :: 0 <= i < |draws| && !CodeTaken(db.companies, draws[i])
    modifies db
    ensures db.Valid() && db.superAdmins == old(db.superAdmins)
    ensures r == Err(BadRequest) <==> Truthy(req.companyCode) && CodeTaken(old(db.companies), req.companyCode.value)
    ensures r == Err(BadRequest) ==> db.companies == old(db.companies)
    ensures Truthy(req.companyCode) && !CodeTaken(old(db.companies), req.companyCode.value) ==>
              (r.Ok? <==> CanCreate(old(db.companies), old(db.users), req, req.companyCode.value, now))
    ensures !Truthy(req.companyCode) ==>
              forall code :: FirstFreeDraw(old(db.companies), draws, code) ==>
                (r.Ok? <==> CanCreate(old(db.companies), old(db.users), req, code, now))
    ensures r.Err? ==> r.error in {BadRequest, ServerError} && db.users == old(db.users)
    ensures r.Err? && db.companies != old(db.companies) ==>
              r.error == ServerError
              && UsernameTaken(old(db.users), NextId(old(db.companies)), OrElse(req.adminUsername, "admin"))
    // the company is committed before its administrator, so a taken admin username leaves it in place
    ensures Truthy(req.companyCode) && !CodeTaken(old(db.companies), req.companyCode.value)
            && AdminClashes(old(db.companies), old(db.users), req, req.companyCode.value, now) ==>
              r == Err(ServerError) && db.users == old(db.users)
              && db.companies == Insert(old(db.companies), CustomCompany(req, req.companyCode.value, now).value)
    ensures !Truthy(req.companyCode) ==>
              forall code :: FirstFreeDraw(old(db.companies), draws, code)
                             && AdminClashes(old(db.companies), old(db.users), req, code, now) ==>
                r == Err(ServerError) && db.users == old(db.users)
                && db.companies == Insert(old(db.companies), CustomCompany(req, code, now).value)
    ensures r.Ok? ==>
              && (Truthy(req.companyCode) ==> r.value.companyCode == req.companyCode.value)
              && (!Truthy(req.companyCode) ==> FirstFreeDraw(old(db.companies), draws, r.value.companyCode))
              && CustomCompany(req, r.value.companyCode, now).Ok?
              && r.value.companyId == NextId(old(db.companies))
              && db.companies == Insert(old(db.companies), CustomCompany(req, r.value.companyCode, now).value)
              && db.users == Insert(old(db.users), CustomAdmin(req, r.value.companyId, hash, now))
              && r.value.adminUsername == OrElse(req.adminUsername, "admin")
              && r.value.adminPassword == OrElse(req.adminPassword, "admin123")
  {
    var code := ChooseCode(db, req.companyCode, draws);
    if code.Err? {
      return Err(BadRequest);
    }
    if !Truthy(req.companyCode) {
      forall other | FirstFreeDraw(db.companies, draws, other) ensures other == code.value {
        FirstFreeDrawUnique(db.companies, draws, other, code.value);
      }
    }
    var company := CustomCompany(req, code.value, now);
    if company.Err? {
      return Err(ServerError);
    }
    var added := InsertCompany(db, company.value);
    if added.Err? {
      return Err(ServerError);
    }
    var admin := CustomAdmin(req, added.value, hash, now);
    var user := InsertUser(db, admin);
    if user.Err? {
      return Err(ServerError);
    }
    r := Ok(Created(added.value, code.value, admin.username, OrElse(req.adminPassword, "admin123")));
  }

  // ---------------------------------------------------------------------------
  // `reset_user_password`

  datatype PasswordReset = PasswordReset(userId: int, username: string, newPassword: string)

  /** `reset_user_password`: 404 for an unknown user; otherwise only the password hash changes. */
  method ResetUserPassword(db: MasterDb, userId: int, newPassword: Input<string>, hash: string -> string)
    returns (r: Result<PasswordReset>)
    requires db.Valid()
    modifies db
    ensures db.Valid() && db.companies == old(db.companies) && db.superAdmins == old(db.superAdmins)
    ensures r.Err? <==> !HasId(old(db.users), userId)
    ensures r.Err? ==> r.error == NotFound && db.users == old(db.users)
    ensures r.Ok? ==>
              var u := Get(old(db.users), userId).value;
              var pw := OrDefault(newPassword, "password123");
              && db.users == Replace(old(db.users), userId, u.(passwordHash := hash(pw)))
              && r.value == PasswordReset(userId, u.username, pw)
  {
    var u := Get(db.users, userId);
    if u.None? {
      return Err(NotFound);
    }
    var pw := OrDefault(newPassword, "password123");
    forall x | x in db.users && x.id == userId ensures x.rec.companyId == u.value.companyId && x.rec.username == u.value.username {
      GetUnique(db.users, userId, x.rec);
    }
    UpdateUserRow(db, userId, u.value.(passwordHash := hash(pw)));
    r := Ok(PasswordReset(userId, u.value.username, pw));
  }

  // ---------------------------------------------------------------------------
  // `get_all_backups`

  /** A file in a backup folder, with its creation time as an ISO string. */
  datatype BackupFile = BackupFile(filename: string, createdAt: string)

  /** An entry of `./backups`, with the files in it. */
  datatype BackupFolder = BackupFolder(name: string, files: seq<BackupFile>)

  datatype BackupEntry = BackupEntry(companyId: int, companyName: string, filename: string, createdAt: string)

  predicate HasPrefix(s: string, p: string) { |p| <= |s| && s[..|p|] == p }

  predicate HasSuffix(s: string, p: string) { |p| <= |s| && s[|s| - |p|..] == p }

  const FolderPrefix: string := "company_"

  /** The company name shown for a folder: the company's, or a placeholder once it is deleted. */
  function BackupCompanyName(companies: seq<Row<Company>>, companyId: int): (name: string)
    ensures Get(companies, companyId).Some? ==> name == Get(companies, companyId).value.name
  {
    match Get(companies, companyId)
    case Some(c) => c.name
    case None => "削除済み会社 (ID: " + Text.IntToString(companyId) + ")"
  }

  /** The entries for the `.db` files of one folder of that company, in file order. */
  function FileEntries(files: seq<BackupFile>, companyId: int, name: string): seq<BackupEntry>
  {
    if files == [] then []
    else
      var init, last := files[..|files| - 1], files[|files| - 1];
      FileEntries(init, companyId, name)
      + (if HasSuffix(last.filename, ".db") then [BackupEntry(companyId, name, last.filename, last.createdAt)] else [])
  }

  /** Each entry is a `.db` file of the folder, labelled with the folder's company; every such file is listed. */
  lemma {:induction false} FileEntriesExactly(files: seq<BackupFile>, companyId: int, name: string)
    ensures forall e :: e in FileEntries(files, companyId, name) ==>
              e.companyId == companyId && e.companyName == name && HasSuffix(e.filename, ".db")
              && BackupFile(e.filename, e.createdAt) in files
    ensures forall f :: f in files && HasSuffix(f.filename, ".db") ==>
              BackupEntry(companyId, name, f.filename, f.createdAt) in FileEntries(files, companyId, name)
  {
    if files != [] {
      var init, last := files[..|files| - 1], files[|files| - 1];
      FileEntriesExactly(init, companyId, name);
      assert files == init + [last];
    }
  }

  /** The inner loop over one folder's files. */
  method FileBackups(files: seq<BackupFile>, companyId: int, name: string) returns (entries: seq<BackupEntry>)
    ensures entries == FileEntries(files, companyId, name)
  {
    entries := [];
    var i := 0;
    while i < |files|
      invariant 0 <= i <= |files|
      invariant entries == FileEntries(files[..i], companyId, name)
    {
      assert files[..i + 1][..i] == files[..i];
      var f := files[i];
      if HasSuffix(f.filename, ".db") {
        entries := entries + [BackupEntry(companyId, name, f.filename, f.createdAt)];
      }
      i := i + 1;
    }
    assert files[..i] == files;
  }

  /**
   * The entries one folder contributes: none unless it is named
   * `company_…`; error 500 when the part after `company_` is not a number.
   */
  function FolderEntries(companies: seq<Row<Company>>, folder: BackupFolder): (r: Result<seq<BackupEntry>>)
    ensures r.Err? ==> r.error == ServerError
    ensures !HasPrefix(folder.name, FolderPrefix) ==> r == Ok([])
  {
    if !HasPrefix(folder.name, FolderPrefix) then Ok([])
    else match Text.PyInt(Text.Before(folder.name[|FolderPrefix|..], '_'))
      case None => Err(ServerError)
      case Some(id) => Ok(FileEntries(folder.files, id, BackupCompanyName(companies, id)))
  }

  /** All folders' entries in listing order; the first folder with a malformed number fails the request. */
  function CollectBackups(companies: seq<Row<Company>>, folders: seq<BackupFolder>): (r: Result<seq<BackupEntry>>)
    ensures r.Err? ==> r.error == ServerError
  {
    if folders == [] then Ok([])
    else match CollectBackups(companies, folders[..|folders| - 1])
      case Err(e) => Err(e)
      case Ok(a) =>
        match FolderEntries(companies, folders[|folders| - 1])
        case Err(e) => Err(e)
        case Ok(b) => Ok(a + b)
  }

  /** `sort(key=created_at, reverse=True)`: a later (larger) ISO time may come first. */
  function NewerFirst(): (BackupEntry, BackupEntry) -> bool
  {
    (a: BackupEntry, b: BackupEntry) => Text.CodePointLe(b.createdAt, a.createdAt)
  }

  lemma NewerFirstTotal()
    ensures TotalPreorder(NewerFirst())
  {
    forall a: BackupEntry, b: BackupEntry, c: BackupEntry
      ensures (NewerFirst()(a, b) || NewerFirst()(b, a))
           && (NewerFirst()(a, b) && NewerFirst()(b, c) ==> NewerFirst()(a, c))
    {
      Text.StrLeTotalOrder(Text.Python, c.createdAt, b.createdAt, a.createdAt);
      Text.StrLeTotalOrder(Text.Python, a.createdAt, b.createdAt, c.createdAt);
    }
  }

  /** One folder of the listing. */
  method FolderBackups(companies: seq<Row<Company>>, folder: BackupFolder) returns (r: Result<seq<BackupEntry>>)
    ensures r == FolderEntries(companies, folder)
  {
    if !HasPrefix(folder.name, FolderPrefix) {
      return Ok([]);
    }
    var id := Text.PyInt(Text.Before(folder.name[|FolderPrefix|..], '_'));
    if id.None? {
      return Err(ServerError);
    }
    var entries := FileBackups(folder.files, id.value, BackupCompanyName(companies, id.value));
    r := Ok(entries);
  }

  /**
   * `get_all_backups` over the listing `folders`: the entries of every
   * folder, newest first, entries with the same time in listing order.
   */
  method GetAllBackups(db: MasterDb, folders: seq<BackupFolder>) returns (r: Result<seq<BackupEntry>>)
    ensures r.Err? <==> CollectBackups(db.companies, folders).Err?
    ensures r.Err? ==> r.error == ServerError
    ensures r.Ok? ==> r.value == SortBy(CollectBackups(db.companies, folders).value, NewerFirst())
    ensures r.Ok? ==> SortedBy(r.value, NewerFirst())
                      && multiset(r.value) == multiset(CollectBackups(db.companies, folders).value)
  {
    var all := [];
    var i := 0;
    while i < |folders|
      invariant 0 <= i <= |folders|
      invariant CollectBackups(db.companies, folders[..i]) == Ok(all)
    {
      assert folders[..i + 1][..i] == folders[..i];
      var more := FolderBackups(db.companies, folders[i]);
      if more.Err? {
        assert folders[..i + 1][i] == folders[i];
        CollectStopsAtError(db.companies, folders, i + 1);
        return Err(ServerError);
      }
      all := all + more.value;
      i := i + 1;
    }
    assert folders[..i] == folders;
    NewerFirstTotal();
    SortBySorted(all, NewerFirst());
    r := Ok(SortBy(all, NewerFirst()));
  }

  /** Once a prefix of the listing fails, the whole listing fails. */
  lemma {:induction false} CollectStopsAtError(companies: seq<Row<Company>>, folders: seq<BackupFolder>, n: nat)
    requires n <= |folders| && CollectBackups(companies, folders[..n]).Err?
    ensures CollectBackups(companies, folders).Err?
    decreases |folders| - n
  {
    if n < |folders| {
      assert folders[..n + 1][..n] == folders[..n];
      CollectStopsAtError(companies, folders, n + 1);
    } else {
      assert folders[..n] == folders;
    }
  }
}

/**
 * The authentication endpoints on the master database: adding a user to an
 * existing company, logging in with company code, username and password,
 * and the (normally disabled) self-registration of a company with its
 * e-mail verification, which activates the company and seeds its database.
 *
 * Request bodies arrive here already validated (`Schemas.ValidateRegister`,
 * `Schemas.ValidateLogin`, `Schemas.ValidateCompanyRegister` give the 422
 * that precedes the handler). Password hashing and checking are the
 * parameters `hash` and `verify`; the clock is `now`; the issued access
 * token is not modelled.
 */
module AuthRouter {
  import opened Base
  import opened Calendar
  import opened Tables
  import opened MasterDatabase
  import Schemas
  import CompanyModels
  import SettingsRouter
  import DashboardRouter
  import Text

  /** The `user` and `company` objects a successful register or login returns. */
  datatype Session = Session(user: Row<User>, company: Row<Company>)

  // ---------------------------------------------------------------------------
  // `register`

  /** Some user of any company has this username (the check ignores the company). */
  predicate AnyUserNamed(t: seq<Row<User>>, username: string)
  {
    exists i :: 0 <= i < |t| && t[i].rec.username == username
  }

  /** `not user_data.company_id`: missing or zero. */
  predicate NoCompanyId(companyId: Option<int>) { companyId.None? || companyId.value == 0 }

  /** The user `register` adds: the requested role, or "user" when it is null or empty. */
  function RegisteredUser(d: Schemas.UserCreate, hash: string -> string, now: Timestamp): (u: User)
    requires !NoCompanyId(d.companyId)
    ensures u.companyId == d.companyId.value && u.username == d.username && u.name == d.name
    ensures u.passwordHash == hash(d.password)
    ensures u.role == (if d.role.Some? && d.role.value != "" then d.role else Some("user"))
    ensures u.isActive == Some(true) && u.permissions == Some(map[]) && u.staffCode.None?
  {
    User(companyId := d.companyId.value, username := d.username, name := d.name,
         passwordHash := hash(d.password),
         role := if d.role.Some? && d.role.value != "" then d.role else Some("user"),
         createdAt := now)
  }

  /** A username no user has is free in every company. */
  lemma UnnamedIsFree(t: seq<Row<User>>, companyId: int, username: string)
    requires !AnyUserNamed(t, username)
    ensures !UsernameTaken(t, companyId, username)
  {
  }

  /**
   * `register`: 400 when any company already has the username, 400 when no
   * company id is given, 404 when the company does not exist; otherwise the
   * user is added. Because the username check spans all companies, the
   * insert cannot break the per-company constraint.
   */
  method Register(db: MasterDb, d: Schemas.UserCreate, hash: string -> string, now: Timestamp)
    returns (r: Result<Session>)
    requires db.Valid()
    modifies db
    ensures db.Valid()
    ensures db.companies == old(db.companies) && db.superAdmins == old(db.superAdmins)
    ensures AnyUserNamed(old(db.users), d.username) ==> r == Err(BadRequest)
    ensures !AnyUserNamed(old(db.users), d.username) && NoCompanyId(d.companyId) ==> r == Err(BadRequest)
    ensures !AnyUserNamed(old(db.users), d.username) && !NoCompanyId(d.companyId) ==>
              (Get(db.companies, d.companyId.value).None? <==> r == Err(NotFound))
    ensures r.Err? ==> db.users == old(db.users)
    ensures r.Ok? ==> !NoCompanyId(d.companyId) && Get(db.companies, d.companyId.value).Some?
    ensures r.Ok? ==>
              db.users == Insert(old(db.users), RegisteredUser(d, hash, now))
              && r.value == Session(Row(NextId(old(db.users)), RegisteredUser(d, hash, now)),
                                    Row(d.companyId.value, Get(db.companies, d.companyId.value).value))
  {
    if AnyUserNamed(db.users, d.username) {
      return Err(BadRequest);
    }
    if NoCompanyId(d.companyId) {
      return Err(BadRequest);
    }
    var company := Get(db.companies, d.companyId.value);
    if company.None? {
      return Err(NotFound);
    }
    var u := RegisteredUser(d, hash, now);
    UnnamedIsFree(db.users, u.companyId, u.username);
    var res := InsertUser(db, u);
    assert res.Ok?;
    r := Ok(Session(Row(res.value, u), Row(d.companyId.value, company.value)));
  }

  // ---------------------------------------------------------------------------
  // `login`

  /** `company_code == code and is_active == True`. */
  function ActiveWithCode(code: string): Row<Company> -> bool
  {
    (x: Row<Company>) => x.rec.companyCode == code && Flag(x.rec.isActive)
  }

  /** `username == name and company_id == companyId`. */
  function NamedIn(companyId: int, username: string): Row<User> -> bool
  {
    (x: Row<User>) => x.rec.companyId == companyId && x.rec.username == username
  }

  /** The company a login finds: the active company with that code, which is unique. */
  lemma LoginFindsCompany(t: seq<Row<Company>>, code: string, x: Row<Company>)
    requires Ascending(t) && CodesUnique(t)
    requires x in t && x.rec.companyCode == code && Flag(x.rec.isActive)
    ensures FirstWhere(t, ActiveWithCode(code)).Some? && t[FirstWhere(t, ActiveWithCode(code)).value] == x
  {
    FirstWhereOnly(t, ActiveWithCode(code), x);
  }

  /** The user a login finds: the user of that company with that name, which is unique. */
  lemma LoginFindsUser(t: seq<Row<User>>, companyId: int, username: string, x: Row<User>)
    requires Ascending(t) && UsernamesUniquePerCompany(t)
    requires x in t && x.rec.companyId == companyId && x.rec.username == username
    ensures FirstWhere(t, NamedIn(companyId, username)).Some?
    ensures t[FirstWhere(t, NamedIn(companyId, username)).value] == x
  {
    FirstWhereOnly(t, NamedIn(companyId, username), x);
  }

  /** Committing new columns `c2` of the company row `c`, keeping its code and name. */
  method SetCompanyRow(db: MasterDb, c: Row<Company>, c2: Company)
    requires db.Valid() && c in db.companies
    requires c2.companyCode == c.rec.companyCode && c2.name == c.rec.name
    modifies db
    ensures db.Valid()
    ensures db.companies == Replace(old(db.companies), c.id, c2)
    ensures db.users == old(db.users) && db.superAdmins == old(db.superAdmins)
  {
    forall x | x in db.companies && x.id == c.id ensures x.rec.companyCode == c2.companyCode && x.rec.name == c2.name {
      KeyedRow(db.companies, x, c);
    }
    UpdateCompanyRow(db, c.id, c2);
  }

  /** Committing new columns `u2` of the user row `u`, keeping its company and username. */
  method SetUserRow(db: MasterDb, u: Row<User>, u2: User)
    requires db.Valid() && u in db.users
    requires u2.companyId == u.rec.companyId && u2.username == u.rec.username
    modifies db
    ensures db.Valid()
    ensures db.users == Replace(old(db.users), u.id, u2)
    ensures db.companies == old(db.companies) && db.superAdmins == old(db.superAdmins)
  {
    forall x | x in db.users && x.id == u.id ensures x.rec.companyId == u2.companyId && x.rec.username == u2.username {
      KeyedRow(db.users, x, u);
    }
    UpdateUserRow(db, u.id, u2);
  }

  /**
   * `login`: 404 unless an active company has the code; 401 unless that
   * company has a user of that name whose password checks; otherwise both
   * rows get `last_login_at = now` and are returned.
   */
  method Login(db: MasterDb, cred: Schemas.UserLogin, verify: (string, string) -> bool, now: Timestamp)
    returns (r: Result<Session>)
    requires db.Valid()
    modifies db
    ensures db.Valid() && db.superAdmins == old(db.superAdmins)
    ensures FirstWhere(old(db.companies), ActiveWithCode(cred.companyCode)).None? ==> r == Err(NotFound)
    ensures r.Err? ==> r.error in {NotFound, Unauthorized}
                       && db.companies == old(db.companies) && db.users == old(db.users)
    ensures FirstWhere(old(db.companies), ActiveWithCode(cred.companyCode)).Some? ==>
              var c := old(db.companies)[FirstWhere(old(db.companies), ActiveWithCode(cred.companyCode)).value];
              var ui := FirstWhere(old(db.users), NamedIn(c.id, cred.username));
              (r.Ok? <==> ui.Some? && verify(cred.password, old(db.users)[ui.value].rec.passwordHash))
              && (r.Err? ==> r.error == Unauthorized)
              && (r.Ok? ==>
                    var u := old(db.users)[ui.value];
                    && r.value == Session(Row(u.id, u.rec.(lastLoginAt := Some(now))),
                                          Row(c.id, c.rec.(lastLoginAt := Some(now))))
                    && db.companies == Replace(old(db.companies), c.id, c.rec.(lastLoginAt := Some(now)))
                    && db.users == Replace(old(db.users), u.id, u.rec.(lastLoginAt := Some(now))))
  {
    var ci := FirstWhere(db.companies, ActiveWithCode(cred.companyCode));
    if ci.None? {
      return Err(NotFound);
    }
    var c := db.companies[ci.value];
    var ui := FirstWhere(db.users, NamedIn(c.id, cred.username));
    if ui.None? || !verify(cred.password, db.users[ui.value].rec.passwordHash) {
      return Err(Unauthorized);
    }
    var u := db.users[ui.value];
    SetCompanyRow(db, c, c.rec.(lastLoginAt := Some(now)));
    SetUserRow(db, u, u.rec.(lastLoginAt := Some(now)));
    r := Ok(Session(Row(u.id, u.rec.(lastLoginAt := Some(now))), Row(c.id, c.rec.(lastLoginAt := Some(now)))));
  }

  // ---------------------------------------------------------------------------
  // `company_register` and `verify_email`

  /** The company a self-registration creates: the free plan's limits, inactive, awaiting `token`. */
  function PendingCompany(d: Schemas.CompanyRegister, code: string, token: string, now: Timestamp): (c: Company)
    ensures c.companyCode == code && c.name == d.companyName && c.email == d.email
    ensures c.planType == Some("free") && c.maxUsers == Some(3) && c.maxProjects == Some(30)
    ensures c.storageLimitMb == Some(50) && c.dataRetentionDays == Some(365)
    ensures !Flag(c.isActive) && c.verificationToken == Some(token) && c.verifiedAt.None?
  {
    Company(companyCode := code, name := d.companyName, email := d.email, planType := Some("free"),
            maxUsers := Some(3), maxProjects := Some(30), storageLimitMb := Some(50),
            dataRetentionDays := Some(365), isActive := Some(false),
            verificationToken := Some(token), createdAt := now)
  }

  /** Its administrator: role "admin", inactive until the e-mail is verified. */
  function PendingAdmin(d: Schemas.CompanyRegister, companyId: int, hash: string -> string, now: Timestamp): (u: User)
    ensures u.companyId == companyId && u.username == d.adminUsername
    ensures u.name == d.companyName + " 管理者" && u.passwordHash == hash(d.adminPassword)
    ensures u.role == Some("admin") && !Flag(u.isActive)
  {
    User(companyId := companyId, username := d.adminUsername, name := d.companyName + " 管理者",
         passwordHash := hash(d.adminPassword), role := Some("admin"), isActive := Some(false),
         createdAt := now)
  }

  /**
   * `company_register`: 403 while e-mail verification is disabled. Otherwise
   * the company is committed under a fresh code (error 500, nothing added,
   * when its name is taken), then its administrator (error 500 when that
   * company key already has the username, leaving the company in place).
   * The code is returned; the e-mail is only printed.
   *
   * `draws` stands for the random generator, which the source calls until a
   * code is free; the caller provides a sequence that contains a free code.
   */
  method CompanyRegister(db: MasterDb, enabled: bool, d: Schemas.CompanyRegister, draws: seq<string>,
                         token: string, hash: string -> string, now: Timestamp)
    returns (r: Result<string>)
    requires db.Valid()
    requires forall i :: 0 <= i < |draws| ==> IsCodeShape(draws[i])
    requires exists i :: 0 <= i < |draws| && !CodeTaken(db.companies, draws[i])
    modifies db
    ensures db.Valid() && db.superAdmins == old(db.superAdmins)
    ensures !enabled ==> r == Err(Forbidden)
    ensures (!enabled || NameTaken(old(db.companies), d.companyName)) ==>
              r.Err? && db.companies == old(db.companies) && db.users == old(db.users)
    ensures enabled && NameTaken(old(db.companies), d.companyName) ==> r == Err(ServerError)
    ensures enabled && !NameTaken(old(db.companies), d.companyName) ==>
              var id := NextId(old(db.companies));
              && |db.companies| == |old(db.companies)| + 1
              && db.companies[..|old(db.companies)|] == old(db.companies)
              && db.companies[|old(db.companies)|].id == id
              && FirstFreeDraw(old(db.companies), draws, db.companies[|old(db.companies)|].rec.companyCode)
              && db.companies[|old(db.companies)|].rec
                 == PendingCompany(d, db.companies[|old(db.companies)|].rec.companyCode, token, now)
              && (UsernameTaken(old(db.users), id, d.adminUsername) <==> r.Err?)
              && (r.Err? ==> r.error == ServerError && db.users == old(db.users))
              && (r.Ok? ==> r.value == db.companies[|old(db.companies)|].rec.companyCode
                            && db.users == Insert(old(db.users), PendingAdmin(d, id, hash, now)))
  {
    if !enabled {
      return Err(Forbidden);
    }
    var code := GenerateCompanyCode(db, draws);
    assert code.Some?;
    var c := PendingCompany(d, code.value, token, now);
    var added := InsertCompany(db, c);
    if added.Err? {
      return Err(ServerError);
    }
    var admin := InsertUser(db, PendingAdmin(d, added.value, hash, now));
    if admin.Err? {
      return Err(ServerError);
    }
    r := Ok(code.value);
  }

  /** `verification_token == token`; a NULL token matches nothing. */
  function HasToken(token: string): Row<Company> -> bool
  {
    (x: Row<Company>) => x.rec.verificationToken == Some(token)
  }

  /** `company_id == companyId and role == "admin"`. */
  function AdminOf(companyId: int): Row<User> -> bool
  {
    (x: Row<User>) => x.rec.companyId == companyId && x.rec.role == Some("admin")
  }

  /** The company after verification: active, verified now, its token cleared. */
  function Verified(c: Company, now: Timestamp): (v: Company)
    ensures Flag(v.isActive) && v.verifiedAt == Some(now) && v.verificationToken.None?
    ensures v.companyCode == c.companyCode && v.name == c.name && v.planType == c.planType
  {
    c.(isActive := Some(true), verifiedAt := Some(now), verificationToken := None)
  }

  /** The four default cost categories, in display order. */
  const DefaultCategories: seq<CompanyModels.CostCategory> := [
    CompanyModels.CostCategory(name := "材料費", color := Some("#3B82F6"), displayOrder := Some(1), isDefault := Some(true)),
    CompanyModels.CostCategory(name := "外注費", color := Some("#EF4444"), displayOrder := Some(2), isDefault := Some(true)),
    CompanyModels.CostCategory(name := "経費", color := Some("#10B981"), displayOrder := Some(3), isDefault := Some(true)),
    CompanyModels.CostCategory(name := "その他", color := Some("#6B7280"), displayOrder := Some(4), isDefault := Some(true))
  ]

  /** The three default key/value settings. */
  const DefaultSettings: seq<CompanyModels.SystemSettings> := [
    CompanyModels.SystemSettings(key := DashboardRouter.FiscalMonthKey, value := Some("8")),
    CompanyModels.SystemSettings(key := DashboardRouter.CurrentPeriodKey, value := Some("1")),
    CompanyModels.SystemSettings(key := DashboardRouter.UnbilledKey, value := Some("completed"))
  ]

  /** `is_active = True` on the company's first administrator, when it has one. */
  method ActivateFirstAdmin(db: MasterDb, companyId: int)
    requires db.Valid()
    modifies db
    ensures db.Valid()
    ensures db.companies == old(db.companies) && db.superAdmins == old(db.superAdmins)
    ensures FirstWhere(old(db.users), AdminOf(companyId)).None? ==> db.users == old(db.users)
    ensures FirstWhere(old(db.users), AdminOf(companyId)).Some? ==>
              var u := old(db.users)[FirstWhere(old(db.users), AdminOf(companyId)).value];
              db.users == Replace(old(db.users), u.id, u.rec.(isActive := Some(true)))
  {
    var ai := FirstWhere(db.users, AdminOf(companyId));
    if ai.Some? {
      var u := db.users[ai.value];
      SetUserRow(db, u, u.rec.(isActive := Some(true)));
    }
  }

  /**
   * The master-database half of `verify_email`: 404 while verification is
   * disabled or when no company has the token; otherwise the company is
   * activated and so is its first administrator, if it has one.
   */
  method ActivateByToken(db: MasterDb, enabled: bool, token: string, now: Timestamp)
    returns (r: Result<Row<Company>>)
    requires db.Valid()
    modifies db
    ensures db.Valid() && db.superAdmins == old(db.superAdmins)
    ensures (!enabled || FirstWhere(old(db.companies), HasToken(token)).None?) <==> r.Err?
    ensures r.Err? ==> r.error == NotFound && db.companies == old(db.companies) && db.users == old(db.users)
    ensures r.Ok? ==>
              var c := old(db.companies)[FirstWhere(old(db.companies), HasToken(token)).value];
              var ai := FirstWhere(old(db.users), AdminOf(c.id));
              && r.value == c
              && db.companies == Replace(old(db.companies), c.id, Verified(c.rec, now))
              && (ai.None? ==> db.users == old(db.users))
              && (ai.Some? ==> db.users == Replace(old(db.users), old(db.users)[ai.value].id,
                                                   old(db.users)[ai.value].rec.(isActive := Some(true))))
  {
    if !enabled {
      return Err(NotFound);
    }
    var ci := FirstWhere(db.companies, HasToken(token));
    if ci.None? {
      return Err(NotFound);
    }
    var c := db.companies[ci.value];
    SetCompanyRow(db, c, Verified(c.rec, now));
    ActivateFirstAdmin(db, c.id);
    r := Ok(c);
  }

  /** The two `for` loops that add the default categories and settings, then `commit`. */
  method SeedCompanyDb(cdb: CompanyModels.CompanyDb, db: MasterDb)
    requires Ascending(cdb.categories) && Ascending(cdb.settings)
    modifies cdb
    ensures db.Valid() == old(db.Valid()) && unchanged(db)
    ensures cdb.categories == InsertAll(old(cdb.categories), DefaultCategories)
    ensures cdb.settings == InsertAll(old(cdb.settings), DefaultSettings)
    ensures cdb.projects == old(cdb.projects) && cdb.costs == old(cdb.costs)
    ensures cdb.vendors == old(cdb.vendors) && cdb.customers == old(cdb.customers)
  {
    var categories := InsertEach(cdb.categories, DefaultCategories);
    var settings := InsertEach(cdb.settings, DefaultSettings);
    cdb.categories, cdb.settings := categories, settings;
  }

  /**
   * `verify_email`: the activation above; then the company's database `cdb`
   * receives the default categories and settings, and the company code is
   * returned.
   */
  method VerifyEmail(db: MasterDb, cdb: CompanyModels.CompanyDb, enabled: bool, token: string, now: Timestamp)
    returns (r: Result<string>)
    requires db.Valid() && Ascending(cdb.categories) && Ascending(cdb.settings)
    modifies db, cdb
    ensures db.Valid()
    ensures r.Err? ==> r.error == NotFound && db.companies == old(db.companies) && db.users == old(db.users)
                       && unchanged(cdb)
    ensures r.Err? <==> !enabled || FirstWhere(old(db.companies), HasToken(token)).None?
    ensures r.Ok? ==>
              r.value == old(db.companies)[FirstWhere(old(db.companies), HasToken(token)).value].rec.companyCode
              && cdb.categories == InsertAll(old(cdb.categories), DefaultCategories)
              && cdb.settings == InsertAll(old(cdb.settings), DefaultSettings)
              && cdb.projects == old(cdb.projects) && cdb.costs == old(cdb.costs)
              && cdb.vendors == old(cdb.vendors) && cdb.customers == old(cdb.customers)
  {
    var activated := ActivateByToken(db, enabled, token, now);
    if activated.Err? {
      return Err(NotFound);
    }
    SeedCompanyDb(cdb, db);
    r := Ok(activated.value.rec.companyCode);
  }


  /**
   * A newly verified company's database, read by the dashboard: fiscal year
   * from August, current period 1, projects unbilled once completed.
   */
  lemma SeededSettingsRead(default: int)
    ensures DashboardRouter.IntSetting(InsertAll([], DefaultSettings), DashboardRouter.FiscalMonthKey, default) == Ok(8)
    ensures DashboardRouter.IntSetting(InsertAll([], DefaultSettings), DashboardRouter.CurrentPeriodKey, default) == Ok(1)
    ensures DashboardRouter.UnbilledRule(InsertAll([], DefaultSettings)) == Some("completed")
  {
    var s := InsertAll([], DefaultSettings);
    InsertAllRows([], DefaultSettings);
    assert s[0] == Row(1, DefaultSettings[0]);
    assert s[1] == Row(2, DefaultSettings[1]);
    assert s[2] == Row(3, DefaultSettings[2]);
    assert SettingsRouter.SettingAt(s, DashboardRouter.FiscalMonthKey) == Some(DefaultSettings[0]);
    assert SettingsRouter.SettingAt(s, DashboardRouter.CurrentPeriodKey) == Some(DefaultSettings[1]);
    assert SettingsRouter.SettingAt(s, DashboardRouter.UnbilledKey) == Some(DefaultSettings[2]);
    Text.PyIntOfIntToString(8);
    Text.PyIntOfIntToString(1);
  }
}

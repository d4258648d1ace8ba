/**
 * The master database shared by all companies: the companies, their users
 * and the super administrators, with the uniqueness constraints the schema
 * declares, the code generator for new companies, and the seeding of the
 * super administrator.
 *
 * An INSERT that would break a uniqueness constraint fails at commit with
 * an IntegrityError the handlers do not catch (error 500) and adds nothing.
 */
module MasterDatabase {
  import opened Base
  import opened Calendar
  import opened Tables
  import opened Seqs

  datatype Company = Company(
    companyCode: string,
    name: string,
    email: string,
    planType: Option<string> := Some("free"),
    maxUsers: Option<int> := Some(3),
    maxProjects: Option<int> := Some(30),
    storageLimitMb: Option<int> := Some(50),
    dataRetentionDays: Option<int> := Some(365),
    storageUsedMb: Option<int> := Some(0),
    isActive: Option<bool> := Some(false),
    verificationToken: Option<string> := None,
    verifiedAt: Option<Timestamp> := None,
    createdAt: Timestamp,
    lastLoginAt: Option<Timestamp> := None,
    expiresAt: Option<Timestamp> := None)

  /** A user's permissions: the JSON object of flags, or NULL. */
  type Permissions = map<string, bool>

  datatype User = User(
    companyId: int,
    username: string,
    name: string,
    passwordHash: string,
    role: Option<string> := Some("user"),
    staffCode: Option<string> := None,
    permissions: Option<Permissions> := Some(map[]),
    isActive: Option<bool> := Some(true),
    createdAt: Timestamp,
    lastLoginAt: Option<Timestamp> := None)

  datatype SuperAdmin = SuperAdmin(username: string, passwordHash: string, createdAt: Timestamp)

  /** Truthiness of a nullable boolean column. */
  predicate Flag(b: Option<bool>) { b == Some(true) }

  /** `company_code` is unique. */
  predicate CodesUnique(t: seq<Row<Company>>)
  {
    forall a, b :: a in t && b in t && a.rec.companyCode == b.rec.companyCode ==> a.id == b.id
  }

  /** `name` is unique. */
  predicate NamesUnique(t: seq<Row<Company>>)
  {
    forall a, b :: a in t && b in t && a.rec.name == b.rec.name ==> a.id == b.id
  }

  /** `(company_id, username)` is unique. */
  predicate UsernamesUniquePerCompany(t: seq<Row<User>>)
  {
    forall a, b :: a in t && b in t && a.rec.companyId == b.rec.companyId && a.rec.username == b.rec.username
      ==> a.id == b.id
  }

  /** The super administrators' `username` is unique. */
  predicate AdminNamesUnique(t: seq<Row<SuperAdmin>>)
  {
    forall a, b :: a in t && b in t && a.rec.username == b.rec.username ==> a.id == b.id
  }

  predicate CodeTaken(t: seq<Row<Company>>, code: string)
  {
    exists i :: 0 <= i < |t| && t[i].rec.companyCode == code
  }

  predicate NameTaken(t: seq<Row<Company>>, name: string)
  {
    exists i :: 0 <= i < |t| && t[i].rec.name == name
  }

  predicate UsernameTaken(t: seq<Row<User>>, companyId: int, username: string)
  {
    exists i :: 0 <= i < |t| && t[i].rec.companyId == companyId && t[i].rec.username == username
  }

  /** The users of one company, in table order (`filter(User.company_id == ...)`). */
  function UsersOf(t: seq<Row<User>>, companyId: int): (r: seq<Row<User>>)
    ensures forall x :: x in r <==> x in t && x.rec.companyId == companyId
  {
    var keep := (x: Row<User>) => x.rec.companyId == companyId;
    FilterSpec(t, keep);
    Filter(t, keep)
  }

  /** A subset of the rows keeps every uniqueness constraint. */
  lemma UniqueUnderSubset(t: seq<Row<User>>, r: seq<Row<User>>)
    requires UsernamesUniquePerCompany(t)
    requires forall x :: x in r ==> x in t
    ensures UsernamesUniquePerCompany(r)
  {
  }

  /** Keys in ascending order and the uniqueness constraints, on the three tables. */
  ghost predicate TablesValid(companies: seq<Row<Company>>, users: seq<Row<User>>, superAdmins: seq<Row<SuperAdmin>>)
  {
    && Ascending(companies) && Ascending(users) && Ascending(superAdmins)
    && CodesUnique(companies) && NamesUnique(companies)
    && UsernamesUniquePerCompany(users)
    && AdminNamesUnique(superAdmins)
  }

  class MasterDb {
    var companies: seq<Row<Company>>
    var users: seq<Row<User>>
    var superAdmins: seq<Row<SuperAdmin>>

    ghost predicate Valid()
      reads this
    {
      TablesValid(companies, users, superAdmins)
    }

    /** `create_all` on a new master database: every table empty. */
    constructor ()
      ensures Valid()
      ensures companies == [] && users == [] && superAdmins == []
    {
      companies, users, superAdmins := [], [], [];
    }
  }

  /** A row of a table after an insert is an old row with a smaller key, or the new one. */
  lemma InsertMember<R>(t: seq<Row<R>>, rec: R, x: Row<R>)
    requires Ascending(t) && x in Insert(t, rec)
    ensures (x in t && x.id != NextId(t)) || x == Row(NextId(t), rec)
  {
  }

  /**
   * Adding a company: refused (error 500, nothing added) when its code or
   * name is taken; otherwise appended under the next key.
   */
  method InsertCompany(db: MasterDb, c: Company) returns (r: Result<int>)
    requires db.Valid()
    modifies db
    ensures db.Valid()
    ensures r.Err? <==> CodeTaken(old(db.companies), c.companyCode) || NameTaken(old(db.companies), c.name)
    ensures r.Err? ==> r.error == ServerError && db.companies == old(db.companies)
    ensures r.Ok? ==> r.value == NextId(old(db.companies)) && db.companies == Insert(old(db.companies), c)
    ensures db.users == old(db.users) && db.superAdmins == old(db.superAdmins)
  {
    if CodeTaken(db.companies, c.companyCode) || NameTaken(db.companies, c.name) {
      return Err(ServerError);
    }
    var id := NextId(db.companies);
    var t := Insert(db.companies, c);
    forall a, b | a in t && b in t ensures a.rec.companyCode == b.rec.companyCode || a.rec.name == b.rec.name ==> a.id == b.id {
      InsertMember(db.companies, c, a);
      InsertMember(db.companies, c, b);
    }
    db.companies := t;
    r := Ok(id);
  }

  /**
   * Adding a user: refused (error 500, nothing added) when the company
   * already has that username; otherwise appended under the next key.
   */
  method InsertUser(db: MasterDb, u: User) returns (r: Result<int>)
    requires db.Valid()
    modifies db
    ensures db.Valid()
    ensures r.Err? <==> UsernameTaken(old(db.users), u.companyId, u.username)
    ensures r.Err? ==> r.error == ServerError && db.users == old(db.users)
    ensures r.Ok? ==> r.value == NextId(old(db.users)) && db.users == Insert(old(db.users), u)
    ensures db.companies == old(db.companies) && db.superAdmins == old(db.superAdmins)
  {
    if UsernameTaken(db.users, u.companyId, u.username) {
      return Err(ServerError);
    }
    var id := NextId(db.users);
    var t := Insert(db.users, u);
    forall a, b | a in t && b in t && a.rec.companyId == b.rec.companyId && a.rec.username == b.rec.username
      ensures a.id == b.id
    {
      InsertMember(db.users, u, a);
      InsertMember(db.users, u, b);
    }
    db.users := t;
    r := Ok(id);
  }

  /** A row of a replaced table is an untouched row with another key, or the new record under `id`. */
  lemma {:induction false} ReplaceMember<R>(t: seq<Row<R>>, id: int, rec: R, x: Row<R>)
    requires x in Replace(t, id, rec)
    ensures (x in t && x.id != id) || (x == Row(id, rec) && HasId(t, id))
  {
    if t[0].id == id {
      if x != Row(id, rec) {
        ReplaceMember(t[1..], id, rec, x);
      }
    } else if x != t[0] {
      ReplaceMember(t[1..], id, rec, x);
      if x !in t[1..] {
        var i :| 0 <= i < |t[1..]| && t[1..][i].id == id;
        assert t[i + 1].id == id;
      }
    }
  }

  /** A user row replaced by one with the same company and username keeps the constraint. */
  lemma ReplaceUserKeepsUnique(t: seq<Row<User>>, id: int, u: User)
    requires UsernamesUniquePerCompany(t)
    requires forall x :: x in t && x.id == id ==> x.rec.companyId == u.companyId && x.rec.username == u.username
    ensures UsernamesUniquePerCompany(Replace(t, id, u))
  {
    var r := Replace(t, id, u);
    forall a, b | a in r && b in r && a.rec.companyId == b.rec.companyId && a.rec.username == b.rec.username
      ensures a.id == b.id
    {
      ReplaceMember(t, id, u, a);
      ReplaceMember(t, id, u, b);
    }
  }

  /** A company row replaced by one with the same code and name keeps both constraints. */
  lemma ReplaceCompanyKeepsUnique(t: seq<Row<Company>>, id: int, c: Company)
    requires CodesUnique(t) && NamesUnique(t)
    requires forall x :: x in t && x.id == id ==> x.rec.companyCode == c.companyCode && x.rec.name == c.name
    ensures CodesUnique(Replace(t, id, c)) && NamesUnique(Replace(t, id, c))
  {
    var r := Replace(t, id, c);
    forall a, b | a in r && b in r && (a.rec.companyCode == b.rec.companyCode || a.rec.name == b.rec.name)
      ensures a.id == b.id
    {
      ReplaceMember(t, id, c, a);
      ReplaceMember(t, id, c, b);
    }
  }

  /**
   * Committing changed columns of one user (`setattr` and `commit`): the row
   * under `id` becomes `u`, which keeps that user's company and username.
   */
  method UpdateUserRow(db: MasterDb, id: int, u: User)
    requires db.Valid()
    requires forall x :: x in db.users && x.id == id ==> x.rec.companyId == u.companyId && x.rec.username == u.username
    modifies db
    ensures db.Valid()
    ensures db.users == Replace(old(db.users), id, u)
    ensures forall k :: Get(db.users, k) == if k == id && HasId(old(db.users), id) then Some(u) else Get(old(db.users), k)
    ensures db.companies == old(db.companies) && db.superAdmins == old(db.superAdmins)
  {
    ReplaceAscending(db.users, id, u);
    ReplaceUserKeepsUnique(db.users, id, u);
    forall k ensures Get(Replace(db.users, id, u), k) == if k == id && HasId(db.users, id) then Some(u) else Get(db.users, k) {
      GetReplace(db.users, id, u, k);
    }
    db.users := Replace(db.users, id, u);
  }

  /** Committing changed columns of one company that keep its code and name. */
  method UpdateCompanyRow(db: MasterDb, id: int, c: Company)
    requires db.Valid()
    requires forall x :: x in db.companies && x.id == id ==> x.rec.companyCode == c.companyCode && x.rec.name == c.name
    modifies db
    ensures db.Valid()
    ensures db.companies == Replace(old(db.companies), id, c)
    ensures forall k :: Get(db.companies, k) == if k == id && HasId(old(db.companies), id) then Some(c) else Get(old(db.companies), k)
    ensures db.users == old(db.users) && db.superAdmins == old(db.superAdmins)
  {
    ReplaceAscending(db.companies, id, c);
    ReplaceCompanyKeepsUnique(db.companies, id, c);
    forall k ensures Get(Replace(db.companies, id, c), k) == if k == id && HasId(db.companies, id) then Some(c) else Get(db.companies, k) {
      GetReplace(db.companies, id, c, k);
    }
    db.companies := Replace(db.companies, id, c);
  }

  /** `db.delete(user)` and `commit`. */
  method DeleteUserRow(db: MasterDb, id: int)
    requires db.Valid()
    modifies db
    ensures db.Valid()
    ensures db.users == Remove(old(db.users), id)
    ensures forall k :: Get(db.users, k) == if k == id then None else Get(old(db.users), k)
    ensures db.companies == old(db.companies) && db.superAdmins == old(db.superAdmins)
  {
    var t := Remove(db.users, id);
    RemoveAscending(db.users, id);
    UniqueUnderSubset(db.users, t);
    forall k ensures Get(t, k) == if k == id then None else Get(db.users, k) {
      GetRemove(db.users, id, k);
    }
    db.users := t;
  }

  /** `db.delete(company)` and `commit`: every other company row stays. */
  method DeleteCompanyRow(db: MasterDb, id: int)
    requires db.Valid()
    modifies db
    ensures db.Valid()
    ensures db.companies == Remove(old(db.companies), id)
    ensures forall x :: x in db.companies <==> x in old(db.companies) && x.id != id
    ensures db.users == old(db.users) && db.superAdmins == old(db.superAdmins)
  {
    var t := Remove(db.companies, id);
    RemoveAscending(db.companies, id);
    RemoveMembers(db.companies, id);
    db.companies := t;
  }

  // ---------------------------------------------------------------------------
  // `generate_company_code`

  const CodeAlphabet: string := "abcdefghijklmnopqrstuvwxyz0123456789"

  /** Six characters from lower-case letters and digits (`random.choices(..., k=6)`). */
  predicate IsCodeShape(code: string)
  {
    |code| == 6 && forall i :: 0 <= i < 6 ==> code[i] in CodeAlphabet
  }

  /** `code` is the first of the random draws that no company has. */
  predicate FirstFreeDraw(t: seq<Row<Company>>, draws: seq<string>, code: string)
  {
    exists i :: 0 <= i < |draws| && draws[i] == code && !CodeTaken(t, code)
                && forall j :: 0 <= j < i ==> CodeTaken(t, draws[j])
  }

  /** There is at most one first free draw. */
  lemma FirstFreeDrawUnique(t: seq<Row<Company>>, draws: seq<string>, a: string, b: string)
    requires FirstFreeDraw(t, draws, a) && FirstFreeDraw(t, draws, b)
    ensures a == b
  {
    var i :| 0 <= i < |draws| && draws[i] == a && !CodeTaken(t, a) && forall j :: 0 <= j < i ==> CodeTaken(t, draws[j]);
    var k :| 0 <= k < |draws| && draws[k] == b && !CodeTaken(t, b) && forall j :: 0 <= j < k ==> CodeTaken(t, draws[j]);
    assert !(i < k) && !(k < i);
  }

  /**
   * `generate_company_code`: random codes are drawn until one names no
   * company. `draws` is the sequence of codes the random generator yields;
   * the result is the first of them that is free, and `None` only when every
   * draw is taken (where the source keeps drawing).
   */
  method GenerateCompanyCode(db: MasterDb, draws: seq<string>) returns (code: Option<string>)
    requires forall i :: 0 <= i < |draws| ==> IsCodeShape(draws[i])
    ensures code.Some? ==> !CodeTaken(db.companies, code.value) && IsCodeShape(code.value)
    ensures code.Some? ==> exists i :: 0 <= i < |draws| && draws[i] == code.value &&
                             (forall j :: 0 <= j < i ==> CodeTaken(db.companies, draws[j]))
    ensures code.None? <==> forall i :: 0 <= i < |draws| ==> CodeTaken(db.companies, draws[i])
  {
    var i := 0;
    while i < |draws|
      invariant 0 <= i <= |draws|
      invariant forall j :: 0 <= j < i ==> CodeTaken(db.companies, draws[j])
    {
      if !CodeTaken(db.companies, draws[i]) {
        return Some(draws[i]);
      }
      i := i + 1;
    }
    return None;
  }

  // ---------------------------------------------------------------------------
  // `init_master_db`

  const SuperAdminName: string := "superadmin"
  const SuperAdminPassword: string := "super123456"

  predicate HasAdminNamed(t: seq<Row<SuperAdmin>>, name: string)
  {
    exists i :: 0 <= i < |t| && t[i].rec.username == name
  }

  /** The super-administrator table after seeding: `superadmin` is added only when absent. */
  function SeedSuperAdmin(t: seq<Row<SuperAdmin>>, hash: string, now: Timestamp): (r: seq<Row<SuperAdmin>>)
    requires Ascending(t)
    ensures Ascending(r) && HasAdminNamed(r, SuperAdminName)
    ensures HasAdminNamed(t, SuperAdminName) ==> r == t
    ensures !HasAdminNamed(t, SuperAdminName) ==> r == Insert(t, SuperAdmin(SuperAdminName, hash, now))
  {
    if HasAdminNamed(t, SuperAdminName) then t
    else
      var r := Insert(t, SuperAdmin(SuperAdminName, hash, now));
      assert r[|t|].rec.username == SuperAdminName;
      r
  }

  /** Seeding twice is seeding once, whatever the second run's hash and clock. */
  lemma SeedIdempotent(t: seq<Row<SuperAdmin>>, h1: string, n1: Timestamp, h2: string, n2: Timestamp)
    requires Ascending(t)
    ensures SeedSuperAdmin(SeedSuperAdmin(t, h1, n1), h2, n2) == SeedSuperAdmin(t, h1, n1)
  {
  }

  /** After seeding a table with unique names, exactly one row is named `superadmin`. */
  lemma SeedLeavesOne(t: seq<Row<SuperAdmin>>, hash: string, now: Timestamp, a: Row<SuperAdmin>, b: Row<SuperAdmin>)
    requires Ascending(t) && AdminNamesUnique(t)
    requires a in SeedSuperAdmin(t, hash, now) && b in SeedSuperAdmin(t, hash, now)
    requires a.rec.username == SuperAdminName && b.rec.username == SuperAdminName
    ensures a == b
  {
    if !HasAdminNamed(t, SuperAdminName) {
      SeedAddsOnlyOne(t, hash, now, a);
      SeedAddsOnlyOne(t, hash, now, b);
    } else {
      KeyedRow(t, a, b);
    }
  }

  /** When no `superadmin` exists yet, the only row of that name after seeding is the appended one. */
  lemma SeedAddsOnlyOne(t: seq<Row<SuperAdmin>>, hash: string, now: Timestamp, a: Row<SuperAdmin>)
    requires Ascending(t) && !HasAdminNamed(t, SuperAdminName)
    requires a in SeedSuperAdmin(t, hash, now) && a.rec.username == SuperAdminName
    ensures a == SeedSuperAdmin(t, hash, now)[|t|]
  {
    var r := SeedSuperAdmin(t, hash, now);
    assert forall j :: 0 <= j < |t| ==> r[j] == t[j] && t[j].rec.username != SuperAdminName;
    var i :| 0 <= i < |r| && r[i] == a;
    assert i == |t|;
  }

  /**
   * `init_master_db` on a created schema: the super administrator is added
   * (with the hash of its initial password) only when none of that name exists.
   */
  method InitMasterDb(db: MasterDb, passwordHash: string, now: Timestamp)
    requires db.Valid()
    modifies db
    ensures db.Valid()
    ensures db.superAdmins == SeedSuperAdmin(old(db.superAdmins), passwordHash, now)
    ensures db.companies == old(db.companies) && db.users == old(db.users)
  {
    var t := SeedSuperAdmin(db.superAdmins, passwordHash, now);
    if !HasAdminNamed(db.superAdmins, SuperAdminName) {
      var admin := SuperAdmin(SuperAdminName, passwordHash, now);
      forall a, b | a in t && b in t && a.rec.username == b.rec.username ensures a.id == b.id {
        InsertMember(db.superAdmins, admin, a);
        InsertMember(db.superAdmins, admin, b);
        if a.rec.username == SuperAdminName {
          SeedLeavesOne(db.superAdmins, passwordHash, now, a, b);
        }
      }
    }
    db.superAdmins := t;
  }
}

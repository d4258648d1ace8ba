/**
 * The project endpoints: the caller's own list, creation with the fiscal
 * period and the per-user duplicate check, lookup, the partial update, and
 * deletion, plus the admin listing by user.
 */
module ProjectsRouter {
  import opened Base
  import opened Calendar
  import opened Seqs
  import opened Tables
  import opened CompanyModels
  import opened Schemas
  import SettingsRouter

  /** The rows whose `user_id` is `uid` (a null `user_id` matches no one). */
  function OwnedBy(t: seq<Row<Project>>, uid: int): (r: seq<Row<Project>>)
    ensures forall i :: 0 <= i < |r| ==> r[i] in t && r[i].rec.userId == Some(uid)
    ensures forall i :: 0 <= i < |t| && t[i].rec.userId == Some(uid) ==> t[i] in r
  {
    var keep := (x: Row<Project>) => x.rec.userId == Some(uid);
    FilterSpec(t, keep);
    Filter(t, keep)
  }

  /** `get_projects`: the caller's own projects, in table order, as the `skip`/`limit` page. */
  method GetProjects(db: CompanyDb, caller: Caller, skip: int, limit: int) returns (r: seq<Row<Project>>)
    ensures r == Page(OwnedBy(db.projects, caller.id), skip, limit)
    ensures forall i :: 0 <= i < |r| ==> r[i] in db.projects && r[i].rec.userId == Some(caller.id)
  {
    var mine := OwnedBy(db.projects, caller.id);
    r := Page(mine, skip, limit);
    PageIn(mine, skip, limit);
  }

  /** Whether the user already has a project with this code (the duplicate check). */
  predicate CodeTaken(t: seq<Row<Project>>, uid: int, code: string)
  {
    exists i :: 0 <= i < |t| && t[i].rec.projectCode == code && t[i].rec.userId == Some(uid)
  }

  /** No user has two projects with the same code. */
  predicate CodesUniquePerUser(t: seq<Row<Project>>)
  {
    forall i, j :: 0 <= i < j < |t| && t[i].rec.userId.Some? && t[i].rec.userId == t[j].rec.userId
      ==> t[i].rec.projectCode != t[j].rec.projectCode
  }

  /**
   * The row `create_project` inserts: the validated fields, the caller as
   * `user_id`, the computed period, and the column defaults for the rest
   * (a null sent for a defaulted column is stored as the default).
   */
  function NewProject(c: ProjectCreate, uid: int, period: int, now: Timestamp): (p: Project)
    ensures p.userId == Some(uid) && p.period == Some(period) && p.isGeneralExpense == Some(false)
    ensures p.projectCode == c.projectCode && p.name == c.name
    ensures p.contractAmount.Some? && p.taxType.Some? && p.taxRate.Some? && p.status.Some?
    ensures p.estimateNumber == c.estimateNumber
    ensures c.taxType.Some? ==> p.taxType == c.taxType
    ensures c.taxType.None? ==> p.taxType == Some("included")
    ensures c.taxRate.Some? ==> p.taxRate == c.taxRate
    ensures c.taxRate.None? ==> p.taxRate == Some(10)
    ensures c.contractAmount.Some? ==> p.contractAmount == c.contractAmount
    ensures c.status.Some? ==> p.status == c.status
    ensures c.contractAmount.None? ==> p.contractAmount == Some(0)
    ensures c.status.None? ==> p.status == Some(StatusActive)
    ensures p.startDate == c.startDate && p.endDate == c.endDate
    ensures p.invoiceDate == c.invoiceDate && p.paymentDate == c.paymentDate
    ensures p.clientName == c.clientName && p.notes == c.notes && p.createdAt == now
  {
    Project(
      userId := Some(uid),
      projectCode := c.projectCode,
      period := Some(period),
      name := c.name,
      clientName := c.clientName,
      estimateNumber := c.estimateNumber,
      contractAmount := InsertValue(c.contractAmount, 0),
      taxType := InsertValue(c.taxType, "included"),
      taxRate := InsertValue(c.taxRate, 10),
      status := InsertValue(c.status, StatusActive),
      startDate := c.startDate,
      endDate := c.endDate,
      invoiceDate := c.invoiceDate,
      paymentDate := c.paymentDate,
      notes := c.notes,
      createdAt := now)
  }

  /**
   * `create_project`. A body lacking `project_code` or `name` is refused
   * with 422 before anything happens. Otherwise the fiscal row is created
   * when missing (and stays, whatever follows), the period is computed from
   * it, a code the caller already uses is refused with 400, and otherwise
   * the new project is appended under the next key.
   */
  method CreateProject(db: CompanyDb, caller: Caller, body: ProjectBody, now: Timestamp)
    returns (r: Result<Row<Project>>)
    requires db.Valid()
    modifies db
    ensures db.Valid()
    ensures !ProjectComplete(body) ==> r == Err(Unprocessable) && db.settings == old(db.settings)
    ensures ProjectComplete(body) ==>
      && SettingsRouter.SettingAt(db.settings, SettingsRouter.FiscalKey).Some?
      && (SettingsRouter.FirstWithKey(old(db.settings), SettingsRouter.FiscalKey).Some? ==> db.settings == old(db.settings))
      && (SettingsRouter.FirstWithKey(old(db.settings), SettingsRouter.FiscalKey).None? ==>
            db.settings == Insert(old(db.settings), SettingsRouter.DefaultFiscalRow))
    ensures ProjectComplete(body) ==> (r.Err? <==> CodeTaken(old(db.projects), caller.id, body.projectCode.value))
    ensures r.Err? ==> db.projects == old(db.projects)
    ensures r.Err? && ProjectComplete(body) ==> r.error == BadRequest
    ensures r.Ok? ==>
      var row := SettingsRouter.SettingAt(db.settings, SettingsRouter.FiscalKey).value;
      var period := SettingsRouter.CalculateCurrentPeriod(row.fiscalStartYear, row.fiscalStartMonth, now.date);
      && r.value.rec == NewProject(ValidateProject(body).value, caller.id, period, now)
      && r.value.id == NextId(old(db.projects))
      && db.projects == Insert(old(db.projects), r.value.rec)
    ensures r.Ok? && CodesUniquePerUser(old(db.projects)) ==> CodesUniquePerUser(db.projects)
    ensures db.costs == old(db.costs) && db.vendors == old(db.vendors)
    ensures db.categories == old(db.categories) && db.customers == old(db.customers)
  {
    var v := ValidateProject(body);
    if v.Err? {
      return Err(v.error);
    }
    var c := v.value;
    var settings := SettingsRouter.EnsureFiscalRow(db);
    var period: int;
    if now.date.month >= settings.fiscalStartMonth {
      period := now.date.year - settings.fiscalStartYear + 1;
    } else {
      period := now.date.year - settings.fiscalStartYear;
    }
    if CodeTaken(db.projects, caller.id, c.projectCode) {
      return Err(BadRequest);
    }
    assert period == SettingsRouter.CalculateCurrentPeriod(settings.fiscalStartYear, settings.fiscalStartMonth, now.date);
    var p := NewProject(c, caller.id, period, now);
    InsertKeepsCodesUnique(db.projects, p);
    var id := NextId(db.projects);
    db.projects := Insert(db.projects, p);
    r := Ok(Row(id, p));
  }

  /** Appending a project whose code its owner does not use yet keeps codes unique per user. */
  lemma InsertKeepsCodesUnique(t: seq<Row<Project>>, p: Project)
    requires Ascending(t) && p.userId.Some? && !CodeTaken(t, p.userId.value, p.projectCode)
    ensures CodesUniquePerUser(t) ==> CodesUniquePerUser(Insert(t, p))
  {
    var u := Insert(t, p);
    assert forall j :: 0 <= j < |t| ==> u[j] == t[j];
    assert u[|t|].rec == p;
  }

  /** `get_project`: any project of the company by key, or 404. */
  method GetProject(db: CompanyDb, id: int) returns (r: Result<Project>)
    ensures r.Err? <==> !HasId(db.projects, id)
    ensures r.Err? ==> r.error == NotFound
    ensures r.Ok? ==> Row(id, r.value) in db.projects
  {
    match Get(db.projects, id)
    case None => r := Err(NotFound);
    case Some(p) => r := Ok(p);
  }

  /** `setattr(row, key, value)` for one sent field. */
  function SetProjectColumn(x: Project, f: ProjectField): Project
  {
    match f
    case SetProjectCode(v) => if v.Some? then x.(projectCode := v.value) else x
    case SetName(v) => if v.Some? then x.(name := v.value) else x
    case SetIsGeneralExpense(v) => x.(isGeneralExpense := v)
    case SetClientName(v) => x.(clientName := v)
    case SetEstimateNumber(v) => x.(estimateNumber := v)
    case SetContractAmount(v) => x.(contractAmount := v)
    case SetTaxType(v) => x.(taxType := v)
    case SetTaxRate(v) => x.(taxRate := v)
    case SetStatus(v) => x.(status := v)
    case SetStartDate(v) => x.(startDate := v)
    case SetEndDate(v) => x.(endDate := v)
    case SetInvoiceDate(v) => x.(invoiceDate := v)
    case SetPaymentDate(v) => x.(paymentDate := v)
    case SetNotes(v) => x.(notes := v)
  }

  /** The row with every sent field replaced by the value sent, field by field. */
  function MergeProjectUpdate(x: Project, b: ProjectUpdate): Project
  {
    x.(
      projectCode := if b.projectCode.Given? && b.projectCode.value.Some? then b.projectCode.value.value else x.projectCode,
      name := if b.name.Given? && b.name.value.Some? then b.name.value.value else x.name,
      isGeneralExpense := OrDefault(b.isGeneralExpense, x.isGeneralExpense),
      clientName := OrDefault(b.clientName, x.clientName),
      estimateNumber := OrDefault(b.estimateNumber, x.estimateNumber),
      contractAmount := OrDefault(b.contractAmount, x.contractAmount),
      taxType := OrDefault(b.taxType, x.taxType),
      taxRate := OrDefault(b.taxRate, x.taxRate),
      status := OrDefault(b.status, x.status),
      startDate := OrDefault(b.startDate, x.startDate),
      endDate := OrDefault(b.endDate, x.endDate),
      invoiceDate := OrDefault(b.invoiceDate, x.invoiceDate),
      paymentDate := OrDefault(b.paymentDate, x.paymentDate),
      notes := OrDefault(b.notes, x.notes))
  }

  lemma SetAttrProjectUpdateProjectCode(m: Project, b: ProjectUpdate)
    ensures ApplyAll(m, SentProjectFieldsFrom(b, 0), SetProjectColumn) == ApplyAll(m.(projectCode := if b.projectCode.Given? && b.projectCode.value.Some? then b.projectCode.value.value else m.projectCode), SentProjectFieldsFrom(b, 1), SetProjectColumn)
  {
    ApplyFront(m, ProjectFieldAt(b, 0), SentProjectFieldsFrom(b, 1), SetProjectColumn, m.(projectCode := if b.projectCode.Given? && b.projectCode.value.Some? then b.projectCode.value.value else m.projectCode));
  }

  lemma SetAttrProjectUpdateName(m: Project, b: ProjectUpdate)
    ensures ApplyAll(m, SentProjectFieldsFrom(b, 1), SetProjectColumn) == ApplyAll(m.(name := if b.name.Given? && b.name.value.Some? then b.name.value.value else m.name), SentProjectFieldsFrom(b, 2), SetProjectColumn)
  {
    ApplyFront(m, ProjectFieldAt(b, 1), SentProjectFieldsFrom(b, 2), SetProjectColumn, m.(name := if b.name.Given? && b.name.value.Some? then b.name.value.value else m.name));
  }

  lemma SetAttrProjectUpdateIsGeneralExpense(m: Project, b: ProjectUpdate)
    ensures ApplyAll(m, SentProjectFieldsFrom(b, 2), SetProjectColumn) == ApplyAll(m.(isGeneralExpense := OrDefault(b.isGeneralExpense, m.isGeneralExpense)), SentProjectFieldsFrom(b, 3), SetProjectColumn)
  {
    ApplyFront(m, ProjectFieldAt(b, 2), SentProjectFieldsFrom(b, 3), SetProjectColumn, m.(isGeneralExpense := OrDefault(b.isGeneralExpense, m.isGeneralExpense)));
  }

  lemma SetAttrProjectUpdateClientName(m: Project, b: ProjectUpdate)
    ensures ApplyAll(m, SentProjectFieldsFrom(b, 3), SetProjectColumn) == ApplyAll(m.(clientName := OrDefault(b.clientName, m.clientName)), SentProjectFieldsFrom(b, 4), SetProjectColumn)
  {
    ApplyFront(m, ProjectFieldAt(b, 3), SentProjectFieldsFrom(b, 4), SetProjectColumn, m.(clientName := OrDefault(b.clientName, m.clientName)));
  }

  lemma SetAttrProjectUpdateEstimateNumber(m: Project, b: ProjectUpdate)
    ensures ApplyAll(m, SentProjectFieldsFrom(b, 4), SetProjectColumn) == ApplyAll(m.(estimateNumber := OrDefault(b.estimateNumber, m.estimateNumber)), SentProjectFieldsFrom(b, 5), SetProjectColumn)
  {
    ApplyFront(m, ProjectFieldAt(b, 4), SentProjectFieldsFrom(b, 5), SetProjectColumn, m.(estimateNumber := OrDefault(b.estimateNumber, m.estimateNumber)));
  }

  lemma SetAttrProjectUpdateContractAmount(m: Project, b: ProjectUpdate)
    ensures ApplyAll(m, SentProjectFieldsFrom(b, 5), SetProjectColumn) == ApplyAll(m.(contractAmount := OrDefault(b.contractAmount, m.contractAmount)), SentProjectFieldsFrom(b, 6), SetProjectColumn)
  {
    ApplyFront(m, ProjectFieldAt(b, 5), SentProjectFieldsFrom(b, 6), SetProjectColumn, m.(contractAmount := OrDefault(b.contractAmount, m.contractAmount)));
  }

  lemma SetAttrProjectUpdateTaxType(m: Project, b: ProjectUpdate)
    ensures ApplyAll(m, SentProjectFieldsFrom(b, 6), SetProjectColumn) == ApplyAll(m.(taxType := OrDefault(b.taxType, m.taxType)), SentProjectFieldsFrom(b, 7), SetProjectColumn)
  {
    ApplyFront(m, ProjectFieldAt(b, 6), SentProjectFieldsFrom(b, 7), SetProjectColumn, m.(taxType := OrDefault(b.taxType, m.taxType)));
  }

  lemma SetAttrProjectUpdateTaxRate(m: Project, b: ProjectUpdate)
    ensures ApplyAll(m, SentProjectFieldsFrom(b, 7), SetProjectColumn) == ApplyAll(m.(taxRate := OrDefault(b.taxRate, m.taxRate)), SentProjectFieldsFrom(b, 8), SetProjectColumn)
  {
    ApplyFront(m, ProjectFieldAt(b, 7), SentProjectFieldsFrom(b, 8), SetProjectColumn, m.(taxRate := OrDefault(b.taxRate, m.taxRate)));
  }

  lemma SetAttrProjectUpdateStatus(m: Project, b: ProjectUpdate)
    ensures ApplyAll(m, SentProjectFieldsFrom(b, 8), SetProjectColumn) == ApplyAll(m.(status := OrDefault(b.status, m.status)), SentProjectFieldsFrom(b, 9), SetProjectColumn)
  {
    ApplyFront(m, ProjectFieldAt(b, 8), SentProjectFieldsFrom(b, 9), SetProjectColumn, m.(status := OrDefault(b.status, m.status)));
  }

  lemma SetAttrProjectUpdateStartDate(m: Project, b: ProjectUpdate)
    ensures ApplyAll(m, SentProjectFieldsFrom(b, 9), SetProjectColumn) == ApplyAll(m.(startDate := OrDefault(b.startDate, m.startDate)), SentProjectFieldsFrom(b, 10), SetProjectColumn)
  {
    ApplyFront(m, ProjectFieldAt(b, 9), SentProjectFieldsFrom(b, 10), SetProjectColumn, m.(startDate := OrDefault(b.startDate, m.startDate)));
  }

  lemma SetAttrProjectUpdateEndDate(m: Project, b: ProjectUpdate)
    ensures ApplyAll(m, SentProjectFieldsFrom(b, 10), SetProjectColumn) == ApplyAll(m.(endDate := OrDefault(b.endDate, m.endDate)), SentProjectFieldsFrom(b, 11), SetProjectColumn)
  {
    ApplyFront(m, ProjectFieldAt(b, 10), SentProjectFieldsFrom(b, 11), SetProjectColumn, m.(endDate := OrDefault(b.endDate, m.endDate)));
  }

  lemma SetAttrProjectUpdateInvoiceDate(m: Project, b: ProjectUpdate)
    ensures ApplyAll(m, SentProjectFieldsFrom(b, 11), SetProjectColumn) == ApplyAll(m.(invoiceDate := OrDefault(b.invoiceDate, m.invoiceDate)), SentProjectFieldsFrom(b, 12), SetProjectColumn)
  {
    ApplyFront(m, ProjectFieldAt(b, 11), SentProjectFieldsFrom(b, 12), SetProjectColumn, m.(invoiceDate := OrDefault(b.invoiceDate, m.invoiceDate)));
  }

  lemma SetAttrProjectUpdatePaymentDate(m: Project, b: ProjectUpdate)
    ensures ApplyAll(m, SentProjectFieldsFrom(b, 12), SetProjectColumn) == ApplyAll(m.(paymentDate := OrDefault(b.paymentDate, m.paymentDate)), SentProjectFieldsFrom(b, 13), SetProjectColumn)
  {
    ApplyFront(m, ProjectFieldAt(b, 12), SentProjectFieldsFrom(b, 13), SetProjectColumn, m.(paymentDate := OrDefault(b.paymentDate, m.paymentDate)));
  }

  lemma SetAttrProjectUpdateNotes(m: Project, b: ProjectUpdate)
    ensures ApplyAll(m, SentProjectFieldsFrom(b, 13), SetProjectColumn) == ApplyAll(m.(notes := OrDefault(b.notes, m.notes)), SentProjectFieldsFrom(b, 14), SetProjectColumn)
  {
    ApplyFront(m, ProjectFieldAt(b, 13), SentProjectFieldsFrom(b, 14), SetProjectColumn, m.(notes := OrDefault(b.notes, m.notes)));
  }

  /** The `setattr` loop over the sent fields yields the field-by-field merge: unsent fields keep their value. */
  lemma SetAttrProjectUpdate(x: Project, b: ProjectUpdate)
    ensures ApplyAll(x, SentProjectFields(b), SetProjectColumn) == MergeProjectUpdate(x, b)
  {
    var m0 := x;
    var m1 := m0.(projectCode := if b.projectCode.Given? && b.projectCode.value.Some? then b.projectCode.value.value else m0.projectCode);
    SetAttrProjectUpdateProjectCode(m0, b);
    var m2 := m1.(name := if b.name.Given? && b.name.value.Some? then b.name.value.value else m1.name);
    SetAttrProjectUpdateName(m1, b);
    var m3 := m2.(isGeneralExpense := OrDefault(b.isGeneralExpense, m2.isGeneralExpense));
    SetAttrProjectUpdateIsGeneralExpense(m2, b);
    var m4 := m3.(clientName := OrDefault(b.clientName, m3.clientName));
    SetAttrProjectUpdateClientName(m3, b);
    var m5 := m4.(estimateNumber := OrDefault(b.estimateNumber, m4.estimateNumber));
    SetAttrProjectUpdateEstimateNumber(m4, b);
    var m6 := m5.(contractAmount := OrDefault(b.contractAmount, m5.contractAmount));
    SetAttrProjectUpdateContractAmount(m5, b);
    var m7 := m6.(taxType := OrDefault(b.taxType, m6.taxType));
    SetAttrProjectUpdateTaxType(m6, b);
    var m8 := m7.(taxRate := OrDefault(b.taxRate, m7.taxRate));
    SetAttrProjectUpdateTaxRate(m7, b);
    var m9 := m8.(status := OrDefault(b.status, m8.status));
    SetAttrProjectUpdateStatus(m8, b);
    var m10 := m9.(startDate := OrDefault(b.startDate, m9.startDate));
    SetAttrProjectUpdateStartDate(m9, b);
    var m11 := m10.(endDate := OrDefault(b.endDate, m10.endDate));
    SetAttrProjectUpdateEndDate(m10, b);
    var m12 := m11.(invoiceDate := OrDefault(b.invoiceDate, m11.invoiceDate));
    SetAttrProjectUpdateInvoiceDate(m11, b);
    var m13 := m12.(paymentDate := OrDefault(b.paymentDate, m12.paymentDate));
    SetAttrProjectUpdatePaymentDate(m12, b);
    var m14 := m13.(notes := OrDefault(b.notes, m13.notes));
    SetAttrProjectUpdateNotes(m13, b);
    assert ApplyAll(m14, SentProjectFieldsFrom(b, 14), SetProjectColumn) == m14;
    assert m14 == MergeProjectUpdate(x, b);
  }

  /** Whether the update sends null for a column that cannot hold it. */
  predicate NullsRequiredColumn(u: ProjectUpdate)
  {
    u.projectCode == Given(None) || u.name == Given(None)
  }

  /**
   * `update_project`: 404 for an unknown key; otherwise the sent fields are
   * assigned in order. A null for `project_code` or `name` makes the commit
   * fail (error 500) and leaves the row as it was.
   */
  method UpdateProject(db: CompanyDb, id: int, u: ProjectUpdate) returns (r: Result<Project>)
    requires db.Valid()
    modifies db
    ensures db.Valid()
    ensures r.Err? <==> !HasId(old(db.projects), id) || NullsRequiredColumn(u)
    ensures r.Err? ==> db.projects == old(db.projects)
    ensures r.Err? && !HasId(old(db.projects), id) ==> r.error == NotFound
    ensures r.Err? && HasId(old(db.projects), id) ==> r.error == ServerError
    ensures r.Ok? ==> r.value == MergeProjectUpdate(Get(old(db.projects), id).value, u)
                      && db.projects == Replace(old(db.projects), id, r.value)
    ensures db.settings == old(db.settings) && db.costs == old(db.costs) && db.vendors == old(db.vendors)
    ensures db.categories == old(db.categories) && db.customers == old(db.customers)
  {
    var found := Get(db.projects, id);
    if found.None? {
      return Err(NotFound);
    }
    var p := SetAttrLoop(found.value, SentProjectFields(u), SetProjectColumn);
    if NullsRequiredColumn(u) {
      return Err(ServerError);
    }
    SetAttrProjectUpdate(found.value, u);
    ReplaceAscending(db.projects, id, p);
    db.projects := Replace(db.projects, id, p);
    r := Ok(p);
  }

  /** An update changes exactly the sent fields: every other column reads as before. */
  lemma UpdateChangesOnlySent(p: Project, u: ProjectUpdate)
    requires !NullsRequiredColumn(u)
    ensures var q := MergeProjectUpdate(p, u);
      && q.userId == p.userId && q.period == p.period && q.createdAt == p.createdAt
      && (u.projectCode.Given? ==> q.projectCode == u.projectCode.value.value)
      && (u.projectCode.Omitted? ==> q.projectCode == p.projectCode)
      && (u.status.Given? ==> q.status == u.status.value)
      && (u.status.Omitted? ==> q.status == p.status)
      && (u.contractAmount.Given? ==> q.contractAmount == u.contractAmount.value)
      && (u.contractAmount.Omitted? ==> q.contractAmount == p.contractAmount)
      && (u.invoiceDate.Omitted? ==> q.invoiceDate == p.invoiceDate)
      && (u.paymentDate.Omitted? ==> q.paymentDate == p.paymentDate)
  {
  }

  /** An update that sends nothing leaves the project as it was. */
  lemma EmptyUpdateIsIdentity(p: Project)
    ensures MergeProjectUpdate(p, ProjectUpdate(Omitted, Omitted, Omitted, Omitted, Omitted, Omitted,
      Omitted, Omitted, Omitted, Omitted, Omitted, Omitted, Omitted, Omitted)) == p
  {
  }

  /** Some cost row refers to the project. */
  predicate HasCosts(costs: seq<Row<Cost>>, id: int)
  {
    exists i :: 0 <= i < |costs| && costs[i].rec.projectId == id
  }

  /**
   * `delete_project`: 404 for an unknown key. The project's `costs`
   * relationship has no delete cascade, so deleting a project that has
   * costs makes the ORM set their `project_id` to NULL; the column is
   * NOT NULL, the commit fails, and the caller gets an error 500 with
   * nothing deleted. A project without costs is removed, and only it.
   */
  method DeleteProject(db: CompanyDb, id: int) returns (r: Result<()>)
    requires db.Valid()
    modifies db
    ensures db.Valid()
    ensures r.Ok? <==> HasId(old(db.projects), id) && !HasCosts(old(db.costs), id)
    ensures r.Err? && !HasId(old(db.projects), id) ==> r.error == NotFound
    ensures r.Err? && HasId(old(db.projects), id) ==> r.error == ServerError
    ensures r.Err? ==> db.projects == old(db.projects)
    ensures r.Ok? ==> db.projects == Remove(old(db.projects), id)
    ensures db.settings == old(db.settings) && db.costs == old(db.costs) && db.vendors == old(db.vendors)
    ensures db.categories == old(db.categories) && db.customers == old(db.customers)
  {
    if !HasId(db.projects, id) {
      return Err(NotFound);
    }
    if HasCosts(db.costs, id) {
      return Err(ServerError);
    }
    RemoveAscending(db.projects, id);
    db.projects := Remove(db.projects, id);
    r := Ok(());
  }

  /** A successful delete leaves no cost without its project. */
  lemma DeleteLeavesNoOrphan(projects: seq<Row<Project>>, costs: seq<Row<Cost>>, id: int)
    requires HasId(projects, id) && !HasCosts(costs, id)
    ensures forall i :: 0 <= i < |costs| && HasId(projects, costs[i].rec.projectId) ==>
      HasId(Remove(projects, id), costs[i].rec.projectId)
  {
    forall i | 0 <= i < |costs| && HasId(projects, costs[i].rec.projectId)
      ensures HasId(Remove(projects, id), costs[i].rec.projectId)
    {
      assert costs[i].rec.projectId != id;
      GetRemove(projects, id, costs[i].rec.projectId);
    }
  }

  /**
   * `get_projects_by_user` (admins only, otherwise 403): user id 0 lists
   * every project, any other id that user's projects, as a page.
   */
  method GetProjectsByUser(db: CompanyDb, caller: Caller, userId: int, skip: int, limit: int)
    returns (r: Result<seq<Row<Project>>>)
    ensures r.Err? <==> !IsAdmin(caller)
    ensures r.Err? ==> r.error == Forbidden
    ensures r.Ok? && userId == 0 ==> r.value == Page(db.projects, skip, limit)
    ensures r.Ok? && userId != 0 ==> r.value == Page(OwnedBy(db.projects, userId), skip, limit)
  {
    if !IsAdmin(caller) {
      return Err(Forbidden);
    }
    if userId == 0 {
      r := Ok(Page(db.projects, skip, limit));
    } else {
      r := Ok(Page(OwnedBy(db.projects, userId), skip, limit));
    }
  }
}

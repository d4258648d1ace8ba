/**
 * The cost endpoints: the listing filtered by project, creation guarded by
 * the existence of the project, the update of the fields sent, and deletion.
 */
module CostsRouter {
  import opened Base
  import opened Calendar
  import opened Seqs
  import opened Tables
  import opened CompanyModels
  import opened Schemas

  /** The costs of one project (`Cost.project_id == project_id`), in table order. */
  function OfProject(t: seq<Row<Cost>>, pid: int): (r: seq<Row<Cost>>)
    ensures forall i :: 0 <= i < |r| ==> r[i] in t && r[i].rec.projectId == pid
    ensures forall i :: 0 <= i < |t| && t[i].rec.projectId == pid ==> t[i] in r
  {
    var keep := (x: Row<Cost>) => x.rec.projectId == pid;
    FilterSpec(t, keep);
    Filter(t, keep)
  }

  /**
   * `get_costs`: restricted to one project only when `project_id` is given
   * and nonzero (a truthy value), then the `skip`/`limit` page.
   */
  method GetCosts(db: CompanyDb, projectId: Option<int>, skip: int, limit: int) returns (r: seq<Row<Cost>>)
    ensures projectId.Some? && projectId.value != 0 ==> r == Page(OfProject(db.costs, projectId.value), skip, limit)
    ensures projectId.None? || projectId.value == 0 ==> r == Page(db.costs, skip, limit)
    ensures forall i :: 0 <= i < |r| ==> r[i] in db.costs
    ensures projectId.Some? && projectId.value != 0 ==> forall i :: 0 <= i < |r| ==> r[i].rec.projectId == projectId.value
  {
    var rows := db.costs;
    if projectId.Some? && projectId.value != 0 {
      rows := OfProject(rows, projectId.value);
    }
    r := Page(rows, skip, limit);
    PageIn(rows, skip, limit);
  }

  /**
   * The row `create_cost` inserts (`Cost(**cost.dict())`): every validated
   * field as sent, except that a null for a column with a default stores the default.
   */
  function NewCost(c: CostCreate, now: Timestamp): (x: Cost)
    ensures x.projectId == c.projectId
    ensures x.date == c.date
    ensures x.vendor == c.vendor
    ensures x.description == c.description
    ensures x.amount == c.amount
    ensures c.taxType.Some? ==> x.taxType == c.taxType
    ensures c.taxType.None? ==> x.taxType == Some("included")
    ensures c.taxAmount.Some? ==> x.taxAmount == c.taxAmount
    ensures c.taxAmount.None? ==> x.taxAmount == Some(0)
    ensures x.totalAmount == c.totalAmount
    ensures c.category.Some? ==> x.category == c.category
    ensures c.category.None? ==> x.category == Some("材料費")
    ensures c.paymentStatus.Some? ==> x.paymentStatus == c.paymentStatus
    ensures c.paymentStatus.None? ==> x.paymentStatus == Some("unpaid")
    ensures x.paymentDate == c.paymentDate
    ensures x.createdAt == now
  {
    Cost(
      projectId := c.projectId,
      date := c.date,
      vendor := c.vendor,
      description := c.description,
      amount := c.amount,
      taxType := InsertValue(c.taxType, "included"),
      taxAmount := InsertValue(c.taxAmount, 0),
      totalAmount := c.totalAmount,
      category := InsertValue(c.category, "材料費"),
      paymentStatus := InsertValue(c.paymentStatus, "unpaid"),
      paymentDate := c.paymentDate,
      createdAt := now)
  }

  /** `setattr(row, key, value)` for one sent field. */
  function SetCostColumn(x: Cost, f: CostField): Cost
  {
    match f
    case SetProjectId(v) => x.(projectId := v)
    case SetDate(v) => x.(date := v)
    case SetVendor(v) => x.(vendor := v)
    case SetDescription(v) => x.(description := v)
    case SetAmount(v) => x.(amount := v)
    case SetTaxType(v) => x.(taxType := v)
    case SetTaxAmount(v) => x.(taxAmount := v)
    case SetTotalAmount(v) => x.(totalAmount := v)
    case SetCategory(v) => x.(category := v)
    case SetPaymentStatus(v) => x.(paymentStatus := v)
    case SetPaymentDate(v) => x.(paymentDate := v)
  }

  /** The row with every sent field replaced by the value sent, field by field. */
  function MergeCostUpdate(x: Cost, b: CostBody): Cost
  {
    x.(
      projectId := OrDefault(b.projectId, x.projectId),
      date := OrDefault(b.date, x.date),
      vendor := OrDefault(b.vendor, x.vendor),
      description := OrDefault(b.description, x.description),
      amount := OrDefault(b.amount, x.amount),
      taxType := OrDefault(b.taxType, x.taxType),
      taxAmount := OrDefault(b.taxAmount, x.taxAmount),
      totalAmount := OrDefault(b.totalAmount, x.totalAmount),
      category := OrDefault(b.category, x.category),
      paymentStatus := OrDefault(b.paymentStatus, x.paymentStatus),
      paymentDate := OrDefault(b.paymentDate, x.paymentDate))
  }

  lemma SetAttrCostUpdateProjectId(m: Cost, b: CostBody)
    ensures ApplyAll(m, SentCostFieldsFrom(b, 0), SetCostColumn) == ApplyAll(m.(projectId := OrDefault(b.projectId, m.projectId)), SentCostFieldsFrom(b, 1), SetCostColumn)
  {
    ApplyFront(m, CostFieldAt(b, 0), SentCostFieldsFrom(b, 1), SetCostColumn, m.(projectId := OrDefault(b.projectId, m.projectId)));
  }

  lemma SetAttrCostUpdateDate(m: Cost, b: CostBody)
    ensures ApplyAll(m, SentCostFieldsFrom(b, 1), SetCostColumn) == ApplyAll(m.(date := OrDefault(b.date, m.date)), SentCostFieldsFrom(b, 2), SetCostColumn)
  {
    ApplyFront(m, CostFieldAt(b, 1), SentCostFieldsFrom(b, 2), SetCostColumn, m.(date := OrDefault(b.date, m.date)));
  }

  lemma SetAttrCostUpdateVendor(m: Cost, b: CostBody)
    ensures ApplyAll(m, SentCostFieldsFrom(b, 2), SetCostColumn) == ApplyAll(m.(vendor := OrDefault(b.vendor, m.vendor)), SentCostFieldsFrom(b, 3), SetCostColumn)
  {
    ApplyFront(m, CostFieldAt(b, 2), SentCostFieldsFrom(b, 3), SetCostColumn, m.(vendor := OrDefault(b.vendor, m.vendor)));
  }

  lemma SetAttrCostUpdateDescription(m: Cost, b: CostBody)
    ensures ApplyAll(m, SentCostFieldsFrom(b, 3), SetCostColumn) == ApplyAll(m.(description := OrDefault(b.description, m.description)), SentCostFieldsFrom(b, 4), SetCostColumn)
  {
    ApplyFront(m, CostFieldAt(b, 3), SentCostFieldsFrom(b, 4), SetCostColumn, m.(description := OrDefault(b.description, m.description)));
  }

  lemma SetAttrCostUpdateAmount(m: Cost, b: CostBody)
    ensures ApplyAll(m, SentCostFieldsFrom(b, 4), SetCostColumn) == ApplyAll(m.(amount := OrDefault(b.amount, m.amount)), SentCostFieldsFrom(b, 5), SetCostColumn)
  {
    ApplyFront(m, CostFieldAt(b, 4), SentCostFieldsFrom(b, 5), SetCostColumn, m.(amount := OrDefault(b.amount, m.amount)));
  }

  lemma SetAttrCostUpdateTaxType(m: Cost, b: CostBody)
    ensures ApplyAll(m, SentCostFieldsFrom(b, 5), SetCostColumn) == ApplyAll(m.(taxType := OrDefault(b.taxType, m.taxType)), SentCostFieldsFrom(b, 6), SetCostColumn)
  {
    ApplyFront(m, CostFieldAt(b, 5), SentCostFieldsFrom(b, 6), SetCostColumn, m.(taxType := OrDefault(b.taxType, m.taxType)));
  }

  lemma SetAttrCostUpdateTaxAmount(m: Cost, b: CostBody)
    ensures ApplyAll(m, SentCostFieldsFrom(b, 6), SetCostColumn) == ApplyAll(m.(taxAmount := OrDefault(b.taxAmount, m.taxAmount)), SentCostFieldsFrom(b, 7), SetCostColumn)
  {
    ApplyFront(m, CostFieldAt(b, 6), SentCostFieldsFrom(b, 7), SetCostColumn, m.(taxAmount := OrDefault(b.taxAmount, m.taxAmount)));
  }

  lemma SetAttrCostUpdateTotalAmount(m: Cost, b: CostBody)
    ensures ApplyAll(m, SentCostFieldsFrom(b, 7), SetCostColumn) == ApplyAll(m.(totalAmount := OrDefault(b.totalAmount, m.totalAmount)), SentCostFieldsFrom(b, 8), SetCostColumn)
  {
    ApplyFront(m, CostFieldAt(b, 7), SentCostFieldsFrom(b, 8), SetCostColumn, m.(totalAmount := OrDefault(b.totalAmount, m.totalAmount)));
  }

  lemma SetAttrCostUpdateCategory(m: Cost, b: CostBody)
    ensures ApplyAll(m, SentCostFieldsFrom(b, 8), SetCostColumn) == ApplyAll(m.(category := OrDefault(b.category, m.category)), SentCostFieldsFrom(b, 9), SetCostColumn)
  {
    ApplyFront(m, CostFieldAt(b, 8), SentCostFieldsFrom(b, 9), SetCostColumn, m.(category := OrDefault(b.category, m.category)));
  }

  lemma SetAttrCostUpdatePaymentStatus(m: Cost, b: CostBody)
    ensures ApplyAll(m, SentCostFieldsFrom(b, 9), SetCostColumn) == ApplyAll(m.(paymentStatus := OrDefault(b.paymentStatus, m.paymentStatus)), SentCostFieldsFrom(b, 10), SetCostColumn)
  {
    ApplyFront(m, CostFieldAt(b, 9), SentCostFieldsFrom(b, 10), SetCostColumn, m.(paymentStatus := OrDefault(b.paymentStatus, m.paymentStatus)));
  }

  lemma SetAttrCostUpdatePaymentDate(m: Cost, b: CostBody)
    ensures ApplyAll(m, SentCostFieldsFrom(b, 10), SetCostColumn) == ApplyAll(m.(paymentDate := OrDefault(b.paymentDate, m.paymentDate)), SentCostFieldsFrom(b, 11), SetCostColumn)
  {
    ApplyFront(m, CostFieldAt(b, 10), SentCostFieldsFrom(b, 11), SetCostColumn, m.(paymentDate := OrDefault(b.paymentDate, m.paymentDate)));
  }

  /** The `setattr` loop over the sent fields yields the field-by-field merge: unsent fields keep their value. */
  lemma SetAttrCostUpdate(x: Cost, b: CostBody)
    ensures ApplyAll(x, SentCostFields(b), SetCostColumn) == MergeCostUpdate(x, b)
  {
    var m0 := x;
    var m1 := m0.(projectId := OrDefault(b.projectId, m0.projectId));
    SetAttrCostUpdateProjectId(m0, b);
    var m2 := m1.(date := OrDefault(b.date, m1.date));
    SetAttrCostUpdateDate(m1, b);
    var m3 := m2.(vendor := OrDefault(b.vendor, m2.vendor));
    SetAttrCostUpdateVendor(m2, b);
    var m4 := m3.(description := OrDefault(b.description, m3.description));
    SetAttrCostUpdateDescription(m3, b);
    var m5 := m4.(amount := OrDefault(b.amount, m4.amount));
    SetAttrCostUpdateAmount(m4, b);
    var m6 := m5.(taxType := OrDefault(b.taxType, m5.taxType));
    SetAttrCostUpdateTaxType(m5, b);
    var m7 := m6.(taxAmount := OrDefault(b.taxAmount, m6.taxAmount));
    SetAttrCostUpdateTaxAmount(m6, b);
    var m8 := m7.(totalAmount := OrDefault(b.totalAmount, m7.totalAmount));
    SetAttrCostUpdateTotalAmount(m7, b);
    var m9 := m8.(category := OrDefault(b.category, m8.category));
    SetAttrCostUpdateCategory(m8, b);
    var m10 := m9.(paymentStatus := OrDefault(b.paymentStatus, m9.paymentStatus));
    SetAttrCostUpdatePaymentStatus(m9, b);
    var m11 := m10.(paymentDate := OrDefault(b.paymentDate, m10.paymentDate));
    SetAttrCostUpdatePaymentDate(m10, b);
    assert ApplyAll(m11, SentCostFieldsFrom(b, 11), SetCostColumn) == m11;
    assert m11 == MergeCostUpdate(x, b);
  }

  /**
   * `create_cost`: a body lacking a required field is refused with 422; a `project_id` that names no project is refused with 403 and adds nothing;
   * otherwise exactly one row is appended under the next key.
   */
  method CreateCost(db: CompanyDb, body: CostBody, now: Timestamp) returns (r: Result<Row<Cost>>)
    requires db.Valid()
    modifies db
    ensures db.Valid()
    ensures r.Err? <==> !CostComplete(body) || !HasId(old(db.projects), body.projectId.value)
    ensures r.Err? && !CostComplete(body) ==> r.error == Unprocessable
    ensures r.Err? && CostComplete(body) ==> r.error == Forbidden
    ensures r.Err? ==> db.costs == old(db.costs)
    ensures r.Ok? ==> r.value == Row(NextId(old(db.costs)), NewCost(ValidateCost(body).value, now))
    ensures r.Ok? ==> db.costs == Insert(old(db.costs), r.value.rec)
    ensures r.Ok? ==> forall k :: Get(db.costs, k) == if k == r.value.id then Some(r.value.rec) else Get(old(db.costs), k)
    ensures db.projects == old(db.projects) && db.vendors == old(db.vendors) && db.categories == old(db.categories)
    ensures db.customers == old(db.customers) && db.settings == old(db.settings)
  {
    var v := ValidateCost(body);
    if v.Err? {
      return Err(v.error);
    }
    if !HasId(db.projects, v.value.projectId) {
      return Err(Forbidden);
    }
    var x := NewCost(v.value, now);
    var id := NextId(db.costs);
    forall k ensures Get(Insert(db.costs, x), k) == if k == id then Some(x) else Get(db.costs, k) {
      GetInsert(db.costs, x, k);
    }
    db.costs := Insert(db.costs, x);
    r := Ok(Row(id, x));
  }

  /**
   * `update_cost`: 422 for a body lacking a required field, 404 for an unknown key;
   * otherwise the fields sent are assigned in order and no other row changes.
   */
  method UpdateCost(db: CompanyDb, id: int, body: CostBody) returns (r: Result<Cost>)
    requires db.Valid()
    modifies db
    ensures db.Valid()
    ensures r.Err? <==> !CostComplete(body) || !HasId(old(db.costs), id)
    ensures r.Err? ==> db.costs == old(db.costs)
    ensures r.Err? && !CostComplete(body) ==> r.error == Unprocessable
    ensures r.Err? && CostComplete(body) ==> r.error == NotFound
    ensures r.Ok? ==> r.value == MergeCostUpdate(Get(old(db.costs), id).value, body)
    ensures r.Ok? ==> db.costs == Replace(old(db.costs), id, r.value)
    ensures r.Ok? ==> forall k :: Get(db.costs, k) == if k == id then Some(r.value) else Get(old(db.costs), k)
    ensures db.projects == old(db.projects) && db.vendors == old(db.vendors) && db.categories == old(db.categories)
    ensures db.customers == old(db.customers) && db.settings == old(db.settings)
  {
    var v := ValidateCost(body);
    if v.Err? {
      return Err(v.error);
    }
    var found := Get(db.costs, id);
    if found.None? {
      return Err(NotFound);
    }
    var x := SetAttrLoop(found.value, SentCostFields(body), SetCostColumn);
    SetAttrCostUpdate(found.value, body);
    ReplaceAscending(db.costs, id, x);
    forall k ensures Get(Replace(db.costs, id, x), k) == if k == id then Some(x) else Get(db.costs, k) {
      GetReplace(db.costs, id, x, k);
    }
    db.costs := Replace(db.costs, id, x);
    r := Ok(x);
  }

  /** `delete_cost`: 404 for an unknown key; otherwise exactly that row is removed. */
  method DeleteCost(db: CompanyDb, id: int) returns (r: Result<()>)
    requires db.Valid()
    modifies db
    ensures db.Valid()
    ensures r.Err? <==> !HasId(old(db.costs), id)
    ensures r.Err? ==> r.error == NotFound
    ensures r.Err? ==> db.costs == old(db.costs)
    ensures r.Ok? ==> db.costs == Remove(old(db.costs), id)
    ensures r.Ok? ==> forall k :: Get(db.costs, k) == if k == id then None else Get(old(db.costs), k)
    ensures db.projects == old(db.projects) && db.vendors == old(db.vendors) && db.categories == old(db.categories)
    ensures db.customers == old(db.customers) && db.settings == old(db.settings)
  {
    var found := Get(db.costs, id);
    if found.None? {
      return Err(NotFound);
    }
    RemoveAscending(db.costs, id);
    forall k ensures Get(Remove(db.costs, id), k) == if k == id then None else Get(db.costs, k) {
      GetRemove(db.costs, id, k);
    }
    db.costs := Remove(db.costs, id);
    r := Ok(());
  }
}

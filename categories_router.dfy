/**
 * The cost-category endpoints: the active listing in display order,
 * creation, and the update and deletion that a default category refuses.
 */
module CategoriesRouter {
  import opened Base
  import opened Calendar
  import opened Seqs
  import opened Tables
  import opened CompanyModels
  import opened Schemas

  /** The rows whose `is_active` is true (a NULL flag is not), in table order. */
  function ActiveCategories(t: seq<Row<CostCategory>>): (r: seq<Row<CostCategory>>)
    ensures forall i :: 0 <= i < |r| ==> r[i] in t && IsTrue(r[i].rec.isActive)
    ensures forall i :: 0 <= i < |t| && IsTrue(t[i].rec.isActive) ==> t[i] in r
  {
    var keep := (x: Row<CostCategory>) => IsTrue(x.rec.isActive);
    FilterSpec(t, keep);
    Filter(t, keep)
  }

  /** `order_by(display_order)`: ascending, with a NULL order before every number. */
  predicate DisplayOrderLe(a: Row<CostCategory>, b: Row<CostCategory>)
  {
    a.rec.displayOrder.None? || (b.rec.displayOrder.Some? && a.rec.displayOrder.value <= b.rec.displayOrder.value)
  }

  lemma DisplayOrderIsTotal()
    ensures TotalPreorder(DisplayOrderLe)
  {
  }

  /**
   * `get_categories`: exactly the active categories, ordered by
   * `display_order`; rows with equal order keep their table order.
   */
  method GetCategories(db: CompanyDb) returns (r: seq<Row<CostCategory>>)
    ensures r == SortBy(ActiveCategories(db.categories), DisplayOrderLe)
    ensures SortedBy(r, DisplayOrderLe)
    ensures multiset(r) == multiset(ActiveCategories(db.categories))
    ensures forall i :: 0 <= i < |r| ==> r[i] in db.categories && IsTrue(r[i].rec.isActive)
    ensures forall i :: 0 <= i < |db.categories| && IsTrue(db.categories[i].rec.isActive) ==> db.categories[i] in r
  {
    var active := ActiveCategories(db.categories);
    DisplayOrderIsTotal();
    SortBySorted(active, DisplayOrderLe);
    r := SortBy(active, DisplayOrderLe);
    forall i | 0 <= i < |r| ensures r[i] in active {
      assert r[i] in multiset(r);
    }
    forall i | 0 <= i < |db.categories| && IsTrue(db.categories[i].rec.isActive) ensures db.categories[i] in r {
      assert db.categories[i] in multiset(active);
    }
  }

  /**
   * The row `create_category` inserts (`CostCategory(**category.dict())`): every
   * validated field as sent, except that a null for a column with a default stores the default.
   */
  function NewCategory(c: CategoryCreate): (x: CostCategory)
    ensures x.name == c.name
    ensures x.color == c.color
    ensures c.displayOrder.Some? ==> x.displayOrder == c.displayOrder
    ensures c.displayOrder.None? ==> x.displayOrder == Some(999)
    ensures c.isDefault.Some? ==> x.isDefault == c.isDefault
    ensures c.isDefault.None? ==> x.isDefault == Some(false)
    ensures c.isActive.Some? ==> x.isActive == c.isActive
    ensures c.isActive.None? ==> x.isActive == Some(true)
  {
    CostCategory(
      name := c.name,
      color := c.color,
      displayOrder := InsertValue(c.displayOrder, 999),
      isDefault := InsertValue(c.isDefault, false),
      isActive := InsertValue(c.isActive, true))
  }

  /** `setattr(row, key, value)` for one sent field. */
  function SetCategoryColumn(x: CostCategory, f: CategoryField): CostCategory
  {
    match f
    case SetName(v) => x.(name := v)
    case SetColor(v) => x.(color := v)
    case SetDisplayOrder(v) => x.(displayOrder := v)
    case SetIsDefault(v) => x.(isDefault := v)
    case SetIsActive(v) => x.(isActive := v)
  }

  /** The row with every sent field replaced by the value sent, field by field. */
  function MergeCategoryUpdate(x: CostCategory, b: CategoryBody): CostCategory
  {
    x.(
      name := OrDefault(b.name, x.name),
      color := OrDefault(b.color, x.color),
      displayOrder := OrDefault(b.displayOrder, x.displayOrder),
      isDefault := OrDefault(b.isDefault, x.isDefault),
      isActive := OrDefault(b.isActive, x.isActive))
  }

  lemma SetAttrCategoryUpdateName(m: CostCategory, b: CategoryBody)
    ensures ApplyAll(m, SentCategoryFieldsFrom(b, 0), SetCategoryColumn) == ApplyAll(m.(name := OrDefault(b.name, m.name)), SentCategoryFieldsFrom(b, 1), SetCategoryColumn)
  {
    ApplyFront(m, CategoryFieldAt(b, 0), SentCategoryFieldsFrom(b, 1), SetCategoryColumn, m.(name := OrDefault(b.name, m.name)));
  }

  lemma SetAttrCategoryUpdateColor(m: CostCategory, b: CategoryBody)
    ensures ApplyAll(m, SentCategoryFieldsFrom(b, 1), SetCategoryColumn) == ApplyAll(m.(color := OrDefault(b.color, m.color)), SentCategoryFieldsFrom(b, 2), SetCategoryColumn)
  {
    ApplyFront(m, CategoryFieldAt(b, 1), SentCategoryFieldsFrom(b, 2), SetCategoryColumn, m.(color := OrDefault(b.color, m.color)));
  }

  lemma SetAttrCategoryUpdateDisplayOrder(m: CostCategory, b: CategoryBody)
    ensures ApplyAll(m, SentCategoryFieldsFrom(b, 2), SetCategoryColumn) == ApplyAll(m.(displayOrder := OrDefault(b.displayOrder, m.displayOrder)), SentCategoryFieldsFrom(b, 3), SetCategoryColumn)
  {
    ApplyFront(m, CategoryFieldAt(b, 2), SentCategoryFieldsFrom(b, 3), SetCategoryColumn, m.(displayOrder := OrDefault(b.displayOrder, m.displayOrder)));
  }

  lemma SetAttrCategoryUpdateIsDefault(m: CostCategory, b: CategoryBody)
    ensures ApplyAll(m, SentCategoryFieldsFrom(b, 3), SetCategoryColumn) == ApplyAll(m.(isDefault := OrDefault(b.isDefault, m.isDefault)), SentCategoryFieldsFrom(b, 4), SetCategoryColumn)
  {
    ApplyFront(m, CategoryFieldAt(b, 3), SentCategoryFieldsFrom(b, 4), SetCategoryColumn, m.(isDefault := OrDefault(b.isDefault, m.isDefault)));
  }

  lemma SetAttrCategoryUpdateIsActive(m: CostCategory, b: CategoryBody)
    ensures ApplyAll(m, SentCategoryFieldsFrom(b, 4), SetCategoryColumn) == ApplyAll(m.(isActive := OrDefault(b.isActive, m.isActive)), SentCategoryFieldsFrom(b, 5), SetCategoryColumn)
  {
    ApplyFront(m, CategoryFieldAt(b, 4), SentCategoryFieldsFrom(b, 5), SetCategoryColumn, m.(isActive := OrDefault(b.isActive, m.isActive)));
  }

  /** The `setattr` loop over the sent fields yields the field-by-field merge: unsent fields keep their value. */
  lemma SetAttrCategoryUpdate(x: CostCategory, b: CategoryBody)
    ensures ApplyAll(x, SentCategoryFields(b), SetCategoryColumn) == MergeCategoryUpdate(x, b)
  {
    var m0 := x;
    var m1 := m0.(name := OrDefault(b.name, m0.name));
    SetAttrCategoryUpdateName(m0, b);
    var m2 := m1.(color := OrDefault(b.color, m1.color));
    SetAttrCategoryUpdateColor(m1, b);
    var m3 := m2.(displayOrder := OrDefault(b.displayOrder, m2.displayOrder));
    SetAttrCategoryUpdateDisplayOrder(m2, b);
    var m4 := m3.(isDefault := OrDefault(b.isDefault, m3.isDefault));
    SetAttrCategoryUpdateIsDefault(m3, b);
    var m5 := m4.(isActive := OrDefault(b.isActive, m4.isActive));
    SetAttrCategoryUpdateIsActive(m4, b);
    assert ApplyAll(m5, SentCategoryFieldsFrom(b, 5), SetCategoryColumn) == m5;
    assert m5 == MergeCategoryUpdate(x, b);
  }

  /**
   * `create_category`: a body lacking a required field is refused with 422; otherwise
   * exactly one row is appended under the next key.
   */
  method CreateCategory(db: CompanyDb, body: CategoryBody) returns (r: Result<Row<CostCategory>>)
    requires db.Valid()
    modifies db
    ensures db.Valid()
    ensures r.Err? <==> !CategoryComplete(body)
    ensures r.Err? ==> r.error == Unprocessable
    ensures r.Err? ==> db.categories == old(db.categories)
    ensures r.Ok? ==> r.value == Row(NextId(old(db.categories)), NewCategory(ValidateCategory(body).value))
    ensures r.Ok? ==> db.categories == Insert(old(db.categories), r.value.rec)
    ensures r.Ok? ==> forall k :: Get(db.categories, k) == if k == r.value.id then Some(r.value.rec) else Get(old(db.categories), k)
    ensures db.projects == old(db.projects) && db.costs == old(db.costs) && db.vendors == old(db.vendors)
    ensures db.customers == old(db.customers) && db.settings == old(db.settings)
  {
    var v := ValidateCategory(body);
    if v.Err? {
      return Err(v.error);
    }
    var x := NewCategory(v.value);
    var id := NextId(db.categories);
    forall k ensures Get(Insert(db.categories, x), k) == if k == id then Some(x) else Get(db.categories, k) {
      GetInsert(db.categories, x, k);
    }
    db.categories := Insert(db.categories, x);
    r := Ok(Row(id, x));
  }

  /**
   * `update_category`: 422 for a body lacking a required field, 404 for an unknown key,
   * 403 for a default category (which stays as it was); otherwise the fields sent are assigned in order and
   * no other row changes.
   */
  method UpdateCategory(db: CompanyDb, id: int, body: CategoryBody) returns (r: Result<CostCategory>)
    requires db.Valid()
    modifies db
    ensures db.Valid()
    ensures r.Err? <==> !CategoryComplete(body) || !HasId(old(db.categories), id) || IsTrue(Get(old(db.categories), id).value.isDefault)
    ensures r.Err? ==> db.categories == old(db.categories)
    ensures r.Err? && !CategoryComplete(body) ==> r.error == Unprocessable
    ensures r.Err? && CategoryComplete(body) && !HasId(old(db.categories), id) ==> r.error == NotFound
    ensures r.Err? && CategoryComplete(body) && HasId(old(db.categories), id) ==> r.error == Forbidden
    ensures r.Ok? ==> r.value == MergeCategoryUpdate(Get(old(db.categories), id).value, body)
    ensures r.Ok? ==> db.categories == Replace(old(db.categories), id, r.value)
    ensures r.Ok? ==> forall k :: Get(db.categories, k) == if k == id then Some(r.value) else Get(old(db.categories), k)
    ensures db.projects == old(db.projects) && db.costs == old(db.costs) && db.vendors == old(db.vendors)
    ensures db.customers == old(db.customers) && db.settings == old(db.settings)
  {
    var v := ValidateCategory(body);
    if v.Err? {
      return Err(v.error);
    }
    var found := Get(db.categories, id);
    if found.None? {
      return Err(NotFound);
    }
    if IsTrue(found.value.isDefault) {
      return Err(Forbidden);
    }
    var x := SetAttrLoop(found.value, SentCategoryFields(body), SetCategoryColumn);
    SetAttrCategoryUpdate(found.value, body);
    ReplaceAscending(db.categories, id, x);
    forall k ensures Get(Replace(db.categories, id, x), k) == if k == id then Some(x) else Get(db.categories, k) {
      GetReplace(db.categories, id, x, k);
    }
    db.categories := Replace(db.categories, id, x);
    r := Ok(x);
  }

  /**
   * `delete_category`: 404 for an unknown key, 400 for a default category (which stays); otherwise exactly that
   * row is removed.
   */
  method DeleteCategory(db: CompanyDb, id: int) returns (r: Result<()>)
    requires db.Valid()
    modifies db
    ensures db.Valid()
    ensures r.Err? <==> !HasId(old(db.categories), id) || IsTrue(Get(old(db.categories), id).value.isDefault)
    ensures r.Err? && !HasId(old(db.categories), id) ==> r.error == NotFound
    ensures r.Err? && HasId(old(db.categories), id) ==> r.error == BadRequest
    ensures r.Err? ==> db.categories == old(db.categories)
    ensures r.Ok? ==> db.categories == Remove(old(db.categories), id)
    ensures r.Ok? ==> forall k :: Get(db.categories, k) == if k == id then None else Get(old(db.categories), k)
    ensures db.projects == old(db.projects) && db.costs == old(db.costs) && db.vendors == old(db.vendors)
    ensures db.customers == old(db.customers) && db.settings == old(db.settings)
  {
    var found := Get(db.categories, id);
    if found.None? {
      return Err(NotFound);
    }
    if IsTrue(found.value.isDefault) {
      return Err(BadRequest);
    }
    RemoveAscending(db.categories, id);
    forall k ensures Get(Remove(db.categories, id), k) == if k == id then None else Get(db.categories, k) {
      GetRemove(db.categories, id, k);
    }
    db.categories := Remove(db.categories, id);
    r := Ok(());
  }
}

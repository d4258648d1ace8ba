/**
 * The vendor endpoints: the active listing, creation, the update of the
 * fields sent, and deletion.
 */
module VendorsRouter {
  import opened Base
  import opened Calendar
  import opened Seqs
  import opened Tables
  import opened CompanyModels
  import opened Schemas

  /** The rows whose `is_active` is true (a NULL flag is not), in table order. */
  function ActiveVendors(t: seq<Row<Vendor>>): (r: seq<Row<Vendor>>)
    ensures forall i :: 0 <= i < |r| ==> r[i] in t && IsTrue(r[i].rec.isActive)
    ensures forall i :: 0 <= i < |t| && IsTrue(t[i].rec.isActive) ==> t[i] in r
  {
    var keep := (x: Row<Vendor>) => IsTrue(x.rec.isActive);
    FilterSpec(t, keep);
    Filter(t, keep)
  }

  /** `get_vendors`: the active rows, in table order. */
  method GetVendors(db: CompanyDb) returns (r: seq<Row<Vendor>>)
    ensures r == ActiveVendors(db.vendors)
    ensures forall i :: 0 <= i < |r| ==> r[i] in db.vendors && IsTrue(r[i].rec.isActive)
    ensures forall i :: 0 <= i < |db.vendors| && IsTrue(db.vendors[i].rec.isActive) ==> db.vendors[i] in r
  {
    r := ActiveVendors(db.vendors);
  }

  /**
   * The row `create_vendor` inserts (`Vendor(**vendor.dict())`): every validated
   * field as sent, except that a null for a column with a default stores the default.
   */
  function NewVendor(c: VendorCreate): (x: Vendor)
    ensures x.name == c.name
    ensures x.category == c.category
    ensures x.phone == c.phone
    ensures x.email == c.email
    ensures c.defaultTaxType.Some? ==> x.defaultTaxType == c.defaultTaxType
    ensures c.defaultTaxType.None? ==> x.defaultTaxType == Some("included")
    ensures x.paymentTerms == c.paymentTerms
    ensures x.notes == c.notes
    ensures c.isActive.Some? ==> x.isActive == c.isActive
    ensures c.isActive.None? ==> x.isActive == Some(true)
    ensures c.isFavorite.Some? ==> x.isFavorite == c.isFavorite
    ensures c.isFavorite.None? ==> x.isFavorite == Some(false)
  {
    Vendor(
      name := c.name,
      category := c.category,
      phone := c.phone,
      email := c.email,
      defaultTaxType := InsertValue(c.defaultTaxType, "included"),
      paymentTerms := c.paymentTerms,
      notes := c.notes,
      isActive := InsertValue(c.isActive, true),
      isFavorite := InsertValue(c.isFavorite, false))
  }

  /** `setattr(row, key, value)` for one sent field. */
  function SetVendorColumn(x: Vendor, f: VendorField): Vendor
  {
    match f
    case SetName(v) => x.(name := v)
    case SetCategory(v) => x.(category := v)
    case SetPhone(v) => x.(phone := v)
    case SetEmail(v) => x.(email := v)
    case SetDefaultTaxType(v) => x.(defaultTaxType := v)
    case SetPaymentTerms(v) => x.(paymentTerms := v)
    case SetNotes(v) => x.(notes := v)
    case SetIsActive(v) => x.(isActive := v)
    case SetIsFavorite(v) => x.(isFavorite := v)
  }

  /** The row with every sent field replaced by the value sent, field by field. */
  function MergeVendorUpdate(x: Vendor, b: VendorBody): Vendor
  {
    x.(
      name := OrDefault(b.name, x.name),
      category := OrDefault(b.category, x.category),
      phone := OrDefault(b.phone, x.phone),
      email := OrDefault(b.email, x.email),
      defaultTaxType := OrDefault(b.defaultTaxType, x.defaultTaxType),
      paymentTerms := OrDefault(b.paymentTerms, x.paymentTerms),
      notes := OrDefault(b.notes, x.notes),
      isActive := OrDefault(b.isActive, x.isActive),
      isFavorite := OrDefault(b.isFavorite, x.isFavorite))
  }

  lemma SetAttrVendorUpdateName(m: Vendor, b: VendorBody)
    ensures ApplyAll(m, SentVendorFieldsFrom(b, 0), SetVendorColumn) == ApplyAll(m.(name := OrDefault(b.name, m.name)), SentVendorFieldsFrom(b, 1), SetVendorColumn)
  {
    ApplyFront(m, VendorFieldAt(b, 0), SentVendorFieldsFrom(b, 1), SetVendorColumn, m.(name := OrDefault(b.name, m.name)));
  }

  lemma SetAttrVendorUpdateCategory(m: Vendor, b: VendorBody)
    ensures ApplyAll(m, SentVendorFieldsFrom(b, 1), SetVendorColumn) == ApplyAll(m.(category := OrDefault(b.category, m.category)), SentVendorFieldsFrom(b, 2), SetVendorColumn)
  {
    ApplyFront(m, VendorFieldAt(b, 1), SentVendorFieldsFrom(b, 2), SetVendorColumn, m.(category := OrDefault(b.category, m.category)));
  }

  lemma SetAttrVendorUpdatePhone(m: Vendor, b: VendorBody)
    ensures ApplyAll(m, SentVendorFieldsFrom(b, 2), SetVendorColumn) == ApplyAll(m.(phone := OrDefault(b.phone, m.phone)), SentVendorFieldsFrom(b, 3), SetVendorColumn)
  {
    ApplyFront(m, VendorFieldAt(b, 2), SentVendorFieldsFrom(b, 3), SetVendorColumn, m.(phone := OrDefault(b.phone, m.phone)));
  }

  lemma SetAttrVendorUpdateEmail(m: Vendor, b: VendorBody)
    ensures ApplyAll(m, SentVendorFieldsFrom(b, 3), SetVendorColumn) == ApplyAll(m.(email := OrDefault(b.email, m.email)), SentVendorFieldsFrom(b, 4), SetVendorColumn)
  {
    ApplyFront(m, VendorFieldAt(b, 3), SentVendorFieldsFrom(b, 4), SetVendorColumn, m.(email := OrDefault(b.email, m.email)));
  }

  lemma SetAttrVendorUpdateDefaultTaxType(m: Vendor, b: VendorBody)
    ensures ApplyAll(m, SentVendorFieldsFrom(b, 4), SetVendorColumn) == ApplyAll(m.(defaultTaxType := OrDefault(b.defaultTaxType, m.defaultTaxType)), SentVendorFieldsFrom(b, 5), SetVendorColumn)
  {
    ApplyFront(m, VendorFieldAt(b, 4), SentVendorFieldsFrom(b, 5), SetVendorColumn, m.(defaultTaxType := OrDefault(b.defaultTaxType, m.defaultTaxType)));
  }

  lemma SetAttrVendorUpdatePaymentTerms(m: Vendor, b: VendorBody)
    ensures ApplyAll(m, SentVendorFieldsFrom(b, 5), SetVendorColumn) == ApplyAll(m.(paymentTerms := OrDefault(b.paymentTerms, m.paymentTerms)), SentVendorFieldsFrom(b, 6), SetVendorColumn)
  {
    ApplyFront(m, VendorFieldAt(b, 5), SentVendorFieldsFrom(b, 6), SetVendorColumn, m.(paymentTerms := OrDefault(b.paymentTerms, m.paymentTerms)));
  }

  lemma SetAttrVendorUpdateNotes(m: Vendor, b: VendorBody)
    ensures ApplyAll(m, SentVendorFieldsFrom(b, 6), SetVendorColumn) == ApplyAll(m.(notes := OrDefault(b.notes, m.notes)), SentVendorFieldsFrom(b, 7), SetVendorColumn)
  {
    ApplyFront(m, VendorFieldAt(b, 6), SentVendorFieldsFrom(b, 7), SetVendorColumn, m.(notes := OrDefault(b.notes, m.notes)));
  }

  lemma SetAttrVendorUpdateIsActive(m: Vendor, b: VendorBody)
    ensures ApplyAll(m, SentVendorFieldsFrom(b, 7), SetVendorColumn) == ApplyAll(m.(isActive := OrDefault(b.isActive, m.isActive)), SentVendorFieldsFrom(b, 8), SetVendorColumn)
  {
    ApplyFront(m, VendorFieldAt(b, 7), SentVendorFieldsFrom(b, 8), SetVendorColumn, m.(isActive := OrDefault(b.isActive, m.isActive)));
  }

  lemma SetAttrVendorUpdateIsFavorite(m: Vendor, b: VendorBody)
    ensures ApplyAll(m, SentVendorFieldsFrom(b, 8), SetVendorColumn) == ApplyAll(m.(isFavorite := OrDefault(b.isFavorite, m.isFavorite)), SentVendorFieldsFrom(b, 9), SetVendorColumn)
  {
    ApplyFront(m, VendorFieldAt(b, 8), SentVendorFieldsFrom(b, 9), SetVendorColumn, m.(isFavorite := OrDefault(b.isFavorite, m.isFavorite)));
  }

  /** The `setattr` loop over the sent fields yields the field-by-field merge: unsent fields keep their value. */
  lemma SetAttrVendorUpdate(x: Vendor, b: VendorBody)
    ensures ApplyAll(x, SentVendorFields(b), SetVendorColumn) == MergeVendorUpdate(x, b)
  {
    var m0 := x;
    var m1 := m0.(name := OrDefault(b.name, m0.name));
    SetAttrVendorUpdateName(m0, b);
    var m2 := m1.(category := OrDefault(b.category, m1.category));
    SetAttrVendorUpdateCategory(m1, b);
    var m3 := m2.(phone := OrDefault(b.phone, m2.phone));
    SetAttrVendorUpdatePhone(m2, b);
    var m4 := m3.(email := OrDefault(b.email, m3.email));
    SetAttrVendorUpdateEmail(m3, b);
    var m5 := m4.(defaultTaxType := OrDefault(b.defaultTaxType, m4.defaultTaxType));
    SetAttrVendorUpdateDefaultTaxType(m4, b);
    var m6 := m5.(paymentTerms := OrDefault(b.paymentTerms, m5.paymentTerms));
    SetAttrVendorUpdatePaymentTerms(m5, b);
    var m7 := m6.(notes := OrDefault(b.notes, m6.notes));
    SetAttrVendorUpdateNotes(m6, b);
    var m8 := m7.(isActive := OrDefault(b.isActive, m7.isActive));
    SetAttrVendorUpdateIsActive(m7, b);
    var m9 := m8.(isFavorite := OrDefault(b.isFavorite, m8.isFavorite));
    SetAttrVendorUpdateIsFavorite(m8, b);
    assert ApplyAll(m9, SentVendorFieldsFrom(b, 9), SetVendorColumn) == m9;
    assert m9 == MergeVendorUpdate(x, b);
  }

  /**
   * `create_vendor`: a body lacking a required field is refused with 422; otherwise
   * exactly one row is appended under the next key.
   */
  method CreateVendor(db: CompanyDb, body: VendorBody) returns (r: Result<Row<Vendor>>)
    requires db.Valid()
    modifies db
    ensures db.Valid()
    ensures r.Err? <==> !VendorComplete(body)
    ensures r.Err? ==> r.error == Unprocessable
    ensures r.Err? ==> db.vendors == old(db.vendors)
    ensures r.Ok? ==> r.value == Row(NextId(old(db.vendors)), NewVendor(ValidateVendor(body).value))
    ensures r.Ok? ==> db.vendors == Insert(old(db.vendors), r.value.rec)
    ensures r.Ok? ==> forall k :: Get(db.vendors, k) == if k == r.value.id then Some(r.value.rec) else Get(old(db.vendors), k)
    ensures db.projects == old(db.projects) && db.costs == old(db.costs) && db.categories == old(db.categories)
    ensures db.customers == old(db.customers) && db.settings == old(db.settings)
  {
    var v := ValidateVendor(body);
    if v.Err? {
      return Err(v.error);
    }
    var x := NewVendor(v.value);
    var id := NextId(db.vendors);
    forall k ensures Get(Insert(db.vendors, x), k) == if k == id then Some(x) else Get(db.vendors, k) {
      GetInsert(db.vendors, x, k);
    }
    db.vendors := Insert(db.vendors, x);
    r := Ok(Row(id, x));
  }

  /**
   * `update_vendor`: 422 for a body lacking a required field, 404 for an unknown key;
   * otherwise the fields sent are assigned in order and no other row changes.
   */
  method UpdateVendor(db: CompanyDb, id: int, body: VendorBody) returns (r: Result<Vendor>)
    requires db.Valid()
    modifies db
    ensures db.Valid()
    ensures r.Err? <==> !VendorComplete(body) || !HasId(old(db.vendors), id)
    ensures r.Err? ==> db.vendors == old(db.vendors)
    ensures r.Err? && !VendorComplete(body) ==> r.error == Unprocessable
    ensures r.Err? && VendorComplete(body) ==> r.error == NotFound
    ensures r.Ok? ==> r.value == MergeVendorUpdate(Get(old(db.vendors), id).value, body)
    ensures r.Ok? ==> db.vendors == Replace(old(db.vendors), id, r.value)
    ensures r.Ok? ==> forall k :: Get(db.vendors, k) == if k == id then Some(r.value) else Get(old(db.vendors), k)
    ensures db.projects == old(db.projects) && db.costs == old(db.costs) && db.categories == old(db.categories)
    ensures db.customers == old(db.customers) && db.settings == old(db.settings)
  {
    var v := ValidateVendor(body);
    if v.Err? {
      return Err(v.error);
    }
    var found := Get(db.vendors, id);
    if found.None? {
      return Err(NotFound);
    }
    var x := SetAttrLoop(found.value, SentVendorFields(body), SetVendorColumn);
    SetAttrVendorUpdate(found.value, body);
    ReplaceAscending(db.vendors, id, x);
    forall k ensures Get(Replace(db.vendors, id, x), k) == if k == id then Some(x) else Get(db.vendors, k) {
      GetReplace(db.vendors, id, x, k);
    }
    db.vendors := Replace(db.vendors, id, x);
    r := Ok(x);
  }

  /** `delete_vendor`: 404 for an unknown key; otherwise exactly that row is removed. */
  method DeleteVendor(db: CompanyDb, id: int) returns (r: Result<()>)
    requires db.Valid()
    modifies db
    ensures db.Valid()
    ensures r.Err? <==> !HasId(old(db.vendors), id)
    ensures r.Err? ==> r.error == NotFound
    ensures r.Err? ==> db.vendors == old(db.vendors)
    ensures r.Ok? ==> db.vendors == Remove(old(db.vendors), id)
    ensures r.Ok? ==> forall k :: Get(db.vendors, k) == if k == id then None else Get(old(db.vendors), k)
    ensures db.projects == old(db.projects) && db.costs == old(db.costs) && db.categories == old(db.categories)
    ensures db.customers == old(db.customers) && db.settings == old(db.settings)
  {
    var found := Get(db.vendors, id);
    if found.None? {
      return Err(NotFound);
    }
    RemoveAscending(db.vendors, id);
    forall k ensures Get(Remove(db.vendors, id), k) == if k == id then None else Get(db.vendors, k) {
      GetRemove(db.vendors, id, k);
    }
    db.vendors := Remove(db.vendors, id);
    r := Ok(());
  }
}

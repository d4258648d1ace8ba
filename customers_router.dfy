/**
 * The customer endpoints: the active listing, creation, the update of the
 * fields sent, and deletion.
 */
module CustomersRouter {
  import opened Base
  import opened Calendar
  import opened Seqs
  import opened Tables
  import opened CompanyModels
  import opened Schemas

  /** The rows whose `is_active` is true (a NULL flag is not), in table order. */
  function ActiveCustomers(t: seq<Row<Customer>>): (r: seq<Row<Customer>>)
    ensures forall i :: 0 <= i < |r| ==> r[i] in t && IsTrue(r[i].rec.isActive)
    ensures forall i :: 0 <= i < |t| && IsTrue(t[i].rec.isActive) ==> t[i] in r
  {
    var keep := (x: Row<Customer>) => IsTrue(x.rec.isActive);
    FilterSpec(t, keep);
    Filter(t, keep)
  }

  /** `get_customers`: the active rows, in table order. */
  method GetCustomers(db: CompanyDb) returns (r: seq<Row<Customer>>)
    ensures r == ActiveCustomers(db.customers)
    ensures forall i :: 0 <= i < |r| ==> r[i] in db.customers && IsTrue(r[i].rec.isActive)
    ensures forall i :: 0 <= i < |db.customers| && IsTrue(db.customers[i].rec.isActive) ==> db.customers[i] in r
  {
    r := ActiveCustomers(db.customers);
  }

  /**
   * The row `create_customer` inserts (`Customer(**customer.dict())`): every validated
   * field as sent, except that a null for a column with a default stores the default.
   */
  function NewCustomer(c: CustomerCreate): (x: Customer)
    ensures x.name == c.name
    ensures x.phone == c.phone
    ensures x.email == c.email
    ensures x.address == c.address
    ensures x.contactPerson == c.contactPerson
    ensures x.notes == c.notes
    ensures c.isActive.Some? ==> x.isActive == c.isActive
    ensures c.isActive.None? ==> x.isActive == Some(true)
  {
    Customer(
      name := c.name,
      phone := c.phone,
      email := c.email,
      address := c.address,
      contactPerson := c.contactPerson,
      notes := c.notes,
      isActive := InsertValue(c.isActive, true))
  }

  /** `setattr(row, key, value)` for one sent field. */
  function SetCustomerColumn(x: Customer, f: CustomerField): Customer
  {
    match f
    case SetName(v) => x.(name := v)
    case SetPhone(v) => x.(phone := v)
    case SetEmail(v) => x.(email := v)
    case SetAddress(v) => x.(address := v)
    case SetContactPerson(v) => x.(contactPerson := v)
    case SetNotes(v) => x.(notes := v)
    case SetIsActive(v) => x.(isActive := v)
  }

  /** The row with every sent field replaced by the value sent, field by field. */
  function MergeCustomerUpdate(x: Customer, b: CustomerBody): Customer
  {
    x.(
      name := OrDefault(b.name, x.name),
      phone := OrDefault(b.phone, x.phone),
      email := OrDefault(b.email, x.email),
      address := OrDefault(b.address, x.address),
      contactPerson := OrDefault(b.contactPerson, x.contactPerson),
      notes := OrDefault(b.notes, x.notes),
      isActive := OrDefault(b.isActive, x.isActive))
  }

  lemma SetAttrCustomerUpdateName(m: Customer, b: CustomerBody)
    ensures ApplyAll(m, SentCustomerFieldsFrom(b, 0), SetCustomerColumn) == ApplyAll(m.(name := OrDefault(b.name, m.name)), SentCustomerFieldsFrom(b, 1), SetCustomerColumn)
  {
    ApplyFront(m, CustomerFieldAt(b, 0), SentCustomerFieldsFrom(b, 1), SetCustomerColumn, m.(name := OrDefault(b.name, m.name)));
  }

  lemma SetAttrCustomerUpdatePhone(m: Customer, b: CustomerBody)
    ensures ApplyAll(m, SentCustomerFieldsFrom(b, 1), SetCustomerColumn) == ApplyAll(m.(phone := OrDefault(b.phone, m.phone)), SentCustomerFieldsFrom(b, 2), SetCustomerColumn)
  {
    ApplyFront(m, CustomerFieldAt(b, 1), SentCustomerFieldsFrom(b, 2), SetCustomerColumn, m.(phone := OrDefault(b.phone, m.phone)));
  }

  lemma SetAttrCustomerUpdateEmail(m: Customer, b: CustomerBody)
    ensures ApplyAll(m, SentCustomerFieldsFrom(b, 2), SetCustomerColumn) == ApplyAll(m.(email := OrDefault(b.email, m.email)), SentCustomerFieldsFrom(b, 3), SetCustomerColumn)
  {
    ApplyFront(m, CustomerFieldAt(b, 2), SentCustomerFieldsFrom(b, 3), SetCustomerColumn, m.(email := OrDefault(b.email, m.email)));
  }

  lemma SetAttrCustomerUpdateAddress(m: Customer, b: CustomerBody)
    ensures ApplyAll(m, SentCustomerFieldsFrom(b, 3), SetCustomerColumn) == ApplyAll(m.(address := OrDefault(b.address, m.address)), SentCustomerFieldsFrom(b, 4), SetCustomerColumn)
  {
    ApplyFront(m, CustomerFieldAt(b, 3), SentCustomerFieldsFrom(b, 4), SetCustomerColumn, m.(address := OrDefault(b.address, m.address)));
  }

  lemma SetAttrCustomerUpdateContactPerson(m: Customer, b: CustomerBody)
    ensures ApplyAll(m, SentCustomerFieldsFrom(b, 4), SetCustomerColumn) == ApplyAll(m.(contactPerson := OrDefault(b.contactPerson, m.contactPerson)), SentCustomerFieldsFrom(b, 5), SetCustomerColumn)
  {
    ApplyFront(m, CustomerFieldAt(b, 4), SentCustomerFieldsFrom(b, 5), SetCustomerColumn, m.(contactPerson := OrDefault(b.contactPerson, m.contactPerson)));
  }

  lemma SetAttrCustomerUpdateNotes(m: Customer, b: CustomerBody)
    ensures ApplyAll(m, SentCustomerFieldsFrom(b, 5), SetCustomerColumn) == ApplyAll(m.(notes := OrDefault(b.notes, m.notes)), SentCustomerFieldsFrom(b, 6), SetCustomerColumn)
  {
    ApplyFront(m, CustomerFieldAt(b, 5), SentCustomerFieldsFrom(b, 6), SetCustomerColumn, m.(notes := OrDefault(b.notes, m.notes)));
  }

  lemma SetAttrCustomerUpdateIsActive(m: Customer, b: CustomerBody)
    ensures ApplyAll(m, SentCustomerFieldsFrom(b, 6), SetCustomerColumn) == ApplyAll(m.(isActive := OrDefault(b.isActive, m.isActive)), SentCustomerFieldsFrom(b, 7), SetCustomerColumn)
  {
    ApplyFront(m, CustomerFieldAt(b, 6), SentCustomerFieldsFrom(b, 7), SetCustomerColumn, m.(isActive := OrDefault(b.isActive, m.isActive)));
  }

  /** The `setattr` loop over the sent fields yields the field-by-field merge: unsent fields keep their value. */
  lemma SetAttrCustomerUpdate(x: Customer, b: CustomerBody)
    ensures ApplyAll(x, SentCustomerFields(b), SetCustomerColumn) == MergeCustomerUpdate(x, b)
  {
    var m0 := x;
    var m1 := m0.(name := OrDefault(b.name, m0.name));
    SetAttrCustomerUpdateName(m0, b);
    var m2 := m1.(phone := OrDefault(b.phone, m1.phone));
    SetAttrCustomerUpdatePhone(m1, b);
    var m3 := m2.(email := OrDefault(b.email, m2.email));
    SetAttrCustomerUpdateEmail(m2, b);
    var m4 := m3.(address := OrDefault(b.address, m3.address));
    SetAttrCustomerUpdateAddress(m3, b);
    var m5 := m4.(contactPerson := OrDefault(b.contactPerson, m4.contactPerson));
    SetAttrCustomerUpdateContactPerson(m4, b);
    var m6 := m5.(notes := OrDefault(b.notes, m5.notes));
    SetAttrCustomerUpdateNotes(m5, b);
    var m7 := m6.(isActive := OrDefault(b.isActive, m6.isActive));
    SetAttrCustomerUpdateIsActive(m6, b);
    assert ApplyAll(m7, SentCustomerFieldsFrom(b, 7), SetCustomerColumn) == m7;
    assert m7 == MergeCustomerUpdate(x, b);
  }

  /**
   * `create_customer`: a body lacking a required field is refused with 422; otherwise
   * exactly one row is appended under the next key.
   */
  method CreateCustomer(db: CompanyDb, body: CustomerBody) returns (r: Result<Row<Customer>>)
    requires db.Valid()
    modifies db
    ensures db.Valid()
    ensures r.Err? <==> !CustomerComplete(body)
    ensures r.Err? ==> r.error == Unprocessable
    ensures r.Err? ==> db.customers == old(db.customers)
    ensures r.Ok? ==> r.value == Row(NextId(old(db.customers)), NewCustomer(ValidateCustomer(body).value))
    ensures r.Ok? ==> db.customers == Insert(old(db.customers), r.value.rec)
    ensures r.Ok? ==> forall k :: Get(db.customers, k) == if k == r.value.id then Some(r.value.rec) else Get(old(db.customers), k)
    ensures db.projects == old(db.projects) && db.costs == old(db.costs) && db.vendors == old(db.vendors)
    ensures db.categories == old(db.categories) && db.settings == old(db.settings)
  {
    var v := ValidateCustomer(body);
    if v.Err? {
      return Err(v.error);
    }
    var x := NewCustomer(v.value);
    var id := NextId(db.customers);
    forall k ensures Get(Insert(db.customers, x), k) == if k == id then Some(x) else Get(db.customers, k) {
      GetInsert(db.customers, x, k);
    }
    db.customers := Insert(db.customers, x);
    r := Ok(Row(id, x));
  }

  /**
   * `update_customer`: 422 for a body lacking a required field, 404 for an unknown key;
   * otherwise the fields sent are assigned in order and no other row changes.
   */
  method UpdateCustomer(db: CompanyDb, id: int, body: CustomerBody) returns (r: Result<Customer>)
    requires db.Valid()
    modifies db
    ensures db.Valid()
    ensures r.Err? <==> !CustomerComplete(body) || !HasId(old(db.customers), id)
    ensures r.Err? ==> db.customers == old(db.customers)
    ensures r.Err? && !CustomerComplete(body) ==> r.error == Unprocessable
    ensures r.Err? && CustomerComplete(body) ==> r.error == NotFound
    ensures r.Ok? ==> r.value == MergeCustomerUpdate(Get(old(db.customers), id).value, body)
    ensures r.Ok? ==> db.customers == Replace(old(db.customers), id, r.value)
    ensures r.Ok? ==> forall k :: Get(db.customers, k) == if k == id then Some(r.value) else Get(old(db.customers), k)
    ensures db.projects == old(db.projects) && db.costs == old(db.costs) && db.vendors == old(db.vendors)
    ensures db.categories == old(db.categories) && db.settings == old(db.settings)
  {
    var v := ValidateCustomer(body);
    if v.Err? {
      return Err(v.error);
    }
    var found := Get(db.customers, id);
    if found.None? {
      return Err(NotFound);
    }
    var x := SetAttrLoop(found.value, SentCustomerFields(body), SetCustomerColumn);
    SetAttrCustomerUpdate(found.value, body);
    ReplaceAscending(db.customers, id, x);
    forall k ensures Get(Replace(db.customers, id, x), k) == if k == id then Some(x) else Get(db.customers, k) {
      GetReplace(db.customers, id, x, k);
    }
    db.customers := Replace(db.customers, id, x);
    r := Ok(x);
  }

  /** `delete_customer`: 404 for an unknown key; otherwise exactly that row is removed. */
  method DeleteCustomer(db: CompanyDb, id: int) returns (r: Result<()>)
    requires db.Valid()
    modifies db
    ensures db.Valid()
    ensures r.Err? <==> !HasId(old(db.customers), id)
    ensures r.Err? ==> r.error == NotFound
    ensures r.Err? ==> db.customers == old(db.customers)
    ensures r.Ok? ==> db.customers == Remove(old(db.customers), id)
    ensures r.Ok? ==> forall k :: Get(db.customers, k) == if k == id then None else Get(old(db.customers), k)
    ensures db.projects == old(db.projects) && db.costs == old(db.costs) && db.vendors == old(db.vendors)
    ensures db.categories == old(db.categories) && db.settings == old(db.settings)
  {
    var found := Get(db.customers, id);
    if found.None? {
      return Err(NotFound);
    }
    RemoveAscending(db.customers, id);
    forall k ensures Get(Remove(db.customers, id), k) == if k == id then None else Get(db.customers, k) {
      GetRemove(db.customers, id, k);
    }
    db.customers := Remove(db.customers, id);
    r := Ok(());
  }
}

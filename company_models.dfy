/**
 * The tables of one company's database: the record of each row, with the
 * column defaults as constructor defaults, and the database object whose
 * tables the routers update.
 *
 * A nullable column is an `Option`. When a row is inserted, a column given
 * `None` receives its default (the ORM leaves `None` values out of the
 * INSERT); an UPDATE that sets `None` stores NULL.
 */
module CompanyModels {
  import opened Base
  import opened Calendar
  import opened Tables

  const MaterialCosts: string := "材料費"

  /** The project statuses the application uses; the column accepts any string. */
  const StatusActive: string := "active"
  const StatusCompleted: string := "completed"
  const StatusCancelled: string := "cancelled"
  const StatusGeneralExpense: string := "general_expense"

  datatype Project = Project(
    userId: Option<int> := None,
    projectCode: string,
    period: Option<int> := None,
    isGeneralExpense: Option<bool> := Some(false),
    name: string,
    clientName: Option<string> := None,
    estimateNumber: Option<string> := None,
    contractAmount: Option<int> := Some(0),
    taxType: Option<string> := Some("included"),
    taxRate: Option<int> := Some(10),
    status: Option<string> := Some(StatusActive),
    startDate: Option<Date> := None,
    endDate: Option<Date> := None,
    invoiceDate: Option<Date> := None,
    paymentDate: Option<Date> := None,
    notes: Option<string> := None,
    createdAt: Timestamp)

  datatype Cost = Cost(
    projectId: int,
    date: Date,
    vendor: string,
    description: Option<string> := None,
    amount: int,
    taxType: Option<string> := Some("included"),
    taxAmount: Option<int> := Some(0),
    totalAmount: int,
    category: Option<string> := Some(MaterialCosts),
    paymentStatus: Option<string> := Some("unpaid"),
    paymentDate: Option<Date> := None,
    createdAt: Timestamp)

  datatype Vendor = Vendor(
    name: string,
    category: Option<string> := None,
    phone: Option<string> := None,
    email: Option<string> := None,
    defaultTaxType: Option<string> := Some("included"),
    paymentTerms: Option<string> := None,
    notes: Option<string> := None,
    isActive: Option<bool> := Some(true),
    isFavorite: Option<bool> := Some(false))

  datatype CostCategory = CostCategory(
    name: string,
    color: Option<string> := None,
    displayOrder: Option<int> := Some(999),
    isDefault: Option<bool> := Some(false),
    isActive: Option<bool> := Some(true))

  datatype Customer = Customer(
    name: string,
    phone: Option<string> := None,
    email: Option<string> := None,
    address: Option<string> := None,
    contactPerson: Option<string> := None,
    notes: Option<string> := None,
    isActive: Option<bool> := Some(true))

  /**
   * A settings row: a key/value pair, or (under the key `fiscal_settings`)
   * the fiscal columns. The fiscal year and month are only ever written with
   * integers, so they are never NULL.
   */
  datatype SystemSettings = SystemSettings(
    key: string,
    value: Option<string> := None,
    description: Option<string> := None,
    fiscalStartYear: int := 2000,
    fiscalStartMonth: int := 8,
    staffCodeDigits: Option<int> := Some(3))

  /** The column default for an inserted `None`. */
  function InsertValue<T>(given: Option<T>, default: T): (stored: Option<T>)
    ensures stored.Some?
    ensures given.Some? ==> stored == given
  {
    if given.Some? then given else Some(default)
  }

  /** Truthiness of a nullable boolean column in Python (`if project.is_general_expense:`). */
  predicate IsTrue(b: Option<bool>) { b == Some(true) }

  /** One company's database. */
  class CompanyDb {
    var projects: seq<Row<Project>>
    var costs: seq<Row<Cost>>
    var vendors: seq<Row<Vendor>>
    var categories: seq<Row<CostCategory>>
    var customers: seq<Row<Customer>>
    var settings: seq<Row<SystemSettings>>

    ghost predicate Valid()
      reads this
    {
      Ascending(projects) && Ascending(costs) && Ascending(vendors)
      && Ascending(categories) && Ascending(customers) && Ascending(settings)
    }

    /** A freshly created database (`create_all`): every table empty. */
    constructor ()
      ensures Valid()
      ensures projects == [] && costs == [] && vendors == []
      ensures categories == [] && customers == [] && settings == []
    {
      projects, costs, vendors := [], [], [];
      categories, customers, settings := [], [], [];
    }
  }
}

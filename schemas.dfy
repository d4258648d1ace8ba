/**
 * The request bodies the routers accept. A body field is `Omitted` or
 * `Given`; validation fills an omitted optional field with its declared
 * default and rejects a body that lacks a required field (error 422).
 * Updates use the sent fields only, in declaration order.
 */
module Schemas {
  import opened Base
  import opened Calendar


  /** The body of a project creation (`ProjectBase`). */
  datatype ProjectBody = ProjectBody(
    projectCode: Input<string>,
    name: Input<string>,
    clientName: Input<Option<string>>,
    estimateNumber: Input<Option<string>>,
    contractAmount: Input<Option<int>>,
    taxType: Input<Option<string>>,
    taxRate: Input<Option<int>>,
    status: Input<Option<string>>,
    startDate: Input<Option<Date>>,
    endDate: Input<Option<Date>>,
    invoiceDate: Input<Option<Date>>,
    paymentDate: Input<Option<Date>>,
    notes: Input<Option<string>>)

  /** The model after validation: every field has a value or its declared default. */
  datatype ProjectCreate = ProjectCreate(
    projectCode: string,
    name: string,
    clientName: Option<string>,
    estimateNumber: Option<string>,
    contractAmount: Option<int>,
    taxType: Option<string>,
    taxRate: Option<int>,
    status: Option<string>,
    startDate: Option<Date>,
    endDate: Option<Date>,
    invoiceDate: Option<Date>,
    paymentDate: Option<Date>,
    notes: Option<string>)

  /** Whether every required field was sent. */
  predicate ProjectComplete(b: ProjectBody)
  {
    b.projectCode.Given? && b.name.Given?
  }

  /**
   * `ProjectCreate` validation: `project_code` and `name` are required; the
   * other fields default to the values `ProjectBase` declares.
   */
  function ValidateProject(b: ProjectBody): (r: Result<ProjectCreate>)
    ensures r.Ok? <==> ProjectComplete(b)
    ensures r.Err? ==> r.error == Unprocessable
    ensures r.Ok? && b.projectCode.Given? ==> r.value.projectCode == b.projectCode.value
    ensures r.Ok? && b.name.Given? ==> r.value.name == b.name.value
    ensures r.Ok? && b.clientName.Given? ==> r.value.clientName == b.clientName.value
    ensures r.Ok? && b.estimateNumber.Given? ==> r.value.estimateNumber == b.estimateNumber.value
    ensures r.Ok? && b.contractAmount.Given? ==> r.value.contractAmount == b.contractAmount.value
    ensures r.Ok? && b.taxType.Given? ==> r.value.taxType == b.taxType.value
    ensures r.Ok? && b.taxRate.Given? ==> r.value.taxRate == b.taxRate.value
    ensures r.Ok? && b.status.Given? ==> r.value.status == b.status.value
    ensures r.Ok? && b.startDate.Given? ==> r.value.startDate == b.startDate.value
    ensures r.Ok? && b.endDate.Given? ==> r.value.endDate == b.endDate.value
    ensures r.Ok? && b.invoiceDate.Given? ==> r.value.invoiceDate == b.invoiceDate.value
    ensures r.Ok? && b.paymentDate.Given? ==> r.value.paymentDate == b.paymentDate.value
    ensures r.Ok? && b.notes.Given? ==> r.value.notes == b.notes.value
    ensures r.Ok? && b.clientName.Omitted? ==> r.value.clientName == None
    ensures r.Ok? && b.estimateNumber.Omitted? ==> r.value.estimateNumber == None
    ensures r.Ok? && b.contractAmount.Omitted? ==> r.value.contractAmount == Some(0)
    ensures r.Ok? && b.taxType.Omitted? ==> r.value.taxType == Some("included")
    ensures r.Ok? && b.taxRate.Omitted? ==> r.value.taxRate == Some(10)
    ensures r.Ok? && b.status.Omitted? ==> r.value.status == Some("active")
    ensures r.Ok? && b.startDate.Omitted? ==> r.value.startDate == None
    ensures r.Ok? && b.endDate.Omitted? ==> r.value.endDate == None
    ensures r.Ok? && b.invoiceDate.Omitted? ==> r.value.invoiceDate == None
    ensures r.Ok? && b.paymentDate.Omitted? ==> r.value.paymentDate == None
    ensures r.Ok? && b.notes.Omitted? ==> r.value.notes == None
  {
    if !ProjectComplete(b) then Err(Unprocessable)
    else Ok(ProjectCreate(
      b.projectCode.value,
      b.name.value,
      OrDefault(b.clientName, None),
      OrDefault(b.estimateNumber, None),
      OrDefault(b.contractAmount, Some(0)),
      OrDefault(b.taxType, Some("included")),
      OrDefault(b.taxRate, Some(10)),
      OrDefault(b.status, Some("active")),
      OrDefault(b.startDate, None),
      OrDefault(b.endDate, None),
      OrDefault(b.invoiceDate, None),
      OrDefault(b.paymentDate, None),
      OrDefault(b.notes, None)))
  }

  /** The body of a project update (`ProjectUpdate`): every field optional and nullable. */
  datatype ProjectUpdate = ProjectUpdate(
    projectCode: Input<Option<string>>,
    name: Input<Option<string>>,
    isGeneralExpense: Input<Option<bool>>,
    clientName: Input<Option<string>>,
    estimateNumber: Input<Option<string>>,
    contractAmount: Input<Option<int>>,
    taxType: Input<Option<string>>,
    taxRate: Input<Option<int>>,
    status: Input<Option<string>>,
    startDate: Input<Option<Date>>,
    endDate: Input<Option<Date>>,
    invoiceDate: Input<Option<Date>>,
    paymentDate: Input<Option<Date>>,
    notes: Input<Option<string>>)

  /** One `setattr` the update performs: a field name and the value sent for it. */
  datatype ProjectField =
    | SetProjectCode(projectCode: Option<string>)
    | SetName(name: Option<string>)
    | SetIsGeneralExpense(isGeneralExpense: Option<bool>)
    | SetClientName(clientName: Option<string>)
    | SetEstimateNumber(estimateNumber: Option<string>)
    | SetContractAmount(contractAmount: Option<int>)
    | SetTaxType(taxType: Option<string>)
    | SetTaxRate(taxRate: Option<int>)
    | SetStatus(status: Option<string>)
    | SetStartDate(startDate: Option<Date>)
    | SetEndDate(endDate: Option<Date>)
    | SetInvoiceDate(invoiceDate: Option<Date>)
    | SetPaymentDate(paymentDate: Option<Date>)
    | SetNotes(notes: Option<string>)

  /** The `setattr` for field number `k` of the body, if that field was sent. */
  function ProjectFieldAt(b: ProjectUpdate, k: nat): (r: seq<ProjectField>)
    ensures |r| <= 1
  {
    if k == 0 then if b.projectCode.Given? then [ProjectField.SetProjectCode(b.projectCode.value)] else []
    else if k == 1 then if b.name.Given? then [ProjectField.SetName(b.name.value)] else []
    else if k == 2 then if b.isGeneralExpense.Given? then [ProjectField.SetIsGeneralExpense(b.isGeneralExpense.value)] else []
    else if k == 3 then if b.clientName.Given? then [ProjectField.SetClientName(b.clientName.value)] else []
    else if k == 4 then if b.estimateNumber.Given? then [ProjectField.SetEstimateNumber(b.estimateNumber.value)] else []
    else if k == 5 then if b.contractAmount.Given? then [ProjectField.SetContractAmount(b.contractAmount.value)] else []
    else if k == 6 then if b.taxType.Given? then [ProjectField.SetTaxType(b.taxType.value)] else []
    else if k == 7 then if b.taxRate.Given? then [ProjectField.SetTaxRate(b.taxRate.value)] else []
    else if k == 8 then if b.status.Given? then [ProjectField.SetStatus(b.status.value)] else []
    else if k == 9 then if b.startDate.Given? then [ProjectField.SetStartDate(b.startDate.value)] else []
    else if k == 10 then if b.endDate.Given? then [ProjectField.SetEndDate(b.endDate.value)] else []
    else if k == 11 then if b.invoiceDate.Given? then [ProjectField.SetInvoiceDate(b.invoiceDate.value)] else []
    else if k == 12 then if b.paymentDate.Given? then [ProjectField.SetPaymentDate(b.paymentDate.value)] else []
    else if k == 13 then if b.notes.Given? then [ProjectField.SetNotes(b.notes.value)] else []
    else []
  }

  /** The sent fields from field number `k` on, in declaration order. */
  function SentProjectFieldsFrom(b: ProjectUpdate, k: nat): seq<ProjectField>
    decreases 14 - k
  {
    if k >= 14 then [] else ProjectFieldAt(b, k) + SentProjectFieldsFrom(b, k + 1)
  }

  /** `dict(exclude_unset=True).items()`: the sent fields, in declaration order. */
  function SentProjectFields(b: ProjectUpdate): seq<ProjectField>
  {
    SentProjectFieldsFrom(b, 0)
  }

  /** The body of a cost creation or update (`CostCreate`, used by both). */
  datatype CostBody = CostBody(
    projectId: Input<int>,
    date: Input<Date>,
    vendor: Input<string>,
    description: Input<Option<string>>,
    amount: Input<int>,
    taxType: Input<Option<string>>,
    taxAmount: Input<Option<int>>,
    totalAmount: Input<int>,
    category: Input<Option<string>>,
    paymentStatus: Input<Option<string>>,
    paymentDate: Input<Option<Date>>)

  /** The model after validation: every field has a value or its declared default. */
  datatype CostCreate = CostCreate(
    projectId: int,
    date: Date,
    vendor: string,
    description: Option<string>,
    amount: int,
    taxType: Option<string>,
    taxAmount: Option<int>,
    totalAmount: int,
    category: Option<string>,
    paymentStatus: Option<string>,
    paymentDate: Option<Date>)

  /** Whether every required field was sent. */
  predicate CostComplete(b: CostBody)
  {
    b.projectId.Given? && b.date.Given? && b.vendor.Given? && b.amount.Given? && b.totalAmount.Given?
  }

  /**
   * `CostCreate` validation: `project_id`, `date`, `vendor`, `amount` and
   * `total_amount` are required; the other fields default as `CostBase` declares.
   */
  function ValidateCost(b: CostBody): (r: Result<CostCreate>)
    ensures r.Ok? <==> CostComplete(b)
    ensures r.Err? ==> r.error == Unprocessable
    ensures r.Ok? && b.projectId.Given? ==> r.value.projectId == b.projectId.value
    ensures r.Ok? && b.date.Given? ==> r.value.date == b.date.value
    ensures r.Ok? && b.vendor.Given? ==> r.value.vendor == b.vendor.value
    ensures r.Ok? && b.description.Given? ==> r.value.description == b.description.value
    ensures r.Ok? && b.amount.Given? ==> r.value.amount == b.amount.value
    ensures r.Ok? && b.taxType.Given? ==> r.value.taxType == b.taxType.value
    ensures r.Ok? && b.taxAmount.Given? ==> r.value.taxAmount == b.taxAmount.value
    ensures r.Ok? && b.totalAmount.Given? ==> r.value.totalAmount == b.totalAmount.value
    ensures r.Ok? && b.category.Given? ==> r.value.category == b.category.value
    ensures r.Ok? && b.paymentStatus.Given? ==> r.value.paymentStatus == b.paymentStatus.value
    ensures r.Ok? && b.paymentDate.Given? ==> r.value.paymentDate == b.paymentDate.value
    ensures r.Ok? && b.description.Omitted? ==> r.value.description == None
    ensures r.Ok? && b.taxType.Omitted? ==> r.value.taxType == Some("included")
    ensures r.Ok? && b.taxAmount.Omitted? ==> r.value.taxAmount == Some(0)
    ensures r.Ok? && b.category.Omitted? ==> r.value.category == Some("材料費")
    ensures r.Ok? && b.paymentStatus.Omitted? ==> r.value.paymentStatus == Some("unpaid")
    ensures r.Ok? && b.paymentDate.Omitted? ==> r.value.paymentDate == None
  {
    if !CostComplete(b) then Err(Unprocessable)
    else Ok(CostCreate(
      b.projectId.value,
      b.date.value,
      b.vendor.value,
      OrDefault(b.description, None),
      b.amount.value,
      OrDefault(b.taxType, Some("included")),
      OrDefault(b.taxAmount, Some(0)),
      b.totalAmount.value,
      OrDefault(b.category, Some("材料費")),
      OrDefault(b.paymentStatus, Some("unpaid")),
      OrDefault(b.paymentDate, None)))
  }

  /** One `setattr` the update performs: a field name and the value sent for it. */
  datatype CostField =
    | SetProjectId(projectId: int)
    | SetDate(date: Date)
    | SetVendor(vendor: string)
    | SetDescription(description: Option<string>)
    | SetAmount(amount: int)
    | SetTaxType(taxType: Option<string>)
    | SetTaxAmount(taxAmount: Option<int>)
    | SetTotalAmount(totalAmount: int)
    | SetCategory(category: Option<string>)
    | SetPaymentStatus(paymentStatus: Option<string>)
    | SetPaymentDate(paymentDate: Option<Date>)

  /** The `setattr` for field number `k` of the body, if that field was sent. */
  function CostFieldAt(b: CostBody, k: nat): (r: seq<CostField>)
    ensures |r| <= 1
  {
    if k == 0 then if b.projectId.Given? then [CostField.SetProjectId(b.projectId.value)] else []
    else if k == 1 then if b.date.Given? then [CostField.SetDate(b.date.value)] else []
    else if k == 2 then if b.vendor.Given? then [CostField.SetVendor(b.vendor.value)] else []
    else if k == 3 then if b.description.Given? then [CostField.SetDescription(b.description.value)] else []
    else if k == 4 then if b.amount.Given? then [CostField.SetAmount(b.amount.value)] else []
    else if k == 5 then if b.taxType.Given? then [CostField.SetTaxType(b.taxType.value)] else []
    else if k == 6 then if b.taxAmount.Given? then [CostField.SetTaxAmount(b.taxAmount.value)] else []
    else if k == 7 then if b.totalAmount.Given? then [CostField.SetTotalAmount(b.totalAmount.value)] else []
    else if k == 8 then if b.category.Given? then [CostField.SetCategory(b.category.value)] else []
    else if k == 9 then if b.paymentStatus.Given? then [CostField.SetPaymentStatus(b.paymentStatus.value)] else []
    else if k == 10 then if b.paymentDate.Given? then [CostField.SetPaymentDate(b.paymentDate.value)] else []
    else []
  }

  /** The sent fields from field number `k` on, in declaration order. */
  function SentCostFieldsFrom(b: CostBody, k: nat): seq<CostField>
    decreases 11 - k
  {
    if k >= 11 then [] else CostFieldAt(b, k) + SentCostFieldsFrom(b, k + 1)
  }

  /** `dict(exclude_unset=True).items()`: the sent fields, in declaration order. */
  function SentCostFields(b: CostBody): seq<CostField>
  {
    SentCostFieldsFrom(b, 0)
  }

  /** The body of a vendor creation or update (`VendorCreate`, used by both). */
  datatype VendorBody = VendorBody(
    name: Input<string>,
    category: Input<Option<string>>,
    phone: Input<Option<string>>,
    email: Input<Option<string>>,
    defaultTaxType: Input<Option<string>>,
    paymentTerms: Input<Option<string>>,
    notes: Input<Option<string>>,
    isActive: Input<Option<bool>>,
    isFavorite: Input<Option<bool>>)

  /** The model after validation: every field has a value or its declared default. */
  datatype VendorCreate = VendorCreate(
    name: string,
    category: Option<string>,
    phone: Option<string>,
    email: Option<string>,
    defaultTaxType: Option<string>,
    paymentTerms: Option<string>,
    notes: Option<string>,
    isActive: Option<bool>,
    isFavorite: Option<bool>)

  /** Whether every required field was sent. */
  predicate VendorComplete(b: VendorBody)
  {
    b.name.Given?
  }

  /**
   * `VendorCreate` validation: `name` is required; the other fields default
   * as `VendorBase` declares.
   */
  function ValidateVendor(b: VendorBody): (r: Result<VendorCreate>)
    ensures r.Ok? <==> VendorComplete(b)
    ensures r.Err? ==> r.error == Unprocessable
    ensures r.Ok? && b.name.Given? ==> r.value.name == b.name.value
    ensures r.Ok? && b.category.Given? ==> r.value.category == b.category.value
    ensures r.Ok? && b.phone.Given? ==> r.value.phone == b.phone.value
    ensures r.Ok? && b.email.Given? ==> r.value.email == b.email.value
    ensures r.Ok? && b.defaultTaxType.Given? ==> r.value.defaultTaxType == b.defaultTaxType.value
    ensures r.Ok? && b.paymentTerms.Given? ==> r.value.paymentTerms == b.paymentTerms.value
    ensures r.Ok? && b.notes.Given? ==> r.value.notes == b.notes.value
    ensures r.Ok? && b.isActive.Given? ==> r.value.isActive == b.isActive.value
    ensures r.Ok? && b.isFavorite.Given? ==> r.value.isFavorite == b.isFavorite.value
    ensures r.Ok? && b.category.Omitted? ==> r.value.category == None
    ensures r.Ok? && b.phone.Omitted? ==> r.value.phone == None
    ensures r.Ok? && b.email.Omitted? ==> r.value.email == None
    ensures r.Ok? && b.defaultTaxType.Omitted? ==> r.value.defaultTaxType == Some("included")
    ensures r.Ok? && b.paymentTerms.Omitted? ==> r.value.paymentTerms == None
    ensures r.Ok? && b.notes.Omitted? ==> r.value.notes == None
    ensures r.Ok? && b.isActive.Omitted? ==> r.value.isActive == Some(true)
    ensures r.Ok? && b.isFavorite.Omitted? ==> r.value.isFavorite == Some(false)
  {
    if !VendorComplete(b) then Err(Unprocessable)
    else Ok(VendorCreate(
      b.name.value,
      OrDefault(b.category, None),
      OrDefault(b.phone, None),
      OrDefault(b.email, None),
      OrDefault(b.defaultTaxType, Some("included")),
      OrDefault(b.paymentTerms, None),
      OrDefault(b.notes, None),
      OrDefault(b.isActive, Some(true)),
      OrDefault(b.isFavorite, Some(false))))
  }

  /** One `setattr` the update performs: a field name and the value sent for it. */
  datatype VendorField =
    | SetName(name: string)
    | SetCategory(category: Option<string>)
    | SetPhone(phone: Option<string>)
    | SetEmail(email: Option<string>)
    | SetDefaultTaxType(defaultTaxType: Option<string>)
    | SetPaymentTerms(paymentTerms: Option<string>)
    | SetNotes(notes: Option<string>)
    | SetIsActive(isActive: Option<bool>)
    | SetIsFavorite(isFavorite: Option<bool>)

  /** The `setattr` for field number `k` of the body, if that field was sent. */
  function VendorFieldAt(b: VendorBody, k: nat): (r: seq<VendorField>)
    ensures |r| <= 1
  {
    if k == 0 then if b.name.Given? then [VendorField.SetName(b.name.value)] else []
    else if k == 1 then if b.category.Given? then [VendorField.SetCategory(b.category.value)] else []
    else if k == 2 then if b.phone.Given? then [VendorField.SetPhone(b.phone.value)] else []
    else if k == 3 then if b.email.Given? then [VendorField.SetEmail(b.email.value)] else []
    else if k == 4 then if b.defaultTaxType.Given? then [VendorField.SetDefaultTaxType(b.defaultTaxType.value)] else []
    else if k == 5 then if b.paymentTerms.Given? then [VendorField.SetPaymentTerms(b.paymentTerms.value)] else []
    else if k == 6 then if b.notes.Given? then [VendorField.SetNotes(b.notes.value)] else []
    else if k == 7 then if b.isActive.Given? then [VendorField.SetIsActive(b.isActive.value)] else []
    else if k == 8 then if b.isFavorite.Given? then [VendorField.SetIsFavorite(b.isFavorite.value)] else []
    else []
  }

  /** The sent fields from field number `k` on, in declaration order. */
  function SentVendorFieldsFrom(b: VendorBody, k: nat): seq<VendorField>
    decreases 9 - k
  {
    if k >= 9 then [] else VendorFieldAt(b, k) + SentVendorFieldsFrom(b, k + 1)
  }

  /** `dict(exclude_unset=True).items()`: the sent fields, in declaration order. */
  function SentVendorFields(b: VendorBody): seq<VendorField>
  {
    SentVendorFieldsFrom(b, 0)
  }

  /** The body of a category creation or update (`CategoryCreate`, used by both). */
  datatype CategoryBody = CategoryBody(
    name: Input<string>,
    color: Input<Option<string>>,
    displayOrder: Input<Option<int>>,
    isDefault: Input<Option<bool>>,
    isActive: Input<Option<bool>>)

  /** The model after validation: every field has a value or its declared default. */
  datatype CategoryCreate = CategoryCreate(
    name: string,
    color: Option<string>,
    displayOrder: Option<int>,
    isDefault: Option<bool>,
    isActive: Option<bool>)

  /** Whether every required field was sent. */
  predicate CategoryComplete(b: CategoryBody)
  {
    b.name.Given?
  }

  /**
   * `CategoryCreate` validation: `name` is required; the other fields default
   * as `CategoryBase` declares.
   */
  function ValidateCategory(b: CategoryBody): (r: Result<CategoryCreate>)
    ensures r.Ok? <==> CategoryComplete(b)
    ensures r.Err? ==> r.error == Unprocessable
    ensures r.Ok? && b.name.Given? ==> r.value.name == b.name.value
    ensures r.Ok? && b.color.Given? ==> r.value.color == b.color.value
    ensures r.Ok? && b.displayOrder.Given? ==> r.value.displayOrder == b.displayOrder.value
    ensures r.Ok? && b.isDefault.Given? ==> r.value.isDefault == b.isDefault.value
    ensures r.Ok? && b.isActive.Given? ==> r.value.isActive == b.isActive.value
    ensures r.Ok? && b.color.Omitted? ==> r.value.color == None
    ensures r.Ok? && b.displayOrder.Omitted? ==> r.value.displayOrder == Some(999)
    ensures r.Ok? && b.isDefault.Omitted? ==> r.value.isDefault == Some(false)
    ensures r.Ok? && b.isActive.Omitted? ==> r.value.isActive == Some(true)
  {
    if !CategoryComplete(b) then Err(Unprocessable)
    else Ok(CategoryCreate(
      b.name.value,
      OrDefault(b.color, None),
      OrDefault(b.displayOrder, Some(999)),
      OrDefault(b.isDefault, Some(false)),
      OrDefault(b.isActive, Some(true))))
  }

  /** One `setattr` the update performs: a field name and the value sent for it. */
  datatype CategoryField =
    | SetName(name: string)
    | SetColor(color: Option<string>)
    | SetDisplayOrder(displayOrder: Option<int>)
    | SetIsDefault(isDefault: Option<bool>)
    | SetIsActive(isActive: Option<bool>)

  /** The `setattr` for field number `k` of the body, if that field was sent. */
  function CategoryFieldAt(b: CategoryBody, k: nat): (r: seq<CategoryField>)
    ensures |r| <= 1
  {
    if k == 0 then if b.name.Given? then [CategoryField.SetName(b.name.value)] else []
    else if k == 1 then if b.color.Given? then [CategoryField.SetColor(b.color.value)] else []
    else if k == 2 then if b.displayOrder.Given? then [CategoryField.SetDisplayOrder(b.displayOrder.value)] else []
    else if k == 3 then if b.isDefault.Given? then [CategoryField.SetIsDefault(b.isDefault.value)] else []
    else if k == 4 then if b.isActive.Given? then [CategoryField.SetIsActive(b.isActive.value)] else []
    else []
  }

  /** The sent fields from field number `k` on, in declaration order. */
  function SentCategoryFieldsFrom(b: CategoryBody, k: nat): seq<CategoryField>
    decreases 5 - k
  {
    if k >= 5 then [] else CategoryFieldAt(b, k) + SentCategoryFieldsFrom(b, k + 1)
  }

  /** `dict(exclude_unset=True).items()`: the sent fields, in declaration order. */
  function SentCategoryFields(b: CategoryBody): seq<CategoryField>
  {
    SentCategoryFieldsFrom(b, 0)
  }

  /** The body of a customer creation or update (`CustomerCreate`, used by both). */
  datatype CustomerBody = CustomerBody(
    name: Input<string>,
    phone: Input<Option<string>>,
    email: Input<Option<string>>,
    address: Input<Option<string>>,
    contactPerson: Input<Option<string>>,
    notes: Input<Option<string>>,
    isActive: Input<Option<bool>>)

  /** The model after validation: every field has a value or its declared default. */
  datatype CustomerCreate = CustomerCreate(
    name: string,
    phone: Option<string>,
    email: Option<string>,
    address: Option<string>,
    contactPerson: Option<string>,
    notes: Option<string>,
    isActive: Option<bool>)

  /** Whether every required field was sent. */
  predicate CustomerComplete(b: CustomerBody)
  {
    b.name.Given?
  }

  /**
   * `CustomerCreate` validation: `name` is required; the other fields default
   * as `CustomerBase` declares.
   */
  function ValidateCustomer(b: CustomerBody): (r: Result<CustomerCreate>)
    ensures r.Ok? <==> CustomerComplete(b)
    ensures r.Err? ==> r.error == Unprocessable
    ensures r.Ok? && b.name.Given? ==> r.value.name == b.name.value
    ensures r.Ok? && b.phone.Given? ==> r.value.phone == b.phone.value
    ensures r.Ok? && b.email.Given? ==> r.value.email == b.email.value
    ensures r.Ok? && b.address.Given? ==> r.value.address == b.address.value
    ensures r.Ok? && b.contactPerson.Given? ==> r.value.contactPerson == b.contactPerson.value
    ensures r.Ok? && b.notes.Given? ==> r.value.notes == b.notes.value
    ensures r.Ok? && b.isActive.Given? ==> r.value.isActive == b.isActive.value
    ensures r.Ok? && b.phone.Omitted? ==> r.value.phone == None
    ensures r.Ok? && b.email.Omitted? ==> r.value.email == None
    ensures r.Ok? && b.address.Omitted? ==> r.value.address == None
    ensures r.Ok? && b.contactPerson.Omitted? ==> r.value.contactPerson == None
    ensures r.Ok? && b.notes.Omitted? ==> r.value.notes == None
    ensures r.Ok? && b.isActive.Omitted? ==> r.value.isActive == Some(true)
  {
    if !CustomerComplete(b) then Err(Unprocessable)
    else Ok(CustomerCreate(
      b.name.value,
      OrDefault(b.phone, None),
      OrDefault(b.email, None),
      OrDefault(b.address, None),
      OrDefault(b.contactPerson, None),
      OrDefault(b.notes, None),
      OrDefault(b.isActive, Some(true))))
  }

  /** One `setattr` the update performs: a field name and the value sent for it. */
  datatype CustomerField =
    | SetName(name: string)
    | SetPhone(phone: Option<string>)
    | SetEmail(email: Option<string>)
    | SetAddress(address: Option<string>)
    | SetContactPerson(contactPerson: Option<string>)
    | SetNotes(notes: Option<string>)
    | SetIsActive(isActive: Option<bool>)

  /** The `setattr` for field number `k` of the body, if that field was sent. */
  function CustomerFieldAt(b: CustomerBody, k: nat): (r: seq<CustomerField>)
    ensures |r| <= 1
  {
    if k == 0 then if b.name.Given? then [CustomerField.SetName(b.name.value)] else []
    else if k == 1 then if b.phone.Given? then [CustomerField.SetPhone(b.phone.value)] else []
    else if k == 2 then if b.email.Given? then [CustomerField.SetEmail(b.email.value)] else []
    else if k == 3 then if b.address.Given? then [CustomerField.SetAddress(b.address.value)] else []
    else if k == 4 then if b.contactPerson.Given? then [CustomerField.SetContactPerson(b.contactPerson.value)] else []
    else if k == 5 then if b.notes.Given? then [CustomerField.SetNotes(b.notes.value)] else []
    else if k == 6 then if b.isActive.Given? then [CustomerField.SetIsActive(b.isActive.value)] else []
    else []
  }

  /** The sent fields from field number `k` on, in declaration order. */
  function SentCustomerFieldsFrom(b: CustomerBody, k: nat): seq<CustomerField>
    decreases 7 - k
  {
    if k >= 7 then [] else CustomerFieldAt(b, k) + SentCustomerFieldsFrom(b, k + 1)
  }

  /** `dict(exclude_unset=True).items()`: the sent fields, in declaration order. */
  function SentCustomerFields(b: CustomerBody): seq<CustomerField>
  {
    SentCustomerFieldsFrom(b, 0)
  }

  /** The body of a login (`UserLogin`): all three fields required. */
  datatype LoginBody = LoginBody(companyCode: Input<string>, username: Input<string>, password: Input<string>)

  datatype UserLogin = UserLogin(companyCode: string, username: string, password: string)

  function ValidateLogin(b: LoginBody): (r: Result<UserLogin>)
    ensures r.Ok? <==> b.companyCode.Given? && b.username.Given? && b.password.Given?
    ensures r.Ok? ==> r.value == UserLogin(b.companyCode.value, b.username.value, b.password.value)
    ensures r.Err? ==> r.error == Unprocessable
  {
    if b.companyCode.Given? && b.username.Given? && b.password.Given?
    then Ok(UserLogin(b.companyCode.value, b.username.value, b.password.value))
    else Err(Unprocessable)
  }

  /** The body of a self-registration (`UserCreate`). */
  datatype RegisterBody = RegisterBody(
    username: Input<string>,
    name: Input<string>,
    role: Input<Option<string>>,
    password: Input<string>,
    companyId: Input<Option<int>>)

  datatype UserCreate = UserCreate(
    username: string, name: string, role: Option<string>, password: string, companyId: Option<int>)

  /** `username`, `name` and `password` are required; `role` defaults to "user", `company_id` to null. */
  function ValidateRegister(b: RegisterBody): (r: Result<UserCreate>)
    ensures r.Ok? <==> b.username.Given? && b.name.Given? && b.password.Given?
    ensures r.Err? ==> r.error == Unprocessable
    ensures r.Ok? ==> r.value.username == b.username.value && r.value.name == b.name.value
                      && r.value.password == b.password.value
    ensures r.Ok? ==> r.value.role == OrDefault(b.role, Some("user"))
                      && r.value.companyId == OrDefault(b.companyId, None)
  {
    if b.username.Given? && b.name.Given? && b.password.Given?
    then Ok(UserCreate(b.username.value, b.name.value, OrDefault(b.role, Some("user")),
                       b.password.value, OrDefault(b.companyId, None)))
    else Err(Unprocessable)
  }

  /** The body of a company self-registration (`CompanyRegister`). */
  datatype CompanyRegisterBody = CompanyRegisterBody(
    companyName: Input<string>,
    email: Input<string>,
    adminUsername: Input<string>,
    adminPassword: Input<string>,
    planType: Input<Option<string>>)

  datatype CompanyRegister = CompanyRegister(
    companyName: string, email: string, adminUsername: string, adminPassword: string,
    planType: Option<string>)

  function ValidateCompanyRegister(b: CompanyRegisterBody): (r: Result<CompanyRegister>)
    ensures r.Ok? <==> b.companyName.Given? && b.email.Given? && b.adminUsername.Given? && b.adminPassword.Given?
    ensures r.Err? ==> r.error == Unprocessable
    ensures r.Ok? ==> r.value.companyName == b.companyName.value && r.value.email == b.email.value
                      && r.value.adminUsername == b.adminUsername.value
                      && r.value.adminPassword == b.adminPassword.value
    ensures r.Ok? ==> r.value.planType == OrDefault(b.planType, Some("free"))
  {
    if b.companyName.Given? && b.email.Given? && b.adminUsername.Given? && b.adminPassword.Given?
    then Ok(CompanyRegister(b.companyName.value, b.email.value, b.adminUsername.value,
                            b.adminPassword.value, OrDefault(b.planType, Some("free"))))
    else Err(Unprocessable)
  }

  /** The body of a setting update (`SystemSettingsUpdate`): `value` is a required string. */
  function ValidateSettingValue(b: Input<string>): (r: Result<string>)
    ensures r.Ok? <==> b.Given?
    ensures r.Ok? ==> r.value == b.value
    ensures r.Err? ==> r.error == Unprocessable
  {
    if b.Given? then Ok(b.value) else Err(Unprocessable)
  }
}

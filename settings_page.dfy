/**
 * The settings page: the fiscal settings form, the unbilled rule, and the
 * cost category list with its add, edit and delete controls.
 */
module SettingsPage {
  import opened Base
  import opened ApiData
  import Schemas
  import opened Seqs
  import SettingsRouter
  import CategoriesRouter
  import opened CompanyModels

  /** `unbilledSetting` after loading: the stored rule, `'completed'` when missing or empty. */
  function UnbilledSetting(settings: seq<SettingJson>): (v: string)
    ensures v != ""
    ensures v == "completed" || exists s :: s in settings && s.key == "unbilled_definition" && s.value == v
  {
    SettingOr(settings, "unbilled_definition", "completed")
  }

  /** Without a stored rule the page shows `'completed'`. */
  lemma UnbilledDefault(settings: seq<SettingJson>)
    requires forall s :: s in settings ==> s.key != "unbilled_definition"
    ensures UnbilledSetting(settings) == "completed"
  {
    FindSettingNone(settings, "unbilled_definition");
  }

  /**
   * `saveFiscalSettings`: the body carries the loaded year, month and digits
   * and nothing else; the current period is not sent (the server computes it).
   */
  function FiscalSave(form: SettingsRouter.FiscalResponse): (b: SettingsRouter.FiscalBody)
    ensures b.fiscalStartYear == Given(form.fiscalStartYear)
    ensures b.fiscalStartMonth == Given(form.fiscalStartMonth)
    ensures b.staffCodeDigits == Given(Some(form.staffCodeDigits))
  {
    SettingsRouter.FiscalBody(Given(form.fiscalStartYear), Given(form.fiscalStartMonth), Given(Some(form.staffCodeDigits)))
  }

  /**
   * The save is never refused as incomplete, and the fiscal row the server
   * then holds has the year, month and digits the page showed.
   */
  lemma FiscalSaveStored(form: SettingsRouter.FiscalResponse, row: Option<SystemSettings>)
    ensures var b := FiscalSave(form);
            && b.fiscalStartYear.Given? && b.fiscalStartMonth.Given?
            && var r := SettingsRouter.FiscalRowAfterUpdate(row, b.fiscalStartYear.value, b.fiscalStartMonth.value,
                                                           OrDefault(b.staffCodeDigits, Some(3)));
            && r.fiscalStartYear == form.fiscalStartYear && r.fiscalStartMonth == form.fiscalStartMonth
            && r.staffCodeDigits == Some(form.staffCodeDigits)
  {
  }

  // ---------------------------------------------------------------------------
  // Categories.

  /** `newCategory`: the name and colour inputs. */
  datatype NewCategory = NewCategory(name: string, color: string)

  const BlankCategory: NewCategory := NewCategory("", "#3B82F6")

  /**
   * The body `handleAddCategory` sends: the inputs, the next display order
   * after the listed categories, not default and active.
   */
  function AddCategoryBody(c: NewCategory, categories: seq<CategoryJson>): (b: Schemas.CategoryBody)
    ensures b.name == Given(c.name) && b.color == Given(Some(c.color))
    ensures b.displayOrder == Given(Some(|categories| + 1))
    ensures b.isDefault == Given(Some(false)) && b.isActive == Given(Some(true))
  {
    Schemas.CategoryBody(Given(c.name), Given(Some(c.color)), Given(Some(|categories| + 1)), Given(Some(false)), Given(Some(true)))
  }

  /** What `handleAddCategory` sends (`None` for an empty name) and the inputs it leaves. */
  datatype AddOutcome = AddOutcome(sent: Option<Schemas.CategoryBody>, inputs: NewCategory)

  function HandleAddCategory(c: NewCategory, categories: seq<CategoryJson>, succeeded: bool): (o: AddOutcome)
    ensures c.name == "" ==> o == AddOutcome(None, c)
    ensures c.name != "" ==> o.sent == Some(AddCategoryBody(c, categories))
    ensures c.name != "" && succeeded ==> o.inputs == BlankCategory
    ensures !succeeded ==> o.inputs == c
  {
    if c.name == "" then AddOutcome(None, c)
    else AddOutcome(Some(AddCategoryBody(c, categories)), if succeeded then BlankCategory else c)
  }

  /**
   * A category added here is stored active, not default (so it can later be
   * edited and deleted), and after every listed category in display order.
   */
  lemma AddedCategoryStored(c: NewCategory, categories: seq<CategoryJson>)
    requires c.name != ""
    ensures var v := Schemas.ValidateCategory(AddCategoryBody(c, categories));
            && v.Ok?
            && var row := CategoriesRouter.NewCategory(v.value);
            && row.name == c.name && row.color == Some(c.color)
            && row.isDefault == Some(false) && row.isActive == Some(true)
            && row.displayOrder == Some(|categories| + 1)
  {
  }

  /** `categories.find(c => c.id === id)`. */
  function FindCategory(categories: seq<CategoryJson>, id: int): (r: Option<CategoryJson>)
    ensures r.Some? ==> r.value in categories && r.value.id == id
  {
    Find(categories, (c: CategoryJson) => c.id == id)
  }

  lemma FindCategoryFirst(categories: seq<CategoryJson>, id: int, i: nat)
    requires i < |categories| && categories[i].id == id
    requires forall j :: 0 <= j < i ==> categories[j].id != id
    ensures FindCategory(categories, id) == Some(categories[i])
  {
    FindFirst(categories, (c: CategoryJson) => c.id == id, i);
  }

  /** What `handleDelete` does: stops on a default category, stops when not confirmed, else sends the delete. */
  datatype DeleteStep = Blocked | Cancelled | SendDelete(id: int)

  predicate IsDefaultId(categories: seq<CategoryJson>, id: int)
  {
    var c := FindCategory(categories, id);
    c.Some? && c.value.isDefault
  }

  function HandleDelete(categories: seq<CategoryJson>, id: int, confirmed: bool): (d: DeleteStep)
    ensures d == Blocked <==> IsDefaultId(categories, id)
    ensures d.SendDelete? ==> d.id == id && confirmed
    ensures !IsDefaultId(categories, id) && confirmed ==> d == SendDelete(id)
  {
    if IsDefaultId(categories, id) then Blocked
    else if !confirmed then Cancelled
    else SendDelete(id)
  }

  /** A listed default category is never sent for deletion, whatever the confirmation. */
  lemma DefaultNeverDeleted(categories: seq<CategoryJson>, i: nat, confirmed: bool)
    requires i < |categories| && categories[i].isDefault
    requires forall j, k :: 0 <= j < k < |categories| ==> categories[j].id != categories[k].id
    ensures HandleDelete(categories, categories[i].id, confirmed) == Blocked
  {
    FindCategoryFirst(categories, categories[i].id, i);
  }

  /** The edit and delete buttons are shown only for a category that is not default. */
  predicate ShowsControls(c: CategoryJson)
  {
    !c.isDefault
  }

  /** Every category that shows its delete button can be deleted once confirmed. */
  lemma ControlsAgreeWithGuard(categories: seq<CategoryJson>, i: nat)
    requires i < |categories| && ShowsControls(categories[i])
    requires forall j, k :: 0 <= j < k < |categories| ==> categories[j].id != categories[k].id
    ensures HandleDelete(categories, categories[i].id, true) == SendDelete(categories[i].id)
  {
    FindCategoryFirst(categories, categories[i].id, i);
  }
}

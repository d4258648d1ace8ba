/**
 * The cost management page: the entry form above the cost table. The table
 * itself (filters, sort, total, option lists, edit payload) is `CostTable`.
 */
module CostManagementPage {
  import opened Base
  import Js
  import CostTable

  /** The category sent for a blank one. */
  const DefaultCategory: string := "材料費"

  /** `formData` as the page opens: the category is left blank here. */
  function Initial(today: string): (f: Js.Object)
    ensures Js.Get(f, "category") == Js.Str("") && Js.Get(f, "tax_type") == Js.Str("included")
    ensures !CostTable.EntryComplete(f)
  {
    CostTable.EntryInitial(today, "")
  }

  /**
   * `submitData`: the form with `amount == total_amount == parseInt(amount)`
   * and a blank category replaced by 材料費.
   */
  function SubmitPayload(form: Js.Object): (p: Js.Object)
    ensures p.Keys == form.Keys + CostTable.AmountFields + {"category"}
    ensures p["amount"] == p["total_amount"] == Js.ParseInt(Js.Get(form, "amount"))
    ensures Js.Truthy(Js.Get(form, "category")) ==> p["category"] == form["category"]
    ensures !Js.Truthy(Js.Get(form, "category")) ==> p["category"] == Js.Str(DefaultCategory)
    ensures forall k :: k in form && k !in CostTable.AmountFields && k != "category" ==> p[k] == form[k]
  {
    CostTable.EntryPayload(form)["category" := Js.Or(Js.Get(form, "category"), Js.Str(DefaultCategory))]
  }

  /**
   * `handleSubmit`: refused without a project, vendor or amount; otherwise
   * the payload is sent and, once the request succeeds, vendor, description
   * and amount are cleared.
   */
  function HandleSubmit(form: Js.Object, succeeded: bool): (o: Js.Outcome)
    ensures !CostTable.EntryComplete(form) ==> o.sent == None && o.form == form
    ensures CostTable.EntryComplete(form) ==> o.sent == Some(SubmitPayload(form))
    ensures !succeeded ==> o.form == form
  {
    if !CostTable.EntryComplete(form) then Js.Outcome(None, form)
    else Js.Outcome(Some(SubmitPayload(form)), if succeeded then CostTable.PartialReset(form) else form)
  }

  /**
   * A sent cost never has a blank category, and its two amounts agree; after
   * a successful submit the form keeps project, date, category and tax type
   * and is refused until a vendor and an amount are entered again.
   */
  lemma SubmitThenResubmit(form: Js.Object)
    requires CostTable.EntryComplete(form)
    ensures var o := HandleSubmit(form, true);
            && o.sent.Some?
            && Js.Truthy(o.sent.value["category"])
            && o.sent.value["amount"] == o.sent.value["total_amount"]
            && HandleSubmit(o.form, true).sent == None
            && forall k :: k in {"project_id", "date", "category", "tax_type"} && k in form ==> o.form[k] == form[k]
  {
    CostTable.ResetNeedsNewEntry(form);
  }
}

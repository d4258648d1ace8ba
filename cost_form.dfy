/** The cost form component: a new cost for one of the active projects. */
module CostFormComponent {
  import opened Base
  import Js
  import CostTable

  /** `formData` as the form opens: category 材料費 and tax included. */
  function Initial(today: string): (f: Js.Object)
    ensures Js.Get(f, "category") == Js.Str("材料費") && Js.Get(f, "tax_type") == Js.Str("included")
    ensures Js.Get(f, "project_id") == Js.Str("") && !CostTable.EntryComplete(f)
  {
    CostTable.EntryInitial(today, "材料費")
  }

  /**
   * `handleSubmit`: refused without a project, vendor or amount; otherwise
   * the form is sent with `amount == total_amount == parseInt(amount)` and,
   * once the request succeeds, vendor, description and amount are cleared.
   */
  function HandleSubmit(form: Js.Object, succeeded: bool): (o: Js.Outcome)
    ensures !CostTable.EntryComplete(form) ==> o.sent == None && o.form == form
    ensures CostTable.EntryComplete(form) ==> o.sent == Some(CostTable.EntryPayload(form))
    ensures !succeeded ==> o.form == form
  {
    if !CostTable.EntryComplete(form) then Js.Outcome(None, form)
    else Js.Outcome(Some(CostTable.EntryPayload(form)), if succeeded then CostTable.PartialReset(form) else form)
  }

  /**
   * Only vendor, description and amount are reset after a success: the next
   * entry starts from the same project, date, category and tax type, and a
   * second submit of the reset form sends nothing.
   */
  lemma ResetKeepsContext(form: Js.Object)
    requires CostTable.EntryComplete(form)
    ensures var o := HandleSubmit(form, true);
            && o.form.Keys == form.Keys + CostTable.ClearedFields
            && (forall k :: k in form && k !in CostTable.ClearedFields ==> o.form[k] == form[k])
            && HandleSubmit(o.form, true).sent == None
  {
    CostTable.ResetNeedsNewEntry(form);
  }
}

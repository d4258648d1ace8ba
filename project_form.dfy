/** The new-project form: its fields, the submit's validation and payload, and the reset after a success. */
module ProjectFormComponent {
  import opened Base
  import Js

  /** `formData` as the form opens and after a success: every field empty but the start date, today. */
  function Initial(today: string): (f: Js.Object)
    ensures f.Keys == Fields
    ensures forall k :: k in Fields && k != "start_date" ==> f[k] == Js.Str("")
    ensures f["start_date"] == Js.Str(today)
  {
    map["project_code" := Js.Str(""), "name" := Js.Str(""), "client_name" := Js.Str(""),
        "estimate_number" := Js.Str(""), "contract_amount" := Js.Str(""), "start_date" := Js.Str(today),
        "end_date" := Js.Str(""), "notes" := Js.Str("")]
  }

  const Fields: set<string> :=
    {"project_code", "name", "client_name", "estimate_number", "contract_amount", "start_date", "end_date", "notes"}

  /** The fields `submitData` overrides. */
  const Overridden: set<string> := {"contract_amount", "start_date", "end_date", "status"}

  /** `!formData.project_code || !formData.name` refuses the submit. */
  predicate Complete(form: Js.Object)
  {
    Js.Truthy(Js.Get(form, "project_code")) && Js.Truthy(Js.Get(form, "name"))
  }

  /**
   * `submitData`: the contract amount `parseInt`ed, 0 when empty; empty dates
   * sent as `null`; the status always `'active'`; every other field as entered.
   */
  function Payload(form: Js.Object): (p: Js.Object)
    ensures p.Keys == form.Keys + Overridden
    ensures var ca := Js.Get(form, "contract_amount");
            p["contract_amount"] == if Js.Truthy(ca) then Js.ParseInt(ca) else Js.Num(0)
    ensures forall k :: k in {"start_date", "end_date"} ==>
              p[k] == if Js.Truthy(Js.Get(form, k)) then form[k] else Js.Null
    ensures p["status"] == Js.Str("active")
    ensures forall k :: k in form && k !in Overridden ==> p[k] == form[k]
  {
    var ca := Js.Get(form, "contract_amount");
    map k | k in form.Keys + Overridden ::
      if k == "contract_amount" then (if Js.Truthy(ca) then Js.ParseInt(ca) else Js.Num(0))
      else if k == "status" then Js.Str("active")
      else if k in {"start_date", "end_date"} then Js.Or(Js.Get(form, k), Js.Null)
      else form[k]
  }

  /**
   * `handleSubmit`: refused without a code or a name; otherwise the payload
   * is sent, and the form starts over once the project is created.
   */
  function HandleSubmit(form: Js.Object, today: string, created: bool): (o: Js.Outcome)
    ensures !Complete(form) ==> o.sent == None && o.form == form
    ensures Complete(form) ==> o.sent == Some(Payload(form))
    ensures Complete(form) && created ==> o.form == Initial(today)
    ensures !created ==> o.form == form
  {
    if !Complete(form) then Js.Outcome(None, form)
    else Js.Outcome(Some(Payload(form)), if created then Initial(today) else form)
  }

  /**
   * A sent project has its code and name as entered, a numeric or `null`
   * contract amount, and status `'active'`; the form it leaves after a
   * success is refused until a code and a name are entered again.
   */
  lemma SubmitThenReset(form: Js.Object, today: string)
    requires Complete(form)
    ensures var o := HandleSubmit(form, today, true);
            && o.sent.Some?
            && o.sent.value["project_code"] == form["project_code"] && o.sent.value["name"] == form["name"]
            && (o.sent.value["contract_amount"].Num? || o.sent.value["contract_amount"] == Js.Null)
            && o.sent.value["status"] == Js.Str("active")
            && !Complete(o.form)
  {
    assert "project_code" !in Overridden && "name" !in Overridden;
    assert Initial(today)["project_code"] == Js.Str("");
  }
}

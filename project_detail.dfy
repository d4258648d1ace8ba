/**
 * The project detail page: the project's costs, its cost total, gross
 * profit and rate with the colour band, the cost entry form, the edit
 * dialog's save payload, and the inline editing of the invoice date,
 * payment date, status and notes. Objects the page spreads and sends are
 * `Js.Object`s; a handler's result is what it sends and the form it leaves.
 */
module ProjectDetailPage {
  import opened Base
  import opened Seqs
  import opened ApiData
  import Js
  import Text
  import Profit
  import CostTable

  /** `costs.filter(cost => cost.project_id === parseInt(projectId))`. */
  function ProjectCosts(costs: seq<CostJson>, projectId: int): (r: seq<CostJson>)
    ensures |r| <= |costs|
  {
    Filter(costs, (c: CostJson) => c.projectId == projectId)
  }

  /** The page lists exactly the fetched costs of this project, in their order. */
  lemma ProjectCostsExactly(costs: seq<CostJson>, projectId: int)
    ensures forall c :: c in ProjectCosts(costs, projectId) <==> c in costs && c.projectId == projectId
  {
    var keep := (c: CostJson) => c.projectId == projectId;
    FilterSpec(costs, keep);
    forall c | c in costs && c.projectId == projectId ensures c in ProjectCosts(costs, projectId) {
      var i :| 0 <= i < |costs| && costs[i] == c;
      assert keep(costs[i]);
    }
  }

  /** The cost total, gross profit and rate the page shows. */
  datatype Figures = Figures(totalCost: int, grossProfit: int, rate: real)

  /**
   * `totalCost`, `grossProfit = (contract_amount || 0) - totalCost` and
   * `grossProfitRate`; the project list computes the same figures per project.
   */
  function FiguresOf(contract: Option<int>, costs: seq<CostJson>): (f: Figures)
    ensures f.totalCost == TotalAmount(costs)
    ensures f.grossProfit + f.totalCost == OrZero(contract)
    ensures OrZero(contract) <= 0 ==> f.rate == 0.0
    ensures OrZero(contract) > 0 ==> f.rate * OrZero(contract) as real == 100.0 * f.grossProfit as real
  {
    var total := TotalAmount(costs);
    var gross := OrZero(contract) - total;
    Figures(total, gross, Profit.ProfitRate(gross, OrZero(contract)))
  }

  /**
   * The rate's colour, decided on integers: green from 30 %, yellow from
   * 20 %, red below and whenever there is no positive contract amount.
   */
  lemma FiguresBand(contract: Option<int>, costs: seq<CostJson>)
    ensures var f := FiguresOf(contract, costs);
            var a := OrZero(contract);
            Profit.RateBand(f.rate) ==
              if a <= 0 then Profit.Red
              else if 10 * (a - TotalAmount(costs)) >= 3 * a then Profit.Green
              else if 5 * (a - TotalAmount(costs)) >= a then Profit.Yellow
              else Profit.Red
  {
    var a := OrZero(contract);
    Profit.BandOfProfit(a - TotalAmount(costs), a);
  }

  /** Costs that are non-negative and within the contract give a rate between 0 and 100. */
  lemma FiguresWithinPercent(contract: Option<int>, costs: seq<CostJson>)
    requires OrZero(contract) > 0 && TotalAmount(costs) <= OrZero(contract)
    requires forall i :: 0 <= i < |costs| ==> costs[i].amount >= 0
    ensures 0.0 <= FiguresOf(contract, costs).rate <= 100.0
  {
    TotalAmountNonNegative(costs);
    Profit.RateWithinPercent(OrZero(contract), TotalAmount(costs));
  }

  // ---------------------------------------------------------------------------
  // The cost entry form.

  /** `costFormData` as it opens and after a submit: today's date, category 材料費, tax included. */
  function CostFormInitial(today: string): Js.Object
  {
    map["date" := Js.Str(today), "vendor" := Js.Str(""), "description" := Js.Str(""),
        "amount" := Js.Str(""), "category" := Js.Str("材料費"), "tax_type" := Js.Str("included")]
  }

  /** `{...costFormData, project_id, amount: parseInt(amount), total_amount: parseInt(amount)}`. */
  function CostPayload(form: Js.Object, projectId: int): (p: Js.Object)
    ensures p.Keys == form.Keys + CostTable.AmountFields + {"project_id"}
    ensures p["project_id"] == Js.Num(projectId)
    ensures p["amount"] == p["total_amount"] == Js.ParseInt(Js.Get(form, "amount"))
    ensures forall k :: k in form && k !in CostTable.AmountFields && k != "project_id" ==> p[k] == form[k]
  {
    map k | k in form.Keys + CostTable.AmountFields + {"project_id"} ::
      if k == "project_id" then Js.Num(projectId)
      else if k in CostTable.AmountFields then Js.ParseInt(Js.Get(form, "amount"))
      else form[k]
  }

  /** The validation of `handleCostSubmit`: a vendor and an amount must be filled in. */
  predicate CostFormComplete(form: Js.Object)
  {
    Js.Truthy(Js.Get(form, "vendor")) && Js.Truthy(Js.Get(form, "amount"))
  }

  /**
   * `handleCostSubmit`: refused without a vendor or an amount. Otherwise the
   * form is sent with this project's id and `amount == total_amount ==
   * parseInt(amount)`; once the request succeeds the form starts over.
   */
  function HandleCostSubmit(form: Js.Object, projectId: int, today: string, succeeded: bool): (o: Js.Outcome)
    ensures !CostFormComplete(form) ==> o == Js.Outcome(None, form)
    ensures CostFormComplete(form) ==> o.sent == Some(CostPayload(form, projectId))
    ensures CostFormComplete(form) && succeeded ==> o.form == CostFormInitial(today)
    ensures CostFormComplete(form) && !succeeded ==> o.form == form
  {
    if !CostFormComplete(form) then Js.Outcome(None, form)
    else Js.Outcome(Some(CostPayload(form, projectId)), if succeeded then CostFormInitial(today) else form)
  }

  // ---------------------------------------------------------------------------
  // The edit dialog.

  const DateFields: set<string> := {"start_date", "end_date", "invoice_date", "payment_date"}

  /** `x || null`. */
  function OrNull(v: Js.Value): (r: Js.Value)
    ensures Js.Truthy(v) ==> r == v
    ensures !Js.Truthy(v) ==> r == Js.Null
  {
    Js.Or(v, Js.Null)
  }

  /** `handleEdit`: the project with its four dates cut to `YYYY-MM-DD`, or `""` when unset. */
  function EditForm(project: Js.Object): (e: Js.Object)
    ensures e.Keys == project.Keys + DateFields
    ensures forall k :: k in DateFields ==>
              e[k] == if Js.Truthy(Js.Get(project, k)) then Js.DatePartOf(project[k]) else Js.Str("")
    ensures forall k :: k in project && k !in DateFields ==> e[k] == project[k]
  {
    var cut := (k: string) => if Js.Truthy(Js.Get(project, k)) then Js.DatePartOf(project[k]) else Js.Str("");
    project["start_date" := cut("start_date")]["end_date" := cut("end_date")]
           ["invoice_date" := cut("invoice_date")]["payment_date" := cut("payment_date")]
  }

  /** The spread at the head of `handleSaveEdit` (the edited project with five fields overridden), before the `forEach`. */
  function SaveEditSpread(editing: Js.Object): (u: Js.Object)
    ensures u.Keys == editing.Keys + DateFields + {"contract_amount"}
    ensures var ca := Js.Get(editing, "contract_amount");
            u["contract_amount"] == if Js.Truthy(ca) then Js.ParseInt(ca) else Js.Num(0)
    ensures forall k :: k in DateFields ==> u[k] == OrNull(Js.Get(editing, k))
    ensures forall k :: k in editing && k !in DateFields && k != "contract_amount" ==> u[k] == editing[k]
  {
    var ca := Js.Get(editing, "contract_amount");
    map k | k in editing.Keys + DateFields + {"contract_amount"} ::
      if k == "contract_amount" then (if Js.Truthy(ca) then Js.ParseInt(ca) else Js.Num(0))
      else if k in DateFields then OrNull(Js.Get(editing, k))
      else editing[k]
  }

  /** `""` becomes `null`. */
  function EmptyToNull(v: Js.Value): (r: Js.Value)
    ensures r != Js.Str("")
    ensures v != Js.Str("") ==> r == v
  {
    if v == Js.Str("") then Js.Null else v
  }

  /** `Object.keys(o).forEach(key => { if (o[key] === '') o[key] = null; })`. */
  method NullEmpties(o: Js.Object) returns (u: Js.Object)
    ensures u.Keys == o.Keys
    ensures forall k :: k in u ==> u[k] == EmptyToNull(o[k])
  {
    u := o;
    var todo := o.Keys;
    while todo != {}
      invariant todo <= o.Keys && u.Keys == o.Keys
      invariant forall k :: k in u && k !in todo ==> u[k] == EmptyToNull(o[k])
      invariant forall k :: k in todo ==> u[k] == o[k]
      decreases |todo|
    {
      var k :| k in todo;
      if u[k] == Js.Str("") {
        u := u[k := Js.Null];
      }
      todo := todo - {k};
    }
  }

  /**
   * `handleSaveEdit`'s payload: `contract_amount` is `parseInt` of a set
   * amount or 0, unset dates are `null`, and then every `""` field is
   * turned into `null`; no other field changes.
   */
  method SaveEditPayload(editing: Js.Object) returns (update: Js.Object)
    ensures update.Keys == editing.Keys + DateFields + {"contract_amount"}
    ensures forall k :: k in update ==> update[k] != Js.Str("")
    ensures var ca := Js.Get(editing, "contract_amount");
            update["contract_amount"] == if Js.Truthy(ca) then Js.ParseInt(ca) else Js.Num(0)
    ensures forall k :: k in DateFields ==> update[k] == OrNull(Js.Get(editing, k))
    ensures forall k :: k in editing && k !in DateFields && k != "contract_amount" ==>
              update[k] == EmptyToNull(editing[k])
  {
    var spread := SaveEditSpread(editing);
    update := NullEmpties(spread);
  }

  // ---------------------------------------------------------------------------
  // Inline editing of one field.

  /** `handleInlineSave(field)`: the project with that field set to the edited value, or `null` when it is empty. */
  function InlineSave(project: Js.Object, field: string, values: Js.Object): (payload: Js.Object)
    ensures payload.Keys == project.Keys + {field}
    ensures payload[field] == OrNull(Js.Get(values, field))
    ensures forall k :: k in project && k != field ==> payload[k] == project[k]
  {
    project[field := OrNull(Js.Get(values, field))]
  }

  /**
   * `handleInlineCancel(field)`: the edited value goes back to the
   * project's, cut to `YYYY-MM-DD` for a date field, or `""` when unset.
   */
  function InlineCancel(values: Js.Object, project: Js.Object, field: string): (r: Js.Object)
    ensures r.Keys == values.Keys + {field}
    ensures forall k :: k in values && k != field ==> r[k] == values[k]
    ensures !Js.Truthy(Js.Get(project, field)) ==> r[field] == Js.Str("")
    ensures Js.Truthy(Js.Get(project, field)) && !Text.Contains(field, "date") ==> r[field] == project[field]
  {
    var v := Js.Get(project, field);
    values[field := if Js.Truthy(v) then (if Text.Contains(field, "date") then Js.DatePartOf(v) else v) else Js.Str("")]
  }

  /**
   * Saving right after cancelling sends the project as it is, for a field
   * that is unset (`null`) or not a date, or a date without a time part.
   */
  lemma CancelThenSave(values: Js.Object, project: Js.Object, field: string)
    requires field in project
    requires project[field] == Js.Null || (Js.Truthy(project[field]) && !Text.Contains(field, "date"))
             || (project[field].Str? && project[field].s != "" && 'T' !in project[field].s)
    ensures InlineSave(project, field, InlineCancel(values, project, field)) == project
  {
    var v := project[field];
    if v.Str? && v.s != "" && 'T' !in v.s {
      Js.DatePartOfDate(v.s);
    }
  }
}

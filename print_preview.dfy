/**
 * The print preview of the project ledger: which projects it prints for the
 * options chosen in the print dialog, the project number column, the paid
 * amount column, and the two totals.
 */
module PrintPreviewComponent {
  import opened Base
  import opened Seqs
  import opened ApiData
  import Js
  import Text

  /** `filterOptions`: the prefix, `'all'` or a user id (a string or a number), and the general-expense switch. */
  datatype PrintOptions = PrintOptions(prefix: string, userId: Js.Value, includeGeneralExpense: bool)

  /** The code matches `^(\d+)-` and its digit group is the prefix. */
  predicate HasPrefix(prefix: string, p: ProjectJson)
  {
    Text.LeadingNumber(p.projectCode) == Some(prefix)
  }

  /** `project.user_id === parseInt(userId)`: never true for NaN or a project without an owner. */
  predicate OwnedBy(userId: Js.Value, p: ProjectJson)
  {
    var n := Js.ParseInt(userId);
    n.Num? && p.userId == Some(n.n)
  }

  /** The three filters of `loadData`, the second and third only when switched on. */
  predicate Printed(o: PrintOptions, p: ProjectJson)
  {
    && HasPrefix(o.prefix, p)
    && (o.userId == Js.Str("all") || OwnedBy(o.userId, p))
    && (o.includeGeneralExpense || p.status != Some("general_expense"))
  }

  function PrintedF(o: PrintOptions): ProjectJson -> bool
  {
    (p: ProjectJson) => Printed(o, p)
  }

  /** `filteredProjects` after the three filters, applied one after the other. */
  method PrintedProjects(projects: seq<ProjectJson>, o: PrintOptions) returns (r: seq<ProjectJson>)
    ensures r == Filter(projects, PrintedF(o))
  {
    var g1 := (p: ProjectJson) => HasPrefix(o.prefix, p);
    var g2 := (p: ProjectJson) => g1(p) && (o.userId == Js.Str("all") || OwnedBy(o.userId, p));
    r := Filter(projects, g1);
    if o.userId != Js.Str("all") {
      var keep := (p: ProjectJson) => OwnedBy(o.userId, p);
      FilterFilter(projects, g1, keep, g2);
      r := Filter(r, keep);
    } else {
      FilterExt(projects, g1, g2);
    }
    if !o.includeGeneralExpense {
      var keep := (p: ProjectJson) => p.status != Some("general_expense");
      FilterFilter(projects, g2, keep, PrintedF(o));
      r := Filter(r, keep);
    } else {
      FilterExt(projects, g2, PrintedF(o));
    }
  }

  /** The preview prints exactly the fetched projects the options select, in their order. */
  lemma PrintedExactly(projects: seq<ProjectJson>, o: PrintOptions)
    ensures forall p :: p in Filter(projects, PrintedF(o)) <==> p in projects && Printed(o, p)
  {
    FilterSpec(projects, PrintedF(o));
    forall p | p in projects && Printed(o, p) ensures p in Filter(projects, PrintedF(o)) {
      var i :| 0 <= i < |projects| && projects[i] == p;
      assert PrintedF(o)(projects[i]);
    }
  }

  /** A project coded `<prefix>-<rest>` is printed under its prefix, for every user and with general expense included. */
  lemma CodeUnderItsPrefix(p: ProjectJson, prefix: string, rest: string)
    requires |prefix| > 0 && Text.AllDigits(prefix) && p.projectCode == prefix + "-" + rest
    ensures Printed(PrintOptions(prefix, Js.Str("all"), true), p)
  {
    Text.LeadingNumberExactly(prefix, rest);
  }

  /** `extractProjectNumber`: the text after the first hyphen with something after it, else the whole code. */
  function ProjectNumber(code: string): (r: string)
    ensures Text.AfterHyphen(code).None? ==> r == code
    ensures Text.AfterHyphen(code).Some? ==> |r| < |code| && code[|code| - |r| - 1] == '-' && code[|code| - |r|..] == r
  {
    var m := Text.AfterHyphen(code);
    if m.Some? then m.value else code
  }

  /** A code `<prefix>-<number>` with a hyphen-free prefix shows its number. */
  lemma NumberAfterPrefix(prefix: string, number: string)
    requires '-' !in prefix && |number| > 0 && Text.NoLineTerminator(number)
    ensures ProjectNumber(prefix + "-" + number) == number
  {
    Text.AfterHyphenOf(prefix, number);
  }

  /** `getPaidAmount`: the contract amount once a payment date is set, else `null`. */
  function PaidAmount(p: ProjectJson): (r: Option<int>)
    ensures (p.paymentDate.Some? && p.paymentDate.value != "") ==> r == p.contractAmount
    ensures !(p.paymentDate.Some? && p.paymentDate.value != "") ==> r == None
  {
    if p.paymentDate.Some? && p.paymentDate.value != "" then p.contractAmount else None
  }

  function ContractOrZero(p: ProjectJson): int { OrZero(p.contractAmount) }

  function PaidOrZero(p: ProjectJson): int { OrZero(PaidAmount(p)) }

  /** `calculateTotals`. */
  datatype Totals = Totals(totalContract: int, totalPaid: int)

  function TotalsOf(printed: seq<ProjectJson>): (t: Totals)
    ensures t.totalContract == SumBy(printed, ContractOrZero)
    ensures t.totalPaid == SumBy(printed, PaidOrZero)
  {
    Totals(SumBy(printed, ContractOrZero), SumBy(printed, PaidOrZero))
  }

  /** With no negative contract amount, the paid total never exceeds the contract total, and both are non-negative. */
  lemma PaidWithinContract(printed: seq<ProjectJson>)
    requires forall p :: p in printed ==> OrZero(p.contractAmount) >= 0
    ensures 0 <= TotalsOf(printed).totalPaid <= TotalsOf(printed).totalContract
  {
    SumByMonotone(printed, ContractOrZero, PaidOrZero);
    SumByNonNegative(printed, PaidOrZero);
  }

  /** Once every printed project is paid, the two totals agree. */
  lemma AllPaid(printed: seq<ProjectJson>)
    requires forall p :: p in printed ==> p.paymentDate.Some? && p.paymentDate.value != ""
    ensures TotalsOf(printed).totalPaid == TotalsOf(printed).totalContract
  {
    SumByMonotone(printed, ContractOrZero, PaidOrZero);
    SumByMonotone(printed, PaidOrZero, ContractOrZero);
  }
}

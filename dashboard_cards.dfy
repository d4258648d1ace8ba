/** The dashboard's cards: a statistic, a short project list, and the per-user figures. */
module DashboardCards {
  import opened Base
  import opened Seqs
  import opened ApiData
  import Js
  import Profit

  /**
   * The amount line of `StatsCard`: a number with `¥` and its grouped form
   * (`toLocaleString`, a parameter here), a string as it is, anything else
   * rendered as nothing.
   */
  function AmountText(amount: Js.Value, grouped: int -> string): (s: string)
    ensures amount.Num? ==> s == "¥" + grouped(amount.n)
    ensures amount.Str? ==> s == amount.s
    ensures !amount.Num? && !amount.Str? ==> s == ""
  {
    match amount
    case Num(n) => "¥" + grouped(n)
    case Str(t) => t
    case _ => ""
  }

  /** The body of `ProjectListCard`: the no-data message, or the listed projects and the overflow count. */
  datatype ListBody = NoData | Listing(shown: seq<ProjectJson>, more: Option<nat>)

  function ProjectListBody(projects: Option<seq<ProjectJson>>): (b: ListBody)
    ensures b == NoData <==> projects.None? || projects.value == []
    ensures b.Listing? ==> b.shown == Take(projects.value, 5)
    ensures b.Listing? ==> (b.more.Some? <==> |projects.value| > 5)
    ensures b.Listing? && b.more.Some? ==> b.more.value == |projects.value| - 5
  {
    if projects.None? || projects.value == [] then NoData
    else
      var ps := projects.value;
      Listing(Take(ps, 5), if |ps| > 5 then Some(|ps| - 5) else None)
  }

  /**
   * The card lists the first projects in input order, at most five, and
   * the overflow note accounts for exactly the rest.
   */
  lemma ListingCoversAll(projects: seq<ProjectJson>)
    requires projects != []
    ensures var b := ProjectListBody(Some(projects));
            && b.shown == projects[..|b.shown|] && 0 < |b.shown| <= 5
            && |b.shown| + (if b.more.Some? then b.more.value else 0) == |projects|
  {
  }

  /** `stat.profit_rate >= 30 ? green : >= 20 ? yellow : red`; a missing rate compares false and shows red. */
  function UserRateColor(rate: Option<real>): (b: Profit.Band)
    ensures rate.None? ==> b == Profit.Red
    ensures rate.Some? ==> (b == Profit.Green <==> rate.value >= 30.0) && (b == Profit.Red <==> rate.value < 20.0)
  {
    if rate.Some? then Profit.RateBand(rate.value) else Profit.Red
  }
}

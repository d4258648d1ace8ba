/**
 * The dashboard page: the fiscal settings it reads, the period selector's
 * options, the summary request it sends, and the colour of the profit rate.
 */
module DashboardPage {
  import opened Base
  import opened ApiData
  import Text
  import Profit
  import DashboardRouter

  /** `fiscalSettings` once loaded. */
  datatype FiscalSettings = FiscalSettings(startMonth: string, currentPeriod: string)

  /** `fetchFiscalSettings`: each value from the settings listing, `'8'` and `'1'` when missing or empty. */
  function FiscalOf(settings: seq<SettingJson>): (f: FiscalSettings)
    ensures f.startMonth != "" && f.currentPeriod != ""
    ensures f.startMonth == "8" || exists s :: s in settings && s.key == "fiscal_year_start_month" && s.value == f.startMonth
    ensures f.currentPeriod == "1" || exists s :: s in settings && s.key == "current_fiscal_period" && s.value == f.currentPeriod
  {
    FiscalSettings(SettingOr(settings, "fiscal_year_start_month", "8"), SettingOr(settings, "current_fiscal_period", "1"))
  }

  /** Without either setting the page works with an August start and the first period. */
  lemma FiscalDefaults(settings: seq<SettingJson>)
    requires forall s :: s in settings ==> s.key != "fiscal_year_start_month" && s.key != "current_fiscal_period"
    ensures FiscalOf(settings) == FiscalSettings("8", "1")
  {
    FindSettingNone(settings, "fiscal_year_start_month");
    FindSettingNone(settings, "current_fiscal_period");
  }

  /** One `<option>` of the period selector. */
  datatype PeriodOption = PeriodOption(value: string, text: string)

  /** A number in a template literal: `NaN` for a failed `parseInt`. */
  function NumberText(n: Option<int>): string
  {
    if n.Some? then Text.IntToString(n.value) else "NaN"
  }

  function Minus1(n: Option<int>): Option<int>
  {
    if n.Some? then Some(n.value - 1) else None
  }

  /**
   * `getPeriodOptions`: nothing before the settings are loaded; then the
   * current period, the previous one and all periods, the first two labelled
   * with `parseInt(currentPeriod)` and one less.
   */
  function PeriodOptions(fiscal: Option<FiscalSettings>): (r: seq<PeriodOption>)
    ensures fiscal.None? <==> r == []
    ensures fiscal.Some? ==> |r| == 3 && r[0].value == "current" && r[1].value == "previous" && r[2].value == "all"
    ensures fiscal.Some? ==>
              var p := Text.JsParseInt(fiscal.value.currentPeriod);
              r[0].text == "今期（第" + NumberText(p) + "期）" && r[1].text == "前期（第" + NumberText(Minus1(p)) + "期）"
    ensures fiscal.Some? ==> r[2].text == "全期間"
  {
    if fiscal.None? then []
    else
      var p := Text.JsParseInt(fiscal.value.currentPeriod);
      [PeriodOption("current", "今期（第" + NumberText(p) + "期）"),
       PeriodOption("previous", "前期（第" + NumberText(Minus1(p)) + "期）"),
       PeriodOption("all", "全期間")]
  }

  /** The selector labels the periods the backend reports for `current` and `previous`. */
  lemma OptionsMatchSummary(fiscal: FiscalSettings, n: int)
    requires fiscal.currentPeriod == Text.IntToString(n)
    ensures var r := PeriodOptions(Some(fiscal));
            && DashboardRouter.PeriodDisplay(r[0].value, n) == DashboardRouter.Numbered(n)
            && DashboardRouter.PeriodDisplay(r[1].value, n) == DashboardRouter.Numbered(n - 1)
            && DashboardRouter.PeriodDisplay(r[2].value, n) == DashboardRouter.AllPeriods
            && r[0].text == "今期（第" + Text.IntToString(n) + "期）"
            && r[1].text == "前期（第" + Text.IntToString(n - 1) + "期）"
  {
    Text.JsParseIntOfIntToString(n);
  }

  /** `fetchDashboardData`: the chosen period and, whoever is signed in, `view_scope=my`. */
  function SummaryRequest(periodType: string): (q: DashboardRouter.SummaryQuery)
    ensures q.periodType == periodType && q.viewScope == Some("my")
    ensures q.startDate.None? && q.endDate.None?
  {
    DashboardRouter.SummaryQuery(periodType, None, None, Some("my"))
  }

  /** The dashboard always shows the caller's own projects, an admin's included. */
  lemma DashboardIsOwnScope(periodType: string, caller: Caller)
    ensures DashboardRouter.RestrictsToCaller(SummaryRequest(periodType).viewScope, caller)
  {
  }

  /** `getProfitRateColor`. */
  function ProfitRateColor(rate: real): (b: Profit.Band)
    ensures b == Profit.Green <==> rate >= 30.0
    ensures b == Profit.Yellow <==> 20.0 <= rate < 30.0
    ensures b == Profit.Red <==> rate < 20.0
  {
    Profit.RateBand(rate)
  }

  /** The colour of the summary's rate, decided on its integer totals. */
  lemma SummaryColor(s: DashboardRouter.Summary)
    requires s.grossProfitRate == Profit.ProfitRate(s.grossProfit, s.totalContract)
    ensures ProfitRateColor(s.grossProfitRate) ==
              if s.totalContract <= 0 then Profit.Red
              else if 10 * s.grossProfit >= 3 * s.totalContract then Profit.Green
              else if 5 * s.grossProfit >= s.totalContract then Profit.Yellow
              else Profit.Red
  {
    Profit.BandOfProfit(s.grossProfit, s.totalContract);
  }
}

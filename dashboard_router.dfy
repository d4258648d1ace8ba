/**
 * The dashboard endpoints: the summary for a fiscal period (period bounds
 * from the `fiscal_year_start_month` setting, the project scope, cost totals
 * by category, status counts and the unbilled and unpaid lists), and the
 * company-wide, personal and per-user statistics.
 *
 * The summary reads its fiscal month and current period from the key/value
 * settings `fiscal_year_start_month` and `current_fiscal_period`, not from
 * the `fiscal_settings` row the settings page edits.
 */
module DashboardRouter {
  import opened Base
  import opened Calendar
  import opened Seqs
  import opened Tables
  import opened CompanyModels
  import opened Profit
  import Text
  import SettingsRouter
  import ProjectsRouter
  import MasterDatabase

  const FiscalMonthKey: string := "fiscal_year_start_month"
  const CurrentPeriodKey: string := "current_fiscal_period"
  const UnbilledKey: string := "unbilled_definition"

  // ---------------------------------------------------------------------------
  // Settings

  /**
   * `int(row.value) if row else default` for the first row under `key`:
   * a NULL or non-numeric value raises (error 500).
   */
  function IntSetting(t: seq<Row<SystemSettings>>, key: string, default: int): (r: Result<int>)
    ensures SettingsRouter.SettingAt(t, key).None? ==> r == Ok(default)
    ensures r.Err? ==> r.error == ServerError
    ensures SettingsRouter.SettingAt(t, key).Some? ==>
      var v := SettingsRouter.SettingAt(t, key).value.value;
      && (r.Ok? <==> v.Some? && Text.PyInt(v.value).Some?)
      && (r.Ok? ==> Some(r.value) == Text.PyInt(v.value))
  {
    match SettingsRouter.SettingAt(t, key)
    case None => Ok(default)
    case Some(row) =>
      if row.value.Some? && Text.PyInt(row.value.value).Some? then Ok(Text.PyInt(row.value.value).value)
      else Err(ServerError)
  }

  /** A number stored with `update_setting` is the number the dashboard reads. */
  lemma IntSettingAfterUpdate(t: seq<Row<SystemSettings>>, key: string, n: int, default: int)
    requires Ascending(t)
    ensures IntSetting(SettingsRouter.Upsert(t, key, Text.IntToString(n)), key, default) == Ok(n)
  {
    SettingsRouter.UpsertThenGet(t, key, Text.IntToString(n), key);
    Text.PyIntOfIntToString(n);
  }

  /** `row.value if row else "completed"`; the stored value may be NULL. */
  function UnbilledRule(t: seq<Row<SystemSettings>>): Option<string>
  {
    match SettingsRouter.SettingAt(t, UnbilledKey)
    case None => Some("completed")
    case Some(row) => row.value
  }

  // ---------------------------------------------------------------------------
  // Period bounds

  /** The calendar year in which the fiscal year containing `today` began. */
  function PeriodStartYear(today: Date, fm: int): (y: int)
    ensures 1 <= fm <= 12 && 1 <= today.month <= 12 ==>
      SettingsRouter.MonthIndex(y, fm) <= SettingsRouter.MonthIndex(today.year, today.month)
      < SettingsRouter.MonthIndex(y, fm) + 12
  {
    if today.month < fm then today.year - 1 else today.year
  }

  /** The period number the settings page computes is the fiscal year's start year, counted from the first one. */
  lemma PeriodNumberOfStartYear(startYear: int, fm: int, today: Date)
    ensures SettingsRouter.CalculateCurrentPeriod(startYear, fm, today) == PeriodStartYear(today, fm) - startYear + 1
  {
  }

  datatype Bounds = Bounds(start: Date, end: Date)

  /**
   * The fiscal year beginning on the first of month `fm` of year `y`:
   * `date(y, fm, 1)` to `date(y, 12, 31)` when `fm` is 1, else to
   * `date(y + 1, fm - 1, 31)`, which raises when month `fm - 1` is short.
   */
  function FiscalYearBounds(y: int, fm: int): (r: Result<Bounds>)
    ensures r.Ok? ==> r.value.start == Date(y, fm, 1) && ValidDate(r.value.start) && ValidDate(r.value.end)
    ensures r.Err? ==> r.error == ServerError
  {
    match MakeDate(y, fm, 1)
    case Err(e) => Err(e)
    case Ok(start) =>
      match (if fm == 1 then MakeDate(y, 12, 31) else MakeDate(y + 1, fm - 1, 31))
      case Err(e) => Err(e)
      case Ok(end) => Ok(Bounds(start, end))
  }

  /** The bounds exist exactly when the month before the start month has 31 days (or the start is January). */
  lemma FiscalYearBoundsDefined(y: int, fm: int)
    requires 1 <= y && y + 1 <= 9999 && 1 <= fm <= 12
    ensures FiscalYearBounds(y, fm).Ok? <==> fm !in {3, 5, 7, 10, 12}
  {
    if fm != 1 {
      assert DaysInMonth(y + 1, fm - 1) == 31 <==> fm - 1 in {1, 3, 5, 7, 8, 10, 12};
    }
  }

  /** A fiscal year ends on the day before the next one begins. */
  lemma FiscalYearIsOneYear(y: int, fm: int)
    requires FiscalYearBounds(y, fm).Ok? && y + 1 <= 9999
    ensures NextDay(FiscalYearBounds(y, fm).value.end) == Ok(Date(y + 1, fm, 1))
  {
  }

  const AllTime: Bounds := Bounds(Date(2000, 1, 1), Date(2100, 12, 31))


  /** The period bounds of `get_dashboard_summary` for a period type and the optional custom dates. */
  function PeriodBounds(periodType: string, startDate: Option<string>, endDate: Option<string>, fm: int, today: Date)
    : (r: Result<Bounds>)
    ensures r.Ok? ==> ValidDate(r.value.start) && ValidDate(r.value.end)
    ensures r.Err? ==> r.error == ServerError
  {
    var psy := PeriodStartYear(today, fm);
    if periodType == "current" then FiscalYearBounds(psy, fm)
    else if periodType == "previous" then FiscalYearBounds(psy - 1, fm)
    else if periodType == "custom" && Truthy(startDate) && Truthy(endDate) then
      match ParseYmd(startDate.value)
      case Err(e) => Err(e)
      case Ok(start) =>
        match ParseYmd(endDate.value)
        case Err(e) => Err(e)
        case Ok(end) => Ok(Bounds(start, end))
    else Ok(AllTime)
  }

  /** The current period, when it can be computed, contains today. */
  lemma CurrentPeriodContainsToday(startDate: Option<string>, endDate: Option<string>, fm: int, today: Date)
    requires ValidDate(today)
    ensures var r := PeriodBounds("current", startDate, endDate, fm, today);
            r.Ok? ==> DateLe(r.value.start, today) && DateLe(today, r.value.end)
  {
  }

  /** The previous period ends on the day before the current one begins. */
  lemma PreviousAdjoinsCurrent(startDate: Option<string>, endDate: Option<string>, fm: int, today: Date)
    requires ValidDate(today)
    ensures var prev := PeriodBounds("previous", startDate, endDate, fm, today);
            var cur := PeriodBounds("current", startDate, endDate, fm, today);
            prev.Ok? && cur.Ok? ==> NextDay(prev.value.end) == Ok(cur.value.start)
  {
    var psy := PeriodStartYear(today, fm);
    if FiscalYearBounds(psy - 1, fm).Ok? && FiscalYearBounds(psy, fm).Ok? {
      FiscalYearIsOneYear(psy - 1, fm);
    }
  }

  /** A custom period given as two `YYYY-MM-DD` dates is exactly those dates. */
  lemma CustomPeriodOfIsoDates(a: Date, b: Date, fm: int, today: Date)
    requires ValidDate(a) && ValidDate(b)
    ensures PeriodBounds("custom", Some(IsoFormat(a)), Some(IsoFormat(b)), fm, today) == Ok(Bounds(a, b))
  {
    ParseIsoFormat(a);
    ParseIsoFormat(b);
  }

  /** Any other period type, or `custom` without both dates, spans 2000-01-01 to 2100-12-31. */
  lemma OtherPeriodIsAllTime(periodType: string, startDate: Option<string>, endDate: Option<string>, fm: int, today: Date)
    requires periodType != "current" && periodType != "previous"
    requires periodType != "custom" || !Truthy(startDate) || !Truthy(endDate)
    ensures PeriodBounds(periodType, startDate, endDate, fm, today) == Ok(AllTime)
  {
  }

  // ---------------------------------------------------------------------------
  // Project scope

  /** The summary is limited to the caller's projects for `view_scope=my` and for every non-admin. */
  predicate RestrictsToCaller(viewScope: Option<string>, caller: Caller)
  {
    viewScope == Some("my") || caller.role != "admin"
  }

  /**
   * The period condition of the restricted query, with SQL's NULL rules: a
   * comparison with a NULL date is not true, and a missing end date counts
   * as open-ended only in the last alternative.
   */
  predicate InPeriod(p: Project, b: Bounds)
  {
    || p.isGeneralExpense == Some(true)
    || (p.startDate.Some? && DateLe(b.start, p.startDate.value) && DateLe(p.startDate.value, b.end))
    || (p.endDate.Some? && DateLe(b.start, p.endDate.value) && DateLe(p.endDate.value, b.end))
    || (p.startDate.Some? && DateLe(p.startDate.value, b.start) && (p.endDate.None? || DateLe(b.end, p.endDate.value)))
  }

  /**
   * For a non-empty period, a project with both dates in order is in the
   * period exactly when it is a general expense or its run overlaps the
   * period; one with only an end date, when that date is in the period; one
   * with no dates, when it is a general expense.
   */
  lemma InPeriodIsOverlap(p: Project, b: Bounds)
    requires DateLe(b.start, b.end)
    ensures p.startDate.Some? && p.endDate.Some? && DateLe(p.startDate.value, p.endDate.value) ==>
      (InPeriod(p, b) <==>
        (p.isGeneralExpense == Some(true) || (DateLe(p.startDate.value, b.end) && DateLe(b.start, p.endDate.value))))
    ensures p.startDate.Some? && p.endDate.None? ==>
      (InPeriod(p, b) <==> p.isGeneralExpense == Some(true) || DateLe(p.startDate.value, b.end))
    ensures p.startDate.None? && p.endDate.Some? ==>
      (InPeriod(p, b) <==>
        (p.isGeneralExpense == Some(true) || (DateLe(b.start, p.endDate.value) && DateLe(p.endDate.value, b.end))))
    ensures p.startDate.None? && p.endDate.None? ==> (InPeriod(p, b) <==> p.isGeneralExpense == Some(true))
  {
    if p.startDate.Some? {
      var s := p.startDate.value;
      DateOrder(s, b.start, b.end);
      DateOrder(b.start, s, b.end);
      if p.endDate.Some? {
        var e := p.endDate.value;
        DateOrder(b.start, s, e);
        DateOrder(s, e, b.end);
        DateOrder(s, b.start, e);
        DateOrder(b.start, b.end, e);
        DateOrder(e, b.end, b.start);
      }
    }
  }

  function InScope(caller: Caller, b: Bounds): Row<Project> -> bool
  {
    (x: Row<Project>) => x.rec.userId == Some(caller.id) && InPeriod(x.rec, b)
  }

  /** The projects the summary covers: every project for an admin without `view_scope=my`. */
  function ScopedProjects(t: seq<Row<Project>>, caller: Caller, viewScope: Option<string>, b: Bounds)
    : (r: seq<Row<Project>>)
    ensures !RestrictsToCaller(viewScope, caller) ==> r == t
    ensures RestrictsToCaller(viewScope, caller) ==>
      forall x :: x in r <==> x in t && x.rec.userId == Some(caller.id) && InPeriod(x.rec, b)
  {
    FilterSpec(t, InScope(caller, b));
    if RestrictsToCaller(viewScope, caller) then Filter(t, InScope(caller, b)) else t
  }

  // ---------------------------------------------------------------------------
  // Costs and their breakdown by category

  function Ids(ps: seq<Row<Project>>): (ids: seq<int>)
    ensures |ids| == |ps| && forall i :: 0 <= i < |ps| ==> ids[i] == ps[i].id
  {
    seq(|ps|, i requires 0 <= i < |ps| => ps[i].id)
  }

  /** `project_id IN ids AND date BETWEEN start AND end`. */
  function CostInRange(ids: seq<int>, b: Bounds): Row<Cost> -> bool
  {
    (x: Row<Cost>) => x.rec.projectId in ids && DateLe(b.start, x.rec.date) && DateLe(x.rec.date, b.end)
  }

  function Amount(x: Row<Cost>): int { x.rec.amount }

  function ContractOf(x: Row<Project>): int { OrZero(x.rec.contractAmount) }

  function CategoryOf(x: Row<Cost>): Option<string> { x.rec.category }

  /** The categories occurring among the costs, each once. */
  function Categories(cs: seq<Row<Cost>>): (keys: seq<Option<string>>)
    ensures NoDuplicates(keys)
    ensures forall k :: k in keys <==> exists x :: x in cs && x.rec.category == k
  {
    var all := seq(|cs|, i requires 0 <= i < |cs| => cs[i].rec.category);
    assert forall x :: x in cs ==> x.rec.category in all by {
      forall x | x in cs ensures x.rec.category in all {
        var i :| 0 <= i < |cs| && cs[i] == x;
        assert all[i] == x.rec.category;
      }
    }
    Dedup(all)
  }

  function HasCategory(k: Option<string>): Row<Cost> -> bool
  {
    (x: Row<Cost>) => x.rec.category == k
  }

  function CategoryIn(keys: seq<Option<string>>): Row<Cost> -> bool
  {
    (x: Row<Cost>) => x.rec.category in keys
  }

  /** `SUM(amount)` over the costs of one category. */
  function CategoryTotal(cs: seq<Row<Cost>>, k: Option<string>): int
  {
    SumBy(Filter(cs, HasCategory(k)), Amount)
  }

  datatype CategoryGroup = CategoryGroup(category: Option<string>, totalCost: int)

  function GroupTotal(g: CategoryGroup): int { g.totalCost }

  /** `GROUP BY category`, one group per key. */
  function Groups(cs: seq<Row<Cost>>, keys: seq<Option<string>>): (g: seq<CategoryGroup>)
    ensures |g| == |keys|
    ensures forall i :: 0 <= i < |keys| ==> g[i] == CategoryGroup(keys[i], CategoryTotal(cs, keys[i]))
  {
    seq(|keys|, i requires 0 <= i < |keys| => CategoryGroup(keys[i], CategoryTotal(cs, keys[i])))
  }

  /** The group totals add up to the total over the costs whose category is one of the keys. */
  lemma {:induction false} GroupsPartition(cs: seq<Row<Cost>>, keys: seq<Option<string>>)
    requires NoDuplicates(keys)
    ensures SumBy(Groups(cs, keys), GroupTotal) == SumBy(Filter(cs, CategoryIn(keys)), Amount)
  {
    if keys == [] {
      FilterNone(cs, CategoryIn(keys));
    } else {
      var init, last := keys[..|keys| - 1], keys[|keys| - 1];
      GroupsPartition(cs, init);
      assert Groups(cs, keys)[..|keys| - 1] == Groups(cs, init);
      SumByFilterSplit(cs, CategoryIn(init), HasCategory(last), CategoryIn(keys), Amount);
    }
  }

  lemma {:induction false} FilterNone<T>(s: seq<T>, f: T -> bool)
    requires forall x :: !f(x)
    ensures Filter(s, f) == []
  {
    if s != [] {
      FilterNone(s[..|s| - 1], f);
    }
  }

  /** The group totals over all occurring categories add up to the total of all the costs. */
  lemma TotalOfGroups(cs: seq<Row<Cost>>)
    ensures SumBy(Groups(cs, Categories(cs)), GroupTotal) == SumBy(cs, Amount)
  {
    var keys := Categories(cs);
    GroupsPartition(cs, keys);
    FilterAll(cs, CategoryIn(keys));
  }

  /** `category_breakdown[g.category] = g.total_cost` for each group in turn. */
  method Breakdown(groups: seq<CategoryGroup>) returns (m: map<Option<string>, int>)
    requires forall i, j :: 0 <= i < j < |groups| ==> groups[i].category != groups[j].category
    ensures forall k :: k in m <==> exists i :: 0 <= i < |groups| && groups[i].category == k
    ensures forall i :: 0 <= i < |groups| ==> m[groups[i].category] == groups[i].totalCost
  {
    m := map[];
    var i := 0;
    while i < |groups|
      invariant 0 <= i <= |groups|
      invariant forall k :: k in m <==> exists j :: 0 <= j < i && groups[j].category == k
      invariant forall j :: 0 <= j < i ==> groups[j].category in m && m[groups[j].category] == groups[j].totalCost
    {
      m := m[groups[i].category := groups[i].totalCost];
      i := i + 1;
    }
  }

  // ---------------------------------------------------------------------------
  // Unbilled and unpaid projects

  /**
   * The configured unbilled rule: `active` and `completed` select projects
   * of that status, `overdue` those whose end date has passed; in every case
   * the project must have no invoice date. Any other rule selects nothing.
   */
  predicate Unbilled(p: Project, rule: Option<string>, today: Date)
  {
    && p.invoiceDate.None?
    && (|| (rule == Some("active") && p.status == Some(StatusActive))
        || (rule == Some("completed") && p.status == Some(StatusCompleted))
        || (rule == Some("overdue") && p.endDate.Some? && DateLt(p.endDate.value, today)))
  }

  /** Invoiced but not paid. */
  predicate Unpaid(p: Project)
  {
    p.invoiceDate.Some? && p.paymentDate.None?
  }

  function UnbilledFilter(rule: Option<string>, today: Date): Row<Project> -> bool
  {
    (x: Row<Project>) => !IsTrue(x.rec.isGeneralExpense) && Unbilled(x.rec, rule, today)
  }

  function UnpaidFilter(): Row<Project> -> bool
  {
    (x: Row<Project>) => !IsTrue(x.rec.isGeneralExpense) && Unpaid(x.rec)
  }

  /**
   * The loop over the projects in scope that skips general expenses and
   * appends each remaining project to the unbilled list, the unpaid list,
   * or neither; never both.
   */
  method Classify(ps: seq<Row<Project>>, rule: Option<string>, today: Date)
    returns (unbilled: seq<Row<Project>>, unpaid: seq<Row<Project>>)
    ensures unbilled == Filter(ps, UnbilledFilter(rule, today))
    ensures unpaid == Filter(ps, UnpaidFilter())
  {
    unbilled, unpaid := [], [];
    var i := 0;
    while i < |ps|
      invariant 0 <= i <= |ps|
      invariant unbilled == Filter(ps[..i], UnbilledFilter(rule, today))
      invariant unpaid == Filter(ps[..i], UnpaidFilter())
    {
      var p := ps[i];
      FilterStep(ps, i, UnbilledFilter(rule, today));
      FilterStep(ps, i, UnpaidFilter());
      // A general expense is skipped (`continue`); both filters exclude it.
      if UnbilledFilter(rule, today)(p) {
        unbilled := unbilled + [p];
      }
      if UnpaidFilter()(p) {
        unpaid := unpaid + [p];
      }
      i := i + 1;
    }
    assert ps[..|ps|] == ps;
  }

  /** No project is both unbilled and unpaid, and no general expense is either. */
  lemma UnbilledUnpaidDisjoint(ps: seq<Row<Project>>, rule: Option<string>, today: Date)
    ensures forall x :: x in Filter(ps, UnbilledFilter(rule, today)) ==> x !in Filter(ps, UnpaidFilter())
    ensures forall x :: x in Filter(ps, UnbilledFilter(rule, today)) || x in Filter(ps, UnpaidFilter()) ==>
      !IsTrue(x.rec.isGeneralExpense)
  {
    forall x | x in Filter(ps, UnbilledFilter(rule, today)) ensures x !in Filter(ps, UnpaidFilter()) {
      FilterMember(ps, UnbilledFilter(rule, today), x);
      if x in Filter(ps, UnpaidFilter()) {
        FilterMember(ps, UnpaidFilter(), x);
      }
    }
    forall x | x in Filter(ps, UnpaidFilter()) ensures !IsTrue(x.rec.isGeneralExpense) {
      FilterMember(ps, UnpaidFilter(), x);
    }
    forall x | x in Filter(ps, UnbilledFilter(rule, today)) ensures !IsTrue(x.rec.isGeneralExpense) {
      FilterMember(ps, UnbilledFilter(rule, today), x);
    }
  }

  datatype UnbilledDetail = UnbilledDetail(
    id: int, projectCode: string, name: string, clientName: Option<string>,
    contractAmount: int, status: Option<string>, endDate: Option<Date>)

  datatype UnpaidDetail = UnpaidDetail(
    id: int, projectCode: string, name: string, clientName: Option<string>,
    contractAmount: int, invoiceDate: Option<Date>)

  function UnbilledDetailOf(x: Row<Project>): UnbilledDetail
  {
    UnbilledDetail(x.id, x.rec.projectCode, x.rec.name, x.rec.clientName, ContractOf(x), x.rec.status, x.rec.endDate)
  }

  function UnpaidDetailOf(x: Row<Project>): UnpaidDetail
  {
    UnpaidDetail(x.id, x.rec.projectCode, x.rec.name, x.rec.clientName, ContractOf(x), x.rec.invoiceDate)
  }

  // ---------------------------------------------------------------------------
  // The summary

  /** `第{n}期` or `全期間`. */
  datatype PeriodLabel = Numbered(period: int) | AllPeriods

  function PeriodDisplay(periodType: string, currentPeriod: int): (l: PeriodLabel)
  {
    if periodType == "current" then Numbered(currentPeriod)
    else if periodType == "previous" then Numbered(currentPeriod - 1)
    else AllPeriods
  }

  datatype SummaryQuery = SummaryQuery(
    periodType: string, startDate: Option<string>, endDate: Option<string>, viewScope: Option<string>)

  datatype Summary = Summary(
    periodType: string, start: Date, end: Date, currentPeriod: int, fiscalMonth: int,
    totalContract: int, totalCost: int, grossProfit: int, grossProfitRate: real,
    activeCount: nat, completedCount: nat, projectCount: nat,
    costBreakdown: map<Option<string>, int>,
    unbilledCount: nat, unbilledTotal: int, unbilled: seq<UnbilledDetail>,
    unpaidCount: nat, unpaidTotal: int, unpaid: seq<UnpaidDetail>,
    periodDisplay: PeriodLabel)

  function HasStatus(status: string): Row<Project> -> bool
  {
    (x: Row<Project>) => x.rec.status == Some(status)
  }

  /** The breakdown has one entry per category occurring among the costs, holding that category's total. */
  ghost predicate BreakdownOf(m: map<Option<string>, int>, cs: seq<Row<Cost>>)
  {
    && (forall k :: k in m <==> exists x :: x in cs && x.rec.category == k)
    && (forall k :: k in m ==> m[k] == CategoryTotal(cs, k))
  }

  /** The figures over the projects `ps` and the costs `cs` in scope. */
  ghost predicate TotalsOf(s: Summary, ps: seq<Row<Project>>, cs: seq<Row<Cost>>)
  {
    && s.totalContract == SumBy(ps, ContractOf)
    && s.totalCost == SumBy(cs, Amount)
    && s.grossProfit == s.totalContract - s.totalCost
    && s.grossProfitRate == ProfitRate(s.grossProfit, s.totalContract)
    && s.activeCount == |Filter(ps, HasStatus(StatusActive))|
    && s.completedCount == |Filter(ps, HasStatus(StatusCompleted))|
    && s.projectCount == |ps|
    && BreakdownOf(s.costBreakdown, cs)
  }

  /** The unbilled and unpaid parts, from the two selected lists. */
  ghost predicate ListsOf(s: Summary, unbilled: seq<Row<Project>>, unpaid: seq<Row<Project>>)
  {
    && s.unbilledCount == |unbilled| && s.unbilledTotal == SumBy(unbilled, ContractOf)
    && |s.unbilled| == |unbilled| && (forall i :: 0 <= i < |unbilled| ==> s.unbilled[i] == UnbilledDetailOf(unbilled[i]))
    && s.unpaidCount == |unpaid| && s.unpaidTotal == SumBy(unpaid, ContractOf)
    && |s.unpaid| == |unpaid| && (forall i :: 0 <= i < |unpaid| ==> s.unpaid[i] == UnpaidDetailOf(unpaid[i]))
  }

  /** What the summary reports for fiscal month `fm`, current period `cp` and bounds `b`. */
  ghost predicate SummaryOf(s: Summary, db: CompanyDb, caller: Caller, q: SummaryQuery, fm: int, cp: int, b: Bounds, today: Date)
    reads db
  {
    var ps := ScopedProjects(db.projects, caller, q.viewScope, b);
    var cs := Filter(db.costs, CostInRange(Ids(ps), b));
    && s.periodType == q.periodType && s.start == b.start && s.end == b.end
    && s.currentPeriod == cp && s.fiscalMonth == fm
    && TotalsOf(s, ps, cs)
    && ListsOf(s, Filter(ps, UnbilledFilter(UnbilledRule(db.settings), today)), Filter(ps, UnpaidFilter()))
    && s.periodDisplay == PeriodDisplay(q.periodType, cp)
  }

  /**
   * `GET /api/dashboard/summary`. The settings are read first (a stored
   * value that is not an integer is an error 500), then the bounds (an
   * impossible date is an error 500). The total cost is the sum of the
   * category breakdown, and no project is both unbilled and unpaid.
   */
  method GetDashboardSummary(db: CompanyDb, caller: Caller, q: SummaryQuery, today: Date) returns (r: Result<Summary>)
    ensures r.Err? ==> r.error == ServerError
    ensures r.Err? <==>
      || IntSetting(db.settings, FiscalMonthKey, 8).Err?
      || IntSetting(db.settings, CurrentPeriodKey, 1).Err?
      || PeriodBounds(q.periodType, q.startDate, q.endDate, IntSetting(db.settings, FiscalMonthKey, 8).value, today).Err?
    ensures r.Ok? ==>
      var fm := IntSetting(db.settings, FiscalMonthKey, 8).value;
      var b := PeriodBounds(q.periodType, q.startDate, q.endDate, fm, today).value;
      SummaryOf(r.value, db, caller, q, fm, IntSetting(db.settings, CurrentPeriodKey, 1).value, b, today)
  {
    var fmr := IntSetting(db.settings, FiscalMonthKey, 8);
    if fmr.Err? { return Err(fmr.error); }
    var cpr := IntSetting(db.settings, CurrentPeriodKey, 1);
    if cpr.Err? { return Err(cpr.error); }
    var fm, cp := fmr.value, cpr.value;
    var rule := UnbilledRule(db.settings);
    var br := PeriodBounds(q.periodType, q.startDate, q.endDate, fm, today);
    if br.Err? { return Err(br.error); }
    var b := br.value;

    var ps := ScopedProjects(db.projects, caller, q.viewScope, b);
    var cs := Filter(db.costs, CostInRange(Ids(ps), b));
    var s := Summarize(q.periodType, b, cp, fm, ps, cs, rule, today);
    r := Ok(s);
  }

  /** The figures of the summary, computed over the projects `ps` and the costs `cs` in scope. */
  method Summarize(periodType: string, b: Bounds, cp: int, fm: int, ps: seq<Row<Project>>, cs: seq<Row<Cost>>,
                   rule: Option<string>, today: Date) returns (s: Summary)
    ensures s.periodType == periodType && s.start == b.start && s.end == b.end
    ensures s.currentPeriod == cp && s.fiscalMonth == fm
    ensures TotalsOf(s, ps, cs)
    ensures ListsOf(s, Filter(ps, UnbilledFilter(rule, today)), Filter(ps, UnpaidFilter()))
    ensures s.periodDisplay == PeriodDisplay(periodType, cp)
  {
    var totalContract := SumBy(ps, ContractOf);
    var totalCost, breakdown := CostFigures(cs);
    var grossProfit := totalContract - totalCost;
    var unbilled, unpaid := Classify(ps, rule, today);
    var unbilledDetails, unpaidDetails := UnbilledDetails(unbilled), UnpaidDetails(unpaid);
    s := Summary(
      periodType, b.start, b.end, cp, fm,
      totalContract, totalCost, grossProfit, ProfitRate(grossProfit, totalContract),
      |Filter(ps, HasStatus(StatusActive))|, |Filter(ps, HasStatus(StatusCompleted))|, |ps|,
      breakdown,
      |unbilled|, SumBy(unbilled, ContractOf), unbilledDetails,
      |unpaid|, SumBy(unpaid, ContractOf), unpaidDetails,
      PeriodDisplay(periodType, cp));
  }

  /** The total cost, taken as the sum of the category groups, and the breakdown by category. */
  method CostFigures(cs: seq<Row<Cost>>) returns (totalCost: int, breakdown: map<Option<string>, int>)
    ensures totalCost == SumBy(cs, Amount)
    ensures BreakdownOf(breakdown, cs)
  {
    var groups := Groups(cs, Categories(cs));
    totalCost := SumBy(groups, GroupTotal);
    TotalOfGroups(cs);
    breakdown := Breakdown(groups);
    BreakdownOfGroups(breakdown, cs, groups);
  }

  function UnbilledDetails(xs: seq<Row<Project>>): (d: seq<UnbilledDetail>)
    ensures |d| == |xs| && forall i :: 0 <= i < |xs| ==> d[i] == UnbilledDetailOf(xs[i])
  {
    seq(|xs|, i requires 0 <= i < |xs| => UnbilledDetailOf(xs[i]))
  }

  function UnpaidDetails(xs: seq<Row<Project>>): (d: seq<UnpaidDetail>)
    ensures |d| == |xs| && forall i :: 0 <= i < |xs| ==> d[i] == UnpaidDetailOf(xs[i])
  {
    seq(|xs|, i requires 0 <= i < |xs| => UnpaidDetailOf(xs[i]))
  }

  lemma BreakdownOfGroups(m: map<Option<string>, int>, cs: seq<Row<Cost>>, groups: seq<CategoryGroup>)
    requires groups == Groups(cs, Categories(cs))
    requires forall k :: k in m <==> exists i :: 0 <= i < |groups| && groups[i].category == k
    requires forall i :: 0 <= i < |groups| ==> m[groups[i].category] == groups[i].totalCost
    ensures BreakdownOf(m, cs)
  {
    BreakdownKeys(m, Categories(cs), groups);
    BreakdownValues(m, cs, groups);
  }

  lemma BreakdownKeys(m: map<Option<string>, int>, keys: seq<Option<string>>, groups: seq<CategoryGroup>)
    requires |groups| == |keys| && forall i :: 0 <= i < |keys| ==> groups[i].category == keys[i]
    requires forall k :: k in m <==> exists i :: 0 <= i < |groups| && groups[i].category == k
    ensures forall k :: k in m <==> k in keys
  {
    forall k | k in m ensures k in keys {
      var i :| 0 <= i < |groups| && groups[i].category == k;
      assert keys[i] == k;
    }
    forall k | k in keys ensures k in m {
      var i :| 0 <= i < |keys| && keys[i] == k;
      assert groups[i].category == k;
    }
  }

  lemma BreakdownValues(m: map<Option<string>, int>, cs: seq<Row<Cost>>, groups: seq<CategoryGroup>)
    requires groups == Groups(cs, Categories(cs))
    requires forall k :: k in m <==> exists i :: 0 <= i < |groups| && groups[i].category == k
    requires forall i :: 0 <= i < |groups| ==> m[groups[i].category] == groups[i].totalCost
    ensures forall k :: k in m ==> m[k] == CategoryTotal(cs, k)
  {
    forall k | k in m ensures m[k] == CategoryTotal(cs, k) {
      var i :| 0 <= i < |groups| && groups[i].category == k;
    }
  }



  // ---------------------------------------------------------------------------
  // Company-wide, personal and per-user statistics

  function OfProjects(ids: seq<int>): Row<Cost> -> bool
  {
    (x: Row<Cost>) => x.rec.projectId in ids
  }

  /** `SUM(amount)` over the costs of the given projects, or 0 (`... or 0 if project_ids else 0`). */
  function CostOfProjects(t: seq<Row<Cost>>, ids: seq<int>): int
  {
    if ids == [] then 0 else SumBy(Filter(t, OfProjects(ids)), Amount)
  }

  /** The shortcut for no projects agrees with the sum: the total is always the sum over the projects' costs. */
  lemma CostOfProjectsIsSum(t: seq<Row<Cost>>, ids: seq<int>)
    ensures CostOfProjects(t, ids) == SumBy(Filter(t, OfProjects(ids)), Amount)
  {
    if ids == [] {
      FilterNone(t, OfProjects(ids));
    }
  }

  /** `user.name if user else "不明"` for the user with the project's `user_id`. */
  function UserName(users: seq<Row<MasterDatabase.User>>, uid: Option<int>): string
  {
    if uid.None? then "不明"
    else match Get(users, uid.value)
      case None => "不明"
      case Some(u) => u.name
  }

  datatype ActiveProject = ActiveProject(
    id: int, projectCode: string, name: string, contractAmount: int, clientName: Option<string>, userName: string)

  function ActiveProjectOf(x: Row<Project>, users: seq<Row<MasterDatabase.User>>): ActiveProject
  {
    ActiveProject(x.id, x.rec.projectCode, x.rec.name, ContractOf(x), x.rec.clientName, UserName(users, x.rec.userId))
  }

  /**
   * `status == "active" AND is_general_expense != True`: in SQL a NULL flag
   * makes the comparison NULL, so only projects explicitly not general
   * expenses are kept.
   */
  function ActiveWork(): Row<Project> -> bool
  {
    (x: Row<Project>) => x.rec.status == Some(StatusActive) && x.rec.isGeneralExpense == Some(false)
  }

  datatype CompanyStats = CompanyStats(
    totalProjects: nat, totalAmount: int, totalCost: int, grossProfit: int, profitRate: real,
    activeProjects: seq<ActiveProject>)

  /** `GET /api/dashboard/all`: admins only; totals over every project and the active ones with their owner's name. */
  method GetAllDashboard(db: CompanyDb, master: MasterDatabase.MasterDb, caller: Caller) returns (r: Result<CompanyStats>)
    ensures !IsAdmin(caller) <==> r == Err(Forbidden)
    ensures r.Ok? ==>
      var s := r.value;
      var active := Filter(db.projects, ActiveWork());
      && s.totalProjects == |db.projects|
      && s.totalAmount == SumBy(db.projects, ContractOf)
      && s.totalCost == SumBy(Filter(db.costs, OfProjects(Ids(db.projects))), Amount)
      && s.grossProfit == s.totalAmount - s.totalCost
      && s.profitRate == ProfitRate(s.grossProfit, s.totalAmount)
      && |s.activeProjects| == |active|
      && forall i :: 0 <= i < |active| ==> s.activeProjects[i] == ActiveProjectOf(active[i], master.users)
  {
    if !IsAdmin(caller) {
      return Err(Forbidden);
    }
    var active := Filter(db.projects, ActiveWork());
    var infos: seq<ActiveProject> := [];
    var i := 0;
    while i < |active|
      invariant 0 <= i <= |active|
      invariant |infos| == i
      invariant forall j :: 0 <= j < i ==> infos[j] == ActiveProjectOf(active[j], master.users)
    {
      infos := infos + [ActiveProjectOf(active[i], master.users)];
      i := i + 1;
    }
    var totalAmount := SumBy(db.projects, ContractOf);
    var ids := Ids(db.projects);
    var totalCost := CostOfProjects(db.costs, ids);
    CostOfProjectsIsSum(db.costs, ids);
    var grossProfit := totalAmount - totalCost;
    r := Ok(CompanyStats(|db.projects|, totalAmount, totalCost, grossProfit, ProfitRate(grossProfit, totalAmount), infos));
  }

  datatype OwnProject = OwnProject(id: int, projectCode: string, name: string, contractAmount: int, clientName: Option<string>)

  function OwnProjectOf(x: Row<Project>): OwnProject
  {
    OwnProject(x.id, x.rec.projectCode, x.rec.name, ContractOf(x), x.rec.clientName)
  }

  /** `now.replace(day=1)`: the first of the month, at the same time of day. */
  function MonthStart(now: Timestamp): (m: Timestamp)
    ensures m.date.year == now.date.year && m.date.month == now.date.month && m.date.day == 1
    ensures m.micros == now.micros
    ensures ValidDate(now.date) ==> ValidDate(m.date) && TsLe(m, now)
  {
    Timestamp(Date(now.date.year, now.date.month, 1), now.micros)
  }

  function CreatedSince(m: Timestamp): Row<Project> -> bool
  {
    (x: Row<Project>) => TsLe(m, x.rec.createdAt)
  }

  function CostCreatedSince(ids: seq<int>, m: Timestamp): Row<Cost> -> bool
  {
    (x: Row<Cost>) => x.rec.projectId in ids && TsLe(m, x.rec.createdAt)
  }

  datatype MyStats = MyStats(
    totalAmount: int, totalCost: int, grossProfit: int, profitRate: real,
    activeProjects: seq<OwnProject>, completedProjects: seq<Row<Project>>,
    monthlyProjects: nat, monthlyCosts: nat, monthlyAmount: int)

  /**
   * `GET /api/dashboard/my`: totals over the caller's projects, the active
   * ones, the first five completed ones, and what was created since the
   * first of the current month.
   */
  method GetMyDashboard(db: CompanyDb, caller: Caller, now: Timestamp) returns (s: MyStats)
    ensures var mine := ProjectsRouter.OwnedBy(db.projects, caller.id);
      && s.totalAmount == SumBy(mine, ContractOf)
      && s.totalCost == SumBy(Filter(db.costs, OfProjects(Ids(mine))), Amount)
      && s.grossProfit == s.totalAmount - s.totalCost
      && s.profitRate == ProfitRate(s.grossProfit, s.totalAmount)
      && s.completedProjects == Take(Filter(mine, HasStatus(StatusCompleted)), 5)
      && |s.activeProjects| == |Filter(mine, HasStatus(StatusActive))|
      && (forall i :: 0 <= i < |s.activeProjects| ==>
            s.activeProjects[i] == OwnProjectOf(Filter(mine, HasStatus(StatusActive))[i]))
      && s.monthlyProjects == |Filter(mine, CreatedSince(MonthStart(now)))|
      && s.monthlyCosts == |Filter(db.costs, CostCreatedSince(Ids(mine), MonthStart(now)))|
      && s.monthlyAmount == SumBy(Filter(mine, CreatedSince(MonthStart(now))), ContractOf)
    ensures |s.completedProjects| <= 5
    ensures forall x :: x in s.completedProjects ==>
      x in db.projects && x.rec.userId == Some(caller.id) && x.rec.status == Some(StatusCompleted)
  {
    var mine := ProjectsRouter.OwnedBy(db.projects, caller.id);
    var activeList := Filter(mine, HasStatus(StatusActive));
    var active: seq<OwnProject> := [];
    var i := 0;
    while i < |activeList|
      invariant 0 <= i <= |activeList|
      invariant |active| == i
      invariant forall j :: 0 <= j < i ==> active[j] == OwnProjectOf(activeList[j])
    {
      active := active + [OwnProjectOf(activeList[i])];
      i := i + 1;
    }
    var completed := Filter(mine, HasStatus(StatusCompleted));
    FilterSpec(mine, HasStatus(StatusCompleted));
    var firstFive := Take(completed, 5);
    forall x | x in firstFive ensures x in completed {
      var k :| 0 <= k < |firstFive| && firstFive[k] == x;
      assert completed[k] == x;
    }
    var totalAmount := SumBy(mine, ContractOf);
    var ids := Ids(mine);
    var totalCost := CostOfProjects(db.costs, ids);
    CostOfProjectsIsSum(db.costs, ids);
    var grossProfit := totalAmount - totalCost;
    var monthStart := MonthStart(now);
    var recent := Filter(mine, CreatedSince(monthStart));
    s := MyStats(totalAmount, totalCost, grossProfit, ProfitRate(grossProfit, totalAmount),
      active, firstFive,
      |recent|, |Filter(db.costs, CostCreatedSince(ids, monthStart))|, SumBy(recent, ContractOf));
  }

  datatype UserStat = UserStat(userId: int, userName: string, projectCount: nat, totalAmount: int, profitRate: real)

  /** A user's entry: their projects, the sum of those projects' amounts, and the rate after those projects' costs. */
  function UserStatOf(projects: seq<Row<Project>>, costs: seq<Row<Cost>>, u: Row<MasterDatabase.User>): UserStat
  {
    var own := ProjectsRouter.OwnedBy(projects, u.id);
    var amount := SumBy(own, ContractOf);
    UserStat(u.id, u.rec.name, |own|, amount, ProfitRate(amount - SumBy(Filter(costs, OfProjects(Ids(own))), Amount), amount))
  }

  /** The entry's rate is taken after the cost the `IN` query over the user's project ids returns. */
  lemma UserStatOfCost(projects: seq<Row<Project>>, costs: seq<Row<Cost>>, u: Row<MasterDatabase.User>)
    ensures var own := ProjectsRouter.OwnedBy(projects, u.id);
      var amount := SumBy(own, ContractOf);
      UserStatOf(projects, costs, u) == UserStat(u.id, u.rec.name, |own|, amount, ProfitRate(amount - CostOfProjects(costs, Ids(own)), amount))
  {
    var own := ProjectsRouter.OwnedBy(projects, u.id);
    CostOfProjectsIsSum(costs, Ids(own));
  }

  /** The loop of `get_user_stats`: one entry per user, in the given order. */
  method StatsOfUsers(projects: seq<Row<Project>>, costs: seq<Row<Cost>>, users: seq<Row<MasterDatabase.User>>)
    returns (stats: seq<UserStat>)
    ensures |stats| == |users|
    ensures forall i :: 0 <= i < |users| ==> stats[i] == UserStatOf(projects, costs, users[i])
  {
    stats := [];
    var i := 0;
    while i < |users|
      invariant 0 <= i <= |users|
      invariant |stats| == i
      invariant forall j :: 0 <= j < i ==> stats[j] == UserStatOf(projects, costs, users[j])
    {
      var u := users[i];
      var own := ProjectsRouter.OwnedBy(projects, u.id);
      var amount := SumBy(own, ContractOf);
      var cost := CostOfProjects(costs, Ids(own));
      UserStatOfCost(projects, costs, u);
      stats := stats + [UserStat(u.id, u.rec.name, |own|, amount, ProfitRate(amount - cost, amount))];
      i := i + 1;
    }
  }

  /** `GET /api/dashboard/users`: admins only; one entry per user of the caller's company, in table order. */
  method GetUserStats(db: CompanyDb, master: MasterDatabase.MasterDb, caller: Caller) returns (r: Result<seq<UserStat>>)
    ensures !IsAdmin(caller) <==> r == Err(Forbidden)
    ensures r.Ok? ==>
      var users := MasterDatabase.UsersOf(master.users, caller.companyId);
      && |r.value| == |users|
      && forall i :: 0 <= i < |users| ==> r.value[i] == UserStatOf(db.projects, db.costs, users[i])
  {
    if !IsAdmin(caller) {
      return Err(Forbidden);
    }
    var stats := StatsOfUsers(db.projects, db.costs, MasterDatabase.UsersOf(master.users, caller.companyId));
    r := Ok(stats);
  }
}

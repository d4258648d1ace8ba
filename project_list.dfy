/**
 * The project list page: each fetched project with its cost total, gross
 * profit, rate and owner, the column sort (nulls last, case-insensitive
 * strings), the full project code, and the search and filter panel applied
 * to the sorted list.
 */
module ProjectListPage {
  import opened Base
  import opened Seqs
  import opened ApiData
  import opened ListSort
  import Text
  import ProjectDetailPage

  /** A project as the list holds it, with the fields `fetchProjects` adds. */
  datatype Listed = Listed(
    project: ProjectJson,
    totalCost: int,
    grossProfit: int,
    rate: real,
    userName: string,
    userStaffCode: string)

  /** `usersList.find(u => u.id === project.user_id)`. */
  function FindUser(users: seq<UserJson>, userId: Option<int>): (r: Option<UserJson>)
    ensures r.Some? ==> r.value in users && userId == Some(r.value.id)
  {
    Find(users, (u: UserJson) => userId == Some(u.id))
  }

  /** No user is found only when no user has the project's owner id. */
  lemma FindUserNone(users: seq<UserJson>, userId: Option<int>)
    ensures FindUser(users, userId).None? <==> forall u :: u in users ==> userId != Some(u.id)
  {
    FindNone(users, (u: UserJson) => userId == Some(u.id));
  }

  /**
   * One element of `projectsWithProfit`: `costs` is the response of the
   * project's cost request, of which only that project's costs count; the
   * owner's name and staff code are `''` when the owner is not among `users`.
   */
  function WithProfit(project: ProjectJson, costs: seq<CostJson>, users: seq<UserJson>): (l: Listed)
    ensures l.project == project
    ensures var f := ProjectDetailPage.FiguresOf(project.contractAmount, ProjectDetailPage.ProjectCosts(costs, project.id));
            l.totalCost == f.totalCost && l.grossProfit == f.grossProfit && l.rate == f.rate
    ensures FindUser(users, project.userId).None? ==> l.userName == "" && l.userStaffCode == ""
    ensures l.userStaffCode != "" ==>
              exists u :: u in users && project.userId == Some(u.id) && u.staffCode == Some(l.userStaffCode)
  {
    var f := ProjectDetailPage.FiguresOf(project.contractAmount, ProjectDetailPage.ProjectCosts(costs, project.id));
    var owner := FindUser(users, project.userId);
    var name := if owner.Some? then owner.value.name else "";
    var staff := if owner.Some? && owner.value.staffCode.Some? then owner.value.staffCode.value else "";
    Listed(project, f.totalCost, f.grossProfit, f.rate, name, staff)
  }

  // ---------------------------------------------------------------------------
  // Sorting.

  /** The sortable columns. */
  datatype ProjectKey = CodeKey | NameKey | ClientKey

  /** `a[sortConfig.key]`: only the client name may be null. */
  function KeyValue(key: ProjectKey, l: Listed): Option<string>
  {
    match key
    case CodeKey => Some(l.project.projectCode)
    case NameKey => Some(l.project.name)
    case ClientKey => l.project.clientName
  }

  /**
   * "`a` may come before `b`" for `getSortedProjects`' comparator: a null
   * value comes after every value in both directions, and two strings
   * compare on their lower-cased forms, flipped for descending.
   */
  function ProjectLe(key: ProjectKey, dir: Direction): (Listed, Listed) -> bool
  {
    (a: Listed, b: Listed) =>
      var x, y := KeyValue(key, a), KeyValue(key, b);
      if x.None? then y.None?
      else if y.None? then true
      else if dir == Asc then Text.CodeUnitLe(Text.Lower(x.value), Text.Lower(y.value))
      else Text.CodeUnitLe(Text.Lower(y.value), Text.Lower(x.value))
  }

  lemma ProjectLeTotal(key: ProjectKey, dir: Direction)
    ensures TotalPreorder(ProjectLe(key, dir))
  {
    var le := ProjectLe(key, dir);
    forall a: Listed, b: Listed, c: Listed
      ensures (le(a, b) || le(b, a)) && (le(a, b) && le(b, c) ==> le(a, c))
    {
      var x, y, z := KeyValue(key, a), KeyValue(key, b), KeyValue(key, c);
      if x.Some? && y.Some? && z.Some? {
        Text.StrLeTotalOrder(Text.JavaScript, Text.Lower(x.value), Text.Lower(y.value), Text.Lower(z.value));
        Text.StrLeTotalOrder(Text.JavaScript, Text.Lower(z.value), Text.Lower(y.value), Text.Lower(x.value));
      } else if x.Some? && y.Some? {
        Text.StrLeTotalOrder(Text.JavaScript, Text.Lower(x.value), Text.Lower(y.value), Text.Lower(x.value));
      }
    }
  }

  /** `getSortedProjects`: the list itself without a key, else a sorted copy (the list is not mutated). */
  function SortedProjects(projects: seq<Listed>, config: SortConfig<ProjectKey>): (r: seq<Listed>)
    ensures config.key.None? ==> r == projects
    ensures multiset(r) == multiset(projects)
  {
    if config.key.None? then projects else SortBy(projects, ProjectLe(config.key.value, config.direction))
  }

  /** The sorted copy is ordered by the comparator, so projects without a value come last. */
  lemma SortedNullsLast(projects: seq<Listed>, config: SortConfig<ProjectKey>)
    requires config.key.Some?
    ensures var r := SortedProjects(projects, config);
            && SortedBy(r, ProjectLe(config.key.value, config.direction))
            && forall i, j :: 0 <= i < j < |r| && KeyValue(config.key.value, r[i]).None? ==>
                 KeyValue(config.key.value, r[j]).None?
  {
    ProjectLeTotal(config.key.value, config.direction);
    SortBySorted(projects, ProjectLe(config.key.value, config.direction));
    var r := SortedProjects(projects, config);
    forall i, j | 0 <= i < j < |r| && KeyValue(config.key.value, r[i]).None?
      ensures KeyValue(config.key.value, r[j]).None?
    {
      assert ProjectLe(config.key.value, config.direction)(r[i], r[j]);
    }
  }

  // ---------------------------------------------------------------------------
  // The full code and the search.

  /** `project.period && project.userStaffCode`: both set, the period non-zero. */
  predicate HasFullCode(l: Listed)
  {
    l.project.period.Some? && l.project.period.value != 0 && l.userStaffCode != ""
  }

  /** The displayed code: zero-padded period, staff code, `-`, project code, or the project code alone. */
  function FullCode(l: Listed): (s: string)
    ensures !HasFullCode(l) ==> s == l.project.projectCode
    ensures HasFullCode(l) ==>
              var head := Text.PadStart(Text.IntToString(l.project.period.value), 2, '0') + l.userStaffCode;
              s == head + "-" + l.project.projectCode && |head| >= 3
  {
    if HasFullCode(l) then Text.PadStart(Text.IntToString(l.project.period.value), 2, '0') + l.userStaffCode + "-" + l.project.projectCode
    else l.project.projectCode
  }

  /** The full code always ends with the project code. */
  lemma FullCodeEndsWithCode(l: Listed)
    ensures var s := FullCode(l);
            |s| >= |l.project.projectCode| && s[|s| - |l.project.projectCode|..] == l.project.projectCode
  {
    var s := FullCode(l);
    var c := l.project.projectCode;
    if HasFullCode(l) {
      var head := Text.PadStart(Text.IntToString(l.project.period.value), 2, '0') + l.userStaffCode + "-";
      assert s == head + c;
      assert s[|s| - |c|..] == c;
    }
  }

  /** The search keeps a project whose name, client, code or full code contains the term, ignoring case. */
  predicate SearchHit(term: string, l: Listed)
  {
    var t := Text.Lower(term);
    || Text.Contains(Text.Lower(l.project.name), t)
    || (l.project.clientName.Some? && Text.Contains(Text.Lower(l.project.clientName.value), t))
    || Text.Contains(Text.Lower(l.project.projectCode), t)
    || Text.Contains(Text.Lower(FullCode(l)), t)
  }

  /** Searching for a project's own name finds it. */
  lemma SearchFindsOwnName(l: Listed)
    ensures SearchHit(l.project.name, l)
  {
    Text.ContainsSelf(Text.Lower(l.project.name));
  }

  // ---------------------------------------------------------------------------
  // The filter panel.

  /** `searchTerm`, `statusFilter`, `startDateFrom/To` and `amountFrom/To` as the inputs hold them. */
  datatype Panel = Panel(search: string, status: string, dateFrom: string, dateTo: string, amountFrom: string, amountTo: string)

  /** `project.contract_amount >= parseInt(bound)`; `null` compares as 0 and NaN never passes. */
  predicate AmountAtLeast(l: Listed, bound: string)
  {
    var b := Text.JsParseInt(bound);
    b.Some? && OrZero(l.project.contractAmount) >= b.value
  }

  predicate AmountAtMost(l: Listed, bound: string)
  {
    var b := Text.JsParseInt(bound);
    b.Some? && OrZero(l.project.contractAmount) <= b.value
  }

  /** `project.start_date && pick(project.start_date)`: a project without a start date fails a set bound. */
  predicate StartsFrom(l: Listed, bound: string)
  {
    l.project.startDate.Some? && l.project.startDate.value != "" && Text.CodeUnitLe(bound, l.project.startDate.value)
  }

  predicate StartsBy(l: Listed, bound: string)
  {
    l.project.startDate.Some? && l.project.startDate.value != "" && Text.CodeUnitLe(l.project.startDate.value, bound)
  }

  /** Each panel constraint applies only when its input is set (`'all'` for the status). */
  predicate Keep(p: Panel, l: Listed)
  {
    Wanted(p, l) && InRange(p, l)
  }

  /** The search and status constraints. */
  predicate Wanted(p: Panel, l: Listed)
  {
    (p.search == "" || SearchHit(p.search, l)) && (p.status == "all" || l.project.status == Some(p.status))
  }

  /** The start-date and amount bounds. */
  predicate InRange(p: Panel, l: Listed)
  {
    && (p.dateFrom == "" || StartsFrom(l, p.dateFrom))
    && (p.dateTo == "" || StartsBy(l, p.dateTo))
    && (p.amountFrom == "" || AmountAtLeast(l, p.amountFrom))
    && (p.amountTo == "" || AmountAtMost(l, p.amountTo))
  }

  function KeepF(p: Panel): Listed -> bool
  {
    (l: Listed) => Keep(p, l)
  }

  /** The search filter, then the status filter. */
  method FilterWanted(s: seq<Listed>, p: Panel) returns (r: seq<Listed>)
    ensures r == Filter(s, (l: Listed) => Wanted(p, l))
  {
    var g0 := (l: Listed) => true;
    var g1 := (l: Listed) => p.search == "" || SearchHit(p.search, l);
    r := s;
    FilterAll(s, g0);
    if p.search != "" {
      var keep := (l: Listed) => SearchHit(p.search, l);
      FilterFilter(s, g0, keep, g1);
      r := Filter(r, keep);
    } else {
      FilterExt(s, g0, g1);
    }
    if p.status != "all" {
      var keep := (l: Listed) => l.project.status == Some(p.status);
      FilterFilter(s, g1, keep, (l: Listed) => Wanted(p, l));
      r := Filter(r, keep);
    } else {
      FilterExt(s, g1, (l: Listed) => Wanted(p, l));
    }
  }

  /** The two start-date filters, then the two amount filters. */
  method FilterInRange(s: seq<Listed>, p: Panel) returns (r: seq<Listed>)
    ensures r == Filter(s, (l: Listed) => InRange(p, l))
  {
    var g0 := (l: Listed) => true;
    var g1 := (l: Listed) => p.dateFrom == "" || StartsFrom(l, p.dateFrom);
    var g2 := (l: Listed) => g1(l) && (p.dateTo == "" || StartsBy(l, p.dateTo));
    var g3 := (l: Listed) => g2(l) && (p.amountFrom == "" || AmountAtLeast(l, p.amountFrom));
    r := s;
    FilterAll(s, g0);
    if p.dateFrom != "" {
      var keep := (l: Listed) => StartsFrom(l, p.dateFrom);
      FilterFilter(s, g0, keep, g1);
      r := Filter(r, keep);
    } else {
      FilterExt(s, g0, g1);
    }
    if p.dateTo != "" {
      var keep := (l: Listed) => StartsBy(l, p.dateTo);
      FilterFilter(s, g1, keep, g2);
      r := Filter(r, keep);
    } else {
      FilterExt(s, g1, g2);
    }
    if p.amountFrom != "" {
      var keep := (l: Listed) => AmountAtLeast(l, p.amountFrom);
      FilterFilter(s, g2, keep, g3);
      r := Filter(r, keep);
    } else {
      FilterExt(s, g2, g3);
    }
    if p.amountTo != "" {
      var keep := (l: Listed) => AmountAtMost(l, p.amountTo);
      FilterFilter(s, g3, keep, (l: Listed) => InRange(p, l));
      r := Filter(r, keep);
    } else {
      FilterExt(s, g3, (l: Listed) => InRange(p, l));
    }
  }

  /** `getFilteredProjects`: the sorted list narrowed filter by filter. */
  method FilteredProjects(projects: seq<Listed>, config: SortConfig<ProjectKey>, p: Panel) returns (r: seq<Listed>)
    ensures r == Filter(SortedProjects(projects, config), KeepF(p))
  {
    var s := SortedProjects(projects, config);
    var wanted := FilterWanted(s, p);
    r := FilterInRange(wanted, p);
    FilterFilter(s, (l: Listed) => Wanted(p, l), (l: Listed) => InRange(p, l), KeepF(p));
  }

  /**
   * The shown list holds exactly the projects the panel keeps, each as often
   * as fetched, in the sorted order when a column is chosen and in fetch
   * order otherwise.
   */
  lemma ShownProjects(projects: seq<Listed>, config: SortConfig<ProjectKey>, p: Panel)
    ensures var r := Filter(SortedProjects(projects, config), KeepF(p));
            && multiset(r) == multiset(Filter(projects, KeepF(p)))
            && (config.key.None? ==> r == Filter(projects, KeepF(p)))
            && (config.key.Some? ==> SortedBy(r, ProjectLe(config.key.value, config.direction)))
  {
    FilterPermutation(SortedProjects(projects, config), projects, KeepF(p));
    if config.key.Some? {
      SortedNullsLast(projects, config);
      FilterSorted(SortedProjects(projects, config), KeepF(p), ProjectLe(config.key.value, config.direction));
    }
  }

  /** With every input empty and the status `'all'`, the whole list is shown. */
  lemma EmptyPanelShowsAll(projects: seq<Listed>)
    ensures Filter(projects, KeepF(Panel("", "all", "", "", "", ""))) == projects
  {
    FilterAll(projects, KeepF(Panel("", "all", "", "", "", "")));
  }

  /** An amount range keeps a project exactly when its contract (0 when unset) lies between both bounds. */
  lemma AmountRange(l: Listed, lo: int, hi: int)
    ensures AmountAtLeast(l, Text.IntToString(lo)) && AmountAtMost(l, Text.IntToString(hi)) <==>
              lo <= OrZero(l.project.contractAmount) <= hi
  {
    Text.JsParseIntOfIntToString(lo);
    Text.JsParseIntOfIntToString(hi);
  }
}

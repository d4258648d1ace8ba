/**
 * The cost table the cost list and the cost management page both show: the
 * four header filters, the column sort, the total and the option lists of
 * the filters, which both pages compute the same way; then the edit
 * dialog's form and payload. The cost list opens the dialog on the cost
 * with its date cut to the date part, while the cost management page opens
 * it on the cost as fetched and sends that.
 */
module CostTable {
  import opened Base
  import opened Seqs
  import opened ApiData
  import opened ListSort
  import Js
  import Text

  /** `headerFilters`: each `""` while unset. */
  datatype HeaderFilters = HeaderFilters(date: string, projectId: string, vendor: string, category: string)

  /** `handleResetFilters`. */
  const NoFilters: HeaderFilters := HeaderFilters("", "", "", "")

  /**
   * The four exact-match constraints, each only when its filter is set: the
   * date on its `YYYY-MM-DD` part, the project id against `parseInt` of the
   * filter (never equal to NaN), the vendor and the category as they are
   * (a NULL category is `null`, which no filter string equals).
   */
  predicate Matches(f: HeaderFilters, c: CostJson)
  {
    && (f.date == "" || Js.DatePart(c.date) == f.date)
    && (f.projectId == "" || Text.JsParseInt(f.projectId) == Some(c.projectId))
    && (f.vendor == "" || c.vendor == f.vendor)
    && (f.category == "" || c.category == Some(f.category))
  }

  function MatchesF(f: HeaderFilters): CostJson -> bool
  {
    (c: CostJson) => Matches(f, c)
  }

  /** `filteredCosts` reassigned filter by filter, each filter applied only when it is set. */
  method FilterCosts(costs: seq<CostJson>, f: HeaderFilters) returns (r: seq<CostJson>)
    ensures r == Filter(costs, MatchesF(f))
  {
    var g0 := (c: CostJson) => true;
    var g1 := (c: CostJson) => f.date == "" || Js.DatePart(c.date) == f.date;
    var g2 := (c: CostJson) => g1(c) && (f.projectId == "" || Text.JsParseInt(f.projectId) == Some(c.projectId));
    var g3 := (c: CostJson) => g2(c) && (f.vendor == "" || c.vendor == f.vendor);
    r := costs;
    FilterAll(costs, g0);
    if f.date != "" {
      r := Filter(r, (c: CostJson) => Js.DatePart(c.date) == f.date);
      FilterFilter(costs, g0, (c: CostJson) => Js.DatePart(c.date) == f.date, g1);
    } else {
      FilterExt(costs, g0, g1);
    }
    if f.projectId != "" {
      var keep := (c: CostJson) => Text.JsParseInt(f.projectId) == Some(c.projectId);
      FilterFilter(costs, g1, keep, g2);
      r := Filter(r, keep);
    } else {
      FilterExt(costs, g1, g2);
    }
    if f.vendor != "" {
      var keep := (c: CostJson) => c.vendor == f.vendor;
      FilterFilter(costs, g2, keep, g3);
      r := Filter(r, keep);
    } else {
      FilterExt(costs, g2, g3);
    }
    if f.category != "" {
      var keep := (c: CostJson) => c.category == Some(f.category);
      FilterFilter(costs, g3, keep, MatchesF(f));
      r := Filter(r, keep);
    } else {
      FilterExt(costs, g3, MatchesF(f));
    }
  }

  /** The filtered costs are the costs meeting every set filter, in their order. */
  lemma FilteredExactly(costs: seq<CostJson>, f: HeaderFilters)
    ensures forall c :: c in Filter(costs, MatchesF(f)) <==> c in costs && Matches(f, c)
  {
    FilterSpec(costs, MatchesF(f));
    forall c | c in costs && Matches(f, c) ensures c in Filter(costs, MatchesF(f)) {
      var i :| 0 <= i < |costs| && costs[i] == c;
      assert MatchesF(f)(costs[i]);
    }
  }

  /** After `handleResetFilters` every cost is shown again. */
  lemma ResetShowsAll(costs: seq<CostJson>)
    ensures Filter(costs, MatchesF(NoFilters)) == costs
  {
    FilterAll(costs, MatchesF(NoFilters));
  }

  // ---------------------------------------------------------------------------
  // Sorting.

  /** The sortable columns: the header of each calls `handleSort` with its key. */
  datatype CostKey = DateKey | VendorKey | CategoryKey | AmountKey

  /**
   * `a.category < b.category`: two categories compare by UTF-16 code unit;
   * `null` is never less than or greater than anything, since `<` turns it
   * into 0 and a category name into NaN.
   */
  predicate CategoryLess(a: Option<string>, b: Option<string>)
  {
    a.Some? && b.Some? && Text.StrLt(Text.JavaScript, a.value, b.value)
  }

  /** `a[key] < b[key]`: UTF-16 code-unit order on the string columns, numeric on the amount. */
  predicate Less(key: CostKey, a: CostJson, b: CostJson)
  {
    match key
    case DateKey => Text.StrLt(Text.JavaScript, a.date, b.date)
    case VendorKey => Text.StrLt(Text.JavaScript, a.vendor, b.vendor)
    case CategoryKey => CategoryLess(a.category, b.category)
    case AmountKey => a.amount < b.amount
  }

  /** The costs compared on `key` all hold a value in that column. */
  predicate Keyed(key: CostKey, c: CostJson)
  {
    key == CategoryKey ==> c.category.Some?
  }

  /**
   * "`a` may come before `b`": the comparator returns at most 0, that is
   * `b < a` fails when ascending and `a < b` fails when descending.
   */
  function CostLe(key: CostKey, dir: Direction): (CostJson, CostJson) -> bool
  {
    (a: CostJson, b: CostJson) => if dir == Asc then !Less(key, b, a) else !Less(key, a, b)
  }

  lemma LessStrict(key: CostKey, a: CostJson, b: CostJson, c: CostJson)
    requires Keyed(key, a) && Keyed(key, b) && Keyed(key, c)
    ensures !(Less(key, a, b) && Less(key, b, a))
    ensures Less(key, a, c) ==> Less(key, a, b) || Less(key, b, c)
  {
    match key
    case DateKey => StrLessStrict(a.date, b.date, c.date);
    case VendorKey => StrLessStrict(a.vendor, b.vendor, c.vendor);
    case CategoryKey => StrLessStrict(a.category.value, b.category.value, c.category.value);
    case AmountKey =>
  }

  lemma StrLessStrict(a: string, b: string, c: string)
    ensures !(Text.StrLt(Text.JavaScript, a, b) && Text.StrLt(Text.JavaScript, b, a))
    ensures Text.StrLt(Text.JavaScript, a, c) ==> Text.StrLt(Text.JavaScript, a, b) || Text.StrLt(Text.JavaScript, b, c)
  {
    if Text.StrLt(Text.JavaScript, a, b) { Text.StrLtAsymmetric(Text.JavaScript, a, b); }
    if Text.StrLt(Text.JavaScript, a, c) && !Text.StrLt(Text.JavaScript, a, b) {
      Text.StrLtTrichotomy(Text.JavaScript, a, b);
      if a != b { Text.StrLtTransitive(Text.JavaScript, b, a, c); }
    }
  }

  /**
   * A NULL category breaks the comparator: `null` ties with two categories
   * that are ordered, so on the category column the comparator is no total
   * preorder and the order `Array.prototype.sort` leaves is not defined.
   */
  lemma NullCategoryInconsistent(dir: Direction, a: CostJson, b: CostJson, n: CostJson)
    requires a.category.Some? && b.category.Some? && Text.StrLt(Text.JavaScript, a.category.value, b.category.value)
    requires n.category.None?
    ensures CostLe(CategoryKey, dir)(a, n) && CostLe(CategoryKey, dir)(n, a)
    ensures CostLe(CategoryKey, dir)(b, n) && CostLe(CategoryKey, dir)(n, b)
    ensures !TotalPreorder(CostLe(CategoryKey, dir))
  {
    Text.StrLtAsymmetric(Text.JavaScript, a.category.value, b.category.value);
    if dir == Asc {
      assert CostLe(CategoryKey, dir)(b, n) && CostLe(CategoryKey, dir)(n, a) && !CostLe(CategoryKey, dir)(b, a);
    } else {
      assert CostLe(CategoryKey, dir)(a, n) && CostLe(CategoryKey, dir)(n, b) && !CostLe(CategoryKey, dir)(a, b);
    }
  }

  /** The comparator is consistent on costs that hold a value in the column: there it is a total preorder. */
  lemma CostLeTotal(key: CostKey, dir: Direction, costs: seq<CostJson>)
    requires forall c :: c in costs ==> Keyed(key, c)
    ensures TotalPreorderOn(costs, CostLe(key, dir))
  {
    forall a, b, c | a in costs && b in costs && c in costs
      ensures (CostLe(key, dir)(a, b) || CostLe(key, dir)(b, a))
           && (CostLe(key, dir)(a, b) && CostLe(key, dir)(b, c) ==> CostLe(key, dir)(a, c))
    {
      LessStrict(key, a, b, c);
      LessStrict(key, c, b, a);
    }
  }

  /** The filtered costs, sorted when a column is chosen; `Array.prototype.sort` is stable. */
  function SortCosts(filtered: seq<CostJson>, config: SortConfig<CostKey>): (r: seq<CostJson>)
    ensures config.key.None? ==> r == filtered
    ensures multiset(r) == multiset(filtered)
  {
    if config.key.None? then filtered else SortBy(filtered, CostLe(config.key.value, config.direction))
  }

  /** The shown list is the filtered subset, reordered, ordered by the chosen column and direction. */
  lemma SortCostsSorted(filtered: seq<CostJson>, config: SortConfig<CostKey>)
    requires config.key.Some? && forall c :: c in filtered ==> Keyed(config.key.value, c)
    ensures SortedBy(SortCosts(filtered, config), CostLe(config.key.value, config.direction))
  {
    CostLeTotal(config.key.value, config.direction, filtered);
    SortBySortedOn(filtered, CostLe(config.key.value, config.direction), filtered);
  }

  /** The list the page shows: filters first, then the sort. */
  method ShownCosts(costs: seq<CostJson>, f: HeaderFilters, config: SortConfig<CostKey>) returns (r: seq<CostJson>)
    ensures r == SortCosts(Filter(costs, MatchesF(f)), config)
  {
    var filtered := FilterCosts(costs, f);
    r := SortCosts(filtered, config);
  }

  /** `totalAmount`: the sum over the shown costs equals the sum over the filtered costs, whatever the sort. */
  lemma TotalOfShown(costs: seq<CostJson>, f: HeaderFilters, config: SortConfig<CostKey>)
    ensures TotalAmount(SortCosts(Filter(costs, MatchesF(f)), config)) == TotalAmount(Filter(costs, MatchesF(f)))
  {
    TotalAmountPermutation(Filter(costs, MatchesF(f)), SortCosts(Filter(costs, MatchesF(f)), config));
  }

  /** Reordering does not change a total. */
  lemma {:induction false} TotalAmountPermutation(a: seq<CostJson>, b: seq<CostJson>)
    requires multiset(a) == multiset(b)
    ensures TotalAmount(a) == TotalAmount(b)
    decreases |a|
  {
    if a != [] {
      var x := a[|a| - 1];
      assert x in multiset(b);
      var i :| 0 <= i < |b| && b[i] == x;
      var rest := b[..i] + b[i + 1..];
      assert b == b[..i] + [x] + b[i + 1..];
      assert a == a[..|a| - 1] + [x];
      assert multiset(a) == multiset(a[..|a| - 1]) + multiset{x};
      assert multiset(b) == multiset(b[..i]) + multiset{x} + multiset(b[i + 1..]);
      assert multiset(rest) == multiset(b[..i]) + multiset(b[i + 1..]);
      assert multiset(a[..|a| - 1]) == multiset(a) - multiset{x};
      assert multiset(rest) == multiset(b) - multiset{x};
      TotalAmountPermutation(a[..|a| - 1], rest);
      TotalAmountAppend(b[..i] + [x], b[i + 1..]);
      TotalAmountAppend(b[..i], [x]);
      TotalAmountAppend(b[..i], b[i + 1..]);
      assert TotalAmount([x]) == x.amount by {
        assert [x][..0] == [];
      }
    }
  }

  // ---------------------------------------------------------------------------
  // The filters' option lists.

  /** A string column's value as `.sort()` sees it. */
  function AsText(s: string): string { s }

  /** A category as `.sort()` sees it: `String(null)` is `"null"`. */
  function CategoryText(c: Option<string>): string
  {
    if c.Some? then c.value else "null"
  }

  /** `.sort()` with no comparator: the values' strings in UTF-16 code-unit order. */
  function TextLe<T>(text: T -> string): (T, T) -> bool
  {
    (a: T, b: T) => Text.CodeUnitLe(text(a), text(b))
  }

  lemma TextLeTotal<T(!new)>(text: T -> string)
    ensures TotalPreorder(TextLe(text))
  {
    Text.StrLeTotal();
    forall a: T, b: T, c: T
      ensures (TextLe(text)(a, b) || TextLe(text)(b, a))
           && (TextLe(text)(a, b) && TextLe(text)(b, c) ==> TextLe(text)(a, c))
    {
      assert Text.CodeUnitLe(text(a), text(b)) || Text.CodeUnitLe(text(b), text(a));
    }
  }

  /** `[...new Set(xs)].sort()`: the distinct values, ordered by their strings in UTF-16 code-unit order. */
  function SortedUnique<T(==)>(xs: seq<T>, text: T -> string): (r: seq<T>)
    ensures multiset(r) == multiset(Dedup(xs))
  {
    SortBy(Dedup(xs), TextLe(text))
  }

  /** An option list holds every value once, in ascending order, and nothing else. */
  lemma SortedUniqueSpec<T(!new)>(xs: seq<T>, text: T -> string)
    ensures NoDuplicates(SortedUnique(xs, text)) && SortedBy(SortedUnique(xs, text), TextLe(text))
    ensures forall x :: x in SortedUnique(xs, text) <==> x in xs
  {
    TextLeTotal(text);
    SortBySorted(Dedup(xs), TextLe(text));
    NoDuplicatesPermutation(Dedup(xs), SortedUnique(xs, text));
    forall x ensures x in SortedUnique(xs, text) <==> x in xs {
      assert x in SortedUnique(xs, text) <==> x in multiset(SortedUnique(xs, text));
      assert x in Dedup(xs) <==> x in multiset(Dedup(xs));
    }
  }

  /** The category options: a NULL category is offered once, as `null`, placed where `"null"` sorts. */
  lemma CategoryOptions(costs: seq<CostJson>)
    ensures var r := SortedUnique(Categories(costs), CategoryText);
            && NoDuplicates(r) && SortedBy(r, TextLe(CategoryText))
            && (None in r <==> exists i :: 0 <= i < |costs| && costs[i].category.None?)
            && forall s :: Some(s) in r <==> exists i :: 0 <= i < |costs| && costs[i].category == Some(s)
  {
    var xs := Categories(costs);
    SortedUniqueSpec(xs, CategoryText);
    forall o ensures o in xs <==> exists i :: 0 <= i < |costs| && costs[i].category == o {
      if o in xs {
        var i :| 0 <= i < |xs| && xs[i] == o;
        assert costs[i].category == o;
      }
    }
  }

  function Dates(costs: seq<CostJson>): (r: seq<string>)
    ensures |r| == |costs| && forall i :: 0 <= i < |r| ==> r[i] == Js.DatePart(costs[i].date)
  {
    seq(|costs|, i requires 0 <= i < |costs| => Js.DatePart(costs[i].date))
  }

  function Vendors(costs: seq<CostJson>): (r: seq<string>)
    ensures |r| == |costs| && forall i :: 0 <= i < |r| ==> r[i] == costs[i].vendor
  {
    seq(|costs|, i requires 0 <= i < |costs| => costs[i].vendor)
  }

  function Categories(costs: seq<CostJson>): (r: seq<Option<string>>)
    ensures |r| == |costs| && forall i :: 0 <= i < |r| ==> r[i] == costs[i].category
  {
    seq(|costs|, i requires 0 <= i < |costs| => costs[i].category)
  }

  // ---------------------------------------------------------------------------
  // The edit dialog.

  /** `handleEdit(cost)`: the cost with its date cut to `YYYY-MM-DD`. */
  function CostEditForm(cost: Js.Object): (e: Js.Object)
    ensures e.Keys == cost.Keys + {"date"}
    ensures e["date"] == Js.DatePartOf(Js.Get(cost, "date"))
    ensures forall k :: k in cost && k != "date" ==> e[k] == cost[k]
  {
    cost["date" := Js.DatePartOf(Js.Get(cost, "date"))]
  }

  const AmountFields: set<string> := {"amount", "total_amount"}

  /** `handleSaveEdit`: the edited cost with `amount == total_amount == parseInt(amount)`. */
  function CostEditPayload(e: Js.Object): (p: Js.Object)
    ensures p.Keys == e.Keys + AmountFields
    ensures p["amount"] == p["total_amount"] == Js.ParseInt(Js.Get(e, "amount"))
    ensures p["amount"].Num? || p["amount"] == Js.Null
    ensures forall k :: k in e && k !in AmountFields ==> p[k] == e[k]
  {
    map k | k in e.Keys + AmountFields :: if k in AmountFields then Js.ParseInt(Js.Get(e, "amount")) else e[k]
  }

  /** Opening the dialog and saving unchanged sends the cost's own amount for both amount fields. */
  lemma EditUnchanged(cost: Js.Object, amount: int)
    requires Js.Get(cost, "amount") == Js.Num(amount)
    ensures var p := CostEditPayload(CostEditForm(cost));
            p["amount"] == Js.Num(amount) && p["total_amount"] == Js.Num(amount)
  {
  }

  /**
   * The cost management page's `handleSaveEdit` sends the cost as fetched,
   * with only the two amounts replaced: its date goes back uncut.
   */
  lemma ManagementEditKeepsDate(cost: Js.Object, amount: int)
    requires Js.Get(cost, "amount") == Js.Num(amount)
    ensures var p := CostEditPayload(cost);
            && p["amount"] == Js.Num(amount) && p["total_amount"] == Js.Num(amount)
            && ("date" in cost ==> p["date"] == cost["date"])
  {
  }

  // ---------------------------------------------------------------------------
  // The entry form of the cost management page and of the cost form.

  /** The projects offered for a new cost: `projects.filter(p => p.status === 'active')`. */
  function ActiveProjects(projects: seq<ProjectJson>): (r: seq<ProjectJson>)
    ensures |r| <= |projects|
  {
    Filter(projects, (p: ProjectJson) => p.status == Some("active"))
  }

  /** Exactly the active projects are selectable, in the order fetched. */
  lemma ActiveProjectsExactly(projects: seq<ProjectJson>)
    ensures forall p :: p in ActiveProjects(projects) <==> p in projects && p.status == Some("active")
  {
    var keep := (p: ProjectJson) => p.status == Some("active");
    FilterSpec(projects, keep);
    forall p | p in projects && p.status == Some("active") ensures p in ActiveProjects(projects) {
      var i :| 0 <= i < |projects| && projects[i] == p;
      assert keep(projects[i]);
    }
  }

  /** `formData` as the entry form opens: no project, today's date, `tax_type` included. */
  function EntryInitial(today: string, category: string): (f: Js.Object)
    ensures f.Keys == EntryFields
    ensures f["project_id"] == f["vendor"] == f["description"] == f["amount"] == Js.Str("")
    ensures f["date"] == Js.Str(today) && f["category"] == Js.Str(category)
    ensures f["tax_type"] == Js.Str("included")
  {
    map["project_id" := Js.Str(""), "date" := Js.Str(today), "vendor" := Js.Str(""),
        "description" := Js.Str(""), "amount" := Js.Str(""), "category" := Js.Str(category),
        "tax_type" := Js.Str("included")]
  }

  const EntryFields: set<string> := {"project_id", "date", "vendor", "description", "amount", "category", "tax_type"}

  /** The three fields a submit clears. */
  const ClearedFields: set<string> := {"vendor", "description", "amount"}

  /** `!formData.project_id || !formData.vendor || !formData.amount` refuses the submit. */
  predicate EntryComplete(form: Js.Object)
  {
    Js.Truthy(Js.Get(form, "project_id")) && Js.Truthy(Js.Get(form, "vendor")) && Js.Truthy(Js.Get(form, "amount"))
  }

  /** `{...formData, amount: parseInt(amount), total_amount: parseInt(amount)}`. */
  function EntryPayload(form: Js.Object): (p: Js.Object)
    ensures p.Keys == form.Keys + AmountFields
    ensures p["amount"] == p["total_amount"] == Js.ParseInt(Js.Get(form, "amount"))
    ensures forall k :: k in form && k !in AmountFields ==> p[k] == form[k]
  {
    map k | k in form.Keys + AmountFields :: if k in AmountFields then Js.ParseInt(Js.Get(form, "amount")) else form[k]
  }

  /** `{...formData, vendor: '', description: '', amount: ''}`. */
  function PartialReset(form: Js.Object): (r: Js.Object)
    ensures r.Keys == form.Keys + ClearedFields
    ensures forall k :: k in ClearedFields ==> r[k] == Js.Str("")
    ensures forall k :: k in form && k !in ClearedFields ==> r[k] == form[k]
  {
    map k | k in form.Keys + ClearedFields :: if k in ClearedFields then Js.Str("") else form[k]
  }

  /**
   * After a submit the form keeps its project, date, category and tax type
   * for the next entry, and is refused again until a vendor and an amount are
   * entered anew.
   */
  lemma ResetNeedsNewEntry(form: Js.Object)
    ensures !EntryComplete(PartialReset(form))
    ensures forall k :: k in {"project_id", "date", "category", "tax_type"} && k in form ==> PartialReset(form)[k] == form[k]
  {
    assert "vendor" in ClearedFields;
  }
}

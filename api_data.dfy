/**
 * The rows the pages receive from the API, as JSON carries them: dates are
 * ISO strings, nullable columns are `Option`s. Only the fields the pages
 * read are kept.
 */
module ApiData {
  import opened Base
  import opened Seqs

  datatype ProjectJson = ProjectJson(
    id: int,
    projectCode: string,
    name: string,
    clientName: Option<string>,
    contractAmount: Option<int>,
    status: Option<string>,
    startDate: Option<string>,
    paymentDate: Option<string>,
    period: Option<int>,
    userId: Option<int>)

  datatype CostJson = CostJson(
    id: int,
    projectId: int,
    date: string,
    vendor: string,
    category: Option<string>,
    amount: int)

  datatype UserJson = UserJson(id: int, name: string, staffCode: Option<string>)

  /** The amounts of the costs, added left to right (`reduce((sum, c) => sum + c.amount, 0)`). */
  function TotalAmount(costs: seq<CostJson>): int
  {
    if costs == [] then 0 else TotalAmount(costs[..|costs| - 1]) + costs[|costs| - 1].amount
  }

  lemma {:induction false} TotalAmountAppend(a: seq<CostJson>, b: seq<CostJson>)
    ensures TotalAmount(a + b) == TotalAmount(a) + TotalAmount(b)
    decreases |b|
  {
    if b == [] {
      assert a + b == a;
    } else {
      assert (a + b)[..|a + b| - 1] == a + b[..|b| - 1];
      TotalAmountAppend(a, b[..|b| - 1]);
    }
  }

  /** A total of non-negative amounts is non-negative. */
  lemma {:induction false} TotalAmountNonNegative(costs: seq<CostJson>)
    requires forall i :: 0 <= i < |costs| ==> costs[i].amount >= 0
    ensures TotalAmount(costs) >= 0
  {
    if costs != [] {
      TotalAmountNonNegative(costs[..|costs| - 1]);
    }
  }

  /** A row of the settings listing: a missing value arrives as `""`. */
  datatype SettingJson = SettingJson(key: string, value: string)

  /** `settings.find(s => s.key === key)`. */
  function FindSetting(settings: seq<SettingJson>, key: string): (r: Option<SettingJson>)
    ensures r.Some? ==> r.value in settings && r.value.key == key
  {
    Find(settings, (s: SettingJson) => s.key == key)
  }

  lemma FindSettingNone(settings: seq<SettingJson>, key: string)
    ensures FindSetting(settings, key).None? <==> forall s :: s in settings ==> s.key != key
  {
    FindNone(settings, (s: SettingJson) => s.key == key);
  }

  /** `settings.find(s => s.key === key)?.value || fallback`. */
  function SettingOr(settings: seq<SettingJson>, key: string, fallback: string): (v: string)
    ensures v == fallback || exists s :: s in settings && s.key == key && s.value == v
    ensures v == "" ==> fallback == ""
  {
    var s := FindSetting(settings, key);
    if s.Some? && s.value.value != "" then s.value.value else fallback
  }

  /** The fallback is used exactly when the key is missing or its value empty, for a listing with one row per key. */
  lemma SettingOrExactly(settings: seq<SettingJson>, key: string, fallback: string)
    requires forall i, j :: 0 <= i < j < |settings| ==> settings[i].key != settings[j].key
    ensures forall s :: s in settings && s.key == key && s.value != "" ==> SettingOr(settings, key, fallback) == s.value
    ensures (forall s :: s in settings ==> s.key != key) ==> SettingOr(settings, key, fallback) == fallback
  {
    FindSettingNone(settings, key);
    var f := FindSetting(settings, key);
    forall s | s in settings && s.key == key && s.value != "" ensures SettingOr(settings, key, fallback) == s.value {
      assert f.Some?;
      var i :| 0 <= i < |settings| && settings[i] == s;
      var j :| 0 <= j < |settings| && settings[j] == f.value;
      assert i == j;
    }
  }

  /** A cost category as the listing sends it. */
  datatype CategoryJson = CategoryJson(id: int, name: string, color: string, isDefault: bool)
}


/**
 * The settings endpoints: the fiscal-period number, the `fiscal_settings`
 * row (read with a default row created on demand, updated by admins), and
 * the generic key/value settings with their upsert.
 */
module SettingsRouter {
  import opened Base
  import opened Calendar
  import opened Tables
  import opened CompanyModels
  import opened Schemas

  const FiscalKey: string := "fiscal_settings"

  /** Months counted from January of year 0, so that months compare as integers. */
  function MonthIndex(year: int, month: int): int { year * 12 + month - 1 }

  /**
   * `calculate_current_period`: the number of the fiscal period `now` falls
   * in, period 1 being the one that starts in `startMonth` of `startYear`.
   * Nothing is clamped: before the first period the number is 0 or negative.
   * For a real start month, period `p` covers the months from `startMonth`
   * of year `startYear + p - 1` up to the month before its next start.
   */
  function CalculateCurrentPeriod(startYear: int, startMonth: int, now: Date): (period: int)
    ensures 1 <= startMonth <= 12 && 1 <= now.month <= 12 ==>
      MonthIndex(startYear + period - 1, startMonth) <= MonthIndex(now.year, now.month)
      < MonthIndex(startYear + period, startMonth)
  {
    if now.month >= startMonth then now.year - startYear + 1 else now.year - startYear
  }

  /** The period is the only number whose months contain `now`. */
  lemma PeriodUnique(startYear: int, startMonth: int, now: Date, p: int)
    requires 1 <= startMonth <= 12 && 1 <= now.month <= 12
    requires MonthIndex(startYear + p - 1, startMonth) <= MonthIndex(now.year, now.month)
    requires MonthIndex(now.year, now.month) < MonthIndex(startYear + p, startMonth)
    ensures p == CalculateCurrentPeriod(startYear, startMonth, now)
  {
  }

  /** Moving from the month before the start month to the start month raises the period by one. */
  lemma PeriodStepsAtStartMonth(startYear: int, startMonth: int, year: int)
    requires 2 <= startMonth <= 12
    ensures CalculateCurrentPeriod(startYear, startMonth, Date(year, startMonth, 1))
         == CalculateCurrentPeriod(startYear, startMonth, Date(year, startMonth - 1, 1)) + 1
  {
  }

  /** Within one year, two months on the same side of the start month share a period. */
  lemma PeriodConstantWithinSide(startYear: int, startMonth: int, a: Date, b: Date)
    requires a.year == b.year
    requires (a.month >= startMonth) == (b.month >= startMonth)
    ensures CalculateCurrentPeriod(startYear, startMonth, a) == CalculateCurrentPeriod(startYear, startMonth, b)
  {
  }

  /** The index of the first row stored under `key` (`filter(key == ...).first()`). */
  function FirstWithKey(t: seq<Row<SystemSettings>>, key: string): (r: Option<nat>)
    ensures r.Some? ==> r.value < |t| && t[r.value].rec.key == key
    ensures r.Some? ==> forall j :: 0 <= j < r.value ==> t[j].rec.key != key
    ensures r.None? <==> forall j :: 0 <= j < |t| ==> t[j].rec.key != key
  {
    if t == [] then None
    else if t[0].rec.key == key then Some(0)
    else
      match FirstWithKey(t[1..], key)
      case None => None
      case Some(i) => Some(i + 1)
  }

  /** The setting under `key`, as `get_setting` finds it. */
  function SettingAt(t: seq<Row<SystemSettings>>, key: string): Option<SystemSettings>
  {
    match FirstWithKey(t, key)
    case None => None
    case Some(i) => Some(t[i].rec)
  }

  // ---------------------------------------------------------------------------
  // The fiscal settings row.

  /** The row `get_fiscal_settings` and `create_project` create when there is none. */
  const DefaultFiscalRow: SystemSettings :=
    SystemSettings(key := FiscalKey, fiscalStartYear := 2000, fiscalStartMonth := 8, staffCodeDigits := Some(3))

  datatype FiscalResponse = FiscalResponse(
    fiscalStartYear: int, fiscalStartMonth: int, staffCodeDigits: int, currentPeriod: int)

  /**
   * The response for a fiscal row. `staff_code_digits` must be an integer in
   * the response model, so a row whose digits were set to null is an error 500.
   */
  function FiscalResponseOf(row: SystemSettings, now: Date): (r: Result<FiscalResponse>)
    ensures r.Ok? <==> row.staffCodeDigits.Some?
    ensures r.Err? ==> r.error == ServerError
    ensures r.Ok? ==> r.value.fiscalStartYear == row.fiscalStartYear
                      && r.value.fiscalStartMonth == row.fiscalStartMonth
                      && r.value.staffCodeDigits == row.staffCodeDigits.value
                      && r.value.currentPeriod
                         == CalculateCurrentPeriod(row.fiscalStartYear, row.fiscalStartMonth, now)
  {
    if row.staffCodeDigits.None? then Err(ServerError)
    else Ok(FiscalResponse(row.fiscalStartYear, row.fiscalStartMonth, row.staffCodeDigits.value,
                           CalculateCurrentPeriod(row.fiscalStartYear, row.fiscalStartMonth, now)))
  }

  /**
   * The fiscal row, inserting the default row (2000, 8, 3) first when the
   * table has none; shared by `get_fiscal_settings` and `create_project`.
   */
  method EnsureFiscalRow(db: CompanyDb) returns (row: SystemSettings)
    requires db.Valid()
    modifies db
    ensures db.Valid()
    ensures FirstWithKey(old(db.settings), FiscalKey).Some? ==>
              db.settings == old(db.settings) && row == old(SettingAt(db.settings, FiscalKey)).value
    ensures FirstWithKey(old(db.settings), FiscalKey).None? ==>
              db.settings == Insert(old(db.settings), DefaultFiscalRow) && row == DefaultFiscalRow
    ensures SettingAt(db.settings, FiscalKey) == Some(row)
    ensures db.projects == old(db.projects) && db.costs == old(db.costs) && db.vendors == old(db.vendors)
    ensures db.categories == old(db.categories) && db.customers == old(db.customers)
  {
    match FirstWithKey(db.settings, FiscalKey)
    case Some(i) =>
      row := db.settings[i].rec;
    case None =>
      InsertKeepsFirst(db.settings, DefaultFiscalRow);
      db.settings := Insert(db.settings, DefaultFiscalRow);
      row := DefaultFiscalRow;
  }

  /** Appending a row under a key no row has makes that row the first under it. */
  lemma InsertKeepsFirst(t: seq<Row<SystemSettings>>, row: SystemSettings)
    requires Ascending(t)
    requires FirstWithKey(t, row.key).None?
    ensures FirstWithKey(Insert(t, row), row.key) == Some(|t|)
  {
    var u := Insert(t, row);
    assert u[|t|].rec.key == row.key;
    var f := FirstWithKey(u, row.key);
    assert f.Some?;
    assert forall j :: 0 <= j < |t| ==> u[j].rec.key == t[j].rec.key != row.key;
  }

  /** `get_fiscal_settings`. */
  method GetFiscalSettings(db: CompanyDb, now: Date) returns (r: Result<FiscalResponse>)
    requires db.Valid()
    modifies db
    ensures db.Valid()
    ensures FirstWithKey(old(db.settings), FiscalKey).Some? ==>
              db.settings == old(db.settings) && r == FiscalResponseOf(old(SettingAt(db.settings, FiscalKey)).value, now)
    ensures FirstWithKey(old(db.settings), FiscalKey).None? ==>
              db.settings == Insert(old(db.settings), DefaultFiscalRow)
              && r == Ok(FiscalResponse(2000, 8, 3, CalculateCurrentPeriod(2000, 8, now)))
    ensures db.projects == old(db.projects) && db.costs == old(db.costs) && db.vendors == old(db.vendors)
    ensures db.categories == old(db.categories) && db.customers == old(db.customers)
  {
    var row := EnsureFiscalRow(db);
    r := FiscalResponseOf(row, now);
  }

  /** The body of `PUT /fiscal` (`FiscalSettingsUpdate`). */
  datatype FiscalBody = FiscalBody(
    fiscalStartYear: Input<int>, fiscalStartMonth: Input<int>, staffCodeDigits: Input<Option<int>>)

  datatype FiscalUpdateResponse = FiscalUpdateResponse(
    currentPeriod: int, fiscalStartYear: int, fiscalStartMonth: int)

  /** The fiscal row after an update of `row` (or of a fresh row, when there was none). */
  function FiscalRowAfterUpdate(row: Option<SystemSettings>, year: int, month: int, digits: Option<int>): (r: SystemSettings)
    ensures r.key == FiscalKey || (row.Some? && r.key == row.value.key)
    ensures r.fiscalStartYear == year && r.fiscalStartMonth == month
    ensures row.Some? ==> r == row.value.(fiscalStartYear := year, fiscalStartMonth := month, staffCodeDigits := digits)
    ensures row.None? ==> r.staffCodeDigits == InsertValue(digits, 3) && r.value.None?
  {
    match row
    case Some(x) => x.(fiscalStartYear := year, fiscalStartMonth := month, staffCodeDigits := digits)
    case None =>
      SystemSettings(key := FiscalKey, fiscalStartYear := year, fiscalStartMonth := month,
                     staffCodeDigits := InsertValue(digits, 3))
  }

  /**
   * `update_fiscal_settings`: 422 for a body without the year or the month,
   * 403 for a caller who is not an admin (nothing changes), otherwise the
   * fiscal row (created if missing) holds the given year, month and digits;
   * the digits default to 3 when omitted.
   */
  method UpdateFiscalSettings(db: CompanyDb, role: string, body: FiscalBody, now: Date)
    returns (r: Result<FiscalUpdateResponse>)
    requires db.Valid()
    modifies db
    ensures db.Valid()
    ensures r.Err? <==> body.fiscalStartYear.Omitted? || body.fiscalStartMonth.Omitted? || role != "admin"
    ensures r.Err? ==> db.settings == old(db.settings)
    ensures r.Err? && (body.fiscalStartYear.Omitted? || body.fiscalStartMonth.Omitted?) ==> r.error == Unprocessable
    ensures r.Err? && body.fiscalStartYear.Given? && body.fiscalStartMonth.Given? ==> r.error == Forbidden
    ensures r.Ok? ==>
      var year, month := body.fiscalStartYear.value, body.fiscalStartMonth.value;
      var digits := OrDefault(body.staffCodeDigits, Some(3));
      var i := FirstWithKey(old(db.settings), FiscalKey);
      && (i.Some? ==> db.settings == Replace(old(db.settings), old(db.settings)[i.value].id,
                                             FiscalRowAfterUpdate(Some(old(db.settings)[i.value].rec), year, month, digits)))
      && (i.None? ==> db.settings == Insert(old(db.settings), FiscalRowAfterUpdate(None, year, month, digits)))
      && r.value == FiscalUpdateResponse(CalculateCurrentPeriod(year, month, now), year, month)
    ensures db.projects == old(db.projects) && db.costs == old(db.costs) && db.vendors == old(db.vendors)
    ensures db.categories == old(db.categories) && db.customers == old(db.customers)
  {
    if body.fiscalStartYear.Omitted? || body.fiscalStartMonth.Omitted? {
      return Err(Unprocessable);
    }
    if role != "admin" {
      return Err(Forbidden);
    }
    var year, month := body.fiscalStartYear.value, body.fiscalStartMonth.value;
    var digits := OrDefault(body.staffCodeDigits, Some(3));
    match FirstWithKey(db.settings, FiscalKey) {
      case Some(i) =>
        var row := FiscalRowAfterUpdate(Some(db.settings[i].rec), year, month, digits);
        ReplaceAscending(db.settings, db.settings[i].id, row);
        db.settings := Replace(db.settings, db.settings[i].id, row);
      case None =>
        db.settings := Insert(db.settings, FiscalRowAfterUpdate(None, year, month, digits));
    }
    r := Ok(FiscalUpdateResponse(CalculateCurrentPeriod(year, month, now), year, month));
  }

  /** An update of a `Given` year and month reads back as those values. */
  lemma FiscalUpdateReadsBack(row: Option<SystemSettings>, year: int, month: int, digits: Input<Option<int>>, now: Date)
    ensures var r := FiscalRowAfterUpdate(row, year, month, OrDefault(digits, Some(3)));
            digits.Omitted? ==> r.staffCodeDigits == Some(3)
    ensures var r := FiscalRowAfterUpdate(row, year, month, OrDefault(digits, Some(3)));
            FiscalResponseOf(r, now).Ok? ==>
              FiscalResponseOf(r, now).value.currentPeriod == CalculateCurrentPeriod(year, month, now)
  {
  }

  // ---------------------------------------------------------------------------
  // Key/value settings.

  /** `get_setting`: the first row under `key`, or 404. */
  method GetSetting(db: CompanyDb, key: string) returns (r: Result<SystemSettings>)
    ensures r.Err? <==> forall j :: 0 <= j < |db.settings| ==> db.settings[j].rec.key != key
    ensures r.Err? ==> r.error == NotFound
    ensures r.Ok? ==> Some(r.value) == SettingAt(db.settings, key)
  {
    match FirstWithKey(db.settings, key)
    case None => r := Err(NotFound);
    case Some(i) => r := Ok(db.settings[i].rec);
  }

  /** A setting as `get_all_settings` reports it: a null value reads as "". */
  function Reported(s: SystemSettings): (r: SystemSettings)
    ensures r.value.Some?
    ensures s.value.Some? ==> r == s
    ensures r == s.(value := r.value)
  {
    if s.value.None? then s.(value := Some("")) else s
  }

  /**
   * `get_all_settings`: every row in table order, each with a null value
   * replaced by "". The replacement is made on the loaded objects and never
   * committed, so the table is unchanged.
   */
  method GetAllSettings(db: CompanyDb) returns (r: seq<Row<SystemSettings>>)
    ensures |r| == |db.settings|
    ensures forall i :: 0 <= i < |r| ==> r[i] == Row(db.settings[i].id, Reported(db.settings[i].rec))
  {
    r := db.settings;
    var i := 0;
    while i < |r|
      invariant 0 <= i <= |r| == |db.settings|
      invariant forall j :: 0 <= j < i ==> r[j] == Row(db.settings[j].id, Reported(db.settings[j].rec))
      invariant forall j :: i <= j < |r| ==> r[j] == db.settings[j]
    {
      if r[i].rec.value.None? {
        r := r[i := Row(r[i].id, r[i].rec.(value := Some("")))];
      }
      i := i + 1;
    }
  }

  /** The settings table after `update_setting(key, value)`. */
  function Upsert(t: seq<Row<SystemSettings>>, key: string, value: string): (r: seq<Row<SystemSettings>>)
    requires Ascending(t)
    ensures Ascending(r)
  {
    match FirstWithKey(t, key)
    case None => Insert(t, SystemSettings(key := key, value := Some(value)))
    case Some(i) =>
      ReplaceAscending(t, t[i].id, t[i].rec.(value := Some(value)));
      Replace(t, t[i].id, t[i].rec.(value := Some(value)))
  }

  /**
   * `update_setting`: 422 without a value; otherwise the first row under
   * `key` gets the value, or a new row is inserted when there is none.
   */
  method UpdateSetting(db: CompanyDb, key: string, body: Input<string>) returns (r: Result<SystemSettings>)
    requires db.Valid()
    modifies db
    ensures db.Valid()
    ensures r.Err? <==> body.Omitted?
    ensures r.Err? ==> r.error == Unprocessable && db.settings == old(db.settings)
    ensures r.Ok? ==> db.settings == Upsert(old(db.settings), key, body.value)
    ensures r.Ok? ==> r.value.key == key && r.value.value == Some(body.value)
    ensures db.projects == old(db.projects) && db.costs == old(db.costs) && db.vendors == old(db.vendors)
    ensures db.categories == old(db.categories) && db.customers == old(db.customers)
  {
    var v := ValidateSettingValue(body);
    if v.Err? {
      return Err(v.error);
    }
    var value := v.value;
    match FirstWithKey(db.settings, key)
    case None =>
      var row := SystemSettings(key := key, value := Some(value));
      db.settings := Insert(db.settings, row);
      r := Ok(row);
    case Some(i) =>
      var row := db.settings[i].rec.(value := Some(value));
      ReplaceAscending(db.settings, db.settings[i].id, row);
      db.settings := Replace(db.settings, db.settings[i].id, row);
      r := Ok(row);
  }

  /** The first index of `key` in a replaced table is where it was, if the new record keeps the key. */
  lemma {:induction false} FirstWithKeyReplace(t: seq<Row<SystemSettings>>, id: int, rec: SystemSettings, k: string)
    requires Ascending(t)
    requires forall i :: 0 <= i < |t| && t[i].id == id ==> t[i].rec.key == rec.key
    ensures FirstWithKey(Replace(t, id, rec), k) == FirstWithKey(t, k)
  {
    if t != [] {
      var u := Replace(t, id, rec);
      assert u == [if t[0].id == id then Row(id, rec) else t[0]] + Replace(t[1..], id, rec);
      assert u[1..] == Replace(t[1..], id, rec);
      FirstWithKeyReplace(t[1..], id, rec, k);
    }
  }

  /** The record at index `i` of a replaced table. */
  lemma {:induction false} ReplaceAt(t: seq<Row<SystemSettings>>, id: int, rec: SystemSettings, i: nat)
    requires i < |t|
    ensures Replace(t, id, rec)[i] == if t[i].id == id then Row(id, rec) else t[i]
  {
    if i > 0 {
      ReplaceAt(t[1..], id, rec, i - 1);
    }
  }

  /**
   * After `update_setting(key, v)`, `get_setting(key)` returns `v`, and every
   * other key reads as before.
   */
  lemma UpsertThenGet(t: seq<Row<SystemSettings>>, key: string, value: string, k: string)
    requires Ascending(t)
    ensures SettingAt(Upsert(t, key, value), key).Some?
    ensures SettingAt(Upsert(t, key, value), key).value.value == Some(value)
    ensures k != key ==> SettingAt(Upsert(t, key, value), k) == SettingAt(t, k)
  {
    match FirstWithKey(t, key)
    case None =>
      var row := SystemSettings(key := key, value := Some(value));
      InsertKeepsFirst(t, row);
      if k != key {
        InsertKeepsOthers(t, row, k);
      }
    case Some(i) =>
      UpsertExisting(t, key, value, k, i);
  }

  /** Appending a row leaves the first row under every other key where it was. */
  lemma InsertKeepsOthers(t: seq<Row<SystemSettings>>, row: SystemSettings, k: string)
    requires Ascending(t) && k != row.key
    ensures FirstWithKey(Insert(t, row), k) == FirstWithKey(t, k)
    ensures forall j :: 0 <= j < |t| ==> Insert(t, row)[j] == t[j]
  {
    var u := Insert(t, row);
    assert forall j :: 0 <= j < |t| ==> u[j] == t[j];
    assert u[|t|].rec.key != k;
    match FirstWithKey(t, k)
    case None => assert FirstWithKey(u, k).None?;
    case Some(i) => assert FirstWithKey(u, k) == Some(i);
  }

  /** Updating the row found under `key` in place. */
  lemma UpsertExisting(t: seq<Row<SystemSettings>>, key: string, value: string, k: string, i: nat)
    requires Ascending(t) && FirstWithKey(t, key) == Some(i)
    ensures SettingAt(Upsert(t, key, value), key).Some?
    ensures SettingAt(Upsert(t, key, value), key).value.value == Some(value)
    ensures k != key ==> SettingAt(Upsert(t, key, value), k) == SettingAt(t, k)
  {
    var rec := t[i].rec.(value := Some(value));
    forall j | 0 <= j < |t| && t[j].id == t[i].id ensures t[j].rec.key == rec.key {
      assert j == i;
    }
    FirstWithKeyReplace(t, t[i].id, rec, key);
    ReplaceAt(t, t[i].id, rec, i);
    if k != key {
      FirstWithKeyReplace(t, t[i].id, rec, k);
      match FirstWithKey(t, k)
      case None =>
      case Some(j) =>
        ReplaceAt(t, t[i].id, rec, j);
        assert t[j].id != t[i].id;
    }
  }
}

/**
 * Proleptic Gregorian dates as Python's `datetime.date` has them (years 1 to
 * 9999), their order, `date.isoformat()`, `strptime(s, "%Y-%m-%d")`, and
 * timestamps (a date and a time of day).
 */
module Calendar {
  import opened Base
  import Text

  datatype Date = Date(year: int, month: int, day: int)

  predicate IsLeapYear(y: int)
  {
    y % 4 == 0 && (y % 100 != 0 || y % 400 == 0)
  }

  function DaysInMonth(y: int, m: int): (n: int)
    requires 1 <= m <= 12
    ensures 28 <= n <= 31
    ensures n == 31 <==> m == 1 || m == 3 || m == 5 || m == 7 || m == 8 || m == 10 || m == 12
    ensures n == 29 <==> m == 2 && IsLeapYear(y)
  {
    if m == 2 then (if IsLeapYear(y) then 29 else 28)
    else if m == 4 || m == 6 || m == 9 || m == 11 then 30
    else 31
  }

  /** The dates `datetime.date` accepts. */
  predicate ValidDate(d: Date)
  {
    1 <= d.year <= 9999 && 1 <= d.month <= 12 && 1 <= d.day <= DaysInMonth(d.year, d.month)
  }

  /** `datetime.date(y, m, d)`: the date, or the ValueError it raises (an error 500). */
  function MakeDate(y: int, m: int, d: int): (r: Result<Date>)
    ensures r.Ok? <==> ValidDate(Date(y, m, d))
    ensures r.Ok? ==> r.value == Date(y, m, d)
    ensures r.Err? ==> r.error == ServerError
  {
    if ValidDate(Date(y, m, d)) then Ok(Date(y, m, d)) else Err(ServerError)
  }

  /** Chronological order: year, then month, then day. */
  predicate DateLt(a: Date, b: Date)
  {
    a.year < b.year
    || (a.year == b.year && (a.month < b.month || (a.month == b.month && a.day < b.day)))
  }

  predicate DateLe(a: Date, b: Date) { a == b || DateLt(a, b) }

  lemma DateOrder(a: Date, b: Date, c: Date)
    ensures !DateLt(a, a)
    ensures DateLt(a, b) || a == b || DateLt(b, a)
    ensures DateLt(a, b) && DateLt(b, c) ==> DateLt(a, c)
  {
  }

  /** The day after `d`, or the OverflowError past 9999-12-31. */
  function NextDay(d: Date): (r: Result<Date>)
    requires ValidDate(d)
    ensures r.Ok? <==> d != Date(9999, 12, 31)
    ensures r.Ok? ==> ValidDate(r.value) && DateLt(d, r.value)
  {
    if d.day < DaysInMonth(d.year, d.month) then Ok(Date(d.year, d.month, d.day + 1))
    else if d.month < 12 then Ok(Date(d.year, d.month + 1, 1))
    else if d.year < 9999 then Ok(Date(d.year + 1, 1, 1))
    else Err(ServerError)
  }

  /** `d + timedelta(days=n)`. */
  function AddDays(d: Date, n: nat): (r: Result<Date>)
    requires ValidDate(d)
    ensures r.Ok? ==> ValidDate(r.value)
    ensures r.Ok? && n > 0 ==> DateLt(d, r.value)
    decreases n
  {
    if n == 0 then Ok(d)
    else
      match NextDay(d)
      case Err(e) => Err(e)
      case Ok(next) =>
        var r := AddDays(next, n - 1);
        if r.Ok? then DateOrder(d, next, r.value); r else r
  }

  // ---------------------------------------------------------------------------
  // `date.isoformat()` and `datetime.strptime(s, "%Y-%m-%d").date()`

  function Pow10(k: nat): (p: nat)
    ensures p >= 1
  {
    if k == 0 then 1 else 10 * Pow10(k - 1)
  }

  /** The last `width` decimal digits of `n`, zero-filled (`"%0*d"` for `n < 10^width`). */
  function FixedDigits(n: nat, width: nat): (s: string)
    ensures |s| == width && Text.AllDigits(s)
  {
    if width == 0 then [] else FixedDigits(n / 10, width - 1) + [Text.DigitChar(n % 10)]
  }

  lemma {:induction false} FixedDigitsValue(n: nat, width: nat)
    requires n < Pow10(width)
    ensures Text.DigitsValue(FixedDigits(n, width)) == n
  {
    if width > 0 {
      var s := FixedDigits(n, width);
      assert s[..|s| - 1] == FixedDigits(n / 10, width - 1);
      FixedDigitsValue(n / 10, width - 1);
    }
  }

  lemma TwoDigits(n: nat)
    requires n < 100
    ensures FixedDigits(n, 2) == [Text.DigitChar(n / 10), Text.DigitChar(n % 10)]
  {
    assert n / 10 / 10 == 0 && n / 10 % 10 == n / 10;
    assert FixedDigits(n / 10, 1) == [] + [Text.DigitChar(n / 10)];
  }

  /** `YYYY-MM-DD`. */
  function IsoFormat(d: Date): (s: string)
    requires ValidDate(d)
    ensures |s| == 10 && s[4] == '-' && s[7] == '-'
  {
    FixedDigits(d.year, 4) + "-" + FixedDigits(d.month, 2) + "-" + FixedDigits(d.day, 2)
  }

  /**
   * The length of the `%m` match at the start of `t`: strptime tries the
   * alternatives `1[0-2]`, `0[1-9]`, `[1-9]` in turn and keeps the first one
   * the following `-` of the format also matches; 0 when none does.
   */
  function MonthLength(t: string): (n: nat)
    ensures n <= 2
    ensures n > 0 ==> n < |t| && t[n] == '-' && Text.AllDigits(t[..n])
  {
    if |t| >= 3 && t[0] == '1' && '0' <= t[1] <= '2' && t[2] == '-' then 2
    else if |t| >= 3 && t[0] == '0' && '1' <= t[1] <= '9' && t[2] == '-' then 2
    else if |t| >= 2 && '1' <= t[0] <= '9' && t[1] == '-' then 1
    else 0
  }

  /**
   * The length of the `%d` match at the start of `t`: the first of
   * `3[01]`, `[12]\d`, `0[1-9]`, `[1-9]`, ` [1-9]` that matches; 0 when none does.
   */
  function DayLength(t: string): (n: nat)
    ensures n <= 2 && n <= |t|
    ensures n > 0 ==> Text.AllDigits(t[..n]) || (n == 2 && t[0] == ' ' && Text.IsDigit(t[1]))
  {
    if |t| >= 2 && t[0] == '3' && '0' <= t[1] <= '1' then 2
    else if |t| >= 2 && '1' <= t[0] <= '2' && Text.IsDigit(t[1]) then 2
    else if |t| >= 2 && t[0] == '0' && '1' <= t[1] <= '9' then 2
    else if |t| >= 1 && '1' <= t[0] <= '9' then 1
    else if |t| >= 2 && t[0] == ' ' && '1' <= t[1] <= '9' then 2
    else 0
  }

  function DayValue(f: string): int
    requires Text.AllDigits(f) || (|f| == 2 && f[0] == ' ' && Text.IsDigit(f[1]))
  {
    if |f| == 2 && f[0] == ' ' then Text.DigitValue(f[1]) else Text.DigitsValue(f)
  }

  /**
   * `datetime.strptime(s, "%Y-%m-%d").date()`: exactly four year digits, a
   * month and a day of one or two digits, and nothing after the day
   * ("unconverted data remains"); then the date must exist. Every failure is
   * the ValueError the handler lets through, an error 500.
   */
  function ParseYmd(s: string): (r: Result<Date>)
    ensures r.Ok? ==> ValidDate(r.value)
    ensures r.Err? ==> r.error == ServerError
    ensures |s| < 8 ==> r.Err?
  {
    if |s| < 5 || !Text.AllDigits(s[..4]) || s[4] != '-' then Err(ServerError)
    else
      var t := s[5..];
      var ml := MonthLength(t);
      if ml == 0 then Err(ServerError)
      else
        var u := t[ml + 1..];
        var dl := DayLength(u);
        if dl == 0 || dl != |u| then Err(ServerError)
        else MakeDate(Text.DigitsValue(s[..4]), Text.DigitsValue(t[..ml]), DayValue(u))
  }

  /** The two digits of a month are the whole `%m` match. */
  lemma MonthDigits(month: nat, rest: string)
    requires 1 <= month <= 12
    ensures var t := FixedDigits(month, 2) + "-" + rest;
            MonthLength(t) == 2 && t[..2] == FixedDigits(month, 2) && t[3..] == rest
  {
    TwoDigits(month);
  }

  /** The two digits of a day are the whole `%d` match. */
  lemma DayDigits(day: nat)
    requires 1 <= day <= 31
    ensures DayLength(FixedDigits(day, 2)) == 2
  {
    TwoDigits(day);
  }

  /** Every date `isoformat` renders is read back by `strptime` as the same date. */
  lemma ParseIsoFormat(d: Date)
    requires ValidDate(d)
    ensures ParseYmd(IsoFormat(d)) == Ok(d)
  {
    var y, m, dd := FixedDigits(d.year, 4), FixedDigits(d.month, 2), FixedDigits(d.day, 2);
    var s := IsoFormat(d);
    assert s[..4] == y;
    var t := s[5..];
    assert t == m + "-" + dd;
    MonthDigits(d.month, dd);
    DayDigits(d.day);
    FixedDigitsValue(d.year, 4);
    FixedDigitsValue(d.month, 2);
    FixedDigitsValue(d.day, 2);
  }

  /** `datetime.now()`: a date and the microseconds since midnight. */
  datatype Timestamp = Timestamp(date: Date, micros: int)

  predicate TsLt(a: Timestamp, b: Timestamp)
  {
    DateLt(a.date, b.date) || (a.date == b.date && a.micros < b.micros)
  }

  predicate TsLe(a: Timestamp, b: Timestamp) { a == b || TsLt(a, b) }

  /** `datetime + timedelta(days=n)`: the time of day is kept. */
  function TsAddDays(t: Timestamp, n: nat): (r: Result<Timestamp>)
    requires ValidDate(t.date)
    ensures r.Ok? ==> r.value.micros == t.micros && ValidDate(r.value.date)
    ensures r.Ok? && n > 0 ==> TsLt(t, r.value)
  {
    match AddDays(t.date, n)
    case Err(e) => Err(e)
    case Ok(d) => Ok(Timestamp(d, t.micros))
  }
}

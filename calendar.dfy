/** Gregorian calendar dates, enough of them for the tax due dates: month
    arithmetic that clamps the day like `+ 1.month`, `end_of_month`,
    `change(day:)` and adding up to 28 days. */
module Calendar {

  import opened Common

  datatype Date = Date(year: int, month: int, day: int)

  predicate LeapYear(y: int) {
    (y % 4 == 0 && y % 100 != 0) || y % 400 == 0
  }

  function DaysInMonth(y: int, m: int): (n: int)
    requires 1 <= m <= 12
    ensures 28 <= n <= 31
    ensures n == 28 ==> m == 2
  {
    if m == 2 then (if LeapYear(y) then 29 else 28)
    else if m == 4 || m == 6 || m == 9 || m == 11 then 30
    else 31
  }

  predicate ValidDate(d: Date) {
    1 <= d.month <= 12 && 1 <= d.day <= DaysInMonth(d.year, d.month)
  }

  /** Months counted from year 0, so that consecutive months differ by one. */
  function MonthIndex(d: Date): int {
    d.year * 12 + d.month - 1
  }

  /** Strictly earlier in calendar order. */
  predicate Before(a: Date, b: Date) {
    MonthIndex(a) < MonthIndex(b) || (MonthIndex(a) == MonthIndex(b) && a.day < b.day)
  }

  /** `date + k.months`: move k months on and clamp the day to the new month. */
  function AddMonths(d: Date, k: nat): (r: Date)
    requires ValidDate(d)
    ensures ValidDate(r)
    ensures MonthIndex(r) == MonthIndex(d) + k
    ensures r.day == Min(d.day, DaysInMonth(r.year, r.month))
  {
    var idx := MonthIndex(d) + k;
    var y := idx / 12;
    var m := idx % 12 + 1;
    Date(y, m, Min(d.day, DaysInMonth(y, m)))
  }

  /** `end_of_month`: the last day of the date's month. */
  function EndOfMonth(d: Date): (r: Date)
    requires ValidDate(d)
    ensures ValidDate(r) && MonthIndex(r) == MonthIndex(d)
    ensures r.day == DaysInMonth(r.year, r.month)
  {
    Date(d.year, d.month, DaysInMonth(d.year, d.month))
  }

  /** `change(day: n)` for a day every month has. */
  function ChangeDay(d: Date, n: int): (r: Date)
    requires ValidDate(d) && 1 <= n <= 28
    ensures ValidDate(r) && MonthIndex(r) == MonthIndex(d) && r.day == n
  {
    Date(d.year, d.month, n)
  }

  /** `date + n.days` for n up to 28, which crosses at most one month end. */
  function AddDays(d: Date, n: int): (r: Date)
    requires ValidDate(d) && 0 <= n <= 28
    ensures ValidDate(r)
    ensures MonthIndex(r) == MonthIndex(d) || MonthIndex(r) == MonthIndex(d) + 1
    ensures n > 0 ==> Before(d, r)
  {
    var len := DaysInMonth(d.year, d.month);
    if d.day + n <= len then Date(d.year, d.month, d.day + n)
    else
      var next := if d.month == 12 then Date(d.year + 1, 1, 1) else Date(d.year, d.month + 1, 1);
      Date(next.year, next.month, d.day + n - len)
  }

  /** Twenty-eight days after the last day of a month is the 28th of the
      month after it, whatever the lengths of the two months. */
  lemma EndOfMonthPlus28(d: Date)
    requires ValidDate(d)
    ensures var r := AddDays(EndOfMonth(d), 28);
            r.day == 28 && MonthIndex(r) == MonthIndex(d) + 1
  {
  }
}

/**
 * Local calendar dates and instants as plain integers: the Gregorian days-in-month rule,
 * the day-0 normalisation of the `Date` constructor, and the order in which instants
 * compare.
 */
module Calendar {

  /** A local date; `month` runs from 1 to 12. */
  datatype Date = Date(year: int, month: int, day: int)

  /** A local instant down to the millisecond. */
  datatype Instant = Instant(date: Date, hour: int, minute: int, second: int, millis: int)

  predicate IsLeap(y: int) {
    (y % 4 == 0 && y % 100 != 0) || y % 400 == 0
  }

  function DaysInMonth(y: int, m: int): (n: int)
    requires 1 <= m <= 12
    ensures 28 <= n <= 31
    ensures m == 2 ==> (n == 29 <==> IsLeap(y)) && (n == 28 <==> !IsLeap(y))
    ensures m in {4, 6, 9, 11} <==> n == 30
    ensures m in {1, 3, 5, 7, 8, 10, 12} <==> n == 31
  {
    if m == 2 then (if IsLeap(y) then 29 else 28)
    else if m in {4, 6, 9, 11} then 30
    else 31
  }

  predicate ValidDate(d: Date) {
    1 <= d.month <= 12 && 1 <= d.day <= DaysInMonth(d.year, d.month)
  }

  predicate ValidTime(t: Instant) {
    0 <= t.hour < 24 && 0 <= t.minute < 60 && 0 <= t.second < 60 && 0 <= t.millis < 1000
  }

  /** The date's first day. */
  function FirstOfMonth(d: Date): (r: Date)
    requires ValidDate(d)
    ensures ValidDate(r) && r.day == 1 && r.year == d.year && r.month == d.month
  {
    Date(d.year, d.month, 1)
  }

  /** Day 1 of the following month, December rolling into January of the next year. */
  function NextMonth(d: Date): (r: Date)
    requires ValidDate(d)
    ensures ValidDate(r) && r.day == 1
    ensures d.month < 12 ==> r.year == d.year && r.month == d.month + 1
    ensures d.month == 12 ==> r.year == d.year + 1 && r.month == 1
  {
    if d.month == 12 then Date(d.year + 1, 1, 1) else Date(d.year, d.month + 1, 1)
  }

  /** Day 1 of the previous month, January rolling back to December of the year before. */
  function PrevMonth(d: Date): (r: Date)
    requires ValidDate(d)
    ensures ValidDate(r) && r.day == 1
    ensures d.month > 1 ==> r.year == d.year && r.month == d.month - 1
    ensures d.month == 1 ==> r.year == d.year - 1 && r.month == 12
  {
    if d.month == 1 then Date(d.year - 1, 12, 1) else Date(d.year, d.month - 1, 1)
  }

  /** Going forward then back (or back then forward) lands on day 1 of the original month. */
  lemma MonthStepsUndo(d: Date)
    requires ValidDate(d)
    ensures PrevMonth(NextMonth(d)) == FirstOfMonth(d)
    ensures NextMonth(PrevMonth(d)) == FirstOfMonth(d)
  {
  }

  /** Day 0 of a month, as the `Date` constructor reads it: the day before `d`, which is the
      last day of the previous month when `d` is a first. */
  function DayBefore(d: Date): (r: Date)
    requires ValidDate(d)
    ensures ValidDate(r)
  {
    if d.day > 1 then Date(d.year, d.month, d.day - 1)
    else
      var p := PrevMonth(d);
      Date(p.year, p.month, DaysInMonth(p.year, p.month))
  }

  /** `new Date(y, m + 1, 0)`: the last day of `d`'s month. */
  function LastOfMonth(d: Date): (r: Date)
    requires ValidDate(d)
    ensures r == Date(d.year, d.month, DaysInMonth(d.year, d.month))
  {
    DayBefore(NextMonth(d))
  }

  function Midnight(d: Date): Instant {
    Instant(d, 0, 0, 0, 0)
  }

  /** Dates in calendar order. */
  predicate DateBefore(a: Date, b: Date) {
    a.year < b.year || (a.year == b.year && (a.month < b.month || (a.month == b.month && a.day < b.day)))
  }

  /** Milliseconds since midnight, for a time whose fields are in range. */
  function TimeOfDay(t: Instant): int {
    ((t.hour * 60 + t.minute) * 60 + t.second) * 1000 + t.millis
  }

  /** Milliseconds since midnight order times as their fields do, read from the hour down. */
  lemma TimeOfDayOrder(a: Instant, b: Instant)
    requires ValidTime(a) && ValidTime(b)
    ensures TimeOfDay(a) < TimeOfDay(b) <==>
      a.hour < b.hour || (a.hour == b.hour && (a.minute < b.minute || (a.minute == b.minute &&
        (a.second < b.second || (a.second == b.second && a.millis < b.millis)))))
  {
  }

  /** `a` is no later than `b`: an earlier date, or the same date and no later time. */
  predicate AtMost(a: Instant, b: Instant) {
    DateBefore(a.date, b.date) || (a.date == b.date && TimeOfDay(a) <= TimeOfDay(b))
  }

  /** The closed interval the range queries select. */
  predicate Within(t: Instant, start: Instant, end: Instant) {
    AtMost(start, t) && AtMost(t, end)
  }
}

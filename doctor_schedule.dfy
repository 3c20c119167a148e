/**
 * The doctor's monthly schedule: month navigation, the window the appointment query
 * selects, and the summary counts.
 */
module DoctorSchedule {
  import opened Wrappers
  import opened Calendar

  /** An appointment row as far as the schedule uses it. */
  datatype Appointment = Appointment(id: string, at: Instant, patientName: Option<string>)

  /** The window of `fetchSchedule`: from 00:00 on the 1st to 00:00 on the last day. */
  datatype Window = Window(start: Instant, end: Instant)

  function MonthWindow(d: Date): (w: Window)
    requires ValidDate(d)
    ensures w.start == Midnight(Date(d.year, d.month, 1))
    ensures w.end == Midnight(Date(d.year, d.month, DaysInMonth(d.year, d.month)))
  {
    Window(Midnight(FirstOfMonth(d)), Midnight(LastOfMonth(d)))
  }

  /** Every moment of the month before its last day lies in the window; on the last day only
      its first instant does, so a later appointment that day is not fetched. */
  lemma MonthWindowCoverage(d: Date, t: Instant)
    requires ValidDate(d) && ValidDate(t.date) && ValidTime(t)
    requires t.date.year == d.year && t.date.month == d.month
    ensures t.date.day < DaysInMonth(d.year, d.month) ==> Within(t, MonthWindow(d).start, MonthWindow(d).end)
    ensures t.date.day == DaysInMonth(d.year, d.month) ==>
      (Within(t, MonthWindow(d).start, MonthWindow(d).end) <==> TimeOfDay(t) == 0)
  {
  }

  /** Nothing from another month is in the window. */
  lemma MonthWindowExcludesOtherMonths(d: Date, t: Instant)
    requires ValidDate(d) && ValidDate(t.date)
    requires t.date.year != d.year || t.date.month != d.month
    ensures !Within(t, MonthWindow(d).start, MonthWindow(d).end)
  {
  }

  /** The two summary tiles: the number of bookings, and the hours at half an hour each,
      kept here as a count of half hours. */
  datatype Summary = Summary(totalBookings: nat, halfHours: nat)

  class ScheduleView {
    var currentDate: Date
    var appointments: seq<Appointment>
    var isLoading: bool

    predicate Valid()
      reads this
    {
      ValidDate(currentDate)
    }

    function Totals(): (s: Summary)
      reads this
      ensures s.totalBookings == |appointments|
      ensures s.halfHours == s.totalBookings
    {
      Summary(|appointments|, |appointments|)
    }

    constructor(today: Date)
      requires ValidDate(today)
      ensures Valid() && currentDate == today && appointments == [] && isLoading
    {
      currentDate := today;
      appointments := [];
      isLoading := true;
    }

    /** `nextMonth`, followed by the refetch it triggers; returns the window queried. The
        source refetches only with a signed-in user, which the route guard ensures here. */
    method NextMonthClicked() returns (w: Window)
      requires Valid()
      modifies this
      ensures Valid() && currentDate == NextMonth(old(currentDate))
      ensures w == MonthWindow(currentDate) && isLoading
      ensures appointments == old(appointments)
    {
      currentDate := NextMonth(currentDate);
      isLoading := true;
      w := MonthWindow(currentDate);
    }

    /** `prevMonth`, followed by the refetch it triggers; returns the window queried. The
        source refetches only with a signed-in user, which the route guard ensures here. */
    method PrevMonthClicked() returns (w: Window)
      requires Valid()
      modifies this
      ensures Valid() && currentDate == PrevMonth(old(currentDate))
      ensures w == MonthWindow(currentDate) && isLoading
      ensures appointments == old(appointments)
    {
      currentDate := PrevMonth(currentDate);
      isLoading := true;
      w := MonthWindow(currentDate);
    }

    /** The end of `fetchSchedule`: rows (or none) replace the list; a failed query leaves the
        previous list and its totals in place. */
    method FetchDone(result: Result<Option<seq<Appointment>>, string>)
      requires Valid()
      modifies this
      ensures Valid() && currentDate == old(currentDate) && !isLoading
      ensures result.Ok? && result.value.Some? ==> appointments == result.value.value
      ensures result.Ok? && result.value.None? ==> appointments == []
      ensures result.Err? ==> appointments == old(appointments) && Totals() == old(Totals())
    {
      if result.Ok? {
        appointments := if result.value.Some? then result.value.value else [];
      }
      isLoading := false;
    }
  }
}

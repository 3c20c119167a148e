/**
 * The doctor's dashboard: today's query window, the four stat tiles derived from three
 * backend queries, and the greeting name.
 */
module DoctorDashboard {
  import opened Wrappers
  import opened Text
  import opened Seqs
  import opened Calendar

  const PendingLimit := 5
  const FixedRating := "4.9"

  /** Today's window: 00:00:00.000 to 23:59:59.999 of the local day. */
  datatype Window = Window(start: Instant, end: Instant)

  function TodayWindow(today: Date): (w: Window)
    ensures w.start.date == today && w.end.date == today
    ensures TimeOfDay(w.start) == 0 && TimeOfDay(w.end) == 24 * 60 * 60 * 1000 - 1
  {
    Window(Instant(today, 0, 0, 0, 0), Instant(today, 23, 59, 59, 999))
  }

  /** Exactly the instants of today fall inside the window. */
  lemma TodayWindowIsToday(today: Date, t: Instant)
    requires ValidTime(t)
    ensures Within(t, TodayWindow(today).start, TodayWindow(today).end) <==> t.date == today
  {
    assert 0 <= TimeOfDay(t) <= 24 * 60 * 60 * 1000 - 1 by {
      assert TimeOfDay(t) <= ((23 * 60 + 59) * 60 + 59) * 1000 + 999;
    }
  }

  datatype Stats = Stats(todayAppts: nat, pendingReviews: nat, totalPatients: nat, rating: string)

  /** `xs?.length || 0`. */
  function LengthOrZero<T>(xs: Option<seq<T>>): (n: nat)
    ensures xs.None? ==> n == 0
    ensures xs.Some? ==> n == |xs.value|
  {
    if xs.Some? then |xs.value| else 0
  }

  /** An appointment row: the patient it is with. */
  datatype AppointmentRow = AppointmentRow(id: string, patientId: string)

  /** A pending report addressed to the doctor. */
  datatype PendingReport = PendingReport(id: string, title: string)

  class DashboardView {
    var todayAppointments: seq<AppointmentRow>
    var pendingReports: seq<PendingReport>
    var stats: Stats
    var isLoading: bool

    constructor()
      ensures todayAppointments == [] && pendingReports == [] && isLoading
      ensures stats == Stats(0, 0, 0, FixedRating)
    {
      todayAppointments := [];
      pendingReports := [];
      stats := Stats(0, 0, 0, FixedRating);
      isLoading := true;
    }

    /** The end of `fetchDoctorData`. `todayRows` is what the day-window query returned;
        `pendingRows` are all of the doctor's pending reports, of which the query's limit
        keeps the first five; `doctorRows` are the rows the exact count runs over. A missing
        result counts as empty. The source fetches only with a signed-in user, which the
        route guard ensures here. */
    method FetchDone(todayRows: Option<seq<AppointmentRow>>, pendingRows: Option<seq<PendingReport>>,
                     doctorRows: Option<seq<AppointmentRow>>)
      modifies this
      ensures todayAppointments == (if todayRows.Some? then todayRows.value else [])
      ensures pendingRows.Some? ==> pendingReports == Take(pendingRows.value, PendingLimit)
      ensures pendingRows.None? ==> pendingReports == []
      ensures stats.todayAppts == |todayAppointments| && stats.pendingReviews == |pendingReports|
      ensures stats.pendingReviews <= PendingLimit
      ensures stats.totalPatients == LengthOrZero(doctorRows)
      ensures stats.rating == FixedRating
      ensures !isLoading
    {
      var limited := if pendingRows.Some? then Some(Take(pendingRows.value, PendingLimit)) else None;
      todayAppointments := if todayRows.Some? then todayRows.value else [];
      pendingReports := if limited.Some? then limited.value else [];
      stats := Stats(LengthOrZero(todayRows), LengthOrZero(limited), LengthOrZero(doctorRows), FixedRating);
      isLoading := false;
    }
  }

  /** The greeting name: a name that starts with "dr." in any case is shown as it is;
      otherwise "Dr. " and the name's last space-separated word ("undefined" with no name). */
  function Greeting(name: Option<string>): (g: string)
    ensures name.Some? && StartsWith(ToLower(name.value), "dr.") ==> g == name.value
    ensures !(name.Some? && StartsWith(ToLower(name.value), "dr.")) ==>
      StartsWith(g, "Dr. ") && ' ' !in g[4..]
    ensures name.Some? && !StartsWith(ToLower(name.value), "dr.") ==>
      g[4..] == LastPart(name.value, ' ')
  {
    if name.Some? && StartsWith(ToLower(name.value), "dr.") then name.value
    else
      var word := if name.Some? then LastPart(name.value, ' ') else "undefined";
      LastWordHasNoSpace(name);
      assert ("Dr. " + word)[4..] == word;
      "Dr. " + word
  }

  lemma LastWordHasNoSpace(name: Option<string>)
    ensures name.Some? ==> ' ' !in LastPart(name.value, ' ')
  {
    if name.Some? {
      SplitShape(name.value, ' ');
    }
  }

  /** A first and last name are greeted by the last name. */
  lemma GreetsByLastName(first: string, last: string)
    requires ' ' !in last
    requires !StartsWith(ToLower(first + " " + last), "dr.")
    ensures Greeting(Some(first + " " + last)) == "Dr. " + last
  {
    assert first + " " + last == first + [' '] + last;
    LastPartAfterSeparator(first, ' ', last);
  }

  /** The greeting is settled: a greeting shown as a name greets as itself. */
  lemma GreetingIsFixedPoint(name: Option<string>)
    ensures Greeting(Some(Greeting(name))) == Greeting(name)
  {
    var g := Greeting(name);
    if !(name.Some? && StartsWith(ToLower(name.value), "dr.")) {
      assert ToLower(g)[..3] == "dr.";
    }
  }
}

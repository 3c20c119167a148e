/**
 * Booking an appointment with a doctor: the fixed list of half-hour slots, the
 * conversion of a slot's 12-hour label to the 24-hour time stored with the date,
 * and the submit handler that shares the patient's reports and inserts the booking.
 */
module AppointmentBooking {
  import opened Wrappers
  import opened Text
  import Seqs

  const TimeSlots: seq<string> := [
    "09:00 AM", "09:30 AM", "10:00 AM", "10:30 AM", "11:00 AM", "11:30 AM",
    "02:00 PM", "02:30 PM", "03:00 PM", "03:30 PM", "04:00 PM", "04:30 PM"
  ]

  const BookingFailed := "Failed to book appointment. Please try again."
  const Scheduled := "scheduled"

  // ---------------------------------------------------------------------------
  // 12-hour to 24-hour conversion
  // ---------------------------------------------------------------------------

  /** The hour field: "12" first becomes "00", then a "PM" modifier adds 12 to its
      `parseInt` value (NaN when it has no digits). */
  function HourField(hours: string, modifier: Option<string>): string
  {
    var h := if hours == "12" then "00" else hours;
    if modifier == Some("PM") then
      match ParseInt(h)
      case Some(n) => IntToString(n + 12)
      case None => "NaN"
    else h
  }

  /** `convertTo24Hour`: splits the label at spaces into time and modifier and the time at
      colons into hours and minutes (a missing part is `undefined`, which the template
      renders as that word), adjusts the hours and appends zero seconds. */
  function ConvertTo24Hour(timeStr: string): (r: string)
    ensures |r| >= 3 && r[|r| - 3..] == ":00"
  {
    var parts := Split(timeStr, ' ');
    var modifier := if |parts| > 1 then Some(parts[1]) else None;
    var fields := Split(parts[0], ':');
    var minutes := if |fields| > 1 then fields[1] else "undefined";
    var r := HourField(fields[0], modifier) + ":" + minutes + ":00";
    assert r[|r| - 3..] == ":00";
    r
  }

  /** A label `hh:mm mod` is taken apart at its one colon and its one space. */
  lemma ConvertLabel(hh: string, mm: string, mod: string)
    requires ' ' !in hh && ':' !in hh && ' ' !in mm && ':' !in mm && ' ' !in mod
    ensures ConvertTo24Hour(hh + ":" + mm + " " + mod) == HourField(hh, Some(mod)) + ":" + mm + ":00"
  {
    var time := hh + ":" + mm;
    assert ' ' !in time by {
      assert forall i :: 0 <= i < |time| ==> time[i] == (if i < |hh| then hh[i] else if i == |hh| then ':' else mm[i - |hh| - 1]);
    }
    assert hh + ":" + mm + " " + mod == time + [' '] + mod;
    SplitAfterSeparator(time, ' ', mod);
    SplitWithoutSeparator(mod, ' ');
    assert time == hh + [':'] + mm;
    SplitAfterSeparator(hh, ':', mm);
    SplitWithoutSeparator(mm, ':');
  }

  /** "12:mm AM" becomes "00:mm:00". */
  lemma MidnightHour(mm: string)
    requires ' ' !in mm && ':' !in mm
    ensures ConvertTo24Hour("12" + ":" + mm + " " + "AM") == "00" + ":" + mm + ":00"
  {
    ConvertLabel("12", mm, "AM");
  }

  lemma TwoDigits(s: string)
    requires |s| == 2 && AllDigits(s)
    ensures DigitsValue(s) == (s[0] as int - '0' as int) * 10 + (s[1] as int - '0' as int)
  {
    assert DigitsValue(s[..1]) == s[0] as int - '0' as int by {
      assert s[..1][..0] == [];
    }
  }

  /** A number from 10 to 99 is rendered with two digits. */
  lemma TwoDigitRendering(n: nat)
    requires 10 <= n < 100
    ensures |NatToString(n)| == 2 && DigitsValue(NatToString(n)) == n
  {
    assert NatToString(n) == NatToString(n / 10) + [DigitChar(n % 10)];
    NatToStringRoundTrip(n);
  }

  /** "12:mm PM" becomes "12:mm:00": the hour is first set to 00 and then 12 is added. */
  lemma NoonHour(mm: string)
    requires ' ' !in mm && ':' !in mm
    ensures ConvertTo24Hour("12" + ":" + mm + " " + "PM") == "12" + ":" + mm + ":00"
  {
    ConvertLabel("12", mm, "PM");
    NoonHourField();
  }

  lemma NoonHourField()
    ensures HourField("12", Some("PM")) == "12"
  {
    ParseIntOfDigits("00");
    TwoDigits("00");
    assert ParseInt("00") == Some(0);
    var r := NatToString(12);
    assert r == NatToString(1) + [DigitChar(2)];
    assert NatToString(1) == [DigitChar(1)];
    assert r == "12";
  }

  /** Any other PM hour h becomes h + 12. */
  lemma AfternoonHour(hh: string, mm: string)
    requires hh != "" && AllDigits(hh) && hh != "12"
    requires ' ' !in mm && ':' !in mm
    ensures ConvertTo24Hour(hh + ":" + mm + " " + "PM") == NatToString(DigitsValue(hh) + 12) + ":" + mm + ":00"
  {
    DigitsHaveNoSeparator(hh);
    ConvertLabel(hh, mm, "PM");
    PmHourField(hh);
  }

  lemma PmHourField(hh: string)
    requires hh != "" && AllDigits(hh) && hh != "12"
    ensures HourField(hh, Some("PM")) == NatToString(DigitsValue(hh) + 12)
  {
    ParseIntOfDigits(hh);
    var n := DigitsValue(hh);
    assert ParseInt(hh) == Some(n);
    assert IntToString(n + 12) == NatToString(n + 12);
  }

  /** Any other hour with a modifier other than PM is kept verbatim. */
  lemma OtherHourVerbatim(hh: string, mm: string, mod: string)
    requires hh != "12" && mod != "PM"
    requires ' ' !in hh && ':' !in hh && ' ' !in mm && ':' !in mm && ' ' !in mod
    ensures ConvertTo24Hour(hh + ":" + mm + " " + mod) == hh + ":" + mm + ":00"
  {
    ConvertLabel(hh, mm, mod);
  }

  // ---------------------------------------------------------------------------
  // The slot list in 24-hour time
  // ---------------------------------------------------------------------------

  /** The minutes after midnight of an `HH:MM:SS` string, if it has that shape. */
  function ClockMinutes(c: string): Option<nat>
  {
    if |c| == 8 && c[2] == ':' && c[5] == ':' && IsDigit(c[0]) && IsDigit(c[1]) && IsDigit(c[3])
       && IsDigit(c[4]) && IsDigit(c[6]) && IsDigit(c[7])
    then Some((DigitAt(c, 0) * 10 + DigitAt(c, 1)) * 60 + DigitAt(c, 3) * 10 + DigitAt(c, 4))
    else None
  }

  /** The value of the decimal digit at position `i`. */
  function DigitAt(c: string, i: nat): int
    requires i < |c|
  {
    c[i] as int - '0' as int
  }

  lemma ClockShape(h: string, mm: string, v: nat)
    requires |h| == 2 && |mm| == 2 && AllDigits(h) && AllDigits(mm)
    requires v == DigitsValue(h) * 60 + DigitsValue(mm)
    ensures ClockMinutes(h + ":" + mm + ":00") == Some(v)
  {
    TwoDigits(h);
    TwoDigits(mm);
    var c := h + ":" + mm + ":00";
    assert c[0] == h[0] && c[1] == h[1] && c[3] == mm[0] && c[4] == mm[1];
    assert |c| == 8 && c[2] == ':' && c[5] == ':' && c[6] == '0' && c[7] == '0';
  }

  lemma DigitsHaveNoSeparator(s: string)
    requires AllDigits(s)
    ensures ' ' !in s && ':' !in s
  {
    assert forall i :: 0 <= i < |s| ==> IsDigit(s[i]);
  }

  lemma MorningSlot(slot: string, hh: string, mm: string, v: nat)
    requires |hh| == 2 && |mm| == 2 && AllDigits(hh) && AllDigits(mm) && hh != "12"
    requires slot == hh + ":" + mm + " " + "AM" && v == DigitsValue(hh) * 60 + DigitsValue(mm)
    ensures ClockMinutes(ConvertTo24Hour(slot)) == Some(v)
  {
    DigitsHaveNoSeparator(hh);
    DigitsHaveNoSeparator(mm);
    OtherHourVerbatim(hh, mm, "AM");
    ClockShape(hh, mm, v);
  }

  lemma AfternoonSlot(slot: string, hh: string, mm: string, v: nat)
    requires |hh| == 2 && |mm| == 2 && AllDigits(hh) && AllDigits(mm) && hh != "12"
    requires 1 <= DigitsValue(hh) <= 11
    requires slot == hh + ":" + mm + " " + "PM" && v == (DigitsValue(hh) + 12) * 60 + DigitsValue(mm)
    ensures ClockMinutes(ConvertTo24Hour(slot)) == Some(v)
  {
    DigitsHaveNoSeparator(mm);
    var n := DigitsValue(hh) + 12;
    AfternoonHour(hh, mm);
    var h := NatToString(n);
    TwoDigitRendering(n);
    ClockShape(h, mm, v);
  }

  /** A slot label `hh:mm AM` or `hh:mm PM` with an hour from 01 to 11. */
  predicate SlotLabel(s: string) {
    |s| == 8 && IsDigit(s[0]) && IsDigit(s[1]) && s[2] == ':' && IsDigit(s[3]) && IsDigit(s[4])
    && s[5] == ' ' && (s[6] == 'A' || s[6] == 'P') && s[7] == 'M' && 1 <= DigitAt(s, 0) * 10 + DigitAt(s, 1) <= 11
  }

  /** The minutes after midnight a slot label names. */
  function LabelMinutes(s: string): int
    requires |s| == 8
  {
    (DigitAt(s, 0) * 10 + DigitAt(s, 1) + (if s[6] == 'P' then 12 else 0)) * 60 + DigitAt(s, 3) * 10 + DigitAt(s, 4)
  }

  /** A slot label taken apart into its hour, minute and modifier fields. */
  lemma LabelParts(s: string) returns (hh: string, mm: string, mod: string)
    requires SlotLabel(s)
    ensures s == hh + ":" + mm + " " + mod && (mod == "AM" || mod == "PM")
    ensures |hh| == 2 && |mm| == 2 && AllDigits(hh) && AllDigits(mm) && hh != "12"
    ensures 1 <= DigitsValue(hh) <= 11
    ensures LabelMinutes(s) == (DigitsValue(hh) + (if mod == "PM" then 12 else 0)) * 60 + DigitsValue(mm)
  {
    hh, mm, mod := s[..2], s[3..5], s[6..];
    assert s == hh + ":" + mm + " " + mod;
    assert mod == [s[6], s[7]];
    TwoDigits(hh);
    TwoDigits(mm);
    assert DigitsValue(hh) == DigitAt(s, 0) * 10 + DigitAt(s, 1);
    TwoDigits("12");
  }

  /** A slot label converts to the 24-hour time of the minutes it names. */
  lemma LabelConverts(s: string)
    requires SlotLabel(s)
    ensures LabelMinutes(s) >= 0 && ClockMinutes(ConvertTo24Hour(s)) == Some(LabelMinutes(s) as nat)
  {
    var hh, mm, mod := LabelParts(s);
    if mod == "AM" {
      MorningSlot(s, hh, mm, LabelMinutes(s));
    } else {
      AfternoonSlot(s, hh, mm, LabelMinutes(s));
    }
  }

  /** The minutes after midnight of each slot, in list order. */
  const SlotMinutes: seq<int> := [540, 570, 600, 630, 660, 690, 840, 870, 900, 930, 960, 990]

  lemma SlotLabels()
    ensures forall i :: 0 <= i < |TimeSlots| ==> SlotLabel(TimeSlots[i]) && LabelMinutes(TimeSlots[i]) == SlotMinutes[i]
  {
  }

  /** Every slot converts to a well-formed 24-hour time, and the converted times are
      strictly increasing (so pairwise distinct) in list order. */
  lemma SlotsStrictlyIncreasing()
    ensures forall i :: 0 <= i < |TimeSlots| ==> ClockMinutes(ConvertTo24Hour(TimeSlots[i])).Some?
    ensures forall i, j :: 0 <= i < j < |TimeSlots| ==>
      ClockMinutes(ConvertTo24Hour(TimeSlots[i])).value < ClockMinutes(ConvertTo24Hour(TimeSlots[j])).value
  {
    SlotLabels();
    forall i | 0 <= i < |TimeSlots| ensures ClockMinutes(ConvertTo24Hour(TimeSlots[i])) == Some(SlotMinutes[i] as nat) {
      LabelConverts(TimeSlots[i]);
    }
    SlotMinutesIncreasing();
  }

  lemma SlotMinutesIncreasing()
    ensures forall i, j :: 0 <= i < j < |SlotMinutes| ==> SlotMinutes[i] < SlotMinutes[j]
  {
    Seqs.NeighboursIncreasing(SlotMinutes);
  }

  // ---------------------------------------------------------------------------
  // The booking form
  // ---------------------------------------------------------------------------

  /** The row inserted into `appointments`. The date is the local date-time text handed
      to the `Date` constructor. */
  datatype Appointment = Appointment(
    patientId: string, doctorId: string, appointmentDate: string,
    reason: string, status: string, reportsShared: seq<string>)

  class BookingForm {
    /** The signed-in user's id and the `:doctorId` route parameter. */
    const userId: Option<string>
    const doctorId: Option<string>
    var selectedDate: string
    var selectedTime: string
    var visitReason: string
    var shareReports: bool
    var isSubmitting: bool
    var isConfirmed: bool
    var error: Option<string>

    /** The time is empty until a slot button is pressed, and then one of the slots. */
    predicate Valid()
      reads this
    {
      selectedTime == "" || selectedTime in TimeSlots
    }

    constructor(userId: Option<string>, doctorId: Option<string>)
      ensures Valid()
      ensures this.userId == userId && this.doctorId == doctorId
      ensures selectedDate == "" && selectedTime == "" && visitReason == "" && shareReports
      ensures !isSubmitting && !isConfirmed && error.None?
    {
      this.userId := userId;
      this.doctorId := doctorId;
      selectedDate := "";
      selectedTime := "";
      visitReason := "";
      shareReports := true;
      isSubmitting := false;
      isConfirmed := false;
      error := None;
    }

    /** The date input's `onChange`. */
    method PickDate(date: string)
      requires Valid()
      modifies this
      ensures Valid()
      ensures selectedDate == date
      ensures selectedTime == old(selectedTime) && visitReason == old(visitReason) && shareReports == old(shareReports)
      ensures isSubmitting == old(isSubmitting) && isConfirmed == old(isConfirmed) && error == old(error)
    {
      selectedDate := date;
    }

    /** The button of slot number `slot`. */
    method PickTime(slot: nat)
      requires Valid() && slot < |TimeSlots|
      modifies this
      ensures Valid()
      ensures selectedTime == TimeSlots[slot]
      ensures selectedDate == old(selectedDate) && visitReason == old(visitReason) && shareReports == old(shareReports)
      ensures isSubmitting == old(isSubmitting) && isConfirmed == old(isConfirmed) && error == old(error)
    {
      selectedTime := TimeSlots[slot];
    }

    /** The reason text area's `onChange`. */
    method Describe(reason: string)
      requires Valid()
      modifies this
      ensures Valid()
      ensures visitReason == reason
      ensures selectedDate == old(selectedDate) && selectedTime == old(selectedTime) && shareReports == old(shareReports)
      ensures isSubmitting == old(isSubmitting) && isConfirmed == old(isConfirmed) && error == old(error)
    {
      visitReason := reason;
    }

    /** The share checkbox's `onChange`. */
    method SetShare(share: bool)
      requires Valid()
      modifies this
      ensures Valid()
      ensures shareReports == share
      ensures selectedDate == old(selectedDate) && selectedTime == old(selectedTime) && visitReason == old(visitReason)
      ensures isSubmitting == old(isSubmitting) && isConfirmed == old(isConfirmed) && error == old(error)
    {
      shareReports := share;
    }

    /** `handleSubmit`, given the ids returned by the patient's report query (`None` for a
        null result) and the insert's outcome (`None` on success, else the error's message).
        Returns the ids reassigned to the doctor (`None` when no update was issued) and the
        row offered for insertion. */
    method Submit(patientReports: Option<seq<string>>, insertError: Option<Option<string>>)
      returns (reassigned: Option<seq<string>>, booking: Option<Appointment>)
      requires Valid()
      modifies this
      ensures Valid()
      ensures booking.Some? <==> Truthy(userId) && Truthy(doctorId) && selectedDate != "" && selectedTime != ""
      ensures booking.None? ==> (reassigned.None? && isSubmitting == old(isSubmitting)
        && isConfirmed == old(isConfirmed) && error == old(error))
      ensures reassigned.Some? <==> booking.Some? && shareReports && patientReports.Some?
      ensures reassigned.Some? ==> reassigned == patientReports
      ensures booking.Some? ==> booking.value == Appointment(userId.value, doctorId.value,
        selectedDate + "T" + ConvertTo24Hour(selectedTime), visitReason, Scheduled,
        if reassigned.Some? then reassigned.value else [])
      ensures booking.Some? ==> (!isSubmitting
        && (insertError.None? ==> isConfirmed && error.None?)
        && (insertError.Some? ==> isConfirmed == old(isConfirmed) && error == Some(OrElse(insertError.value, BookingFailed))))
      ensures selectedDate == old(selectedDate) && selectedTime == old(selectedTime)
        && visitReason == old(visitReason) && shareReports == old(shareReports)
    {
      if !Truthy(userId) || !Truthy(doctorId) || selectedDate == "" || selectedTime == "" {
        return None, None;
      }
      isSubmitting := true;
      error := None;
      var sharedReportIds: seq<string> := [];
      reassigned := None;
      if shareReports && patientReports.Some? {
        sharedReportIds := patientReports.value;
        reassigned := Some(sharedReportIds);
      }
      booking := Some(Appointment(userId.value, doctorId.value,
        selectedDate + "T" + ConvertTo24Hour(selectedTime), visitReason, Scheduled, sharedReportIds));
      if insertError.None? {
        isConfirmed := true;
      } else {
        error := Some(OrElse(insertError.value, BookingFailed));
      }
      isSubmitting := false;
    }
  }

  /** Whatever time the form holds when it is submitted converts to a valid clock time. */
  lemma SubmittedTimeIsClockTime(form: BookingForm)
    requires form.Valid() && form.selectedTime != ""
    ensures ClockMinutes(ConvertTo24Hour(form.selectedTime)).Some?
  {
    var i :| 0 <= i < |TimeSlots| && TimeSlots[i] == form.selectedTime;
    SlotsStrictlyIncreasing();
  }
}

/**
 * The doctor's list of reports assigned to them: a case-insensitive search over the
 * report's title and the patient's name, both of which may be missing, and the status
 * badge.
 */
module PatientReportsReview {
  import opened Wrappers
  import opened Text
  import opened Seqs

  /** The fields the list reads; `patientName` is the joined `patient.profiles.full_name`. */
  datatype Report = Report(id: string, title: Option<string>, patientName: Option<string>, status: string)

  datatype Badge = AmberBadge | GreenBadge

  /** `x?.toLowerCase().includes(q)`: a missing value never matches. */
  predicate OptionalContains(x: Option<string>, q: string) {
    x.Some? && Contains(ToLower(x.value), q)
  }

  /** The `filteredReports` predicate. */
  predicate Keeps(r: Report, query: string) {
    OptionalContains(r.title, ToLower(query)) || OptionalContains(r.patientName, ToLower(query))
  }

  function Filtered(reports: seq<Report>, query: string): (r: seq<Report>)
    ensures IsSubsequence(r, reports)
    ensures forall i :: 0 <= i < |r| ==> Keeps(r[i], query)
    ensures forall i :: 0 <= i < |reports| && Keeps(reports[i], query) ==> reports[i] in r
    ensures forall x :: multiset(r)[x] == if Keeps(x, query) then multiset(reports)[x] else 0
  {
    FilterIsSubsequence(reports, x => Keeps(x, query));
    FilterCounts(reports, x => Keeps(x, query));
    Filter(reports, x => Keeps(x, query))
  }

  /** A report with neither a title nor a patient name is never listed, not even for the
      empty search; one with either is listed for the empty search. */
  lemma EmptySearchNeedsTitleOrName(r: Report)
    ensures Keeps(r, "") <==> r.title.Some? || r.patientName.Some?
  {
    assert ToLower("") == "";
    if r.title.Some? {
      ContainsEmpty(ToLower(r.title.value));
    }
    if r.patientName.Some? {
      ContainsEmpty(ToLower(r.patientName.value));
    }
  }

  /** A report without title and patient name is dropped from every search. */
  lemma AnonymousReportExcluded(reports: seq<Report>, query: string, r: Report)
    requires r.title.None? && r.patientName.None?
    ensures r !in Filtered(reports, query)
  {
  }

  /** The status badge: amber exactly for "pending", green for every other status. */
  function StatusBadge(status: string): (b: Badge)
    ensures b == AmberBadge <==> status == "pending"
    ensures b == GreenBadge <==> status != "pending"
  {
    if status == "pending" then AmberBadge else GreenBadge
  }
}

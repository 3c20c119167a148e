/**
 * The patient's report archive: a case-insensitive search over title and category, an
 * exact report-type facet, a status facet compared against its lowercased label, and the
 * heading of the empty state.
 */
module ReportList {
  import opened Text
  import opened Seqs
  import opened Wrappers

  const All := "All"
  const ArchiveEmpty := "Your medical archive is empty"
  const NoMatches := "No matching reports found"

  /** The fields of a `reports` row that the list reads. */
  datatype Report = Report(id: string, title: string, category: string, status: string)

  /** The `filteredReports` predicate. */
  predicate Keeps(r: Report, query: string, filterType: string, filterStatus: string) {
    var q := ToLower(query);
    (Contains(ToLower(r.title), q) || Contains(ToLower(r.category), q))
    && (filterType == All || r.category == filterType)
    && (filterStatus == All || r.status == ToLower(filterStatus))
  }

  function Filtered(reports: seq<Report>, query: string, filterType: string, filterStatus: string): (r: seq<Report>)
    ensures IsSubsequence(r, reports)
    ensures forall i :: 0 <= i < |r| ==> Keeps(r[i], query, filterType, filterStatus)
    ensures forall i :: 0 <= i < |reports| && Keeps(reports[i], query, filterType, filterStatus) ==> reports[i] in r
    ensures forall x :: multiset(r)[x] == if Keeps(x, query, filterType, filterStatus) then multiset(reports)[x] else 0
  {
    FilterIsSubsequence(reports, x => Keeps(x, query, filterType, filterStatus));
    FilterCounts(reports, x => Keeps(x, query, filterType, filterStatus));
    Filter(reports, x => Keeps(x, query, filterType, filterStatus))
  }

  /** The two status options besides "All": each keeps exactly the rows whose stored status
      is its label in lower case. */
  lemma StatusSelectors(r: Report)
    ensures Keeps(r, "", All, "Pending") <==> r.status == "pending"
    ensures Keeps(r, "", All, "Analyzed") <==> r.status == "analyzed"
  {
    assert ToLower("Pending") == "pending";
    assert ToLower("Analyzed") == "analyzed";
    ContainsEmpty(ToLower(r.title));
    assert ToLower("") == "";
  }

  /** An empty search with both facets on "All" keeps every report, in order. */
  lemma EmptySearchKeepsAll(reports: seq<Report>)
    ensures Filtered(reports, "", All, All) == reports
  {
    assert ToLower("") == "";
    forall i | 0 <= i < |reports|
      ensures Keeps(reports[i], "", All, All)
    {
      ContainsEmpty(ToLower(reports[i].title));
    }
    FilterKeepsAll(reports, x => Keeps(x, "", All, All));
  }

  /** The heading shown when nothing is listed, or `None` when some report is listed. */
  function EmptyStateHeading(reports: seq<Report>, filtered: seq<Report>): (h: Option<string>)
    ensures h.None? <==> filtered != []
    ensures h == Some(ArchiveEmpty) <==> filtered == [] && reports == []
    ensures h == Some(NoMatches) <==> filtered == [] && reports != []
  {
    if filtered != [] then None
    else if reports == [] then Some(ArchiveEmpty)
    else Some(NoMatches)
  }

  /** With the filters cleared, an archive that holds a report shows it and no empty state. */
  lemma ClearedFiltersShowArchive(reports: seq<Report>)
    requires reports != []
    ensures EmptyStateHeading(reports, Filtered(reports, "", All, All)).None?
  {
    EmptySearchKeepsAll(reports);
  }
}

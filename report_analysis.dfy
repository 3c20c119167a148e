/**
 * The report page's status styling: a case-insensitive switch from a status to one of four
 * display classes, and the default used when the report has no status.
 */
module ReportAnalysis {
  import opened Wrappers
  import opened Text

  datatype Icon = CheckCircle | AlertTriangle | InfoIcon

  /** The background, text and bar classes and the icon of a status. */
  datatype StatusStyle = StatusStyle(bg: string, text: string, bar: string, icon: Icon)

  const NormalStyle := StatusStyle("bg-green-50", "text-green-700", "bg-green-400", CheckCircle)
  const WarningStyle := StatusStyle("bg-amber-50", "text-amber-700", "bg-amber-400", AlertTriangle)
  const CriticalStyle := StatusStyle("bg-red-50", "text-red-700", "bg-red-400", AlertTriangle)
  const DefaultStyle := StatusStyle("bg-gray-50", "text-gray-700", "bg-gray-400", InfoIcon)

  /** `getStatusColor`: the status is lowercased before the switch; a missing status takes
      the default branch. */
  function StatusColor(status: Option<string>): (c: StatusStyle)
    ensures c in {NormalStyle, WarningStyle, CriticalStyle, DefaultStyle}
    ensures c == NormalStyle <==> status.Some? && ToLower(status.value) == "normal"
    ensures c == WarningStyle <==> status.Some? && ToLower(status.value) == "warning"
    ensures c == CriticalStyle <==> status.Some? && ToLower(status.value) == "critical"
    ensures c.icon == AlertTriangle <==> c == WarningStyle || c == CriticalStyle
  {
    if status.None? then DefaultStyle
    else
      var s := ToLower(status.value);
      if s == "normal" then NormalStyle
      else if s == "warning" then WarningStyle
      else if s == "critical" then CriticalStyle
      else DefaultStyle
  }

  /** Case never matters: a status and its lower-case form get the same style. */
  lemma StatusColorIgnoresCase(s: string)
    ensures StatusColor(Some(s)) == StatusColor(Some(ToLower(s)))
  {
    ToLowerIdempotent(s);
  }

  /** The list statuses "pending" and "analyzed" fall to the gray default. */
  lemma WorkflowStatusesAreDefault()
    ensures StatusColor(Some("pending")) == DefaultStyle
    ensures StatusColor(Some("analyzed")) == DefaultStyle
  {
    assert ToLower("pending") == "pending";
    assert ToLower("analyzed") == "analyzed";
  }

  /** The summary card's style: `report.status || 'normal'`. */
  function SummaryStyle(reportStatus: Option<string>): (c: StatusStyle)
    ensures !Truthy(reportStatus) ==> c == NormalStyle
    ensures Truthy(reportStatus) ==> c == StatusColor(reportStatus)
  {
    assert ToLower("normal") == "normal";
    StatusColor(Some(OrElse(reportStatus, "normal")))
  }
}

/**
 * The badges that show an incident's status, severity and type: fixed lookup
 * tables from the written form of a value to a style class and a label, with
 * the type badge falling back to the raw string for a type it does not know.
 */
module StatusBadge {
  import opened Types

  /** The style class of a status badge. */
  function StatusStyle(status: IncidentStatus): string
  {
    match status
    case Open => "badge-open"
    case Investigating => "badge-investigating"
    case Resolved => "badge-resolved"
  }

  function StatusLabel(status: IncidentStatus): string
  {
    match status
    case Open => "Open"
    case Investigating => "Investigating"
    case Resolved => "Resolved"
  }

  function SeverityStyle(severity: Severity): string
  {
    match severity
    case Critical => "badge-critical"
    case High => "badge-high"
    case Medium => "badge-medium"
    case Low => "badge-low"
  }

  function SeverityLabel(severity: Severity): string
  {
    match severity
    case Critical => "Critical"
    case High => "High"
    case Medium => "Medium"
    case Low => "Low"
  }

  /** `typeLabels` */
  const TypeLabels: map<string, string> := map[
    "hallucination" := "Hallucination",
    "retrieval_failure" := "Retrieval Failure",
    "policy_violation" := "Policy Violation",
    "timeout" := "Timeout",
    "context_overflow" := "Context Overflow"]

  /** `typeLabels[type] || type`: the table's label, or the string itself when the table has no (non-empty) label. */
  function TypeLabel(incidentType: string): string
  {
    if incidentType in TypeLabels && TypeLabels[incidentType] != "" then TypeLabels[incidentType] else incidentType
  }

  function UpperChar(c: char): char
  {
    if 'a' <= c <= 'z' then (c as int - 32) as char else c
  }

  /**
   * A written form as a person would read it: underscores become spaces and the
   * first letter of each word is capitalised.
   */
  function Humanize(name: string): (r: string)
    ensures |r| == |name|
  {
    seq(|name|, i requires 0 <= i < |name| =>
      if name[i] == '_' then ' '
      else if i == 0 || name[i - 1] == '_' then UpperChar(name[i])
      else name[i])
  }

  /** Every status style class is "badge-" followed by the status's written form. */
  lemma StatusStylesFollowNames(status: IncidentStatus)
    ensures StatusStyle(status) == "badge-" + StatusName(status)
  {
  }

  /** Every severity style class is "badge-" followed by the severity's written form. */
  lemma SeverityStylesFollowNames(severity: Severity)
    ensures SeverityStyle(severity) == "badge-" + SeverityName(severity)
  {
  }

  /** Each status label is the status's written form humanized. */
  lemma StatusLabelsHumanizeNames(status: IncidentStatus)
    ensures StatusLabel(status) == Humanize(StatusName(status))
  {
  }

  /** Each severity label is the severity's written form humanized. */
  lemma SeverityLabelsHumanizeNames(severity: Severity)
    ensures SeverityLabel(severity) == Humanize(SeverityName(severity))
  {
  }

  /** Each known type's label is its written form humanized, e.g. "retrieval_failure" reads "Retrieval Failure". */
  lemma TypeLabelsHumanizeNames(incidentType: IncidentType)
    ensures TypeLabel(IncidentTypeName(incidentType)) == Humanize(IncidentTypeName(incidentType))
  {
    var name := IncidentTypeName(incidentType);
    var shown := TypeLabels[name];
    assert TypeLabel(name) == shown;
    HumanizedTypeLabel(name, shown);
  }

  /** The label the table holds for a known type is that type's written form humanized. */
  lemma HumanizedTypeLabel(name: string, shown: string)
    requires name in TypeLabels && shown == TypeLabels[name]
    ensures shown == Humanize(name)
  {
    if name == "hallucination" {
      HumanizeHallucination();
    } else if name == "retrieval_failure" {
      HumanizeRetrievalFailure();
    } else if name == "policy_violation" {
      HumanizePolicyViolation();
    } else if name == "timeout" {
      HumanizeTimeout();
    } else {
      HumanizeContextOverflow();
    }
  }

  /** Distinct statuses get distinct labels, and so do distinct severities. */
  lemma LabelsDistinct(a: IncidentStatus, b: IncidentStatus, c: Severity, d: Severity)
    ensures StatusLabel(a) == StatusLabel(b) ==> a == b
    ensures SeverityLabel(c) == SeverityLabel(d) ==> c == d
  {
  }

  /** A string that is not one of the five known types is shown unchanged. */
  lemma UnknownTypeShownRaw(incidentType: string)
    requires forall t :: IncidentTypeName(t) != incidentType
    ensures TypeLabel(incidentType) == incidentType
  {
    assert incidentType !in TypeLabels by {
      assert IncidentTypeName(Hallucination) != incidentType;
      assert IncidentTypeName(RetrievalFailure) != incidentType;
      assert IncidentTypeName(PolicyViolation) != incidentType;
      assert IncidentTypeName(Timeout) != incidentType;
      assert IncidentTypeName(ContextOverflow) != incidentType;
    }
  }

  lemma HumanizeHallucination()
    ensures Humanize("hallucination") == "Hallucination"
  {
  }

  lemma HumanizeRetrievalFailure()
    ensures Humanize("retrieval_failure") == "Retrieval Failure"
  {
  }

  lemma HumanizePolicyViolation()
    ensures Humanize("policy_violation") == "Policy Violation"
  {
  }

  lemma HumanizeTimeout()
    ensures Humanize("timeout") == "Timeout"
  {
  }

  lemma HumanizeContextOverflow()
    ensures Humanize("context_overflow") == "Context Overflow"
  {
  }
}

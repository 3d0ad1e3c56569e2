/**
 * The dashboard's domain types: the closed string unions become enumerations and
 * the interfaces become records. Dates are integer milliseconds since the epoch.
 * Fields the model does not use (floating-point durations, free-form step
 * metadata) are left out.
 */
module Types {
  import opened Collections

  datatype Severity = Critical | High | Medium | Low
  datatype IncidentStatus = Open | Investigating | Resolved
  datatype IncidentType = Hallucination | RetrievalFailure | PolicyViolation | Timeout | ContextOverflow
  datatype StepType = UserInput | RagRetrieval | LlmCall | ToolCall | Output
  /** The status union shared by traces and trace steps. */
  datatype RunStatus = Success | Error | Warning
  datatype PolicyType = Content | Safety | Compliance | Performance

  /** The string each severity value is written as. */
  function SeverityName(s: Severity): string
  {
    match s
    case Critical => "critical"
    case High => "high"
    case Medium => "medium"
    case Low => "low"
  }

  function StatusName(s: IncidentStatus): string
  {
    match s
    case Open => "open"
    case Investigating => "investigating"
    case Resolved => "resolved"
  }

  function IncidentTypeName(t: IncidentType): string
  {
    match t
    case Hallucination => "hallucination"
    case RetrievalFailure => "retrieval_failure"
    case PolicyViolation => "policy_violation"
    case Timeout => "timeout"
    case ContextOverflow => "context_overflow"
  }

  function RunStatusName(s: RunStatus): string
  {
    match s
    case Success => "success"
    case Error => "error"
    case Warning => "warning"
  }

  /** The written forms are pairwise distinct, and none of them is the filter value "all". */
  lemma NamesDistinct()
    ensures forall a, b :: StatusName(a) == StatusName(b) ==> a == b
    ensures forall a, b :: SeverityName(a) == SeverityName(b) ==> a == b
    ensures forall a, b :: RunStatusName(a) == RunStatusName(b) ==> a == b
    ensures forall a, b :: IncidentTypeName(a) == IncidentTypeName(b) ==> a == b
    ensures forall a :: StatusName(a) != "all"
    ensures forall a :: SeverityName(a) != "all"
    ensures forall a :: RunStatusName(a) != "all"
  {
  }

  datatype Incident = Incident(
    id: string,
    incidentType: IncidentType,
    title: string,
    description: string,
    agentId: string,
    agentName: string,
    severity: Severity,
    status: IncidentStatus,
    lastSeen: int,
    firstSeen: int,
    eventCount: int,
    affectedUsers: int,
    rootCause: Option<string>)

  datatype TraceStep = TraceStep(
    id: string,
    stepType: StepType,
    name: string,
    status: RunStatus,
    input: Option<string>,
    output: Option<string>,
    timestamp: int)

  datatype Trace = Trace(
    id: string,
    agentId: string,
    agentName: string,
    modelVersion: string,
    status: RunStatus,
    startedAt: int,
    steps: seq<TraceStep>,
    userId: Option<string>)

  datatype Policy = Policy(
    id: string,
    name: string,
    description: string,
    enabled: bool,
    policyType: PolicyType,
    violationCount: int,
    lastTriggered: Option<int>)

  /** The shape of the guardrail fixtures (they have no declared interface). */
  datatype Guardrail = Guardrail(
    id: string,
    name: string,
    description: string,
    enabled: bool,
    triggersToday: int)

  datatype ChangeType = Increase | Decrease

  datatype DashboardMetric = DashboardMetric(
    caption: string,
    value: real,
    change: Option<real>,
    changeType: Option<ChangeType>)
}
